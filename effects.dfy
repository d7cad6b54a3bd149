/** What the pages hand to the outside world: HTTP requests (through the
    `apiService` wrapper) and toast notifications. The model records them in
    order instead of performing them; the server's answer comes back as an
    explicit outcome parameter of the handler that awaited it. */
module Effects {

  datatype HttpMethod = GET | POST | PUT

  /** One call of `apiService(method, path, body)`. */
  datatype Request<+Body> = Request(verb: HttpMethod, path: string, body: Body)

  datatype Toast = ToastError(message: string) | ToastSuccess(message: string)
}
