/** The daily sending quota check shared by the wizard's save and send
    handlers and by the send popup. */
module Quota {
  import opened Wrappers
  import opened Entities

  /** `emailLimit && count > emailLimit.remainingLimit`: a quota that has not
      been loaded never blocks. */
  predicate ExceedsLimit(limit: Option<EmailLimit>, count: int) {
    limit.Some? && count > limit.value.remainingLimit
  }

  /** Blocking is monotone in the number of recipients, and a loaded quota
      that does not block leaves a non-negative remainder after the send. */
  lemma ExceedsLimitSpec(limit: Option<EmailLimit>, count: int, more: int)
    ensures limit.None? ==> !ExceedsLimit(limit, count)
    ensures count <= more && ExceedsLimit(limit, count) ==> ExceedsLimit(limit, more)
    ensures limit.Some? && !ExceedsLimit(limit, count) ==> limit.value.remainingLimit - count >= 0
  {
  }
}
