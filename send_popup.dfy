/** The confirmation popup that sends an already saved campaign, with the
    daily quota shown and enforced. */
module SendPopup {
  import opened Wrappers
  import opened Entities
  import opened Effects
  import opened Quota
  import Wizard

  /** `campaign.hrList?.length || 0` */
  function HrCount(c: Campaign): (r: nat)
    ensures c.hrList.Some? ==> r == |c.hrList.value|
    ensures c.hrList.None? ==> r == 0
  {
    if c.hrList.Some? then |c.hrList.value| else 0
  }

  /** The number of emails left after the send, shown in the "Ready to send!"
      notice, which appears only when a quota is loaded and not exceeded. */
  function ReadyRemaining(limit: Option<EmailLimit>, count: nat): (r: Option<int>)
    ensures r.Some? <==> limit.Some? && !ExceedsLimit(limit, count)
    ensures r.Some? ==> r.value >= 0 && r.value + count == limit.value.remainingLimit
  {
    if !ExceedsLimit(limit, count) && limit.Some? then Some(limit.value.remainingLimit - count) else None
  }

  const OverLimitMessage := "Selected HR count exceeds remaining email limit. Reduce HRs or try again tomorrow."

  /** `campaigns/${campaign._id}/send`, where a missing id prints as "undefined". */
  function SendPath(id: Option<string>): string {
    "campaigns/" + (match id case Some(v) => v case None => "undefined") + "/send"
  }

  class SendCampaignPopup {
    const campaign: Campaign
    const emailLimit: Option<EmailLimit>
    /** Whether the page passed an `onSent` callback. */
    const hasOnSent: bool
    var isSending: bool
    var requests: seq<Request<()>>
    var toasts: seq<Toast>
    /** The arguments of every `onSent` call. */
    var sentCalls: seq<Option<string>>
    /** Whether `onClose` has been called. */
    var closed: bool

    predicate Exceeds()
      reads this
    {
      ExceedsLimit(emailLimit, HrCount(campaign))
    }

    /** Cancel is disabled exactly while sending. */
    predicate CancelDisabled()
      reads this
    {
      isSending
    }

    /** Send Now is disabled while sending or over the quota. */
    predicate SendDisabled()
      reads this
    {
      isSending || Exceeds()
    }

    function SendLabel(): string
      reads this
    {
      if isSending then "Sending..." else "Send Now"
    }

    constructor (campaign: Campaign, emailLimit: Option<EmailLimit>, hasOnSent: bool)
      ensures this.campaign == campaign && this.emailLimit == emailLimit && this.hasOnSent == hasOnSent
      ensures !isSending && requests == [] && toasts == [] && sentCalls == [] && !closed
    {
      this.campaign := campaign;
      this.emailLimit := emailLimit;
      this.hasOnSent := hasOnSent;
      isSending := false;
      requests := [];
      toasts := [];
      sentCalls := [];
      closed := false;
    }

    /** The first half of `handleSendNow`: nothing while a send is in flight,
        only an error over the quota, and otherwise the send starts. */
    method Send()
      modifies this
      ensures old(isSending) ==> isSending && requests == old(requests) && toasts == old(toasts)
      ensures !old(isSending) && Exceeds() ==>
        !isSending && requests == old(requests) && toasts == old(toasts) + [ToastError(OverLimitMessage)]
      ensures !old(isSending) && !Exceeds() ==>
        isSending && requests == old(requests) + [Request(POST, SendPath(campaign.id), ())] && toasts == old(toasts)
      ensures sentCalls == old(sentCalls) && closed == old(closed)
    {
      if isSending {
        return;
      }
      if Exceeds() {
        toasts := toasts + [ToastError(OverLimitMessage)];
        return;
      }
      isSending := true;
      requests := requests + [Request(POST, SendPath(campaign.id), ())];
    }

    /** The second half: a success reports the campaign's id to `onSent`, when
        given, and closes the popup; either way the send is over. */
    method SendSettled(sent: bool)
      requires isSending
      modifies this
      ensures !isSending && requests == old(requests)
      ensures sent ==>
        && toasts == old(toasts) + [ToastSuccess(Wizard.SentMessage)]
        && sentCalls == old(sentCalls) + (if hasOnSent then [campaign.id] else [])
        && closed
      ensures !sent ==>
        toasts == old(toasts) + [ToastError(Wizard.SendFailedMessage)] && sentCalls == old(sentCalls) && closed == old(closed)
    {
      if sent {
        toasts := toasts + [ToastSuccess(Wizard.SentMessage)];
        if hasOnSent {
          sentCalls := sentCalls + [campaign.id];
        }
        closed := true;
      } else {
        toasts := toasts + [ToastError(Wizard.SendFailedMessage)];
      }
      isSending := false;
    }

    /** The Cancel button, which is disabled while sending. */
    method Cancel()
      requires !CancelDisabled()
      modifies this
      ensures closed
      ensures isSending == old(isSending) && requests == old(requests) && toasts == old(toasts) && sentCalls == old(sentCalls)
    {
      closed := true;
    }
  }
}
