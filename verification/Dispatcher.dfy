/** The SendGrid dispatcher: what an HTTP answer lets it conclude about a message,
    what it records, and cancelling a batch twice. */
module Dispatcher {
  import opened Strings
  import opened Wrappers
  import opened Engagement
  import opened EngagementStore
  import FanOut

  /** How a request ended: not built at all, lost on the way, or answered. */
  datatype Reply = NotSent | TransportError | Answered(status: nat, body: string)

  datatype Input = Input(to: string, html: string, text: string, group: GroupId, fromAllowed: bool)

  /* ---- the provider ---- */

  /** The provider answers 200 or 202 only to a message it accepted, a 4xx only to one
      it did not; anything else leaves the question open. A request that was never
      sent cannot have been accepted. */
  predicate Honest(reply: Reply, accepted: bool) {
    match reply
    case NotSent => !accepted
    case TransportError => true
    case Answered(status, _) =>
      && (status == 200 || status == 202 ==> accepted)
      && (400 <= status < 500 ==> !accepted)
  }

  /* ---- one message ---- */

  // postMailSend: nil, or an error and whether it is a definitive rejection.
  method PostMailSend(reply: Reply) returns (failed: bool, definitive: bool)
    ensures definitive ==> failed
    ensures failed <==> !(reply.Answered? && (reply.status == 200 || reply.status == 202))
    ensures definitive <==> reply.Answered? && 400 <= reply.status < 500
  {
    match reply {
      case NotSent => return true, false;
      case TransportError => return true, false;
      case Answered(status, _) =>
        if status == 200 || status == 202 {
          return false, false;
        }
        if status == 401 || status == 402 || status == 403 {
          return true, true;
        }
        if status == 429 {
          return true, true;
        }
        if status >= 400 && status < 500 {
          return true, true;
        }
        return true, false;
    }
  }

  /** SendEmail. `accepted` is the truth at the provider, which the dispatcher cannot
      see; `stored` whether its best-effort record goes through. What it reports as
      accepted was accepted, what it reports as rejected was not, and it records a
      failure only for a message that can no longer be delivered. */
  method SendEmail(store: SendGridEngagementStore, mail: Input, email: EmailId, at: Time, reply: Reply, stored: bool,
                   ghost accepted: bool)
    returns (outcome: FanOut.Outcome, handle: EmailId)
    requires Honest(reply, accepted)
    requires IsBlank(mail.to) || (IsBlank(mail.html) && IsBlank(mail.text)) || !mail.fromAllowed ==> reply == NotSent
    modifies store
    ensures outcome == FanOut.Accepted ==> accepted
    ensures outcome == FanOut.Rejected ==> !accepted
    ensures outcome == FanOut.Rejected <==>
              || IsBlank(mail.to) || (IsBlank(mail.html) && IsBlank(mail.text)) || !mail.fromAllowed
              || (reply.Answered? && 400 <= reply.status < 500)
    ensures outcome == FanOut.Accepted <==>
              && !IsBlank(mail.to) && !(IsBlank(mail.html) && IsBlank(mail.text)) && mail.fromAllowed
              && reply.Answered? && (reply.status == 200 || reply.status == 202)
    ensures handle == if outcome == FanOut.Accepted && !IsBlank(mail.group) then email else ""
    ensures IsBlank(mail.group) || !stored || outcome == FanOut.Ambiguous || reply == NotSent ==>
              store.State() == old(store.State())
    ensures !IsBlank(mail.group) && stored && outcome == FanOut.Accepted ==>
              store.State() == Apply(old(store.State()), RecordSent(email, mail.group, mail.to, at))
    ensures !IsBlank(mail.group) && stored && outcome == FanOut.Rejected && reply != NotSent ==>
              store.State() == Apply(old(store.State()), Failed(email, mail.group, mail.to, at))
  {
    handle := "";
    if IsBlank(mail.to) || (IsBlank(mail.html) && IsBlank(mail.text)) {
      return FanOut.Rejected, handle;
    }
    var tracked := !IsBlank(mail.group);
    if !mail.fromAllowed {
      return FanOut.Rejected, handle;
    }
    var failed, definitive := PostMailSend(reply);
    if failed {
      if tracked && definitive && stored {
        store.ApplyFailed(email, mail.group, mail.to, at);
      }
      return if definitive then FanOut.Rejected else FanOut.Ambiguous, handle;
    }
    if tracked {
      if stored {
        store.RecordSend(email, mail.group, mail.to, at);
      }
      handle := email;
    }
    outcome := FanOut.Accepted;
  }

  /* ---- cancelling a batch ---- */

  const ALREADY_CANCELLED := "already exists in the cancel"

  /** One cancel request at the provider, from the batches cancelled before it to those
      after it. A lost request may or may not have arrived. */
  predicate CancelStep(before: set<string>, batch: string, reply: Reply, after: set<string>) {
    match reply
    case NotSent => after == before
    case TransportError => after == before || after == before + {batch}
    case Answered(status, body) =>
      if status == 200 || status == 201 || status == 204 then after == before + {batch}
      else after == before && (status == 400 && Contains(body, ALREADY_CANCELLED) ==> batch in before)
  }

  method CancelScheduledBatch(batch: string, reply: Reply, ghost before: set<string>,
                              ghost after: set<string>) returns (ok: bool)
    requires CancelStep(before, batch, reply, after)
    requires IsBlank(batch) ==> reply == NotSent
    ensures ok ==> batch in after && reply.Answered?
    ensures ok <==> && !IsBlank(batch) && reply.Answered?
                    && (reply.status in {200, 201, 204} ||
                        (reply.status == 400 && Contains(reply.body, "already exists in the cancel")))
    ensures before <= after <= before + {batch}
  {
    if IsBlank(batch) || !reply.Answered? {
      return false;
    }
    if reply.status == 200 || reply.status == 201 || reply.status == 204 {
      return true;
    }
    if reply.status == 400 && Contains(reply.body, ALREADY_CANCELLED) {
      return true;
    }
    ok := false;
  }
}
