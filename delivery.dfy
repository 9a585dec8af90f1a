/** What the two transports hand back and how a batch of sends is summed
    up; shared by src/lib/email.ts and src/lib/sms.ts. The transports
    themselves (nodemailer, the Twilio client) are oracles: each call
    either accepts the message under a provider id or throws. */
module Delivery {

  /** A value thrown by a transport: an `Error` with its message, or
      anything else. */
  datatype Thrown = ErrorWithMessage(message: string) | NonErrorValue

  /** One transport call. */
  datatype TransportOutcome = Accepted(messageId: string) | Threw(reason: Thrown)

  /** `EmailResult` / `SmsResult`: `{ success: true, messageId }` or
      `{ success: false, error }`. An empty `error` stands for an `Error`
      whose message was empty. */
  datatype SendResult = Delivered(messageId: string) | NotDelivered(error: string)

  /** `error instanceof Error ? error.message : fallback` */
  function FailureText(reason: Thrown, fallback: string): (r: string)
    ensures reason.ErrorWithMessage? ==> r == reason.message
    ensures reason.NonErrorValue? ==> r == fallback
  {
    match reason
    case ErrorWithMessage(m) => m
    case NonErrorValue => fallback
  }

  /** `{ sent, failed, errors }` */
  datatype BulkSummary = BulkSummary(sent: nat, failed: nat, errors: seq<string>)

  /** The number of results satisfying `success`. */
  function CountDelivered(results: seq<SendResult>): (n: nat)
    ensures n <= |results|
  {
    if results == [] then 0 else (if results[0].Delivered? then 1 else 0) + CountDelivered(results[1..])
  }

  /** The error strings of the failed results that carry one, in order. */
  function FailureErrors(results: seq<SendResult>): (r: seq<string>)
    ensures |r| <= |results| - CountDelivered(results)
    ensures forall e :: e in r ==> e != "" && NotDelivered(e) in results
  {
    if results == [] then []
    else
      var rest := FailureErrors(results[1..]);
      match results[0]
      case Delivered(_) => rest
      case NotDelivered(e) => if e != "" then [e] + rest else rest
  }

  /** The aggregation at the end of `sendBulkEmails` and `sendBulkSms`:
      `sent` counts the successes, `failed` the rest, and `errors` lists
      the non-empty error strings of the failures in order. */
  function Summarize(results: seq<SendResult>): (r: BulkSummary)
    ensures r.sent + r.failed == |results|
    ensures |r.errors| <= r.failed
    ensures forall e :: e in r.errors ==> e != "" && NotDelivered(e) in results
    ensures (forall k :: 0 <= k < |results| ==> results[k].Delivered?) ==> r.failed == 0 && r.errors == []
  {
    AllDeliveredCount(results);
    BulkSummary(CountDelivered(results), |results| - CountDelivered(results), FailureErrors(results))
  }

  /** When every send succeeded, all of them count as sent. */
  lemma {:induction false} AllDeliveredCount(results: seq<SendResult>)
    ensures (forall k :: 0 <= k < |results| ==> results[k].Delivered?) ==> CountDelivered(results) == |results|
  {
    if results != [] {
      AllDeliveredCount(results[1..]);
      if forall k :: 0 <= k < |results| ==> results[k].Delivered? {
        assert forall k :: 0 <= k < |results[1..]| ==> results[1..][k] == results[k + 1];
      }
    }
  }

  /** When every send failed with the same non-empty error, nothing is
      sent and every failure reports that error. */
  lemma {:induction false} AllFailedSummary(results: seq<SendResult>, e: string)
    requires e != ""
    requires forall k :: 0 <= k < |results| ==> results[k] == NotDelivered(e)
    ensures Summarize(results) == BulkSummary(0, |results|, seq(|results|, _ => e))
  {
    if results != [] {
      assert forall k :: 0 <= k < |results[1..]| ==> results[1..][k] == results[k + 1];
      AllFailedSummary(results[1..], e);
      assert FailureErrors(results) == [e] + FailureErrors(results[1..]);
    }
  }

  /** Results gathered batch by batch sum up like the whole list. */
  lemma {:induction false} SummarizeAppend(a: seq<SendResult>, b: seq<SendResult>)
    ensures CountDelivered(a + b) == CountDelivered(a) + CountDelivered(b)
    ensures FailureErrors(a + b) == FailureErrors(a) + FailureErrors(b)
  {
    if a != [] {
      assert (a + b)[1..] == a[1..] + b;
      SummarizeAppend(a[1..], b);
    } else {
      assert a + b == b;
    }
  }
}
