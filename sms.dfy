/** The SMS transport wrapper (src/lib/sms.ts): the Twilio credentials
    check, the sender choice, the batched bulk send and its summary, and
    the length cap on message bodies. */
module Sms {
  import opened Wrappers
  import opened SmsSettings
  import opened Delivery
  import Text

  /** A message body as `sendSms` receives it. The notification task
      passes the object it meant to format (site name, title, body, URL)
      where a string is expected; a string method called on that object
      throws. */
  datatype SmsBody = TextBody(text: string) | ObjectBody(siteName: string, title: string, body: string, url: string)

  /** `SmsOptions` */
  datatype SmsOptions = SmsOptions(to: string, body: SmsBody)

  /** `messageOptions` as the Twilio client receives it: exactly one of
      `from` and `messagingServiceSid` is non-empty. Only a string body gets
      this far. */
  datatype MessageOptions = MessageOptions(to: string, body: string, from: string, messagingServiceSid: string)

  /** The credentials the Twilio client is created with. */
  datatype TwilioCredentials = TwilioCredentials(accountSid: string, authToken: string)

  const NoSenderError: string := "Twilio not configured: need either a From Phone Number or Messaging Service SID"
  const NoCredentialsError: string := "Twilio not configured: missing Account SID or Auth Token"
  const UnknownSmsError: string := "Unknown error sending SMS"
  /** The message of the `TypeError` thrown by the debug preview
      `messageOptions.body.substring(0, 50)` when the body is not a string. */
  const BodyNotStringError: string := "messageOptions.body.substring is not a function"

  /** `createTwilioClient`: fails without both the account SID and the auth
      token. */
  function CreateTwilioClient(s: SmsSettingsDoc): (r: Result<TwilioCredentials, string>)
    ensures r.Ok? <==> s.twilioAccountSid != "" && s.twilioAuthToken != ""
    ensures r.Ok? ==> r.value == TwilioCredentials(s.twilioAccountSid, s.twilioAuthToken)
    ensures r.Err? ==> r.error == NoCredentialsError
  {
    if s.twilioAccountSid == "" || s.twilioAuthToken == "" then Err(NoCredentialsError)
    else Ok(TwilioCredentials(s.twilioAccountSid, s.twilioAuthToken))
  }

  /** The sender choice: a messaging service SID wins and `from` is then
      left out; otherwise `from` is the from number. */
  function MessageOptionsFor(s: SmsSettingsDoc, to: string, text: string): (m: MessageOptions)
    requires s.twilioFromNumber != "" || s.twilioMessagingServiceSid != ""
    ensures m.to == to && m.body == text
    ensures (m.from == "") != (m.messagingServiceSid == "")
    ensures s.twilioMessagingServiceSid != "" ==> m.messagingServiceSid == s.twilioMessagingServiceSid && m.from == ""
    ensures s.twilioMessagingServiceSid == "" ==> m.from == s.twilioFromNumber && m.messagingServiceSid == ""
  {
    if s.twilioMessagingServiceSid != "" then MessageOptions(to, text, "", s.twilioMessagingServiceSid)
    else MessageOptions(to, text, s.twilioFromNumber, "")
  }

  /** `sendSms`: never throws. A missing sender is reported before missing
      credentials, and missing credentials before a body that is not a
      string; a string body goes to the transport, and a transport failure
      carries its error text. */
  function SendSms(s: SmsSettingsDoc, send: MessageOptions -> TransportOutcome, options: SmsOptions): (r: SendResult)
    ensures s.twilioFromNumber == "" && s.twilioMessagingServiceSid == "" ==> r == NotDelivered(NoSenderError)
    ensures (s.twilioFromNumber != "" || s.twilioMessagingServiceSid != "") && CreateTwilioClient(s).Err? ==>
      r == NotDelivered(NoCredentialsError)
    ensures ((s.twilioFromNumber != "" || s.twilioMessagingServiceSid != "") && CreateTwilioClient(s).Ok?
             && options.body.ObjectBody?) ==> r == NotDelivered(BodyNotStringError)
    ensures ((s.twilioFromNumber != "" || s.twilioMessagingServiceSid != "") && CreateTwilioClient(s).Ok?
             && options.body.TextBody?) ==>
      match send(MessageOptionsFor(s, options.to, options.body.text))
      case Accepted(id) => r == Delivered(id)
      case Threw(reason) => r == NotDelivered(FailureText(reason, UnknownSmsError))
  {
    if s.twilioFromNumber == "" && s.twilioMessagingServiceSid == "" then NotDelivered(NoSenderError)
    else match CreateTwilioClient(s)
      case Err(e) => NotDelivered(e)
      case Ok(_) =>
        match options.body
        case ObjectBody(_, _, _, _) => NotDelivered(BodyNotStringError)
        case TextBody(text) =>
          match send(MessageOptionsFor(s, options.to, text))
          case Accepted(id) => Delivered(id)
          case Threw(reason) => NotDelivered(FailureText(reason, UnknownSmsError))
  }

  /** The `Promise.all` over one batch, as an order-preserving map. */
  function SendAllSms(s: SmsSettingsDoc, send: MessageOptions -> TransportOutcome, messages: seq<SmsOptions>): (r: seq<SendResult>)
    ensures |r| == |messages|
    ensures forall k :: 0 <= k < |messages| ==> r[k] == SendSms(s, send, messages[k])
  {
    seq(|messages|, k requires 0 <= k < |messages| => SendSms(s, send, messages[k]))
  }

  const BatchSize: nat := 10

  /** The batches laid end to end. */
  function Flatten<T>(batches: seq<seq<T>>): seq<T> {
    if batches == [] then [] else Flatten(batches[..|batches| - 1]) + batches[|batches| - 1]
  }

  lemma FlattenSnoc<T>(batches: seq<seq<T>>, b: seq<T>)
    ensures Flatten(batches + [b]) == Flatten(batches) + b
  {
    assert (batches + [b])[..|batches|] == batches;
  }

  lemma SendAllSmsAppend(s: SmsSettingsDoc, send: MessageOptions -> TransportOutcome, a: seq<SmsOptions>, b: seq<SmsOptions>)
    ensures SendAllSms(s, send, a + b) == SendAllSms(s, send, a) + SendAllSms(s, send, b)
  {
  }

  /** Every batch holds one to ten messages, and all but the last hold ten. */
  ghost predicate WellBatched<T>(batches: seq<seq<T>>) {
    forall k :: 0 <= k < |batches| ==> 1 <= |batches[k]| <= BatchSize && (k < |batches| - 1 ==> |batches[k]| == BatchSize)
  }

  ghost predicate AllFull<T>(batches: seq<seq<T>>) {
    forall k :: 0 <= k < |batches| ==> |batches[k]| == BatchSize
  }

  /** The state of `sendBulkSms` after the batches sent so far: `i` is
      the loop index, `results` the results collected, `pauses` the delays
      taken. */
  ghost predicate Progress(s: SmsSettingsDoc, send: MessageOptions -> TransportOutcome, messages: seq<SmsOptions>,
                           batches: seq<seq<SmsOptions>>, results: seq<SendResult>, pauses: nat, i: nat)
  {
    && i == BatchSize * |batches|
    && Flatten(batches) == messages[..Text.Min(i, |messages|)]
    && results == SendAllSms(s, send, Flatten(batches))
    && WellBatched(batches)
    && (i < |messages| ==> AllFull(batches))
    && pauses == |batches| - (if i < |messages| || batches == [] then 0 else 1)
  }

  /** One pass of the loop keeps `Progress`. */
  lemma ProgressStep(s: SmsSettingsDoc, send: MessageOptions -> TransportOutcome, messages: seq<SmsOptions>,
                     batches: seq<seq<SmsOptions>>, results: seq<SendResult>, pauses: nat, i: nat)
    requires Progress(s, send, messages, batches, results, pauses, i) && i < |messages|
    ensures var batch := messages[i..Text.Min(i + BatchSize, |messages|)];
      Progress(s, send, messages, batches + [batch], results + SendAllSms(s, send, batch),
               if i + BatchSize < |messages| then pauses + 1 else pauses, i + BatchSize)
  {
    var end := Text.Min(i + BatchSize, |messages|);
    var batch := messages[i..end];
    SendAllSmsAppend(s, send, Flatten(batches), batch);
    assert messages[..end] == messages[..i] + batch;
    FlattenSnoc(batches, batch);
  }

  /** When the loop ends every message is in exactly one batch. */
  lemma ProgressDone(s: SmsSettingsDoc, send: MessageOptions -> TransportOutcome, messages: seq<SmsOptions>,
                     batches: seq<seq<SmsOptions>>, results: seq<SendResult>, pauses: nat, i: nat)
    requires Progress(s, send, messages, batches, results, pauses, i) && i >= |messages|
    ensures Flatten(batches) == messages && results == SendAllSms(s, send, messages)
    ensures forall k :: 0 <= k < |batches| ==> 1 <= |batches[k]| <= BatchSize
    ensures forall k :: 0 <= k < |batches| - 1 ==> |batches[k]| == BatchSize
    ensures pauses == if messages == [] then 0 else |batches| - 1
  {
    assert messages[..Text.Min(i, |messages|)] == messages;
  }

  /** `sendBulkSms`. The messages go out in consecutive slices of ten, in
      input order, each exactly once; a pause is taken between two batches
      and never after the last; the summary is that of sending every
      message in order. */
  method SendBulkSms(s: SmsSettingsDoc, send: MessageOptions -> TransportOutcome, messages: seq<SmsOptions>)
    returns (summary: BulkSummary, batches: seq<seq<SmsOptions>>, pauses: nat)
    ensures summary == Summarize(SendAllSms(s, send, messages))
    ensures summary.sent + summary.failed == |messages| && |summary.errors| <= summary.failed
    ensures Flatten(batches) == messages
    ensures forall k :: 0 <= k < |batches| ==> 1 <= |batches[k]| <= BatchSize
    ensures forall k :: 0 <= k < |batches| - 1 ==> |batches[k]| == BatchSize
    ensures pauses == if messages == [] then 0 else |batches| - 1
  {
    var results: seq<SendResult> := [];
    batches := [];
    pauses := 0;
    var i := 0;
    while i < |messages|
      invariant Progress(s, send, messages, batches, results, pauses, i)
      decreases |messages| - i
    {
      ProgressStep(s, send, messages, batches, results, pauses, i);
      var batch := messages[i..Text.Min(i + BatchSize, |messages|)];
      results := results + SendAllSms(s, send, batch);
      batches := batches + [batch];
      if i + BatchSize < |messages| {
        pauses := pauses + 1;
      }
      i := i + BatchSize;
    }
    ProgressDone(s, send, messages, batches, results, pauses, i);
    summary := Summarize(results);
  }

  /** `formatSmsMessage`: bodies of at most 320 characters are kept; longer
      ones become their first 317 characters and `...`, exactly 320 in all. */
  function FormatSmsMessage(body: string): (r: string)
    ensures |body| <= 320 ==> r == body
    ensures |body| > 320 ==> |r| == 320 && r == body[..317] + "..."
    ensures |r| <= 320
  {
    if |body| > 320 then body[..317] + "..." else body
  }

  /** `formatSmsMessage` applied to whatever it is handed: an object has
      no `length`, so the comparison fails and the object is returned. */
  function FormatSmsBody(b: SmsBody): (r: SmsBody)
    ensures b.TextBody? ==> r == TextBody(FormatSmsMessage(b.text))
    ensures b.ObjectBody? ==> r == b
  {
    match b
    case TextBody(t) => TextBody(FormatSmsMessage(t))
    case ObjectBody(_, _, _, _) => b
  }
}
