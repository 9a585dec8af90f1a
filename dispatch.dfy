/** The notification task (src/tasks/sendNotificationFromCollection.ts):
    fetch the active subscribers of each requested channel page by page,
    keep those with a contact, check each channel's transport
    configuration, send, and map the outcome to the notification's final
    state. The SMTP and Twilio settings, the time, the site URL and the two
    transports are parameters. */
module Dispatch {
  import opened Wrappers
  import opened Subscribers
  import opened Notifications
  import opened EmailSettings
  import opened SmsSettings
  import opened Delivery
  import Email
  import Sms
  import Text
  import Media
  import Site

  const PageSize: nat := 500

  /** `SendNotificationFromCollectionInput`; empty optional strings are
      absent. */
  datatype JobInput = JobInput(
    notificationId: nat,
    channel: Channel,
    subject: string,
    emailBody: string,
    smsBody: string,
    itemTitle: string,
    itemUrl: string)

  /** Everything the dispatch task reads besides its input. */
  datatype TaskEnv = TaskEnv(
    records: seq<Subscriber>,
    siteNameSetting: string,
    logoLight: Media.MediaRef,
    serverUrl: string,
    email: EmailSettingsDoc,
    sms: SmsSettingsDoc,
    production: bool,
    mailSend: Email.MailMessage -> TransportOutcome,
    smsSend: Sms.MessageOptions -> TransportOutcome,
    now: int)

  /** The dispatch task's `output`. */
  datatype TaskOutput = TaskOutput(emailsSent: nat, smsSent: nat, errors: seq<string>)

  /** The data of the final `update`; `None` fields are left out of it. */
  datatype NotificationUpdate = NotificationUpdate(
    status: NotificationStatus,
    sentAt: Option<int>,
    recipientCount: int,
    errorMessage: Option<string>)

  /** One page of the store's `find` over the active subscribers of one
      type, `PageSize` documents per page. */
  datatype Page = Page(docs: seq<Subscriber>, hasNextPage: bool)

  /** Page `page` (counted from 1) of the filtered table. */
  function FindPage(records: seq<Subscriber>, kind: SubscriptionType, page: nat): (p: Page)
    requires page >= 1
    ensures var all := ActiveOfType(records, kind);
      p.docs == all[Text.Min((page - 1) * PageSize, |all|)..Text.Min(page * PageSize, |all|)]
    ensures p.hasNextPage <==> page * PageSize < |ActiveOfType(records, kind)|
  {
    var all := ActiveOfType(records, kind);
    Page(all[Text.Min((page - 1) * PageSize, |all|)..Text.Min(page * PageSize, |all|)], page * PageSize < |all|)
  }

  /** `fetchSubscribers`: requests pages 1, 2, ... until one says there is no
      next page, and returns them concatenated in order, which is the whole
      filtered table. `pagesRead` is the number of pages requested: at least
      one, and the first that reaches the end of the table. */
  method FetchSubscribers(records: seq<Subscriber>, kind: SubscriptionType) returns (subscribers: seq<Subscriber>, pagesRead: nat)
    ensures subscribers == ActiveOfType(records, kind)
    ensures pagesRead >= 1
    ensures pagesRead * PageSize >= |ActiveOfType(records, kind)|
    ensures pagesRead == 1 || (pagesRead - 1) * PageSize < |ActiveOfType(records, kind)|
  {
    ghost var all := ActiveOfType(records, kind);
    subscribers := [];
    var page := 1;
    var hasMore := true;
    while hasMore
      invariant page >= 1
      invariant hasMore ==> (page - 1) * PageSize < |all| || page == 1
      invariant hasMore ==> subscribers == all[..(page - 1) * PageSize]
      invariant !hasMore ==> subscribers == all && page >= 2
      invariant !hasMore ==> (page - 1) * PageSize >= |all| && (page == 2 || (page - 2) * PageSize < |all|)
      decreases if hasMore then |all| - (page - 1) * PageSize + 1 else 0
    {
      var result := FindPage(records, kind, page);
      assert all[..(page - 1) * PageSize] + result.docs == all[..Text.Min(page * PageSize, |all|)];
      subscribers := subscribers + result.docs;
      hasMore := result.hasNextPage;
      page := page + 1;
    }
    pagesRead := page - 1;
  }

  /** `subscribers.filter(s => s.email)` */
  function WithEmail(subscribers: seq<Subscriber>): (r: seq<Subscriber>)
    ensures |r| <= |subscribers|
    ensures forall s :: s in r <==> s in subscribers && s.email != ""
  {
    if subscribers == [] then []
    else if subscribers[0].email != "" then [subscribers[0]] + WithEmail(subscribers[1..])
    else WithEmail(subscribers[1..])
  }

  /** `subscribers.filter(s => s.phone)` */
  function WithPhone(subscribers: seq<Subscriber>): (r: seq<Subscriber>)
    ensures |r| <= |subscribers|
    ensures forall s :: s in r <==> s in subscribers && s.phone != ""
  {
    if subscribers == [] then []
    else if subscribers[0].phone != "" then [subscribers[0]] + WithPhone(subscribers[1..])
    else WithPhone(subscribers[1..])
  }

  /** The email recipients a channel that includes email gets. */
  function EmailRecipients(records: seq<Subscriber>): (r: seq<Subscriber>)
    ensures forall s :: s in r <==> s in records && s.active && s.kind == EmailType && s.email != ""
  {
    WithEmail(ActiveOfType(records, EmailType))
  }

  /** The SMS recipients a channel that includes SMS gets. */
  function SmsRecipients(records: seq<Subscriber>): (r: seq<Subscriber>)
    ensures forall s :: s in r <==> s in records && s.active && s.kind == SmsType && s.phone != ""
  {
    WithPhone(ActiveOfType(records, SmsType))
  }

  /** `.filter(s => s.email)` keeps order and multiplicity: filtering two
      stretches is filtering each in turn, and one subscriber stays exactly
      when it has an address. */
  lemma {:induction false} WithEmailAppend(a: seq<Subscriber>, b: seq<Subscriber>)
    ensures WithEmail(a + b) == WithEmail(a) + WithEmail(b)
    ensures |a| == 1 ==> WithEmail(a) == if a[0].email != "" then a else []
    decreases |a|
  {
    if a == [] {
      assert a + b == b;
    } else {
      TailOfConcat(a, b);
      WithEmailAppend(a[1..], b);
      if |a| == 1 {
        assert a[1..] == [];
      }
    }
  }

  /** `.filter(s => s.phone)` keeps order and multiplicity likewise. */
  lemma {:induction false} WithPhoneAppend(a: seq<Subscriber>, b: seq<Subscriber>)
    ensures WithPhone(a + b) == WithPhone(a) + WithPhone(b)
    ensures |a| == 1 ==> WithPhone(a) == if a[0].phone != "" then a else []
    decreases |a|
  {
    if a == [] {
      assert a + b == b;
    } else {
      TailOfConcat(a, b);
      WithPhoneAppend(a[1..], b);
      if |a| == 1 {
        assert a[1..] == [];
      }
    }
  }

  /** The email recipients of a store are those of each stretch in store
      order, and a single record is one exactly when it is an active email
      subscriber with an address. */
  lemma EmailRecipientsAppend(a: seq<Subscriber>, b: seq<Subscriber>)
    ensures EmailRecipients(a + b) == EmailRecipients(a) + EmailRecipients(b)
    ensures |a| == 1 ==> EmailRecipients(a) == if a[0].active && a[0].kind == EmailType && a[0].email != "" then a else []
  {
    ActiveOfTypeAppend(a, b, EmailType);
    WithEmailAppend(ActiveOfType(a, EmailType), ActiveOfType(b, EmailType));
    if |a| == 1 {
      ActiveOfTypeAppend(a, [], EmailType);
      assert a == [a[0]] && a[1..] == [];
      if a[0].active && a[0].kind == EmailType {
        WithEmailAppend(a, []);
      }
    }
  }

  /** The SMS recipients likewise keep store order. */
  lemma SmsRecipientsAppend(a: seq<Subscriber>, b: seq<Subscriber>)
    ensures SmsRecipients(a + b) == SmsRecipients(a) + SmsRecipients(b)
    ensures |a| == 1 ==> SmsRecipients(a) == if a[0].active && a[0].kind == SmsType && a[0].phone != "" then a else []
  {
    ActiveOfTypeAppend(a, b, SmsType);
    WithPhoneAppend(ActiveOfType(a, SmsType), ActiveOfType(b, SmsType));
    if |a| == 1 {
      ActiveOfTypeAppend(a, [], SmsType);
      assert a == [a[0]] && a[1..] == [];
      if a[0].active && a[0].kind == SmsType {
        WithPhoneAppend(a, []);
      }
    }
  }

  /** The per-subscriber unsubscribe link. */
  function UnsubscribeUrl(siteUrl: string, token: string): (r: string)
    ensures token != "" ==> r == siteUrl + "/unsubscribe/" + token
    ensures token == "" ==> r == siteUrl + "/unsubscribe"
  {
    if token != "" then siteUrl + "/unsubscribe/" + token else siteUrl + "/unsubscribe"
  }

  /** The link names the subscriber's own token, so it unsubscribes that
      subscriber and no other (tokens are unique). */
  lemma UnsubscribeUrlCarriesToken(siteUrl: string, token: string)
    requires token != ""
    ensures var r := UnsubscribeUrl(siteUrl, token); r[|siteUrl| + |"/unsubscribe/"|..] == token
  {
  }

  const SiteUrlPlaceholder: string := "{{siteUrl}}"

  /** `(emailBody || '').replace(/\{\{siteUrl\}\}/g, siteUrl)` */
  function ProcessedBody(emailBody: string, siteUrl: string): (r: string)
    ensures !Text.Occurs(SiteUrlPlaceholder, emailBody) ==> r == emailBody
  {
    if !Text.Occurs(SiteUrlPlaceholder, emailBody) then
      Text.ReplaceAllWithoutPattern(emailBody, SiteUrlPlaceholder, siteUrl);
      Text.ReplaceAll(emailBody, SiteUrlPlaceholder, siteUrl)
    else Text.ReplaceAll(emailBody, SiteUrlPlaceholder, siteUrl)
  }

  /** Two occurrences of `{{siteUrl}}` can never overlap. */
  lemma PlaceholderIsBorderless()
    ensures Text.Borderless(SiteUrlPlaceholder)
  {
    var ph := SiteUrlPlaceholder;
    forall j | 0 < j < |ph| ensures ph[j..] != ph[..|ph| - j] {
      if j == 1 {
        assert ph[1..][1] != ph[..|ph| - 1][1];
      } else {
        assert ph[j..][0] != ph[..|ph| - j][0];
      }
    }
  }

  /** The email body as the dispatch task fills it in: a body written as
      parts that do not hold the placeholder, joined by it, gets the site URL
      at each placeholder and is otherwise unchanged. */
  lemma ProcessedBodyFillsPlaceholders(parts: seq<string>, siteUrl: string)
    requires parts != []
    requires forall k :: 0 <= k < |parts| ==> !Text.Occurs(SiteUrlPlaceholder, parts[k])
    ensures ProcessedBody(Text.Join(parts, SiteUrlPlaceholder), siteUrl) == Text.Join(parts, siteUrl)
  {
    var body := Text.Join(parts, SiteUrlPlaceholder);
    PlaceholderIsBorderless();
    Text.ReplaceAllFillsTemplate(parts, SiteUrlPlaceholder, siteUrl);
    if !Text.Occurs(SiteUrlPlaceholder, body) {
      Text.ReplaceAllWithoutPattern(body, SiteUrlPlaceholder, siteUrl);
    }
  }

  /** A body with one placeholder between texts that do not hold it gets the
      site URL in its place and is otherwise unchanged. */
  lemma ProcessedBodyFillsOnePlaceholder(head: string, tail: string, siteUrl: string)
    requires !Text.Occurs(SiteUrlPlaceholder, head) && !Text.Occurs(SiteUrlPlaceholder, tail)
    ensures ProcessedBody(head + SiteUrlPlaceholder + tail, siteUrl) == head + siteUrl + tail
  {
    var parts := [head, tail];
    assert parts[1..] == [tail];
    assert Text.Join(parts, SiteUrlPlaceholder) == head + SiteUrlPlaceholder + tail;
    assert Text.Join(parts, siteUrl) == head + siteUrl + tail;
    ProcessedBodyFillsPlaceholders(parts, siteUrl);
  }

  /** The first non-empty of two strings. */
  function Or(a: string, b: string): string {
    if a != "" then a else b
  }

  const DefaultTitle: string := "Status Update"

  const CtaText: string := "View Status"

  /** `[siteName] Status Update` */
  function DefaultSubject(siteName: string): string {
    "[" + siteName + "] " + DefaultTitle
  }

  /** The email for one subscriber. */
  function EmailFor(subscriber: Subscriber, input: JobInput, siteName: string, siteUrl: string, logoUrl: Option<string>): (e: Email.EmailOptions)
    ensures e.to == subscriber.email
    ensures e.unsubscribeUrl == UnsubscribeUrl(siteUrl, subscriber.unsubscribeToken)
    ensures e.subject == if input.subject != "" then input.subject else DefaultSubject(siteName)
    ensures e.text == ""
    ensures e.html == Email.GenerateEmailHtml(Email.EmailHtmlOptions(
      siteName, Or(input.subject, Or(input.itemTitle, DefaultTitle)), ProcessedBody(input.emailBody, siteUrl),
      CtaText, input.itemUrl, e.unsubscribeUrl, siteUrl, logoUrl.GetOr("")))
  {
    var unsubscribeUrl := UnsubscribeUrl(siteUrl, subscriber.unsubscribeToken);
    var html := Email.GenerateEmailHtml(Email.EmailHtmlOptions(
      siteName, Or(input.subject, Or(input.itemTitle, DefaultTitle)), ProcessedBody(input.emailBody, siteUrl),
      CtaText, input.itemUrl, unsubscribeUrl, siteUrl, logoUrl.GetOr("")));
    Email.EmailOptions(subscriber.email, Or(input.subject, DefaultSubject(siteName)), html, "", unsubscribeUrl)
  }

  /** The SMS for one subscriber; its body is the object the dispatch task builds. */
  function SmsFor(subscriber: Subscriber, input: JobInput, siteName: string): (m: Sms.SmsOptions)
    ensures m.to == subscriber.phone
    ensures m.body == Sms.ObjectBody(siteName, Or(input.itemTitle, DefaultTitle), input.smsBody, input.itemUrl)
  {
    Sms.SmsOptions(subscriber.phone, Sms.FormatSmsBody(Sms.ObjectBody(siteName, Or(input.itemTitle, DefaultTitle), input.smsBody, input.itemUrl)))
  }

  function EmailsFor(recipients: seq<Subscriber>, input: JobInput, siteName: string, siteUrl: string, logoUrl: Option<string>): (r: seq<Email.EmailOptions>)
    ensures |r| == |recipients|
    ensures forall k :: 0 <= k < |r| ==> r[k] == EmailFor(recipients[k], input, siteName, siteUrl, logoUrl)
  {
    seq(|recipients|, k requires 0 <= k < |recipients| => EmailFor(recipients[k], input, siteName, siteUrl, logoUrl))
  }

  function SmsesFor(recipients: seq<Subscriber>, input: JobInput, siteName: string): (r: seq<Sms.SmsOptions>)
    ensures |r| == |recipients|
    ensures forall k :: 0 <= k < |r| ==> r[k] == SmsFor(recipients[k], input, siteName)
  {
    seq(|recipients|, k requires 0 <= k < |recipients| => SmsFor(recipients[k], input, siteName))
  }

  /** A channel's failure summary: the failed count, a caption, and at most
      the first three error strings. */
  function FailureSummary(failed: nat, caption: string, errors: seq<string>): (r: string)
    ensures var digits := Text.NatToString(failed);
      && digits + caption <= r
      && Text.DecimalValue(digits) == failed
      && r[|digits + caption|..] == Text.Join(Text.TakeAtMost(errors, 3), ", ")
  {
    Text.DecimalRoundTrip(failed);
    Text.NatToString(failed) + caption + Text.Join(Text.TakeAtMost(errors, 3), ", ")
  }

  const EmailFailureLabel: string := " email(s) failed: "
  const SmsFailureLabel: string := " SMS failed: "
  const SmtpNotConfigured: string := "SMTP not configured"
  const TwilioNotConfigured: string := "Twilio not configured"

  /** The dispatch task's own SMTP gate. */
  predicate SmtpConfigured(s: EmailSettingsDoc) {
    s.smtpHost != "" && s.smtpFromAddress != ""
  }

  /** The dispatch task's own Twilio gate: it wants a from number even when a
      messaging service is configured. */
  predicate TwilioConfigured(s: SmsSettingsDoc) {
    s.twilioAccountSid != "" && s.twilioAuthToken != "" && s.twilioFromNumber != ""
  }

  /** What one channel contributes: the number sent and its error lines. */
  datatype PhaseResult = PhaseResult(sent: nat, errors: seq<string>)

  /** The email part of the dispatch task. */
  function EmailPhase(input: JobInput, env: TaskEnv): (r: PhaseResult)
    ensures r.sent <= |EmailRecipients(env.records)| && |r.errors| <= 1
    ensures !IncludesEmail(input.channel) || EmailRecipients(env.records) == [] ==> r == PhaseResult(0, [])
    ensures IncludesEmail(input.channel) && EmailRecipients(env.records) != [] && !SmtpConfigured(env.email) ==>
      r == PhaseResult(0, [SmtpNotConfigured])
    ensures IncludesEmail(input.channel) && EmailRecipients(env.records) != [] && SmtpConfigured(env.email) ==>
      CountsSends(r, EmailResults(EmailRecipients(env.records), input, env), |EmailRecipients(env.records)|, EmailFailureLabel)
  {
    var recipients := EmailRecipients(env.records);
    if !(IncludesEmail(input.channel) && |recipients| > 0) then PhaseResult(0, [])
    else if !SmtpConfigured(env.email) then PhaseResult(0, [SmtpNotConfigured])
    else EmailDelivery(recipients, input, env)
  }

  /** The email part once SMTP is configured: one email per recipient; the
      phase counts the sends the transport accepted, as `CountsSends` says. */
  function EmailDelivery(recipients: seq<Subscriber>, input: JobInput, env: TaskEnv): (r: PhaseResult)
    ensures r.sent <= |recipients| && |r.errors| <= 1
    ensures CountsSends(r, EmailResults(recipients, input, env), |recipients|, EmailFailureLabel)
  {
    PhaseOfSends(EmailResults(recipients, input, env), |recipients|, EmailFailureLabel)
  }

  /** What the transport returns for each recipient's email, in order. */
  function EmailResults(recipients: seq<Subscriber>, input: JobInput, env: TaskEnv): (r: seq<SendResult>)
    ensures |r| == |recipients|
  {
    var emails := EmailsFor(recipients, input, Site.SiteName(env.siteNameSetting), Site.SiteUrl(env.serverUrl), Media.GetMediaUrl(env.logoLight));
    Email.SendAllEmails(env.email, env.siteNameSetting, env.production, env.mailSend, emails)
  }

  /** A phase's result from the bulk summary: the sent count, and one
      failure line with the given caption when anything failed. */
  function PhaseOf(result: BulkSummary, caption: string): PhaseResult {
    PhaseResult(result.sent, if result.failed > 0 then [FailureSummary(result.failed, caption, result.errors)] else [])
  }

  /** `r` is what a channel reports after `n` sends with these results: the
      number accepted, and exactly when some send failed, one line with the
      failed count, the caption and the first errors. */
  predicate CountsSends(r: PhaseResult, results: seq<SendResult>, n: nat, caption: string)
    requires |results| == n
  {
    && r.sent == CountDelivered(results) && r.sent <= n && |r.errors| <= 1
    && (r.errors == [] <==> CountDelivered(results) == n)
    && (r.errors != [] ==> r.errors == [FailureSummary(n - CountDelivered(results), caption, FailureErrors(results))])
  }

  /** The phase's result from the per-message results of `n` sends. */
  function PhaseOfSends(results: seq<SendResult>, n: nat, caption: string): (r: PhaseResult)
    requires |results| == n
    ensures CountsSends(r, results, n, caption)
  {
    PhaseOf(Summarize(results), caption)
  }

  /** The SMS part of the dispatch task. It never delivers anything: past
      its own Twilio gate, every message fails on its object body. */
  function SmsPhase(input: JobInput, env: TaskEnv): (r: PhaseResult)
    ensures r.sent == 0 && |r.errors| <= 1
    ensures !IncludesSms(input.channel) || SmsRecipients(env.records) == [] ==> r == PhaseResult(0, [])
    ensures IncludesSms(input.channel) && SmsRecipients(env.records) != [] && !TwilioConfigured(env.sms) ==>
      r == PhaseResult(0, [TwilioNotConfigured])
    ensures IncludesSms(input.channel) && SmsRecipients(env.records) != [] && TwilioConfigured(env.sms) ==>
      r == PhaseResult(0, [SmsObjectBodyFailure(|SmsRecipients(env.records)|)])
  {
    var recipients := SmsRecipients(env.records);
    if !(IncludesSms(input.channel) && |recipients| > 0) then PhaseResult(0, [])
    else if !TwilioConfigured(env.sms) then PhaseResult(0, [TwilioNotConfigured])
    else SmsDelivery(recipients, input, env)
  }

  /** The SMS part once Twilio is configured: one message per recipient,
      and a failure summary when any of them failed. With the gate passed,
      every message fails, so the summary counts all recipients and repeats
      the body error. */
  function SmsDelivery(recipients: seq<Subscriber>, input: JobInput, env: TaskEnv): (r: PhaseResult)
    ensures r.sent <= |recipients| && |r.errors| <= 1
    ensures recipients == [] ==> r == PhaseResult(0, [])
    ensures TwilioConfigured(env.sms) && recipients != [] ==> r == PhaseResult(0, [SmsObjectBodyFailure(|recipients|)])
  {
    var results := Sms.SendAllSms(env.sms, env.smsSend, SmsesFor(recipients, input, Site.SiteName(env.siteNameSetting)));
    if TwilioConfigured(env.sms) then
      DispatchedSmsNeverDelivered(recipients, input, env);
      PhaseOfSends(results, |recipients|, SmsFailureLabel)
    else
      PhaseOfSends(results, |recipients|, SmsFailureLabel)
  }

  /** The SMS error line when all `n` messages fail on their object body. */
  function SmsObjectBodyFailure(n: nat): string {
    FailureSummary(n, SmsFailureLabel, seq(n, _ => Sms.BodyNotStringError))
  }

  /** Whatever the transport would do, and even when it would accept every
      message, no SMS of the dispatch task is delivered once Twilio is
      configured: each fails with the `TypeError` of its object body. */
  lemma DispatchedSmsNeverDelivered(recipients: seq<Subscriber>, input: JobInput, env: TaskEnv)
    requires TwilioConfigured(env.sms)
    ensures var results := Sms.SendAllSms(env.sms, env.smsSend, SmsesFor(recipients, input, Site.SiteName(env.siteNameSetting)));
      Summarize(results) == BulkSummary(0, |recipients|, seq(|recipients|, _ => Sms.BodyNotStringError))
  {
    var messages := SmsesFor(recipients, input, Site.SiteName(env.siteNameSetting));
    var results := Sms.SendAllSms(env.sms, env.smsSend, messages);
    forall k | 0 <= k < |results| ensures results[k] == NotDelivered(Sms.BodyNotStringError) {
      assert messages[k].body.ObjectBody?;
    }
    AllFailedSummary(results, Sms.BodyNotStringError);
  }

  /** The SMS the dispatch task evidently meant to send: the notification's
      SMS text as a string, capped at 320 characters. */
  function IntendedSmsFor(subscriber: Subscriber, input: JobInput): (m: Sms.SmsOptions)
    ensures m.to == subscriber.phone && m.body.TextBody?
    ensures |m.body.text| <= 320
    ensures |input.smsBody| <= 320 ==> m.body.text == input.smsBody
  {
    Sms.SmsOptions(subscriber.phone, Sms.TextBody(Sms.FormatSmsMessage(input.smsBody)))
  }

  function IntendedSmsesFor(recipients: seq<Subscriber>, input: JobInput): (r: seq<Sms.SmsOptions>)
    ensures |r| == |recipients|
    ensures forall k :: 0 <= k < |r| ==> r[k] == IntendedSmsFor(recipients[k], input)
  {
    seq(|recipients|, k requires 0 <= k < |recipients| => IntendedSmsFor(recipients[k], input))
  }

  /** The SMS part with string bodies. */
  function IntendedSmsDelivery(recipients: seq<Subscriber>, input: JobInput, env: TaskEnv): (r: PhaseResult)
    ensures CountsSends(r, Sms.SendAllSms(env.sms, env.smsSend, IntendedSmsesFor(recipients, input)), |recipients|, SmsFailureLabel)
  {
    PhaseOfSends(Sms.SendAllSms(env.sms, env.smsSend, IntendedSmsesFor(recipients, input)), |recipients|, SmsFailureLabel)
  }

  /** With string bodies, a configured Twilio and a transport that accepts
      every message, every recipient gets the SMS and no error is
      reported. */
  lemma IntendedSmsReachesEveryRecipient(recipients: seq<Subscriber>, input: JobInput, env: TaskEnv)
    requires TwilioConfigured(env.sms)
    requires forall m :: env.smsSend(m).Accepted?
    ensures IntendedSmsDelivery(recipients, input, env) == PhaseResult(|recipients|, [])
  {
    var messages := IntendedSmsesFor(recipients, input);
    var results := Sms.SendAllSms(env.sms, env.smsSend, messages);
    forall k | 0 <= k < |results| ensures results[k].Delivered? {
      var m := Sms.MessageOptionsFor(env.sms, messages[k].to, messages[k].body.text);
      assert env.smsSend(m).Accepted?;
    }
  }

  /** With every email accepted and SMTP configured, every email recipient
      counts as sent and no error is reported. */
  lemma EmailReachesEveryRecipient(recipients: seq<Subscriber>, input: JobInput, env: TaskEnv)
    requires SmtpConfigured(env.email)
    requires forall m :: env.mailSend(m).Accepted?
    ensures EmailDelivery(recipients, input, env) == PhaseResult(|recipients|, [])
  {
    var emails := EmailsFor(recipients, input, Site.SiteName(env.siteNameSetting), Site.SiteUrl(env.serverUrl), Media.GetMediaUrl(env.logoLight));
    var results := Email.SendAllEmails(env.email, env.siteNameSetting, env.production, env.mailSend, emails);
    forall k | 0 <= k < |results| ensures results[k].Delivered? {
      var m := Email.MailFor(env.email, env.siteNameSetting, emails[k]);
      assert env.mailSend(m).Accepted?;
    }
    AllDeliveredCount(results);
  }

  /** The dispatch task's output: the email part, then the SMS part. No SMS
      is ever counted as sent. */
  function Outcome(input: JobInput, env: TaskEnv): (o: TaskOutput)
    ensures o.emailsSent <= |EmailRecipients(env.records)| && o.smsSent == 0
    ensures |o.errors| <= 2
  {
    var e := EmailPhase(input, env);
    var s := SmsPhase(input, env);
    TaskOutput(e.sent, s.sent, e.errors + s.errors)
  }

  /** The final status rule. The notification fails only when there were
      errors and nothing at all was delivered; otherwise it is sent, with
      the time. The recipient count is the number delivered, and every
      error is kept in the message, even after a partial success. */
  function FinalUpdate(emailsSent: nat, smsSent: nat, errors: seq<string>, now: int): (u: NotificationUpdate)
    ensures u.status == Failed <==> |errors| > 0 && emailsSent == 0 && smsSent == 0
    ensures u.status == Sent || u.status == Failed
    ensures u.sentAt == if u.status == Sent then Some(now) else None
    ensures u.recipientCount == emailsSent + smsSent
    ensures u.errorMessage == if |errors| > 0 then Some(Text.Join(errors, "; ")) else None
  {
    var hasErrors := |errors| > 0 && emailsSent == 0 && smsSent == 0;
    NotificationUpdate(
      if hasErrors then Failed else Sent,
      if hasErrors then None else Some(now),
      emailsSent + smsSent,
      if |errors| > 0 then Some(Text.Join(errors, "; ")) else None)
  }

  /** The store's `update`: the fields present in the data replace the
      stored ones; the others are kept. */
  function ApplyUpdate(doc: Notification, u: NotificationUpdate): (r: Notification)
    ensures r.status == u.status && r.recipientCount == Some(u.recipientCount)
    ensures r.sentAt == if u.sentAt.Some? then u.sentAt else doc.sentAt
    ensures r.errorMessage == if u.errorMessage.Some? then u.errorMessage.value else doc.errorMessage
    ensures r.(status := doc.status, recipientCount := doc.recipientCount, sentAt := doc.sentAt, errorMessage := doc.errorMessage) == doc
  {
    doc.(status := u.status,
         recipientCount := Some(u.recipientCount),
         sentAt := if u.sentAt.Some? then u.sentAt else doc.sentAt,
         errorMessage := if u.errorMessage.Some? then u.errorMessage.value else doc.errorMessage)
  }

  /** The end of the dispatch task: `updateData` is built with the status and the
      count, then given a send time unless the run failed, and an error
      message when there were errors. */
  method BuildUpdate(emailsSent: nat, smsSent: nat, errors: seq<string>, now: int) returns (update: NotificationUpdate)
    ensures update == FinalUpdate(emailsSent, smsSent, errors, now)
  {
    var hasErrors := |errors| > 0 && emailsSent == 0 && smsSent == 0;
    update := NotificationUpdate(if hasErrors then Failed else Sent, None, emailsSent + smsSent, None);
    if !hasErrors {
      update := update.(sentAt := Some(now));
    }
    if |errors| > 0 {
      update := update.(errorMessage := Some(Text.Join(errors, "; ")));
    }
  }

  /** The email block of the dispatch task, given the email subscribers it
      fetched (none when the channel leaves email out). */
  method SendEmailPart(input: JobInput, env: TaskEnv, emailSubscribers: seq<Subscriber>)
    returns (emailsSent: nat, errors: seq<string>)
    requires emailSubscribers == if IncludesEmail(input.channel) then EmailRecipients(env.records) else []
    ensures PhaseResult(emailsSent, errors) == EmailPhase(input, env)
  {
    emailsSent, errors := 0, [];
    if IncludesEmail(input.channel) && |emailSubscribers| > 0 {
      if !SmtpConfigured(env.email) {
        errors := errors + [SmtpNotConfigured];
      } else {
        emailsSent, errors := DeliverEmails(input, env, emailSubscribers);
      }
    }
  }

  /** The bulk send of the email block once SMTP is configured. */
  method DeliverEmails(input: JobInput, env: TaskEnv, recipients: seq<Subscriber>)
    returns (emailsSent: nat, errors: seq<string>)
    ensures PhaseResult(emailsSent, errors) == EmailDelivery(recipients, input, env)
  {
    var siteUrl := Site.SiteUrl(env.serverUrl);
    var siteName := Site.SiteName(env.siteNameSetting);
    var logoUrl := Media.GetMediaUrl(env.logoLight);
    var emails := EmailsFor(recipients, input, siteName, siteUrl, logoUrl);
    var result := Email.SendBulkEmails(env.email, env.siteNameSetting, env.production, env.mailSend, emails);
    assert EmailDelivery(recipients, input, env) == PhaseOf(result, EmailFailureLabel);
    emailsSent, errors := result.sent, [];
    if result.failed > 0 {
      errors := errors + [FailureSummary(result.failed, EmailFailureLabel, result.errors)];
    }
  }

  /** The SMS block of the dispatch task, given the SMS subscribers it fetched (none
      when the channel leaves SMS out). */
  method SendSmsPart(input: JobInput, env: TaskEnv, smsSubscribers: seq<Subscriber>)
    returns (smsSent: nat, errors: seq<string>)
    requires smsSubscribers == if IncludesSms(input.channel) then SmsRecipients(env.records) else []
    ensures PhaseResult(smsSent, errors) == SmsPhase(input, env)
  {
    smsSent, errors := 0, [];
    if IncludesSms(input.channel) && |smsSubscribers| > 0 {
      if !TwilioConfigured(env.sms) {
        errors := errors + [TwilioNotConfigured];
      } else {
        smsSent, errors := DeliverSms(input, env, smsSubscribers);
      }
    }
  }

  /** The batched send of the SMS block once Twilio is configured. */
  method DeliverSms(input: JobInput, env: TaskEnv, recipients: seq<Subscriber>)
    returns (smsSent: nat, errors: seq<string>)
    ensures PhaseResult(smsSent, errors) == SmsDelivery(recipients, input, env)
  {
    var siteName := Site.SiteName(env.siteNameSetting);
    var messages := SmsesFor(recipients, input, siteName);
    var result, _, _ := Sms.SendBulkSms(env.sms, env.smsSend, messages);
    smsSent, errors := result.sent, [];
    if result.failed > 0 {
      errors := errors + [FailureSummary(result.failed, SmsFailureLabel, result.errors)];
    }
  }

  /** `sendNotificationFromCollectionHandler`: the dispatch task's output and the
      update it writes to the notification. */
  method SendNotificationFromCollection(input: JobInput, env: TaskEnv) returns (output: TaskOutput, update: NotificationUpdate)
    ensures output == Outcome(input, env)
    ensures update == FinalUpdate(output.emailsSent, output.smsSent, output.errors, env.now)
  {
    var emailSubscribers: seq<Subscriber> := [];
    var smsSubscribers: seq<Subscriber> := [];
    if IncludesEmail(input.channel) {
      var emails, _ := FetchSubscribers(env.records, EmailType);
      emailSubscribers := emailSubscribers + WithEmail(emails);
    }
    if IncludesSms(input.channel) {
      var phones, _ := FetchSubscribers(env.records, SmsType);
      smsSubscribers := smsSubscribers + WithPhone(phones);
    }
    assert emailSubscribers == if IncludesEmail(input.channel) then EmailRecipients(env.records) else [];
    assert smsSubscribers == if IncludesSms(input.channel) then SmsRecipients(env.records) else [];

    var emailsSent, emailErrors := SendEmailPart(input, env, emailSubscribers);
    var smsSent, smsErrors := SendSmsPart(input, env, smsSubscribers);
    var errors := emailErrors + smsErrors;

    update := BuildUpdate(emailsSent, smsSent, errors, env.now);
    output := TaskOutput(emailsSent, smsSent, errors);
  }

  /** With nobody to reach, the notification is sent to zero recipients and
      records no error. */
  lemma NoRecipientsIsSentWithZero(input: JobInput, env: TaskEnv)
    requires !IncludesEmail(input.channel) || EmailRecipients(env.records) == []
    requires !IncludesSms(input.channel) || SmsRecipients(env.records) == []
    ensures Outcome(input, env) == TaskOutput(0, 0, [])
    ensures var o := Outcome(input, env);
      FinalUpdate(o.emailsSent, o.smsSent, o.errors, env.now) == NotificationUpdate(Sent, Some(env.now), 0, None)
  {
  }

  /** The configuration the dispatch task sees when it reads the SMTP and
      Twilio fields from the general `settings` global, as it is written to
      do: that global has none of those fields since the settings split, so
      each reads as absent. */
  function SettingsGlobalView(env: TaskEnv): TaskEnv {
    env.(email := env.email.(smtpHost := "", smtpFromAddress := ""),
         sms := env.sms.(twilioAccountSid := "", twilioAuthToken := "", twilioFromNumber := ""))
  }

  /** Read from the `settings` global, neither gate can pass: every run
      with email recipients reports `SMTP not configured`, every run with
      SMS recipients `Twilio not configured`, nothing is sent, and a run
      with anyone to reach ends failed. */
  lemma SettingsGlobalStopsEveryRun(input: JobInput, env: TaskEnv)
    ensures var e := SettingsGlobalView(env);
      IncludesEmail(input.channel) && EmailRecipients(env.records) != [] ==>
        EmailPhase(input, e) == PhaseResult(0, [SmtpNotConfigured])
    ensures var e := SettingsGlobalView(env);
      IncludesSms(input.channel) && SmsRecipients(env.records) != [] ==>
        SmsPhase(input, e) == PhaseResult(0, [TwilioNotConfigured])
    ensures var o := Outcome(input, SettingsGlobalView(env));
      o.emailsSent == 0 && o.smsSent == 0
    ensures var o := Outcome(input, SettingsGlobalView(env));
      (IncludesEmail(input.channel) && EmailRecipients(env.records) != [])
      || (IncludesSms(input.channel) && SmsRecipients(env.records) != []) ==>
        FinalUpdate(o.emailsSent, o.smsSent, o.errors, env.now).status == Failed
  {
    var e := SettingsGlobalView(env);
    assert !SmtpConfigured(e.email) && !TwilioConfigured(e.sms) && e.records == env.records;
  }

  /** A missing SMTP configuration does not stop the SMS part: it still
      runs and adds its own error line after the email one. Since no SMS
      gets through, the notification ends failed with both lines. */
  lemma EmailGateDoesNotStopSms(input: JobInput, env: TaskEnv)
    requires input.channel == Both
    requires EmailRecipients(env.records) != [] && !SmtpConfigured(env.email)
    requires SmsRecipients(env.records) != [] && TwilioConfigured(env.sms)
    ensures var line := SmsObjectBodyFailure(|SmsRecipients(env.records)|);
      Outcome(input, env) == TaskOutput(0, 0, [SmtpNotConfigured, line])
    ensures var line := SmsObjectBodyFailure(|SmsRecipients(env.records)|);
      var o := Outcome(input, env);
      FinalUpdate(o.emailsSent, o.smsSent, o.errors, env.now)
        == NotificationUpdate(Failed, None, 0, Some(SmtpNotConfigured + "; " + line))
  {
    var line := SmsObjectBodyFailure(|SmsRecipients(env.records)|);
    assert EmailPhase(input, env) == PhaseResult(0, [SmtpNotConfigured]);
    assert SmsPhase(input, env) == PhaseResult(0, [line]);
    FailedWithTwoLines(SmtpNotConfigured, line, env.now);
  }

  /** Two error lines and nothing delivered: the notification fails with
      both lines joined by `; `. */
  lemma FailedWithTwoLines(first: string, second: string, now: int)
    ensures FinalUpdate(0, 0, [first, second], now) == NotificationUpdate(Failed, None, 0, Some(first + "; " + second))
  {
    assert [first, second][1..] == [second];
  }

  /** A failed run leaves no send time; a run that delivered anything is
      never failed. */
  lemma DeliveredRunIsNeverFailed(input: JobInput, env: TaskEnv)
    ensures var o := Outcome(input, env); var u := FinalUpdate(o.emailsSent, o.smsSent, o.errors, env.now);
      (o.emailsSent + o.smsSent > 0 ==> u.status == Sent && u.sentAt == Some(env.now))
      && (u.status == Failed ==> u.recipientCount == 0 && u.errorMessage.Some?)
  {
  }

  /** A retry that ends without errors writes no error message, so the
      message of an earlier failed run stays on the notification. */
  lemma CleanRetryKeepsStaleError(doc: Notification, emailsSent: nat, smsSent: nat, now: int)
    ensures var r := ApplyUpdate(doc, FinalUpdate(emailsSent, smsSent, [], now));
      r.status == Sent && r.errorMessage == doc.errorMessage
  {
  }
}
