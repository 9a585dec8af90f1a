/** `POST /api/subscribe` and `GET /api/subscribe`
    (src/app/api/subscribe/route.ts): the channel availability checks, the
    client address, the per-address rate limit kept in the subscriber table
    itself, and the early-return chain that ends in one `create`. */
module SubscribeRoute {
  import opened Wrappers
  import Text
  import ContactFormat
  import opened Subscribers
  import opened EmailSettings
  import opened SmsSettings
  import ShortId
  import Dispatch
  import Email
  import Sms
  import Delivery

  /** At most five subscriptions per address per hour. */
  const RateLimitMax: nat := 5
  const RateLimitWindow: nat := 3600000

  const TooManyAttempts: string := "Too many subscription attempts. Please try again later."
  const InvalidType: string := "Invalid subscription type"
  const EmailUnavailable: string := "Email notifications are not available. Please contact the administrator."
  const SmsUnavailable: string := "SMS notifications are not available. Please contact the administrator."
  const InvalidEmail: string := "Invalid email address"
  const InvalidPhone: string := "Invalid phone number"
  const EmailTaken: string := "This email is already subscribed"
  const PhoneTaken: string := "This phone number is already subscribed"
  const CreateFailed: string := "Failed to create subscription"
  const UnknownAddress: string := "unknown"

  /** `isEmailConfigured`. The dispatch task itself only looks at the host and the
      sender; the route also wants the channel enabled. */
  predicate IsEmailConfigured(s: EmailSettingsDoc) {
    s.smtpHost != "" && s.smtpFromAddress != "" && s.enabled
  }

  /** `isSmsConfigured`: credentials, a sender of either kind, and the
      channel enabled. */
  predicate IsSmsConfigured(s: SmsSettingsDoc) {
    s.twilioAccountSid != "" && s.twilioAuthToken != ""
    && (s.twilioFromNumber != "" || s.twilioMessagingServiceSid != "") && s.enabled
  }

  /** The availability the route offers is exactly what the dispatch task's
      SMTP gate and the transport need, plus `enabled`, once that gate reads
      the email settings document. (As written, the gate reads the general
      `settings` global and never passes: `Dispatch.SettingsGlobalStopsEveryRun`.) */
  lemma EmailAvailabilityMatchesTransport(s: EmailSettingsDoc, production: bool)
    ensures IsEmailConfigured(s) <==> s.enabled && Dispatch.SmtpConfigured(s)
    ensures IsEmailConfigured(s) ==> Email.CreateTransporter(s, production).Ok?
  {
  }

  /** An enabled SMS channel is offered exactly when `sendSms` gets past its
      configuration checks: a string body then goes to the transport, and an
      object body fails on its type. When the route refuses, `sendSms`
      would have refused too. */
  lemma SmsAvailabilityReachesTransport(s: SmsSettingsDoc, send: Sms.MessageOptions -> Delivery.TransportOutcome, options: Sms.SmsOptions)
    ensures IsSmsConfigured(s) && options.body.TextBody? ==>
      (Sms.SendSms(s, send, options) ==
        match send(Sms.MessageOptionsFor(s, options.to, options.body.text))
        case Accepted(id) => Delivery.Delivered(id)
        case Threw(reason) => Delivery.NotDelivered(Delivery.FailureText(reason, Sms.UnknownSmsError)))
    ensures IsSmsConfigured(s) && options.body.ObjectBody? ==>
      Sms.SendSms(s, send, options) == Delivery.NotDelivered(Sms.BodyNotStringError)
    ensures s.enabled && !IsSmsConfigured(s) ==>
      Sms.SendSms(s, send, options) in {Delivery.NotDelivered(Sms.NoSenderError), Delivery.NotDelivered(Sms.NoCredentialsError)}
  {
  }

  /** With the dispatch task's Twilio gate reading the SMS settings
      document, the route and the gate disagree exactly when only a
      messaging service SID is set: the route then accepts SMS subscribers
      whom the dispatch task reports as `Twilio not configured`. Every
      setting the gate accepts, the route accepts when enabled. (As
      written, the gate reads the general `settings` global and refuses
      every document: `Dispatch.SettingsGlobalStopsEveryRun`.) */
  lemma MessagingServiceOnlyPassesRouteButNotTask(s: SmsSettingsDoc)
    ensures IsSmsConfigured(s) && !Dispatch.TwilioConfigured(s) <==>
      s.enabled && s.twilioAccountSid != "" && s.twilioAuthToken != ""
      && s.twilioFromNumber == "" && s.twilioMessagingServiceSid != ""
    ensures s.enabled && Dispatch.TwilioConfigured(s) ==> IsSmsConfigured(s)
  {
  }

  /** `GET`: which channels are offered. */
  function Availability(email: EmailSettingsDoc, sms: SmsSettingsDoc): (r: (bool, bool))
    ensures r.0 <==> IsEmailConfigured(email)
    ensures r.1 <==> IsSmsConfigured(sms)
  {
    (IsEmailConfigured(email), IsSmsConfigured(sms))
  }

  /** `value.split(',')[0]`: the text before the first comma. */
  function FirstField(s: string): (r: string)
    ensures ',' !in r && r <= s
    ensures |r| < |s| ==> s[|r|] == ','
  {
    var k := Text.IndexOf(s, ',');
    if k == -1 then s else s[..k]
  }

  /** `getClientIp`, with the two headers given (empty when absent): the
      first `x-forwarded-for` entry, trimmed; else `x-real-ip`; else
      `unknown`. */
  function GetClientIp(forwardedFor: string, realIp: string): (r: string)
    ensures forwardedFor != "" ==> r == Text.Trim(FirstField(forwardedFor)) && ',' !in r
    ensures forwardedFor == "" && realIp != "" ==> r == realIp
    ensures forwardedFor == "" && realIp == "" ==> r == UnknownAddress
  {
    if forwardedFor != "" then
      var first := FirstField(forwardedFor);
      var r := Text.Trim(first);
      assert forall c :: c in r ==> c in first by {
        TrimKeepsCharacters(first);
      }
      r
    else if realIp != "" then realIp
    else UnknownAddress
  }

  lemma TrimKeepsCharacters(s: string)
    ensures forall c :: c in Text.Trim(s) ==> c in s
  {
    var a := Text.TrimStart(s);
    var b := Text.TrimEnd(a);
    assert forall i :: 0 <= i < |b| ==> b[i] == a[i];
    assert forall i :: 0 <= i < |a| ==> a[i] == s[|s| - |a| + i];
  }

  /** The subscribers created from `ip` strictly after `windowStart`, in
      store order (the `count` query's filter). */
  function FromAddressSince(records: seq<Subscriber>, ip: string, windowStart: int): (r: seq<Subscriber>)
    ensures |r| <= |records|
    ensures forall s :: s in r <==> s in records && s.ipAddress == ip && s.createdAt > windowStart
  {
    if records == [] then []
    else
      var rest := FromAddressSince(records[1..], ip, windowStart);
      assert records == [records[0]] + records[1..];
      if records[0].ipAddress == ip && records[0].createdAt > windowStart then [records[0]] + rest else rest
  }

  /** The result of `checkDatabaseRateLimit`. */
  datatype RateLimitDecision = RateLimitDecision(allowed: bool, count: nat, resetTime: int)

  /** `checkDatabaseRateLimit` at time `now` (ms): the window reaches one
      hour back and is reset one hour ahead. */
  function CheckRateLimit(records: seq<Subscriber>, ip: string, now: int): (r: RateLimitDecision)
    ensures r.count == |FromAddressSince(records, ip, now - RateLimitWindow)|
    ensures r.allowed <==> r.count < RateLimitMax
    ensures r.resetTime == now + RateLimitWindow
  {
    var count := |FromAddressSince(records, ip, now - RateLimitWindow)|;
    RateLimitDecision(count < RateLimitMax, count, now + RateLimitWindow)
  }

  /** A subscription created now from `ip` counts against that address. */
  lemma {:induction false} NewSubscriptionCounts(records: seq<Subscriber>, s: Subscriber, now: int)
    requires s.createdAt == now
    ensures |FromAddressSince(records + [s], s.ipAddress, now - RateLimitWindow)|
      == |FromAddressSince(records, s.ipAddress, now - RateLimitWindow)| + 1
    decreases |records|
  {
    if records != [] {
      assert (records + [s])[1..] == records[1..] + [s];
      NewSubscriptionCounts(records[1..], s, now);
    } else {
      assert ([] + [s])[1..] == [];
    }
  }

  /** `String(n)` of an integer. */
  function IntToString(n: int): (r: string)
    ensures n >= 0 ==> r == Text.NatToString(n)
    ensures n < 0 ==> r == "-" + Text.NatToString(-n)
  {
    if n < 0 then "-" + Text.NatToString(-n) else Text.NatToString(n)
  }

  /** The headers of the 429 answer. */
  datatype RateLimitHeaders = RateLimitHeaders(retryAfter: string, limit: string, remaining: string, reset: string)

  /** The headers for a refused request; the clock is read once, so the
      wait is the whole window, in seconds. */
  function HeadersFor(d: RateLimitDecision, now: int): (h: RateLimitHeaders)
    requires d.resetTime == now + RateLimitWindow
    ensures h.retryAfter == Text.NatToString(RateLimitWindow / 1000) && h.limit == Text.NatToString(RateLimitMax)
    ensures Text.DecimalValue(h.retryAfter) == RateLimitWindow / 1000
    ensures Text.DecimalValue(h.limit) == RateLimitMax
    ensures h.remaining == "0"
    ensures h.reset == IntToString(now + RateLimitWindow)
  {
    var wait := Text.CeilDiv(d.resetTime - now, 1000);
    assert wait == 3600;
    Text.DecimalRoundTrip(wait);
    Text.DecimalRoundTrip(RateLimitMax);
    RateLimitHeaders(IntToString(wait), IntToString(RateLimitMax), "0", IntToString(d.resetTime))
  }

  /** The parts of the request the route reads: the two address headers and
      the body's `type`, `email` and `phone`, each empty when absent. */
  datatype SubscribeRequest = SubscribeRequest(forwardedFor: string, realIp: string, kind: string, email: string, phone: string)

  /** The route's answer. */
  datatype SubscribeResponse =
    | RateLimited(error: string, headers: RateLimitHeaders)
    | Refused(code: nat, error: string)
    | Subscribed(message: string)

  /** The store's `find` for an existing subscription: the same type and
      contact, whether active or not. */
  predicate ContactTaken(records: seq<Subscriber>, kind: SubscriptionType, contact: string) {
    exists i | 0 <= i < |records| :: records[i].kind == kind
      && (if kind == EmailType then records[i].email else records[i].phone) == contact
  }

  /** The request's address is under the rate limit. */
  predicate Admitted(req: SubscribeRequest, records: seq<Subscriber>, now: int) {
    CheckRateLimit(records, GetClientIp(req.forwardedFor, req.realIp), now).allowed
  }

  /** The early returns of `POST`, in their order: rate limit, type, channel
      configuration, contact format, duplicate. `None` means the request
      reaches `create`. */
  function Rejection(req: SubscribeRequest, records: seq<Subscriber>, email: EmailSettingsDoc, sms: SmsSettingsDoc, now: int)
    : (r: Option<SubscribeResponse>)
    ensures r.Some? ==> (r.value.RateLimited? && r.value.error == TooManyAttempts)
                        || (r.value.Refused? && r.value.code in {400, 409, 503})
    ensures var limit := CheckRateLimit(records, GetClientIp(req.forwardedFor, req.realIp), now);
      !limit.allowed ==> r == Some(RateLimited(TooManyAttempts, HeadersFor(limit, now)))
    ensures Admitted(req, records, now) && req.kind != "email" && req.kind != "sms" ==>
      r == Some(Refused(400, InvalidType))
    // the email branch: configuration, then format, then duplicate
    ensures Admitted(req, records, now) && req.kind == "email" && !IsEmailConfigured(email) ==>
      r == Some(Refused(503, EmailUnavailable))
    ensures (Admitted(req, records, now) && req.kind == "email" && IsEmailConfigured(email)
             && (req.email == "" || !ContactFormat.IsEmailAddress(req.email))) ==>
      r == Some(Refused(400, InvalidEmail))
    ensures (Admitted(req, records, now) && req.kind == "email" && IsEmailConfigured(email)
             && req.email != "" && ContactFormat.IsEmailAddress(req.email) && ContactTaken(records, EmailType, req.email)) ==>
      r == Some(Refused(409, EmailTaken))
    // the SMS branch, in the same order
    ensures Admitted(req, records, now) && req.kind == "sms" && !IsSmsConfigured(sms) ==>
      r == Some(Refused(503, SmsUnavailable))
    ensures (Admitted(req, records, now) && req.kind == "sms" && IsSmsConfigured(sms)
             && (req.phone == "" || !ContactFormat.IsPhoneNumber(req.phone))) ==>
      r == Some(Refused(400, InvalidPhone))
    ensures (Admitted(req, records, now) && req.kind == "sms" && IsSmsConfigured(sms)
             && req.phone != "" && ContactFormat.IsPhoneNumber(req.phone) && ContactTaken(records, SmsType, req.phone)) ==>
      r == Some(Refused(409, PhoneTaken))
    ensures r.None? <==> (
      && CheckRateLimit(records, GetClientIp(req.forwardedFor, req.realIp), now).allowed
      && ((req.kind == "email" && IsEmailConfigured(email) && ContactFormat.IsEmailAddress(req.email)
           && !ContactTaken(records, EmailType, req.email))
          || (req.kind == "sms" && IsSmsConfigured(sms) && ContactFormat.IsPhoneNumber(req.phone)
              && !ContactTaken(records, SmsType, req.phone))))
  {
    var limit := CheckRateLimit(records, GetClientIp(req.forwardedFor, req.realIp), now);
    if !limit.allowed then Some(RateLimited(TooManyAttempts, HeadersFor(limit, now)))
    else if req.kind != "email" && req.kind != "sms" then Some(Refused(400, InvalidType))
    else if req.kind == "email" then
      if !IsEmailConfigured(email) then Some(Refused(503, EmailUnavailable))
      else if req.email == "" || !ContactFormat.IsEmailAddress(req.email) then Some(Refused(400, InvalidEmail))
      else if ContactTaken(records, EmailType, req.email) then Some(Refused(409, EmailTaken))
      else None
    else
      if !IsSmsConfigured(sms) then Some(Refused(503, SmsUnavailable))
      else if req.phone == "" || !ContactFormat.IsPhoneNumber(req.phone) then Some(Refused(400, InvalidPhone))
      else if ContactTaken(records, SmsType, req.phone) then Some(Refused(409, PhoneTaken))
      else None
  }

  /** The data the route hands to `create`: the type, its one contact,
      unverified, active, and the client address. */
  function DataFor(req: SubscribeRequest): (d: SubscriberData)
    ensures d.verified == Some(false) && d.active == Some(true)
    ensures d.ipAddress == GetClientIp(req.forwardedFor, req.realIp)
    ensures req.kind == "email" ==> d.kind == Some(EmailType) && d.email == req.email && d.phone == ""
    ensures req.kind != "email" ==> d.kind == Some(SmsType) && d.phone == req.phone && d.email == ""
    ensures d.verificationToken == "" && d.unsubscribeToken == ""
  {
    var ip := GetClientIp(req.forwardedFor, req.realIp);
    if req.kind == "email" then SubscriberData(Some(EmailType), req.email, "", Some(false), Some(true), "", "", ip)
    else SubscriberData(Some(SmsType), "", req.phone, Some(false), Some(true), "", "", ip)
  }

  function SuccessMessage(kind: string): string {
    "Successfully subscribed via " + kind
  }

  /** `POST`. A rejected request leaves the table as it was. One that
      passes every check is handed to the table's `create`; if that fails
      (a token collision) the answer is 500 and nothing is stored. */
  method Post(table: SubscriberTable, req: SubscribeRequest, email: EmailSettingsDoc, sms: SmsSettingsDoc, now: int,
              verificationBytes: seq<ShortId.Byte>, unsubscribeBytes: seq<ShortId.Byte>)
    returns (response: SubscribeResponse)
    requires table.Valid()
    requires |verificationBytes| == VerificationTokenLength && |unsubscribeBytes| == UnsubscribeTokenLength
    modifies table
    ensures table.Valid()
    ensures Rejection(req, old(table.records), email, sms, now).Some? ==>
      response == Rejection(req, old(table.records), email, sms, now).value
      && table.records == old(table.records) && table.nextId == old(table.nextId)
    ensures Rejection(req, old(table.records), email, sms, now).None? ==>
      var created := CreateOutcome(old(table.records), old(table.nextId), DataFor(req), now, verificationBytes, unsubscribeBytes);
      && (created.Ok? ==> response == Subscribed(SuccessMessage(req.kind)) && table.records == old(table.records) + [created.value]
                          && table.nextId == old(table.nextId) + 1)
      && (created.Err? ==> response == Refused(500, CreateFailed) && table.records == old(table.records)
                           && table.nextId == old(table.nextId))
  {
    var clientIp := GetClientIp(req.forwardedFor, req.realIp);
    var rateLimit := CheckRateLimit(table.records, clientIp, now);
    if !rateLimit.allowed {
      return RateLimited(TooManyAttempts, HeadersFor(rateLimit, now));
    }
    if req.kind != "email" && req.kind != "sms" {
      return Refused(400, InvalidType);
    }
    var data: SubscriberData;
    if req.kind == "email" {
      if !IsEmailConfigured(email) {
        return Refused(503, EmailUnavailable);
      }
      if req.email == "" || !ContactFormat.IsEmailAddress(req.email) {
        return Refused(400, InvalidEmail);
      }
      if ContactTaken(table.records, EmailType, req.email) {
        return Refused(409, EmailTaken);
      }
      data := SubscriberData(Some(EmailType), req.email, "", Some(false), Some(true), "", "", clientIp);
    } else {
      if !IsSmsConfigured(sms) {
        return Refused(503, SmsUnavailable);
      }
      if req.phone == "" || !ContactFormat.IsPhoneNumber(req.phone) {
        return Refused(400, InvalidPhone);
      }
      if ContactTaken(table.records, SmsType, req.phone) {
        return Refused(409, PhoneTaken);
      }
      data := SubscriberData(Some(SmsType), "", req.phone, Some(false), Some(true), "", "", clientIp);
    }
    var created := table.Create(data, now, verificationBytes, unsubscribeBytes);
    if created.Err? {
      return Refused(500, CreateFailed);
    }
    response := Subscribed(SuccessMessage(req.kind));
  }

  /** The rate limit is checked before the body is read: a refused address
      gets 429 whatever it sends. */
  lemma RateLimitComesFirst(req: SubscribeRequest, other: SubscribeRequest, records: seq<Subscriber>,
                            email: EmailSettingsDoc, sms: SmsSettingsDoc, now: int)
    requires other.forwardedFor == req.forwardedFor && other.realIp == req.realIp
    requires !CheckRateLimit(records, GetClientIp(req.forwardedFor, req.realIp), now).allowed
    ensures Rejection(req, records, email, sms, now) == Rejection(other, records, email, sms, now)
    ensures Rejection(req, records, email, sms, now).Some? && Rejection(req, records, email, sms, now).value.RateLimited?
  {
  }

  /** An unknown type is refused before the settings are looked at. */
  lemma TypeIsCheckedBeforeSettings(req: SubscribeRequest, records: seq<Subscriber>,
                                    e1: EmailSettingsDoc, s1: SmsSettingsDoc, e2: EmailSettingsDoc, s2: SmsSettingsDoc, now: int)
    requires req.kind != "email" && req.kind != "sms"
    requires CheckRateLimit(records, GetClientIp(req.forwardedFor, req.realIp), now).allowed
    ensures Rejection(req, records, e1, s1, now) == Rejection(req, records, e2, s2, now) == Some(Refused(400, InvalidType))
  {
  }

  /** The duplicate check ignores `active`: a contact that unsubscribed
      cannot subscribe again. */
  lemma UnsubscribedContactIsStillTaken(req: SubscribeRequest, records: seq<Subscriber>,
                                        email: EmailSettingsDoc, sms: SmsSettingsDoc, now: int, i: nat)
    requires req.kind == "email" && IsEmailConfigured(email) && ContactFormat.IsEmailAddress(req.email)
    requires CheckRateLimit(records, GetClientIp(req.forwardedFor, req.realIp), now).allowed
    requires i < |records| && records[i].kind == EmailType && records[i].email == req.email && !records[i].active
    ensures Rejection(req, records, email, sms, now) == Some(Refused(409, EmailTaken))
  {
  }

  /** A request that passes the route's checks also passes the collection's
      own validators, and the record `create` would store has the type, the
      contact, `verified` false, `active` true and the client address. */
  lemma AcceptedRequestIsValidForTheCollection(req: SubscribeRequest, records: seq<Subscriber>,
                                               email: EmailSettingsDoc, sms: SmsSettingsDoc, now: int, id: nat,
                                               verificationBytes: seq<ShortId.Byte>, unsubscribeBytes: seq<ShortId.Byte>)
    requires |verificationBytes| == VerificationTokenLength && |unsubscribeBytes| == UnsubscribeTokenLength
    requires Rejection(req, records, email, sms, now).None?
    ensures var p := PrepareCreate(DataFor(req), id, now, verificationBytes, unsubscribeBytes);
      && p.Ok?
      && p.value.kind == (if req.kind == "email" then EmailType else SmsType)
      && (req.kind == "email" ==> p.value.email == req.email)
      && (req.kind == "sms" ==> p.value.phone == req.phone)
      && !p.value.verified && p.value.active
      && p.value.ipAddress == GetClientIp(req.forwardedFor, req.realIp)
      && |p.value.unsubscribeToken| == UnsubscribeTokenLength
  {
    if req.kind == "email" {
      assert req.email != "";
    } else {
      assert ContactFormat.IsPhoneNumber(req.phone);
    }
  }

  /** Five subscriptions from one address within the hour close it. */
  lemma FifthSubscriptionClosesTheWindow(records: seq<Subscriber>, s: Subscriber, now: int)
    requires s.createdAt == now
    requires |FromAddressSince(records, s.ipAddress, now - RateLimitWindow)| == RateLimitMax - 1
    ensures CheckRateLimit(records, s.ipAddress, now).allowed
    ensures !CheckRateLimit(records + [s], s.ipAddress, now).allowed
  {
    NewSubscriptionCounts(records, s, now);
  }
}
