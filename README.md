# Status page notifications and subscriptions, in Dafny

This project models the notification and subscription core of a self-hosted
status page built on the Payload document framework. It covers:

- **Incidents.** An incident's status comes from its newest update, and its
  resolution time has two rules. On every write `beforeChange` syncs
  `status` and `resolvedAt` and gives a new incident its `shortId`.
  `afterChange` chooses which updates produce a notification draft, and a
  draft's email body and SMS body are built from a template.
- **The dispatch task** (`sendNotificationFromCollection`). It fetches the
  active subscribers of each requested channel, 500 per page. It keeps those
  with a contact and checks SMTP and Twilio configuration. It fills the
  `{{siteUrl}}` placeholder, renders each email, and sends through the
  transport wrappers: `sendBulkEmails`, and `sendBulkSms` in batches of ten
  with a pause between batches. Finally it writes the notification's final
  status, recipient count, send time and error message.
- **The transport wrappers** `src/lib/email.ts` and `src/lib/sms.ts`. They
  cover the SMTP options and the message passed to nodemailer, the sender
  choice, the credentials checks, the summaries, and the conditional parts of
  the email template.
- **The send route** (`POST /api/notifications/send-from-collection`). Its
  guard lets a notification through only when it is a draft or has failed. It
  builds the related item's permalink, marks the notification scheduled, runs
  the dispatch task, and reports the stored result.
- **The counters**: the `afterRead` recipient estimate on notifications,
  `GET /api/subscribers/count`, and `GET /api/dashboard-stats`.
- **The subscriber side**:
  - `POST /api/subscribe`: an hourly rate limit per client address, type
    checks, channel availability, contact format checks, the duplicate check,
    and `create`. `GET /api/subscribe` reports which channels are available.
  - `POST /api/unsubscribe`: a soft delete by token.
  - The `subscribers` collection: field defaults, validators, and the
    create-only token hooks.
- **Small helpers**: masking the secret in the settings globals, `shortId`,
  the slug hook on services and service groups, and `getMediaUrl`.

Absent JavaScript strings (`undefined`, `null`, `''`) are the empty string.
Every branch of the code treats them alike.

External parts are parameters:

- The document store is a sequence of records, a map, or a class whose fields
  the methods reassign.
- Each transport is a function from the message to an outcome: accepted under
  an id, or a thrown value.
- The clock is a millisecond count.
- Random bytes and `process.env` values are passed in.

A few behaviours of the code differ from what one might expect. The model
follows the code and states each as a lemma:

- The duplicate check on subscribe ignores `active`, so an unsubscribed
  contact cannot subscribe again (`SubscribeRoute.UnsubscribedContactIsStillTaken`).
- A notification with nobody to reach is marked `sent` with zero recipients
  and no error (`Dispatch.NoRecipientsIsSentWithZero`).
- A retry that succeeds writes no `errorMessage`, so the message of the
  earlier failed run stays (`Dispatch.CleanRetryKeepsStaleError`).
- No SMS of the dispatch task is ever delivered. It passes an object as the
  body, and `sendSms` calls `.substring` on it for a debug line before the
  transport is reached; the `TypeError` is caught and reported as a failure
  (`Dispatch.DispatchedSmsNeverDelivered`, listed under Findings).
- Missing SMTP ends the run `failed` even with SMS recipients, since no SMS
  gets through (`Dispatch.EmailGateDoesNotStopSms`).
- The dispatch task reads its SMTP and Twilio fields from the general `settings`
  global, which has none of them since the email and SMS settings were split
  into their own globals. So every run with email recipients reports `SMTP not
  configured` and every run with SMS recipients `Twilio not configured`
  (`Dispatch.SettingsGlobalStopsEveryRun`, listed under Findings). The rest of
  the model has the dispatch task read the two split documents.
- Even reading the SMS settings document, the dispatch task's Twilio gate wants a from number when a messaging service is
  configured. The subscribe route accepts either. So SMS subscribers can be
  accepted whom the dispatch task then reports as `Twilio not configured`
  (`SubscribeRoute.MessagingServiceOnlyPassesRouteButNotTask`).
- The two resolution-time rules disagree once a resolved incident is reopened
  (`Incidents.ResolvedAtRulesDifferAfterReopening`).
- Bodies are not interpolated generally. `{{siteUrl}}` in the email body is
  the only placeholder the dispatch task replaces. The SMS template fields of the
  settings global are never read.
- The send route does not write the guard and the status change atomically:
  it reads the status, then writes `scheduled`.

## Model

| member | source | states |
|---|---|---|
| Text.Trim | src/app/api/subscribe/route.ts:34 | `trim()` keeps exactly one slice of the text: everything before it and after it is whitespace, and the slice is empty or starts and ends with non-whitespace |
| Text.TrimKeepsTrimmed | src/app/api/subscribe/route.ts:34 | text without whitespace at either end is its own trim |
| Text.JoinAppend | src/tasks/sendNotificationFromCollection.ts:127 | joining two non-empty lists is joining each and putting one separator between them |
| Text.TakeAtMost | src/tasks/sendNotificationFromCollection.ts:127 | `slice(0, n)` is a prefix of length `min(n, |s|)` |
| Text.ReplaceAll | src/tasks/sendNotificationFromCollection.ts:103 | every character of the result comes from the text or the replacement |
| Text.ReplaceAllAtPattern | src/tasks/sendNotificationFromCollection.ts:103 | an occurrence at the front is replaced and the scan goes on after it |
| Text.ReplaceAllAfterPlainPrefix | src/tasks/sendNotificationFromCollection.ts:103 | for a pattern that cannot overlap itself, text before the first occurrence is copied, that occurrence is replaced, and the scan resumes after it |
| Text.NoOccurrenceInConcat | src/tasks/sendNotificationFromCollection.ts:103 | joining two texts without the pattern creates none when one side of the seam holds a character foreign to the pattern |
| Text.ReplaceAllWithoutPattern | src/tasks/sendNotificationFromCollection.ts:103 | a global replace of a pattern that does not occur leaves the text unchanged |
| Text.ReplaceCharRemovesIt | src/lib/email.ts:200 | replacing every `\n` by text without `\n` leaves no `\n` |
| Text.ReplaceAllFillsTemplate | src/tasks/sendNotificationFromCollection.ts:103 | parts that do not hold a pattern which cannot overlap itself, joined by that pattern, become the same parts joined by the replacement: every occurrence is replaced and nothing else changes |
| Text.NatToString | src/tasks/sendNotificationFromCollection.ts:127 | `String(n)` of a count is a non-empty string of decimal digits with no leading zero unless the count is 0 |
| Text.DecimalRoundTrip | src/tasks/sendNotificationFromCollection.ts:127 | reading the rendered count back gives the count |
| Text.IndexOf | src/app/api/subscribe/route.ts:34 | the first index of a character, or -1 exactly when it is absent |
| Text.StripTags | src/lib/email.ts:65 | removing tags never lengthens the text or introduces characters |
| Text.StripTagsKeepsPlainPrefix | src/lib/email.ts:65 | text before the first `<` is kept as it is |
| Text.StripTagsDropsTag | src/lib/email.ts:65 | a closed `<...>` tag is removed and the rest is stripped on |
| Text.StripTagsKeepsUnclosed | src/lib/email.ts:65 | text without `>` has no tag to remove and is kept whole |
| Text.StripTagsWithoutTags | src/lib/email.ts:65 | HTML without `<` is its own plain text |
| Text.StripTagsLeavesNoTag | src/lib/email.ts:65 | after `replace(/<[^>]*>/g, '')` no `<` is followed by a `>` |
| Text.CeilDiv | src/app/api/subscribe/route.ts:94 | `Math.ceil(x / d)` is the least integer whose product with `d` reaches `x` |
| ContactFormat.EmailAtIsUnique | src/app/api/subscribe/route.ts:131 | an address the email pattern accepts has exactly one `@` |
| ContactFormat.EmailAddressFromParts | src/app/api/subscribe/route.ts:131 | every `local@head.tail` with non-empty parts free of whitespace and `@` is accepted by the email pattern |
| ContactFormat.EmailAddressParts | src/app/api/subscribe/route.ts:131 | every accepted address is such a `local@head.tail`, so the pattern is exactly that shape |
| ContactFormat.PhoneNumberShape | src/app/api/subscribe/route.ts:178 | an accepted number is 7 to 15 digits, the first not `0`, with at most a leading `+` |
| ContactFormat.PhoneNumberFromDigits | src/app/api/subscribe/route.ts:178 | conversely, 7 to 15 digits starting with `1-9` are accepted with or without a leading `+` |
| ContactFormat.PhoneIsNeverEmail | src/app/api/subscribe/route.ts:178 | a string the phone pattern accepts is never accepted by the email pattern |
| Delivery.FailureText | src/lib/email.ts:77 | a thrown `Error` reports its message; any other thrown value reports the fallback text |
| Delivery.CountDelivered | src/lib/email.ts:90 | the number of successes is at most the number of results |
| Delivery.FailureErrors | src/lib/email.ts:92-94 | the listed errors are non-empty error strings of failed results, at most one per failure |
| Delivery.AllDeliveredCount | src/lib/email.ts:90 | when every send succeeded, all of them are counted as sent |
| Delivery.Summarize | src/lib/email.ts:90-96 | `sent + failed` is the number of results; the listed errors are at most `failed`; when everything succeeded, nothing failed and no error is listed |
| Delivery.AllFailedSummary | src/lib/email.ts:90-96 | when every send failed with the same error, nothing is sent and that error is listed once per message |
| Delivery.SummarizeAppend | src/lib/sms.ts:89-106 | results collected batch by batch sum up like the whole list: counts add and error lists concatenate |
| Sms.CreateTwilioClient | src/lib/sms.ts:18-24 | the client is created exactly when the account SID and the auth token are both set, and with those two; otherwise the fixed error |
| Sms.MessageOptionsFor | src/lib/sms.ts:37-47 | exactly one sender is set: the messaging service SID when configured, the from number otherwise |
| Sms.SendSms | src/lib/sms.ts:26-79 | a missing sender is reported first, then missing credentials; an object body then fails with the `TypeError` of `body.substring` (line 58) before the transport is called; a string body gets the transport's id or the text of what it threw |
| Sms.SendAllSms | src/lib/sms.ts:91-93 | one result per message, in order, each that of sending that message |
| Sms.SendAllSmsAppend | src/lib/sms.ts:91-93 | sending two runs of messages gives the results of the first run followed by those of the second |
| Sms.SendBulkSms | src/lib/sms.ts:81-109 | the messages go out in order in consecutive batches of at most ten, all full but the last, each message once; pauses are one fewer than the batches (none for no messages); the summary is that of sending all messages in order |
| Sms.FormatSmsMessage | src/lib/sms.ts:111-118 | a body of at most 320 characters is kept; a longer one becomes its first 317 characters and `...`, 320 in all |
| Sms.FormatSmsBody | src/tasks/sendNotificationFromCollection.ts:137-145 | the object the dispatch task hands to `formatSmsMessage` comes back unchanged; only a string body is shortened |
| Email.CreateTransporter | src/lib/email.ts:18-39 | fails exactly when the host or the from address is missing. Otherwise: `secure` iff SSL; the port is the configured one or 465/587 by `secure`; auth iff a username is set; TLS options iff TLS, rejecting unauthorised certificates exactly in production |
| Email.FromHeader | src/lib/email.ts:48-49 | the sender is `"name" <address>`, with the name falling back from the SMTP from name to the site name to `Status Page` |
| Email.UnsubscribeHeaders | src/lib/email.ts:51-57 | both list-unsubscribe headers are present exactly when an unsubscribe URL is given, with the URL in angle brackets and the one-click value |
| Email.MailFor | src/lib/email.ts:59-67 | the message keeps recipient, subject and HTML; reply-to falls back to the from address; the text is the given one or the HTML with tags stripped |
| Email.SendEmail | src/lib/email.ts:41-80 | a configuration error is a failed result with that message; otherwise the transport's id, or the text of what it threw |
| Email.SendAllEmails | src/lib/email.ts:86-88 | one result per email, in order, each that of sending that email |
| Email.SendBulkEmails | src/lib/email.ts:82-97 | every email is counted once as sent or failed; without configuration all fail with the configuration error |
| Email.AbsoluteLogoUrl | src/lib/email.ts:111-114 | no logo without a URL; an `http...` URL is kept; any other path is joined to the site URL with exactly one `/` |
| Email.BodyHtml | src/lib/email.ts:200 | the body HTML has no newline left, and a body without newlines is unchanged |
| Email.BodyHtmlRendersLineBreaks | src/lib/email.ts:200 | every newline becomes `<br>` and nothing else changes: lines joined by newlines render as the same lines joined by `<br>` |
| Email.EmailLayoutOf | src/lib/email.ts:99-214 | logo image iff a logo URL (else the site name as text); call to action iff both its text and URL are set; unsubscribe link iff a URL is given |
| Email.GeneratedEmailHtmlShape | src/lib/email.ts:99-214 | the rendered document opens with the title as page title, holds the body with line breaks rendered (`BodyHtml`, see `BodyHtmlRendersLineBreaks`), holds the call to action when its text and URL are set, and ends with the closing markup |
| Email.UnsubscribeLinkRendered | src/lib/email.ts:208 | a given unsubscribe URL always appears in the rendered email's footer link |
| SecretField.MaskOnRead | src/globals/EmailSettings.ts:77-85 | a set secret read through REST or GraphQL becomes the mask; local reads and empty values pass through |
| SecretField.KeepOnWrite | src/globals/EmailSettings.ts:86-94 | writing nothing or the mask keeps a stored secret; anything else is stored as given |
| SecretField.ReadThenWriteKeepsSecret | src/globals/EmailSettings.ts:76-94 | writing back exactly what any read returned leaves the stored secret as it was |
| SecretField.MaskNeverReplacesSecret | src/globals/EmailSettings.ts:86-94 | a real stored secret is never replaced by the mask |
| EmailSettings.Read | src/globals/EmailSettings.ts:76-85 | only `smtpPassword` changes on read, to the mask for a set password read externally |
| EmailSettings.Write | src/globals/EmailSettings.ts:86-94 | only `smtpPassword` differs from the incoming document, and it keeps the stored password when the mask or nothing is sent |
| EmailSettings.SaveUnchangedKeepsDocument | src/globals/EmailSettings.ts:76-94 | saving the settings form as read stores the same document |
| SmsSettings.Read | src/globals/SmsSettings.ts:45-54 | only `twilioAuthToken` changes on read, to the mask for a set token read externally |
| SmsSettings.Write | src/globals/SmsSettings.ts:55-63 | only `twilioAuthToken` differs from the incoming document, and it keeps the stored token when the mask or nothing is sent |
| SmsSettings.SaveUnchangedKeepsDocument | src/globals/SmsSettings.ts:45-63 | saving the settings form as read stores the same document |
| ShortId.ShortIdOf | src/lib/shortId.ts:18-20 | one character per random byte: the byte modulo 36 picks it from the base-36 alphabet |
| ShortId.ShortIdInAlphabet | src/lib/shortId.ts:4 | every identifier uses only `0-9` and `a-z` |
| ShortId.GenerateShortId | src/lib/shortId.ts:3-23 | the loop yields the identifier of the random bytes, of the requested length, in the alphabet |
| Media.GetMediaUrl | src/lib/utils.ts:13-17 | a URL only for a populated media document with a non-empty URL, and then that URL |
| Site.SiteUrl | src/tasks/sendNotificationFromCollection.ts:41 | the configured server URL, else `https://status.example.com`; never empty |
| Site.SiteName | src/tasks/sendNotificationFromCollection.ts:42 | the configured site name, else `Status Page`; never empty |
| Slugs.ToLower | src/collections/Services.ts:43 | lowercasing keeps the length and maps each character |
| Slugs.CollapseRunsShape | src/collections/Services.ts:44 | the collapsed text uses only `[a-z0-9-]` with no `--`, is empty only for empty text, and starts with `-` exactly when the text starts with a separator |
| Slugs.CollapseRunsKeepsAlnums | src/collections/Services.ts:44 | collapsing keeps the letters and digits in order |
| Slugs.CollapseRunsOfSeparators | src/collections/Services.ts:44 | text of separators only becomes a single `-` |
| Slugs.Words | src/collections/Services.ts:44 | the maximal runs of `[a-z0-9]`, each non-empty and made only of those characters |
| Slugs.CollapseRunsByWords | src/collections/Services.ts:44 | the collapsed text is the words joined by single `-`, with one `-` in front when the text starts with a separator and one at the end when separators follow the last word |
| Slugs.StripEdges | src/collections/Services.ts:45 | exactly one leading and one trailing `-` are removed when present and nothing else: a lone `-` becomes empty, text without edge dashes is unchanged; `[a-z0-9-]` and no `--` are kept |
| Slugs.StripEdgesKeepsAlnums | src/collections/Services.ts:45 | removing the edge dashes keeps the letters and digits in order |
| Slugs.StripEdgesLeavesNoEdgeDash | src/collections/Services.ts:45 | on text without `--`, the result neither starts nor ends with `-` |
| Slugs.CollapseThenStripJoinsWords | src/collections/Services.ts:44-45 | collapsing and then removing the edge dashes gives the words joined by single `-` |
| Slugs.Slugify | src/collections/Services.ts:42-45 | the derived slug is the maximal runs of `[a-z0-9]` of the lowercased name joined by single `-`; it is well formed (only `[a-z0-9-]`, no `--`, no edge `-`) and keeps the letters and digits in order |
| Slugs.SlugifyKeepsSlugs | src/collections/Services.ts:42-45 | a well-formed slug derives to itself |
| Slugs.SlugifyIsIdempotent | src/collections/Services.ts:42-45 | deriving twice equals deriving once |
| Slugs.NameWithoutAlnumsGivesEmptySlug | src/collections/Services.ts:42-45 | a name with no ASCII letter or digit yields the empty slug |
| Slugs.SlugHook | src/collections/Services.ts:39-48 | a given slug is kept; otherwise a name gives its well-formed derived slug; the hook is the same at src/collections/ServiceGroups.ts:29-38 |
| Subscribers.ValidateEmail | src/collections/Subscribers.ts:52-57 | rejected exactly when the type is email and no address is given |
| Subscribers.ValidatePhone | src/collections/Subscribers.ts:67-75 | rejected exactly when an SMS subscription has no number, or a given number fails the pattern whatever the type |
| Subscribers.TokenOnCreate | src/collections/Subscribers.ts:96-102 | on create an absent token becomes the identifier of the random bytes; otherwise the value passes through |
| Subscribers.VerificationTokenHook | src/collections/Subscribers.ts:95-104 | on create an absent verification token becomes 24 base-36 characters; otherwise unchanged |
| Subscribers.UnsubscribeTokenHook | src/collections/Subscribers.ts:116-124 | on create an absent unsubscribe token becomes 32 base-36 characters; otherwise unchanged |
| Subscribers.PrepareCreate | src/collections/Subscribers.ts:34-135 | accepted exactly when both validators accept. The record then has the type (default email), the contacts, `verified` (default false), `active` (default true), and a 32-character unsubscribe token and a 24-character verification token unless given |
| Subscribers.CreateOutcome | src/collections/Subscribers.ts:107-111 | a created record's unsubscribe token is not yet in the table (`unique: true`) |
| Subscribers.ActiveOfType | src/tasks/sendNotificationFromCollection.ts:61-64 | a subscriber is listed exactly when it is stored, active and of the type |
| Subscribers.ActiveOfTypeAppend | src/tasks/sendNotificationFromCollection.ts:61-64 | the filter of two stretches of the store is the filter of the first followed by that of the second, so the store order is kept |
| Subscribers.ActiveOfTypeAfterAppend | src/tasks/sendNotificationFromCollection.ts:61-64 | a record added last is listed last exactly when it is active and of the type |
| Subscribers.SubscriberTable.Create | src/app/api/subscribe/route.ts:159-168 | on success exactly one record is appended under the next id; on failure the table is unchanged; ids increase and tokens stay unique |
| Subscribers.SubscriberTable.SetActive | src/app/api/unsubscribe/route.ts:47-53 | only the addressed record's `active` flag changes |
| Notifications.Recipients | src/collections/Notifications.ts:42-62 | exactly the active subscribers whose type the channel includes |
| Notifications.EstimateCountsRecipients | src/collections/Notifications.ts:42-62 | the estimate, the email count plus the SMS count as the channel includes them, counts each reachable subscriber exactly once |
| Notifications.AfterRead | src/collections/Notifications.ts:35-75 | a draft or scheduled notification gets the number of reachable subscribers (a missing channel counts as both); a sent or failed one, or one whose count fails, is returned as is |
| Notifications.AfterReadOnlyTouchesCount | src/collections/Notifications.ts:65-68 | reading changes nothing but the recipient count |
| SubscriberCountRoute.ParseChannel | src/app/api/subscribers/count/route.ts:13-24 | exactly `email`, `sms` and `both` name a channel |
| SubscriberCountRoute.Get | src/app/api/subscribers/count/route.ts:5-40 | 200 with the number of active subscribers the channel reaches (default both, 0 for an unknown channel), or 500 with count 0 and the error when the store fails |
| DashboardStats.ActiveIncidents | src/app/api/dashboard-stats/route.ts:68-71 | exactly the incidents whose derived status is not resolved |
| DashboardStats.ActiveCountOfAppend | src/app/api/dashboard-stats/route.ts:68-71 | one more incident adds one to the active count exactly when it is not resolved, and always when it has no updates |
| DashboardStats.ActiveCountIsAllButResolved | src/app/api/dashboard-stats/route.ts:67-71 | the active count is the number of incidents minus the number whose derived status is resolved |
| DashboardStats.ResolvingUpdateLeavesTheCount | src/app/api/dashboard-stats/route.ts:67-71 | an incident whose newest update is a resolution is no longer active |
| DashboardStats.CountWithStatus | src/app/api/dashboard-stats/route.ts:20-28 | the count is zero exactly when no notification has the status |
| DashboardStats.CountWithStatusIsMultiplicity | src/app/api/dashboard-stats/route.ts:20-28 | the count is the number of times the status occurs among the notifications' statuses |
| DashboardStats.PendingAndScheduledFit | src/app/api/dashboard-stats/route.ts:20-28 | drafts and scheduled notifications together are at most all notifications |
| DashboardStats.CountUpcoming | src/app/api/dashboard-stats/route.ts:56-64 | the count equals the number of maintenances exactly when all are upcoming or in progress |
| DashboardStats.CountUpcomingIsMultiplicity | src/app/api/dashboard-stats/route.ts:56-64 | the count is the number of upcoming plus the number of in-progress maintenances |
| DashboardStats.ActiveOfTypeSplit | src/app/api/dashboard-stats/route.ts:29-48 | active email subscribers and active SMS subscribers together are at most all subscribers |
| DashboardStats.DashboardStats | src/app/api/dashboard-stats/route.ts:6-80 | pending and scheduled are the numbers of drafts and of scheduled notifications; active incidents are all but the resolved ones; upcoming maintenances are those upcoming or in progress; the subscriber counters are the numbers the email and SMS channels reach |
| Dispatch.FindPage | src/tasks/sendNotificationFromCollection.ts:59-67 | page `p` is the `p`-th slice of 500 of the filtered table; there is a next page exactly when more documents follow |
| Dispatch.FetchSubscribers | src/tasks/sendNotificationFromCollection.ts:52-75 | the paging loop returns exactly the active subscribers of the type, in order, and reads up to the first page that reaches the end |
| Dispatch.WithEmail | src/tasks/sendNotificationFromCollection.ts:80 | a subscriber is kept exactly when it has an email address, and never more of them than given |
| Dispatch.WithEmailAppend | src/tasks/sendNotificationFromCollection.ts:80 | the filter keeps order and multiplicity: filtering two stretches is filtering each in turn, and one subscriber stays exactly when it has an address |
| Dispatch.WithPhone | src/tasks/sendNotificationFromCollection.ts:85 | a subscriber is kept exactly when it has a phone number, and never more of them than given |
| Dispatch.WithPhoneAppend | src/tasks/sendNotificationFromCollection.ts:85 | the filter keeps order and multiplicity: filtering two stretches is filtering each in turn, and one subscriber stays exactly when it has a number |
| Dispatch.EmailRecipients | src/tasks/sendNotificationFromCollection.ts:78-81 | a record is a recipient exactly when it is an active email subscriber with an address |
| Dispatch.EmailRecipientsAppend | src/tasks/sendNotificationFromCollection.ts:78-81 | the email recipients are listed in store order, each once per record: those of two stretches of the store are those of the first followed by those of the second, and a single record is listed exactly when it is an active email subscriber with an address |
| Dispatch.SmsRecipients | src/tasks/sendNotificationFromCollection.ts:83-86 | a record is a recipient exactly when it is an active SMS subscriber with a number |
| Dispatch.SmsRecipientsAppend | src/tasks/sendNotificationFromCollection.ts:83-86 | the SMS recipients are listed in store order, each once per record: those of two stretches of the store are those of the first followed by those of the second, and a single record is listed exactly when it is an active SMS subscriber with a number |
| Dispatch.UnsubscribeUrl | src/tasks/sendNotificationFromCollection.ts:98-100 | the link is `siteUrl/unsubscribe/token`, or `siteUrl/unsubscribe` without a token |
| Dispatch.UnsubscribeUrlCarriesToken | src/tasks/sendNotificationFromCollection.ts:98-100 | the subscriber's own token ends the link |
| Dispatch.ProcessedBody | src/tasks/sendNotificationFromCollection.ts:103 | a body without `{{siteUrl}}` is unchanged |
| Dispatch.PlaceholderIsBorderless | src/tasks/sendNotificationFromCollection.ts:103 | two occurrences of `{{siteUrl}}` can never overlap, so a left-to-right replacement sees each of them |
| Dispatch.ProcessedBodyFillsPlaceholders | src/tasks/sendNotificationFromCollection.ts:103 | a body made of parts without `{{siteUrl}}` joined by `{{siteUrl}}` gets the site URL at every placeholder and is otherwise unchanged |
| Dispatch.ProcessedBodyFillsOnePlaceholder | src/tasks/sendNotificationFromCollection.ts:103 | a body with one placeholder between texts that do not hold it gets the site URL there and is otherwise unchanged |
| Dispatch.EmailFor | src/tasks/sendNotificationFromCollection.ts:97-122 | each email goes to the subscriber's address, with the subject or `[site] Status Update`, the subscriber's own unsubscribe link, and HTML rendered from the processed body, the title fallback chain, the `View Status` call to action and the logo |
| Dispatch.SmsFor | src/tasks/sendNotificationFromCollection.ts:137-145 | each SMS goes to the subscriber's number with the object body built from site name, title, SMS body and item URL |
| Dispatch.EmailsFor | src/tasks/sendNotificationFromCollection.ts:97 | one email per recipient, in order |
| Dispatch.SmsesFor | src/tasks/sendNotificationFromCollection.ts:137 | one SMS per recipient, in order |
| Dispatch.FailureSummary | src/tasks/sendNotificationFromCollection.ts:127 | the line starts with the failed count (it reads back as that count) and the caption, followed by at most the first three errors joined by `, ` |
| Dispatch.EmailPhase | src/tasks/sendNotificationFromCollection.ts:93-130 | nothing happens unless email is included and someone has an address; without SMTP the only error is `SMTP not configured`; with SMTP the phase counts the accepted sends of the recipients' emails as `CountsSends` states |
| Dispatch.EmailDelivery | src/tasks/sendNotificationFromCollection.ts:97-128 | `sent` is the number of emails the transport accepted; there is one error line exactly when some email failed, with the failed count, ` email(s) failed: ` and the first three errors |
| Dispatch.EmailResults | src/tasks/sendNotificationFromCollection.ts:97-121 | one transport result per recipient |
| Dispatch.PhaseOfSends | src/tasks/sendNotificationFromCollection.ts:124-128 | from the per-message results of `n` sends: `sent` is the number accepted, and one error line, with the failed count, the caption and the first three errors, appears exactly when some send failed |
| Dispatch.EmailReachesEveryRecipient | src/tasks/sendNotificationFromCollection.ts:97-128 | with SMTP configured and every email accepted, every recipient counts as sent and no error is reported |
| Dispatch.SmsPhase | src/tasks/sendNotificationFromCollection.ts:133-153 | no SMS is ever counted as sent. Nothing happens unless SMS is included and someone has a number; without the dispatch task's Twilio settings the only error is `Twilio not configured`; otherwise the one error line counts every recipient as failed with the body error |
| Dispatch.SmsDelivery | src/tasks/sendNotificationFromCollection.ts:137-151 | with Twilio configured nothing is sent and the error line counts every recipient as failed with the body error |
| Dispatch.DispatchedSmsNeverDelivered | src/lib/sms.ts:58 | with Twilio configured and whatever the transport would do, every SMS the dispatch task builds fails with the `TypeError` of its object body: 0 sent, all failed |
| Dispatch.IntendedSmsFor | src/lib/sms.ts:111-118 | the intended SMS goes to the subscriber's phone with a string body: the notification's SMS text, unchanged when it has at most 320 characters and never longer than 320 |
| Dispatch.IntendedSmsesFor | src/tasks/sendNotificationFromCollection.ts:137-145 | one intended SMS per recipient, in order |
| Dispatch.IntendedSmsDelivery | src/tasks/sendNotificationFromCollection.ts:137-151 | with string bodies the phase counts the sends the transport accepted, as `PhaseOfSends` states |
| Dispatch.IntendedSmsReachesEveryRecipient | src/tasks/sendNotificationFromCollection.ts:137-151 | with string bodies, Twilio configured and every message accepted, every SMS recipient counts as sent and no error is reported |
| Dispatch.Outcome | src/tasks/sendNotificationFromCollection.ts:88-153 | the email sends never exceed the email recipients, no SMS is ever counted as sent, and there are at most two error lines |
| Dispatch.FinalUpdate | src/tasks/sendNotificationFromCollection.ts:156-176 | failed exactly when there were errors and nothing was delivered, else sent with the time; the count is the number delivered; every error is kept, joined by `; ` |
| Dispatch.ApplyUpdate | src/tasks/sendNotificationFromCollection.ts:178-182 | the update overwrites status and count, and send time and error message only when present; all other fields are kept |
| Dispatch.BuildUpdate | src/tasks/sendNotificationFromCollection.ts:165-176 | building the update step by step gives the final-status rule |
| Dispatch.SendEmailPart | src/tasks/sendNotificationFromCollection.ts:93-130 | the email block computes the email phase |
| Dispatch.DeliverEmails | src/tasks/sendNotificationFromCollection.ts:97-128 | the bulk email send computes the configured email phase |
| Dispatch.SendSmsPart | src/tasks/sendNotificationFromCollection.ts:133-153 | the SMS block computes the SMS phase |
| Dispatch.DeliverSms | src/tasks/sendNotificationFromCollection.ts:137-151 | the batched SMS send computes the configured SMS phase |
| Dispatch.SendNotificationFromCollection | src/tasks/sendNotificationFromCollection.ts:23-191 | the handler's output is the outcome of the two phases, and its update is the final-status rule applied to it |
| Dispatch.NoRecipientsIsSentWithZero | src/tasks/sendNotificationFromCollection.ts:156-176 | with nobody to reach, the notification is sent to 0 recipients with no error |
| Dispatch.EmailGateDoesNotStopSms | src/tasks/sendNotificationFromCollection.ts:93-176 | missing SMTP does not stop the SMS part: its error line follows `SMTP not configured`, nothing is sent, and the notification fails with both lines joined by `; ` |
| Dispatch.FailedWithTwoLines | src/tasks/sendNotificationFromCollection.ts:156-176 | two error lines and nothing delivered: the notification fails, with no send time, count 0 and both lines joined by `; ` |
| Dispatch.DeliveredRunIsNeverFailed | src/tasks/sendNotificationFromCollection.ts:156-172 | a run that delivered anything is sent with the time; a failed run has count 0 and an error message |
| Dispatch.SettingsGlobalStopsEveryRun | src/tasks/sendNotificationFromCollection.ts:93-134 | reading the SMTP and Twilio fields from the `settings` global, which lacks them: every run with email recipients reports `SMTP not configured`, every run with SMS recipients `Twilio not configured`, nothing is sent, and a run with anyone to reach ends failed |
| Dispatch.CleanRetryKeepsStaleError | src/tasks/sendNotificationFromCollection.ts:174-182 | a retry without errors is sent but keeps the earlier error message |
| SendRoute.Guard | src/app/api/notifications/send-from-collection/route.ts:15-63 | passes exactly an authenticated request naming an existing draft or failed notification; otherwise 401, 400 (missing id), 404, 400 (already sent) or 400 (in progress), in that order |
| SendRoute.ItemLink | src/app/api/notifications/send-from-collection/route.ts:65-92 | the related incident's `/i/` link and title, else the related maintenance's `/m/` link and title, else the site root and `Status Update`; without a short id the link stays the site root |
| SendRoute.IncidentWinsOverMaintenance | src/app/api/notifications/send-from-collection/route.ts:70-81 | with a related incident, the maintenance is never consulted |
| SendRoute.JobFor | src/app/api/notifications/send-from-collection/route.ts:102-113 | the queued input carries the notification's texts and the item link, with the channel defaulting to email |
| SendRoute.ResolveItem | src/app/api/notifications/send-from-collection/route.ts:66-92 | reassigning the defaults computes the item link |
| SendRoute.NotificationStore.Post | src/app/api/notifications/send-from-collection/route.ts:11-129 | a rejection changes nothing. Otherwise only that notification changes: scheduled, then merged with the dispatch task's update; the answer is the stored count and status |
| SendRoute.NotificationStore.Run | src/app/api/notifications/send-from-collection/route.ts:94-116 | the notification is marked scheduled and then gets the dispatch task's final update, which is sent or failed |
| SendRoute.RunLeavesNothingToEstimate | src/app/api/notifications/send-from-collection/route.ts:118-128 | after the dispatch task, reading the notification back returns the delivered count, not an estimate |
| SendRoute.SentNotificationIsNeverResent | src/app/api/notifications/send-from-collection/route.ts:50-55 | once the dispatch task marks a notification sent, every later request for it is refused as already sent |
| SendRoute.FailedNotificationMayBeRetried | src/app/api/notifications/send-from-collection/route.ts:57-63 | a failed notification passes the guard again |
| SubscribeRoute.EmailAvailabilityMatchesTransport | src/app/api/subscribe/route.ts:10-16 | `isEmailConfigured` (`IsEmailConfigured`) offers email exactly when it is enabled and the dispatch task's SMTP gate, applied to the email settings document, passes; the transporter can then be created. As written the gate reads the `settings` global instead (see Findings) |
| SubscribeRoute.SmsAvailabilityReachesTransport | src/app/api/subscribe/route.ts:18-25 | when `isSmsConfigured` (`IsSmsConfigured`) offers SMS, `sendSms` hands a string body to the transport and fails an object body with the `TypeError`; an enabled channel that is not offered fails with the sender or credentials error |
| SubscribeRoute.MessagingServiceOnlyPassesRouteButNotTask | src/app/api/subscribe/route.ts:18-25 | for every SMS settings document, with the dispatch task's Twilio gate applied to that document (as written it reads the `settings` global, see Findings): the route offers SMS while the gate refuses exactly when SMS is enabled with credentials and a messaging service SID but no from number; an enabled document that passes the gate is offered |
| SubscribeRoute.Availability | src/app/api/subscribe/route.ts:232-245 | the GET answer reports each channel's availability |
| SubscribeRoute.FirstField | src/app/api/subscribe/route.ts:34 | `split(',')[0]` is the comma-free prefix before the first comma |
| SubscribeRoute.GetClientIp | src/app/api/subscribe/route.ts:30-44 | the first forwarded address trimmed, else the real-IP header, else `unknown` |
| SubscribeRoute.FromAddressSince | src/app/api/subscribe/route.ts:58-68 | exactly the subscribers from the address created after the window start |
| SubscribeRoute.CheckRateLimit | src/app/api/subscribe/route.ts:50-78 | the count is that of the last hour's subscriptions from the address; allowed exactly below 5; reset one hour ahead |
| SubscribeRoute.NewSubscriptionCounts | src/app/api/subscribe/route.ts:58-68 | a subscription created now counts once more towards its address's window |
| SubscribeRoute.IntToString | src/app/api/subscribe/route.ts:97 | `String(n)` of an integer: its digits, with `-` when negative |
| SubscribeRoute.HeadersFor | src/app/api/subscribe/route.ts:88-100 | the 429 headers: retry after 3600 seconds, limit 5, remaining 0, reset at the reset time |
| SubscribeRoute.Rejection | src/app/api/subscribe/route.ts:80-203 | 429 over the limit, then 400 for an unknown type; in each channel 503 when it is unavailable, then 400 for a malformed contact, then 409 for a taken one; a request reaches `create` exactly when it passes every step |
| SubscribeRoute.DataFor | src/app/api/subscribe/route.ts:159-168 | the created data holds the type and its one contact, unverified, active, with the client address and no tokens |
| SubscribeRoute.Post | src/app/api/subscribe/route.ts:80-229 | a rejection leaves the table unchanged. An accepted request appends exactly the created record, or answers 500 and stores nothing |
| SubscribeRoute.RateLimitComesFirst | src/app/api/subscribe/route.ts:83-104 | an address over the limit gets 429 whatever the body says |
| SubscribeRoute.TypeIsCheckedBeforeSettings | src/app/api/subscribe/route.ts:106-120 | an unknown type is refused with 400 whatever the settings |
| SubscribeRoute.UnsubscribedContactIsStillTaken | src/app/api/subscribe/route.ts:138-156 | an inactive subscription with the same address still blocks a new one with 409 |
| SubscribeRoute.AcceptedRequestIsValidForTheCollection | src/app/api/subscribe/route.ts:158-168 | a request that passes the route also passes the collection's validators, and the record has the type, the contact, `verified` false, `active` true, the client address and a 32-character unsubscribe token |
| SubscribeRoute.FifthSubscriptionClosesTheWindow | src/app/api/subscribe/route.ts:50-78 | after the fifth subscription within an hour from one address, the next request from it is refused |
| UnsubscribeRoute.FindByToken | src/app/api/unsubscribe/route.ts:20-30 | the first record carrying the token, or -1 exactly when none does |
| UnsubscribeRoute.FirstMatchIsUnique | src/app/api/unsubscribe/route.ts:20-30 | the lookup finds the first record carrying the token, whichever it is |
| UnsubscribeRoute.Unsubscribe | src/app/api/unsubscribe/route.ts:5-58 | a missing token is 400 and an unknown one 404, and neither changes anything. Otherwise the token's record becomes inactive, with `Successfully unsubscribed` or `Already unsubscribed` |
| UnsubscribeRoute.Post | src/app/api/unsubscribe/route.ts:5-58 | the route on the subscriber table gives that answer and that table |
| UnsubscribeRoute.UnsubscribeIsIdempotent | src/app/api/unsubscribe/route.ts:39-53 | a second request changes nothing and answers `Already unsubscribed` |
| UnsubscribeRoute.OnlyTheTokensRecordChanges | src/app/api/unsubscribe/route.ts:47-53 | no other record changes, and only `active` changes at all |
| UnsubscribeRoute.UnsubscribedTokenIsInactive | src/app/api/unsubscribe/route.ts:20-53 | with unique tokens, after success no record carrying the token is active |
| Incidents.IncidentStatusOf | src/collections/Incidents.ts:71-77 | the newest update's status, and `investigating` without updates or without a status |
| Incidents.NewestUpdateDecidesStatus | src/collections/Incidents.ts:71-77 | appending an update makes its status the incident's; resolved exactly when that update is |
| Incidents.LatestResolution | src/collections/Incidents.ts:79-89 | a time exactly when some update is a resolution with a time, and then that of the newest such update |
| Incidents.GetIncidentResolvedAt | src/collections/Incidents.ts:80-89 | the backward scan returns the newest resolution time |
| Incidents.SyncedResolvedAt | src/collections/Incidents.ts:217-222 | `resolvedAt` is set exactly when the synced status is resolved, to the newest update's time or now |
| Incidents.ResolvedAtRulesAgreeOnResolvedNewest | src/collections/Incidents.ts:80-89 | when the newest update is a timed resolution, both rules give its time |
| Incidents.ResolvedAtRulesDifferAfterReopening | src/collections/Incidents.ts:211-222 | after a reopening update the sync clears `resolvedAt` while the helper still finds the earlier resolution |
| Incidents.IncidentData.BeforeChange | src/collections/Incidents.ts:202-226 | a create gets a fresh 8-character short id. With updates, status and `resolvedAt` follow the newest one (set iff resolved); without updates both are untouched |
| Incidents.InitialDeferred | src/collections/Incidents.ts:246-259 | the initial draft is for update 0, with its message, the title or `Incident`, and its label or `Investigating` |
| Incidents.UpdateDeferred | src/collections/Incidents.ts:270-283 | a later draft is for its index, with its message and its label or `Update` |
| Incidents.NewUpdateDrafts | src/collections/Incidents.ts:269-290 | exactly one draft for each update at or after the previous count whose message is non-empty, in ascending index order |
| Incidents.AfterChange | src/collections/Incidents.ts:229-293 | no drafts when the context flag is set; on create with updates only the initial draft; otherwise the drafts of the new updates with a message |
| Incidents.TruncateForSms | src/collections/Incidents.ts:34-36 | a message of at most 150 characters is kept; a longer one becomes its first 147 characters and `...`, 150 in all |
| Incidents.StatusLabelsAreDistinct | src/collections/Incidents.ts:235-240 | each status has its own label, and none is the `Update` fallback |
| Incidents.SmsBodyFor | src/collections/Incidents.ts:43-47 | the SMS body opens with the new-incident or update marker and ends with the field separator and the permalink |
| Incidents.EmailBodyFor | src/collections/Incidents.ts:44-48 | the email body opens with the announcement for a new incident and with `Status: ` otherwise, and ends with `View full details: ` and the permalink |
| Incidents.DraftFor | src/collections/Incidents.ts:51-63 | each draft is for both channels and status draft, with subject `[Label] Title` and title `[New Incident] Title` or the subject |
| Incidents.SmsBodyCarriesTruncatedMessage | src/collections/Incidents.ts:34-47 | the SMS body holds the message in full up to 150 characters, and otherwise its first 147 and `...` |
| Incidents.DraftBodiesLinkToIncident | src/collections/Incidents.ts:43-48 | both bodies carry the `{{siteUrl}}` placeholder of the incident permalink |
| Incidents.DraftEmailLinksToIncidentPage | src/collections/Incidents.ts:44-48 | for a label, message and short id without `{{siteUrl}}`, the filled email body is the head followed by `siteUrl/i/shortId` |
| Incidents.EmailHeadHasNoPlaceholder | src/collections/Incidents.ts:44-48 | the email head holds `{{siteUrl}}` only if the label or the message does |
| Incidents.LinkPathHasNoPlaceholder | src/collections/Incidents.ts:44-48 | `/i/` and a short id without `{{siteUrl}}` hold none |
| Incidents.CreateYieldsOneInitialDraft | src/collections/Incidents.ts:246-265 | the draft of a new incident is for update 0 of that incident, titled `[New Incident] ` and the title (or `Incident`) |

## Left out

- Concurrency. `Promise.all` is an ordered map, and `setImmediate` drafts are the ordered list `afterChange` schedules. Interleavings with other requests are not modelled. Neither is the race between the send route's status check and its write of `scheduled`, which is a read-then-write without compare-and-set.
- The 100 ms `setTimeout` between SMS batches is counted as a pause and not timed.
- I/O is not modelled: the Payload local API, nodemailer, Twilio, the HTTP layer and the JSON bodies. The store is a sequence or map, each transport a function, and the request a datatype of the fields read.
- The catch-all 500 answers of the subscribe GET, the unsubscribe route, the send route and the dashboard route are not modelled. They come from store failures; the count route's 500 is modelled.
- A failure inside `createIncidentNotificationDeferred` is not modelled. The draft is created, or the error is only logged.
- `process.env` (`NODE_ENV`, `NEXT_PUBLIC_SERVER_URL`), the clock and the random source are parameters.
- Dispatch.SendNotificationFromCollection: takes the SMTP and Twilio configuration from the email and SMS settings documents, the corrected reading. As written it reads them from the `settings` global, which has no such fields since the settings split; `Dispatch.SettingsGlobalStopsEveryRun` states what that does.
- Debug and console logging are not modelled as output. The debug argument of `sendSms` is modelled only for the `TypeError` its `body.substring` raises on an object body.
- The inline style sheet of the email template and the indentation of its markup are not modelled. The template is modelled by its variable parts and their fixed markup, including the leading newline, the doctype and the two `<meta>` tags.
- Incidents.IncidentData.BeforeChange: does not model `data = data || {}` for a missing `data` object.
- `findByID` on an unknown id is modelled as "not found", the case the route's checks expect. The framework would throw instead, which ends in the 500 answer.
- Slugs.ToLower: lowercases ASCII letters only. The `toLowerCase` in the source also maps other Unicode letters.
- SubscribeRoute.CheckRateLimit: the window is exactly 3,600,000 ms. `setHours` on a local time can differ across a daylight-saving change.
- The SMS body the dispatch task sends is the object it passes to `formatSmsMessage` (`Sms.FormatSmsBody`), kept opaque. It never reaches Twilio: `sendSms` fails on it first.
- Dispatch.IntendedSmsFor: the corrected SMS body is the notification's SMS text formatted by `formatSmsMessage`. Composing the site name, title and URL into it, as the object's fields suggest, is not modelled.
- The message templates and length fields of the SMS settings, and any `{{name}}` interpolation other than `{{siteUrl}}`, are not modelled. No core code reads them.
- `cn` in src/lib/utils.ts joins CSS class names; it is not modelled.
- Dispatch.ProcessedBody: inserts the site URL literally. The source passes it as the replacement string of `String.prototype.replace`, which reads `$$`, `$&`, `` $` `` and `$'` in it as patterns; for a server URL containing `$` the source's body differs, and `ProcessedBodyFillsPlaceholders` and `ProcessedBodyFillsOnePlaceholder` describe the model's literal insertion only.
- Sms.FormatSmsMessage: counts the body's length in Unicode scalar values. JavaScript's `.length` and `substring` count UTF-16 code units, so text with characters outside the Basic Multilingual Plane is truncated earlier by the source than by the model.
- Incidents.TruncateForSms: counts the message's length in Unicode scalar values, not in UTF-16 code units as `.length` and `substring` do; the same difference as above.

## Findings

| source | as written | input that shows it | evidently intended | confidence | as-written member | corrected member |
|---|---|---|---|---|---|---|
| src/lib/sms.ts:58 | the dispatch task (src/tasks/sendNotificationFromCollection.ts:137-150) passes an object as the SMS body; `sendSms` evaluates `messageOptions.body.substring(0, 50)` for its debug line, which throws, and the catch reports every SMS as failed | any dispatch with SMS included, Twilio configured and one subscriber with a phone number: `smsSent` is 0 and the error line counts that SMS as failed | a string body, formatted by `formatSmsMessage`, that reaches Twilio | not executed | Dispatch.DispatchedSmsNeverDelivered | Dispatch.IntendedSmsReachesEveryRecipient |
| src/tasks/sendNotificationFromCollection.ts:94 | the dispatch task gates (lines 94 and 134) on `settings.smtpHost`, `settings.smtpFromAddress` and `settings.twilio*`, read from the general `settings` global (line 36), which has had none of those fields since the email and SMS settings were split into their own globals | any run with SMTP and Twilio configured in their settings globals and at least one recipient: it reports `SMTP not configured` or `Twilio not configured`, sends nothing and ends `failed` | the gates read the email and SMS settings globals | not executed | Dispatch.SettingsGlobalStopsEveryRun | Dispatch.EmailReachesEveryRecipient |
