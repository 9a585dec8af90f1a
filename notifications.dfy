/** The `notifications` collection (src/collections/Notifications.ts): the
    document, its channel and status options, and the `afterRead` hook that
    replaces the stored recipient count of an unsent notification by an
    estimate taken from the subscriber table. */
module Notifications {
  import opened Wrappers
  import opened Subscribers

  /** `notificationChannelOptions`. */
  datatype Channel = Email | Sms | Both

  /** `notificationStatusOptions`. */
  datatype NotificationStatus = Draft | Scheduled | Sent | Failed

  /** The field defaults `channel: 'both'` and `status: 'draft'`. */
  const DefaultChannel: Channel := Both
  const DefaultStatus: NotificationStatus := Draft

  /** One notification document. Related items are ids; an empty string
      stands for an absent text field; `sentAt` is a time in milliseconds. */
  datatype Notification = Notification(
    id: nat,
    title: string,
    relatedIncident: Option<nat>,
    relatedMaintenance: Option<nat>,
    updateIndex: Option<int>,
    channel: Option<Channel>,
    status: NotificationStatus,
    subject: string,
    emailBody: string,
    smsBody: string,
    recipientCount: Option<int>,
    errorMessage: string,
    sentAt: Option<int>)

  /** `channel === 'email' || channel === 'both'`. */
  predicate IncludesEmail(channel: Channel) {
    channel == Email || channel == Both
  }

  /** `channel === 'sms' || channel === 'both'`. */
  predicate IncludesSms(channel: Channel) {
    channel == Sms || channel == Both
  }

  /** Whether a channel reaches subscribers of a given type. */
  predicate Reaches(channel: Channel, kind: SubscriptionType) {
    if kind == EmailType then IncludesEmail(channel) else IncludesSms(channel)
  }

  /** The subscribers a channel would reach, in one pass over the table: the
      active ones whose type the channel includes. */
  function Recipients(records: seq<Subscriber>, channel: Channel): (r: seq<Subscriber>)
    ensures forall s :: s in r <==> s in records && s.active && Reaches(channel, s.kind)
  {
    if records == [] then []
    else
      var rest := Recipients(records[1..], channel);
      if records[0].active && Reaches(channel, records[0].kind) then [records[0]] + rest else rest
  }

  /** The estimate the hook and the count route compute: one filtered count
      per included type, added up. */
  function EstimatedRecipients(channel: Channel, records: seq<Subscriber>): nat {
    (if IncludesEmail(channel) then CountActive(records, EmailType) else 0)
    + (if IncludesSms(channel) then CountActive(records, SmsType) else 0)
  }

  /** Adding the per-type counts counts each reachable subscriber exactly
      once. */
  lemma {:induction false} EstimateCountsRecipients(channel: Channel, records: seq<Subscriber>)
    ensures EstimatedRecipients(channel, records) == |Recipients(records, channel)|
  {
    if records != [] {
      EstimateCountsRecipients(channel, records[1..]);
    }
  }

  /** The `afterRead` hook. A draft or scheduled document gets the estimate
      for its channel (a missing channel counts as `both`) and is otherwise
      copied; a sent or failed document, or one whose count fails, is
      returned as it is. */
  function AfterRead(doc: Notification, records: seq<Subscriber>, countSucceeds: bool): (r: Notification)
    ensures (doc.status == Draft || doc.status == Scheduled) && countSucceeds ==>
      r == doc.(recipientCount := Some(|Recipients(records, doc.channel.GetOr(Both))|))
    ensures doc.status == Sent || doc.status == Failed || !countSucceeds ==> r == doc
  {
    if doc.status == Draft || doc.status == Scheduled then
      if countSucceeds then
        var channel := doc.channel.GetOr(Both);
        EstimateCountsRecipients(channel, records);
        doc.(recipientCount := Some(EstimatedRecipients(channel, records)))
      else doc
    else doc
  }

  /** Reading a document never changes anything but its recipient count. */
  lemma AfterReadOnlyTouchesCount(doc: Notification, records: seq<Subscriber>, countSucceeds: bool)
    ensures AfterRead(doc, records, countSucceeds).(recipientCount := doc.recipientCount) == doc
  {
  }
}
