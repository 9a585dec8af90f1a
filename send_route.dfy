/** `POST /api/notifications/send-from-collection`
    (src/app/api/notifications/send-from-collection/route.ts): the guard
    that lets only a draft or failed notification be sent, the permalink of
    its related item, and the run of the dispatch task whose result is
    merged into the stored notification. */
module SendRoute {
  import opened Wrappers
  import opened Notifications
  import Site
  import Dispatch

  /** The fields of a related incident or maintenance the route reads; an
      empty `shortId` is absent. */
  datatype RelatedItem = RelatedItem(title: string, shortId: string)

  /** The route's answer: a rejection with its status code and error, or
      the success body with the recipient count and the new status. */
  datatype SendResponse =
    | SendRejected(code: nat, error: string)
    | SendAccepted(totalRecipients: int, status: NotificationStatus)

  const AuthenticationRequired: string := "Authentication required"
  const MissingNotificationId: string := "Missing notificationId"
  const NotificationNotFound: string := "Notification not found"
  const AlreadySent: string := "Notification has already been sent"
  const BeingProcessed: string := "Notification is currently being processed"

  /** The early-return chain in its order: authentication, a present id, a
      known notification, not already sent, and not in progress. The id `0`
      stands for a missing (falsy) `notificationId`. */
  function Guard(authenticated: bool, notificationId: nat, docs: map<nat, Notification>): (r: Option<SendResponse>)
    ensures r.None? <==> (authenticated && notificationId != 0 && notificationId in docs
                          && docs[notificationId].status in {Draft, Failed})
    ensures r.Some? ==> r.value.SendRejected? && r.value.code in {400, 401, 404}
    ensures !authenticated ==> r == Some(SendRejected(401, AuthenticationRequired))
    ensures authenticated && notificationId == 0 ==> r == Some(SendRejected(400, MissingNotificationId))
    ensures authenticated && notificationId != 0 && notificationId !in docs ==> r == Some(SendRejected(404, NotificationNotFound))
    ensures authenticated && notificationId in docs && notificationId != 0 && docs[notificationId].status == Sent ==>
      r == Some(SendRejected(400, AlreadySent))
    ensures authenticated && notificationId in docs && notificationId != 0 && docs[notificationId].status == Scheduled ==>
      r == Some(SendRejected(400, BeingProcessed))
  {
    if !authenticated then Some(SendRejected(401, AuthenticationRequired))
    else if notificationId == 0 then Some(SendRejected(400, MissingNotificationId))
    else if notificationId !in docs then Some(SendRejected(404, NotificationNotFound))
    else if docs[notificationId].status == Sent then Some(SendRejected(400, AlreadySent))
    else if docs[notificationId].status != Draft && docs[notificationId].status != Failed then Some(SendRejected(400, BeingProcessed))
    else None
  }

  /** The link and title the notification's call to action uses: those of
      the related incident (`/i/`) if there is one, else of the related
      maintenance (`/m/`), else the site root and `Status Update`. The title
      is the item's whenever the item is found; the link needs its short id.
      Related ids are looked up in the given maps; an unknown id is treated
      like a missing item. */
  function ItemLink(n: Notification, incidents: map<nat, RelatedItem>, maintenances: map<nat, RelatedItem>, siteUrl: string): (r: (string, string))
    ensures n.relatedIncident.Some? && n.relatedIncident.value in incidents ==>
      var item := incidents[n.relatedIncident.value];
      r == (if item.shortId != "" then siteUrl + "/i/" + item.shortId else siteUrl, item.title)
    ensures n.relatedIncident.None? && n.relatedMaintenance.Some? && n.relatedMaintenance.value in maintenances ==>
      var item := maintenances[n.relatedMaintenance.value];
      r == (if item.shortId != "" then siteUrl + "/m/" + item.shortId else siteUrl, item.title)
    ensures n.relatedIncident.Some? && n.relatedIncident.value !in incidents ==> r == (siteUrl, Dispatch.DefaultTitle)
    ensures n.relatedIncident.None? && (n.relatedMaintenance.None? || n.relatedMaintenance.value !in maintenances) ==>
      r == (siteUrl, Dispatch.DefaultTitle)
  {
    var url, title := siteUrl, Dispatch.DefaultTitle;
    if n.relatedIncident.Some? then
      if n.relatedIncident.value in incidents then
        var item := incidents[n.relatedIncident.value];
        (if item.shortId != "" then siteUrl + "/i/" + item.shortId else url, item.title)
      else (url, title)
    else if n.relatedMaintenance.Some? then
      if n.relatedMaintenance.value in maintenances then
        var item := maintenances[n.relatedMaintenance.value];
        (if item.shortId != "" then siteUrl + "/m/" + item.shortId else url, item.title)
      else (url, title)
    else (url, title)
  }

  /** A related incident takes precedence: the maintenance relation is then
      never consulted. */
  lemma IncidentWinsOverMaintenance(n: Notification, incidents: map<nat, RelatedItem>,
                                    m1: map<nat, RelatedItem>, m2: map<nat, RelatedItem>, siteUrl: string)
    requires n.relatedIncident.Some?
    ensures ItemLink(n, incidents, m1, siteUrl) == ItemLink(n, incidents, m2, siteUrl)
  {
  }

  /** The dispatch task input the route queues: the channel defaults to email. */
  function JobFor(notificationId: nat, n: Notification, itemUrl: string, itemTitle: string): (j: Dispatch.JobInput)
    ensures j.channel == n.channel.GetOr(Email)
    ensures j.notificationId == notificationId && j.itemUrl == itemUrl && j.itemTitle == itemTitle
    ensures j.subject == n.subject && j.emailBody == n.emailBody && j.smsBody == n.smsBody
  {
    Dispatch.JobInput(notificationId, n.channel.GetOr(Email), n.subject, n.emailBody, n.smsBody, itemTitle, itemUrl)
  }

  /** The notifications collection as the route sees it. */
  class NotificationStore {
    var docs: map<nat, Notification>

    constructor (docs: map<nat, Notification>)
      ensures this.docs == docs
    {
      this.docs := docs;
    }

    /** The route. A rejected request leaves the store untouched. An
        accepted one writes `status: scheduled`, runs the dispatch task
        (whose subscribers, settings, transports and clock are `env`), and
        merges the dispatch task's update into the notification; the answer reports
        the stored recipient count and status as read back. */
    method Post(authenticated: bool, notificationId: nat,
                incidents: map<nat, RelatedItem>, maintenances: map<nat, RelatedItem>, env: Dispatch.TaskEnv)
      returns (response: SendResponse)
      modifies this
      ensures Guard(authenticated, notificationId, old(docs)).Some? ==>
        response == Guard(authenticated, notificationId, old(docs)).value && docs == old(docs)
      ensures Guard(authenticated, notificationId, old(docs)).None? ==>
        var n := old(docs)[notificationId];
        var link := ItemLink(n, incidents, maintenances, Site.SiteUrl(env.serverUrl));
        var o := Dispatch.Outcome(JobFor(notificationId, n, link.0, link.1), env);
        var u := Dispatch.FinalUpdate(o.emailsSent, o.smsSent, o.errors, env.now);
        && docs == old(docs)[notificationId := Dispatch.ApplyUpdate(n.(status := Scheduled), u)]
        && response == SendAccepted(u.recipientCount, u.status)
    {
      var rejection := Guard(authenticated, notificationId, docs);
      if rejection.Some? {
        return rejection.value;
      }
      var notification := docs[notificationId];
      var itemUrl, itemTitle := ResolveItem(notification, incidents, maintenances, Site.SiteUrl(env.serverUrl));
      var job := JobFor(notificationId, notification, itemUrl, itemTitle);
      var update := Run(notificationId, job, env);
      var updated := AfterRead(docs[notificationId], env.records, true);
      RunLeavesNothingToEstimate(notification.(status := Scheduled), env.records, update);
      response := SendAccepted(updated.recipientCount.GetOr(0), updated.status);
    }

    /** The accepted path: mark the notification scheduled, run the dispatch task,
        and merge its update into the stored notification. */
    method Run(notificationId: nat, job: Dispatch.JobInput, env: Dispatch.TaskEnv)
      returns (update: Dispatch.NotificationUpdate)
      requires notificationId in docs
      modifies this
      ensures var o := Dispatch.Outcome(job, env);
        update == Dispatch.FinalUpdate(o.emailsSent, o.smsSent, o.errors, env.now)
      ensures update.status in {Sent, Failed}
      ensures docs == old(docs)[notificationId := Dispatch.ApplyUpdate(old(docs)[notificationId].(status := Scheduled), update)]
    {
      var scheduled := docs[notificationId].(status := Scheduled);
      docs := docs[notificationId := scheduled];
      var _, u := Dispatch.SendNotificationFromCollection(job, env);
      update := u;
      OverwriteTwice(old(docs), notificationId, scheduled, Dispatch.ApplyUpdate(scheduled, update));
      docs := docs[notificationId := Dispatch.ApplyUpdate(scheduled, update)];
    }
  }

  /** A second write to the same key replaces the first. */
  lemma OverwriteTwice<K, V>(m: map<K, V>, k: K, first: V, second: V)
    ensures m[k := first][k := second] == m[k := second]
  {
  }

  /** The route's resolution of the call to action's link and title, by
      reassigning the defaults. */
  method ResolveItem(notification: Notification, incidents: map<nat, RelatedItem>, maintenances: map<nat, RelatedItem>, siteUrl: string)
    returns (itemUrl: string, itemTitle: string)
    ensures (itemUrl, itemTitle) == ItemLink(notification, incidents, maintenances, siteUrl)
  {
    itemUrl := siteUrl;
    itemTitle := Dispatch.DefaultTitle;
    if notification.relatedIncident.Some? {
      if notification.relatedIncident.value in incidents {
        var incident := incidents[notification.relatedIncident.value];
        itemTitle := incident.title;
        if incident.shortId != "" {
          itemUrl := siteUrl + "/i/" + incident.shortId;
        }
      }
    } else if notification.relatedMaintenance.Some? {
      if notification.relatedMaintenance.value in maintenances {
        var maintenance := maintenances[notification.relatedMaintenance.value];
        itemTitle := maintenance.title;
        if maintenance.shortId != "" {
          itemUrl := siteUrl + "/m/" + maintenance.shortId;
        }
      }
    }
  }

  /** After the dispatch task's update the notification is sent or failed, so the
      read back through `afterRead` reports the stored count unchanged. */
  lemma RunLeavesNothingToEstimate(doc: Notification, records: seq<Subscribers.Subscriber>, u: Dispatch.NotificationUpdate)
    requires u.status in {Sent, Failed}
    ensures AfterRead(Dispatch.ApplyUpdate(doc, u), records, true) == Dispatch.ApplyUpdate(doc, u)
    ensures Dispatch.ApplyUpdate(doc, u).recipientCount == Some(u.recipientCount)
  {
  }

  /** Only a draft or a failed notification is ever dispatched, and one
      that the dispatch task marked sent is refused from then on. */
  lemma SentNotificationIsNeverResent(authenticated: bool, notificationId: nat, docs: map<nat, Notification>,
                                      doc: Notification, u: Dispatch.NotificationUpdate)
    requires authenticated && notificationId != 0 && u.status == Sent
    ensures Guard(authenticated, notificationId, docs[notificationId := Dispatch.ApplyUpdate(doc, u)])
      == Some(SendRejected(400, AlreadySent))
  {
  }

  /** A failed notification may be retried. */
  lemma FailedNotificationMayBeRetried(notificationId: nat, docs: map<nat, Notification>)
    requires notificationId != 0 && notificationId in docs && docs[notificationId].status == Failed
    ensures Guard(true, notificationId, docs).None?
  {
  }
}
