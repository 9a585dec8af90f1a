/** The `incidents` collection (src/collections/Incidents.ts): the status an
    incident derives from its ordered `updates`, the two ways its resolution
    time is found, the `beforeChange` sync, the `afterChange` choice of which
    updates produce notification drafts, and the draft those produce. */
module Incidents {
  import opened Wrappers
  import opened PayloadHooks
  import ShortId
  import Text
  import Dispatch
  import opened Notifications

  /** `incidentStatusOptions`. */
  datatype IncidentStatus = Investigating | Identified | Monitoring | Resolved

  /** One entry of `updates`, in creation order. An absent `status` or
      `createdAt` is `None`; times are in milliseconds. */
  datatype IncidentUpdate = IncidentUpdate(status: Option<IncidentStatus>, message: string, createdAt: Option<int>)

  /** `getIncidentStatus`: the status of the newest (last) update, and
      `investigating` when there is none or it carries no status. A missing
      `updates` list is the empty sequence. */
  function IncidentStatusOf(updates: seq<IncidentUpdate>): (s: IncidentStatus)
    ensures updates == [] ==> s == Investigating
    ensures updates != [] && updates[|updates| - 1].status.Some? ==> s == updates[|updates| - 1].status.value
    ensures updates != [] && updates[|updates| - 1].status.None? ==> s == Investigating
  {
    if updates == [] then Investigating else updates[|updates| - 1].status.GetOr(Investigating)
  }

  /** Appending an update makes its status (or `investigating`) the
      incident's status, whatever came before. */
  lemma NewestUpdateDecidesStatus(updates: seq<IncidentUpdate>, u: IncidentUpdate)
    ensures IncidentStatusOf(updates + [u]) == u.status.GetOr(Investigating)
    ensures u.status == Some(Resolved) <==> IncidentStatusOf(updates + [u]) == Resolved
  {
  }

  /** An update that counts as a resolution for `getIncidentResolvedAt`. */
  predicate IsResolution(u: IncidentUpdate) {
    u.status == Some(Resolved) && u.createdAt.Some?
  }

  /** The `createdAt` of the newest resolution among `updates`, if any. */
  function LatestResolution(updates: seq<IncidentUpdate>): (r: Option<int>)
    ensures r.Some? <==> exists i :: 0 <= i < |updates| && IsResolution(updates[i])
    ensures r.Some? ==> exists i :: (0 <= i < |updates| && IsResolution(updates[i]) && updates[i].createdAt == r
                                     && forall j :: i < j < |updates| ==> !IsResolution(updates[j]))
  {
    if updates == [] then None
    else
      var n := |updates| - 1;
      var r := if IsResolution(updates[n]) then updates[n].createdAt else LatestResolution(updates[..n]);
      LatestResolutionStep(updates, r);
      r
  }

  /** The step of `LatestResolution`'s contract from the prefix without the
      newest update to the whole list. */
  lemma LatestResolutionStep(updates: seq<IncidentUpdate>, r: Option<int>)
    requires updates != []
    requires IsResolution(updates[|updates| - 1]) ==> r == updates[|updates| - 1].createdAt
    requires !IsResolution(updates[|updates| - 1]) ==> r == LatestResolution(updates[..|updates| - 1])
    requires var p := updates[..|updates| - 1]; var q := LatestResolution(p);
      && (q.Some? <==> exists i :: 0 <= i < |p| && IsResolution(p[i]))
      && (q.Some? ==> exists i :: (0 <= i < |p| && IsResolution(p[i]) && p[i].createdAt == q
                                    && forall j :: i < j < |p| ==> !IsResolution(p[j])))
    ensures r.Some? <==> exists i :: 0 <= i < |updates| && IsResolution(updates[i])
    ensures r.Some? ==> exists i :: (0 <= i < |updates| && IsResolution(updates[i]) && updates[i].createdAt == r
                                     && forall j :: i < j < |updates| ==> !IsResolution(updates[j]))
  {
    var n := |updates| - 1;
    var p := updates[..n];
    if IsResolution(updates[n]) {
      assert IsResolution(updates[n]) && updates[n].createdAt == r;
    } else {
      assert forall i :: 0 <= i < n ==> p[i] == updates[i];
      if r.Some? {
        var i :| 0 <= i < |p| && IsResolution(p[i]) && p[i].createdAt == r && forall j :: i < j < |p| ==> !IsResolution(p[j]);
        assert IsResolution(updates[i]) && updates[i].createdAt == r;
        assert forall j :: i < j < |updates| ==> !IsResolution(updates[j]);
      } else {
        assert forall i :: 0 <= i < |updates| ==> !IsResolution(updates[i]);
      }
    }
  }

  /** `getIncidentResolvedAt`: scans from the newest update backwards and
      returns the `createdAt` of the first resolution it meets. */
  method GetIncidentResolvedAt(updates: seq<IncidentUpdate>) returns (r: Option<int>)
    ensures r == LatestResolution(updates)
  {
    if |updates| == 0 {
      return None;
    }
    var i: int := |updates| - 1;
    while i >= 0
      invariant -1 <= i < |updates|
      invariant LatestResolution(updates) == LatestResolution(updates[..i + 1])
    {
      LatestResolutionOfPrefix(updates, i);
      if IsResolution(updates[i]) {
        return updates[i].createdAt;
      }
      i := i - 1;
    }
    assert updates[..0] == [];
    return None;
  }

  /** One step of the backward scan: the prefix ending at `i` is decided by
      update `i` if it is a resolution, and by the shorter prefix
      otherwise. */
  lemma LatestResolutionOfPrefix(updates: seq<IncidentUpdate>, i: nat)
    requires i < |updates|
    ensures LatestResolution(updates[..i + 1])
      == if IsResolution(updates[i]) then updates[i].createdAt else LatestResolution(updates[..i])
  {
    assert updates[..i + 1][..i] == updates[..i];
  }

  /** The `resolvedAt` that `beforeChange` writes when `updates` is not
      empty: the newest update's `createdAt` (or `now`) if that update is a
      resolution, and `null` otherwise. It is set exactly when the synced
      status is `resolved`. */
  function SyncedResolvedAt(updates: seq<IncidentUpdate>, now: int): (r: Option<int>)
    requires updates != []
    ensures r.Some? <==> IncidentStatusOf(updates) == Resolved
    ensures r.Some? ==> r.value == updates[|updates| - 1].createdAt.GetOr(now)
  {
    var latest := updates[|updates| - 1];
    if latest.status == Some(Resolved) then Some(latest.createdAt.GetOr(now)) else None
  }

  /** When the newest update is a resolution with a time, both rules give
      that time. */
  lemma ResolvedAtRulesAgreeOnResolvedNewest(updates: seq<IncidentUpdate>, now: int)
    requires updates != [] && IsResolution(updates[|updates| - 1])
    ensures SyncedResolvedAt(updates, now) == LatestResolution(updates) == updates[|updates| - 1].createdAt
  {
    var n := |updates| - 1;
    var r := LatestResolution(updates);
    var i :| 0 <= i < |updates| && IsResolution(updates[i]) && updates[i].createdAt == r
      && forall j :: i < j < |updates| ==> !IsResolution(updates[j]);
    assert i == n;
  }

  /** After a resolved incident is reopened by a newer non-resolved update,
      `beforeChange` clears `resolvedAt` while `getIncidentResolvedAt` still
      reports the earlier resolution. */
  lemma ResolvedAtRulesDifferAfterReopening(updates: seq<IncidentUpdate>, now: int, k: nat)
    requires k < |updates| - 1 && IsResolution(updates[k])
    requires updates[|updates| - 1].status != Some(Resolved)
    ensures SyncedResolvedAt(updates, now).None?
    ensures LatestResolution(updates).Some?
  {
  }

  /** The incident as `beforeChange` sees its `data`. */
  class IncidentData {
    var title: string
    var shortId: string
    var status: IncidentStatus
    var resolvedAt: Option<int>
    var updates: seq<IncidentUpdate>

    constructor (title: string, shortId: string, status: IncidentStatus, resolvedAt: Option<int>, updates: seq<IncidentUpdate>)
      ensures this.title == title && this.shortId == shortId && this.status == status
      ensures this.resolvedAt == resolvedAt && this.updates == updates
    {
      this.title := title;
      this.shortId := shortId;
      this.status := status;
      this.resolvedAt := resolvedAt;
      this.updates := updates;
    }

    /** The `beforeChange` hook. A create always gets a fresh eight-character
        `shortId` (drawn from `randomValues`); a non-empty `updates` list
        sets `status` from its newest entry and `resolvedAt` by the newest
        entry alone; an empty one leaves both as they were. */
    method BeforeChange(op: Operation, randomValues: seq<ShortId.Byte>, now: int)
      requires |randomValues| == ShortId.DefaultLength
      modifies this
      ensures title == old(title) && updates == old(updates)
      ensures op == Create ==> shortId == ShortId.ShortIdOf(randomValues) && |shortId| == 8
      ensures op == Update ==> shortId == old(shortId)
      ensures updates != [] ==> status == IncidentStatusOf(updates) && resolvedAt == SyncedResolvedAt(updates, now)
      ensures updates != [] ==> (resolvedAt.Some? <==> status == Resolved)
      ensures updates == [] ==> status == old(status) && resolvedAt == old(resolvedAt)
    {
      if op == Create {
        shortId := ShortId.GenerateShortId(ShortId.DefaultLength, randomValues);
      }
      if |updates| > 0 {
        var latest := updates[|updates| - 1];
        status := latest.status.GetOr(Investigating);
        if latest.status == Some(Resolved) {
          resolvedAt := Some(latest.createdAt.GetOr(now));
        } else {
          resolvedAt := None;
        }
      }
    }
  }

  /** The committed incident as `afterChange` sees it. An empty `title` or
      `shortId` is absent. */
  datatype IncidentDoc = IncidentDoc(id: nat, title: string, shortId: string, updates: seq<IncidentUpdate>)

  /** `DeferredNotification`: what one scheduled draft is built from. */
  datatype DeferredNotification = DeferredNotification(
    docId: nat,
    title: string,
    shortId: string,
    statusLabel: string,
    isInitial: bool,
    updateIndex: nat,
    message: string)

  /** `statusLabels`. */
  function StatusLabel(s: IncidentStatus): string {
    match s
    case Investigating => "Investigating"
    case Identified => "Identified"
    case Monitoring => "Monitoring"
    case Resolved => "Resolved"
  }

  /** Each status has its own label, and none of them is the `Update`
      fallback of a later update without a status, so a draft's subject
      tells the statuses apart. */
  lemma StatusLabelsAreDistinct(a: IncidentStatus, b: IncidentStatus)
    ensures StatusLabel(a) == StatusLabel(b) <==> a == b
    ensures StatusLabel(a) != "Update"
  {
  }

  const DefaultIncidentTitle: string := "Incident"

  /** The draft for the first update of a new incident; a status-less first
      update is labelled `Investigating`. */
  function InitialDeferred(doc: IncidentDoc): (d: DeferredNotification)
    requires doc.updates != []
    ensures d.isInitial && d.updateIndex == 0 && d.message == doc.updates[0].message && d.docId == doc.id
    ensures d.title == (if doc.title != "" then doc.title else DefaultIncidentTitle) && d.shortId == doc.shortId
    ensures d.statusLabel == match doc.updates[0].status case Some(s) => StatusLabel(s) case None => "Investigating"
  {
    var first := doc.updates[0];
    DeferredNotification(
      doc.id, Dispatch.Or(doc.title, DefaultIncidentTitle), doc.shortId,
      match first.status case Some(s) => StatusLabel(s) case None => "Investigating",
      true, 0, first.message)
  }

  /** The draft for a later update at `index`; a status-less update is
      labelled `Update`. */
  function UpdateDeferred(doc: IncidentDoc, index: nat): (d: DeferredNotification)
    requires index < |doc.updates|
    ensures !d.isInitial && d.updateIndex == index && d.message == doc.updates[index].message && d.docId == doc.id
    ensures d.title == (if doc.title != "" then doc.title else DefaultIncidentTitle) && d.shortId == doc.shortId
    ensures d.statusLabel == match doc.updates[index].status case Some(s) => StatusLabel(s) case None => "Update"
  {
    var u := doc.updates[index];
    DeferredNotification(
      doc.id, Dispatch.Or(doc.title, DefaultIncidentTitle), doc.shortId,
      match u.status case Some(s) => StatusLabel(s) case None => "Update",
      false, index, u.message)
  }

  /** The drafts the per-index loop schedules among the first `n` updates:
      one for each index at or after `previousCount` whose message is not
      empty, in ascending index order, and no others. */
  function NewUpdateDrafts(doc: IncidentDoc, previousCount: nat, n: nat): (r: seq<DeferredNotification>)
    requires n <= |doc.updates|
    ensures |r| <= n
    ensures forall t :: t in r ==>
      previousCount <= t.updateIndex < n && doc.updates[t.updateIndex].message != "" && t == UpdateDeferred(doc, t.updateIndex)
    ensures forall k :: previousCount <= k < n && doc.updates[k].message != "" ==> UpdateDeferred(doc, k) in r
    ensures forall a, b :: 0 <= a < b < |r| ==> r[a].updateIndex < r[b].updateIndex
    decreases n
  {
    if n == 0 then []
    else
      var prefix := NewUpdateDrafts(doc, previousCount, n - 1);
      if n - 1 >= previousCount && doc.updates[n - 1].message != "" then
        AppendKeepsIndexOrder(prefix, UpdateDeferred(doc, n - 1));
        prefix + [UpdateDeferred(doc, n - 1)]
      else prefix
  }

  /** Appending a draft for a later index than every draft so far keeps the
      drafts in ascending index order. */
  lemma AppendKeepsIndexOrder(prefix: seq<DeferredNotification>, d: DeferredNotification)
    requires forall t :: t in prefix ==> t.updateIndex < d.updateIndex
    requires forall a, b :: 0 <= a < b < |prefix| ==> prefix[a].updateIndex < prefix[b].updateIndex
    ensures var r := prefix + [d]; forall a, b :: 0 <= a < b < |r| ==> r[a].updateIndex < r[b].updateIndex
  {
    var r := prefix + [d];
    forall a, b | 0 <= a < b < |r| ensures r[a].updateIndex < r[b].updateIndex {
      assert r[a] == prefix[a] && prefix[a] in prefix;
    }
  }

  /** The `afterChange` hook: the drafts it schedules, in order. With the
      context flag set it schedules none; on a create with updates, exactly
      the initial draft and no per-update ones; otherwise one per new,
      non-empty update. A missing previous document has no updates. */
  method AfterChange(op: Operation, skipNotificationCreation: bool, doc: IncidentDoc, previousUpdates: seq<IncidentUpdate>)
    returns (scheduled: seq<DeferredNotification>)
    ensures skipNotificationCreation ==> scheduled == []
    ensures !skipNotificationCreation && op == Create && doc.updates != [] ==> scheduled == [InitialDeferred(doc)]
    ensures !skipNotificationCreation && !(op == Create && doc.updates != []) ==>
      scheduled == NewUpdateDrafts(doc, |previousUpdates|, |doc.updates|)
  {
    if skipNotificationCreation {
      return [];
    }
    if op == Create && |doc.updates| > 0 {
      return [InitialDeferred(doc)];
    }
    scheduled := [];
    var index := 0;
    while index < |doc.updates|
      invariant 0 <= index <= |doc.updates|
      invariant scheduled == NewUpdateDrafts(doc, |previousUpdates|, index)
    {
      var isNewUpdate := index >= |previousUpdates|;
      if isNewUpdate && doc.updates[index].message != "" {
        scheduled := scheduled + [UpdateDeferred(doc, index)];
      }
      index := index + 1;
    }
  }

  /** The fields of the draft notification `createIncidentNotificationDeferred`
      creates. */
  datatype NotificationDraft = NotificationDraft(
    title: string,
    relatedIncident: nat,
    updateIndex: nat,
    channel: Channel,
    status: NotificationStatus,
    subject: string,
    emailBody: string,
    smsBody: string)

  const SmsMessageLimit: nat := 150
  const SmsMessageCut: nat := 147
  const Ellipsis: string := "..."

  /** The update message as it goes into the SMS body: over 150 characters
      it becomes its first 147 and `...`, exactly 150 in all. */
  function TruncateForSms(message: string): (r: string)
    ensures |message| <= SmsMessageLimit ==> r == message
    ensures |message| > SmsMessageLimit ==> r == message[..SmsMessageCut] + Ellipsis && |r| == SmsMessageLimit
    ensures |r| <= SmsMessageLimit
  {
    if |message| > SmsMessageLimit then message[..SmsMessageCut] + Ellipsis else message
  }

  const InitialSmsPrefix: string := "\U{1F6A8} INCIDENT: "
  const UpdateSmsPrefix: string := "\U{1F4E2} "
  const FieldSeparator: string := " | "
  const NewIncidentLead: string := "A new incident has been reported.\n\n"
  const StatusLead: string := "Status: "
  const ParagraphBreak: string := "\n\n"
  const DetailsLead: string := "View full details: "
  const NewIncidentTitlePrefix: string := "[New Incident] "

  /** The incident's permalink, with the site URL left as the placeholder
      the dispatch task fills in. */
  function IncidentLink(shortId: string): string {
    Dispatch.SiteUrlPlaceholder + "/i/" + shortId
  }

  /** `[Label] Title` */
  function LabelledTitle(statusLabel: string, title: string): string {
    "[" + statusLabel + "] " + title
  }

  /** The SMS body: the marker of a new incident or of an update, then the
      title, label, shortened message and permalink separated by ` | `. */
  function SmsBodyFor(d: DeferredNotification): (r: string)
    ensures (if d.isInitial then InitialSmsPrefix else UpdateSmsPrefix) <= r
    ensures EndsWith(r, FieldSeparator + IncidentLink(d.shortId))
  {
    var marker := if d.isInitial then InitialSmsPrefix else UpdateSmsPrefix;
    var fields := d.title + FieldSeparator + d.statusLabel + FieldSeparator + TruncateForSms(d.message);
    var tail := FieldSeparator + IncidentLink(d.shortId);
    ThreePieces(marker, fields, tail);
    marker + d.title + FieldSeparator + d.statusLabel + FieldSeparator + TruncateForSms(d.message)
    + FieldSeparator + IncidentLink(d.shortId)
  }

  predicate EndsWith(s: string, suffix: string) {
    |suffix| <= |s| && s[|s| - |suffix|..] == suffix
  }

  /** A text made of three pieces starts with the first and ends with the
      last. */
  lemma ThreePieces<T>(a: seq<T>, b: seq<T>, c: seq<T>)
    ensures a <= a + b + c && |c| <= |a + b + c| && (a + b + c)[|a + b + c| - |c|..] == c
  {
    assert (a + b + c)[|a + b + c| - |c|..] == c;
  }

  /** The email body up to the permalink; a new incident's body opens with
      an announcement line. */
  function EmailHead(d: DeferredNotification): string {
    (if d.isInitial then NewIncidentLead else "")
    + StatusLead + d.statusLabel + ParagraphBreak + d.message + ParagraphBreak + DetailsLead
  }

  /** The email body opens with the announcement for a new incident and
      with the status line otherwise, and ends with the details line and
      the permalink. */
  function EmailBodyFor(d: DeferredNotification): (r: string)
    ensures d.isInitial ==> NewIncidentLead <= r
    ensures !d.isInitial ==> StatusLead <= r
    ensures EndsWith(r, DetailsLead + IncidentLink(d.shortId))
  {
    var a := (if d.isInitial then NewIncidentLead else "") + StatusLead;
    var b := a + d.statusLabel;
    var c := b + ParagraphBreak;
    var e := c + d.message;
    var f := e + ParagraphBreak;
    PrefixOfLonger(a, b, ParagraphBreak);
    PrefixOfLonger(a, c, d.message);
    PrefixOfLonger(a, e, ParagraphBreak);
    PrefixOfLonger(a, f, DetailsLead);
    PrefixOfLonger(a, f + DetailsLead, IncidentLink(d.shortId));
    LastTwoPieces(f, DetailsLead, IncidentLink(d.shortId));
    EmailHead(d) + IncidentLink(d.shortId)
  }

  /** A prefix of a text is a prefix of any extension of it. */
  lemma PrefixOfLonger<T>(a: seq<T>, b: seq<T>, c: seq<T>)
    requires a <= b
    ensures a <= b + c
  {
    assert (b + c)[..|b|] == b;
  }

  /** A text made of three pieces ends with the last two. */
  lemma LastTwoPieces<T>(a: seq<T>, b: seq<T>, c: seq<T>)
    ensures |b + c| <= |a + b + c| && (a + b + c)[|a + b + c| - |b + c|..] == b + c
  {
    assert a + b + c == a + (b + c);
  }

  /** The draft built from one scheduled entry: channel `both`, status
      `draft`, subject `[Label] Title`, and title `[New Incident] Title` for
      the initial draft or the subject otherwise. */
  function DraftFor(d: DeferredNotification): (n: NotificationDraft)
    ensures n.channel == Both && n.status == Draft
    ensures n.relatedIncident == d.docId && n.updateIndex == d.updateIndex
    ensures n.subject == LabelledTitle(d.statusLabel, d.title)
    ensures d.isInitial ==> n.title == NewIncidentTitlePrefix + d.title
    ensures !d.isInitial ==> n.title == n.subject
    ensures n.smsBody == SmsBodyFor(d) && n.emailBody == EmailBodyFor(d)
  {
    NotificationDraft(
      if d.isInitial then NewIncidentTitlePrefix + d.title else LabelledTitle(d.statusLabel, d.title),
      d.docId, d.updateIndex, Both, Draft, LabelledTitle(d.statusLabel, d.title),
      EmailBodyFor(d), SmsBodyFor(d))
  }

  /** The SMS body carries the message in full when it has at most 150
      characters, and otherwise its first 147 characters followed by `...`. */
  lemma SmsBodyCarriesTruncatedMessage(d: DeferredNotification)
    ensures var prefix := (if d.isInitial then InitialSmsPrefix else UpdateSmsPrefix) + d.title + FieldSeparator + d.statusLabel + FieldSeparator;
      var tail := FieldSeparator + IncidentLink(d.shortId);
      && DraftFor(d).smsBody == prefix + TruncateForSms(d.message) + tail
      && (|d.message| <= SmsMessageLimit ==> Text.Occurs(d.message, DraftFor(d).smsBody))
      && (|d.message| > SmsMessageLimit ==> Text.Occurs(d.message[..SmsMessageCut] + Ellipsis, DraftFor(d).smsBody))
  {
    var prefix := (if d.isInitial then InitialSmsPrefix else UpdateSmsPrefix) + d.title + FieldSeparator + d.statusLabel + FieldSeparator;
    var tail := FieldSeparator + IncidentLink(d.shortId);
    assert DraftFor(d).smsBody == prefix + TruncateForSms(d.message) + tail;
    Text.OccursInConcat(prefix, TruncateForSms(d.message), tail);
  }

  /** Both bodies end with the incident's permalink, so the email body
      always holds the site URL placeholder the dispatch task replaces. */
  lemma DraftBodiesLinkToIncident(d: DeferredNotification)
    ensures Text.Occurs(Dispatch.SiteUrlPlaceholder, DraftFor(d).emailBody)
    ensures Text.Occurs(Dispatch.SiteUrlPlaceholder, DraftFor(d).smsBody)
  {
    LinkCarriesPlaceholder(EmailHead(d), d.shortId);
    var smsHead := (if d.isInitial then InitialSmsPrefix else UpdateSmsPrefix)
      + d.title + FieldSeparator + d.statusLabel + FieldSeparator + TruncateForSms(d.message) + FieldSeparator;
    LinkCarriesPlaceholder(smsHead, d.shortId);
  }

  /** The email head holds the placeholder only if the label or the message
      does: the fixed text holds no `{`, and each seam has a character on the
      fixed side that is not in the placeholder. */
  lemma EmailHeadHasNoPlaceholder(d: DeferredNotification)
    requires !Text.Occurs(Dispatch.SiteUrlPlaceholder, d.statusLabel)
    requires !Text.Occurs(Dispatch.SiteUrlPlaceholder, d.message)
    ensures !Text.Occurs(Dispatch.SiteUrlPlaceholder, EmailHead(d))
  {
    var ph := Dispatch.SiteUrlPlaceholder;
    var lead := if d.isInitial then NewIncidentLead else "";
    assert '{' !in lead && '{' !in StatusLead && '{' !in ParagraphBreak && '{' !in DetailsLead;
    Text.NoOccurrenceWithoutFirstChar(ph, lead);
    Text.NoOccurrenceWithoutFirstChar(ph, StatusLead);
    Text.NoOccurrenceWithoutFirstChar(ph, ParagraphBreak);
    Text.NoOccurrenceWithoutFirstChar(ph, DetailsLead);
    assert 'S' !in ph && ' ' !in ph && '\n' !in ph && 'V' !in ph;
    var a1 := lead + StatusLead;
    Text.NoOccurrenceInConcat(ph, lead, StatusLead);
    var a2 := a1 + d.statusLabel;
    Text.NoOccurrenceInConcat(ph, a1, d.statusLabel);
    var a3 := a2 + ParagraphBreak;
    Text.NoOccurrenceInConcat(ph, a2, ParagraphBreak);
    var a4 := a3 + d.message;
    Text.NoOccurrenceInConcat(ph, a3, d.message);
    var a5 := a4 + ParagraphBreak;
    Text.NoOccurrenceInConcat(ph, a4, ParagraphBreak);
    Text.NoOccurrenceInConcat(ph, a5, DetailsLead);
    assert EmailHead(d) == a5 + DetailsLead;
  }

  /** Once the dispatch task fills in the site URL, the email body of a
      draft links to `siteUrl/i/shortId`, provided the label, the message
      and the short id do not themselves hold `{{siteUrl}}`. */
  lemma DraftEmailLinksToIncidentPage(d: DeferredNotification, siteUrl: string)
    requires !Text.Occurs(Dispatch.SiteUrlPlaceholder, d.statusLabel)
    requires !Text.Occurs(Dispatch.SiteUrlPlaceholder, d.message)
    requires !Text.Occurs(Dispatch.SiteUrlPlaceholder, d.shortId)
    ensures Dispatch.ProcessedBody(DraftFor(d).emailBody, siteUrl) == EmailHead(d) + siteUrl + "/i/" + d.shortId
  {
    var head, tail := EmailHead(d), "/i/" + d.shortId;
    EmailHeadHasNoPlaceholder(d);
    LinkPathHasNoPlaceholder(d.shortId);
    assert DraftFor(d).emailBody == head + Dispatch.SiteUrlPlaceholder + tail;
    Dispatch.ProcessedBodyFillsOnePlaceholder(head, tail, siteUrl);
    assert head + siteUrl + tail == head + siteUrl + "/i/" + d.shortId;
  }

  /** The path after the placeholder in the permalink adds no placeholder. */
  lemma LinkPathHasNoPlaceholder(shortId: string)
    requires !Text.Occurs(Dispatch.SiteUrlPlaceholder, shortId)
    ensures !Text.Occurs(Dispatch.SiteUrlPlaceholder, "/i/" + shortId)
  {
    var ph := Dispatch.SiteUrlPlaceholder;
    assert '{' !in "/i/" && '/' !in ph;
    Text.NoOccurrenceWithoutFirstChar(ph, "/i/");
    Text.NoOccurrenceInConcat(ph, "/i/", shortId);
  }

  /** Whatever precedes the permalink, the placeholder is in the text. */
  lemma LinkCarriesPlaceholder(head: string, shortId: string)
    ensures Text.Occurs(Dispatch.SiteUrlPlaceholder, head + IncidentLink(shortId))
  {
    var ph := Dispatch.SiteUrlPlaceholder;
    Text.OccursInConcat(head, ph, "/i/" + shortId);
    assert head + ph + ("/i/" + shortId) == head + IncidentLink(shortId);
  }

  /** A new incident with updates yields exactly one draft, for update 0,
      titled `[New Incident] Title`. */
  lemma CreateYieldsOneInitialDraft(doc: IncidentDoc)
    requires doc.updates != []
    ensures var d := DraftFor(InitialDeferred(doc));
      && d.updateIndex == 0 && d.relatedIncident == doc.id
      && d.title == NewIncidentTitlePrefix + (if doc.title != "" then doc.title else DefaultIncidentTitle)
  {
  }
}
