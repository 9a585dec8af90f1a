/** `GET /api/dashboard-stats` (src/app/api/dashboard-stats/route.ts): the
    six counters of the admin dashboard, with the active incidents derived
    from each incident's newest update. */
module DashboardStats {
  import opened Wrappers
  import opened Subscribers
  import opened Notifications
  import Incidents

  /** A maintenance's stored `status`. */
  datatype MaintenanceStatus = Upcoming | InProgress | Completed | Cancelled

  /** The `or` filter of the maintenance count. */
  predicate IsUpcoming(s: MaintenanceStatus) {
    s == Upcoming || s == InProgress
  }

  /** The incidents whose derived status is not resolved, in store order
      (`filter(...)`); each incident is given by its `updates`. */
  function ActiveIncidents(incidents: seq<seq<Incidents.IncidentUpdate>>): (r: seq<seq<Incidents.IncidentUpdate>>)
    ensures |r| <= |incidents|
    ensures forall u :: u in r <==> u in incidents && Incidents.IncidentStatusOf(u) != Incidents.Resolved
  {
    if incidents == [] then []
    else
      var rest := ActiveIncidents(incidents[..|incidents| - 1]);
      var last := incidents[|incidents| - 1];
      assert incidents == incidents[..|incidents| - 1] + [last];
      if Incidents.IncidentStatusOf(last) != Incidents.Resolved then rest + [last] else rest
  }

  /** One more incident adds one to the count exactly when it is not
      resolved; an incident without updates is investigating, so it always
      counts. */
  lemma ActiveCountOfAppend(incidents: seq<seq<Incidents.IncidentUpdate>>, updates: seq<Incidents.IncidentUpdate>)
    ensures |ActiveIncidents(incidents + [updates])|
      == |ActiveIncidents(incidents)| + (if Incidents.IncidentStatusOf(updates) == Incidents.Resolved then 0 else 1)
    ensures updates == [] ==> |ActiveIncidents(incidents + [updates])| == |ActiveIncidents(incidents)| + 1
  {
    assert (incidents + [updates])[..|incidents|] == incidents;
  }

  /** Only the newest update decides: resolving an incident with a new
      update takes it out of the count. */
  lemma ResolvingUpdateLeavesTheCount(incidents: seq<seq<Incidents.IncidentUpdate>>, i: nat, u: Incidents.IncidentUpdate)
    requires i < |incidents| && u.status == Some(Incidents.Resolved)
    ensures incidents[i] + [u] !in ActiveIncidents(incidents[i := incidents[i] + [u]])
  {
    Incidents.NewestUpdateDecidesStatus(incidents[i], u);
  }

  /** The number of notifications with the given status. */
  function CountWithStatus(notifications: seq<Notification>, status: NotificationStatus): (n: nat)
    ensures n <= |notifications|
    ensures n == 0 <==> forall k :: 0 <= k < |notifications| ==> notifications[k].status != status
  {
    if notifications == [] then 0
    else
      var rest := CountWithStatus(notifications[1..], status);
      assert forall k :: 1 <= k < |notifications| ==> notifications[k] == notifications[1..][k - 1];
      (if notifications[0].status == status then 1 else 0) + rest
  }

  /** The status of every notification, in order. */
  function Statuses(notifications: seq<Notification>): (r: seq<NotificationStatus>)
    ensures |r| == |notifications|
    ensures forall k :: 0 <= k < |r| ==> r[k] == notifications[k].status
  {
    seq(|notifications|, k requires 0 <= k < |notifications| => notifications[k].status)
  }

  /** The counter is the number of times the status occurs among the
      notifications' statuses. */
  lemma {:induction false} CountWithStatusIsMultiplicity(notifications: seq<Notification>, status: NotificationStatus)
    ensures CountWithStatus(notifications, status) == multiset(Statuses(notifications))[status]
    decreases |notifications|
  {
    if notifications != [] {
      CountWithStatusIsMultiplicity(notifications[1..], status);
      assert Statuses(notifications) == [notifications[0].status] + Statuses(notifications[1..]);
    }
  }

  /** The drafts and the scheduled ones are disjoint, so together they are
      at most the whole collection. */
  lemma {:induction false} PendingAndScheduledFit(notifications: seq<Notification>)
    ensures CountWithStatus(notifications, Draft) + CountWithStatus(notifications, Scheduled) <= |notifications|
  {
    if notifications != [] {
      PendingAndScheduledFit(notifications[1..]);
    }
  }

  /** The number of upcoming or in-progress maintenances. */
  function CountUpcoming(maintenances: seq<MaintenanceStatus>): (n: nat)
    ensures n <= |maintenances|
    ensures n == |maintenances| <==> forall k :: 0 <= k < |maintenances| ==> IsUpcoming(maintenances[k])
  {
    if maintenances == [] then 0
    else
      var rest := CountUpcoming(maintenances[1..]);
      assert forall k :: 1 <= k < |maintenances| ==> maintenances[k] == maintenances[1..][k - 1];
      (if IsUpcoming(maintenances[0]) then 1 else 0) + rest
  }

  /** The counter is the number of upcoming plus the number of in-progress
      maintenances. */
  lemma {:induction false} CountUpcomingIsMultiplicity(maintenances: seq<MaintenanceStatus>)
    ensures CountUpcoming(maintenances) == multiset(maintenances)[Upcoming] + multiset(maintenances)[InProgress]
    decreases |maintenances|
  {
    if maintenances != [] {
      CountUpcomingIsMultiplicity(maintenances[1..]);
      assert maintenances == [maintenances[0]] + maintenances[1..];
    }
  }

  /** The derived status of every incident, in order. */
  function IncidentStatuses(incidents: seq<seq<Incidents.IncidentUpdate>>): (r: seq<Incidents.IncidentStatus>)
    ensures |r| == |incidents|
    ensures forall k :: 0 <= k < |r| ==> r[k] == Incidents.IncidentStatusOf(incidents[k])
  {
    seq(|incidents|, k requires 0 <= k < |incidents| => Incidents.IncidentStatusOf(incidents[k]))
  }

  /** The active count is every incident except the resolved ones. */
  lemma {:induction false} ActiveCountIsAllButResolved(incidents: seq<seq<Incidents.IncidentUpdate>>)
    ensures |ActiveIncidents(incidents)| == |incidents| - multiset(IncidentStatuses(incidents))[Incidents.Resolved]
    decreases |incidents|
  {
    if incidents != [] {
      var init, last := incidents[..|incidents| - 1], incidents[|incidents| - 1];
      ActiveCountIsAllButResolved(init);
      assert incidents == init + [last];
      ActiveCountOfAppend(init, last);
      IncidentStatusesOfAppend(init, last);
    }
  }

  lemma IncidentStatusesOfAppend(init: seq<seq<Incidents.IncidentUpdate>>, last: seq<Incidents.IncidentUpdate>)
    ensures IncidentStatuses(init + [last]) == IncidentStatuses(init) + [Incidents.IncidentStatusOf(last)]
  {
  }

  /** The route's answer body. */
  datatype Stats = Stats(
    pendingNotifications: nat,
    scheduledNotifications: nat,
    emailSubscribers: nat,
    smsSubscribers: nat,
    activeIncidents: nat,
    upcomingMaintenances: nat)

  /** `GET` on the four collections. */
  function DashboardStats(notifications: seq<Notification>, records: seq<Subscriber>,
                          incidents: seq<seq<Incidents.IncidentUpdate>>, maintenances: seq<MaintenanceStatus>): (r: Stats)
    ensures r.pendingNotifications == multiset(Statuses(notifications))[Draft]
    ensures r.scheduledNotifications == multiset(Statuses(notifications))[Scheduled]
    ensures r.pendingNotifications + r.scheduledNotifications <= |notifications|
    ensures r.emailSubscribers + r.smsSubscribers <= |records|
    ensures r.emailSubscribers == |Recipients(records, Email)| && r.smsSubscribers == |Recipients(records, Sms)|
    ensures r.activeIncidents == |incidents| - multiset(IncidentStatuses(incidents))[Incidents.Resolved]
    ensures r.upcomingMaintenances == multiset(maintenances)[Upcoming] + multiset(maintenances)[InProgress]
  {
    CountWithStatusIsMultiplicity(notifications, Draft);
    CountWithStatusIsMultiplicity(notifications, Scheduled);
    ActiveCountIsAllButResolved(incidents);
    CountUpcomingIsMultiplicity(maintenances);
    PendingAndScheduledFit(notifications);
    EstimateCountsRecipients(Email, records);
    EstimateCountsRecipients(Sms, records);
    ActiveOfTypeSplit(records);
    Stats(
      CountWithStatus(notifications, Draft),
      CountWithStatus(notifications, Scheduled),
      CountActive(records, EmailType),
      CountActive(records, SmsType),
      |ActiveIncidents(incidents)|,
      CountUpcoming(maintenances))
  }

  /** Email and SMS subscribers are disjoint parts of the table. */
  lemma {:induction false} ActiveOfTypeSplit(records: seq<Subscriber>)
    ensures CountActive(records, EmailType) + CountActive(records, SmsType) <= |records|
  {
    if records != [] {
      ActiveOfTypeSplit(records[1..]);
    }
  }
}
