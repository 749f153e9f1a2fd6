/**
 Where the calendar meets the outbox: the trips a tick's sweep is started with, and the outbox
 keys its tasks will use.
 */
module DueTrips {
  import opened Wrappers
  import opened Calendar
  import opened OutboxTable
  import opened Outbox
  import opened Verdicts
  import opened OutboxInvariant
  import opened OutboxTheorems
  import opened OutboxSweep

  /** The row a task for this alert would insert: the alert and its departure's date. */
  function KeyOf(alert: TripAlert, now: int): Key {
    Key(alert.id, DateOf(NextDeparture(alert, now)))
  }

  /** The keys of the due alerts. */
  function DueKeys(alerts: seq<TripAlert>, now: int, leadMinutes: int): seq<Key> {
    if alerts == [] then []
    else
      var n := |alerts| - 1;
      DueKeys(alerts[..n], now, leadMinutes)
      + if IsDue(alerts[n], now, leadMinutes) then [KeyOf(alerts[n], now)] else []
  }

  ghost predicate DistinctIds(alerts: seq<TripAlert>) {
    forall i, j | 0 <= i < j < |alerts| :: alerts[i].id != alerts[j].id
  }

  lemma {:induction false} DueKeyMembers(alerts: seq<TripAlert>, now: int, leadMinutes: int)
    ensures forall key :: key in DueKeys(alerts, now, leadMinutes)
                     <==> exists a :: a in alerts && IsDue(a, now, leadMinutes) && key == KeyOf(a, now)
    decreases |alerts|
  {
    if alerts != [] {
      hide IsDue, KeyOf;
      var n := |alerts| - 1;
      assert alerts == alerts[..n] + [alerts[n]];
      DueKeyMembers(alerts[..n], now, leadMinutes);
    }
  }

  /**
   The sweep works on exactly the departures that lie in the lead window: there is a task for a
   trip and a day if and only if the trip departs on that day inside the window.
   */
  lemma DueKeysAreDepartures(alerts: seq<TripAlert>, now: int, leadMinutes: int, key: Key)
    requires 0 <= leadMinutes < 1440
    ensures key in DueKeys(alerts, now, leadMinutes)
       <==> exists a, t :: a in alerts && now <= t <= now + leadMinutes * 60_000_000
                           && IsDeparture(a, t) && key == Key(a.id, t / 86_400_000_000)
  {
    DueKeyMembers(alerts, now, leadMinutes);
    hide IsDeparture, IsDue;
    if key in DueKeys(alerts, now, leadMinutes) {
      var a :| a in alerts && IsDue(a, now, leadMinutes) && key == KeyOf(a, now);
      NextDepartureIsTheDeparture(a, now, leadMinutes);
    }
    if a, t :|
         && a in alerts && now <= t <= now + leadMinutes * 60_000_000
         && IsDeparture(a, t) && key == Key(a.id, t / 86_400_000_000)
    {
      DueIsDepartsWithin(a, now, leadMinutes);
      NextDepartureIsTheDeparture(a, now, leadMinutes);
    }
  }

  ghost predicate DistinctAlerts(keys: seq<Key>) {
    forall i, j | 0 <= i < j < |keys| :: keys[i].alert != keys[j].alert
  }

  /** The last alert's key is new. */
  lemma LastKeyIsNew(alerts: seq<TripAlert>, now: int, leadMinutes: int)
    requires DistinctIds(alerts) && alerts != []
    ensures var n := |alerts| - 1;
            forall key | key in DueKeys(alerts[..n], now, leadMinutes) :: key.alert != alerts[n].id
  {
    var n := |alerts| - 1;
    DueKeyMembers(alerts[..n], now, leadMinutes);
    hide IsDue, DueKeys;
    forall key | key in DueKeys(alerts[..n], now, leadMinutes)
      ensures key.alert != alerts[n].id
    {
      var a :| a in alerts[..n] && key == KeyOf(a, now);
      var j :| 0 <= j < n && alerts[j] == a;
    }
  }

  lemma {:induction false} DueKeysAreDistinct(alerts: seq<TripAlert>, now: int, leadMinutes: int)
    requires DistinctIds(alerts)
    ensures DistinctAlerts(DueKeys(alerts, now, leadMinutes))
    decreases |alerts|
  {
    if alerts != [] {
      hide IsDue;
      var n := |alerts| - 1;
      var before := DueKeys(alerts[..n], now, leadMinutes);
      DueKeysAreDistinct(alerts[..n], now, leadMinutes);
      LastKeyIsNew(alerts, now, leadMinutes);
      assert forall i | 0 <= i < |before| :: before[i] in before;
    }
  }

  /** What the query selects is a selection the tick's process can take, of different alerts. */
  lemma SelectionFitsTheTick(s: State, w: nat, alerts: seq<TripAlert>, now: int, leadMinutes: int)
    requires DistinctIds(alerts)
    requires w in s.workers && s.workers[w].phase.SelectingDue? && s.workers[w].today == now / 86_400_000_000
    ensures ActEnabled(s, w, SelectDue(DueKeys(alerts, now, leadMinutes)))
    ensures DistinctAlerts(DueKeys(alerts, now, leadMinutes))
  {
    DueKeysAreDistinct(alerts, now, leadMinutes);
    DueKeyMembers(alerts, now, leadMinutes);
    var keys := DueKeys(alerts, now, leadMinutes);
    hide IsDue, DueKeys;
    forall i | 0 <= i < |keys|
      ensures s.workers[w].today <= keys[i].date <= s.workers[w].today + 1
    {
      assert keys[i] in keys;
      var a :| a in alerts && keys[i] == KeyOf(a, now);
      NextDepartureDate(a, now);
    }
  }

  /**
   Rain on a departure in the lead window is put on record. When a tick that selected the due alerts
   has returned, every departure in the window of its lead has a finished task for its trip and day,
   with a verdict; if the verdict was rain, a committed row has that trip and day, unless a
   statement or commit of that very task failed.
   */
  lemma DueRainIsRecorded(events: seq<Event>, s: State, w: nat, alerts: seq<TripAlert>, now: int, leadMinutes: int,
      alert: TripAlert, t: int) returns (i: nat)
    requires After(events, s) && w in s.workers && s.workers[w].phase.Returned?
    requires 0 <= leadMinutes < 1440 && Act(w, SelectDue(DueKeys(alerts, now, leadMinutes))) in events
    requires alert in alerts && now <= t <= now + leadMinutes * 60_000_000 && IsDeparture(alert, t)
    ensures i < |s.workers[w].tasks|
    ensures var task := s.workers[w].tasks[i];
            && task.key == Key(alert.id, t / 86_400_000_000) && task.pc.Finished?
            && Act(w, Evaluate(i, task.verdict)) in events
            && (task.verdict == Some(Rain) ==> KeyTaken(s.db.rows, task.key) || HasFailed(events, w, i))
  {
    var keys := DueKeys(alerts, now, leadMinutes);
    var key := Key(alert.id, t / 86_400_000_000);
    hide *;
    DueKeysAreDepartures(alerts, now, leadMinutes, key);
    EverySelectedAlertIsProcessed(events, s, w, keys);
    i :| i < |keys| && keys[i] == key;
    RainIsRecordedOrFailed(events, s, w, i);
  }

  /** And a tick works on nothing else: each of its tasks is about a departure in the window. */
  lemma TasksAreDueDepartures(events: seq<Event>, s: State, w: nat, alerts: seq<TripAlert>, now: int,
      leadMinutes: int, i: nat)
    requires After(events, s) && w in s.workers && s.workers[w].phase.Returned? && i < |s.workers[w].tasks|
    requires 0 <= leadMinutes < 1440 && Act(w, SelectDue(DueKeys(alerts, now, leadMinutes))) in events
    ensures exists a, t :: a in alerts && now <= t <= now + leadMinutes * 60_000_000 && IsDeparture(a, t)
              && s.workers[w].tasks[i].key == Key(a.id, t / 86_400_000_000)
  {
    var keys := DueKeys(alerts, now, leadMinutes);
    hide *;
    EverySelectedAlertIsProcessed(events, s, w, keys);
    DueKeysAreDepartures(alerts, now, leadMinutes, keys[i]);
  }
}
