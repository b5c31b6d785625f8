/** Session metrics: connection time kept by accumulation at transitions, and bounded sample windows. */
module Metrics {
  import opened Collections
  import opened Clock

  const SAMPLE_LIMIT: nat := 1000
  const OPERATION_LIMIT: nat := 10000

  datatype Operation = Operation(plugin: string, description: string, success: bool, retries: nat, timestamp: Instant)

  datatype Uptime = Uptime(
    isOnline: bool,
    lastOnline: Option<Instant>,
    lastOffline: Option<Instant>,
    totalUptime: real,
    totalDowntime: real,
    reconnectCount: nat,
    reconnects: seq<Instant>)

  const NEVER_ONLINE := Uptime(false, None, None, 0.0, 0.0, 0, [])

  function AfterOnline(u: Uptime, now: Instant): Uptime {
    if u.isOnline then u
    else u.(isOnline := true,
            lastOnline := Some(now),
            totalDowntime := u.totalDowntime + if u.lastOffline.Some? then now - u.lastOffline.value else 0.0,
            reconnectCount := u.reconnectCount + 1,
            reconnects := u.reconnects + [now])
  }

  function AfterOffline(u: Uptime, now: Instant): Uptime {
    if !u.isOnline then u
    else u.(isOnline := false,
            lastOffline := Some(now),
            totalUptime := u.totalUptime + if u.lastOnline.Some? then now - u.lastOnline.value else 0.0)
  }

  /** Reporting overwrites the total it reports on. */
  function AfterSnapshot(u: Uptime, now: Instant): Uptime {
    if u.isOnline then
      (if u.lastOnline.Some? then u.(totalUptime := now - u.lastOnline.value) else u)
    else if u.lastOffline.Some? then u.(totalDowntime := now - u.lastOffline.value)
    else u
  }

  class MetricsEngine {
    var isOnline: bool
    var lastOnline: Option<Instant>
    var lastOffline: Option<Instant>
    var totalUptime: real
    var totalDowntime: real
    var reconnectCount: nat
    var reconnects: seq<Instant>
    var latencies: seq<real>
    var packetLosses: seq<real>
    var operations: seq<Operation>
    var failedOps: nat
    var successOps: nat

    function View(): Uptime
      reads this
    {
      Uptime(isOnline, lastOnline, lastOffline, totalUptime, totalDowntime, reconnectCount, reconnects)
    }

    ghost predicate Bounded()
      reads this
    {
      |latencies| <= SAMPLE_LIMIT && |packetLosses| <= SAMPLE_LIMIT && |operations| <= OPERATION_LIMIT
    }

    constructor ()
      ensures View() == NEVER_ONLINE && Bounded()
      ensures latencies == [] && packetLosses == [] && operations == [] && failedOps == successOps == 0
    {
      isOnline, lastOnline, lastOffline := false, None, None;
      totalUptime, totalDowntime := 0.0, 0.0;
      reconnectCount, reconnects := 0, [];
      latencies, packetLosses, operations := [], [], [];
      failedOps, successOps := 0, 0;
    }

    method RecordOnline(now: Instant)
      modifies this`isOnline, this`reconnectCount, this`lastOnline, this`totalDowntime, this`reconnects
      ensures View() == AfterOnline(old(View()), now)
    {
      var wasOffline := !isOnline;
      isOnline := true;
      if wasOffline {
        reconnectCount := reconnectCount + 1;
        lastOnline := Some(now);
        if lastOffline.Some? {
          totalDowntime := totalDowntime + (now - lastOffline.value);
        }
        reconnects := reconnects + [now];
      }
    }

    method RecordOffline(now: Instant)
      modifies this`isOnline, this`lastOffline, this`totalUptime
      ensures View() == AfterOffline(old(View()), now)
    {
      var wasOnline := isOnline;
      isOnline := false;
      if wasOnline {
        lastOffline := Some(now);
        if lastOnline.Some? {
          totalUptime := totalUptime + (now - lastOnline.value);
        }
      }
    }

    method RecordConnectivity(latencyMs: real, lossPct: real)
      requires Bounded()
      modifies this`latencies, this`packetLosses
      ensures latencies == Suffix(old(latencies) + [latencyMs], 1000)
      ensures packetLosses == Suffix(old(packetLosses) + [lossPct], 1000)
      ensures Bounded()
    {
      latencies := latencies + [latencyMs];
      if |latencies| > SAMPLE_LIMIT {
        latencies := latencies[1..];
      }
      packetLosses := packetLosses + [lossPct];
      if |packetLosses| > SAMPLE_LIMIT {
        packetLosses := packetLosses[1..];
      }
    }

    method RecordOperation(plugin: string, description: string, success: bool, retries: nat, now: Instant)
      requires Bounded()
      modifies this`successOps, this`failedOps, this`operations
      ensures successOps == old(successOps) + if success then 1 else 0
      ensures failedOps == old(failedOps) + if success then 0 else 1
      ensures operations
              == Suffix(old(operations) + [Operation(plugin, description, success, retries, now)], 10000)
      ensures Bounded()
    {
      if success {
        successOps := successOps + 1;
      } else {
        failedOps := failedOps + 1;
      }
      operations := operations + [Operation(plugin, description, success, retries, now)];
      if |operations| > OPERATION_LIMIT {
        operations := operations[1..];
      }
    }

    /** The part of the snapshot that concerns connection time. */
    method Snapshot(now: Instant) returns (uptime: real, downtime: real)
      modifies this`totalUptime, this`totalDowntime
      ensures View() == AfterSnapshot(old(View()), now)
      ensures uptime == totalUptime && downtime == totalDowntime
    {
      if isOnline {
        if lastOnline.Some? {
          totalUptime := now - lastOnline.value;
        }
      } else if lastOffline.Some? {
        totalDowntime := now - lastOffline.value;
      }
      uptime, downtime := totalUptime, totalDowntime;
    }
  }

  // ---- Runs of reports and snapshots ----

  datatype Event =
    | Report(online: bool, now: Instant)
    | Snapshot(now: Instant)

  function Step(u: Uptime, e: Event): Uptime {
    match e
    case Report(online, now) => if online then AfterOnline(u, now) else AfterOffline(u, now)
    case Snapshot(now) => AfterSnapshot(u, now)
  }

  function At(es: seq<Event>, n: nat): Uptime
    requires n <= |es|
  {
    if n == 0 then NEVER_ONLINE else Step(At(es, n - 1), es[n - 1])
  }

  /** What the reports say about the connection; before the first online one it does not count as lost. */
  datatype Link = Unknown | Up | Down

  function LinkAfter(es: seq<Event>, n: nat): Link
    requires n <= |es|
  {
    if n == 0 then Unknown
    else match es[n - 1]
      case Report(online, _) =>
        if online then Up else if LinkAfter(es, n - 1).Unknown? then Unknown else Down
      case Snapshot(_) => LinkAfter(es, n - 1)
  }

  /** The time spent in `link` up to the last of the first `n` events. */
  function TimeIn(es: seq<Event>, link: Link, n: nat): real
    requires n <= |es|
  {
    if n <= 1 then 0.0
    else TimeIn(es, link, n - 1) + if LinkAfter(es, n - 1) == link then es[n - 1].now - es[n - 2].now else 0.0
  }

  /** The event at which the link got into the state it is in after `n` events. */
  function StretchStart(es: seq<Event>, n: nat): (start: nat)
    requires 0 < n <= |es|
    ensures start < n && LinkAfter(es, start + 1) == LinkAfter(es, n)
    ensures start == 0 || LinkAfter(es, start) != LinkAfter(es, n)
  {
    if n == 1 || LinkAfter(es, n - 1) != LinkAfter(es, n) then n - 1 else StretchStart(es, n - 1)
  }

  /** How long the link has been in its state, at the last of the first `n` events. */
  function Stretch(es: seq<Event>, n: nat): real
    requires 0 < n <= |es|
  {
    es[n - 1].now - es[StretchStart(es, n)].now
  }

  /** The time spent in `link` before the stretch that the last of the first `n` events belongs to. */
  function TimeBefore(es: seq<Event>, link: Link, n: nat): real
    requires 0 < n <= |es|
  {
    TimeIn(es, link, StretchStart(es, n) + 1)
  }

  /** The last of the first `n` events that is a snapshot taken in state `link`. */
  function LastSnapshot(es: seq<Event>, link: Link, n: nat): (last: Option<nat>)
    requires n <= |es|
    ensures last.Some? ==> last.value < n && es[last.value].Snapshot? && LinkAfter(es, last.value + 1) == link
    ensures forall k :: (if last.Some? then last.value + 1 else 0) <= k < n ==>
              !(es[k].Snapshot? && LinkAfter(es, k + 1) == link)
  {
    if n == 0 then None
    else if es[n - 1].Snapshot? && LinkAfter(es, n) == link then Some(n - 1)
    else LastSnapshot(es, link, n - 1)
  }

  /** How far the stored total for `link` is off: the last snapshot taken in that state has counted its own stretch
      once too often and has forgotten all stretches before. */
  function Drift(es: seq<Event>, link: Link, n: nat): real
    requires n <= |es|
  {
    match LastSnapshot(es, link, n)
    case None => 0.0
    case Some(k) => Stretch(es, k + 1) - TimeBefore(es, link, k + 1)
  }

  /** The times of the reports that turn offline into online. */
  function Reconnections(es: seq<Event>, n: nat): seq<Instant>
    requires n <= |es|
  {
    if n == 0 then []
    else Reconnections(es, n - 1) + if !LinkAfter(es, n - 1).Up? && LinkAfter(es, n).Up? then [es[n - 1].now] else []
  }

  /** Reports that turn online into offline. */
  function Losses(es: seq<Event>, n: nat): nat
    requires n <= |es|
  {
    if n == 0 then 0
    else Losses(es, n - 1) + if LinkAfter(es, n - 1).Up? && LinkAfter(es, n).Down? then 1 else 0
  }

  /** What the fields say about the running stretch. */
  predicate Tracks(u: Uptime, es: seq<Event>, n: nat)
    requires n <= |es|
  {
    match LinkAfter(es, n)
    case Unknown => !u.isOnline && u.lastOnline.None? && u.lastOffline.None?
    case Up => u.isOnline && n > 0 && u.lastOnline == Some(es[StretchStart(es, n)].now)
    case Down => !u.isOnline && n > 0 && u.lastOffline == Some(es[StretchStart(es, n)].now)
  }

  /** Reconnects are counted and listed alike, and lead the losses by one while online. */
  lemma {:induction false} FieldsTrackStretch(es: seq<Event>, n: nat)
    requires n <= |es|
    ensures Tracks(At(es, n), es, n)
    ensures At(es, n).lastOffline.None? ==> !LinkAfter(es, n).Down? && TimeIn(es, Down, n) == Drift(es, Down, n) == 0.0
    ensures LinkAfter(es, n).Unknown? ==> TimeIn(es, Up, n) == Drift(es, Up, n) == 0.0
    ensures At(es, n).reconnects == Reconnections(es, n)
    ensures At(es, n).reconnectCount == |At(es, n).reconnects| == Losses(es, n) + if LinkAfter(es, n).Up? then 1 else 0
  {
    if n > 0 {
      FieldsTrackStretch(es, n - 1);
    }
  }

  lemma {:induction false} StretchEndsTime(es: seq<Event>, n: nat)
    requires 0 < n <= |es|
    ensures TimeIn(es, LinkAfter(es, n), n) == TimeBefore(es, LinkAfter(es, n), n) + Stretch(es, n)
  {
    if n > 1 && LinkAfter(es, n - 1) == LinkAfter(es, n) {
      StretchEndsTime(es, n - 1);
    }
  }

  /** A stored total, with the running stretch added to it. */
  function Counted(es: seq<Event>, link: Link, n: nat): real
    requires n <= |es|
  {
    (if link.Up? then At(es, n).totalUptime else At(es, n).totalDowntime)
    + if n > 0 && LinkAfter(es, n) == link then Stretch(es, n) else 0.0
  }

  lemma {:induction false} ReportCountsTime(es: seq<Event>, link: Link, n: nat)
    requires 0 < n <= |es| && es[n - 1].Report? && !link.Unknown?
    requires Tracks(At(es, n - 1), es, n - 1)
    requires At(es, n - 1).lastOffline.None? ==> !LinkAfter(es, n - 1).Down?
    ensures Counted(es, link, n) - Counted(es, link, n - 1) == TimeIn(es, link, n) - TimeIn(es, link, n - 1)
  {
  }

  lemma {:induction false} SnapshotCountsStretch(es: seq<Event>, link: Link, n: nat)
    requires 0 < n <= |es| && es[n - 1].Snapshot? && !link.Unknown?
    requires Tracks(At(es, n - 1), es, n - 1)
    ensures Counted(es, link, n)
            == if LinkAfter(es, n) == link then 2.0 * Stretch(es, n) else Counted(es, link, n - 1)
  {
  }

  lemma {:induction false} CountedIsTimePlusDrift(es: seq<Event>, link: Link, n: nat)
    requires n <= |es| && !link.Unknown?
    ensures Counted(es, link, n) == TimeIn(es, link, n) + Drift(es, link, n)
  {
    if n > 0 {
      CountedIsTimePlusDrift(es, link, n - 1);
      FieldsTrackStretch(es, n - 1);
      StretchEndsTime(es, n);
      if es[n - 1].Snapshot? {
        SnapshotCountsStretch(es, link, n);
      } else {
        ReportCountsTime(es, link, n);
      }
    }
  }

  /** No snapshot was taken in state `link`, or the last one came exactly as long after its stretch had begun as all
      earlier stretches had lasted, so that its two mistakes cancel out. */
  predicate Undisturbed(es: seq<Event>, link: Link, n: nat)
    requires n <= |es|
  {
    match LastSnapshot(es, link, n)
    case None => true
    case Some(k) => Stretch(es, k + 1) == TimeBefore(es, link, k + 1)
  }

  /** In every run of reports and snapshots, a total together with the running stretch is the time really spent in
      its state exactly under that condition; without snapshots it always is. */
  lemma {:induction false} TotalsRightIff(es: seq<Event>, link: Link, n: nat)
    requires n <= |es| && !link.Unknown?
    ensures Counted(es, link, n) == TimeIn(es, link, n) <==> Undisturbed(es, link, n)
    ensures (forall k :: 0 <= k < n ==> es[k].Report?) ==> Undisturbed(es, link, n)
  {
    CountedIsTimePlusDrift(es, link, n);
  }

  /** The total a snapshot reports for `link`. */
  function Reported(es: seq<Event>, link: Link, n: nat): real
    requires n < |es| && es[n].Snapshot?
  {
    if link.Up? then At(es, n + 1).totalUptime else At(es, n + 1).totalDowntime
  }

  /** What a snapshot reports about the present state is right exactly when no time was spent in it before this
      stretch; what it reports about the other state, exactly when that total is undisturbed. */
  lemma {:induction false} SnapshotRightIff(es: seq<Event>, link: Link, n: nat)
    requires n < |es| && es[n].Snapshot? && !link.Unknown?
    ensures Reported(es, link, n) == TimeIn(es, link, n + 1) <==>
            if LinkAfter(es, n) == link then TimeBefore(es, link, n + 1) == 0.0 else Undisturbed(es, link, n)
  {
    FieldsTrackStretch(es, n);
    StretchEndsTime(es, n + 1);
    SnapshotCountsStretch(es, link, n + 1);
    TotalsRightIff(es, link, n);
  }

  /** A second stretch forgets the first, in either state, and a snapshot is counted again when its stretch ends. */
  lemma {:induction false} SnapshotsMislead()
    ensures
      var es := [Report(true, 0.0), Report(false, 5.0), Report(true, 6.0), Snapshot(6.0), Snapshot(8.0)];
      Reported(es, Up, 4) == 2.0 && TimeIn(es, Up, 5) == 7.0
    ensures
      var es := [Report(true, 0.0), Report(false, 1.0), Report(true, 4.0), Report(false, 5.0), Snapshot(6.0)];
      Reported(es, Down, 4) == 1.0 && TimeIn(es, Down, 5) == 4.0
    ensures
      var es := [Report(true, 0.0), Snapshot(3.0), Report(false, 5.0)];
      At(es, 3).totalUptime == 8.0 && TimeIn(es, Up, 3) == 5.0
  {
  }

  lemma {:induction false} NeverOnline(es: seq<Event>, n: nat)
    requires n <= |es| && LinkAfter(es, n).Unknown?
    ensures forall k :: 0 <= k < n ==> !(es[k].Report? && es[k].online)
  {
    if n > 0 {
      NeverOnline(es, n - 1);
    }
  }

  /** The first online report. */
  function FirstOnline(es: seq<Event>, n: nat): (first: nat)
    requires n <= |es| && !LinkAfter(es, n).Unknown?
    ensures first < n && es[first].Report? && es[first].online
    ensures forall k :: 0 <= k < first ==> !(es[k].Report? && es[k].online)
    decreases n
  {
    if LinkAfter(es, n - 1).Unknown? then
      NeverOnline(es, n - 1);
      n - 1
    else FirstOnline(es, n - 1)
  }

  lemma {:induction false} TimesAddUp(es: seq<Event>, n: nat)
    requires n <= |es|
    ensures TimeIn(es, Up, n) + TimeIn(es, Down, n)
            == if LinkAfter(es, n).Unknown? then 0.0 else es[n - 1].now - es[FirstOnline(es, n)].now
  {
    if n > 0 {
      TimesAddUp(es, n - 1);
    }
  }

  /** At every change of state uptime and downtime add up to the time since the first online report, but for what
      snapshots have done to either. */
  lemma {:induction false} TotalsSpanTheRun(es: seq<Event>, n: nat)
    requires 0 < n <= |es| && LinkAfter(es, n) != LinkAfter(es, n - 1)
    ensures At(es, n).totalUptime + At(es, n).totalDowntime
            == es[n - 1].now - es[FirstOnline(es, n)].now + Drift(es, Up, n) + Drift(es, Down, n)
    ensures (forall k :: 0 <= k < n ==> es[k].Report?) ==> Drift(es, Up, n) == Drift(es, Down, n) == 0.0
  {
    CountedIsTimePlusDrift(es, Up, n);
    CountedIsTimePlusDrift(es, Down, n);
    TimesAddUp(es, n);
  }
}
