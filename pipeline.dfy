/**
 * The cleaning monitor: per-device memory of the previous poll and of the
 * battery level when a session started, and the logging of a session on the
 * poll where a device goes from cleaning straight to idle.
 *
 * `Step` is the specification of one poll; the class `CleaningMonitor` does the
 * same work in place and is proved against it. `Run` folds `Step` over a
 * sequence of polls, and the lemmas after it are about whole poll sequences.
 */
module Pipeline {
  import opened Wrappers
  import opened Collector

  /** The two maps the monitor keeps, keyed by device name. */
  datatype MonitorState = MonitorState(
    previousStates: map<string, DeviceStatus>,
    cleaningStartBattery: map<string, int>)

  /** The monitor as constructed: nothing seen yet. */
  const Initial := MonitorState(map[], map[])

  /** The new maps after one poll, and the session record logged on that poll, if any. */
  datatype StepResult = StepResult(next: MonitorState, logged: Option<CleaningRecord>)

  /** The record of a session that ends on `final`; its state is always "completed". */
  function CompletedRecord(final: DeviceStatus, now: string, batteryStart: Option<int>): (r: CleaningRecord)
    ensures r.state == "completed"
    ensures r.deviceName == final.deviceName && r.timestamp == now
    ensures r.batteryStart == batteryStart && r.batteryEnd == Some(final.battery)
    ensures r.cleanTimeMinutes == final.cleanTime && r.cleanAreaSqm == final.cleanArea
    ensures r.fanPower == final.fanPower && r.mopMode == final.mopMode && r.errorCode == final.errorCode
    ensures r.waterLevel.None? <==> final.waterBoxStatus.None? || final.waterBoxStatus.value == 0
    ensures r.waterLevel.Some? ==> r.waterLevel.value == IntString(final.waterBoxStatus.value)
    ensures r.waterLevel.Some? ==> ParseInt(r.waterLevel.value) == Some(final.waterBoxStatus.value)
  {
    RecordOf(final, final.deviceName, now, batteryStart, "completed")
  }

  /** The poll of `status` closes a session: the device was last seen cleaning and is now idle. */
  predicate EndsSession(s: MonitorState, status: DeviceStatus) {
    var d := status.deviceName;
    d in s.previousStates && IsCleaning(s.previousStates[d]) && IsIdle(status)
  }

  /**
   * One poll. `status` is what the status fetch returned (`None` when it failed)
   * and `now` the time at which a session record would be stamped.
   */
  function Step(s: MonitorState, status: Option<DeviceStatus>, now: string): (r: StepResult)
    ensures status.None? ==> r == StepResult(s, None)
    ensures status.Some? ==>
      var st := status.value;
      var d := st.deviceName;
      // the previous poll is replaced for this device only
      && r.next.previousStates == s.previousStates[d := st]
      // a session is logged exactly on a cleaning -> idle edge
      && (r.logged.Some? <==> EndsSession(s, st))
      && (r.logged.Some? ==>
            && r.logged.value == CompletedRecord(st, now, Lookup(s.cleaningStartBattery, d))
            && d !in r.next.cleaningStartBattery)
      // the start battery is captured on the first cleaning poll and never overwritten
      && (IsCleaning(st) ==>
            r.next.cleaningStartBattery == s.cleaningStartBattery[d := Lookup(s.cleaningStartBattery, d).GetOr(st.battery)])
      && (!IsCleaning(st) && r.logged.None? ==> r.next.cleaningStartBattery == s.cleaningStartBattery)
      // no other device's start battery changes
      && r.next.cleaningStartBattery - {d} == s.cleaningStartBattery - {d}
  {
    if status.None? then StepResult(s, None)
    else
      var st := status.value;
      var d := st.deviceName;
      var battery :=
        if IsCleaning(st) && d !in s.cleaningStartBattery then s.cleaningStartBattery[d := st.battery]
        else s.cleaningStartBattery;
      var previous := Lookup(s.previousStates, d);
      if previous.Some? && IsCleaning(previous.value) && IsIdle(st) then
        CleaningAndIdleDisjoint(st);
        StepResult(MonitorState(s.previousStates[d := st], battery - {d}),
                   Some(CompletedRecord(st, now, Lookup(battery, d))))
      else
        StepResult(MonitorState(s.previousStates[d := st], battery), None)
  }

  /** `CleaningMonitor`: the two maps, and the rows its sink has accepted. */
  class CleaningMonitor {
    var previousStates: map<string, DeviceStatus>
    var cleaningStartBattery: map<string, int>
    /** Rows appended to the `Cleaning_History` sheet by this monitor. */
    var appended: seq<seq<Cell>>

    function State(): MonitorState
      reads this
    {
      MonitorState(previousStates, cleaningStartBattery)
    }

    constructor ()
      ensures State() == Initial && appended == []
    {
      previousStates := map[];
      cleaningStartBattery := map[];
      appended := [];
    }

    /**
     * `_check_device`. `appendSucceeds` says whether the sink would accept a
     * row on this poll; it matters only when a session is logged.
     */
    method CheckDevice(status: Option<DeviceStatus>, now: string, appendSucceeds: bool)
      returns (logged: Option<CleaningRecord>)
      modifies this
      ensures StepResult(State(), logged) == Step(old(State()), status, now)
      ensures appended == old(appended) + (if logged.Some? && appendSucceeds then [CleaningRecordRow(logged.value)] else [])
    {
      logged := None;
      if status.None? {
        return;
      }
      var st := status.value;
      var d := st.deviceName;
      var previous := Lookup(previousStates, d);

      if IsCleaning(st) {
        if d !in cleaningStartBattery {
          cleaningStartBattery := cleaningStartBattery[d := st.battery];
        }
      }

      if previous.Some? {
        var wasCleaning := IsCleaning(previous.value);
        var isNowIdle := IsIdle(st);
        if wasCleaning && isNowIdle {
          var record := LogCleaningSession(st, now, appendSucceeds);
          logged := Some(record);
        }
      }

      previousStates := previousStates[d := st];
    }

    /**
     * `_log_cleaning_session`: pops the start battery and appends the session's
     * row; a sink failure is swallowed and the start battery stays popped.
     */
    method LogCleaningSession(finalStatus: DeviceStatus, now: string, appendSucceeds: bool)
      returns (record: CleaningRecord)
      modifies this
      ensures record == CompletedRecord(finalStatus, now, Lookup(old(cleaningStartBattery), finalStatus.deviceName))
      ensures cleaningStartBattery == old(cleaningStartBattery) - {finalStatus.deviceName}
      ensures previousStates == old(previousStates)
      ensures appended == old(appended) + (if appendSucceeds then [CleaningRecordRow(record)] else [])
    {
      var d := finalStatus.deviceName;
      var batteryStart := Lookup(cleaningStartBattery, d);
      cleaningStartBattery := cleaningStartBattery - {d};
      record := CompletedRecord(finalStatus, now, batteryStart);
      if appendSucceeds {
        appended := appended + [CleaningRecordRow(record)];
      }
    }
  }

  // ---------------------------------------------------------------------------
  // Sequences of polls

  /** One poll of one device: the fetched status (if any) and the time of the poll. */
  datatype Poll = Poll(status: Option<DeviceStatus>, now: string)

  /** The maps after a sequence of polls, and the records logged along the way, in order. */
  datatype Trace = Trace(state: MonitorState, logged: seq<CleaningRecord>)

  function OptionSeq<T>(o: Option<T>): seq<T> {
    if o.Some? then [o.value] else []
  }

  function Run(s: MonitorState, polls: seq<Poll>): Trace {
    if polls == [] then Trace(s, [])
    else
      var t := Run(s, polls[..|polls| - 1]);
      var p := polls[|polls| - 1];
      var r := Step(t.state, p.status, p.now);
      Trace(r.next, t.logged + OptionSeq(r.logged))
  }

  /** The statuses of device `d` that the polls fetched successfully, in poll order. */
  function Observed(polls: seq<Poll>, d: string): seq<DeviceStatus> {
    if polls == [] then []
    else
      var p := polls[|polls| - 1];
      Observed(polls[..|polls| - 1], d)
        + (if p.status.Some? && p.status.value.deviceName == d then [p.status.value] else [])
  }

  /** The records about device `d`. */
  function RecordsFor(records: seq<CleaningRecord>, d: string): seq<CleaningRecord> {
    if records == [] then []
    else
      RecordsFor(records[..|records| - 1], d)
        + (if records[|records| - 1].deviceName == d then [records[|records| - 1]] else [])
  }

  /** What the monitor remembers of device `d` before the polls: its previous status, if any. */
  function Remembered(s: MonitorState, d: string): seq<DeviceStatus> {
    OptionSeq(Lookup(s.previousStates, d))
  }

  function Last<T>(xs: seq<T>): Option<T> {
    if xs == [] then None else Some(xs[|xs| - 1])
  }

  /** The number of adjacent (cleaning, idle) pairs in a sequence of statuses. */
  function CompletionEdges(xs: seq<DeviceStatus>): nat {
    if |xs| < 2 then 0
    else
      CompletionEdges(xs[..|xs| - 1])
        + (if IsCleaning(xs[|xs| - 2]) && IsIdle(xs[|xs| - 1]) then 1 else 0)
  }

  lemma {:induction false} RecordsForAppend(a: seq<CleaningRecord>, b: seq<CleaningRecord>, d: string)
    ensures RecordsFor(a + b, d) == RecordsFor(a, d) + RecordsFor(b, d)
    decreases |b|
  {
    if b == [] {
      assert a + b == a;
    } else {
      var b' := b[..|b| - 1];
      assert (a + b)[..|a + b| - 1] == a + b';
      RecordsForAppend(a, b', d);
    }
  }

  /** After any polls, the monitor's previous status for `d` is the last one it saw for `d`. */
  lemma {:induction false} RunRemembersLast(s: MonitorState, polls: seq<Poll>, d: string)
    ensures Lookup(Run(s, polls).state.previousStates, d) == Last(Remembered(s, d) + Observed(polls, d))
  {
    if polls == [] {
      assert Remembered(s, d) + [] == Remembered(s, d);
    } else {
      var prefix := polls[..|polls| - 1];
      RunRemembersLast(s, prefix, d);
      var p := polls[|polls| - 1];
      if p.status.Some? && p.status.value.deviceName == d {
        assert Remembered(s, d) + Observed(polls, d) == (Remembered(s, d) + Observed(prefix, d)) + [p.status.value];
      } else {
        assert Observed(polls, d) == Observed(prefix, d);
      }
    }
  }

  lemma EdgesSnoc(xs: seq<DeviceStatus>, x: DeviceStatus)
    ensures CompletionEdges(xs + [x])
         == CompletionEdges(xs) + (if |xs| > 0 && IsCleaning(xs[|xs| - 1]) && IsIdle(x) then 1 else 0)
  {
    assert (xs + [x])[..|xs|] == xs;
  }

  /** One poll logs a record about `d` exactly when it ends a session of `d`. */
  lemma StepRecordsFor(s: MonitorState, p: Poll, d: string)
    ensures var r := Step(s, p.status, p.now);
            |RecordsFor(OptionSeq(r.logged), d)|
            == if p.status.Some? && p.status.value.deviceName == d && EndsSession(s, p.status.value) then 1 else 0
  {
    var r := Step(s, p.status, p.now);
    if r.logged.Some? {
      assert [r.logged.value][..0] == [];
    }
  }

  /** The last poll adds an edge for `d` exactly when it ends a session of `d`. */
  lemma EdgesOfLastPoll(s: MonitorState, polls: seq<Poll>, d: string)
    requires polls != []
    ensures var prefix, p := polls[..|polls| - 1], polls[|polls| - 1];
            CompletionEdges(Remembered(s, d) + Observed(polls, d))
            == CompletionEdges(Remembered(s, d) + Observed(prefix, d))
               + (if p.status.Some? && p.status.value.deviceName == d
                     && EndsSession(Run(s, prefix).state, p.status.value) then 1 else 0)
  {
    var prefix, p := polls[..|polls| - 1], polls[|polls| - 1];
    var xs := Remembered(s, d) + Observed(prefix, d);
    if p.status.Some? && p.status.value.deviceName == d {
      var st := p.status.value;
      RunRemembersLast(s, prefix, d);
      assert Remembered(s, d) + Observed(polls, d) == xs + [st];
      EdgesSnoc(xs, st);
    } else {
      assert Observed(polls, d) == Observed(prefix, d);
    }
  }

  /** The last poll keeps the count of sessions in step with the count of edges. */
  lemma SessionsMatchStep(s: MonitorState, polls: seq<Poll>, d: string)
    requires polls != []
    requires var prefix := polls[..|polls| - 1];
             |RecordsFor(Run(s, prefix).logged, d)| == CompletionEdges(Remembered(s, d) + Observed(prefix, d))
    ensures |RecordsFor(Run(s, polls).logged, d)| == CompletionEdges(Remembered(s, d) + Observed(polls, d))
  {
    var prefix, p := polls[..|polls| - 1], polls[|polls| - 1];
    var t := Run(s, prefix);
    var r := Step(t.state, p.status, p.now);
    assert Run(s, polls).logged == t.logged + OptionSeq(r.logged);
    RecordsForAppend(t.logged, OptionSeq(r.logged), d);
    StepRecordsFor(t.state, p, d);
    EdgesOfLastPoll(s, polls, d);
  }

  /**
   * Over any sequence of polls, the sessions logged for device `d` are exactly as
   * many as the adjacent (cleaning, idle) pairs among the statuses the monitor saw
   * for `d`, counting the status it remembered before the first poll.
   */
  lemma {:induction false} SessionsMatchCompletionEdges(s: MonitorState, polls: seq<Poll>, d: string)
    ensures |RecordsFor(Run(s, polls).logged, d)| == CompletionEdges(Remembered(s, d) + Observed(polls, d))
  {
    if polls == [] {
      assert Remembered(s, d) + [] == Remembered(s, d);
    } else {
      SessionsMatchCompletionEdges(s, polls[..|polls| - 1], d);
      SessionsMatchStep(s, polls, d);
    }
  }

  lemma {:induction false} NoCleaningNoEdges(xs: seq<DeviceStatus>)
    requires forall i :: 0 <= i < |xs| - 1 ==> !IsCleaning(xs[i])
    ensures CompletionEdges(xs) == 0
  {
    if |xs| >= 2 {
      NoCleaningNoEdges(xs[..|xs| - 1]);
    }
  }

  /** Every status in `xs` is idle. */
  predicate AllIdle(xs: seq<DeviceStatus>) {
    forall i :: 0 <= i < |xs| ==> IsIdle(xs[i])
  }

  /**
   * Once a session has been logged for `d`, further polls in which `d` is only ever
   * seen idle log nothing more for `d`, however many there are.
   */
  lemma IdlePollsAfterCompletionLogNothing(s: MonitorState, status: DeviceStatus, now: string, polls: seq<Poll>)
    requires Step(s, Some(status), now).logged.Some?
    requires AllIdle(Observed(polls, status.deviceName))
    ensures RecordsFor(Run(Step(s, Some(status), now).next, polls).logged, status.deviceName) == []
  {
    var d := status.deviceName;
    var s' := Step(s, Some(status), now).next;
    var seen := Observed(polls, d);
    var xs := Remembered(s', d) + seen;
    assert Remembered(s', d) == [status];
    assert IsIdle(status);
    forall i | 0 <= i < |xs| - 1
      ensures !IsCleaning(xs[i])
    {
      if i == 0 {
        assert xs[i] == status;
      } else {
        assert xs[i] == seen[i - 1];
      }
      CleaningAndIdleDisjoint(xs[i]);
    }
    NoCleaningNoEdges(xs);
    SessionsMatchCompletionEdges(s', polls, d);
  }

  /**
   * A label that is neither cleaning nor idle breaks the edge: polls of one device
   * reading cleaning, then an unclassified label, then idle log nothing, and the
   * start battery captured on the cleaning poll is kept.
   */
  lemma UnclassifiedBreaksEdge(s: MonitorState, c: DeviceStatus, u: DeviceStatus, i: DeviceStatus,
                               t0: string, t1: string, t2: string)
    requires c.deviceName == u.deviceName == i.deviceName
    requires IsCleaning(c) && !IsCleaning(u) && !IsIdle(u) && IsIdle(i)
    ensures var d := c.deviceName;
            var r0 := Step(s, Some(c), t0);
            var r1 := Step(r0.next, Some(u), t1);
            var r2 := Step(r1.next, Some(i), t2);
            && r0.logged.None? && r1.logged.None? && r2.logged.None?
            && Lookup(r2.next.cleaningStartBattery, d) == Some(Lookup(s.cleaningStartBattery, d).GetOr(c.battery))
  {
    CleaningAndIdleDisjoint(c);
  }

  /**
   * Once a start battery is stored for a device, a cleaning poll followed by an
   * idle one logs a session on the idle poll, and that session reports the
   * stored battery.
   */
  lemma StoredBatteryReported(s: MonitorState, c: DeviceStatus, i: DeviceStatus, t0: string, t1: string)
    requires c.deviceName == i.deviceName && c.deviceName in s.cleaningStartBattery
    requires IsCleaning(c) && IsIdle(i)
    ensures var r0 := Step(s, Some(c), t0);
            var r1 := Step(r0.next, Some(i), t1);
            && r0.logged.None?
            && r1.logged == Some(CompletedRecord(i, t1, Some(s.cleaningStartBattery[c.deviceName])))
  {
    CleaningAndIdleDisjoint(c);
  }

  /**
   * The start battery kept across a broken edge is the one the next completed
   * session reports: after cleaning, unclassified, idle, the polls cleaning, idle
   * log a session with the battery stored before the break.
   */
  lemma StartBatteryOutlivesBrokenEdge(s: MonitorState, c: DeviceStatus, u: DeviceStatus, i: DeviceStatus,
                                       c2: DeviceStatus, i2: DeviceStatus, times: seq<string>)
    requires |times| == 5
    requires c.deviceName == u.deviceName == i.deviceName == c2.deviceName == i2.deviceName
    requires IsCleaning(c) && !IsCleaning(u) && !IsIdle(u) && IsIdle(i) && IsCleaning(c2) && IsIdle(i2)
    ensures var start := Lookup(s.cleaningStartBattery, c.deviceName).GetOr(c.battery);
            var s3 := Step(Step(Step(s, Some(c), times[0]).next, Some(u), times[1]).next, Some(i), times[2]).next;
            var r3 := Step(s3, Some(c2), times[3]);
            var r4 := Step(r3.next, Some(i2), times[4]);
            r3.logged.None? && r4.logged == Some(CompletedRecord(i2, times[4], Some(start)))
  {
    UnclassifiedBreaksEdge(s, c, u, i, times[0], times[1], times[2]);
    var s3 := Step(Step(Step(s, Some(c), times[0]).next, Some(u), times[1]).next, Some(i), times[2]).next;
    StoredBatteryReported(s3, c2, i2, times[3], times[4]);
  }

  /** Polls that all fetched successfully: status `k` polled at `times[k]`. */
  function PollsOf(statuses: seq<DeviceStatus>, times: seq<string>): (polls: seq<Poll>)
    requires |statuses| == |times|
    ensures |polls| == |statuses|
    ensures forall k :: 0 <= k < |polls| ==> polls[k] == Poll(Some(statuses[k]), times[k])
  {
    seq(|statuses|, k requires 0 <= k < |statuses| => Poll(Some(statuses[k]), times[k]))
  }

  /** Successful polls of one device are seen, in order, as exactly the statuses fetched. */
  lemma {:induction false} ObservedPollsOf(statuses: seq<DeviceStatus>, times: seq<string>, d: string)
    requires |statuses| == |times|
    requires forall k :: 0 <= k < |statuses| ==> statuses[k].deviceName == d
    ensures Observed(PollsOf(statuses, times), d) == statuses
    decreases |statuses|
  {
    if statuses != [] {
      var n := |statuses| - 1;
      assert PollsOf(statuses, times)[..n] == PollsOf(statuses[..n], times[..n]);
      ObservedPollsOf(statuses[..n], times[..n], d);
      assert statuses[..n] + [statuses[n]] == statuses;
    }
  }

  /** The poll sequence of `TwoSessionsScenario`, classified. */
  predicate ScenarioShape(a: seq<DeviceStatus>, times: seq<string>) {
    && |a| == |times| == 7
    && (forall k :: 0 <= k < 7 ==> a[k].deviceName == a[0].deviceName)
    && IsIdle(a[0]) && IsCleaning(a[1]) && IsCleaning(a[2]) && IsIdle(a[3])
    && IsIdle(a[4]) && IsCleaning(a[5]) && IsIdle(a[6])
  }

  /**
   * Polls one to four of `TwoSessionsScenario`, from a fresh monitor: only the
   * fourth poll logs, and its session reports the battery of the second poll,
   * the first cleaning one; afterwards no start battery is stored.
   */
  lemma ScenarioFirstSession(a: seq<DeviceStatus>, times: seq<string>)
    requires ScenarioShape(a, times)
    ensures var r0 := Step(Initial, Some(a[0]), times[0]);
            var r1 := Step(r0.next, Some(a[1]), times[1]);
            var r2 := Step(r1.next, Some(a[2]), times[2]);
            var r3 := Step(r2.next, Some(a[3]), times[3]);
            && r0.logged.None? && r1.logged.None? && r2.logged.None?
            && r3.logged == Some(CompletedRecord(a[3], times[3], Some(a[1].battery)))
            && r3.next == MonitorState(map[a[0].deviceName := a[3]], map[])
  {
    CleaningAndIdleDisjoint(a[0]);
    CleaningAndIdleDisjoint(a[2]);
    CleaningAndIdleDisjoint(a[3]);
  }

  /**
   * Polls five to seven of `TwoSessionsScenario`, after the first session: the
   * repeated idle poll and the cleaning poll log nothing, and the seventh poll
   * logs a session reporting the battery of the sixth, the cleaning one.
   */
  lemma ScenarioSecondSession(a: seq<DeviceStatus>, times: seq<string>)
    requires ScenarioShape(a, times)
    ensures var r4 := Step(MonitorState(map[a[0].deviceName := a[3]], map[]), Some(a[4]), times[4]);
            var r5 := Step(r4.next, Some(a[5]), times[5]);
            var r6 := Step(r5.next, Some(a[6]), times[6]);
            && r4.logged.None? && r5.logged.None?
            && r6.logged == Some(CompletedRecord(a[6], times[6], Some(a[5].battery)))
  {
    CleaningAndIdleDisjoint(a[3]);
    CleaningAndIdleDisjoint(a[4]);
    CleaningAndIdleDisjoint(a[5]);
  }

  /** idle, cleaning, cleaning, idle, idle, cleaning, idle has two (cleaning, idle) pairs. */
  lemma ScenarioEdges(a: seq<DeviceStatus>, times: seq<string>)
    requires ScenarioShape(a, times)
    ensures CompletionEdges(a) == 2
  {
    CleaningAndIdleDisjoint(a[0]);
    CleaningAndIdleDisjoint(a[2]);
    CleaningAndIdleDisjoint(a[3]);
    CleaningAndIdleDisjoint(a[4]);
    assert CompletionEdges(a[..2]) == 0 by { assert a[..2][..1] == a[..1]; }
    assert CompletionEdges(a[..3]) == 0 by { assert a[..3][..2] == a[..2]; }
    assert CompletionEdges(a[..4]) == 1 by { assert a[..4][..3] == a[..3]; }
    assert CompletionEdges(a[..5]) == 1 by { assert a[..5][..4] == a[..4]; }
    assert CompletionEdges(a[..6]) == 1 by { assert a[..6][..5] == a[..5]; }
    assert a[..6] == a[..|a| - 1];
  }

  /**
   * The poll sequence idle, cleaning, cleaning, idle, idle, cleaning, idle for one
   * device, watched from the start, logs exactly two sessions for it. Which polls
   * log, and with which start batteries, is stated by `ScenarioFirstSession` and
   * `ScenarioSecondSession`.
   */
  lemma TwoSessionsScenario(a: seq<DeviceStatus>, times: seq<string>)
    requires ScenarioShape(a, times)
    ensures |RecordsFor(Run(Initial, PollsOf(a, times)).logged, a[0].deviceName)| == 2
  {
    var d := a[0].deviceName;
    SessionsMatchCompletionEdges(Initial, PollsOf(a, times), d);
    ObservedPollsOf(a, times, d);
    assert Remembered(Initial, d) + a == a;
    ScenarioEdges(a, times);
  }
}
