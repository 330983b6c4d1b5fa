/**
  packages/runtime/src/control-plane/progress-reporter.ts: which progress events a run sends.
  Timer ticks and step hooks interleave in any order; the clock never goes back.
*/
module Progress {
  import opened Base
  import opened Records

  datatype Config = Config(thresholdMs: int, intervalMs: int, createdAt: int)

  datatype Kind = RunStarted | LongRunning | StepStarted | StepCompleted | ApprovalWait | RunCompleted

  datatype Event = Event(kind: Kind, step: Option<StepId>, at: int, forced: bool)

  datatype Hook =
    | Start
    | Tick(current: Option<StepId>)
    | OnStepStarted(id: StepId)
    | OnStepCompleted(id: StepId)
    | OnApprovalWait(id: StepId)
    | OnRunCompleted

  /** One hook with what the clock shows when it takes the elapsed time, when it throttles and when it sends. */
  datatype Call = Call(hook: Hook, elapsedAt: int, now: int, sentAt: int)

  /** The closure's two variables, and what the reporter received. */
  datatype State = State(longRunningStarted: bool, lastLongRunningAt: int, sent: seq<Event>)

  const INITIAL := State(false, 0, [])

  function Max(a: int, b: int): int {
    if a < b then b else a
  }

  function Spacing(c: Config): int {
    Max(c.intervalMs, 1000)
  }

  function Elapsed(c: Config, at: int): int {
    Max(0, at - c.createdAt)
  }

  /** `maybeEmitLongRunning` */
  function MaybeLongRunning(c: Config, m: State, current: Option<StepId>, force: bool, call: Call): State {
    if !force && Elapsed(c, call.elapsedAt) < c.thresholdMs then m
    else if !force && m.longRunningStarted && call.now - m.lastLongRunningAt < Spacing(c) then m
    else State(true, call.now, m.sent + [Event(LongRunning, current, call.now, force)])
  }

  function Send(m: State, kind: Kind, step: Option<StepId>, at: int): State {
    m.(sent := m.sent + [Event(kind, step, at, false)])
  }

  function IfStarted(m: State, kind: Kind, step: Option<StepId>, at: int): State {
    if m.longRunningStarted then Send(m, kind, step, at) else m
  }

  function Apply(c: Config, m: State, call: Call): State {
    match call.hook
    case Start => Send(m, RunStarted, None, call.sentAt)
    case Tick(current) => MaybeLongRunning(c, m, current, false, call)
    case OnStepStarted(id) =>
      IfStarted(MaybeLongRunning(c, m, Some(id), false, call), StepStarted, Some(id), call.sentAt)
    case OnStepCompleted(id) =>
      IfStarted(MaybeLongRunning(c, m, Some(id), false, call), StepCompleted, Some(id), call.sentAt)
    case OnApprovalWait(id) =>
      Send(MaybeLongRunning(c, m, Some(id), true, call), ApprovalWait, Some(id), call.sentAt)
    case OnRunCompleted =>
      if m.longRunningStarted || Elapsed(c, call.elapsedAt) >= c.thresholdMs
      then Send(m, RunCompleted, None, call.sentAt) else m
  }

  function Drive(c: Config, calls: seq<Call>): State {
    if calls == [] then INITIAL
    else Apply(c, Drive(c, calls[..|calls| - 1]), calls[|calls| - 1])
  }

  ghost predicate InOrder(calls: seq<Call>) {
    && (forall i {:trigger calls[i]} | 0 <= i < |calls| :: calls[i].elapsedAt <= calls[i].now <= calls[i].sentAt)
    && (forall i, j {:trigger calls[i], calls[j]} | 0 <= i < j < |calls| :: calls[i].sentAt <= calls[j].elapsedAt)
  }

  /** An unforced report comes after the threshold, and a full interval after every earlier report. */
  ghost predicate Throttled(c: Config, sent: seq<Event>) {
    && (forall i {:trigger sent[i]} | 0 <= i < |sent| && sent[i].kind == LongRunning && !sent[i].forced ::
          Elapsed(c, sent[i].at) >= c.thresholdMs)
    && (forall i, j {:trigger sent[i], sent[j]} |
          0 <= i < j < |sent| && sent[i].kind == LongRunning && sent[j].kind == LongRunning && !sent[j].forced ::
          sent[i].at + Spacing(c) <= sent[j].at)
  }

  /** Some report is among the first n events. */
  ghost predicate Reported(sent: seq<Event>, n: nat)
    requires n <= |sent|
  {
    exists i {:trigger sent[i]} :: 0 <= i < n && sent[i].kind == LongRunning
  }

  /** A step's start or completion is only reported in a run already reported as long. */
  ghost predicate Quiet(sent: seq<Event>) {
    forall j {:trigger sent[j]} | 0 <= j < |sent| && sent[j].kind in {StepStarted, StepCompleted} :: Reported(sent, j)
  }

  /** The two variables say what the reporter has seen. */
  ghost predicate Faithful(m: State, clock: int) {
    && (m.longRunningStarted <==> Reported(m.sent, |m.sent|))
    && (m.longRunningStarted ==>
          exists i {:trigger m.sent[i]} ::
              0 <= i < |m.sent| && m.sent[i].kind == LongRunning && m.sent[i].at == m.lastLongRunningAt)
    && (forall i {:trigger m.sent[i]} | 0 <= i < |m.sent| :: m.sent[i].at <= clock)
    && (forall i {:trigger m.sent[i]} | 0 <= i < |m.sent| && m.sent[i].kind == LongRunning ::
        m.sent[i].at <= m.lastLongRunningAt)
  }

  ghost predicate Inv(c: Config, m: State, clock: int) {
    Faithful(m, clock) && Throttled(c, m.sent) && Quiet(m.sent)
  }

  /** An event sent after all others keeps what was reported before it. */
  lemma ReportedAppend(sent: seq<Event>, e: Event)
    ensures forall n {:trigger Reported(sent + [e], n)} | 0 <= n <= |sent| ::
              Reported(sent + [e], n) == Reported(sent, n)
    ensures Reported(sent + [e], |sent| + 1) == (Reported(sent, |sent|) || e.kind == LongRunning)
  {
    var all := sent + [e];
    assert all[|sent|] == e;
    forall n | 0 <= n <= |sent| ensures Reported(all, n) == Reported(sent, n) {
      if i :| 0 <= i < n && sent[i].kind == LongRunning { assert all[i] == sent[i]; }
    }
  }

  lemma ReportKeeps(c: Config, m: State, e: Event, clock: int)
    requires Inv(c, m, clock) && clock <= e.at && e.kind == LongRunning
    requires !e.forced ==> Elapsed(c, e.at) >= c.thresholdMs
    requires !e.forced && m.longRunningStarted ==> e.at - m.lastLongRunningAt >= Spacing(c)
    ensures Inv(c, State(true, e.at, m.sent + [e]), e.at)
  {
    ReportedAppend(m.sent, e);
    var r := State(true, e.at, m.sent + [e]);
    assert r.sent[|m.sent|] == e;
    forall i | 0 <= i < |m.sent| && m.sent[i].kind == LongRunning ensures m.longRunningStarted {
      assert Reported(m.sent, |m.sent|);
    }
    assert Faithful(r, e.at);
    assert Throttled(c, r.sent);
  }

  lemma LongRunningKeeps(c: Config, m: State, current: Option<StepId>, force: bool, call: Call, clock: int)
    requires Inv(c, m, clock) && clock <= call.elapsedAt <= call.now
    ensures Inv(c, MaybeLongRunning(c, m, current, force, call), call.now)
  {
    if MaybeLongRunning(c, m, current, force, call) != m {
      ReportKeeps(c, m, Event(LongRunning, current, call.now, force), clock);
    } else {
      Later(c, m, clock, call.now);
    }
  }

  lemma Later(c: Config, m: State, clock: int, now: int)
    requires Inv(c, m, clock) && clock <= now
    ensures Inv(c, m, now)
  {
  }

  lemma SendKeeps(c: Config, m: State, kind: Kind, step: Option<StepId>, at: int, clock: int)
    requires Inv(c, m, clock) && clock <= at && kind != LongRunning
    requires kind == StepStarted || kind == StepCompleted ==> m.longRunningStarted
    ensures Inv(c, Send(m, kind, step, at), at)
  {
    var e := Event(kind, step, at, false);
    ReportedAppend(m.sent, e);
    var r := Send(m, kind, step, at);
    assert r.sent[|m.sent|] == e;
    assert Faithful(r, at) by {
      forall i | 0 <= i < |m.sent| ensures r.sent[i] == m.sent[i] {}
    }
    assert Throttled(c, r.sent);
  }

  lemma IfStartedKeeps(c: Config, m: State, kind: Kind, step: Option<StepId>, at: int, clock: int)
    requires Inv(c, m, clock) && clock <= at && kind != LongRunning
    ensures Inv(c, IfStarted(m, kind, step, at), at)
  {
    if m.longRunningStarted { SendKeeps(c, m, kind, step, at, clock); } else { Later(c, m, clock, at); }
  }

  lemma ApplyKeeps(c: Config, m: State, call: Call, clock: int)
    requires Inv(c, m, clock) && clock <= call.elapsedAt <= call.now <= call.sentAt
    ensures Inv(c, Apply(c, m, call), call.sentAt)
  {
    match call.hook
    case Start => SendKeeps(c, m, RunStarted, None, call.sentAt, clock);
    case Tick(current) =>
      LongRunningKeeps(c, m, current, false, call, clock);
      Later(c, Apply(c, m, call), call.now, call.sentAt);
    case OnStepStarted(id) =>
      var r := MaybeLongRunning(c, m, Some(id), false, call);
      LongRunningKeeps(c, m, Some(id), false, call, clock);
      IfStartedKeeps(c, r, StepStarted, Some(id), call.sentAt, call.now);
    case OnStepCompleted(id) =>
      var r := MaybeLongRunning(c, m, Some(id), false, call);
      LongRunningKeeps(c, m, Some(id), false, call, clock);
      IfStartedKeeps(c, r, StepCompleted, Some(id), call.sentAt, call.now);
    case OnApprovalWait(id) =>
      var r := MaybeLongRunning(c, m, Some(id), true, call);
      LongRunningKeeps(c, m, Some(id), true, call, clock);
      SendKeeps(c, r, ApprovalWait, Some(id), call.sentAt, call.now);
    case OnRunCompleted =>
      if Apply(c, m, call) != m {
        SendKeeps(c, m, RunCompleted, None, call.sentAt, clock);
      } else {
        Later(c, m, clock, call.sentAt);
      }
  }

  /** When the clock last moved before the next hook. */
  function ClockOf(calls: seq<Call>): int {
    if calls == [] then 0 else calls[|calls| - 1].sentAt
  }

  /** Over every interleaving of ticks and hooks. */
  lemma {:induction false} DriveKeeps(c: Config, calls: seq<Call>)
    requires InOrder(calls)
    ensures Inv(c, Drive(c, calls), ClockOf(calls))
    decreases |calls|
  {
    if calls != [] {
      var before, call := calls[..|calls| - 1], calls[|calls| - 1];
      DriveKeeps(c, before);
      if before == [] {
        assert Inv(c, INITIAL, call.elapsedAt);
        ApplyKeeps(c, INITIAL, call, call.elapsedAt);
      } else {
        ApplyKeeps(c, Drive(c, before), call, ClockOf(before));
      }
    }
  }

  /**
    A tick reports exactly when the run is past its threshold and a full interval has gone by
    since every report the reporter has received.
  */
  lemma TickReportsExactly(c: Config, calls: seq<Call>, call: Call)
    requires InOrder(calls + [call]) && call.hook.Tick?
    ensures var sent := Drive(c, calls).sent;
            var sent' := Drive(c, calls + [call]).sent;
            && (sent' == sent || sent' == sent + [Event(LongRunning, call.hook.current, call.now, false)])
            && (sent' != sent <==>
                  && Elapsed(c, call.elapsedAt) >= c.thresholdMs
                  && forall i {:trigger sent[i]} | 0 <= i < |sent| && sent[i].kind == LongRunning ::
                       sent[i].at + Spacing(c) <= call.now)
  {
    var all := calls + [call];
    assert all[..|all| - 1] == calls;
    forall i | 0 <= i < |calls| ensures all[i] == calls[i] {}
    DriveKeeps(c, calls);
  }

  /** The spacing is the interval, at least a second; elapsed time is never negative. */
  lemma UnitsOfTime(c: Config, at: int)
    ensures Spacing(c) == if c.intervalMs < 1000 then 1000 else c.intervalMs
    ensures Elapsed(c, at) == if at < c.createdAt then 0 else at - c.createdAt
  {
  }

  /** A report is due: past the threshold, and a full interval after every report sent so far. */
  ghost predicate Due(c: Config, sent: seq<Event>, call: Call) {
    && (if call.elapsedAt < c.createdAt then 0 else call.elapsedAt - c.createdAt) >= c.thresholdMs
    && forall i {:trigger sent[i]} | 0 <= i < |sent| && sent[i].kind == LongRunning ::
         sent[i].at + (if c.intervalMs < 1000 then 1000 else c.intervalMs) <= call.now
  }

  /** The events that a step's start or completion adds. */
  ghost function StepEvents(c: Config, sent: seq<Event>, call: Call, kind: Kind, id: StepId): seq<Event> {
    (if Due(c, sent, call) then [Event(LongRunning, Some(id), call.now, false)] else [])
    + (if Due(c, sent, call) || Reported(sent, |sent|) then [Event(kind, Some(id), call.sentAt, false)] else [])
  }

  /** The events that a hook adds to those sent before. */
  ghost function Added(c: Config, sent: seq<Event>, call: Call): seq<Event> {
    match call.hook
    case Start => [Event(RunStarted, None, call.sentAt, false)]
    case Tick(current) => if Due(c, sent, call) then [Event(LongRunning, current, call.now, false)] else []
    case OnStepStarted(id) => StepEvents(c, sent, call, StepStarted, id)
    case OnStepCompleted(id) => StepEvents(c, sent, call, StepCompleted, id)
    case OnApprovalWait(id) =>
      [Event(LongRunning, Some(id), call.now, true), Event(ApprovalWait, Some(id), call.sentAt, false)]
    case OnRunCompleted =>
      if Reported(sent, |sent|)
         || (if call.elapsedAt < c.createdAt then 0 else call.elapsedAt - c.createdAt) >= c.thresholdMs
      then [Event(RunCompleted, None, call.sentAt, false)] else []
  }

  /** Over every interleaving, each hook adds exactly the events that those sent before call for. */
  lemma HooksSendExactly(c: Config, calls: seq<Call>, call: Call)
    requires InOrder(calls + [call])
    ensures var sent := Drive(c, calls).sent; Drive(c, calls + [call]).sent == sent + Added(c, sent, call)
  {
    var all := calls + [call];
    assert all[..|all| - 1] == calls;
    forall i | 0 <= i < |calls| ensures all[i] == calls[i] {}
    DriveKeeps(c, calls);
    HookSends(c, Drive(c, calls), call, ClockOf(calls));
  }

  lemma HookSends(c: Config, m: State, call: Call, clock: int)
    requires Inv(c, m, clock)
    ensures Apply(c, m, call).sent == m.sent + Added(c, m.sent, call)
  {
    DueIs(c, m, call, clock);
  }

  lemma DueIs(c: Config, m: State, call: Call, clock: int)
    requires Inv(c, m, clock)
    ensures Due(c, m.sent, call) <==>
              && Elapsed(c, call.elapsedAt) >= c.thresholdMs
              && !(m.longRunningStarted && call.now - m.lastLongRunningAt < Spacing(c))
  {
  }

  ghost predicate Counted(e: Event, from: int, to: int) {
    e.kind == LongRunning && !e.forced && from <= e.at <= to
  }

  /** The unforced reports of the span from..to. */
  ghost function Reports(sent: seq<Event>, from: int, to: int): nat {
    if sent == [] then 0
    else Reports(sent[..|sent| - 1], from, to) + if Counted(sent[|sent| - 1], from, to) then 1 else 0
  }

  lemma ThrottledPrefix(c: Config, sent: seq<Event>, n: nat)
    requires Throttled(c, sent) && n <= |sent|
    ensures Throttled(c, sent[..n])
  {
  }

  lemma {:induction false} ReportsSpread(c: Config, sent: seq<Event>, from: int, to: int) returns (last: int)
    requires Throttled(c, sent)
    ensures Reports(sent, from, to) > 0 ==>
              && 0 <= last < |sent| && Counted(sent[last], from, to)
              && (Reports(sent, from, to) - 1) * Spacing(c) <= sent[last].at - from
    decreases |sent|
  {
    last := 0;
    if sent != [] {
      var n := |sent| - 1;
      ThrottledPrefix(c, sent, n);
      last := ReportsSpread(c, sent[..n], from, to);
      if Counted(sent[n], from, to) {
        var r := Reports(sent[..n], from, to);
        if r > 0 { OneMore(r, Spacing(c), sent[last].at - from, sent[n].at - from); }
        last := n;
      }
    }
  }

  lemma OneMore(n: nat, l: nat, a: int, b: int)
    requires n > 0 && (n - 1) * l <= a && a + l <= b
    ensures n * l <= b
  {
    assert n * l == (n - 1) * l + l;
  }

  /** Any span of T milliseconds holds at most 1 + T / interval unforced reports. */
  lemma SpanBound(c: Config, calls: seq<Call>, from: int, span: nat)
    requires InOrder(calls)
    ensures Reports(Drive(c, calls).sent, from, from + span)
            <= 1 + span / (if c.intervalMs < 1000 then 1000 else c.intervalMs)
  {
    DriveKeeps(c, calls);
    var sent := Drive(c, calls).sent;
    var last := ReportsSpread(c, sent, from, from + span);
    var r := Reports(sent, from, from + span);
    if r > 0 {
      QuotientBound(r - 1, span, Spacing(c));
    }
  }

  lemma QuotientBound(n: nat, span: nat, l: nat)
    requires l > 0 && n * l <= span
    ensures n <= span / l
  {
    var q := span / l;
    assert span < (q + 1) * l;
    if n >= q + 1 { TimesMonotone(q + 1, n, l); }
  }

  lemma TimesMonotone(a: nat, b: nat, l: nat)
    requires a <= b
    ensures a * l <= b * l
  {
  }

  /** The monitor: its two closure variables, and the events its reporter received. */
  class Monitor {
    const config: Config
    var longRunningStarted: bool
    var lastLongRunningAt: int
    var sent: seq<Event>

    constructor (config: Config)
      ensures this.config == config && Current() == INITIAL
    {
      this.config := config;
      longRunningStarted, lastLongRunningAt, sent := false, 0, [];
    }

    function Current(): State
      reads this
    {
      State(longRunningStarted, lastLongRunningAt, sent)
    }

    method MaybeEmitLongRunning(current: Option<StepId>, force: bool, call: Call)
      modifies this
      ensures Current() == MaybeLongRunning(config, old(Current()), current, force, call)
    {
      var elapsed := Elapsed(config, call.elapsedAt);
      if !force && elapsed < config.thresholdMs { return; }
      if !force && longRunningStarted && call.now - lastLongRunningAt < Spacing(config) { return; }
      longRunningStarted := true;
      lastLongRunningAt := call.now;
      sent := sent + [Event(LongRunning, current, call.now, force)];
    }

    method Emit(kind: Kind, step: Option<StepId>, at: int)
      modifies this`sent
      ensures Current() == Send(old(Current()), kind, step, at)
    {
      sent := sent + [Event(kind, step, at, false)];
    }

    method StepStartedHook(id: StepId, elapsedAt: int, now: int, sentAt: int)
      modifies this
      ensures Current() == Apply(config, old(Current()), Call(OnStepStarted(id), elapsedAt, now, sentAt))
    {
      MaybeEmitLongRunning(Some(id), false, Call(OnStepStarted(id), elapsedAt, now, sentAt));
      if !longRunningStarted { return; }
      Emit(StepStarted, Some(id), sentAt);
    }

    method StepCompletedHook(id: StepId, elapsedAt: int, now: int, sentAt: int)
      modifies this
      ensures Current() == Apply(config, old(Current()), Call(OnStepCompleted(id), elapsedAt, now, sentAt))
    {
      MaybeEmitLongRunning(Some(id), false, Call(OnStepCompleted(id), elapsedAt, now, sentAt));
      if !longRunningStarted { return; }
      Emit(StepCompleted, Some(id), sentAt);
    }

    method ApprovalWaitHook(id: StepId, elapsedAt: int, now: int, sentAt: int)
      modifies this
      ensures Current() == Apply(config, old(Current()), Call(OnApprovalWait(id), elapsedAt, now, sentAt))
    {
      MaybeEmitLongRunning(Some(id), true, Call(OnApprovalWait(id), elapsedAt, now, sentAt));
      Emit(ApprovalWait, Some(id), sentAt);
    }

    method RunCompletedHook(elapsedAt: int, now: int, sentAt: int)
      modifies this
      ensures Current() == Apply(config, old(Current()), Call(OnRunCompleted, elapsedAt, now, sentAt))
    {
      if longRunningStarted || Elapsed(config, elapsedAt) >= config.thresholdMs {
        Emit(RunCompleted, None, sentAt);
      }
    }
  }
}
