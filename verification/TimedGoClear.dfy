/** Going to clear with timers that give up, and packets dropped when they arrive out
    of order: each channel has its timer and the number of the last packet it
    took. Packets are numbered by their place in what their sender ever sent. */
module TimedGoClear {
  import opened Octets
  import opened GoClear
  import Timer

  /** What an end has beside its context: for each channel the number of the last
      packet taken, plus one, and the timer; and the time of its last iteration. */
  datatype Line = Line(taken: seq<nat>, timers: seq<Timer.Timer>, clock: nat)

  datatype Timed = Timed(g: Global, x: Line, y: Line)

  datatype Move = Asks(k: nat) | Takes(j: nat) | Iterates(k: nat, now: nat) | Accepts(k: nat)

  datatype Step = XMoves(move: Move) | YMoves(move: Move)

  function PhaseOf(mode: Mode): Timer.Phase {
    match mode
    case Secure => Timer.Deaf
    case SendingGoClear => Timer.SendingOther
    case Clear => Timer.Clear
  }

  /** The test of the sequence number, on the channel of the packet. */
  predicate InOrder(line: Line, peerLog: seq<Sent>, j: nat) {
    j < |peerLog| && peerLog[j].channel < |line.taken| && line.taken[peerLog[j].channel] <= j
  }

  /** bzrtp_iterate finds the timer of channel k due. Time does not go back. */
  predicate IsDue(ctx: Context, line: Line, k: nat, now: nat) {
    k < |ctx.channels| && k < |line.timers| && line.clock <= now && Timer.Fires(line.timers[k], now)
  }

  function Fired(ctx: Context, line: Line, k: nat, now: nat): Timer.Timer
    requires IsDue(ctx, line, k, now)
  {
    Timer.Iterate(PhaseOf(ctx.channels[k].mode), line.timers[k], now)
  }

  /** What a move is to an end without timers and numbers. */
  function ActionOf(ctx: Context, line: Line, peerLog: seq<Sent>, a: Move): Option<Action> {
    match a
    case Asks(k) => Some(AskAt(k))
    case Takes(j) => if InOrder(line, peerLog, j) then Some(ReceiveAt(j)) else None
    case Iterates(k, now) => if IsDue(ctx, line, k, now) then Some(TickAt(k, !Fired(ctx, line, k, now).on)) else None
    case Accepts(k) => Some(AcceptAt(k))
  }

  function WithTimer(line: Line, k: nat, timer: Timer.Timer): Line {
    if k < |line.timers| then line.(timers := line.timers[k := timer]) else line
  }

  function WithTimerOff(line: Line, k: nat): Line {
    if k < |line.timers| then WithTimer(line, k, line.timers[k].(on := false)) else line
  }

  function WithTaken(line: Line, k: nat, j: nat): Line {
    if k < |line.taken| then line.(taken := line.taken[k := j + 1]) else line
  }

  /** The timer and the number after a message on channel k. Only a GoClear taken
      while sending one has its number stored. */
  function LineOnMessage(p: Primitives, ctx: Context, line: Line, k: nat, j: nat, m: Message): Line
    requires k < |ctx.channels|
  {
    if OnMessage(p, ctx, k, m).code != 0 then line
    else
      match ctx.channels[k].mode
      case Secure => WithTimer(line, k, Timer.Armed(Timer.Clear, line.clock))
      case SendingGoClear => if m.ClearAck? then WithTimerOff(line, k) else WithTaken(line, k, j)
      case Clear => line
  }

  function LineAfter(p: Primitives, ctx: Context, line: Line, peerLog: seq<Sent>, a: Move): Line {
    match a
    case Asks(k) =>
      if k < |ctx.channels| && ctx.channels[k].keys.Some? && Ask(p, ctx, k).sent.Some?
      then WithTimer(line, k, Timer.Armed(Timer.SendingOther, line.clock)) else line
    case Takes(j) =>
      if InOrder(line, peerLog, j) && peerLog[j].channel < |ctx.channels|
      then LineOnMessage(p, ctx, line, peerLog[j].channel, j, peerLog[j].message) else line
    case Iterates(k, now) =>
      if IsDue(ctx, line, k, now) then WithTimer(line, k, Fired(ctx, line, k, now)).(clock := now)
      else if line.clock <= now then line.(clock := now)
      else line
    case Accepts(k) => if k < |ctx.channels| && ctx.channels[k].mode.Clear? then WithTimerOff(line, k) else line
  }

  function Proceed(p: Primitives, s: Timed, step: Step): Timed {
    match step
    case XMoves(a) =>
      var action := ActionOf(s.g.x, s.x, s.g.logY, a);
      Timed(if action.Some? then Happen(p, s.g, XActs(action.value)) else s.g, LineAfter(p, s.g.x, s.x, s.g.logY, a), s.y)
    case YMoves(a) =>
      var action := ActionOf(s.g.y, s.y, s.g.logX, a);
      Timed(if action.Some? then Happen(p, s.g, YActs(action.value)) else s.g, s.x, LineAfter(p, s.g.y, s.y, s.g.logX, a))
  }

  function AfterSteps(p: Primitives, s: Timed, run: seq<Step>): Timed {
    if run == [] then s else Proceed(p, AfterSteps(p, s, run[..|run| - 1]), run[|run| - 1])
  }

  /** A line on which nothing was taken and no timer is on. */
  predicate AtRest(line: Line, n: nat) {
    && |line.taken| == |line.timers| == n
    && (forall k :: 0 <= k < n ==> line.taken[k] == 0) && (forall k :: 0 <= k < n ==> !line.timers[k].on)
  }

  /** Two secure ends before either asks to go clear. */
  ghost predicate Begins(s: Timed) {
    && SecurePair(s.g.x, s.g.y) && s.g.logX == [] && s.g.logY == []
    && AtRest(s.x, |s.g.x.channels|) && AtRest(s.y, |s.g.x.channels|)
  }

  lemma OneStepMore(p: Primitives, s: Timed, run: seq<Step>, step: Step)
    ensures AfterSteps(p, s, run + [step]) == Proceed(p, AfterSteps(p, s, run), step)
  {
    assert (run + [step])[..|run|] == run;
  }

  lemma OneStep(p: Primitives, s: Timed, step: Step)
    ensures AfterSteps(p, s, [step]) == Proceed(p, s, step)
  {
    assert [] + [step] == [step];
    OneStepMore(p, s, [], step);
  }

  lemma {:induction false} StepsAdd(p: Primitives, s: Timed, run: seq<Step>, more: seq<Step>)
    ensures AfterSteps(p, s, run + more) == AfterSteps(p, AfterSteps(p, s, run), more)
  {
    if more == [] {
      assert run + more == run;
    } else {
      var front, last := more[..|more| - 1], more[|more| - 1];
      assert run + more == (run + front) + [last] && more == front + [last];
      StepsAdd(p, s, run, front);
      OneStepMore(p, s, run + front, last);
      OneStepMore(p, AfterSteps(p, s, run), front, last);
    }
  }

  // ---------------------------------------------------------------------
  // Timed runs are runs

  function EventsOf(s: Timed, step: Step): seq<Event> {
    match step
    case XMoves(a) => var action := ActionOf(s.g.x, s.x, s.g.logY, a); if action.Some? then [XActs(action.value)] else []
    case YMoves(a) => var action := ActionOf(s.g.y, s.y, s.g.logX, a); if action.Some? then [YActs(action.value)] else []
  }

  function RunOf(p: Primitives, s: Timed, run: seq<Step>): seq<Event> {
    if run == [] then [] else RunOf(p, s, run[..|run| - 1]) + EventsOf(AfterSteps(p, s, run[..|run| - 1]), run[|run| - 1])
  }

  lemma StepIsEvent(p: Primitives, s: Timed, g: Global, run: seq<Event>, step: Step)
    requires s.g == After(p, g, run)
    ensures Proceed(p, s, step).g == After(p, g, run + EventsOf(s, step))
  {
    var events := EventsOf(s, step);
    if events == [] {
      assert run + events == run;
    } else {
      assert (run + events)[..|run|] == run;
    }
  }

  /** Every timed run is a run of the network that repeats and reorders at will: what
      holds of those holds of it. */
  lemma {:induction false} TimedRunsAreRuns(p: Primitives, s: Timed, run: seq<Step>)
    ensures AfterSteps(p, s, run).g == After(p, s.g, RunOf(p, s, run))
  {
    if run != [] {
      var front := run[..|run| - 1];
      TimedRunsAreRuns(p, s, front);
      StepIsEvent(p, AfterSteps(p, s, front), s.g, RunOf(p, s, front), run[|run| - 1]);
    }
  }

  // ---------------------------------------------------------------------
  // One end: its line follows its context

  /** A timer is on where the channel says so, no number is beyond what the peer sent,
      and none was taken by a secure channel. */
  predicate Follows(ctx: Context, line: Line, peerSent: nat) {
    && |line.taken| == |line.timers| == |ctx.channels|
    && (forall k :: 0 <= k < |ctx.channels| ==> line.timers[k].on == ctx.channels[k].timerOn)
    && (forall k :: 0 <= k < |ctx.channels| ==> line.taken[k] <= peerSent)
    && (forall k :: 0 <= k < |ctx.channels| && ctx.channels[k].mode.Secure? ==> line.taken[k] == 0)
  }

  /** A channel that may send a GoClear has the key of its MAC. */
  predicate CanSpeak(ctx: Context) {
    forall k :: 0 <= k < |ctx.channels| && ctx.channels[k].mode.SendingGoClear? ==> ctx.channels[k].keys.Some?
  }

  function ContextAfter(p: Primitives, ctx: Context, line: Line, peerLog: seq<Sent>, a: Move): Context {
    var action := ActionOf(ctx, line, peerLog, a);
    if action.Some? then Act(p, ctx, peerLog, action.value).0 else ctx
  }

  function SentBy(p: Primitives, ctx: Context, line: Line, peerLog: seq<Sent>, a: Move): seq<Sent> {
    var action := ActionOf(ctx, line, peerLog, a);
    if action.Some? then Act(p, ctx, peerLog, action.value).1 else []
  }

  lemma MessageIsFollowed(p: Primitives, ctx: Context, line: Line, k: nat, j: nat, m: Message, peerSent: nat)
    requires Follows(ctx, line, peerSent) && k < |ctx.channels| && j < peerSent
    ensures Follows(OnMessage(p, ctx, k, m).next, LineOnMessage(p, ctx, line, k, j, m), peerSent)
  {
  }

  lemma AskIsFollowed(p: Primitives, ctx: Context, line: Line, peerLog: seq<Sent>, k: nat)
    requires Follows(ctx, line, |peerLog|)
    ensures Follows(ContextAfter(p, ctx, line, peerLog, Asks(k)), LineAfter(p, ctx, line, peerLog, Asks(k)), |peerLog|)
  {
  }

  lemma IterationIsFollowed(p: Primitives, ctx: Context, line: Line, peerLog: seq<Sent>, k: nat, now: nat)
    requires Follows(ctx, line, |peerLog|) && CanSpeak(ctx)
    ensures Follows(ContextAfter(p, ctx, line, peerLog, Iterates(k, now)), LineAfter(p, ctx, line, peerLog, Iterates(k, now)), |peerLog|)
  {
  }

  lemma MoveIsFollowed(p: Primitives, ctx: Context, line: Line, peerLog: seq<Sent>, a: Move)
    requires Follows(ctx, line, |peerLog|) && CanSpeak(ctx)
    ensures Follows(ContextAfter(p, ctx, line, peerLog, a), LineAfter(p, ctx, line, peerLog, a), |peerLog|)
  {
    match a
    case Asks(k) => AskIsFollowed(p, ctx, line, peerLog, k);
    case Takes(j) =>
      if InOrder(line, peerLog, j) {
        MessageIsFollowed(p, ctx, line, peerLog[j].channel, j, peerLog[j].message, |peerLog|);
      }
    case Iterates(k, now) => IterationIsFollowed(p, ctx, line, peerLog, k, now);
    case Accepts(k) =>
  }

  lemma MoreIsFollowed(ctx: Context, line: Line, peerSent: nat, more: nat)
    requires Follows(ctx, line, peerSent)
    ensures Follows(ctx, line, peerSent + more)
  {
  }

  // ---------------------------------------------------------------------
  // Two ends

  ghost predicate Sane(p: Primitives, x0: Context, y0: Context, px: Phase, py: Phase, s: Timed) {
    && Invariant(p, x0, y0, px, py, s.g)
    && Follows(s.g.x, s.x, |s.g.logY|) && Follows(s.g.y, s.y, |s.g.logX|)
  }

  lemma PhaseSpeaks(p: Primitives, start: Context, phase: Phase, ctx: Context)
    requires AtPhase(p, start, phase, ctx) && AllSecure(start)
    ensures CanSpeak(ctx)
  {
  }

  function Mirrored(s: Timed): Timed {
    Timed(Global(s.g.y, s.g.x, s.g.logY, s.g.logX), s.y, s.x)
  }

  function MirroredStep(step: Step): Step {
    match step
    case XMoves(a) => YMoves(a)
    case YMoves(a) => XMoves(a)
  }

  lemma StepMirrored(p: Primitives, s: Timed, step: Step)
    ensures Proceed(p, Mirrored(s), MirroredStep(step)) == Mirrored(Proceed(p, s, step))
  {
  }

  lemma SaneMirrored(p: Primitives, x0: Context, y0: Context, px: Phase, py: Phase, s: Timed)
    requires Sane(p, x0, y0, px, py, s)
    ensures Sane(p, y0, x0, py, px, Mirrored(s))
  {
    PairMirrored(x0, y0);
  }

  lemma MoveOfXKeepsSane(p: Primitives, x0: Context, y0: Context, px: Phase, py: Phase, s: Timed, a: Move) returns (next: Phase)
    requires Sane(p, x0, y0, px, py, s)
    ensures Sane(p, x0, y0, next, py, Proceed(p, s, XMoves(a)))
  {
    PhaseSpeaks(p, x0, px, s.g.x);
    MoveIsFollowed(p, s.g.x, s.x, s.g.logY, a);
    var action := ActionOf(s.g.x, s.x, s.g.logY, a);
    if action.Some? {
      next := ActKeepsFacing(p, x0, y0, px, py, s.g.x, s.g.logX, s.g.logY, action.value);
      MoreIsFollowed(s.g.y, s.y, |s.g.logX|, |Act(p, s.g.x, s.g.logY, action.value).1|);
    } else {
      next := px;
    }
  }

  lemma StepKeepsSane(p: Primitives, x0: Context, y0: Context, px: Phase, py: Phase, s: Timed, step: Step) returns (nx: Phase, ny: Phase)
    requires Sane(p, x0, y0, px, py, s)
    ensures Sane(p, x0, y0, nx, ny, Proceed(p, s, step))
  {
    match step
    case XMoves(a) =>
      ny := py;
      nx := MoveOfXKeepsSane(p, x0, y0, px, py, s, a);
    case YMoves(a) =>
      nx := px;
      SaneMirrored(p, x0, y0, px, py, s);
      ny := MoveOfXKeepsSane(p, y0, x0, py, px, Mirrored(s), a);
      StepMirrored(p, s, step);
      SaneMirrored(p, y0, x0, ny, px, Proceed(p, Mirrored(s), XMoves(a)));
  }

  lemma {:induction false} RunsStaySane(p: Primitives, s: Timed, run: seq<Step>) returns (px: Phase, py: Phase)
    requires Begins(s)
    ensures Sane(p, s.g.x, s.g.y, px, py, AfterSteps(p, s, run))
  {
    if run == [] {
      PairMirrored(s.g.x, s.g.y);
      px, py := Quiet, Quiet;
    } else {
      px, py := RunsStaySane(p, s, run[..|run| - 1]);
      px, py := StepKeepsSane(p, s.g.x, s.g.y, px, py, AfterSteps(p, s, run[..|run| - 1]), run[|run| - 1]);
    }
  }

  // ---------------------------------------------------------------------
  // What an end waiting for its ClearACK can still hope for

  /** A ClearACK, or a GoClear, that its receiver would not drop. */
  predicate AckPending(taken: seq<nat>, log: seq<Sent>) {
    exists j :: 0 <= j < |log| && log[j].message.ClearAck? && log[j].channel < |taken| && taken[log[j].channel] <= j
  }

  predicate RequestPending(taken: seq<nat>, log: seq<Sent>) {
    exists j :: 0 <= j < |log| && log[j].message.GoClear? && log[j].channel < |taken| && taken[log[j].channel] <= j
  }

  predicate TimerOn(line: Line) {
    exists k :: 0 <= k < |line.timers| && line.timers[k].on
  }

  /** y can still get its ClearACK: there is one it would take, or x, in clear, still
      repeats its own, or x, not in clear, has a GoClear of y to answer or will
      have. */
  predicate CanBeAnswered(s: Timed) {
    || AckPending(s.y.taken, s.g.logX)
    || if InClear(s.g.x) then TimerOn(s.x) else RequestPending(s.x.taken, s.g.logY) || TimerOn(s.y)
  }

  predicate Waits(ctx: Context) {
    AllIn(ctx, SendingGoClear)
  }

  lemma AckStays(taken: seq<nat>, log: seq<Sent>, s: Sent)
    requires s.channel < |taken| && taken[s.channel] <= |log|
    ensures s.message.ClearAck? ==> AckPending(taken, log + [s])
    ensures s.message.GoClear? ==> RequestPending(taken, log + [s])
  {
    assert (log + [s])[|log|] == s;
  }

  /** Where a ClearACK is pending, y takes it. */
  lemma PendingAckClears(p: Primitives, s: Timed) returns (run: seq<Step>)
    requires Waits(s.g.y) && |s.y.taken| == |s.g.y.channels| && AckPending(s.y.taken, s.g.logX)
    ensures InClear(AfterSteps(p, s, run).g.y)
  {
    var j :| 0 <= j < |s.g.logX| && s.g.logX[j].message.ClearAck? && s.g.logX[j].channel < |s.y.taken| && s.y.taken[s.g.logX[j].channel] <= j;
    run := [YMoves(Takes(j))];
    OneStep(p, s, run[0]);
    assert Proceed(p, s, run[0]).g.y.channels[s.g.logX[j].channel].mode.Clear?;
  }

  /** A time at which a timer that is on is due. */
  function DueTime(line: Line, k: nat): nat
    requires k < |line.timers|
  {
    if line.clock <= line.timers[k].firingTime then line.timers[k].firingTime else line.clock
  }

  /** x in clear repeats its ClearACK, and y takes it. */
  lemma RepeatedAckClears(p: Primitives, s: Timed) returns (run: seq<Step>)
    requires Waits(s.g.y) && AllIn(s.g.x, Clear) && TimerOn(s.x) && |s.g.x.channels| == |s.g.y.channels|
    requires Follows(s.g.x, s.x, |s.g.logY|) && Follows(s.g.y, s.y, |s.g.logX|)
    ensures InClear(AfterSteps(p, s, run).g.y)
  {
    var k :| 0 <= k < |s.x.timers| && s.x.timers[k].on;
    var step := XMoves(Iterates(k, DueTime(s.x, k)));
    var h := Proceed(p, s, step);
    assert h.g.logX == s.g.logX + [Sent(k, ClearAck)];
    AckStays(s.y.taken, s.g.logX, Sent(k, ClearAck));
    var rest := PendingAckClears(p, h);
    OneStep(p, s, step);
    StepsAdd(p, s, [step], rest);
    run := [step] + rest;
  }

  // x, not in clear, answers a GoClear of y.
  lemma RequestIsAnswered(p: Primitives, x0: Context, y0: Context, px: Phase, py: Phase, s: Timed, j: nat)
    requires Sane(p, x0, y0, px, py, s) && !px.ClearedVia? && py.Asked? && j < |s.g.logY| && s.g.logY[j].message.GoClear?
    ensures OnMessage(p, s.g.x, s.g.logY[j].channel, s.g.logY[j].message).sent == Some(ClearAck)
  {
    var k := s.g.logY[j].channel;
    assert Sayable(p, y0, py, px, s.g.logY[j]);
    assert x0.channels[k].keys == y0.channels[k].keys && SecureChannel(x0.channels[k]);
    PhaseModes(p, x0, px, s.g.x);
  }

  lemma PendingRequestClears(p: Primitives, x0: Context, y0: Context, px: Phase, py: Phase, s: Timed) returns (run: seq<Step>)
    requires Sane(p, x0, y0, px, py, s) && !px.ClearedVia? && py.Asked? && Waits(s.g.y) && RequestPending(s.x.taken, s.g.logY)
    ensures InClear(AfterSteps(p, s, run).g.y)
  {
    var j :| 0 <= j < |s.g.logY| && s.g.logY[j].message.GoClear? && s.g.logY[j].channel < |s.x.taken| && s.x.taken[s.g.logY[j].channel] <= j;
    var k, step := s.g.logY[j].channel, XMoves(Takes(j));
    var h := Proceed(p, s, step);
    RequestIsAnswered(p, x0, y0, px, py, s, j);
    assert h.g.logX == s.g.logX + [Sent(k, ClearAck)];
    AckStays(s.y.taken, s.g.logX, Sent(k, ClearAck));
    var rest := PendingAckClears(p, h);
    OneStep(p, s, step);
    StepsAdd(p, s, [step], rest);
    run := [step] + rest;
  }

  /** y repeats its GoClear, x answers it. */
  lemma RepeatedRequestClears(p: Primitives, x0: Context, y0: Context, px: Phase, py: Phase, s: Timed) returns (run: seq<Step>)
    requires Sane(p, x0, y0, px, py, s) && !px.ClearedVia? && py.Asked? && Waits(s.g.y) && TimerOn(s.y)
    ensures InClear(AfterSteps(p, s, run).g.y)
  {
    var k :| 0 <= k < |s.y.timers| && s.y.timers[k].on;
    var a := Iterates(k, DueTime(s.y, k));
    var h := Proceed(p, s, YMoves(a));
    RequestIsRepeated(p, x0, y0, px, py, s, k);
    SaneMirrored(p, x0, y0, px, py, s);
    var ny := MoveOfXKeepsSane(p, y0, x0, py, px, Mirrored(s), a);
    SaneMirrored(p, y0, x0, ny, px, Proceed(p, Mirrored(s), XMoves(a)));
    StepMirrored(p, s, YMoves(a));
    WaitingIsAsked(p, y0, ny, h.g.y);
    var rest := PendingRequestClears(p, x0, y0, px, ny, h);
    OneStep(p, s, YMoves(a));
    StepsAdd(p, s, [YMoves(a)], rest);
    run := [YMoves(a)] + rest;
  }

  lemma RequestIsRepeated(p: Primitives, x0: Context, y0: Context, px: Phase, py: Phase, s: Timed, k: nat)
    requires Sane(p, x0, y0, px, py, s) && py.Asked? && Waits(s.g.y) && k < |s.y.timers| && s.y.timers[k].on
    ensures var h := Proceed(p, s, YMoves(Iterates(k, DueTime(s.y, k))));
            h.g.x == s.g.x && h.x == s.x && Waits(h.g.y) && RequestPending(h.x.taken, h.g.logY)
  {
    PhaseSpeaks(p, y0, py, s.g.y);
    var channel := s.g.y.channels[k];
    var sent := Sent(k, GoClear(MacOf(p, channel, channel.isInitiator)));
    assert Proceed(p, s, YMoves(Iterates(k, DueTime(s.y, k)))).g.logY == s.g.logY + [sent];
    AckStays(s.x.taken, s.g.logY, sent);
  }

  lemma WaitingIsAsked(p: Primitives, start: Context, phase: Phase, ctx: Context)
    requires AtPhase(p, start, phase, ctx) && |start.channels| > 0 && Waits(ctx) && AllSecure(start)
    ensures phase.Asked?
  {
    assert ctx.channels[0].mode.SendingGoClear?;
  }

  lemma AnswerableClears(p: Primitives, x0: Context, y0: Context, px: Phase, py: Phase, s: Timed) returns (run: seq<Step>)
    requires Sane(p, x0, y0, px, py, s) && Waits(s.g.y) && CanBeAnswered(s)
    ensures InClear(AfterSteps(p, s, run).g.y)
  {
    WaitingIsAsked(p, y0, py, s.g.y);
    PhaseMeans(p, x0, px, s.g.x);
    PhaseModes(p, x0, px, s.g.x);
    if AckPending(s.y.taken, s.g.logX) {
      run := PendingAckClears(p, s);
    } else if InClear(s.g.x) {
      run := RepeatedAckClears(p, s);
    } else if RequestPending(s.x.taken, s.g.logY) {
      run := PendingRequestClears(p, x0, y0, px, py, s);
    } else {
      run := RepeatedRequestClears(p, x0, y0, px, py, s);
    }
  }

  // ---------------------------------------------------------------------
  // An end that can hope for nothing waits for ever

  ghost predicate Stranded(s: Timed) {
    Waits(s.g.y) && !CanBeAnswered(s)
  }

  predicate Grows(taken: seq<nat>, next: seq<nat>) {
    |next| == |taken| && forall k :: 0 <= k < |taken| ==> taken[k] <= next[k]
  }

  lemma NumbersGrow(p: Primitives, ctx: Context, line: Line, peerLog: seq<Sent>, a: Move)
    ensures Grows(line.taken, LineAfter(p, ctx, line, peerLog, a).taken)
  {
  }

  // What is not pending stays so unless it is sent.
  lemma NothingPends(taken: seq<nat>, next: seq<nat>, log: seq<Sent>, sent: seq<Sent>)
    requires Grows(taken, next)
    ensures !AckPending(taken, log) && (forall m :: m in sent ==> m.message.GoClear?) ==> !AckPending(next, log + sent)
    ensures !RequestPending(taken, log) && (forall m :: m in sent ==> m.message.ClearAck?) ==> !RequestPending(next, log + sent)
  {
    forall j | 0 <= j < |log + sent| ensures (log + sent)[j] == if j < |log| then log[j] else sent[j - |log|] {
    }
  }

  // What x may do once it is in clear with its timers off, which is nothing.
  lemma SilentMove(p: Primitives, ctx: Context, line: Line, peerLog: seq<Sent>, a: Move)
    requires AllIn(ctx, Clear) && TimersOff(ctx) && Follows(ctx, line, |peerLog|)
    ensures var action := ActionOf(ctx, line, peerLog, a); action.Some? ==> Act(p, ctx, peerLog, action.value) == (ctx, [])
    ensures !TimerOn(LineAfter(p, ctx, line, peerLog, a))
  {
    if a.Accepts? && a.k < |ctx.channels| {
      assert SetTimer(ctx.channels, a.k, false) == ctx.channels;
    }
  }

  /** What x does while it waits itself and has no GoClear of y to take: it repeats
      its own, or goes to clear with its timers off. */
  predicate Idles(next: Context, sent: seq<Sent>) {
    && (forall m :: m in sent ==> m.message.GoClear?)
    && ((AllIn(next, Clear) && TimersOff(next)) || Waits(next))
  }

  lemma WaitingMove(p: Primitives, start: Context, phase: Phase, ctx: Context, line: Line, peerLog: seq<Sent>, a: Move)
    requires AtPhase(p, start, phase, ctx) && phase.Asked? && AllSecure(start) && Follows(ctx, line, |peerLog|)
    requires Waits(ctx) && !RequestPending(line.taken, peerLog)
    requires forall j :: 0 <= j < |peerLog| && peerLog[j].message.ClearAck? ==> peerLog[j].channel == phase.k
    ensures Idles(ContextAfter(p, ctx, line, peerLog, a), SentBy(p, ctx, line, peerLog, a))
    ensures |ContextAfter(p, ctx, line, peerLog, a).channels| > 0
  {
  }

  // What y does while it waits, no ClearACK pending and its timer off.
  lemma HopelessMove(p: Primitives, ctx: Context, line: Line, peerLog: seq<Sent>, a: Move)
    requires Waits(ctx) && Follows(ctx, line, |peerLog|) && !AckPending(line.taken, peerLog)
    ensures Waits(ContextAfter(p, ctx, line, peerLog, a))
    ensures !TimerOn(line) ==> !TimerOn(LineAfter(p, ctx, line, peerLog, a))
    ensures !TimerOn(line) ==> var action := ActionOf(ctx, line, peerLog, a);
              action.Some? ==> forall m :: m in Act(p, ctx, peerLog, action.value).1 ==> m.message.ClearAck?
  {
  }

  lemma AcksAreOnTheAskedChannel(p: Primitives, x0: Context, y0: Context, px: Phase, py: Phase, s: Timed)
    requires Sane(p, x0, y0, px, py, s) && px.Asked?
    ensures forall j :: 0 <= j < |s.g.logY| && s.g.logY[j].message.ClearAck? ==> s.g.logY[j].channel == px.k
  {
    forall j | 0 <= j < |s.g.logY| && s.g.logY[j].message.ClearAck? ensures s.g.logY[j].channel == px.k {
      assert Sayable(p, y0, py, px, s.g.logY[j]);
    }
  }

  lemma QuietPeerHasRequest(p: Primitives, x0: Context, y0: Context, px: Phase, py: Phase, s: Timed)
    requires Sane(p, x0, y0, px, py, s) && py.Asked? && px.Quiet?
    ensures RequestPending(s.x.taken, s.g.logY)
  {
    var j :| 0 <= j < |s.g.logY| && s.g.logY[j].channel == py.k && s.g.logY[j].message.GoClear?;
    assert s.x.taken[py.k] == 0;
  }

  // An x that is not in clear and has no GoClear of y to take has asked itself.
  lemma PeerHasAsked(p: Primitives, x0: Context, y0: Context, px: Phase, py: Phase, s: Timed)
    requires Sane(p, x0, y0, px, py, s) && py.Asked? && !px.ClearedVia? && !RequestPending(s.x.taken, s.g.logY)
    ensures px.Asked?
  {
    if px.Quiet? {
      QuietPeerHasRequest(p, x0, y0, px, py, s);
    }
  }

  lemma StrandedMoveOfClear(p: Primitives, s: Timed, a: Move)
    requires Stranded(s) && AllIn(s.g.x, Clear) && InClear(s.g.x) && Follows(s.g.x, s.x, |s.g.logY|)
    ensures Stranded(Proceed(p, s, XMoves(a)))
  {
    forall k | 0 <= k < |s.g.x.channels| ensures !s.g.x.channels[k].timerOn {
      assert !s.x.timers[k].on;
    }
    SilentMove(p, s.g.x, s.x, s.g.logY, a);
    assert s.g.logX + [] == s.g.logX;
  }

  lemma SilencedIsStranded(h: Timed)
    requires Waits(h.g.y) && !AckPending(h.y.taken, h.g.logX) && |h.x.timers| == |h.g.x.channels|
    requires forall k :: 0 <= k < |h.g.x.channels| ==> h.x.timers[k].on == h.g.x.channels[k].timerOn
    requires |h.g.x.channels| > 0
    requires (AllIn(h.g.x, Clear) && TimersOff(h.g.x))
             || (Waits(h.g.x) && !RequestPending(h.x.taken, h.g.logY) && !TimerOn(h.y))
    ensures Stranded(h)
  {
    assert AllIn(h.g.x, Clear) ==> h.g.x.channels[0].mode.Clear?;
    assert Waits(h.g.x) ==> h.g.x.channels[0].mode.SendingGoClear?;
  }

  lemma IdlingStrands(s: Timed, ctx: Context, line: Line, sent: seq<Sent>)
    requires Stranded(s) && !InClear(s.g.x) && Idles(ctx, sent) && Grows(s.x.taken, line.taken)
    requires Follows(ctx, line, |s.g.logY|) && |ctx.channels| > 0
    ensures Stranded(Timed(Global(ctx, s.g.y, s.g.logX + sent, s.g.logY), line, s.y))
  {
    NothingPends(s.y.taken, s.y.taken, s.g.logX, sent);
    NothingPends(s.x.taken, line.taken, s.g.logY, []);
    assert s.g.logY + [] == s.g.logY;
    SilencedIsStranded(Timed(Global(ctx, s.g.y, s.g.logX + sent, s.g.logY), line, s.y));
  }

  lemma MoveOfX(p: Primitives, s: Timed, a: Move)
    ensures Proceed(p, s, XMoves(a)) ==
            Timed(Global(ContextAfter(p, s.g.x, s.x, s.g.logY, a), s.g.y, s.g.logX + SentBy(p, s.g.x, s.x, s.g.logY, a), s.g.logY),
                  LineAfter(p, s.g.x, s.x, s.g.logY, a), s.y)
  {
    assert s.g.logX + [] == s.g.logX;
  }

  lemma StrandedMoveOfWaiting(p: Primitives, x0: Context, y0: Context, px: Phase, py: Phase, s: Timed, a: Move)
    requires Stranded(s) && Sane(p, x0, y0, px, py, s) && px.Asked? && Waits(s.g.x) && !InClear(s.g.x)
    ensures Stranded(Proceed(p, s, XMoves(a)))
  {
    AcksAreOnTheAskedChannel(p, x0, y0, px, py, s);
    PhaseSpeaks(p, x0, px, s.g.x);
    var ctx, line, sent := ContextAfter(p, s.g.x, s.x, s.g.logY, a), LineAfter(p, s.g.x, s.x, s.g.logY, a), SentBy(p, s.g.x, s.x, s.g.logY, a);
    WaitingMove(p, x0, px, s.g.x, s.x, s.g.logY, a);
    MoveIsFollowed(p, s.g.x, s.x, s.g.logY, a);
    NumbersGrow(p, s.g.x, s.x, s.g.logY, a);
    IdlingStrands(s, ctx, line, sent);
    MoveOfX(p, s, a);
  }

  lemma StrandedMoveOfX(p: Primitives, x0: Context, y0: Context, px: Phase, py: Phase, s: Timed, a: Move)
    requires Stranded(s) && Sane(p, x0, y0, px, py, s)
    ensures Stranded(Proceed(p, s, XMoves(a)))
  {
    WaitingIsAsked(p, y0, py, s.g.y);
    PhaseMeans(p, x0, px, s.g.x);
    PhaseModes(p, x0, px, s.g.x);
    if InClear(s.g.x) {
      StrandedMoveOfClear(p, s, a);
    } else {
      PeerHasAsked(p, x0, y0, px, py, s);
      StrandedMoveOfWaiting(p, x0, y0, px, py, s, a);
    }
  }

  lemma StrandedMoveOfY(p: Primitives, s: Timed, a: Move)
    requires Stranded(s) && Follows(s.g.y, s.y, |s.g.logX|)
    ensures Stranded(Proceed(p, s, YMoves(a)))
  {
    HopelessMove(p, s.g.y, s.y, s.g.logX, a);
    NumbersGrow(p, s.g.y, s.y, s.g.logX, a);
    var action := ActionOf(s.g.y, s.y, s.g.logX, a);
    var sent := if action.Some? then Act(p, s.g.y, s.g.logX, action.value).1 else [];
    NothingPends(s.y.taken, LineAfter(p, s.g.y, s.y, s.g.logX, a).taken, s.g.logX, []);
    NothingPends(s.x.taken, s.x.taken, s.g.logY, sent);
    assert s.g.logX + [] == s.g.logX && s.g.logY + [] == s.g.logY;
  }

  /** An end that can hope for nothing never gets to clear. */
  lemma {:induction false} StrandedForever(p: Primitives, x0: Context, y0: Context, px: Phase, py: Phase, s: Timed, run: seq<Step>)
    returns (nx: Phase, ny: Phase)
    requires Sane(p, x0, y0, px, py, s) && Stranded(s)
    ensures Stranded(AfterSteps(p, s, run)) && Sane(p, x0, y0, nx, ny, AfterSteps(p, s, run))
  {
    if run == [] {
      nx, ny := px, py;
    } else {
      var h, step := AfterSteps(p, s, run[..|run| - 1]), run[|run| - 1];
      nx, ny := StrandedForever(p, x0, y0, px, py, s, run[..|run| - 1]);
      match step {
        case XMoves(a) => StrandedMoveOfX(p, x0, y0, nx, ny, h, a);
        case YMoves(a) => StrandedMoveOfY(p, h, a);
      }
      nx, ny := StepKeepsSane(p, x0, y0, nx, ny, h, step);
    }
  }

  /** Some continuation takes y to clear. */
  ghost predicate CanClear(p: Primitives, s: Timed) {
    exists more :: InClear(AfterSteps(p, s, more).g.y)
  }

  lemma StrandedNeverClears(p: Primitives, x0: Context, y0: Context, px: Phase, py: Phase, s: Timed)
    requires Sane(p, x0, y0, px, py, s) && Stranded(s)
    ensures !CanClear(p, s)
  {
    forall more ensures !InClear(AfterSteps(p, s, more).g.y) {
      var nx, ny := StrandedForever(p, x0, y0, px, py, s, more);
      WaitingIsAsked(p, y0, ny, AfterSteps(p, s, more).g.y);
      PhaseMeans(p, y0, ny, AfterSteps(p, s, more).g.y);
    }
  }

  /** From any state reached with timers that give up and packets out of order
      dropped, an end that waits for its ClearACK can still get to clear exactly
      when one that it would take is under way, or its peer, in clear, still
      repeats its own, or its peer, not in clear, would take a GoClear that is under
      way or still to be repeated. */
  lemma WaitingEndClearsIff(p: Primitives, start: Timed, run: seq<Step>)
    requires Begins(start) && Waits(AfterSteps(p, start, run).g.y)
    ensures CanClear(p, AfterSteps(p, start, run)) <==> CanBeAnswered(AfterSteps(p, start, run))
  {
    var s := AfterSteps(p, start, run);
    var px, py := RunsStaySane(p, start, run);
    if CanBeAnswered(s) {
      var more := AnswerableClears(p, start.g.x, start.g.y, px, py, s);
    } else {
      StrandedNeverClears(p, start.g.x, start.g.y, px, py, s);
    }
  }

  // ---------------------------------------------------------------------
  // Requests that cross

  /** x asked on channel k and waits; what it took and which timer is on. */
  ghost predicate Asker(p: Primitives, start: Context, k: nat, ctx: Context, line: Line) {
    && AtPhase(p, start, Asked(k), ctx) && |line.taken| == |line.timers| == |start.channels|
    && (forall c :: 0 <= c < |start.channels| ==> line.timers[c].on == ctx.channels[c].timerOn)
  }

  lemma AskingAsks(p: Primitives, s: Timed, n: nat, k: nat)
    requires AllSecure(s.g.x) && s.g.x.peerAccepts && AtRest(s.x, n) && n == |s.g.x.channels| && k < n
    ensures var h := Proceed(p, s, XMoves(Asks(k)));
            && Asker(p, s.g.x, k, h.g.x, h.x) && h.x.taken == s.x.taken && h.x.clock == s.x.clock
            && h.x.timers[k] == Timer.Armed(Timer.SendingOther, s.x.clock)
            && h.g.logX == s.g.logX + [RequestOf(p, s.g.x, k)] && h.g.y == s.g.y && h.g.logY == s.g.logY && h.y == s.y
  {
    AskingSends(p, s.g.x, s.g.logY, k);
  }

  lemma AskerAnswers(p: Primitives, x0: Context, y0: Context, k: nat, j: nat, s: Timed, n: nat)
    requires SecurePair(x0, y0) && Asker(p, x0, k, s.g.x, s.x) && j < |x0.channels|
    requires n < |s.g.logY| && s.g.logY[n] == RequestOf(p, y0, j) && s.x.taken[j] <= n
    ensures var h := Proceed(p, s, XMoves(Takes(n)));
            h.g == s.g.(logX := s.g.logX + [Sent(j, ClearAck)]) && h.x == s.x.(taken := s.x.taken[j := n + 1]) && h.y == s.y
  {
    assert SecureChannel(x0.channels[j]) && x0.channels[j].keys == y0.channels[j].keys;
  }

  lemma AskerRepeats(p: Primitives, x0: Context, k: nat, s: Timed)
    requires AllSecure(x0) && Asker(p, x0, k, s.g.x, s.x) && s.x.timers[k].on
    ensures var h := Proceed(p, s, XMoves(Iterates(k, DueTime(s.x, k))));
            && Asker(p, x0, k, h.g.x, h.x) && h.x.taken == s.x.taken && h.g.logX == s.g.logX + [RequestOf(p, x0, k)]
            && h.g.y == s.g.y && h.g.logY == s.g.logY && h.y == s.y
  {
  }

  lemma AskerClears(p: Primitives, x0: Context, k: nat, s: Timed, n: nat)
    requires AllSecure(x0) && Asker(p, x0, k, s.g.x, s.x)
    requires n < |s.g.logY| && s.g.logY[n] == Sent(k, ClearAck) && s.x.taken[k] <= n
    ensures var h := Proceed(p, s, XMoves(Takes(n)));
            && InClear(h.g.x) && h.g.x.zrtpSess == p.ratchet(x0.channels[k].hash, x0.zrtpSess) && !TimerOn(h.x)
            && h.g.logX == s.g.logX && h.g.y == s.g.y && h.g.logY == s.g.logY && h.y == s.y
  {
    var h := Proceed(p, s, XMoves(Takes(n)));
    assert h.g.x.channels[k].mode.Clear?;
    assert s.g.logX + [] == s.g.logX;
  }

  // The same for y.
  lemma AskerAnswersY(p: Primitives, x0: Context, y0: Context, k: nat, j: nat, s: Timed, n: nat)
    requires SecurePair(x0, y0) && Asker(p, y0, k, s.g.y, s.y) && j < |x0.channels|
    requires n < |s.g.logX| && s.g.logX[n] == RequestOf(p, x0, j) && s.y.taken[j] <= n
    ensures var h := Proceed(p, s, YMoves(Takes(n)));
            h.g == s.g.(logY := s.g.logY + [Sent(j, ClearAck)]) && h.y == s.y.(taken := s.y.taken[j := n + 1]) && h.x == s.x
  {
    PairMirrored(x0, y0);
    AskerAnswers(p, y0, x0, k, j, Mirrored(s), n);
    StepMirrored(p, s, YMoves(Takes(n)));
  }

  lemma AskerClearsY(p: Primitives, y0: Context, k: nat, s: Timed, n: nat)
    requires AllSecure(y0) && Asker(p, y0, k, s.g.y, s.y)
    requires n < |s.g.logX| && s.g.logX[n] == Sent(k, ClearAck) && s.y.taken[k] <= n
    ensures var h := Proceed(p, s, YMoves(Takes(n)));
            InClear(h.g.y) && h.g.y.zrtpSess == p.ratchet(y0.channels[k].hash, y0.zrtpSess) && h.g.x == s.g.x
  {
    AskerClears(p, y0, k, Mirrored(s), n);
    StepMirrored(p, s, YMoves(Takes(n)));
  }

  lemma TwoSteps(p: Primitives, s: Timed, first: Step, second: Step)
    ensures AfterSteps(p, s, [first, second]) == Proceed(p, Proceed(p, s, first), second)
  {
    assert [first] + [second] == [first, second];
    OneStep(p, s, first);
    OneStepMore(p, s, [first], second);
  }

  ghost predicate Accepting(start: Timed, i: nat, j: nat) {
    && Begins(start) && start.g.x.peerAccepts && start.g.y.peerAccepts && i < |start.g.x.channels| && j < |start.g.x.channels|
  }

  /** Both ask before they hear from each other, x on channel i and y on channel j. */
  lemma BothAsk(p: Primitives, start: Timed, i: nat, j: nat) returns (h: Timed)
    requires Accepting(start, i, j)
    ensures h == AfterSteps(p, start, [XMoves(Asks(i)), YMoves(Asks(j))])
    ensures Asker(p, start.g.x, i, h.g.x, h.x) && Asker(p, start.g.y, j, h.g.y, h.y)
    ensures h.g.logX == [RequestOf(p, start.g.x, i)] && h.g.logY == [RequestOf(p, start.g.y, j)]
    ensures h.x.taken == start.x.taken && h.y.taken == start.y.taken && h.x.timers[i].on
    ensures h.y.timers[j] == Timer.Armed(Timer.SendingOther, start.y.clock)
  {
    AskingAsks(p, start, |start.g.x.channels|, i);
    var between := Proceed(p, start, XMoves(Asks(i)));
    AskingAsks(p, Mirrored(between), |start.g.x.channels|, j);
    StepMirrored(p, between, YMoves(Asks(j)));
    TwoSteps(p, start, XMoves(Asks(i)), YMoves(Asks(j)));
    h := Proceed(p, between, YMoves(Asks(j)));
  }

  /** Both answer, and each is cleared by the answer to its own request. */
  lemma BothClear(p: Primitives, start: Timed, s: Timed, i: nat, j: nat) returns (run: seq<Step>)
    requires Accepting(start, i, j)
    requires Asker(p, start.g.x, i, s.g.x, s.x) && Asker(p, start.g.y, j, s.g.y, s.y)
    requires s.g.logX == [RequestOf(p, start.g.x, i)] && s.g.logY == [RequestOf(p, start.g.y, j)]
    requires s.x.taken == start.x.taken && s.y.taken == start.y.taken
    ensures var h := AfterSteps(p, s, run);
            && InClear(h.g.x) && InClear(h.g.y)
            && h.g.x.zrtpSess == p.ratchet(start.g.x.channels[i].hash, start.g.x.zrtpSess)
            && h.g.y.zrtpSess == p.ratchet(start.g.x.channels[j].hash, start.g.x.zrtpSess)
  {
    AskerAnswers(p, start.g.x, start.g.y, i, j, s, 0);
    var s1 := Proceed(p, s, XMoves(Takes(0)));
    AskerAnswersY(p, start.g.x, start.g.y, j, i, s1, 0);
    var s2 := Proceed(p, s1, YMoves(Takes(0)));
    AskerClears(p, start.g.x, i, s2, 1);
    var s3 := Proceed(p, s2, XMoves(Takes(1)));
    AskerClearsY(p, start.g.y, j, s3, 1);
    TwoSteps(p, s, XMoves(Takes(0)), YMoves(Takes(0)));
    TwoSteps(p, s2, XMoves(Takes(1)), YMoves(Takes(1)));
    StepsAdd(p, s, [XMoves(Takes(0)), YMoves(Takes(0))], [XMoves(Takes(1)), YMoves(Takes(1))]);
    run := [XMoves(Takes(0)), YMoves(Takes(0))] + [XMoves(Takes(1)), YMoves(Takes(1))];
  }

  /** Requests that cross on two channels: each end ratchets under the hash of the
      channel it asked on. */
  lemma CrossedRequestsRatchetApart(p: Primitives, start: Timed, i: nat, j: nat) returns (run: seq<Step>)
    requires Accepting(start, i, j)
    ensures var g := AfterSteps(p, start, run).g;
            && InClear(g.x) && InClear(g.y)
            && g.x.zrtpSess == p.ratchet(start.g.x.channels[i].hash, start.g.x.zrtpSess)
            && g.y.zrtpSess == p.ratchet(start.g.x.channels[j].hash, start.g.x.zrtpSess)
  {
    var h := BothAsk(p, start, i, j);
    var rest := BothClear(p, start, h, i, j);
    StepsAdd(p, start, [XMoves(Asks(i)), YMoves(Asks(j))], rest);
    run := [XMoves(Asks(i)), YMoves(Asks(j))] + rest;
  }

  /** A run leaves both ends in clear with different session keys. */
  predicate Diverges(p: Primitives, start: Timed, run: seq<Step>) {
    var g := AfterSteps(p, start, run).g;
    InClear(g.x) && InClear(g.y) && g.x.zrtpSess != g.y.zrtpSess
  }

  lemma AgreeingRatchetsNeverDiverge(p: Primitives, start: Timed, run: seq<Step>)
    requires Begins(start) && RatchetsAgree(p, start.g.x)
    ensures !Diverges(p, start, run)
  {
    if Diverges(p, start, run) {
      TimedRunsAreRuns(p, start, run);
      assert start.g == Global(start.g.x, start.g.y, [], []);
      SessionKeysAgree(p, start.g.x, start.g.y, RunOf(p, start, run));
    }
  }

  /** Between ends that accept to go clear, the new session keys agree in every run
      exactly when the hashes of all channels ratchet the session key alike: when
      all channels negotiated one hash, unless two hashes collide on it. */
  lemma SessionKeysAgreeIff(p: Primitives, start: Timed)
    requires Begins(start) && start.g.x.peerAccepts && start.g.y.peerAccepts
    ensures (forall run :: !Diverges(p, start, run)) <==> RatchetsAgree(p, start.g.x)
    ensures HashesRatchetApart(p, start.g.x.zrtpSess) ==> ((forall run :: !Diverges(p, start, run)) <==> OneHash(start.g.x))
  {
    var x0 := start.g.x;
    if RatchetsAgree(p, x0) {
      forall run ensures !Diverges(p, start, run) {
        AgreeingRatchetsNeverDiverge(p, start, run);
      }
    } else {
      var i, j :| 0 <= i < |x0.channels| && 0 <= j < |x0.channels|
                  && p.ratchet(x0.channels[i].hash, x0.zrtpSess) != p.ratchet(x0.channels[j].hash, x0.zrtpSess);
      var run := CrossedRequestsRatchetApart(p, start, i, j);
      assert Diverges(p, start, run);
    }
  }

  // ---------------------------------------------------------------------
  // Ends that wait for ever

  lemma AskerWaits(p: Primitives, start: Context, k: nat, ctx: Context, line: Line)
    requires Asker(p, start, k, ctx, line) && |start.channels| > 0
    ensures Waits(ctx) && !InClear(ctx)
  {
  }

  /** Two requests cross and one of the ends is answered, and goes to clear, before
      the other's request reaches it: it will answer no more. */
  lemma CrossedRequestsStrand(p: Primitives, start: Timed, i: nat, j: nat) returns (run: seq<Step>)
    requires Accepting(start, i, j)
    ensures var s := AfterSteps(p, start, run); Stranded(s) && InClear(s.g.x)
  {
    var h := BothAsk(p, start, i, j);
    AskerAnswersY(p, start.g.x, start.g.y, j, i, h, 0);
    var s1 := Proceed(p, h, YMoves(Takes(0)));
    AskerClears(p, start.g.x, i, s1, 1);
    AskerWaits(p, start.g.y, j, s1.g.y, s1.y);
    TwoSteps(p, h, YMoves(Takes(0)), XMoves(Takes(1)));
    StepsAdd(p, start, [XMoves(Asks(i)), YMoves(Asks(j))], [YMoves(Takes(0)), XMoves(Takes(1))]);
    run := [XMoves(Asks(i)), YMoves(Asks(j))] + [YMoves(Takes(0)), XMoves(Takes(1))];
  }

  /** Two requests cross on one channel; x answers, repeats its own request, and the
      repetition reaches y before the answer, which y drops. Then x is answered, and
      answers no more. */
  lemma OvertakenAckStrands(p: Primitives, start: Timed, k: nat) returns (run: seq<Step>)
    requires Accepting(start, k, k)
    ensures var s := AfterSteps(p, start, run);
            Stranded(s) && InClear(s.g.x) && exists n :: 0 <= n < |s.g.logX| && s.g.logX[n] == Sent(k, ClearAck)
  {
    var asks := [XMoves(Asks(k)), YMoves(Asks(k))];
    var h := BothAsk(p, start, k, k);
    var s1, repeat := OvertakingRun(p, start, k, h);
    var end := OvertakenRun(p, start, k, s1);
    StepsAdd(p, h, repeat, end);
    StepsAdd(p, start, asks, repeat + end);
    run := asks + (repeat + end);
  }

  // y takes the repetition, then x takes the answer to its own request.
  lemma OvertakenRun(p: Primitives, start: Timed, k: nat, s: Timed) returns (run: seq<Step>)
    requires Accepting(start, k, k)
    requires Asker(p, start.g.x, k, s.g.x, s.x) && Asker(p, start.g.y, k, s.g.y, s.y)
    requires s.g.logX == [RequestOf(p, start.g.x, k), Sent(k, ClearAck), RequestOf(p, start.g.x, k)]
    requires s.g.logY == [RequestOf(p, start.g.y, k)] && s.x.taken[k] == 1 && s.y.taken[k] == 0
    ensures var h := AfterSteps(p, s, run);
            Stranded(h) && InClear(h.g.x) && exists n :: 0 <= n < |h.g.logX| && h.g.logX[n] == Sent(k, ClearAck)
  {
    AskerAnswersY(p, start.g.x, start.g.y, k, k, s, 2);
    var s1 := Proceed(p, s, YMoves(Takes(2)));
    AskerClears(p, start.g.x, k, s1, 1);
    AskerWaits(p, start.g.y, k, s1.g.y, s1.y);
    DroppedAckStrands(Proceed(p, s1, XMoves(Takes(1))), k);
    TwoSteps(p, s, YMoves(Takes(2)), XMoves(Takes(1)));
    run := [YMoves(Takes(2)), XMoves(Takes(1))];
  }

  lemma DroppedAckStrands(s: Timed, k: nat)
    requires Waits(s.g.y) && InClear(s.g.x) && !TimerOn(s.x) && k < |s.y.taken| && s.y.taken[k] > 1
    requires |s.g.logX| == 3 && s.g.logX[0].message.GoClear? && s.g.logX[1] == Sent(k, ClearAck) && s.g.logX[2].message.GoClear?
    ensures Stranded(s) && exists n :: 0 <= n < |s.g.logX| && s.g.logX[n] == Sent(k, ClearAck)
  {
    assert s.g.logX[1] == Sent(k, ClearAck);
  }

  // x answers y's request, then repeats its own.
  lemma OvertakingRun(p: Primitives, start: Timed, k: nat, s: Timed) returns (h: Timed, run: seq<Step>)
    requires Accepting(start, k, k)
    requires Asker(p, start.g.x, k, s.g.x, s.x) && Asker(p, start.g.y, k, s.g.y, s.y) && s.x.timers[k].on
    requires s.g.logX == [RequestOf(p, start.g.x, k)] && s.g.logY == [RequestOf(p, start.g.y, k)]
    requires s.x.taken == start.x.taken && s.y.taken == start.y.taken
    ensures h == AfterSteps(p, s, run) && Asker(p, start.g.x, k, h.g.x, h.x) && h.g.y == s.g.y && h.y == s.y
    ensures h.g.logX == [RequestOf(p, start.g.x, k), Sent(k, ClearAck), RequestOf(p, start.g.x, k)] && h.g.logY == s.g.logY
    ensures h.x.taken[k] == 1 && h.y.taken[k] == 0
  {
    AskerAnswers(p, start.g.x, start.g.y, k, k, s, 0);
    var s1 := Proceed(p, s, XMoves(Takes(0)));
    var due := Iterates(k, DueTime(s1.x, k));
    AskerRepeats(p, start.g.x, k, s1);
    TwoSteps(p, s, XMoves(Takes(0)), XMoves(due));
    h, run := Proceed(p, s1, XMoves(due)), [XMoves(Takes(0)), XMoves(due)];
  }

  lemma AskerRepeatsY(p: Primitives, y0: Context, k: nat, s: Timed)
    requires AllSecure(y0) && Asker(p, y0, k, s.g.y, s.y) && s.y.timers[k].on
    requires Timer.Counting(Timer.Channel(Timer.SendingOther, s.y.timers[k]))
    ensures var h := Proceed(p, s, YMoves(Iterates(k, DueTime(s.y, k))));
            && Asker(p, y0, k, h.g.y, h.y) && h.y.taken == s.y.taken && h.g.logY == s.g.logY + [RequestOf(p, y0, k)]
            && h.g.x == s.g.x && h.g.logX == s.g.logX && h.x == s.x
            && Timer.Counting(Timer.Channel(Timer.SendingOther, h.y.timers[k]))
            && Timer.Left(Timer.Channel(Timer.SendingOther, h.y.timers[k])) < Timer.Left(Timer.Channel(Timer.SendingOther, s.y.timers[k]))
  {
    AskerRepeats(p, y0, k, Mirrored(s));
    StepMirrored(p, s, YMoves(Iterates(k, DueTime(s.y, k))));
    Timer.OneEvent(Timer.Channel(Timer.SendingOther, s.y.timers[k]), Timer.Passes(DueTime(s.y, k)));
  }

  /** y repeats its request until its timer gives up, and x hears nothing of it. */
  lemma {:induction false} RepeatsUntilSilent(p: Primitives, y0: Context, k: nat, s: Timed) returns (run: seq<Step>, h: Timed)
    requires AllSecure(y0) && Asker(p, y0, k, s.g.y, s.y) && Timer.Counting(Timer.Channel(Timer.SendingOther, s.y.timers[k]))
    requires s.g.logY != [] && forall n :: 0 <= n < |s.g.logY| ==> s.g.logY[n] == RequestOf(p, y0, k)
    ensures h == AfterSteps(p, s, run) && Asker(p, y0, k, h.g.y, h.y) && !h.y.timers[k].on && h.y.taken == s.y.taken
    ensures h.g.x == s.g.x && h.g.logX == s.g.logX && h.x == s.x
    ensures h.g.logY != [] && forall n :: 0 <= n < |h.g.logY| ==> h.g.logY[n] == RequestOf(p, y0, k)
    decreases Timer.Left(Timer.Channel(Timer.SendingOther, s.y.timers[k]))
  {
    if !s.y.timers[k].on {
      run, h := [], s;
    } else {
      var step := YMoves(Iterates(k, DueTime(s.y, k)));
      AskerRepeatsY(p, y0, k, s);
      OneStep(p, s, step);
      var rest;
      rest, h := RepeatsUntilSilent(p, y0, k, Proceed(p, s, step));
      StepsAdd(p, s, [step], rest);
      run := [step] + rest;
    }
  }

  lemma SilentEndIsStranded(p: Primitives, x0: Context, y0: Context, k: nat, s: Timed)
    requires Asker(p, x0, k, s.g.x, s.x) && Asker(p, y0, k, s.g.y, s.y) && |x0.channels| > 0 && |y0.channels| > 0
    requires !s.y.timers[k].on && s.y.taken[k] > 1 && s.x.taken[k] == |s.g.logY| - 1
    requires forall n :: 0 <= n < |s.g.logY| ==> s.g.logY[n].channel == k && (n == |s.g.logY| - 1 ==> s.g.logY[n].message.ClearAck?)
    requires |s.g.logX| == 3 && s.g.logX[0].message.GoClear? && s.g.logX[1] == Sent(k, ClearAck) && s.g.logX[2].message.GoClear?
    ensures Stranded(s) && !InClear(s.g.x)
  {
    AskerWaits(p, x0, k, s.g.x, s.x);
    AskerWaits(p, y0, k, s.g.y, s.y);
  }

  // x takes the last request of y, answers, repeats its own, and y takes that first.
  lemma LastAckIsOvertaken(p: Primitives, start: Timed, k: nat, s: Timed) returns (run: seq<Step>)
    requires Accepting(start, k, k)
    requires Asker(p, start.g.x, k, s.g.x, s.x) && Asker(p, start.g.y, k, s.g.y, s.y) && s.x.timers[k].on && !s.y.timers[k].on
    requires s.g.logX == [RequestOf(p, start.g.x, k)] && s.x.taken[k] == 0 && s.y.taken[k] == 0
    requires s.g.logY != [] && forall n :: 0 <= n < |s.g.logY| ==> s.g.logY[n] == RequestOf(p, start.g.y, k)
    ensures var h := AfterSteps(p, s, run); Stranded(h) && !InClear(h.g.x)
  {
    var last := |s.g.logY| - 1;
    AskerAnswers(p, start.g.x, start.g.y, k, k, s, last);
    var s1 := Proceed(p, s, XMoves(Takes(last)));
    var due := Iterates(k, DueTime(s1.x, k));
    AskerRepeats(p, start.g.x, k, s1);
    var s2 := Proceed(p, s1, XMoves(due));
    AskerAnswersY(p, start.g.x, start.g.y, k, k, s2, 2);
    var s3 := Proceed(p, s2, YMoves(Takes(2)));
    SilentEndIsStranded(p, start.g.x, start.g.y, k, s3);
    TwoSteps(p, s, XMoves(Takes(last)), XMoves(due));
    OneStepMore(p, s, [XMoves(Takes(last)), XMoves(due)], YMoves(Takes(2)));
    run := [XMoves(Takes(last)), XMoves(due)] + [YMoves(Takes(2))];
  }

  /** The peer need not be in clear: y sends its last request, the answer is overtaken
      by a request of x, and y has no other to send. */
  lemma LastRequestStrands(p: Primitives, start: Timed, k: nat) returns (run: seq<Step>)
    requires Accepting(start, k, k)
    ensures var s := AfterSteps(p, start, run); Stranded(s) && !InClear(s.g.x)
  {
    var asks := [XMoves(Asks(k)), YMoves(Asks(k))];
    var h := BothAsk(p, start, k, k);
    var repeats, silent := RepeatsUntilSilent(p, start.g.y, k, h);
    var end := LastAckIsOvertaken(p, start, k, silent);
    StepsAdd(p, h, repeats, end);
    StepsAdd(p, start, asks, repeats + end);
    run := asks + (repeats + end);
  }
}
