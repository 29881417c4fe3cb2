/** The retransmission timer of a channel: bzrtp_iterate and
    bzrtp_resetRetransmissionTimer of src/bzrtp.c, with the timer branches of the
    state functions of src/stateMachine.c. */
module Timer {

  const HELLO_BASE_RETRANSMISSION_STEP := 50
  const HELLO_CAP_RETRANSMISSION_STEP := 200
  const HELLO_MAX_RETRANSMISSION_NUMBER := 20
  const NON_HELLO_BASE_RETRANSMISSION_STEP := 150
  const NON_HELLO_CAP_RETRANSMISSION_STEP := 1200
  const NON_HELLO_MAX_RETRANSMISSION_NUMBER := 10
  const CLEARACK_BASE_RETRANSMISSION_STEP := 5000
  const CLEARACK_MAX_RETRANSMISSION_NUMBER := 20

  type uint8 = n: nat | n < 256

  datatype Timer = Timer(on: bool, firingTime: nat, firingCount: uint8, timerStep: nat)

  /** What a state function does on a timer event: the states that send Hellos, those
      that send a Commit, a DHPart2, a Confirm2 or a GoClear, the clear state, and
      those with no timer branch. */
  datatype Phase = SendingHello | SendingOther | Clear | Deaf

  function Base(phase: Phase): nat
    requires !phase.Deaf?
  {
    match phase
    case SendingHello => HELLO_BASE_RETRANSMISSION_STEP
    case SendingOther => NON_HELLO_BASE_RETRANSMISSION_STEP
    case Clear => CLEARACK_BASE_RETRANSMISSION_STEP
  }

  function Cap(phase: Phase): nat
    requires !phase.Deaf?
  {
    match phase
    case SendingHello => HELLO_CAP_RETRANSMISSION_STEP
    case SendingOther => NON_HELLO_CAP_RETRANSMISSION_STEP
    case Clear => CLEARACK_BASE_RETRANSMISSION_STEP
  }

  function MaxRetransmissions(phase: Phase): nat
    requires !phase.Deaf?
  {
    match phase
    case SendingHello => HELLO_MAX_RETRANSMISSION_NUMBER
    case SendingOther => NON_HELLO_MAX_RETRANSMISSION_NUMBER
    case Clear => CLEARACK_MAX_RETRANSMISSION_NUMBER
  }

  /** The steps a phase goes through. */
  function Steps(phase: Phase): set<nat> {
    match phase
    case SendingHello => {50, 100, 200}
    case SendingOther => {150, 300, 600, 1200}
    case Clear => {5000}
    case Deaf => {}
  }

  predicate Fires(t: Timer, now: nat) {
    t.on && t.firingTime <= now
  }

  /** The timer branch of a state function: the clear state does not double the
      step. */
  function OnTimer(phase: Phase, t: Timer, now: nat): Timer {
    if phase.Deaf? then t
    else if t.firingCount > MaxRetransmissions(phase) then t.(on := false)
    else
      var step := if !phase.Clear? && 2 * t.timerStep <= Cap(phase) then 2 * t.timerStep else t.timerStep;
      t.(timerStep := step, firingTime := now + step)
  }

  /** bzrtp_iterate. firingCount is on eight bits. */
  function Iterate(phase: Phase, t: Timer, now: nat): Timer {
    if Fires(t, now) then OnTimer(phase, t.(firingCount := (t.firingCount + 1) % 256), now) else t
  }

  /** The timer set on entering a sending state; Hellos start at the next tick. */
  function Armed(phase: Phase, now: nat): Timer
    requires !phase.Deaf?
  {
    Timer(true, if phase.SendingHello? then 0 else now + Base(phase), 0, Base(phase))
  }

  /** bzrtp_resetRetransmissionTimer: -1 is 255 on eight bits. */
  function Reset(isSecure: bool, isInitiator: bool, t: Timer): Timer {
    if isSecure || !isInitiator then t
    else
      Timer(true, 0, 255, if t.timerStep % NON_HELLO_BASE_RETRANSMISSION_STEP == 0 then NON_HELLO_BASE_RETRANSMISSION_STEP
                          else HELLO_BASE_RETRANSMISSION_STEP)
  }

  // ---------------------------------------------------------------------
  // In place

  class RetransmissionTimer {
    var status: bool
    var firingTime: nat
    var firingCount: uint8
    var timerStep: nat

    function Contents(): Timer
      reads this
    {
      Timer(status, firingTime, firingCount, timerStep)
    }

    /** As bzrtp_initChannelContext leaves it. */
    constructor ()
      ensures Contents() == Timer(false, 0, 0, HELLO_BASE_RETRANSMISSION_STEP)
    {
      status, firingTime, firingCount, timerStep := false, 0, 0, HELLO_BASE_RETRANSMISSION_STEP;
    }

    method Tick(phase: Phase, now: nat) returns (fired: bool)
      modifies this
      ensures fired == Fires(old(Contents()), now) && Contents() == Iterate(phase, old(Contents()), now)
    {
      fired := status && firingTime <= now;
      if fired {
        firingCount := if firingCount == 255 then 0 else firingCount + 1;
        if !phase.Deaf? {
          if firingCount <= MaxRetransmissions(phase) {
            if !phase.Clear? && 2 * timerStep <= Cap(phase) {
              timerStep := timerStep * 2;
            }
            firingTime := now + timerStep;
          } else {
            status := false;
          }
        }
      }
    }

    method ResetRetransmissionTimer(isSecure: bool, isInitiator: bool)
      modifies this
      ensures Contents() == Reset(isSecure, isInitiator, old(Contents()))
    {
      if !isSecure && isInitiator {
        status := true;
        firingTime := 0;
        firingCount := 255;
        if timerStep % NON_HELLO_BASE_RETRANSMISSION_STEP == 0 {
          timerStep := NON_HELLO_BASE_RETRANSMISSION_STEP;
        } else {
          timerStep := HELLO_BASE_RETRANSMISSION_STEP;
        }
      }
    }
  }

  // ---------------------------------------------------------------------
  // The base step is recovered

  /** The "mod 150" test of the reset finds the base step of the phase, whichever
      step the phase has reached, except in the clear state, whose step it takes for
      one of a Hello. */
  lemma ResetRecoversBaseIff(phase: Phase, t: Timer)
    requires !phase.Deaf? && t.timerStep in Steps(phase)
    ensures Reset(false, true, t).timerStep == Base(phase) <==> !phase.Clear?
  {
  }

  // ---------------------------------------------------------------------
  // Runs

  /** What happens to the timer of a channel: time passes, the channel enters a
      sending state or leaves one, or the application resets the timer. */
  datatype Event = Passes(now: nat) | Enters(phase: Phase, now: nat) | Leaves | Resets

  datatype Channel = Channel(phase: Phase, timer: Timer)

  function Happen(s: Channel, e: Event): Channel {
    match e
    case Passes(now) => s.(timer := Iterate(s.phase, s.timer, now))
    case Enters(phase, now) => if phase.Deaf? then s else Channel(phase, Armed(phase, now))
    case Leaves => Channel(Deaf, s.timer.(on := false))
    case Resets => s.(timer := Reset(false, true, s.timer))
  }

  function After(s: Channel, run: seq<Event>): Channel {
    if run == [] then s else Happen(After(s, run[..|run| - 1]), run[|run| - 1])
  }

  /** How often the timer fired, each time sending a packet. */
  function Firings(s: Channel, run: seq<Event>): nat {
    if run == [] then 0
    else
      var front, e := run[..|run| - 1], run[|run| - 1];
      Firings(s, front) + if e.Passes? && Fires(After(s, front).timer, e.now) then 1 else 0
  }

  /** How often the timer can still fire in its phase. */
  function Left(s: Channel): nat {
    if !s.timer.on || s.phase.Deaf? then 0
    else if s.timer.firingCount == 255 then MaxRetransmissions(s.phase) + 2
    else if s.timer.firingCount > MaxRetransmissions(s.phase) then 1
    else MaxRetransmissions(s.phase) + 1 - s.timer.firingCount
  }

  /** The firings an event brings. */
  function Allowance(s: Channel, e: Event): nat {
    match e
    case Enters(phase, now) => if phase.Deaf? then 0 else MaxRetransmissions(phase) + 1
    case Resets => if s.phase.Deaf? then 0 else MaxRetransmissions(s.phase) + 2
    case _ => 0
  }

  function Allowances(s: Channel, run: seq<Event>): nat {
    if run == [] then 0 else Allowances(s, run[..|run| - 1]) + Allowance(After(s, run[..|run| - 1]), run[|run| - 1])
  }

  /** Where the timer is while it counts, and where resets are made. */
  predicate Counting(s: Channel) {
    && (s.phase.Deaf? ==> !s.timer.on)
    && (!s.phase.Deaf? && s.timer.on ==> s.timer.firingCount <= MaxRetransmissions(s.phase) || s.timer.firingCount == 255)
    && (!s.phase.Deaf? ==> s.timer.timerStep in Steps(s.phase))
  }

  /** A reset is proper in a state that sends Hellos, Commits, DHPart2s, Confirm2s or
      GoClears. */
  predicate ProperReset(s: Channel, e: Event) {
    e.Resets? ==> s.phase.SendingHello? || s.phase.SendingOther?
  }

  predicate ProperRun(s: Channel, run: seq<Event>) {
    forall k :: 0 <= k < |run| ==> ProperReset(After(s, run[..k]), run[k])
  }

  lemma OneEvent(s: Channel, e: Event)
    requires Counting(s) && ProperReset(s, e)
    ensures Counting(Happen(s, e))
    ensures Left(Happen(s, e)) + (if e.Passes? && Fires(s.timer, e.now) then 1 else 0) <= Left(s) + Allowance(s, e)
    ensures e.Passes? ==> Left(Happen(s, e)) + (if Fires(s.timer, e.now) then 1 else 0) == Left(s)
    ensures e.Passes? ==> Happen(s, e).timer.timerStep >= s.timer.timerStep
  {
  }

  lemma ProperFront(s: Channel, run: seq<Event>)
    requires ProperRun(s, run) && run != []
    ensures ProperRun(s, run[..|run| - 1]) && ProperReset(After(s, run[..|run| - 1]), run[|run| - 1])
  {
    var front := run[..|run| - 1];
    forall k | 0 <= k < |front| ensures ProperReset(After(s, front[..k]), front[k]) {
      assert front[..k] == run[..k];
    }
  }

  /** Over any run the timer sends no more packets than the states entered and the
      resets made allow: 21 for a state that sends Hellos, 11 for one that sends
      Commits, DHPart2s or Confirm2s, one more after a reset. Steps stay those of
      the phase. */
  lemma {:induction false} FiringsAreBounded(s: Channel, run: seq<Event>)
    requires Counting(s) && ProperRun(s, run)
    ensures Counting(After(s, run))
    ensures Firings(s, run) + Left(After(s, run)) <= Left(s) + Allowances(s, run)
  {
    if run != [] {
      ProperFront(s, run);
      FiringsAreBounded(s, run[..|run| - 1]);
      OneEvent(After(s, run[..|run| - 1]), run[|run| - 1]);
    }
  }

  predicate OnlyTimePasses(run: seq<Event>) {
    forall k :: 0 <= k < |run| ==> run[k].Passes?
  }

  /** While only time passes, each firing takes one from what is left, so a state
      entered afresh sends exactly its number of packets before the timer is off,
      and the step never shrinks. */
  lemma {:induction false} EachFiringCounts(s: Channel, run: seq<Event>)
    requires Counting(s) && OnlyTimePasses(run)
    ensures Counting(After(s, run)) && After(s, run).phase == s.phase
    ensures Firings(s, run) + Left(After(s, run)) == Left(s)
    ensures !s.phase.Deaf? ==> (After(s, run).timer.on <==> s.timer.on && Firings(s, run) < Left(s))
    ensures After(s, run).timer.timerStep >= s.timer.timerStep
  {
    if run != [] {
      EachFiringCounts(s, run[..|run| - 1]);
      OneEvent(After(s, run[..|run| - 1]), run[|run| - 1]);
    }
  }

  /** A state entered afresh: the timer turns off with its last packet, the 21st for
      a Hello or a ClearACK, the 11th for the others. */
  lemma AStateSends(phase: Phase, now: nat, run: seq<Event>)
    requires !phase.Deaf? && OnlyTimePasses(run)
    ensures var s := Channel(phase, Armed(phase, now));
            var limit := if phase.SendingOther? then 11 else 21;
            Firings(s, run) <= limit && (After(s, run).timer.on <==> Firings(s, run) < limit)
  {
    EachFiringCounts(Channel(phase, Armed(phase, now)), run);
  }

  /** Ticks late enough for each to find the timer due. */
  predicate LateTicks(s: Channel, run: seq<Event>)
    requires !s.phase.Deaf?
  {
    && OnlyTimePasses(run)
    && (run != [] ==> s.timer.firingTime <= run[0].now)
    && forall k :: 0 < k < |run| ==> run[k - 1].now + Cap(s.phase) <= run[k].now
  }

  lemma {:induction false} LateTicksFire(s: Channel, run: seq<Event>)
    requires Counting(s) && !s.phase.Deaf? && s.timer.on && LateTicks(s, run)
    ensures Firings(s, run) == if |run| <= Left(s) then |run| else Left(s)
    ensures var t := After(s, run).timer; t.on && run != [] ==> t.firingTime <= run[|run| - 1].now + Cap(s.phase)
  {
    EachFiringCounts(s, run);
    if run != [] {
      var front := run[..|run| - 1];
      LateTicksFire(s, front);
      EachFiringCounts(s, front);
      OneEvent(After(s, front), run[|run| - 1]);
    }
  }

  /** The timer gives up: after as many late ticks as packets are left, it is off. */
  lemma TheTimerGivesUp(s: Channel, run: seq<Event>)
    requires Counting(s) && !s.phase.Deaf? && s.timer.on && LateTicks(s, run) && |run| >= Left(s)
    ensures !After(s, run).timer.on && Firings(s, run) == Left(s)
  {
    LateTicksFire(s, run);
    EachFiringCounts(s, run);
  }

  /** A state without a timer branch never turns off a timer that the application
      resets: it fires at every tick, on a count that wraps, and sends nothing. */
  lemma {:induction false} DeafStatesNeverStop(t: Timer, run: seq<Event>)
    requires OnlyTimePasses(run)
    ensures var s := Channel(Deaf, Reset(false, true, t));
            After(s, run).timer.on && Firings(s, run) == |run|
  {
    if run != [] {
      DeafStaysOn(Channel(Deaf, Reset(false, true, t)), run);
    }
  }

  lemma {:induction false} DeafStaysOn(s: Channel, run: seq<Event>)
    requires s.phase.Deaf? && s.timer.on && s.timer.firingTime == 0 && OnlyTimePasses(run)
    ensures var r := After(s, run); r.phase.Deaf? && r.timer.on && r.timer.firingTime == 0
    ensures Firings(s, run) == |run|
  {
    if run != [] {
      DeafStaysOn(s, run[..|run| - 1]);
    }
  }
}
