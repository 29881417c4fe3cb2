/** Going to clear and the session key ratchet: state_secure, state_sending_GoClear
    and state_clear of src/stateMachine.c on all the channels of two contexts. */
module GoClear {
  import opened Octets

  const PARSER_ERROR_UNEXPECTEDMESSAGE := 0xa200
  const ERROR_INVALIDCLEARMAC := 0x1000
  const ERROR_PEERDOESNTACCEPTGOCLEAR := 0x2000

  datatype Mode = Secure | SendingGoClear | Clear

  datatype MacKeys = MacKeys(initiator: Bytes, responder: Bytes)

  datatype Channel = Channel(mode: Mode, isSecure: bool, isClear: bool, isInitiator: bool, keys: Option<MacKeys>,
                             hash: byte, timerOn: bool)

  /** The open channels of a context, and its session key. */
  datatype Context = Context(channels: seq<Channel>, zrtpSess: Bytes, selfAccepts: bool, peerAccepts: bool)

  datatype Message = GoClear(mac: Bytes) | ClearAck

  /** The MAC of the string "GoClear ", and the derivation of a new ZRTPSess, under
      the hash of a channel. */
  datatype Primitives = Primitives(clearMac: (byte, Bytes) -> Bytes, ratchet: (byte, Bytes) -> Bytes)

  /** What an end does on an event: its new context, a message sent on the channel of
      the event and the code returned. */
  datatype Outcome = Outcome(next: Context, sent: Option<Message>, code: int)

  // ---------------------------------------------------------------------
  // State functions

  function MacOf(p: Primitives, channel: Channel, byInitiator: bool): Bytes
    requires channel.keys.Some?
  {
    p.clearMac(channel.hash, if byInitiator then channel.keys.value.initiator else channel.keys.value.responder)
  }

  function WithMode(channels: seq<Channel>, mode: Mode): (r: seq<Channel>)
    ensures |r| == |channels|
  {
    seq(|channels|, k requires 0 <= k < |channels| => channels[k].(mode := mode))
  }

  function ClearedChannel(channel: Channel): Channel {
    channel.(mode := Clear, isSecure := false, isClear := true, isInitiator := true, keys := None)
  }

  function ClearedChannels(channels: seq<Channel>): (r: seq<Channel>)
    ensures |r| == |channels|
  {
    seq(|channels|, k requires 0 <= k < |channels| => ClearedChannel(channels[k]))
  }

  function SetTimer(channels: seq<Channel>, k: nat, on: bool): (r: seq<Channel>)
    requires k < |channels|
    ensures |r| == |channels|
  {
    channels[k := channels[k].(timerOn := on)]
  }

  /** The passage of all channels to clear on an event of channel k, whose hash
      ratchets the session key. */
  function Cleared(p: Primitives, ctx: Context, k: nat, timerOn: bool): Context
    requires k < |ctx.channels|
  {
    ctx.(channels := ClearedChannels(SetTimer(ctx.channels, k, timerOn)), zrtpSess := p.ratchet(ctx.channels[k].hash, ctx.zrtpSess))
  }

  /** The application asks channel k to go clear. */
  function Ask(p: Primitives, ctx: Context, k: nat): Outcome
    requires k < |ctx.channels| && ctx.channels[k].keys.Some?
  {
    var channel := ctx.channels[k];
    if !channel.mode.Secure? then Outcome(ctx, None, 0)
    else if !ctx.peerAccepts then Outcome(ctx, None, ERROR_PEERDOESNTACCEPTGOCLEAR)
    else
      var sending := WithMode(ctx.channels, SendingGoClear);
      Outcome(ctx.(channels := SetTimer(sending, k, true)), Some(GoClear(MacOf(p, channel, channel.isInitiator))), 0)
  }

  /** A message on channel k. The peer's GoClear carries the MAC of the other
      role. */
  function OnMessage(p: Primitives, ctx: Context, k: nat, m: Message): Outcome
    requires k < |ctx.channels|
  {
    var channel := ctx.channels[k];
    match channel.mode
    case Secure =>
      if m.ClearAck? || !ctx.selfAccepts || channel.keys.None? then Outcome(ctx, None, PARSER_ERROR_UNEXPECTEDMESSAGE)
      else if m.mac != MacOf(p, channel, !channel.isInitiator) then Outcome(ctx, None, ERROR_INVALIDCLEARMAC)
      else Outcome(Cleared(p, ctx, k, true), Some(ClearAck), 0)
    case SendingGoClear =>
      if m.ClearAck? then Outcome(Cleared(p, ctx, k, false), None, 0)
      else if channel.keys.None? then Outcome(ctx, None, PARSER_ERROR_UNEXPECTEDMESSAGE)
      else if m.mac != MacOf(p, channel, !channel.isInitiator) then Outcome(ctx, None, ERROR_INVALIDCLEARMAC)
      else Outcome(ctx, Some(ClearAck), 0)
    case Clear => Outcome(ctx, None, PARSER_ERROR_UNEXPECTEDMESSAGE)
  }

  /** A timer tick on channel k resends its GoClear, or its ClearACK; gives up tells
      if it was the last. */
  function OnTimer(p: Primitives, ctx: Context, k: nat, givesUp: bool): Outcome
    requires k < |ctx.channels|
  {
    var channel := ctx.channels[k];
    var next := ctx.(channels := SetTimer(ctx.channels, k, !givesUp));
    if !channel.timerOn then Outcome(ctx, None, 0)
    else
      match channel.mode
      case Secure => Outcome(ctx, None, 0)
      case SendingGoClear =>
        if channel.keys.None? then Outcome(ctx, None, 0) else Outcome(next, Some(GoClear(MacOf(p, channel, channel.isInitiator))), 0)
      case Clear => Outcome(next, Some(ClearAck), 0)
  }

  /** The application confirms that it is in clear: the ClearACK is not sent any
      more. */
  function Accept(ctx: Context, k: nat): Outcome
    requires k < |ctx.channels|
  {
    Outcome(if ctx.channels[k].mode.Clear? then ctx.(channels := SetTimer(ctx.channels, k, false)) else ctx, None, 0)
  }

  // ---------------------------------------------------------------------
  // In place

  /** A context going to clear, by loops over its channels. */
  class ZrtpContext {
    var channels: seq<Channel>
    var zrtpSess: Bytes
    const selfAccepts: bool
    const peerAccepts: bool

    function Contents(): Context
      reads this
    {
      Context(channels, zrtpSess, selfAccepts, peerAccepts)
    }

    constructor (ctx: Context)
      ensures Contents() == ctx
    {
      channels, zrtpSess, selfAccepts, peerAccepts := ctx.channels, ctx.zrtpSess, ctx.selfAccepts, ctx.peerAccepts;
    }

    method SetState(mode: Mode)
      modifies this`channels
      ensures channels == WithMode(old(channels), mode)
    {
      ghost var before := channels;
      for i := 0 to |channels|
        invariant |channels| == |before|
        invariant forall k :: 0 <= k < |before| ==> channels[k] == if k < i then before[k].(mode := mode) else before[k]
      {
        channels := channels[i := channels[i].(mode := mode)];
      }
    }

    /** The destruction of the key material of every channel, the ratchet, and the
        init event of state_clear. */
    method ClearAllChannels(p: Primitives, k: nat, timerOn: bool)
      requires k < |channels|
      modifies this
      ensures Contents() == Cleared(p, old(Contents()), k, timerOn)
    {
      channels := channels[k := channels[k].(timerOn := timerOn)];
      ghost var before := channels;
      for i := 0 to |channels|
        invariant |channels| == |before| && zrtpSess == old(zrtpSess)
        invariant forall j :: 0 <= j < |before| ==> channels[j] == if j < i then before[j].(keys := None, isSecure := false) else before[j]
      {
        channels := channels[i := channels[i].(keys := None, isSecure := false)];
      }
      zrtpSess := p.ratchet(channels[k].hash, zrtpSess);
      ghost var destroyed := channels;
      for i := 0 to |channels|
        invariant |channels| == |before| && zrtpSess == p.ratchet(old(channels[k].hash), old(zrtpSess))
        invariant forall j :: 0 <= j < |before| ==> channels[j] == if j < i then ClearedChannel(destroyed[j]) else destroyed[j]
      {
        channels := channels[i := channels[i].(mode := Clear, isClear := true, isInitiator := true)];
      }
    }

    method Receive(p: Primitives, k: nat, m: Message) returns (sent: Option<Message>, code: int)
      requires k < |channels|
      modifies this
      ensures Outcome(Contents(), sent, code) == OnMessage(p, old(Contents()), k, m)
    {
      var channel := channels[k];
      match channel.mode
      case Secure =>
        if m.ClearAck? || !selfAccepts || channel.keys.None? {
          return None, PARSER_ERROR_UNEXPECTEDMESSAGE;
        }
        if m.mac != MacOf(p, channel, !channel.isInitiator) {
          return None, ERROR_INVALIDCLEARMAC;
        }
        ClearAllChannels(p, k, true);
        return Some(ClearAck), 0;
      case SendingGoClear =>
        if m.ClearAck? {
          ClearAllChannels(p, k, false);
          return None, 0;
        }
        if channel.keys.None? {
          return None, PARSER_ERROR_UNEXPECTEDMESSAGE;
        }
        if m.mac != MacOf(p, channel, !channel.isInitiator) {
          return None, ERROR_INVALIDCLEARMAC;
        }
        return Some(ClearAck), 0;
      case Clear =>
        return None, PARSER_ERROR_UNEXPECTEDMESSAGE;
    }

    method AskGoClear(p: Primitives, k: nat) returns (sent: Option<Message>, code: int)
      requires k < |channels| && channels[k].keys.Some?
      modifies this
      ensures Outcome(Contents(), sent, code) == Ask(p, old(Contents()), k)
    {
      var channel := channels[k];
      if !channel.mode.Secure? {
        return None, 0;
      }
      if !peerAccepts {
        return None, ERROR_PEERDOESNTACCEPTGOCLEAR;
      }
      SetState(SendingGoClear);
      channels := channels[k := channels[k].(timerOn := true)];
      return Some(GoClear(MacOf(p, channel, channel.isInitiator))), 0;
    }
  }

  // ---------------------------------------------------------------------
  // Two contexts

  /** A message sent on a channel. The network may lose, repeat and reorder what is
      in the logs. */
  datatype Sent = Sent(channel: nat, message: Message)

  datatype Action = AskAt(k: nat) | ReceiveAt(j: nat) | TickAt(k: nat, givesUp: bool) | AcceptAt(k: nat)

  function LogOf(k: nat, sent: Option<Message>): seq<Sent> {
    if sent.Some? then [Sent(k, sent.value)] else []
  }

  /** One action of an end: its new context and what it sends. */
  function Act(p: Primitives, ctx: Context, peerLog: seq<Sent>, a: Action): (Context, seq<Sent>) {
    match a
    case AskAt(k) =>
      if k >= |ctx.channels| || ctx.channels[k].keys.None? then (ctx, [])
      else var o := Ask(p, ctx, k); (o.next, LogOf(k, o.sent))
    case ReceiveAt(j) =>
      if j >= |peerLog| || peerLog[j].channel >= |ctx.channels| then (ctx, [])
      else var o := OnMessage(p, ctx, peerLog[j].channel, peerLog[j].message); (o.next, LogOf(peerLog[j].channel, o.sent))
    case TickAt(k, givesUp) =>
      if k >= |ctx.channels| then (ctx, []) else var o := OnTimer(p, ctx, k, givesUp); (o.next, LogOf(k, o.sent))
    case AcceptAt(k) =>
      if k >= |ctx.channels| then (ctx, []) else (Accept(ctx, k).next, [])
  }

  /** Two ends with secure channels under the same keys, in opposite roles. */
  ghost predicate SecurePair(x: Context, y: Context) {
    && |x.channels| == |y.channels| > 0 && x.zrtpSess == y.zrtpSess
    && (forall k :: 0 <= k < |x.channels| ==> SecureChannel(x.channels[k]) && SecureChannel(y.channels[k]))
    && (forall k :: 0 <= k < |x.channels| ==> x.channels[k].keys == y.channels[k].keys && x.channels[k].hash == y.channels[k].hash
                                              && x.channels[k].isInitiator != y.channels[k].isInitiator)
    && x.selfAccepts == y.peerAccepts && y.selfAccepts == x.peerAccepts
  }

  predicate SecureChannel(c: Channel) {
    c.mode.Secure? && c.isSecure && !c.isClear && c.keys.Some? && !c.timerOn
  }

  /** How far an end is: nothing happened, it asked on a channel, or it is in clear
      through a channel, on which it had asked itself or not. */
  datatype Phase = Quiet | Asked(k: nat) | ClearedVia(k: nat, asked: bool)

  predicate HasAsked(phase: Phase, k: nat) {
    phase == Asked(k) || phase == ClearedVia(k, true)
  }

  predicate SameButTimer(a: Channel, b: Channel) {
    a == b.(timerOn := a.timerOn)
  }

  /** What the context is at each phase, start being what it was when secure. */
  ghost predicate AtPhase(p: Primitives, start: Context, phase: Phase, ctx: Context) {
    && |ctx.channels| == |start.channels| && ctx.selfAccepts == start.selfAccepts && ctx.peerAccepts == start.peerAccepts
    && match phase
       case Quiet => ctx == start
       case Asked(i) =>
         && i < |start.channels| && ctx.zrtpSess == start.zrtpSess && ctx.peerAccepts
         && (forall k :: 0 <= k < |start.channels| ==> SameButTimer(ctx.channels[k], start.channels[k].(mode := SendingGoClear)))
         && (forall k :: 0 <= k < |start.channels| && ctx.channels[k].timerOn ==> k == i)
       case ClearedVia(i, asked) =>
         && i < |start.channels| && ctx.zrtpSess == p.ratchet(start.channels[i].hash, start.zrtpSess)
         && (forall k :: 0 <= k < |start.channels| ==> SameButTimer(ctx.channels[k], ClearedChannel(start.channels[k])))
         && (forall k :: 0 <= k < |start.channels| && ctx.channels[k].timerOn ==> k == i && !asked)
  }

  /** A message in the log of an end at a phase, whose peer is at another. */
  predicate Sayable(p: Primitives, start: Context, phase: Phase, peerPhase: Phase, s: Sent) {
    && s.channel < |start.channels| && start.channels[s.channel].keys.Some?
    && match s.message
       case GoClear(mac) =>
         HasAsked(phase, s.channel) && mac == MacOf(p, start.channels[s.channel], start.channels[s.channel].isInitiator)
       case ClearAck => HasAsked(peerPhase, s.channel)
  }

  ghost predicate LogFits(p: Primitives, start: Context, phase: Phase, peerPhase: Phase, log: seq<Sent>) {
    forall j :: 0 <= j < |log| ==> Sayable(p, start, phase, peerPhase, log[j])
  }

  /** An end cleared by the peer's request answered it; one cleared by its own was
      answered. */
  predicate PhaseFits(phase: Phase, peerPhase: Phase, log: seq<Sent>, peerLog: seq<Sent>) {
    && (phase.ClearedVia? ==> if phase.asked then Sent(phase.k, ClearAck) in peerLog
                              else HasAsked(peerPhase, phase.k) && Sent(phase.k, ClearAck) in log)
    && (phase.Asked? ==> HasGoClear(log, phase.k))
  }

  predicate HasGoClear(log: seq<Sent>, k: nat) {
    exists j :: 0 <= j < |log| && log[j].channel == k && log[j].message.GoClear?
  }

  lemma GoClearStays(log: seq<Sent>, sent: seq<Sent>, k: nat)
    requires HasGoClear(log, k) || HasGoClear(sent, k)
    ensures HasGoClear(log + sent, k)
  {
    if HasGoClear(log, k) {
      var j :| 0 <= j < |log| && log[j].channel == k && log[j].message.GoClear?;
      assert (log + sent)[j] == log[j];
    } else {
      var j :| 0 <= j < |sent| && sent[j].channel == k && sent[j].message.GoClear?;
      assert (log + sent)[|log| + j] == sent[j];
    }
  }

  /** What one action of an end owes: its context is at the next phase, what it sent
      may be said there, and its request, if any, is not forgotten. */
  ghost predicate Proper(p: Primitives, start: Context, phase: Phase, peerPhase: Phase, log: seq<Sent>, peerLog: seq<Sent>,
                         next: Phase, ctx: Context, sent: seq<Sent>) {
    && AtPhase(p, start, next, ctx) && LogFits(p, start, next, peerPhase, sent) && PhaseFits(next, peerPhase, log + sent, peerLog)
    && forall k :: HasAsked(phase, k) ==> HasAsked(next, k)
  }

  lemma AskIsProper(p: Primitives, start: Context, phase: Phase, peerPhase: Phase, ctx: Context, log: seq<Sent>, peerLog: seq<Sent>, k: nat)
    returns (next: Phase)
    requires AtPhase(p, start, phase, ctx) && PhaseFits(phase, peerPhase, log, peerLog)
    requires forall j :: 0 <= j < |start.channels| ==> SecureChannel(start.channels[j])
    requires k < |ctx.channels| && ctx.channels[k].keys.Some?
    ensures var o := Ask(p, ctx, k);
            Proper(p, start, phase, peerPhase, log, peerLog, next, o.next, LogOf(k, o.sent))
  {
    next := if phase.Quiet? && ctx.peerAccepts then Asked(k) else phase;
    var sent := LogOf(k, Ask(p, ctx, k).sent);
    if phase.Quiet? && ctx.peerAccepts {
      assert sent[0].message.GoClear?;
      GoClearStays(log, sent, k);
    } else if phase.Asked? {
      GoClearStays(log, sent, phase.k);
    }
  }

  lemma ReceiveIsProper(p: Primitives, start: Context, phase: Phase, peerPhase: Phase, ctx: Context, log: seq<Sent>, peerLog: seq<Sent>, s: Sent)
    returns (next: Phase)
    requires AtPhase(p, start, phase, ctx) && PhaseFits(phase, peerPhase, log, peerLog) && s in peerLog
    requires forall j :: 0 <= j < |start.channels| ==> SecureChannel(start.channels[j])
    requires s.channel < |start.channels|
    requires s.message.GoClear? ==> HasAsked(peerPhase, s.channel)
    requires s.message.ClearAck? ==> HasAsked(phase, s.channel)
    ensures var o := OnMessage(p, ctx, s.channel, s.message);
            Proper(p, start, phase, peerPhase, log, peerLog, next, o.next, LogOf(s.channel, o.sent))
  {
    var o := OnMessage(p, ctx, s.channel, s.message);
    next := if phase.Quiet? && o.sent.Some? then ClearedVia(s.channel, false)
            else if phase.Asked? && s.message.ClearAck? then ClearedVia(s.channel, true)
            else phase;
    if phase.Asked? {
      GoClearStays(log, LogOf(s.channel, o.sent), phase.k);
    }
  }

  lemma TickIsProper(p: Primitives, start: Context, phase: Phase, peerPhase: Phase, ctx: Context, log: seq<Sent>, peerLog: seq<Sent>,
                     k: nat, givesUp: bool)
    requires AtPhase(p, start, phase, ctx) && PhaseFits(phase, peerPhase, log, peerLog) && k < |ctx.channels|
    requires forall j :: 0 <= j < |start.channels| ==> SecureChannel(start.channels[j])
    ensures var o := OnTimer(p, ctx, k, givesUp);
            Proper(p, start, phase, peerPhase, log, peerLog, phase, o.next, LogOf(k, o.sent))
  {
    if phase.Asked? {
      GoClearStays(log, LogOf(k, OnTimer(p, ctx, k, givesUp).sent), phase.k);
    }
  }

  lemma AcceptIsProper(p: Primitives, start: Context, phase: Phase, peerPhase: Phase, ctx: Context, log: seq<Sent>, peerLog: seq<Sent>, k: nat)
    requires AtPhase(p, start, phase, ctx) && PhaseFits(phase, peerPhase, log, peerLog) && k < |ctx.channels|
    requires forall j :: 0 <= j < |start.channels| ==> SecureChannel(start.channels[j])
    ensures Proper(p, start, phase, peerPhase, log, peerLog, phase, Accept(ctx, k).next, [])
  {
    assert log + [] == log;
  }

  /** One end facing the other: the phases are ghosts. */
  ghost predicate Facing(p: Primitives, x0: Context, y0: Context, px: Phase, py: Phase, x: Context, logX: seq<Sent>, logY: seq<Sent>) {
    && SecurePair(x0, y0) && AtPhase(p, x0, px, x)
    && LogFits(p, x0, px, py, logX) && LogFits(p, y0, py, px, logY)
    && PhaseFits(px, py, logX, logY) && PhaseFits(py, px, logY, logX)
  }

  lemma ActIsProper(p: Primitives, x0: Context, y0: Context, px: Phase, py: Phase, x: Context, logX: seq<Sent>, logY: seq<Sent>, a: Action)
    returns (next: Phase)
    requires Facing(p, x0, y0, px, py, x, logX, logY)
    ensures var (ctx, sent) := Act(p, x, logY, a);
            Proper(p, x0, px, py, logX, logY, next, ctx, sent)
  {
    next := px;
    match a
    case AskAt(k) =>
      if k < |x.channels| && x.channels[k].keys.Some? {
        next := AskIsProper(p, x0, px, py, x, logX, logY, k);
      } else {
        assert logX + [] == logX;
      }
    case ReceiveAt(j) =>
      if j < |logY| {
        assert Sayable(p, y0, py, px, logY[j]);
        next := ReceiveIsProper(p, x0, px, py, x, logX, logY, logY[j]);
      } else {
        assert logX + [] == logX;
      }
    case TickAt(k, givesUp) =>
      if k < |x.channels| {
        TickIsProper(p, x0, px, py, x, logX, logY, k, givesUp);
      } else {
        assert logX + [] == logX;
      }
    case AcceptAt(k) =>
      if k < |x.channels| {
        AcceptIsProper(p, x0, px, py, x, logX, logY, k);
      } else {
        assert logX + [] == logX;
      }
  }

  lemma LogsStayFit(p: Primitives, x0: Context, y0: Context, px: Phase, py: Phase, next: Phase, logX: seq<Sent>, sent: seq<Sent>, logY: seq<Sent>)
    requires LogFits(p, x0, px, py, logX) && LogFits(p, y0, py, px, logY) && LogFits(p, x0, next, py, sent)
    requires PhaseFits(py, px, logY, logX)
    requires forall k :: HasAsked(px, k) ==> HasAsked(next, k)
    ensures LogFits(p, x0, next, py, logX + sent) && LogFits(p, y0, py, next, logY) && PhaseFits(py, next, logY, logX + sent)
  {
    forall j | 0 <= j < |logX + sent| ensures Sayable(p, x0, next, py, (logX + sent)[j]) {
      if j < |logX| {
        assert Sayable(p, x0, px, py, logX[j]);
      } else {
        assert Sayable(p, x0, next, py, sent[j - |logX|]);
      }
    }
    forall j | 0 <= j < |logY| ensures Sayable(p, y0, py, next, logY[j]) {
      assert Sayable(p, y0, py, px, logY[j]);
    }
  }

  lemma ActKeepsFacing(p: Primitives, x0: Context, y0: Context, px: Phase, py: Phase, x: Context, logX: seq<Sent>, logY: seq<Sent>, a: Action)
    returns (next: Phase)
    requires Facing(p, x0, y0, px, py, x, logX, logY)
    ensures var (ctx, sent) := Act(p, x, logY, a);
            Facing(p, x0, y0, next, py, ctx, logX + sent, logY)
    ensures forall k :: HasAsked(px, k) ==> HasAsked(next, k)
  {
    next := ActIsProper(p, x0, y0, px, py, x, logX, logY, a);
    LogsStayFit(p, x0, y0, px, py, next, logX, Act(p, x, logY, a).1, logY);
  }

  datatype Event = XActs(action: Action) | YActs(action: Action)

  datatype Global = Global(x: Context, y: Context, logX: seq<Sent>, logY: seq<Sent>)

  function Happen(p: Primitives, g: Global, e: Event): Global {
    match e
    case XActs(a) => var (ctx, sent) := Act(p, g.x, g.logY, a); Global(ctx, g.y, g.logX + sent, g.logY)
    case YActs(a) => var (ctx, sent) := Act(p, g.y, g.logX, a); Global(g.x, ctx, g.logX, g.logY + sent)
  }

  function After(p: Primitives, g: Global, run: seq<Event>): Global {
    if run == [] then g else Happen(p, After(p, g, run[..|run| - 1]), run[|run| - 1])
  }

  ghost predicate Invariant(p: Primitives, x0: Context, y0: Context, px: Phase, py: Phase, g: Global) {
    && Facing(p, x0, y0, px, py, g.x, g.logX, g.logY)
    && AtPhase(p, y0, py, g.y)
  }

  lemma PairMirrored(x0: Context, y0: Context)
    requires SecurePair(x0, y0)
    ensures SecurePair(y0, x0)
  {
  }

  /** In every run both ends are at some phase, with logs that fit. */
  lemma {:induction false} RunsKeepInvariant(p: Primitives, x0: Context, y0: Context, run: seq<Event>) returns (px: Phase, py: Phase)
    requires SecurePair(x0, y0)
    ensures Invariant(p, x0, y0, px, py, After(p, Global(x0, y0, [], []), run))
  {
    PairMirrored(x0, y0);
    if run == [] {
      px, py := Quiet, Quiet;
    } else {
      var e := run[|run| - 1];
      var g := After(p, Global(x0, y0, [], []), run[..|run| - 1]);
      px, py := RunsKeepInvariant(p, x0, y0, run[..|run| - 1]);
      match e
      case XActs(a) => px := ActKeepsFacing(p, x0, y0, px, py, g.x, g.logX, g.logY, a);
      case YActs(a) => py := ActKeepsFacing(p, y0, x0, py, px, g.y, g.logY, g.logX, a);
    }
  }

  // ---------------------------------------------------------------------
  // Theorems

  predicate InClear(ctx: Context) {
    exists k :: 0 <= k < |ctx.channels| && ctx.channels[k].mode.Clear?
  }

  predicate AllClear(ctx: Context) {
    forall k :: 0 <= k < |ctx.channels| ==>
      var c := ctx.channels[k]; c.mode.Clear? && !c.isSecure && c.isClear && c.isInitiator && c.keys == None
  }

  predicate AllKeyed(ctx: Context) {
    forall k :: 0 <= k < |ctx.channels| ==> var c := ctx.channels[k]; !c.mode.Clear? && c.isSecure && !c.isClear && c.keys.Some?
  }

  lemma PhaseMeans(p: Primitives, start: Context, phase: Phase, ctx: Context)
    requires AtPhase(p, start, phase, ctx) && |start.channels| > 0 && forall k :: 0 <= k < |start.channels| ==> SecureChannel(start.channels[k])
    ensures InClear(ctx) <==> phase.ClearedVia?
    ensures if phase.ClearedVia? then AllClear(ctx) else AllKeyed(ctx) && ctx.zrtpSess == start.zrtpSess
  {
    if phase.ClearedVia? {
      assert ctx.channels[0].mode.Clear?;
    }
  }

  /** In every run, whoever asked and on whichever channels: an end has all its
      channels in clear, as initiator and without keys, or none. */
  lemma AllChannelsClearTogether(p: Primitives, x0: Context, y0: Context, run: seq<Event>)
    requires SecurePair(x0, y0)
    ensures var g := After(p, Global(x0, y0, [], []), run);
            && (if InClear(g.x) then AllClear(g.x) else AllKeyed(g.x) && g.x.zrtpSess == x0.zrtpSess)
            && (if InClear(g.y) then AllClear(g.y) else AllKeyed(g.y) && g.y.zrtpSess == y0.zrtpSess)
  {
    var px, py := RunsKeepInvariant(p, x0, y0, run);
    var g := After(p, Global(x0, y0, [], []), run);
    PhaseMeans(p, x0, px, g.x);
    PhaseMeans(p, y0, py, g.y);
  }

  /** Two ends in clear have each ratcheted the session key they shared exactly once,
      under the hashes of two channels, both of which were used to ask; one
      channel if a single end asked. */
  lemma EachEndRatchetsOnce(p: Primitives, x0: Context, y0: Context, run: seq<Event>) returns (i: nat, j: nat)
    requires SecurePair(x0, y0)
    requires var g := After(p, Global(x0, y0, [], []), run); InClear(g.x) && InClear(g.y)
    ensures var g := After(p, Global(x0, y0, [], []), run);
            && i < |x0.channels| && j < |x0.channels|
            && g.x.zrtpSess == p.ratchet(x0.channels[i].hash, x0.zrtpSess)
            && g.y.zrtpSess == p.ratchet(x0.channels[j].hash, x0.zrtpSess)
            && (i != j ==> Sent(i, ClearAck) in g.logY && Sent(j, ClearAck) in g.logX)
  {
    var px, py := RunsKeepInvariant(p, x0, y0, run);
    var g := After(p, Global(x0, y0, [], []), run);
    PhaseMeans(p, x0, px, g.x);
    PhaseMeans(p, y0, py, g.y);
    i, j := px.k, py.k;
  }

  predicate RatchetsAgree(p: Primitives, ctx: Context) {
    forall i, j :: 0 <= i < |ctx.channels| && 0 <= j < |ctx.channels| ==>
      p.ratchet(ctx.channels[i].hash, ctx.zrtpSess) == p.ratchet(ctx.channels[j].hash, ctx.zrtpSess)
  }

  /** The two new session keys are equal when the hashes of all channels ratchet the
      session key alike, in particular when all channels negotiated one hash. */
  lemma SessionKeysAgree(p: Primitives, x0: Context, y0: Context, run: seq<Event>)
    requires SecurePair(x0, y0) && RatchetsAgree(p, x0)
    requires var g := After(p, Global(x0, y0, [], []), run); InClear(g.x) && InClear(g.y)
    ensures var g := After(p, Global(x0, y0, [], []), run);
            g.x.zrtpSess == g.y.zrtpSess == p.ratchet(x0.channels[0].hash, x0.zrtpSess)
  {
    var i, j := EachEndRatchetsOnce(p, x0, y0, run);
  }

  // ---------------------------------------------------------------------
  // What the timed runs build on

  predicate TimersOff(ctx: Context) {
    forall k :: 0 <= k < |ctx.channels| ==> !ctx.channels[k].timerOn
  }

  predicate AllIn(ctx: Context, mode: Mode) {
    forall k :: 0 <= k < |ctx.channels| ==> ctx.channels[k].mode == mode
  }

  lemma PhaseModes(p: Primitives, start: Context, phase: Phase, ctx: Context)
    requires AtPhase(p, start, phase, ctx) && forall k :: 0 <= k < |start.channels| ==> SecureChannel(start.channels[k])
    ensures AllIn(ctx, match phase case Quiet => Secure case Asked(_) => SendingGoClear case ClearedVia(_, _) => Clear)
  {
  }

  predicate AllSecure(ctx: Context) {
    forall k :: 0 <= k < |ctx.channels| ==> SecureChannel(ctx.channels[k])
  }

  /** The context of an end that just asked on channel k. */
  function Asking(start: Context, k: nat): Context
    requires k < |start.channels|
  {
    start.(channels := SetTimer(WithMode(start.channels, SendingGoClear), k, true))
  }

  function RequestOf(p: Primitives, start: Context, k: nat): Sent
    requires k < |start.channels| && start.channels[k].keys.Some?
  {
    Sent(k, GoClear(MacOf(p, start.channels[k], start.channels[k].isInitiator)))
  }

  lemma AskingSends(p: Primitives, start: Context, peerLog: seq<Sent>, k: nat)
    requires k < |start.channels| && SecureChannel(start.channels[k]) && start.peerAccepts
    ensures Act(p, start, peerLog, AskAt(k)) == (Asking(start, k), [RequestOf(p, start, k)])
  {
  }

  predicate OneHash(ctx: Context) {
    forall i, j :: 0 <= i < |ctx.channels| && 0 <= j < |ctx.channels| ==> ctx.channels[i].hash == ctx.channels[j].hash
  }

  /** The ratchets of a key under different hashes differ. */
  ghost predicate HashesRatchetApart(p: Primitives, key: Bytes) {
    forall h, k {:trigger p.ratchet(h, key), p.ratchet(k, key)} :: h != k ==> p.ratchet(h, key) != p.ratchet(k, key)
  }
}
