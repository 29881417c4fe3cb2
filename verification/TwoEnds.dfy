/** Two ends and the network between them: every run. */
module TwoEnds {
  import opened Octets
  import opened Negotiation
  import opened Agreement
  import opened RetainedSecrets
  import opened Messages
  import opened Protocol
  import opened Exchange
  import opened Transitions
  import opened Runs

  /** The two channels and everything each ever sent: a message once sent may be
      delivered at any later time, any number of times or never. */
  datatype Global = Global(x: Endpoint, y: Endpoint, sentX: seq<Message>, sentY: seq<Message>)

  datatype Event = DeliverToX(m: Message) | DeliverToY(m: Message) | TickX | TickY

  function UpdateX(g: Global, o: Outcome): Global {
    g.(x := o.next, sentX := g.sentX + o.sent)
  }

  function UpdateY(g: Global, o: Outcome): Global {
    g.(y := o.next, sentY := g.sentY + o.sent)
  }

  /** One event; delivering what was never sent is impossible and does nothing. */
  function Happen(c: Crypto, g: Global, event: Event): (Global, Ret) {
    match event
    case DeliverToX(m) => if m in g.sentY then (UpdateX(g, Receive(c, g.x, m)), Receive(c, g.x, m).ret) else (g, Done)
    case DeliverToY(m) => if m in g.sentX then (UpdateY(g, Receive(c, g.y, m)), Receive(c, g.y, m).ret) else (g, Done)
    case TickX => (UpdateX(g, Tick(c, g.x)), Tick(c, g.x).ret)
    case TickY => (UpdateY(g, Tick(c, g.y)), Tick(c, g.y).ret)
  }

  function After(c: Crypto, g: Global, run: seq<Event>): Global {
    if run == [] then g else Happen(c, After(c, g, run[..|run| - 1]), run[|run| - 1]).0
  }

  predicate Faultless(c: Crypto, g: Global, run: seq<Event>) {
    run == [] || (Faultless(c, g, run[..|run| - 1]) && Happen(c, After(c, g, run[..|run| - 1]), run[|run| - 1]).1 != Fault)
  }

  function Beginning(x: Party, y: Party): Global {
    Global(Start(x.cfg), Start(y.cfg), [], [])
  }

  // ---------------------------------------------------------------------
  // The invariant

  ghost predicate AllMaySend(t: Script, u: Script, dh: bool, stage: Stage, sent: seq<Message>) {
    forall m :: m in sent ==> MaySend(t, u, dh, stage, m)
  }

  predicate StagesFit(t: Script, u: Script, dh: bool, g: Global) {
    && Fits(dh, StageOf(g.x), t.commit in g.sentX, GivesWayTo(t, u), StageOf(g.y))
    && Fits(dh, StageOf(g.y), u.commit in g.sentY, GivesWayTo(u, t), StageOf(g.x))
  }

  /** Each end is where its state says with all it needs, both ends' stages fit
      together and the network only holds messages of the two scripts. */
  ghost predicate Invariant(x: Party, y: Party, t: Script, u: Script, g: Global) {
    var dh := !NonDh(x.Ka());
    && AtStage(x, y, t, u, g.x) && AtStage(y, x, u, t, g.y)
    && AllMaySend(t, u, dh, StageOf(g.x), g.sentX) && AllMaySend(u, t, dh, StageOf(g.y), g.sentY)
    && StagesFit(t, u, dh, g)
  }

  lemma LowerIsAsymmetric(a: Bytes, b: Bytes)
    requires |a| == |b|
    ensures !(Lower(a, b) && Lower(b, a))
    ensures Lower(a, b) || Lower(b, a) <==> a != b
  {
    MemCmpIsBigEndianOrder(a, b);
    MemCmpIsBigEndianOrder(b, a);
  }

  /** The value compared in Commit contention, section 4.2 of RFC 6189. */
  function ContentionValue(commit: Commit): Bytes {
    if NonDh(commit.algos.keyAgreement) then commit.nonce else commit.hvi
  }

  /** Two Commits of one mode: exactly one gives way, unless their hvi or nonce
      are equal; it is the one with the lower value as an unsigned integer. */
  lemma ContentionDecides(c: Crypto, x: Party, y: Party, t: Script, u: Script)
    requires OneMode(x, y) && LengthsHold(c, x, y, t) && LengthsHold(c, y, x, u)
    requires t.commit == CommitFrom(c, x, t.dhPart2, t.responderHello) && u.commit == CommitFrom(c, y, u.dhPart2, u.responderHello)
    ensures var a, b := ContentionValue(t.commit.body.commit), ContentionValue(u.commit.body.commit);
            && !(GivesWayTo(t, u) && GivesWayTo(u, t))
            && (GivesWayTo(t, u) || GivesWayTo(u, t) <==> a != b)
            && (GivesWayTo(t, u) <==> BigEndian(a) < BigEndian(b))
  {
    var a, b := ContentionValue(t.commit.body.commit), ContentionValue(u.commit.body.commit);
    LowerIsAsymmetric(a, b);
    MemCmpIsBigEndianOrder(a, b);
  }

  lemma MaySendGrows(t: Script, u: Script, dh: bool, stage: Stage, next: Stage, gives: bool, peer: Stage, cy: bool, m: Message)
    requires Follows(dh, stage, next, gives, peer, cy) && MaySend(t, u, dh, stage, m)
    ensures MaySend(t, u, dh, next, m)
  {
  }

  lemma FitsKept(dh: bool, stage: Stage, committed: bool, gives: bool, peer: Stage, peerCommitted: bool, peerGives: bool,
                 next: Stage, nowCommitted: bool)
    requires Fits(dh, stage, committed, gives, peer) && Fits(dh, peer, peerCommitted, peerGives, stage)
    requires !(gives && peerGives) && Follows(dh, stage, next, gives, peer, peerCommitted)
    requires nowCommitted == (committed || (next == Committing))
    ensures Fits(dh, next, nowCommitted, gives, peer) && Fits(dh, peer, peerCommitted, peerGives, next)
  {
  }

  // A proper outcome at x keeps the invariant.
  lemma ProperKeepsInvariant(x: Party, y: Party, t: Script, u: Script, g: Global, o: Outcome)
    requires x.Ka() == y.Ka() && !(GivesWayTo(t, u) && GivesWayTo(u, t))
    requires Invariant(x, y, t, u, g) && Proper(x, y, t, u, g.x, o, StageOf(g.y), u.commit in g.sentY)
    ensures Invariant(x, y, t, u, UpdateX(g, o))
  {
    var dh := !NonDh(x.Ka());
    var after := UpdateX(g, o);
    FitsKept(dh, StageOf(g.x), t.commit in g.sentX, GivesWayTo(t, u), StageOf(g.y), u.commit in g.sentY, GivesWayTo(u, t),
             StageOf(o.next), t.commit in after.sentX);
    forall m | m in after.sentX
      ensures MaySend(t, u, dh, StageOf(o.next), m)
    {
      if m in g.sentX {
        MaySendGrows(t, u, dh, StageOf(g.x), StageOf(o.next), GivesWayTo(t, u), StageOf(g.y), u.commit in g.sentY, m);
      }
    }
  }

  function Mirrored(g: Global): Global {
    Global(g.y, g.x, g.sentY, g.sentX)
  }

  lemma InvariantMirrored(x: Party, y: Party, t: Script, u: Script, g: Global)
    requires x.Ka() == y.Ka()
    ensures Invariant(x, y, t, u, g) <==> Invariant(y, x, u, t, Mirrored(g))
  {
  }

  lemma SettingMirrored(c: Crypto, x: Party, y: Party, t: Script, u: Script)
    requires Setting(c, x, y, t, u)
    ensures Setting(c, y, x, u, t)
  {
  }

  // What the setting gives the run lemmas.
  lemma SettingGives(c: Crypto, x: Party, y: Party, t: Script, u: Script)
    requires Setting(c, x, y, t, u)
    ensures Typed(t) && Typed(u) && x.Ka() == y.Ka() && !(GivesWayTo(t, u) && GivesWayTo(u, t))
    ensures u.initiatorHello == t.responderHello && t.initiatorHello == u.responderHello == SelfHello(c, x.cfg)
  {
    ContentionDecides(c, x, y, t, u);
  }

  lemma ReceivingKeepsInvariant(c: Crypto, x: Party, y: Party, t: Script, u: Script, g: Global, m: Message)
    requires Setting(c, x, y, t, u) && Invariant(x, y, t, u, g) && m in g.sentY
    ensures var o := Receive(c, g.x, m); o.ret != Fault && Invariant(x, y, t, u, UpdateX(g, o))
    ensures var o := Receive(c, g.x, m); g.x.keys.Some? ==> o.next.keys == g.x.keys
    ensures var o := Receive(c, g.x, m); o.ret != Done ==> o.next == g.x && o.sent == []
  {
    SettingGives(c, x, y, t, u);
    var dh, peer, cy := !NonDh(x.Ka()), StageOf(g.y), u.commit in g.sentY;
    MessagesTell(t, u, dh, peer, m);
    ReceivesProperly(c, x, y, t, u, g.x, m, peer, cy);
    ProperKeepsInvariant(x, y, t, u, g, Receive(c, g.x, m));
  }

  lemma TickingKeepsInvariant(c: Crypto, x: Party, y: Party, t: Script, u: Script, g: Global)
    requires Setting(c, x, y, t, u) && Invariant(x, y, t, u, g)
    ensures var o := Tick(c, g.x); o.ret != Fault && Invariant(x, y, t, u, UpdateX(g, o))
    ensures var o := Tick(c, g.x); g.x.keys.Some? ==> o.next.keys == g.x.keys
  {
    SettingGives(c, x, y, t, u);
    TicksProperly(c, x, y, t, u, g.x, StageOf(g.y), u.commit in g.sentY);
    ProperKeepsInvariant(x, y, t, u, g, Tick(c, g.x));
  }

  /** Any event keeps the invariant, follows no NULL pointer and rewrites no
      derived key. */
  lemma EventKeepsInvariant(c: Crypto, x: Party, y: Party, t: Script, u: Script, g: Global, event: Event)
    requires Setting(c, x, y, t, u) && Invariant(x, y, t, u, g)
    ensures Invariant(x, y, t, u, Happen(c, g, event).0) && Happen(c, g, event).1 != Fault
    ensures g.x.keys.Some? ==> Happen(c, g, event).0.x.keys == g.x.keys
    ensures g.y.keys.Some? ==> Happen(c, g, event).0.y.keys == g.y.keys
  {
    SettingMirrored(c, x, y, t, u);
    InvariantMirrored(x, y, t, u, g);
    match event
    case DeliverToX(m) =>
      if m in g.sentY {
        ReceivingKeepsInvariant(c, x, y, t, u, g, m);
      }
    case DeliverToY(m) =>
      if m in g.sentX {
        ReceivingKeepsInvariant(c, y, x, u, t, Mirrored(g), m);
        InvariantMirrored(x, y, t, u, UpdateY(g, Receive(c, g.y, m)));
      }
    case TickX => TickingKeepsInvariant(c, x, y, t, u, g);
    case TickY =>
      TickingKeepsInvariant(c, y, x, u, t, Mirrored(g));
      InvariantMirrored(x, y, t, u, UpdateY(g, Tick(c, g.y)));
  }

  lemma BeginningIsInvariant(x: Party, y: Party, t: Script, u: Script)
    ensures Invariant(x, y, t, u, Beginning(x, y))
  {
  }

  /** Every run of two honest ends, whatever the network loses, repeats, delays or
      reorders: the invariant holds throughout and no state function ever follows
      a NULL pointer. */
  lemma {:induction false} RunsAreSafe(c: Crypto, x: Party, y: Party, t: Script, u: Script, run: seq<Event>)
    requires Setting(c, x, y, t, u)
    ensures Invariant(x, y, t, u, After(c, Beginning(x, y), run)) && Faultless(c, Beginning(x, y), run)
  {
    if run == [] {
      BeginningIsInvariant(x, y, t, u);
    } else {
      var front := run[..|run| - 1];
      RunsAreSafe(c, x, y, t, u, front);
      EventKeepsInvariant(c, x, y, t, u, After(c, Beginning(x, y), front), run[|run| - 1]);
    }
  }
}
