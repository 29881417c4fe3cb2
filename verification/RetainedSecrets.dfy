/** Retained secrets: how each end of a call tells which cached secret both ends
    hold (src/stateMachine.c, on reception of DHPart1 by the initiator and of
    DHPart2 by the responder), what it then writes in its cache
    (bzrtp_updateCachedSecrets), and what becomes of the two caches over any
    sequence of calls. */
module RetainedSecrets {
  import opened Octets

  /** The retained secrets of one end: the columns of its cache, or their copy in
      the context of a session, where an erased secret is None. */
  datatype Retained = Retained(rs1: Option<Bytes>, rs2: Option<Bytes>)

  /** The identifiers of an end's rs1 and rs2, for one of the two roles. */
  datatype SecretIds = SecretIds(rs1: Bytes, rs2: Bytes)

  datatype Match = Match(secrets: Retained, mismatch: bool)

  /** The secret that goes into s0: rs1 if the session still has it, else rs2. */
  function S1(secrets: Retained): Option<Bytes> {
    if secrets.rs1.Some? then secrets.rs1 else secrets.rs2
  }

  /** The initiator's test: self holds the responder-role identifiers of its own
      secrets, received those found in DHPart1. mismatch is the context's flag
      before the test. */
  function InitiatorMatch(secrets: Retained, mismatch: bool, self: SecretIds, received: SecretIds): Match {
    var lost := secrets.rs1.Some? && self.rs1 != received.rs1 && self.rs1 != received.rs2;
    var afterRs1 := Match(if lost then secrets.(rs1 := None) else secrets, mismatch || lost);
    if afterRs1.mismatch && secrets.rs2.Some? then
      if self.rs2 == received.rs1 || self.rs2 == received.rs2 then afterRs1.(mismatch := false)
      else afterRs1.(secrets := afterRs1.secrets.(rs2 := None))
    else afterRs1
  }

  /** The responder's test: self holds the initiator-role identifiers of its own
      secrets, received those found in DHPart2. */
  function ResponderMatch(secrets: Retained, mismatch: bool, self: SecretIds, received: SecretIds): Match {
    var rs1MatchesRs1 := secrets.rs1.Some? && self.rs1 == received.rs1;
    var rs2MatchesRs1 := secrets.rs1.Some? && !rs1MatchesRs1 && secrets.rs2.Some? && self.rs2 == received.rs1;
    if rs2MatchesRs1 then Match(secrets.(rs1 := None), mismatch)
    else if rs1MatchesRs1 || secrets.rs1.None? || self.rs1 == received.rs2 then Match(secrets, mismatch)
    else if secrets.rs2.None? then Match(Retained(None, None), true)
    else if self.rs2 == received.rs2 then Match(secrets.(rs1 := None), mismatch)
    else Match(Retained(None, None), true)
  }

  // ---------------------------------------------------------------------
  // The reference: which secret do two ends share?

  predicate Holds(secrets: Retained, s: Option<Bytes>) {
    s.Some? && (secrets.rs1 == s || secrets.rs2 == s)
  }

  /** Section 4.3 of RFC 6189: the initiator's rs1 if the responder holds it, else
      its rs2 if the responder holds that one, else none. */
  function SharedSecret(initiator: Retained, responder: Retained): Option<Bytes> {
    if Holds(responder, initiator.rs1) then initiator.rs1
    else if Holds(responder, initiator.rs2) then initiator.rs2
    else None
  }

  predicate ShareSecret(a: Retained, b: Retained) {
    Holds(b, a.rs1) || Holds(b, a.rs2)
  }

  /** An end that holds rs2 holds rs1: every update writes rs1. */
  predicate WellFormed(secrets: Retained) {
    secrets.rs2.Some? ==> secrets.rs1.Some?
  }

  /** The identifiers of the two ends tell their secrets apart: two of them are
      equal exactly when they are those of one secret under one hash. Absent
      secrets have random identifiers. */
  predicate Distinguish(sameHash: bool, x: Retained, idsX: SecretIds, y: Retained, idsY: SecretIds) {
    && (idsX.rs1 == idsY.rs1 <==> sameHash && x.rs1.Some? && x.rs1 == y.rs1)
    && (idsX.rs1 == idsY.rs2 <==> sameHash && x.rs1.Some? && x.rs1 == y.rs2)
    && (idsX.rs2 == idsY.rs1 <==> sameHash && x.rs2.Some? && x.rs2 == y.rs1)
    && (idsX.rs2 == idsY.rs2 <==> sameHash && x.rs2.Some? && x.rs2 == y.rs2)
  }

  /** The two procedures, branched differently and run on different identifiers,
      keep the same secret: the one the reference names if both ends preferred
      one hash, and none if they did not. Each raises the mismatch flag exactly
      when it had a secret and none is shared. */
  lemma BothEndsPickTheSharedSecret(sameHash: bool, i: Retained, r: Retained,
                                    respIdsI: SecretIds, respIdsR: SecretIds, initIdsI: SecretIds, initIdsR: SecretIds)
    requires WellFormed(i) && WellFormed(r)
    requires Distinguish(sameHash, i, respIdsI, r, respIdsR) && Distinguish(sameHash, i, initIdsI, r, initIdsR)
    ensures var shared := if sameHash then SharedSecret(i, r) else None;
            var mi, mr := InitiatorMatch(i, false, respIdsI, respIdsR), ResponderMatch(r, false, initIdsR, initIdsI);
            && S1(mi.secrets) == S1(mr.secrets) == shared
            && (mi.mismatch <==> i.rs1.Some? && shared == None)
            && (mr.mismatch <==> r.rs1.Some? && shared == None)
  {
  }

  // ---------------------------------------------------------------------
  // Sessions

  /** What the initiator's, or the responder's, session holds after the test when
      identifiers are faithful: they tell the secrets, unless the two ends prefer
      different hashes, when no two of them are equal. */
  function InitiatorKeeps(sameHash: bool, self: Retained, responder: Retained): Match {
    var rs1Found, rs2Found := sameHash && Holds(responder, self.rs1), sameHash && Holds(responder, self.rs2);
    var secrets := Retained(if rs1Found then self.rs1 else None, if rs1Found || self.rs1.None? || rs2Found then self.rs2 else None);
    Match(secrets, self.rs1.Some? && !rs1Found && !rs2Found)
  }

  function ResponderKeeps(sameHash: bool, self: Retained, initiator: Retained): Match {
    var shared := if sameHash then SharedSecret(initiator, self) else None;
    if self.rs1.None? then Match(self, false)
    else if shared == None then Match(Retained(None, None), true)
    else if shared == self.rs1 then Match(self, false)
    else Match(self.(rs1 := None), false)
  }

  lemma MatchesAreFaithful(sameHash: bool, i: Retained, r: Retained,
                           respIdsI: SecretIds, respIdsR: SecretIds, initIdsI: SecretIds, initIdsR: SecretIds)
    requires WellFormed(i) && WellFormed(r)
    requires Distinguish(sameHash, i, respIdsI, r, respIdsR) && Distinguish(sameHash, i, initIdsI, r, initIdsR)
    ensures InitiatorMatch(i, false, respIdsI, respIdsR) == InitiatorKeeps(sameHash, i, r)
    ensures ResponderMatch(r, false, initIdsR, initIdsI) == ResponderKeeps(sameHash, r, i)
  {
  }

  /** bzrtp_updateCachedSecrets on the two columns, session being what the match
      left in the context and derived the secret derived from s0. A mismatch delays
      the update until the user verifies the SAS, verified telling if he does. */
  function Updated(cache: Retained, session: Match, derived: Bytes, verified: bool): Retained {
    if session.mismatch && !verified then cache else Retained(Some(derived), session.secrets.rs1)
  }

  datatype End = A | B

  /** How far a session gets: nobody updates its cache, the responder alone does
      (the Conf2ACK is lost) or both do. */
  datatype Ending = Aborted | ResponderOnly | Complete

  /** sameHash tells if both ends select one hash on their Hellos. */
  datatype Session = Session(initiator: End, ending: Ending, derived: Bytes, aVerifies: bool, bVerifies: bool, sameHash: bool)

  datatype Caches = Caches(a: Retained, b: Retained)

  function SessionMatch(caches: Caches, s: Session, end: End): Match {
    match end
    case A => if s.initiator == A then InitiatorKeeps(s.sameHash, caches.a, caches.b) else ResponderKeeps(s.sameHash, caches.a, caches.b)
    case B => if s.initiator == B then InitiatorKeeps(s.sameHash, caches.b, caches.a) else ResponderKeeps(s.sameHash, caches.b, caches.a)
  }

  function AfterSession(caches: Caches, s: Session): Caches {
    var a := Updated(caches.a, SessionMatch(caches, s, A), s.derived, s.aVerifies);
    var b := Updated(caches.b, SessionMatch(caches, s, B), s.derived, s.bVerifies);
    match s.ending
    case Aborted => caches
    case ResponderOnly => if s.initiator == A then Caches(caches.a, b) else Caches(a, caches.b)
    case Complete => Caches(a, b)
  }

  function AfterSessions(caches: Caches, run: seq<Session>): Caches {
    if run == [] then caches else AfterSession(AfterSessions(caches, run[..|run| - 1]), run[|run| - 1])
  }

  predicate NoMismatch(caches: Caches, s: Session) {
    !SessionMatch(caches, s, A).mismatch && !SessionMatch(caches, s, B).mismatch
  }

  /** Between two complete sessions at most one is cut short after the
      responder's update, and both ends select one hash every time. half tells if
      one just was. */
  predicate Tolerable(run: seq<Session>, half: bool) {
    if run == [] then !half
    else
      var front, last := run[..|run| - 1], run[|run| - 1];
      && last.sameHash
      && match last.ending
         case Aborted => Tolerable(front, half)
         case ResponderOnly => half && Tolerable(front, false)
         case Complete => !half && (Tolerable(front, false) || Tolerable(front, true))
  }

  /** The caches of two ends in step: equal rs1, or one end a session late. */
  predicate InStep(caches: Caches, half: bool) {
    && caches.a.rs1.Some? && caches.b.rs1.Some?
    && (if half then caches.a.rs1 == caches.b.rs2 || caches.b.rs1 == caches.a.rs2
        else caches.a.rs1 == caches.b.rs1)
  }

  lemma StepKeepsInStep(caches: Caches, s: Session, half: bool)
    requires InStep(caches, half) && (s.ending == ResponderOnly ==> !half)
    ensures NoMismatch(caches, s) <==> s.sameHash
    ensures s.sameHash ==> InStep(AfterSession(caches, s), match s.ending case Aborted => half case ResponderOnly => true case Complete => false)
  {
  }

  /** Section 4.6.1 of RFC 6189. From caches with one rs1, over any run of
      sessions with any roles in which lost Conf2ACKs are separated by complete
      sessions, no end ever reports a cache mismatch, in the run or in the next
      session unless its ends select different hashes, and after each complete
      session the two rs1 are equal again. */
  lemma {:induction false} LostAcknowledgementsAreTolerated(caches: Caches, run: seq<Session>, half: bool, next: Session)
    requires InStep(caches, false)
    requires Tolerable(run, half)
    ensures InStep(AfterSessions(caches, run), half)
    ensures NoMismatch(AfterSessions(caches, run), next) <==> next.sameHash
    ensures run != [] && run[|run| - 1].ending == Complete ==>
              AfterSessions(caches, run).a.rs1 == AfterSessions(caches, run).b.rs1
  {
    if run != [] {
      var front, last := run[..|run| - 1], run[|run| - 1];
      var before := if last.ending == ResponderOnly || (last.ending == Complete && Tolerable(front, false)) then false
                    else if last.ending == Complete then true else half;
      LostAcknowledgementsAreTolerated(caches, front, before, last);
      StepKeepsInStep(AfterSessions(caches, front), last, before);
    }
    StepKeepsInStep(AfterSessions(caches, run), next.(ending := Aborted), half);
  }

  // ---------------------------------------------------------------------
  // The exact schedule

  /** The half sessions since the last complete one: none, one, two with one
      initiator each, or more than the caches stand. */
  datatype Schedule = NoHalf | OneHalf(initiator: End) | BothHalves | TooMany

  function AfterEnding(schedule: Schedule, s: Session): Schedule {
    if s.ending.Aborted? || schedule.TooMany? then schedule
    else if s.ending.Complete? then NoHalf
    else
      match schedule
      case NoHalf => OneHalf(s.initiator)
      case OneHalf(initiator) => if s.initiator == initiator then TooMany else BothHalves
      case _ => TooMany
  }

  function ScheduleOf(run: seq<Session>): Schedule {
    if run == [] then NoHalf else AfterEnding(ScheduleOf(run[..|run| - 1]), run[|run| - 1])
  }

  predicate IsNew(caches: Caches, s: Session) {
    !Holds(caches.a, Some(s.derived)) && !Holds(caches.b, Some(s.derived))
  }

  /** Every session derives a secret that neither cache holds. */
  predicate DerivesNew(caches: Caches, run: seq<Session>) {
    run == [] || (DerivesNew(caches, run[..|run| - 1]) && IsNew(AfterSessions(caches, run[..|run| - 1]), run[|run| - 1]))
  }

  /** No session of the run reports a mismatch. */
  predicate Quiet(caches: Caches, run: seq<Session>) {
    run == [] || (Quiet(caches, run[..|run| - 1]) && NoMismatch(AfterSessions(caches, run[..|run| - 1]), run[|run| - 1]))
  }

  /** b holds as rs2 what a holds as rs1, and has a rs1 that a has not. */
  predicate Ahead(a: Retained, b: Retained) {
    a.rs1.Some? && b.rs2 == a.rs1 && b.rs1.Some? && !Holds(a, b.rs1)
  }

  predicate OneHashEach(run: seq<Session>) {
    forall k :: 0 <= k < |run| ==> run[k].sameHash
  }

  predicate CachesAt(schedule: Schedule, caches: Caches) {
    && caches.a.rs1.Some? && caches.b.rs1.Some?
    && match schedule
       case NoHalf => caches.a.rs1 == caches.b.rs1
       case OneHalf(initiator) => if initiator == A then Ahead(caches.a, caches.b) else Ahead(caches.b, caches.a)
       case BothHalves =>
         && caches.a.rs2.Some? && caches.a.rs2 == caches.b.rs2
         && !Holds(caches.a, caches.b.rs1) && !Holds(caches.b, caches.a.rs1)
       case TooMany => !ShareSecret(caches.a, caches.b) && !ShareSecret(caches.b, caches.a)
  }

  lemma SessionKeepsSchedule(schedule: Schedule, caches: Caches, s: Session)
    requires CachesAt(schedule, caches) && !schedule.TooMany? && IsNew(caches, s) && s.sameHash
    ensures CachesAt(AfterEnding(schedule, s), AfterSession(caches, s))
  {
  }

  lemma MismatchIffTooMany(schedule: Schedule, caches: Caches, s: Session)
    requires CachesAt(schedule, caches)
    ensures NoMismatch(caches, s) <==> !schedule.TooMany? && s.sameHash
  {
  }

  /** From caches with one rs1, over any run of sessions that derive new secrets:
      no session of it reports a mismatch, nor does the next, exactly when both ends
      select one hash every time, and between complete sessions at most two are cut
      short after the responder's update, one initiated by each end. Then the rs1
      are equal after a complete session. */
  lemma {:induction false} SecretSurvivesIff(caches: Caches, run: seq<Session>, next: Session)
    requires CachesAt(NoHalf, caches) && DerivesNew(caches, run)
    ensures Quiet(caches, run) && NoMismatch(AfterSessions(caches, run), next)
            <==> !ScheduleOf(run).TooMany? && OneHashEach(run) && next.sameHash
    ensures Quiet(caches, run) ==> CachesAt(ScheduleOf(run), AfterSessions(caches, run))
  {
    if run != [] {
      var front, last := run[..|run| - 1], run[|run| - 1];
      SecretSurvivesIff(caches, front, last);
      assert run == front + [last];
      if !ScheduleOf(front).TooMany? && OneHashEach(front) && last.sameHash {
        SessionKeepsSchedule(ScheduleOf(front), AfterSessions(caches, front), last);
      }
    }
    if Quiet(caches, run) {
      MismatchIffTooMany(ScheduleOf(run), AfterSessions(caches, run), next);
    }
  }

  // ---------------------------------------------------------------------
  // First contact, loss and recovery

  /** Two ends that never met: no mismatch, and in step once they complete a
      session. If their first session is cut short after the responder's update,
      the responder alone reports a mismatch the next time. */
  lemma FirstContact(first: Session, next: Session)
    ensures var empty := Caches(Retained(None, None), Retained(None, None));
            var after := AfterSession(empty, first);
            && NoMismatch(empty, first)
            && (first.ending == Complete ==> InStep(after, false))
            && (first.ending == ResponderOnly ==>
                  (SessionMatch(after, next, A).mismatch <==> first.initiator == B)
                  && (SessionMatch(after, next, B).mismatch <==> first.initiator == A))
  {
  }

  /** Two lost Conf2ACKs in a row may lose the common secret: the responder that
      recognised the initiator's secret as its own rs2 writes no rs2. */
  lemma TwoLostAcknowledgementsLoseTheSecret(r: Bytes, n: Bytes, m: Bytes)
    requires r != n && n != m && r != m
    ensures var run := [Session(A, ResponderOnly, n, false, false, true), Session(A, ResponderOnly, m, false, false, true)];
            var end := AfterSessions(Caches(Retained(Some(r), None), Retained(Some(r), None)), run);
            !ShareSecret(end.a, end.b) && !NoMismatch(end, Session(A, Complete, r, false, false, true))
  {
    var s0, s1 := Session(A, ResponderOnly, n, false, false, true), Session(A, ResponderOnly, m, false, false, true);
    var caches := Caches(Retained(Some(r), None), Retained(Some(r), None));
    assert [s0, s1][..1] == [s0];
    assert AfterSessions(caches, [s0]) == AfterSession(AfterSessions(caches, [s0][..0]), s0);
  }

  /** Exactly when a session cut short after the responder's update keeps the
      secret two ends share: when the responder recognised it as its own rs1, or, if
      the ends select different hashes, unless it verifies the SAS. */
  lemma HalfSessionKeepsTheSecretIff(caches: Caches, s: Session)
    requires WellFormed(caches.a) && WellFormed(caches.b) && ShareSecret(caches.a, caches.b)
    requires s.ending == ResponderOnly
    requires !Holds(caches.a, Some(s.derived)) && !Holds(caches.b, Some(s.derived))
    ensures var after := AfterSession(caches, s);
            var (i, r) := if s.initiator == A then (caches.a, caches.b) else (caches.b, caches.a);
            ShareSecret(after.a, after.b) <==>
              if s.sameHash then SharedSecret(i, r) == r.rs1 else !(if s.initiator == A then s.bVerifies else s.aVerifies)
  {
  }

  /** Whatever the caches held, a session that completes and whose flagged ends
      verify the SAS leaves both with the same rs1; without the verification the
      flagged end keeps its cache as it was. */
  lemma VerifiedSessionResynchronises(caches: Caches, s: Session)
    requires s.ending == Complete
    ensures var after := AfterSession(caches, s);
            && (SessionMatch(caches, s, A).mismatch && !s.aVerifies ==> after.a == caches.a)
            && (SessionMatch(caches, s, B).mismatch && !s.bVerifies ==> after.b == caches.b)
            && ((SessionMatch(caches, s, A).mismatch ==> s.aVerifies) && (SessionMatch(caches, s, B).mismatch ==> s.bVerifies) ==>
                  after.a.rs1 == after.b.rs1 == Some(s.derived))
  {
  }

  /** Every reachable cache keeps rs2 under rs1. */
  lemma {:induction false} RunsKeepCachesWellFormed(caches: Caches, run: seq<Session>)
    requires WellFormed(caches.a) && WellFormed(caches.b)
    ensures WellFormed(AfterSessions(caches, run).a) && WellFormed(AfterSessions(caches, run).b)
  {
    if run != [] {
      RunsKeepCachesWellFormed(caches, run[..|run| - 1]);
    }
  }
}
