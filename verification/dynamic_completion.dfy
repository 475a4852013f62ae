/**
 Whether a completion is recorded on an open route. An operating-system error
 in any record but a closing one shuts the route without revoking the
 enrollment, and then a request in flight may still be recorded as complete.
 This is the only way, and it is told exactly which steps do it.
 */
module DynamicCompletion {
  import opened Wrappers
  import opened JournalBytes
  import opened HashChain
  import opened DynamicAuthority
  import opened DynamicSafety

  // An admitted request's enrollment is either revoked or still the open one.
  ghost predicate Settled(a: Auth, h: Handler) {
    h.enrollment.Some? ==>
      h.enrollment.value.sha in a.revoked || (a.route.Open? && a.route.enrollment == h.enrollment.value.sha)
  }

  ghost predicate AllSettled(s: System) {
    forall id :: id in s.handlers ==> Settled(s.auth, s.handlers[id])
  }

  // ---------------------------------------------------------------------
  // The steps that unsettle

  datatype Attempt = Attempt(at: Auth, route: Route, detail: Detail, io: Io)

  // The record an action tries to append on an open route, if any.
  function Attempted(cfg: Config, s: System, act: Action): Option<Attempt> {
    var a := s.auth;
    match act
    case DoAdmit(lease, g, m, ev, io) =>
      if !lease || a.enrollment.None? || g != a.generation || m != a.enrollment.value.sha || Recheck(a, ev).None?
      then None
      else
        var open := RouteFor(a.enrollment.value, a.generation);
        Some(Attempt(a.(route := open), open, Opened(a.enrollment.value.sha, Recheck(a, ev).value), io))
    case DoArrive(id, rid, aid, ev, io) =>
      if id in s.handlers || rid == "" || |rid| > 200 || rid in a.seen then None else
      var (renewed, ok) := Refresh(cfg, a.(seen := a.seen + {rid}), ev, io);
      if !ok || renewed.route.Closed? || renewed.enrollment.None? then None
      else Some(Attempt(renewed, renewed.route, Admit(rid, aid, renewed.enrollment.value.sha), io))
    case DoBind(id, ev, peer, ev', io) =>
      if id !in s.handlers || s.handlers[id].stage != Admitted then None else
      var h := s.handlers[id];
      if !SameEnrollment(a, h) || a.route.Closed? || a.route.generation != h.enrollment.value.generation
         || Recheck(a, ev).None? || !peer || Recheck(a, ev').None? then None
      else Some(Attempt(a, h.route, PeerBound(h.requestId, h.admissionId, h.enrollment.value.sha), io))
    case DoFinish(id, ev, backend, io) =>
      if id !in s.handlers || s.handlers[id].stage != Bound then None else
      var h := s.handlers[id];
      if !SameEnrollment(a, h) || Recheck(a, ev).None? || !backend then None
      else Some(Attempt(a, h.route, Complete(h.requestId, h.admissionId, h.enrollment.value.sha), io))
    case _ => None
  }

  ghost predicate CarriedBy(handlers: map<nat, Handler>, sha: Digest) {
    exists id :: id in handlers && handlers[id].enrollment.Some? && handlers[id].enrollment.value.sha == sha
  }

  // The append came back with an operating-system error while the route was
  // open for an enrollment that some request was admitted under.
  ghost predicate Lost(cfg: Config, s: System, act: Action) {
    var attempt := Attempted(cfg, s, act);
    attempt.Some?
    && var t := attempt.value;
       && Write(cfg, t.at.log, t.route, t.detail, t.io).1 == Failed
       && t.at.route.Open? && CarriedBy(Next(cfg, s, act).handlers, t.at.route.enrollment)
  }

  // ---------------------------------------------------------------------
  // Step by step

  // Revoking what the route was open for settles everybody it was open for.
  lemma CloseSettles(cfg: Config, a: Auth, io: Io, h: Handler)
    requires RouteCurrent(a) && Settled(a, h)
    ensures Settled(Close(cfg, a, io).0, h)
  {
    RecordedShape(cfg, Revoke(a), Closed, RouteClosed(ShaOf(a.enrollment)), io);
  }

  lemma EnrollSettles(cfg: Config, a: Auth, lease: bool, expected: int, c: Candidate, io: Io, io': Io, h: Handler)
    requires RouteCurrent(a) && Settled(a, h)
    ensures Settled(Enroll(cfg, a, lease, expected, c, io, io').0, h)
  {
    CloseSettles(cfg, a, io, h);
    RecordedShape(cfg, Revoke(a), Closed, RouteClosed(ShaOf(a.enrollment)), io);
    var closed := Close(cfg, a, io).0;
    RecordedShape(cfg, Installed(closed, c), closed.route, Enrolled(Installed(closed, c).enrollment.value), io');
  }

  // An append on an open route: what it does to the route.
  lemma OpenAppend(cfg: Config, a: Auth, route: Route, d: Detail, io: Io)
    ensures var after := Recorded(cfg, a, route, d, io).0;
      && after.revoked == a.revoked
      && after.route == if Write(cfg, a.log, route, d, io).1 == Failed then Closed else a.route
  {
    hide Write;
  }

  // The state an append starts from has everybody settled.
  lemma AttemptIsSettled(cfg: Config, s: System, act: Action)
    requires SystemOk(s) && AllSettled(s) && Attempted(cfg, s, act).Some?
    ensures var t := Attempted(cfg, s, act).value;
      && t.at.route.Open? && t.at.route.enrollment !in t.at.revoked
      && (forall id :: id in s.handlers ==> Settled(t.at, s.handlers[id]))
      && Next(cfg, s, act).auth == Recorded(cfg, t.at, t.route, t.detail, t.io).0
  {
    hide Write;
  }

  // The handlers after an append: as before but for their stage, or one more,
  // admitted under the open enrollment.
  lemma AttemptHandlers(cfg: Config, s: System, act: Action, id: nat)
    requires Attempted(cfg, s, act).Some? && SystemOk(s) && id in Next(cfg, s, act).handlers
    ensures var h := Next(cfg, s, act).handlers[id];
      || (id in s.handlers && h.enrollment == s.handlers[id].enrollment)
      || (h.enrollment.Some? && h.enrollment.value.sha == Attempted(cfg, s, act).value.at.route.enrollment)
  {
    hide Write, Recorded;
    RefreshIsCurrent(cfg, s, act);
  }

  lemma RefreshIsCurrent(cfg: Config, s: System, act: Action)
    requires act.DoArrive? && Attempted(cfg, s, act).Some? ==> SystemOk(s)
    ensures act.DoArrive? && Attempted(cfg, s, act).Some? ==>
      RouteCurrent(Attempted(cfg, s, act).value.at) && Attempted(cfg, s, act).value.at.enrollment.Some?
  {
    hide Write;
  }

  lemma AppendSettlesExactly(cfg: Config, s: System, act: Action)
    requires SystemOk(s) && AllSettled(s) && Attempted(cfg, s, act).Some?
    ensures AllSettled(Next(cfg, s, act)) <==> !Lost(cfg, s, act)
  {
    var t, after := Attempted(cfg, s, act).value, Next(cfg, s, act);
    AttemptIsSettled(cfg, s, act);
    OpenAppend(cfg, t.at, t.route, t.detail, t.io);
    forall id | id in after.handlers
      ensures var h := after.handlers[id];
        && Settled(t.at, h)
        && (h.enrollment.None? || h.enrollment.value.sha == t.at.route.enrollment
            || h.enrollment.value.sha in t.at.revoked)
    {
      AttemptHandlers(cfg, s, act, id);
    }
    hide Next, Attempted, Write, Recorded;
    if Lost(cfg, s, act) {
      var id :| id in after.handlers && after.handlers[id].enrollment.Some?
                && after.handlers[id].enrollment.value.sha == t.at.route.enrollment;
      assert !Settled(after.auth, after.handlers[id]);
    }
  }

  lemma QuietStepSettles(cfg: Config, s: System, act: Action)
    requires SystemOk(s) && AllSettled(s) && Attempted(cfg, s, act).None?
    ensures AllSettled(Next(cfg, s, act))
  {
    hide Write, Recorded, Close, Install;
    var a := s.auth;
    forall id | id in s.handlers
      ensures Settled(Next(cfg, s, act).auth, s.handlers[id])
    {
      QuietStepKeeps(cfg, s, act, s.handlers[id]);
    }
    QuietHandlers(cfg, s, act);
  }

  lemma QuietHandlers(cfg: Config, s: System, act: Action)
    requires Attempted(cfg, s, act).None?
    ensures forall id :: id in Next(cfg, s, act).handlers ==>
      || (id in s.handlers && Next(cfg, s, act).handlers[id].enrollment == s.handlers[id].enrollment)
      || Next(cfg, s, act).handlers[id].enrollment.None?
  {
    hide Write, Recorded, Close, Install;
  }

  lemma QuietStepKeeps(cfg: Config, s: System, act: Action, h: Handler)
    requires SystemOk(s) && Settled(s.auth, h) && Attempted(cfg, s, act).None?
    ensures Settled(Next(cfg, s, act).auth, h)
  {
    hide Write, Recorded, Close, Enroll;
    var a := s.auth;
    match act
    case DoQuery(writer, ev, io) => CloseSettles(cfg, a, io, h);
    case DoClose(lease, expected, io) => CloseSettles(cfg, a, io, h);
    case DoEnroll(lease, expected, c, io, io') => EnrollSettles(cfg, a, lease, expected, c, io, io', h);
    case DoAdmit(lease, g, m, ev, io) => CloseSettles(cfg, a, io, h);
    case DoArrive(id, rid, aid, ev, io) => CloseSettles(cfg, a.(seen := a.seen + {rid}), io, h);
    case DoBind(id, ev, peer, ev', io) =>
    case DoFinish(id, ev, backend, io) =>
    case DoRaise(id) =>
    case DoHandle(id, io) => CloseSettles(cfg, a, io, h);
    case OwnerGone(io) => CloseSettles(cfg, a, io, h);
  }

  // A step unsettles some request exactly when it loses such an append.
  lemma SettledExactly(cfg: Config, s: System, act: Action)
    requires SystemOk(s) && AllSettled(s)
    ensures AllSettled(Next(cfg, s, act)) <==> !Lost(cfg, s, act)
  {
    if Attempted(cfg, s, act).Some? {
      AppendSettlesExactly(cfg, s, act);
    } else {
      QuietStepSettles(cfg, s, act);
    }
  }

  // ---------------------------------------------------------------------
  // Whole runs

  ghost predicate NeverLost(cfg: Config, io: Io, actions: seq<Action>) {
    forall n :: 0 <= n < |actions| ==> !Lost(cfg, Run(cfg, io, actions[..n]), actions[n])
  }

  ghost predicate AlwaysSettled(cfg: Config, io: Io, actions: seq<Action>) {
    forall n :: 0 <= n <= |actions| ==> AllSettled(Run(cfg, io, actions[..n]))
  }

  lemma RunStep(cfg: Config, io: Io, actions: seq<Action>, n: nat)
    requires n < |actions|
    ensures Run(cfg, io, actions[..n + 1]) == Next(cfg, Run(cfg, io, actions[..n]), actions[n])
  {
    assert actions[..n + 1][..n] == actions[..n];
  }

  lemma {:induction false} SettledUpTo(cfg: Config, io: Io, actions: seq<Action>, n: nat)
    requires Begun(cfg, io).1 == Done && NeverLost(cfg, io, actions) && n <= |actions|
    ensures AllSettled(Run(cfg, io, actions[..n]))
  {
    if n > 0 {
      SettledUpTo(cfg, io, actions, n - 1);
      RunKeeps(cfg, io, actions[..n - 1]);
      RunStep(cfg, io, actions, n - 1);
      hide Run, AllSettled, Lost, SystemOk, Next;
      assert !Lost(cfg, Run(cfg, io, actions[..n - 1]), actions[n - 1]);
      SettledExactly(cfg, Run(cfg, io, actions[..n - 1]), actions[n - 1]);
    } else {
      assert actions[..0] == [];
    }
  }

  // Over a whole run every admitted request stays settled exactly when no step
  // loses an append on an open route that carries a request.
  lemma RunSettledExactly(cfg: Config, io: Io, actions: seq<Action>)
    requires Begun(cfg, io).1 == Done
    ensures AlwaysSettled(cfg, io, actions) <==> NeverLost(cfg, io, actions)
  {
    hide AllSettled, Lost, Run, SystemOk, Next;
    if NeverLost(cfg, io, actions) {
      forall n | 0 <= n <= |actions| ensures AllSettled(Run(cfg, io, actions[..n])) {
        SettledUpTo(cfg, io, actions, n);
      }
    }
    if AlwaysSettled(cfg, io, actions) {
      forall n | 0 <= n < |actions| ensures !Lost(cfg, Run(cfg, io, actions[..n]), actions[n]) {
        RunKeeps(cfg, io, actions[..n]);
        RunStep(cfg, io, actions, n);
        assert AllSettled(Run(cfg, io, actions[..n])) && AllSettled(Run(cfg, io, actions[..n + 1]));
        SettledExactly(cfg, Run(cfg, io, actions[..n]), actions[n]);
      }
    }
  }

  ghost predicate OpenFor(a: Auth, h: Handler) {
    h.enrollment.Some? && a.route.Open? && a.route.enrollment == h.enrollment.value.sha
  }

  // A completion that gets recorded is recorded while the route of its own
  // enrollment is open exactly when its request is settled at that moment.
  lemma CompletionExactly(cfg: Config, s: System, act: Action)
    requires act.DoFinish? && Next(cfg, s, act).auth.log.links != s.auth.log.links
    ensures act.id in s.handlers
    ensures OpenFor(s.auth, s.handlers[act.id]) <==> Settled(s.auth, s.handlers[act.id])
  {
    hide Write, Recorded;
  }

  // Unless a step of the run has lost such an append, a completion is recorded
  // only while the route of the enrollment that admitted the request is open.
  lemma CompletesOnOpenRoute(cfg: Config, io: Io, actions: seq<Action>, act: Action)
    requires Begun(cfg, io).1 == Done && act.DoFinish? && NeverLost(cfg, io, actions)
    requires Next(cfg, Run(cfg, io, actions), act).auth.log.links != Run(cfg, io, actions).auth.log.links
    ensures var s := Run(cfg, io, actions);
      act.id in s.handlers && OpenFor(s.auth, s.handlers[act.id])
  {
    SettledUpTo(cfg, io, actions, |actions|);
    assert actions[..|actions|] == actions;
    hide NeverLost, Run, Next;
    CompletionExactly(cfg, Run(cfg, io, actions), act);
  }

  // ---------------------------------------------------------------------
  // The failing family

  const LOST := Io(0, [], true)

  // The disk refuses this record with an error and the journal had room for it.
  predicate Refused(cfg: Config, log: Log<Record>, route: Route, d: Detail) {
    Write(cfg, log, route, d, LOST).1 == Failed
  }

  predicate Taken(cfg: Config, log: Log<Record>, route: Route, d: Detail, io: Io) {
    Write(cfg, log, route, d, io).1 == Done
  }

  lemma LostWrite(cfg: Config, log: Log<Record>, route: Route, d: Detail)
    ensures Write(cfg, log, route, d, LOST).0 == log
    ensures Write(cfg, log, route, d, LOST).1 in {Full, Failed}
  {
    var raw := cfg.format.line(NextLink(cfg.format, log.links, Payload(cfg, log, route, d, LOST)));
    assert log.file + (raw + [LF])[..0] == log.file;
  }

  const SOUND := Evidence(true, true, true, true, Some(""))

  // A request is delivered and waiting for its answer.
  predicate InFlight(s: System, id: nat) {
    && id in s.handlers && s.handlers[id].stage == Bound && SameEnrollment(s.auth, s.handlers[id])
    && s.auth.route.Open? && s.auth.enrollment.value.sha !in s.auth.revoked
  }

  function Answer(h: Handler): Detail
    requires h.enrollment.Some?
  {
    Complete(h.requestId, h.admissionId, h.enrollment.value.sha)
  }

  // In any run with a request in flight: the admission of another one cannot be
  // written, the route shuts with nothing revoked, and the first request is
  // then recorded complete regardless.
  lemma LostAppendLetsCompletionThrough(
      cfg: Config, first: Io, actions: seq<Action>, id: nat, other: nat, rid: string, aid: string, io: Io)
    requires Begun(cfg, first).1 == Done
    requires var s := Run(cfg, first, actions);
      && InFlight(s, id) && other !in s.handlers && rid != "" && |rid| <= 200 && rid !in s.auth.seen
      && Refused(cfg, s.auth.log, s.auth.route, Admit(rid, aid, s.auth.enrollment.value.sha))
      && Taken(cfg, s.auth.log, s.handlers[id].route, Answer(s.handlers[id]), io)
    ensures var s := Run(cfg, first, actions);
      var arrive, finish := DoArrive(other, rid, aid, SOUND, LOST), DoFinish(id, SOUND, true, io);
      var lost, done := Run(cfg, first, actions + [arrive]), Run(cfg, first, actions + [arrive, finish]);
      && Lost(cfg, s, arrive)
      && lost.auth.route.Closed? && lost.auth.revoked == s.auth.revoked && lost.auth.log.links == s.auth.log.links
      && |done.auth.log.links| == |s.auth.log.links| + 1
      && DetailAt(done.auth.log.links, |s.auth.log.links|) == Answer(s.handlers[id])
  {
    var s := Run(cfg, first, actions);
    var arrive, finish := DoArrive(other, rid, aid, SOUND, LOST), DoFinish(id, SOUND, true, io);
    var one, two := actions + [arrive], actions + [arrive, finish];
    assert one[..|actions|] == actions && two[..|actions| + 1] == one;
    assert Run(cfg, first, one) == Next(cfg, s, arrive);
    assert Run(cfg, first, two) == Next(cfg, Next(cfg, s, arrive), finish);
    RunKeeps(cfg, first, actions);
    hide Run, Write;
    ArrivalIsLost(cfg, s, id, other, rid, aid);
    FlightLands(cfg, Next(cfg, s, arrive), id, io);
  }

  lemma ArrivalIsLost(cfg: Config, s: System, id: nat, other: nat, rid: string, aid: string)
    requires SystemOk(s) && InFlight(s, id) && other !in s.handlers && rid != "" && |rid| <= 200 && rid !in s.auth.seen
    requires Refused(cfg, s.auth.log, s.auth.route, Admit(rid, aid, s.auth.enrollment.value.sha))
    ensures var arrive := DoArrive(other, rid, aid, SOUND, LOST);
      && Lost(cfg, s, arrive)
      && Next(cfg, s, arrive).auth == s.auth.(route := Closed, seen := s.auth.seen + {rid})
      && Next(cfg, s, arrive).handlers.Keys == s.handlers.Keys + {other}
      && id in Next(cfg, s, arrive).handlers && Next(cfg, s, arrive).handlers[id] == s.handlers[id]
  {
    LostWrite(cfg, s.auth.log, s.auth.route, Admit(rid, aid, s.auth.enrollment.value.sha));
    hide Write;
    var arrive := DoArrive(other, rid, aid, SOUND, LOST);
    var marked := s.auth.(seen := s.auth.seen + {rid});
    assert Refresh(cfg, marked, SOUND, LOST) == (marked, true);
    assert CarriedBy(Next(cfg, s, arrive).handlers, s.auth.route.enrollment) by {
      assert Next(cfg, s, arrive).handlers[id] == s.handlers[id];
    }
  }

  lemma FlightLands(cfg: Config, s: System, id: nat, io: Io)
    requires id in s.handlers && s.handlers[id].stage == Bound && SameEnrollment(s.auth, s.handlers[id])
    requires s.auth.enrollment.value.sha !in s.auth.revoked
    requires Taken(cfg, s.auth.log, s.handlers[id].route, Answer(s.handlers[id]), io)
    ensures var links := Next(cfg, s, DoFinish(id, SOUND, true, io)).auth.log.links;
      && |links| == |s.auth.log.links| + 1
      && DetailAt(links, |s.auth.log.links|) == Answer(s.handlers[id])
  {
    RecordedShape(cfg, s.auth, s.handlers[id].route, Answer(s.handlers[id]), io);
    hide Write;
  }

  // And runs do get this far, as long as the disk takes the four records.
  lemma FlightIsReached(cfg: Config, first: Io, c: Candidate, rid: string, aid: string,
                        close: Io, enroll: Io, open: Io, admit: Io, bind: Io)
    requires Begun(cfg, first).1 == Done
    requires c.source && c.members && c.claims && c.backend && rid != "" && |rid| <= 200
    requires var s0 := Begun(cfg, first).0;
      var s1 := Next(cfg, s0, DoEnroll(true, 0, c, close, enroll));
      var s2 := Next(cfg, s1, DoAdmit(true, 1, c.sha, SOUND, open));
      var s3 := Next(cfg, s2, DoArrive(0, rid, aid, SOUND, admit));
      var e := Enrollment(c.sha, 1, c.epoch, c.launch, c.api);
      && Taken(cfg, s0.auth.log, Closed, RouteClosed(None), close)
      && Taken(cfg, Close(cfg, s0.auth, close).0.log, Closed, Enrolled(e), enroll)
      && Taken(cfg, s1.auth.log, RouteFor(e, 1), Opened(c.sha, ""), open)
      && Taken(cfg, s2.auth.log, RouteFor(e, 1), Admit(rid, aid, c.sha), admit)
      && Taken(cfg, s3.auth.log, RouteFor(e, 1), PeerBound(rid, aid, c.sha), bind)
    ensures InFlight(Run(cfg, first, [DoEnroll(true, 0, c, close, enroll), DoAdmit(true, 1, c.sha, SOUND, open),
                                      DoArrive(0, rid, aid, SOUND, admit), DoBind(0, SOUND, true, SOUND, bind)]), 0)
  {
    var actions := [DoEnroll(true, 0, c, close, enroll), DoAdmit(true, 1, c.sha, SOUND, open),
                    DoArrive(0, rid, aid, SOUND, admit), DoBind(0, SOUND, true, SOUND, bind)];
    hide Next, Write, Close;
    RunStep(cfg, first, actions, 0);
    RunStep(cfg, first, actions, 1);
    RunStep(cfg, first, actions, 2);
    RunStep(cfg, first, actions, 3);
    assert actions[..4] == actions && actions[..0] == [];
    var e := Enrollment(c.sha, 1, c.epoch, c.launch, c.api);
    var s0 := Run(cfg, first, []);
    EnrolledState(cfg, s0, c, close, enroll);
    hide Run;
    var s1 := Next(cfg, s0, actions[0]);
    OpenedState(cfg, s1, e, open);
    var s2 := Next(cfg, s1, actions[1]);
    AdmittedState(cfg, s2, e, rid, aid, admit);
    BoundState(cfg, Next(cfg, s2, actions[2]), e, rid, aid, bind);
  }

  // The only enrollment so far, with nothing revoked.
  predicate Holds(s: System, e: Enrollment, route: Route) {
    && e.generation == 1 && s.auth.generation == 1 && s.auth.enrollment == Some(e) && s.auth.revoked == {}
    && s.auth.route == route
  }

  lemma OpenedState(cfg: Config, s: System, e: Enrollment, open: Io)
    requires Holds(s, e, Closed) && Taken(cfg, s.auth.log, RouteFor(e, 1), Opened(e.sha, ""), open)
    ensures var t := Next(cfg, s, DoAdmit(true, 1, e.sha, SOUND, open));
      Holds(t, e, RouteFor(e, 1)) && t.handlers == s.handlers && t.auth.seen == s.auth.seen
  {
    hide Write;
  }

  lemma AdmittedState(cfg: Config, s: System, e: Enrollment, rid: string, aid: string, admit: Io)
    requires Holds(s, e, RouteFor(e, 1)) && s.handlers == map[] && s.auth.seen == {} && rid != "" && |rid| <= 200
    requires Taken(cfg, s.auth.log, RouteFor(e, 1), Admit(rid, aid, e.sha), admit)
    ensures var t := Next(cfg, s, DoArrive(0, rid, aid, SOUND, admit));
      && Holds(t, e, RouteFor(e, 1))
      && t.handlers == map[0 := Handler(rid, aid, Admitted, RouteFor(e, 1), Some(e))]
  {
    hide Write;
    var marked := s.auth.(seen := s.auth.seen + {rid});
    assert Refresh(cfg, marked, SOUND, admit) == (marked, true);
  }

  lemma BoundState(cfg: Config, s: System, e: Enrollment, rid: string, aid: string, bind: Io)
    requires Holds(s, e, RouteFor(e, 1)) && s.handlers == map[0 := Handler(rid, aid, Admitted, RouteFor(e, 1), Some(e))]
    requires Taken(cfg, s.auth.log, RouteFor(e, 1), PeerBound(rid, aid, e.sha), bind)
    ensures InFlight(Next(cfg, s, DoBind(0, SOUND, true, SOUND, bind)), 0)
  {
    hide Write;
  }

  lemma EnrolledState(cfg: Config, s: System, c: Candidate, close: Io, enroll: Io)
    requires s.auth == Blank(s.auth.log) && s.handlers == map[]
    requires c.source && c.members && c.claims && c.backend
    requires Taken(cfg, s.auth.log, Closed, RouteClosed(None), close)
    requires Taken(cfg, Close(cfg, s.auth, close).0.log, Closed,
                   Enrolled(Enrollment(c.sha, 1, c.epoch, c.launch, c.api)), enroll)
    ensures var t := Next(cfg, s, DoEnroll(true, 0, c, close, enroll));
      var e := Enrollment(c.sha, 1, c.epoch, c.launch, c.api);
      Holds(t, e, Closed) && t.handlers == map[] && t.auth.seen == {}
  {
    hide Write;
  }
}
