/**
 What evidence the dynamic authority acts on: every record goes back to an
 action that brought all of it, and without it the route closes and the
 enrollment is revoked.
 */
module DynamicEvidence {
  import opened Wrappers
  import opened JournalBytes
  import opened HashChain
  import opened DynamicAuthority
  import opened DynamicSafety

  // The lease holds, the sources are unchanged, the members are there, the
  // listener is theirs, and the plan is covered.
  predicate Whole(ev: Evidence) {
    ev.lease && ev.source && ev.members && ev.backend && ev.plan.Some?
  }

  // The action a record needs.
  predicate Supports(act: Action, d: Detail) {
    match d
    case Opened(sha, observation) =>
      act.DoAdmit? && act.lease && act.membership == sha && Whole(act.ev) && act.ev.plan == Some(observation)
    case Admit(rid, aid, _) =>
      act.DoArrive? && act.requestId == rid != "" && |rid| <= 200 && act.admissionId == aid && Whole(act.ev)
    case PeerBound(_, _, _) => act.DoBind? && Whole(act.ev) && act.peer && Whole(act.ev')
    case Complete(_, _, _) => act.DoFinish? && Whole(act.ev) && act.backend
    case Enrolled(e) =>
      && act.DoEnroll? && act.lease && act.candidate.source && act.candidate.members && act.candidate.claims
      && act.candidate.backend
      && e == Enrollment(act.candidate.sha, act.expected + 1, act.candidate.epoch, act.candidate.launch,
                         act.candidate.api)
    case RouteClosed(_) => true
    case AuthorityStart => false
  }

  ghost predicate Supported(actions: seq<Action>, d: Detail) {
    exists m: nat :: m < |actions| && Supports(actions[m], d)
  }

  // What a step adds to the journal, its own action supports.
  ghost predicate AddsSupported(before: Links, after: Links, act: Action) {
    && |before| <= |after| && (forall k :: 0 <= k < |before| ==> DetailAt(after, k) == DetailAt(before, k))
    && (forall k :: |before| <= k < |after| ==> Supports(act, DetailAt(after, k)))
  }

  lemma RecordedAdds(cfg: Config, a: Auth, route: Route, d: Detail, io: Io, act: Action)
    requires Supports(act, d)
    ensures AddsSupported(a.log.links, Recorded(cfg, a, route, d, io).0.log.links, act)
  {
    RecordedShape(cfg, a, route, d, io);
    hide Recorded;
  }

  lemma AddsTwice(before: Links, mid: Links, after: Links, act: Action)
    requires AddsSupported(before, mid, act) && AddsSupported(mid, after, act)
    ensures AddsSupported(before, after, act)
  {
  }

  lemma CloseAdds(cfg: Config, a: Auth, io: Io, act: Action)
    ensures AddsSupported(a.log.links, Close(cfg, a, io).0.log.links, act)
  {
    RecordedAdds(cfg, Revoke(a), Closed, RouteClosed(ShaOf(a.enrollment)), io, act);
  }

  lemma EnrollAdds(cfg: Config, a: Auth, act: Action)
    requires act.DoEnroll?
    ensures AddsSupported(a.log.links,
                          Enroll(cfg, a, act.lease, act.expected, act.candidate, act.io, act.io').0.log.links, act)
  {
    var (closed, ok) := Close(cfg, a, act.io);
    CloseAdds(cfg, a, act.io, act);
    CloseKeepsGeneration(cfg, a, act.io);
    hide Close, Recorded;
    var c := act.candidate;
    if act.lease && act.expected == a.generation && ok && c.source && c.members && c.claims && c.backend {
      var e := Installed(closed, c);
      RecordedAdds(cfg, e, closed.route, Enrolled(e.enrollment.value), act.io', act);
      var after := Recorded(cfg, e, closed.route, Enrolled(e.enrollment.value), act.io').0;
      AddsTwice(a.log.links, closed.log.links, after.log.links, act);
    }
    hide AddsSupported;
  }

  lemma CloseKeepsGeneration(cfg: Config, a: Auth, io: Io)
    ensures Close(cfg, a, io).0.generation == a.generation
  {
  }

  lemma ArriveAdds(cfg: Config, a: Auth, act: Action)
    requires act.DoArrive?
    ensures AddsSupported(a.log.links,
                          Arrive(cfg, a, act.requestId, act.admissionId, act.ev, act.io).0.log.links, act)
  {
    var marked := a.(seen := a.seen + {act.requestId});
    CloseAdds(cfg, marked, act.io, act);
    hide Close, Recorded;
    var renewed := Refresh(cfg, marked, act.ev, act.io).0;
    if Recheck(marked, act.ev).Some? && renewed.enrollment.Some? && act.requestId != "" && |act.requestId| <= 200 {
      RecordedAdds(cfg, renewed, renewed.route, Admit(act.requestId, act.admissionId, renewed.enrollment.value.sha),
                   act.io, act);
    }
    ClosedByRefresh(cfg, marked, act.ev, act.io);
    hide AddsSupported;
  }

  lemma ClosedByRefresh(cfg: Config, a: Auth, ev: Evidence, io: Io)
    ensures var renewed := Refresh(cfg, a, ev, io).0;
      renewed.route.Open? ==> renewed == a && Recheck(a, ev).Some?
  {
  }

  lemma NextAdds(cfg: Config, s: System, act: Action)
    ensures AddsSupported(s.auth.log.links, Next(cfg, s, act).auth.log.links, act)
  {
    var a := s.auth;
    hide Recorded, Close, Install, Arrive, Enroll;
    match act
    case DoQuery(writer, ev, io) => CloseAdds(cfg, a, io, act);
    case DoClose(lease, expected, io) => CloseAdds(cfg, a, io, act);
    case DoEnroll(lease, expected, c, io, io') => EnrollAdds(cfg, a, act);
    case DoAdmit(lease, g, m, ev, io) =>
      CloseAdds(cfg, a, io, act);
      if lease && a.enrollment.Some? && m == a.enrollment.value.sha && Recheck(a, ev).Some? {
        var admitted := a.(route := RouteFor(a.enrollment.value, a.generation));
        RecordedAdds(cfg, admitted, admitted.route, Opened(m, Recheck(a, ev).value), io, act);
      }
    case DoArrive(id, rid, aid, ev, io) => ArriveAdds(cfg, a, act);
    case DoBind(id, ev, peer, ev', io) =>
      if id in s.handlers && s.handlers[id].enrollment.Some? && Recheck(a, ev).Some? && peer && Recheck(a, ev').Some? {
        var h := s.handlers[id];
        RecordedAdds(cfg, a, h.route, PeerBound(h.requestId, h.admissionId, h.enrollment.value.sha), io, act);
      }
    case DoFinish(id, ev, backend, io) =>
      if id in s.handlers && s.handlers[id].enrollment.Some? && Recheck(a, ev).Some? && backend {
        var h := s.handlers[id];
        RecordedAdds(cfg, a, h.route, Complete(h.requestId, h.admissionId, h.enrollment.value.sha), io, act);
      }
    case DoRaise(id) =>
    case DoHandle(id, io) => CloseAdds(cfg, a, io, act);
    case OwnerGone(io) => CloseAdds(cfg, a, io, act);
  }

  lemma SupportedLater(actions: seq<Action>, act: Action, d: Detail)
    requires Supported(actions, d) || Supports(act, d)
    ensures Supported(actions + [act], d)
  {
    var more := actions + [act];
    if Supported(actions, d) {
      var m: nat :| m < |actions| && Supports(actions[m], d);
      assert more[m] == actions[m];
    } else {
      assert more[|actions|] == act;
    }
  }

  // In every run, every record but the start was written by an action that
  // brought the evidence for it.
  lemma {:induction false} EvidenceBehindRecords(cfg: Config, io: Io, actions: seq<Action>)
    requires Begun(cfg, io).1 == Done
    ensures var links := Run(cfg, io, actions).auth.log.links;
      links != [] && forall k :: 0 < k < |links| ==> Supported(actions, DetailAt(links, k))
  {
    if actions == [] {
    } else {
      var front, act := actions[..|actions| - 1], actions[|actions| - 1];
      assert actions == front + [act];
      EvidenceBehindRecords(cfg, io, front);
      NextAdds(cfg, Run(cfg, io, front), act);
      var before, after := Run(cfg, io, front).auth.log.links, Run(cfg, io, actions).auth.log.links;
      hide Next, Supported, Supports;
      forall k | 0 < k < |after| ensures Supported(actions, DetailAt(after, k)) {
        SupportedLater(front, act, DetailAt(after, k));
      }
    }
  }

  // ---------------------------------------------------------------------
  // What each stretch does with its evidence

  predicate NewId(a: Auth, rid: string) {
    rid != "" && |rid| <= 200 && rid !in a.seen
  }

  // The route is shut, and what it was open for is revoked for good.
  predicate ShutDown(before: Auth, after: Auth) {
    && before.enrollment.Some? && after.route.Closed?
    && after.revoked == before.revoked + {before.enrollment.value.sha}
  }

  // A new, well-formed request: on an open route and whole evidence it is
  // admitted if its record is written; on an open route without, the route is
  // shut down and nothing said of the request; on a closed one nothing happens.
  lemma ArriveExactly(cfg: Config, s: System, id: nat, rid: string, aid: string, ev: Evidence, io: Io)
    requires SystemOk(s) && id !in s.handlers
    ensures var a, t := s.auth, Next(cfg, s, DoArrive(id, rid, aid, ev, io));
      && id in t.handlers
      && (t.handlers[id].stage == Admitted <==>
            && NewId(a, rid) && a.route.Open? && Whole(ev)
            && Write(cfg, a.log, a.route, Admit(rid, aid, a.route.enrollment), io).1 == Done)
      && (t.handlers[id].stage == Admitted ==>
            Grew(a.log.links, t.auth.log.links, Admit(rid, aid, a.route.enrollment)) && t.auth.route == a.route)
      && (t.handlers[id].stage != Admitted ==>
            t.handlers[id].stage == Raised
            && forall k :: |a.log.links| <= k < |t.auth.log.links| ==> DetailAt(t.auth.log.links, k).RouteClosed?)
      && (NewId(a, rid) && a.route.Open? && !Whole(ev) ==> ShutDown(a, t.auth))
      && (!NewId(a, rid) || a.route.Closed? ==> t.auth == a.(seen := t.auth.seen))
      && t.handlers[id].requestId == rid && t.handlers[id].admissionId == aid
      && t.handlers[id].enrollment == (if NewId(a, rid) && a.route.Open? && Whole(ev) then a.enrollment else None)
      && (t.handlers[id].stage == Admitted ==> t.handlers[id].route == a.route)
  {
    var marked := s.auth.(seen := s.auth.seen + {rid});
    RecordedShape(cfg, Revoke(marked), Closed, RouteClosed(ShaOf(marked.enrollment)), io);
    var enrollment := if marked.route.Open? then marked.route.enrollment else "";
    RecordedShape(cfg, marked, marked.route, Admit(rid, aid, enrollment), io);
    hide Write;
  }

  // A writer's query shuts an open route down without whole evidence, and
  // changes nothing otherwise; no other query changes anything.
  lemma QueryExactly(cfg: Config, s: System, writer: bool, ev: Evidence, io: Io)
    requires SystemOk(s)
    ensures var a, after := s.auth, Next(cfg, s, DoQuery(writer, ev, io)).auth;
      if writer && a.route.Open? && !Whole(ev) then ShutDown(a, after) else after == a
  {
    hide Write;
  }

  // Opening: the current, unrevoked enrollment under the lease and on whole
  // evidence; without that evidence it is shut down.
  lemma AdmitExactly(cfg: Config, s: System, act: Action)
    requires SystemOk(s) && act.DoAdmit?
    ensures var a, after := s.auth, Next(cfg, s, act).auth;
      var asked := act.lease && a.enrollment.Some? && act.generation == a.generation
                   && act.membership == a.enrollment.value.sha;
      && (!asked ==> after == a)
      && (asked && (!Whole(act.ev) || act.membership in a.revoked) ==> ShutDown(a, after))
      && (asked && Whole(act.ev) && act.membership !in a.revoked ==>
            var route := Open(a.generation, a.enrollment.value.epoch, act.membership);
            var outcome := Write(cfg, a.log, route, Opened(act.membership, act.ev.plan.value), act.io).1;
            && after.revoked == a.revoked && after.route == (if outcome == Failed then Closed else route)
            && (outcome == Done ==> Grew(a.log.links, after.log.links, Opened(act.membership, act.ev.plan.value))))
  {
    var a := s.auth;
    if a.enrollment.Some? && act.ev.plan.Some? {
      var admitted := a.(route := RouteFor(a.enrollment.value, a.generation));
      RecordedShape(cfg, admitted, admitted.route, Opened(a.enrollment.value.sha, act.ev.plan.value), act.io);
    }
    hide Write;
  }

  // The enrollment that admitted the request is the current one, unrevoked.
  predicate StillEnrolled(a: Auth, h: Handler) {
    && a.enrollment.Some? && h.enrollment.Some? && a.enrollment.value.sha == h.enrollment.value.sha
    && h.enrollment.value.sha !in a.revoked
  }

  // Binding and completing: the handler's enrollment is still the current,
  // unrevoked one, the evidence is whole, and the record is written.
  lemma BindExactly(cfg: Config, s: System, act: Action)
    requires SystemOk(s) && act.DoBind? && act.id in s.handlers && s.handlers[act.id].stage == Admitted
    ensures var a, h, t := s.auth, s.handlers[act.id], Next(cfg, s, act);
      var d := PeerBound(h.requestId, h.admissionId, if h.enrollment.Some? then h.enrollment.value.sha else "");
      && (t.handlers[act.id].stage == Bound <==>
            && StillEnrolled(a, h)
            && a.route.Open? && a.route.generation == h.enrollment.value.generation
            && Whole(act.ev) && act.peer && Whole(act.ev') && Write(cfg, a.log, h.route, d, act.io).1 == Done)
      && (if t.handlers[act.id].stage == Bound then Grew(a.log.links, t.auth.log.links, d)
          else t.handlers[act.id].stage == Raised && t.auth.log.links == a.log.links)
  {
    var h := s.handlers[act.id];
    var d := PeerBound(h.requestId, h.admissionId, if h.enrollment.Some? then h.enrollment.value.sha else "");
    RecordedShape(cfg, s.auth, h.route, d, act.io);
    hide Write;
  }

  lemma FinishExactly(cfg: Config, s: System, act: Action)
    requires SystemOk(s) && act.DoFinish? && act.id in s.handlers && s.handlers[act.id].stage == Bound
    ensures var a, h, t := s.auth, s.handlers[act.id], Next(cfg, s, act);
      var d := Complete(h.requestId, h.admissionId, if h.enrollment.Some? then h.enrollment.value.sha else "");
      && (t.handlers[act.id].stage == Completed <==>
            && StillEnrolled(a, h)
            && Whole(act.ev) && act.backend && Write(cfg, a.log, h.route, d, act.io).1 == Done)
      && (if t.handlers[act.id].stage == Completed then Grew(a.log.links, t.auth.log.links, d)
          else t.handlers[act.id].stage == Raised && t.auth.log.links == a.log.links)
  {
    var h := s.handlers[act.id];
    var d := Complete(h.requestId, h.admissionId, if h.enrollment.Some? then h.enrollment.value.sha else "");
    RecordedShape(cfg, s.auth, h.route, d, act.io);
    hide Write;
  }

  predicate NewMember(a: Auth, c: Candidate) {
    && c.source && (a.enrollment.Some? ==> c.previousGone) && c.members && c.claims && c.backend
    && c.launch !in a.launches && c.api !in a.kernels
  }

  // Enrolling under the lease first closes and revokes; the candidate is then
  // installed, one generation on, exactly when that was recorded and it is in
  // order: the previous one gone, and its launch and kernel never used before.
  lemma EnrollExactly(cfg: Config, s: System, act: Action)
    requires SystemOk(s) && act.DoEnroll?
    ensures var a, after, c := s.auth, Next(cfg, s, act).auth, act.candidate;
      if !act.lease || act.expected != a.generation then after == a
      else
        var closed := Write(cfg, a.log, Closed, RouteClosed(ShaOf(a.enrollment)), act.io).1 == Done;
        && after.route.Closed? && (a.enrollment.Some? ==> a.enrollment.value.sha in after.revoked)
        && (if closed && NewMember(a, c) then
              && after.generation == a.generation + 1
              && after.enrollment == Some(Enrollment(c.sha, a.generation + 1, c.epoch, c.launch, c.api))
              && after.launches == a.launches + {c.launch} && after.kernels == a.kernels + {c.api}
            else after.generation == a.generation && after.enrollment == a.enrollment)
  {
    var a := s.auth;
    RecordedShape(cfg, Revoke(a), Closed, RouteClosed(ShaOf(a.enrollment)), act.io);
    var closed := Close(cfg, a, act.io).0;
    var e := Installed(closed, act.candidate);
    RecordedShape(cfg, e, closed.route, Enrolled(e.enrollment.value), act.io');
    hide Write;
  }

  // What asks for a close: a writer naming the current generation, the end of
  // the owner, and a failed request of the current enrollment.
  predicate AsksClose(s: System, act: Action) {
    var a := s.auth;
    match act
    case DoClose(lease, expected, _) => lease && expected == a.generation
    case OwnerGone(_) => true
    case DoHandle(id, _) =>
      && id in s.handlers && s.handlers[id].stage == Raised && s.handlers[id].enrollment.Some?
      && a.enrollment.Some? && a.enrollment.value.sha == s.handlers[id].enrollment.value.sha
    case _ => false
  }

  // The route is shut and the enrollment revoked, whether or not the record of
  // it can be written; anything else asked this way changes nothing.
  lemma CloseExactly(cfg: Config, s: System, act: Action)
    requires act.DoClose? || act.OwnerGone? || act.DoHandle?
    ensures var a, after := s.auth, Next(cfg, s, act).auth;
      if AsksClose(s, act) then
        && after.route.Closed? && after.generation == a.generation && after.enrollment == a.enrollment
        && after.revoked == a.revoked + (if a.enrollment.Some? then {a.enrollment.value.sha} else {})
        && var record := RouteClosed(if a.enrollment.Some? then Some(a.enrollment.value.sha) else None);
        (if Write(cfg, a.log, Closed, record, act.io).1 == Done then Grew(a.log.links, after.log.links, record)
         else after.log.links == a.log.links)
      else after == a
  {
    RecordedShape(cfg, Revoke(s.auth), Closed, RouteClosed(ShaOf(s.auth.enrollment)), act.io);
    hide Write;
  }

  // A request in flight that fails: if its enrollment is still the current one,
  // the route is shut and the enrollment revoked; a later one is left alone.
  lemma FailureExactly(cfg: Config, s: System, id: nat, io: Io)
    requires id in s.handlers && s.handlers[id].stage in {Admitted, Bound, Completed}
    ensures var a, h, t := s.auth, s.handlers[id], Next(cfg, Next(cfg, s, DoRaise(id)), DoHandle(id, io));
      && id in t.handlers && t.handlers[id] == h.(stage := Finished)
      && (if a.enrollment.Some? && h.enrollment.Some? && a.enrollment.value.sha == h.enrollment.value.sha
          then t.auth.route.Closed? && t.auth.revoked == a.revoked + {h.enrollment.value.sha}
          else t.auth == a)
  {
    RecordedShape(cfg, Revoke(s.auth), Closed, RouteClosed(ShaOf(s.auth.enrollment)), io);
    hide Write;
  }

  // What the three control operations answer: success exactly when the record
  // that completes them is written.
  lemma AnswersExactly(cfg: Config, s: System, act: Action)
    requires SystemOk(s)
    ensures var a := s.auth;
      var close := RouteClosed(if a.enrollment.Some? then Some(a.enrollment.value.sha) else None);
      match act
      case DoClose(lease, expected, io) =>
        CloseGeneration(cfg, a, lease, expected, io).1
        <==> lease && expected == a.generation && Write(cfg, a.log, Closed, close, io).1 == Done
      case DoEnroll(lease, expected, c, io, io') =>
        Enroll(cfg, a, lease, expected, c, io, io').1
        <==> lease && expected == a.generation && Write(cfg, a.log, Closed, close, io).1 == Done && NewMember(a, c)
             && var e := Enrollment(c.sha, a.generation + 1, c.epoch, c.launch, c.api);
             Write(cfg, Write(cfg, a.log, Closed, close, io).0, Closed, Enrolled(e), io').1 == Done
      case DoAdmit(lease, generation, membership, ev, io) =>
        AdmitGeneration(cfg, a, lease, generation, membership, ev, io).1
        <==> lease && a.enrollment.Some? && generation == a.generation && membership == a.enrollment.value.sha
             && Whole(ev) && membership !in a.revoked
             && Write(cfg, a.log, Open(generation, a.enrollment.value.epoch, membership),
                      Opened(membership, ev.plan.value), io).1 == Done
      case _ => true
  {
    hide Write;
  }
}
