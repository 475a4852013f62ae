/** What the dynamic authority's journal tells about its requests and openings. */
module DynamicHistory {
  import opened JournalBytes
  import opened HashChain
  import opened DynamicAuthority
  import opened DynamicSafety

  // ---------------------------------------------------------------------
  // Nothing is ever taken back

  ghost predicate Grows(a: Auth, b: Auth) {
    && a.generation <= b.generation
    && a.revoked <= b.revoked && a.launches <= b.launches && a.kernels <= b.kernels && a.seen <= b.seen
    && a.log.links <= b.log.links && a.log.file <= b.log.file
  }

  lemma RecordedGrows(cfg: Config, a: Auth, route: Route, d: Detail, io: Io)
    ensures Grows(a, Recorded(cfg, a, route, d, io).0)
  {
  }

  lemma CloseGrows(cfg: Config, a: Auth, io: Io)
    ensures Grows(a, Close(cfg, a, io).0)
    ensures var b := Close(cfg, a, io).0;
      b == a.(route := Closed, revoked := b.revoked, log := b.log)
  {
    RecordedGrows(cfg, Revoke(a), Closed, RouteClosed(ShaOf(a.enrollment)), io);
  }

  lemma EnrollGrows(cfg: Config, a: Auth, lease: bool, expected: int, c: Candidate, io: Io, io': Io)
    ensures Grows(a, Enroll(cfg, a, lease, expected, c, io, io').0)
  {
    CloseGrows(cfg, a, io);
    var closed := Close(cfg, a, io).0;
    var enrolled := Installed(closed, c);
    RecordedGrows(cfg, enrolled, closed.route, Enrolled(enrolled.enrollment.value), io');
  }

  lemma AdmitGrows(cfg: Config, a: Auth, lease: bool, generation: int, membership: Digest, ev: Evidence, io: Io)
    ensures Grows(a, AdmitGeneration(cfg, a, lease, generation, membership, ev, io).0)
  {
    CloseGrows(cfg, a, io);
    if Recheck(a, ev).Some? {
      var admitted := a.(route := RouteFor(a.enrollment.value, a.generation));
      RecordedGrows(cfg, admitted, admitted.route, Opened(a.enrollment.value.sha, Recheck(a, ev).value), io);
    }
  }

  lemma ArriveGrows(cfg: Config, a: Auth, requestId: string, admissionId: string, ev: Evidence, io: Io)
    ensures Grows(a, Arrive(cfg, a, requestId, admissionId, ev, io).0)
  {
    var marked := a.(seen := a.seen + {requestId});
    CloseGrows(cfg, marked, io);
    var renewed := Refresh(cfg, marked, ev, io).0;
    if renewed.enrollment.Some? {
      RecordedGrows(cfg, renewed, renewed.route, Admit(requestId, admissionId, renewed.enrollment.value.sha), io);
    }
  }

  // Generations only grow; what is revoked, used, seen or journalled stays so.
  lemma NextGrows(cfg: Config, s: System, act: Action)
    ensures Grows(s.auth, Next(cfg, s, act).auth)
  {
    var a := s.auth;
    match act
    case DoQuery(writer, ev, io) => CloseGrows(cfg, a, io);
    case DoClose(lease, expected, io) => CloseGrows(cfg, a, io);
    case DoEnroll(lease, expected, c, io, io') => EnrollGrows(cfg, a, lease, expected, c, io, io');
    case DoAdmit(lease, g, m, ev, io) => AdmitGrows(cfg, a, lease, g, m, ev, io);
    case DoArrive(id, rid, aid, ev, io) => ArriveGrows(cfg, a, rid, aid, ev, io);
    case DoBind(id, ev, peer, ev', io) =>
      if id in s.handlers && s.handlers[id].enrollment.Some? {
        var h := s.handlers[id];
        RecordedGrows(cfg, a, h.route, PeerBound(h.requestId, h.admissionId, h.enrollment.value.sha), io);
      }
    case DoFinish(id, ev, backend, io) =>
      if id in s.handlers && s.handlers[id].enrollment.Some? {
        var h := s.handlers[id];
        RecordedGrows(cfg, a, h.route, Complete(h.requestId, h.admissionId, h.enrollment.value.sha), io);
      }
    case DoRaise(id) =>
    case DoHandle(id, io) => CloseGrows(cfg, a, io);
    case OwnerGone(io) => CloseGrows(cfg, a, io);
  }

  lemma {:induction false} RunGrows(cfg: Config, io: Io, actions: seq<Action>, n: nat)
    requires n <= |actions|
    ensures Grows(Run(cfg, io, actions[..n]).auth, Run(cfg, io, actions).auth)
  {
    if n == |actions| {
      assert actions[..n] == actions;
    } else {
      var front := actions[..|actions| - 1];
      RunGrows(cfg, io, front, n);
      assert front[..n] == actions[..n];
      NextGrows(cfg, Run(cfg, io, front), actions[|actions| - 1]);
    }
  }

  // ---------------------------------------------------------------------
  // Every completion was bound, every binding admitted

  ghost predicate Occurs(links: Links, upto: nat, d: Detail)
    requires upto <= |links|
  {
    exists i :: 0 <= i < upto && DetailAt(links, i) == d
  }

  ghost predicate Explained(links: Links, k: nat)
    requires k < |links|
  {
    match DetailAt(links, k)
    case PeerBound(rid, aid, sha) => Occurs(links, k, Admit(rid, aid, sha))
    case Complete(rid, aid, sha) => Occurs(links, k, PeerBound(rid, aid, sha))
    case _ => true
  }

  ghost predicate AllExplained(links: Links) {
    forall k :: 0 <= k < |links| ==> Explained(links, k)
  }

  ghost predicate HandlerSeen(links: Links, h: Handler) {
    && (h.stage == Admitted ==>
          h.enrollment.Some? && Occurs(links, |links|, Admit(h.requestId, h.admissionId, h.enrollment.value.sha)))
    && (h.stage == Bound ==>
          h.enrollment.Some? && Occurs(links, |links|, PeerBound(h.requestId, h.admissionId, h.enrollment.value.sha)))
  }

  ghost predicate LifecycleOk(s: System) {
    && AllExplained(s.auth.log.links)
    && forall id :: id in s.handlers ==> HandlerSeen(s.auth.log.links, s.handlers[id])
  }

  lemma OccursLater(before: Links, after: Links, d: Detail, x: Detail)
    requires Grew(before, after, x)
    ensures Occurs(before, |before|, d) ==> Occurs(after, |before|, d) && Occurs(after, |after|, d)
    ensures Occurs(after, |after|, x)
  {
  }

  lemma ExplainedGrows(before: Links, after: Links, x: Detail)
    requires AllExplained(before) && Grew(before, after, x)
    requires x.PeerBound? ==> Occurs(before, |before|, Admit(x.requestId, x.admissionId, x.sha))
    requires x.Complete? ==> Occurs(before, |before|, PeerBound(x.requestId, x.admissionId, x.sha))
    ensures AllExplained(after)
  {
    forall k | 0 <= k < |after|
      ensures Explained(after, k)
    {
      if k < |before| {
        assert DetailAt(after, k) == DetailAt(before, k) && Explained(before, k);
        forall d | Occurs(before, k, d)
          ensures Occurs(after, k, d)
        {
          var i :| 0 <= i < k && DetailAt(before, i) == d;
          assert DetailAt(after, i) == d;
        }
      } else if x.PeerBound? {
        OccursLater(before, after, Admit(x.requestId, x.admissionId, x.sha), x);
      } else if x.Complete? {
        OccursLater(before, after, PeerBound(x.requestId, x.admissionId, x.sha), x);
      }
    }
  }

  // One record, or none, and the other handlers keep what they saw.
  lemma RecordedLifecycle(cfg: Config, a: Auth, route: Route, d: Detail, io: Io)
    requires AllExplained(a.log.links)
    requires d.PeerBound? ==> Occurs(a.log.links, |a.log.links|, Admit(d.requestId, d.admissionId, d.sha))
    requires d.Complete? ==> Occurs(a.log.links, |a.log.links|, PeerBound(d.requestId, d.admissionId, d.sha))
    ensures var (after, ok) := Recorded(cfg, a, route, d, io);
      && AllExplained(after.log.links)
      && (ok ==> Occurs(after.log.links, |after.log.links|, d))
      && (forall h :: HandlerSeen(a.log.links, h) ==> HandlerSeen(after.log.links, h))
  {
    RecordedShape(cfg, a, route, d, io);
    var after := Recorded(cfg, a, route, d, io).0.log.links;
    if after != a.log.links {
      ExplainedGrows(a.log.links, after, d);
      OccursLater(a.log.links, after, d, d);
      forall h | HandlerSeen(a.log.links, h)
        ensures HandlerSeen(after, h)
      {
        if h.enrollment.Some? {
          OccursLater(a.log.links, after, Admit(h.requestId, h.admissionId, h.enrollment.value.sha), d);
          OccursLater(a.log.links, after, PeerBound(h.requestId, h.admissionId, h.enrollment.value.sha), d);
        }
      }
    }
  }

  ghost predicate LogStep(a: Auth, b: Auth) {
    && AllExplained(b.log.links)
    && (forall h :: HandlerSeen(a.log.links, h) ==> HandlerSeen(b.log.links, h))
  }

  lemma CloseLifecycle(cfg: Config, a: Auth, io: Io)
    requires AllExplained(a.log.links)
    ensures LogStep(a, Close(cfg, a, io).0)
  {
    RecordedLifecycle(cfg, Revoke(a), Closed, RouteClosed(ShaOf(a.enrollment)), io);
  }

  lemma EnrollLifecycle(cfg: Config, a: Auth, lease: bool, expected: int, c: Candidate, io: Io, io': Io)
    requires AllExplained(a.log.links)
    ensures LogStep(a, Enroll(cfg, a, lease, expected, c, io, io').0)
  {
    CloseLifecycle(cfg, a, io);
    var closed := Close(cfg, a, io).0;
    var enrolled := Installed(closed, c);
    RecordedLifecycle(cfg, enrolled, closed.route, Enrolled(enrolled.enrollment.value), io');
  }

  lemma AdmitLifecycle(cfg: Config, a: Auth, lease: bool, generation: int, membership: Digest, ev: Evidence, io: Io)
    requires AllExplained(a.log.links)
    ensures LogStep(a, AdmitGeneration(cfg, a, lease, generation, membership, ev, io).0)
  {
    CloseLifecycle(cfg, a, io);
    if Recheck(a, ev).Some? {
      var admitted := a.(route := RouteFor(a.enrollment.value, a.generation));
      RecordedLifecycle(cfg, admitted, admitted.route, Opened(a.enrollment.value.sha, Recheck(a, ev).value), io);
    }
  }

  lemma ArriveLifecycle(cfg: Config, a: Auth, requestId: string, admissionId: string, ev: Evidence, io: Io)
    requires AllExplained(a.log.links)
    ensures var (after, h) := Arrive(cfg, a, requestId, admissionId, ev, io);
      LogStep(a, after) && HandlerSeen(after.log.links, h)
  {
    var marked := a.(seen := a.seen + {requestId});
    CloseLifecycle(cfg, marked, io);
    var renewed := Refresh(cfg, marked, ev, io).0;
    if renewed.route.Open? && renewed.enrollment.Some? {
      RecordedLifecycle(cfg, renewed, renewed.route,
                        Admit(requestId, admissionId, renewed.enrollment.value.sha), io);
    }
  }

  lemma BindLifecycle(cfg: Config, a: Auth, h: Handler, ev: Evidence, peer: bool, ev': Evidence, io: Io)
    requires AllExplained(a.log.links) && HandlerSeen(a.log.links, h) && h.stage == Admitted
    ensures var (after, h') := Bind(cfg, a, h, ev, peer, ev', io);
      LogStep(a, after) && HandlerSeen(after.log.links, h')
  {
    RecordedLifecycle(cfg, a, h.route, PeerBound(h.requestId, h.admissionId, h.enrollment.value.sha), io);
  }

  lemma FinishLifecycle(cfg: Config, a: Auth, h: Handler, ev: Evidence, backend: bool, io: Io)
    requires AllExplained(a.log.links) && HandlerSeen(a.log.links, h) && h.stage == Bound
    ensures var (after, h') := Finish(cfg, a, h, ev, backend, io);
      LogStep(a, after) && HandlerSeen(after.log.links, h')
  {
    RecordedLifecycle(cfg, a, h.route, Complete(h.requestId, h.admissionId, h.enrollment.value.sha), io);
  }

  lemma NextLifecycle(cfg: Config, s: System, act: Action)
    requires LifecycleOk(s)
    ensures LifecycleOk(Next(cfg, s, act))
  {
    var a := s.auth;
    match act
    case DoQuery(writer, ev, io) => CloseLifecycle(cfg, a, io);
    case DoClose(lease, expected, io) => CloseLifecycle(cfg, a, io);
    case DoEnroll(lease, expected, c, io, io') => EnrollLifecycle(cfg, a, lease, expected, c, io, io');
    case DoAdmit(lease, g, m, ev, io) => AdmitLifecycle(cfg, a, lease, g, m, ev, io);
    case DoArrive(id, rid, aid, ev, io) => ArriveLifecycle(cfg, a, rid, aid, ev, io);
    case DoBind(id, ev, peer, ev', io) =>
      if id in s.handlers && s.handlers[id].stage == Admitted {
        BindLifecycle(cfg, a, s.handlers[id], ev, peer, ev', io);
      }
    case DoFinish(id, ev, backend, io) =>
      if id in s.handlers && s.handlers[id].stage == Bound {
        FinishLifecycle(cfg, a, s.handlers[id], ev, backend, io);
      }
    case DoRaise(id) =>
    case DoHandle(id, io) => CloseLifecycle(cfg, a, io);
    case OwnerGone(io) => CloseLifecycle(cfg, a, io);
  }

  // In every run, a completion record follows its binding record and a binding
  // record follows its admission record, all naming the same enrollment.
  lemma {:induction false} RequestsInOrder(cfg: Config, io: Io, actions: seq<Action>)
    requires Begun(cfg, io).1 == Done
    ensures LifecycleOk(Run(cfg, io, actions))
  {
    if actions == [] {
    } else {
      RequestsInOrder(cfg, io, actions[..|actions| - 1]);
      NextLifecycle(cfg, Run(cfg, io, actions[..|actions| - 1]), actions[|actions| - 1]);
    }
  }

  // ---------------------------------------------------------------------
  // Openings and their records

  ghost predicate OpenedBefore(links: Links, upto: nat, sha: Digest)
    requires upto <= |links|
  {
    exists i :: 0 <= i < upto && DetailAt(links, i).Opened? && DetailAt(links, i).sha == sha
  }

  // An open route has an opening record.
  ghost predicate Backed(a: Auth) {
    a.route.Open? ==> OpenedBefore(a.log.links, |a.log.links|, a.route.enrollment)
  }

  // An accepted admission whose opening record the journal has no room for, or
  // gets stuck in: neither is an operating-system error, so the route stays
  // open.
  ghost predicate SilentOpening(cfg: Config, s: System, act: Action) {
    && act.DoAdmit? && act.lease && s.auth.enrollment.Some?
    && act.generation == s.auth.generation && act.membership == s.auth.enrollment.value.sha
    && Recheck(s.auth, act.ev).Some?
    && Write(cfg, s.auth.log, RouteFor(s.auth.enrollment.value, s.auth.generation),
             Opened(act.membership, Recheck(s.auth, act.ev).value), act.io).1 in {Full, Stalled}
  }

  lemma GrewKeepsOpened(before: Links, after: Links, d: Detail, sha: Digest)
    requires Grew(before, after, d)
    ensures OpenedBefore(before, |before|, sha) ==> OpenedBefore(after, |after|, sha)
    ensures d.Opened? && d.sha == sha ==> OpenedBefore(after, |after|, sha)
    ensures OpenedBefore(after, |after|, sha) ==> OpenedBefore(before, |before|, sha) || (d.Opened? && d.sha == sha)
  {
  }

  lemma RecordedBacked(cfg: Config, a: Auth, route: Route, d: Detail, io: Io)
    requires Backed(a)
    ensures Backed(Recorded(cfg, a, route, d, io).0)
  {
    RecordedShape(cfg, a, route, d, io);
    var after := Recorded(cfg, a, route, d, io).0;
    if after.route.Open? && after.log.links != a.log.links {
      GrewKeepsOpened(a.log.links, after.log.links, d, after.route.enrollment);
    }
  }

  // Opening is the only action that can leave an open route without a record,
  // and it does so exactly when the record is refused for capacity, or gets
  // stuck, and the enrollment was never opened before.
  lemma OpeningBackedExactly(cfg: Config, s: System, act: Action)
    requires act.DoAdmit? && Backed(s.auth) && AuthOk(s.auth)
    ensures !Backed(Next(cfg, s, act).auth) <==>
            SilentOpening(cfg, s, act) && !OpenedBefore(s.auth.log.links, |s.auth.log.links|, act.membership)
  {
    var a := s.auth;
    RecordedBacked(cfg, Revoke(a), Closed, RouteClosed(ShaOf(a.enrollment)), act.io);
    if act.lease && a.enrollment.Some? && act.generation == a.generation
       && act.membership == a.enrollment.value.sha && Recheck(a, act.ev).Some? {
      var admitted := a.(route := RouteFor(a.enrollment.value, a.generation));
      var d := Opened(a.enrollment.value.sha, Recheck(a, act.ev).value);
      RecordedShape(cfg, admitted, admitted.route, d, act.io);
      var after := Recorded(cfg, admitted, admitted.route, d, act.io).0;
      if after.log.links != a.log.links {
        GrewKeepsOpened(a.log.links, after.log.links, d, d.sha);
      }
    }
  }

  lemma NextBacked(cfg: Config, s: System, act: Action)
    requires Backed(s.auth) && SystemOk(s) && !SilentOpening(cfg, s, act)
    ensures Backed(Next(cfg, s, act).auth)
  {
    var a := s.auth;
    match act
    case DoQuery(writer, ev, io) => RecordedBacked(cfg, Revoke(a), Closed, RouteClosed(ShaOf(a.enrollment)), io);
    case DoClose(lease, expected, io) => RecordedBacked(cfg, Revoke(a), Closed, RouteClosed(ShaOf(a.enrollment)), io);
    case DoEnroll(lease, expected, c, io, io') => EnrollCloses(cfg, a, lease, expected, c, io, io');
    case DoAdmit(lease, g, m, ev, io) => OpeningBackedExactly(cfg, s, act);
    case DoArrive(id, rid, aid, ev, io) => ArriveBacked(cfg, a, rid, aid, ev, io);
    case DoBind(id, ev, peer, ev', io) =>
      if id in s.handlers && s.handlers[id].stage == Admitted && s.handlers[id].enrollment.Some? {
        var h := s.handlers[id];
        RecordedBacked(cfg, a, h.route, PeerBound(h.requestId, h.admissionId, h.enrollment.value.sha), io);
      }
    case DoFinish(id, ev, backend, io) =>
      if id in s.handlers && s.handlers[id].stage == Bound && s.handlers[id].enrollment.Some? {
        var h := s.handlers[id];
        RecordedBacked(cfg, a, h.route, Complete(h.requestId, h.admissionId, h.enrollment.value.sha), io);
      }
    case DoRaise(id) =>
    case DoHandle(id, io) => RecordedBacked(cfg, Revoke(a), Closed, RouteClosed(ShaOf(a.enrollment)), io);
    case OwnerGone(io) => RecordedBacked(cfg, Revoke(a), Closed, RouteClosed(ShaOf(a.enrollment)), io);
  }

  lemma EnrollCloses(cfg: Config, a: Auth, lease: bool, expected: int, c: Candidate, io: Io, io': Io)
    requires Backed(a)
    ensures Backed(Enroll(cfg, a, lease, expected, c, io, io').0)
  {
    RecordedShape(cfg, Revoke(a), Closed, RouteClosed(ShaOf(a.enrollment)), io);
  }

  lemma ArriveBacked(cfg: Config, a: Auth, requestId: string, admissionId: string, ev: Evidence, io: Io)
    requires Backed(a)
    ensures Backed(Arrive(cfg, a, requestId, admissionId, ev, io).0)
  {
    var marked := a.(seen := a.seen + {requestId});
    RecordedBacked(cfg, Revoke(marked), Closed, RouteClosed(ShaOf(a.enrollment)), io);
    var renewed := Refresh(cfg, marked, ev, io).0;
    if renewed.route.Open? && renewed.enrollment.Some? {
      RecordedBacked(cfg, renewed, renewed.route,
                     Admit(requestId, admissionId, renewed.enrollment.value.sha), io);
    }
  }

  // While no opening is silent, an open route always has its opening record.
  lemma {:induction false} OpenRoutesAreRecorded(cfg: Config, io: Io, actions: seq<Action>)
    requires Begun(cfg, io).1 == Done
    requires forall n :: 0 <= n < |actions| ==> !SilentOpening(cfg, Run(cfg, io, actions[..n]), actions[n])
    ensures Backed(Run(cfg, io, actions).auth)
  {
    if actions == [] {
    } else {
      var m := |actions| - 1;
      var front := actions[..m];
      forall n | 0 <= n < m
        ensures !SilentOpening(cfg, Run(cfg, io, front[..n]), front[n])
      {
        assert front[..n] == actions[..n];
      }
      OpenRoutesAreRecorded(cfg, io, front);
      RunKeeps(cfg, io, front);
      NextBacked(cfg, Run(cfg, io, front), actions[m]);
    }
  }
}
