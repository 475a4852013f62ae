/** Safety of the dynamic authority over every interleaving of its actions. */
module DynamicSafety {
  import opened Wrappers
  import opened JournalBytes
  import opened HashChain
  import opened DynamicAuthority

  type Links = seq<Link<Record>>

  // The enrollment a record acts under.
  function Carried(d: Detail): Option<Digest> {
    match d
    case Opened(sha, _) => Some(sha)
    case Admit(_, _, sha) => Some(sha)
    case PeerBound(_, _, sha) => Some(sha)
    case Complete(_, _, sha) => Some(sha)
    case AuthorityStart => None
    case RouteClosed(_) => None
    case Enrolled(_) => None
  }

  function Named(d: Detail): Option<Digest> {
    if d.RouteClosed? then d.revoked else None
  }

  function DetailAt(links: Links, i: nat): Detail
    requires i < |links|
  {
    links[i].payload.detail
  }

  // ---------------------------------------------------------------------
  // The invariant, part by part

  // An open route is the current enrollment's, of the current generation, and
  // not revoked.
  ghost predicate RouteCurrent(a: Auth) {
    a.route.Open? ==>
      && a.enrollment.Some?
      && a.route == RouteFor(a.enrollment.value, a.generation)
      && a.enrollment.value.sha !in a.revoked
  }

  ghost predicate EnrollmentUsed(a: Auth) {
    a.enrollment.Some? ==>
      && a.enrollment.value.generation == a.generation
      && a.enrollment.value.launch in a.launches
      && a.enrollment.value.api in a.kernels
  }

  ghost predicate NamedAreRevoked(a: Auth) {
    forall i :: 0 <= i < |a.log.links| && Named(DetailAt(a.log.links, i)).Some? ==>
      Named(DetailAt(a.log.links, i)).value in a.revoked
  }

  ghost predicate NeverCarriedAgain(links: Links) {
    forall i, k :: 0 <= i < k < |links| && Named(DetailAt(links, i)).Some? ==>
      Carried(DetailAt(links, k)) != Named(DetailAt(links, i))
  }

  ghost predicate EnrolledOnce(links: Links) {
    forall i, k :: 0 <= i < k < |links| && DetailAt(links, i).Enrolled? && DetailAt(links, k).Enrolled? ==>
      && DetailAt(links, i).enrollment.generation < DetailAt(links, k).enrollment.generation
      && DetailAt(links, i).enrollment.launch != DetailAt(links, k).enrollment.launch
      && DetailAt(links, i).enrollment.api != DetailAt(links, k).enrollment.api
  }

  ghost predicate EnrolledAreUsed(a: Auth) {
    forall i :: 0 <= i < |a.log.links| && DetailAt(a.log.links, i).Enrolled? ==>
      && DetailAt(a.log.links, i).enrollment.generation <= a.generation
      && DetailAt(a.log.links, i).enrollment.launch in a.launches
      && DetailAt(a.log.links, i).enrollment.api in a.kernels
  }

  ghost predicate AuthOk(a: Auth) {
    && RouteCurrent(a) && EnrollmentUsed(a)
    && NamedAreRevoked(a) && NeverCarriedAgain(a.log.links)
    && EnrolledOnce(a.log.links) && EnrolledAreUsed(a)
  }

  // ---------------------------------------------------------------------
  // One record at a time

  // A record the invariant allows next.
  ghost predicate MayFollow(a: Auth, d: Detail) {
    && (Carried(d).Some? ==> Carried(d).value !in a.revoked)
    && (Named(d).Some? ==> Named(d).value in a.revoked)
    && (d.Enrolled? ==>
          && d.enrollment.generation <= a.generation
          && d.enrollment.launch in a.launches && d.enrollment.api in a.kernels
          && forall i :: 0 <= i < |a.log.links| && DetailAt(a.log.links, i).Enrolled? ==>
               && DetailAt(a.log.links, i).enrollment.generation < d.enrollment.generation
               && DetailAt(a.log.links, i).enrollment.launch != d.enrollment.launch
               && DetailAt(a.log.links, i).enrollment.api != d.enrollment.api)
  }

  // The record list is as before, or longer by this one record.
  ghost predicate Grew(before: Links, after: Links, d: Detail) {
    && |after| == |before| + 1
    && DetailAt(after, |before|) == d
    && forall i :: 0 <= i < |before| ==> DetailAt(after, i) == DetailAt(before, i)
  }

  lemma RecordedShape(cfg: Config, a: Auth, route: Route, d: Detail, io: Io)
    ensures var (after, ok) := Recorded(cfg, a, route, d, io);
      && after == a.(log := after.log, route := after.route)
      && (after.route == a.route || after.route.Closed?)
      && (after.log.links == a.log.links || Grew(a.log.links, after.log.links, d))
      && (ok ==> after.route == a.route && Grew(a.log.links, after.log.links, d))
      && (!ok ==> after.log.links == a.log.links)
  {
  }

  lemma RecordedKeeps(cfg: Config, a: Auth, route: Route, d: Detail, io: Io)
    requires AuthOk(a) && MayFollow(a, d)
    ensures AuthOk(Recorded(cfg, a, route, d, io).0)
  {
    RecordedShape(cfg, a, route, d, io);
  }

  lemma CloseKeeps(cfg: Config, a: Auth, io: Io)
    requires AuthOk(a)
    ensures AuthOk(Close(cfg, a, io).0)
    ensures Close(cfg, a, io).0.route.Closed?
  {
    RecordedKeeps(cfg, Revoke(a), Closed, RouteClosed(ShaOf(a.enrollment)), io);
    RecordedShape(cfg, Revoke(a), Closed, RouteClosed(ShaOf(a.enrollment)), io);
  }

  lemma RefreshKeeps(cfg: Config, a: Auth, ev: Evidence, io: Io)
    requires AuthOk(a)
    ensures AuthOk(Refresh(cfg, a, ev, io).0)
  {
    CloseKeeps(cfg, a, io);
  }

  lemma EnrollKeeps(cfg: Config, a: Auth, lease: bool, expected: int, c: Candidate, io: Io, io': Io)
    requires AuthOk(a)
    ensures AuthOk(Enroll(cfg, a, lease, expected, c, io, io').0)
  {
    if lease && expected == a.generation {
      CloseKeeps(cfg, a, io);
      RecordedShape(cfg, Revoke(a), Closed, RouteClosed(ShaOf(a.enrollment)), io);
      var closed := Close(cfg, a, io).0;
      if c.launch !in a.launches && c.api !in a.kernels {
        var enrolled := Installed(closed, c);
        RecordedKeeps(cfg, enrolled, closed.route, Enrolled(enrolled.enrollment.value), io');
      }
    }
  }

  lemma AdmitKeeps(cfg: Config, a: Auth, lease: bool, generation: int, membership: Digest, ev: Evidence, io: Io)
    requires AuthOk(a)
    ensures AuthOk(AdmitGeneration(cfg, a, lease, generation, membership, ev, io).0)
  {
    CloseKeeps(cfg, a, io);
    if Recheck(a, ev).Some? {
      var admitted := a.(route := RouteFor(a.enrollment.value, a.generation));
      RecordedKeeps(cfg, admitted, admitted.route, Opened(a.enrollment.value.sha, Recheck(a, ev).value), io);
    }
  }

  // What a handler remembers of its admission.
  ghost predicate HandlerOk(h: Handler) {
    h.enrollment.Some? ==> h.route == RouteFor(h.enrollment.value, h.enrollment.value.generation)
  }

  lemma ArriveKeeps(cfg: Config, a: Auth, requestId: string, admissionId: string, ev: Evidence, io: Io)
    requires AuthOk(a)
    ensures AuthOk(Arrive(cfg, a, requestId, admissionId, ev, io).0)
    ensures HandlerOk(Arrive(cfg, a, requestId, admissionId, ev, io).1)
  {
    if requestId !in a.seen {
      var marked := a.(seen := a.seen + {requestId});
      RefreshKeeps(cfg, marked, ev, io);
      var renewed := Refresh(cfg, marked, ev, io).0;
      if renewed.route.Open? {
        RecordedKeeps(cfg, renewed, renewed.route, Admit(requestId, admissionId, renewed.enrollment.value.sha), io);
      }
    }
  }

  lemma BindKeeps(cfg: Config, a: Auth, h: Handler, ev: Evidence, peer: bool, ev': Evidence, io: Io)
    requires AuthOk(a) && HandlerOk(h)
    ensures AuthOk(Bind(cfg, a, h, ev, peer, ev', io).0) && HandlerOk(Bind(cfg, a, h, ev, peer, ev', io).1)
  {
    if SameEnrollment(a, h) && Recheck(a, ev).Some? {
      RecordedKeeps(cfg, a, h.route, PeerBound(h.requestId, h.admissionId, h.enrollment.value.sha), io);
    }
  }

  lemma FinishKeeps(cfg: Config, a: Auth, h: Handler, ev: Evidence, backend: bool, io: Io)
    requires AuthOk(a) && HandlerOk(h)
    ensures AuthOk(Finish(cfg, a, h, ev, backend, io).0) && HandlerOk(Finish(cfg, a, h, ev, backend, io).1)
  {
    if SameEnrollment(a, h) && Recheck(a, ev).Some? {
      RecordedKeeps(cfg, a, h.route, Complete(h.requestId, h.admissionId, h.enrollment.value.sha), io);
    }
  }

  ghost predicate SystemOk(s: System) {
    AuthOk(s.auth) && forall id :: id in s.handlers ==> HandlerOk(s.handlers[id])
  }

  lemma NextKeeps(cfg: Config, s: System, act: Action)
    requires SystemOk(s)
    ensures SystemOk(Next(cfg, s, act))
  {
    var a := s.auth;
    match act
    case DoQuery(writer, ev, io) => RefreshKeeps(cfg, a, ev, io);
    case DoClose(lease, expected, io) => CloseKeeps(cfg, a, io);
    case DoEnroll(lease, expected, c, io, io') => EnrollKeeps(cfg, a, lease, expected, c, io, io');
    case DoAdmit(lease, g, m, ev, io) => AdmitKeeps(cfg, a, lease, g, m, ev, io);
    case DoArrive(id, rid, aid, ev, io) => ArriveKeeps(cfg, a, rid, aid, ev, io);
    case DoBind(id, ev, peer, ev', io) =>
      if id in s.handlers {
        BindKeeps(cfg, a, s.handlers[id], ev, peer, ev', io);
      }
    case DoFinish(id, ev, backend, io) =>
      if id in s.handlers {
        FinishKeeps(cfg, a, s.handlers[id], ev, backend, io);
      }
    case DoRaise(id) =>
    case DoHandle(id, io) => CloseKeeps(cfg, a, io);
    case OwnerGone(io) => CloseKeeps(cfg, a, io);
  }

  lemma {:induction false} RunKeeps(cfg: Config, io: Io, actions: seq<Action>)
    requires Begun(cfg, io).1 == Done
    ensures SystemOk(Run(cfg, io, actions))
  {
    if actions == [] {
    } else {
      RunKeeps(cfg, io, actions[..|actions| - 1]);
      NextKeeps(cfg, Run(cfg, io, actions[..|actions| - 1]), actions[|actions| - 1]);
    }
  }

  // A request has failed that was admitted under another enrollment than the
  // current one.
  predicate StaleFailure(s: System, id: nat) {
    && id in s.handlers && s.handlers[id].stage == Raised
    && ShaOf(s.auth.enrollment) != ShaOf(s.handlers[id].enrollment)
  }

  // In every reachable state an open route belongs to the current, unrevoked
  // enrollment and generation; no record after one that names an enrollment as
  // revoked opens, admits, binds or completes under it; no launch, API kernel
  // or generation is enrolled twice; and a request that fails under an older
  // enrollment changes nothing at all.
  lemma DynamicSafety(cfg: Config, io: Io, actions: seq<Action>)
    requires Begun(cfg, io).1 == Done
    ensures var s := Run(cfg, io, actions);
      && RouteCurrent(s.auth) && EnrollmentUsed(s.auth)
      && NeverCarriedAgain(s.auth.log.links) && EnrolledOnce(s.auth.log.links)
      && (forall id, late: Io :: StaleFailure(s, id) ==> Next(cfg, s, DoHandle(id, late)).auth == s.auth)
  {
    RunKeeps(cfg, io, actions);
    var s := Run(cfg, io, actions);
    hide Run;
    forall id, late: Io | StaleFailure(s, id) ensures Next(cfg, s, DoHandle(id, late)).auth == s.auth {
      StaleFailureIsInert(cfg, s, id, late);
    }
  }

  lemma StaleFailureIsInert(cfg: Config, s: System, id: nat, io: Io)
    requires StaleFailure(s, id)
    ensures Next(cfg, s, DoHandle(id, io)).auth == s.auth
  {
  }
}
