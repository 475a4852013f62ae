/**
 The dynamic backend authority as a state machine. Every action below is one
 stretch of code that runs under the authority's lock (or an exception between
 two such stretches); a run is any interleaving of control operations and
 request handlers. What the world answers is part of the action.
 */
module DynamicAuthority {
  import opened Wrappers
  import opened JournalBytes
  import opened HashChain

  datatype Api = Api(pid: int, startTicks: int, bootId: string)

  datatype Enrollment = Enrollment(sha: Digest, generation: int, epoch: string, launch: string, api: Api)

  // A closed route, or one opened for a generation, its membership epoch and
  // the enrollment its snapshot names.
  datatype Route = Closed | Open(generation: int, epoch: string, enrollment: Digest)

  datatype Detail =
    | AuthorityStart
    | RouteClosed(revoked: Option<Digest>)
    | Enrolled(enrollment: Enrollment)
    | Opened(sha: Digest, observation: Digest)
    | Admit(requestId: string, admissionId: string, sha: Digest)
    | PeerBound(requestId: string, admissionId: string, sha: Digest)
    | Complete(requestId: string, admissionId: string, sha: Digest)

  datatype Record = Record(ns: int, owner: string, policy: Digest, route: Route, detail: Detail)

  datatype Config = Config(format: Format<Record>, owner: string, policy: Digest)

  const CAPACITY: nat := 32 * 1024 * 1024

  datatype Auth = Auth(
    route: Route, generation: int, enrollment: Option<Enrollment>, revoked: set<Digest>,
    launches: set<string>, kernels: set<Api>, seen: set<string>, log: Log<Record>)

  // What one recheck observes: lease, source files and guards, membership,
  // listener, and the digest of the invocations covering the plan.
  datatype Evidence = Evidence(lease: bool, source: bool, members: bool, backend: bool, plan: Option<Digest>)

  function LastNs(links: seq<Link<Record>>): int {
    if links == [] then 0 else links[|links| - 1].payload.ns
  }

  // A record never carries an earlier time than the one before it.
  function Stamp(links: seq<Link<Record>>, now: int): int {
    if now > LastNs(links) then now else LastNs(links) + 1
  }

  function Payload(cfg: Config, log: Log<Record>, route: Route, detail: Detail, io: Io): Record {
    Record(Stamp(log.links, io.now), cfg.owner, cfg.policy, route, detail)
  }

  function Write(cfg: Config, log: Log<Record>, route: Route, detail: Detail, io: Io): (Log<Record>, Appended) {
    Append(cfg.format, Some(CAPACITY), log, Payload(cfg, log, route, detail, io), io)
  }

  // _record: an operating-system error closes the route (without revoking
  // anything); a capacity refusal and a write without progress are another
  // kind of error and leave it.
  function Recorded(cfg: Config, a: Auth, route: Route, detail: Detail, io: Io): (Auth, bool) {
    var (log, outcome) := Write(cfg, a.log, route, detail, io);
    match outcome
    case Done => (a.(log := log), true)
    case Full => (a, false)
    case Stalled => (a.(log := log), false)
    case Failed => (a.(log := log, route := Closed), false)
  }

  function ShaOf(e: Option<Enrollment>): Option<Digest> {
    if e.Some? then Some(e.value.sha) else None
  }

  // _close: the route and the enrollment go first, the record follows.
  function Revoke(a: Auth): Auth {
    a.(route := Closed, revoked := a.revoked + (if a.enrollment.Some? then {a.enrollment.value.sha} else {}))
  }

  function Close(cfg: Config, a: Auth, io: Io): (Auth, bool) {
    Recorded(cfg, Revoke(a), Closed, RouteClosed(ShaOf(a.enrollment)), io)
  }

  function Recheck(a: Auth, ev: Evidence): Option<Digest> {
    if ev.lease && ev.source && a.enrollment.Some? && a.enrollment.value.sha !in a.revoked
       && ev.members && ev.backend
    then ev.plan else None
  }

  // _refresh_candidate: an open route whose evidence is gone is closed.
  function Refresh(cfg: Config, a: Auth, ev: Evidence, io: Io): (Auth, bool) {
    if a.route.Closed? || Recheck(a, ev).Some? then (a, true) else Close(cfg, a, io)
  }

  function CloseGeneration(cfg: Config, a: Auth, lease: bool, expected: int, io: Io): (Auth, bool) {
    if !lease || expected != a.generation then (a, false) else Close(cfg, a, io)
  }

  // What enrolling observes of the supplied membership, and the identifiers
  // drawn for it.
  datatype Candidate = Candidate(
    source: bool, previousGone: bool, members: bool, claims: bool, backend: bool,
    launch: string, api: Api, epoch: string, sha: Digest)

  // Enrolling, once the old enrollment is closed and revoked.
  function Install(cfg: Config, a: Auth, c: Candidate, io: Io): (Auth, bool) {
    if !c.source || (a.enrollment.Some? && !c.previousGone) || !c.members
       || c.launch in a.launches || c.api in a.kernels || !c.claims || !c.backend
    then (a, false) else
    var e := Enrollment(c.sha, a.generation + 1, c.epoch, c.launch, c.api);
    Recorded(cfg, Installed(a, c), a.route, Enrolled(e), io)
  }

  function Installed(a: Auth, c: Candidate): Auth {
    a.(generation := a.generation + 1,
       enrollment := Some(Enrollment(c.sha, a.generation + 1, c.epoch, c.launch, c.api)),
       launches := a.launches + {c.launch}, kernels := a.kernels + {c.api})
  }

  function Enroll(cfg: Config, a: Auth, lease: bool, expected: int, c: Candidate, io: Io, io': Io): (Auth, bool) {
    if !lease || expected != a.generation then (a, false) else
    var (closed, ok) := Close(cfg, a, io);
    if !ok then (closed, false) else Install(cfg, closed, c, io')
  }

  function RouteFor(e: Enrollment, generation: int): Route {
    Open(generation, e.epoch, e.sha)
  }

  function AdmitGeneration(
      cfg: Config, a: Auth, lease: bool, generation: int, membership: Digest, ev: Evidence, io: Io): (Auth, bool) {
    if !lease || a.enrollment.None? || generation != a.generation || membership != a.enrollment.value.sha
    then (a, false) else
    var observed := Recheck(a, ev);
    if observed.None? then (Close(cfg, a, io).0, false) else
    var admitted := a.(route := RouteFor(a.enrollment.value, a.generation));
    Recorded(cfg, admitted, admitted.route, Opened(a.enrollment.value.sha, observed.value), io)
  }

  // ---------------------------------------------------------------------
  // Request handlers

  datatype Stage = Admitted | Bound | Completed | Raised | Finished

  // A handler's local variables once it has entered its first locked stretch.
  datatype Handler = Handler(
    requestId: string, admissionId: string, stage: Stage, route: Route, enrollment: Option<Enrollment>)

  datatype System = System(auth: Auth, handlers: map<nat, Handler>)

  function Arrive(
      cfg: Config, a: Auth, requestId: string, admissionId: string, ev: Evidence, io: Io): (Auth, Handler) {
    var none := Handler(requestId, admissionId, Raised, Closed, None);
    if requestId == "" || |requestId| > 200 || requestId in a.seen then (a, none) else
    var (renewed, ok) := Refresh(cfg, a.(seen := a.seen + {requestId}), ev, io);
    if !ok || renewed.route.Closed? || renewed.enrollment.None? then (renewed, none) else
    var e := renewed.enrollment.value;
    var (after, recorded) := Recorded(cfg, renewed, renewed.route, Admit(requestId, admissionId, e.sha), io);
    (after, Handler(requestId, admissionId, if recorded then Admitted else Raised, renewed.route, Some(e)))
  }

  predicate SameEnrollment(a: Auth, h: Handler) {
    a.enrollment.Some? && h.enrollment.Some? && a.enrollment.value.sha == h.enrollment.value.sha
  }

  // The accepted peer socket is bound, and rechecked, under the lock.
  function Bind(cfg: Config, a: Auth, h: Handler, ev: Evidence, peer: bool, ev': Evidence, io: Io): (Auth, Handler) {
    if !SameEnrollment(a, h) || a.route.Closed? || a.route.generation != h.enrollment.value.generation
       || Recheck(a, ev).None? || !peer || Recheck(a, ev').None?
    then (a, h.(stage := Raised)) else
    var (after, ok) := Recorded(cfg, a, h.route, PeerBound(h.requestId, h.admissionId, h.enrollment.value.sha), io);
    (after, h.(stage := if ok then Bound else Raised))
  }

  function Finish(cfg: Config, a: Auth, h: Handler, ev: Evidence, backend: bool, io: Io): (Auth, Handler) {
    if !SameEnrollment(a, h) || Recheck(a, ev).None? || !backend then (a, h.(stage := Raised)) else
    var (after, ok) := Recorded(cfg, a, h.route, Complete(h.requestId, h.admissionId, h.enrollment.value.sha), io);
    (after, h.(stage := if ok then Completed else Raised))
  }

  // The exception handler: only the enrollment that admitted this request may
  // be closed by its failure.
  function Handle(cfg: Config, a: Auth, h: Handler, io: Io): Auth {
    if SameEnrollment(a, h) then Close(cfg, a, io).0 else a
  }

  // ---------------------------------------------------------------------
  // Runs

  datatype Action =
    | DoQuery(writer: bool, ev: Evidence, io: Io)
    | DoClose(lease: bool, expected: int, io: Io)
    | DoEnroll(lease: bool, expected: int, candidate: Candidate, io: Io, io': Io)
    | DoAdmit(lease: bool, generation: int, membership: Digest, ev: Evidence, io: Io)
    | DoArrive(id: nat, requestId: string, admissionId: string, ev: Evidence, io: Io)
    | DoBind(id: nat, ev: Evidence, peer: bool, ev': Evidence, io: Io)
    | DoFinish(id: nat, ev: Evidence, backend: bool, io: Io)
    | DoRaise(id: nat)
    | DoHandle(id: nat, io: Io)
    | OwnerGone(io: Io)

  function Put(s: System, id: nat, next: (Auth, Handler)): System {
    System(next.0, s.handlers[id := next.1])
  }

  // An action that does not apply in a state leaves it alone.
  function Next(cfg: Config, s: System, act: Action): System {
    var a := s.auth;
    match act
    case DoQuery(writer, ev, io) => if writer then s.(auth := Refresh(cfg, a, ev, io).0) else s
    case DoClose(lease, expected, io) => s.(auth := CloseGeneration(cfg, a, lease, expected, io).0)
    case DoEnroll(lease, expected, c, io, io') => s.(auth := Enroll(cfg, a, lease, expected, c, io, io').0)
    case DoAdmit(lease, g, m, ev, io) => s.(auth := AdmitGeneration(cfg, a, lease, g, m, ev, io).0)
    case DoArrive(id, rid, aid, ev, io) =>
      if id in s.handlers then s else Put(s, id, Arrive(cfg, a, rid, aid, ev, io))
    case DoBind(id, ev, peer, ev', io) =>
      if id in s.handlers && s.handlers[id].stage == Admitted
      then Put(s, id, Bind(cfg, a, s.handlers[id], ev, peer, ev', io)) else s
    case DoFinish(id, ev, backend, io) =>
      if id in s.handlers && s.handlers[id].stage == Bound
      then Put(s, id, Finish(cfg, a, s.handlers[id], ev, backend, io)) else s
    case DoRaise(id) =>
      if id in s.handlers && s.handlers[id].stage in {Admitted, Bound, Completed}
      then Put(s, id, (a, s.handlers[id].(stage := Raised))) else s
    case DoHandle(id, io) =>
      if id in s.handlers && s.handlers[id].stage == Raised
      then Put(s, id, (Handle(cfg, a, s.handlers[id], io), s.handlers[id].(stage := Finished))) else s
    case OwnerGone(io) => s.(auth := Close(cfg, a, io).0)
  }

  function Blank(log: Log<Record>): Auth {
    Auth(Closed, 0, None, {}, {}, {}, {}, log)
  }

  // The authority exists once its start record is on disk.
  function Begun(cfg: Config, io: Io): (System, Appended) {
    var (log, outcome) := Write(cfg, Log([], [], Intact), Closed, AuthorityStart, io);
    (System(Blank(log), map[]), outcome)
  }

  function Run(cfg: Config, io: Io, actions: seq<Action>): System {
    if actions == [] then Begun(cfg, io).0 else
    Next(cfg, Run(cfg, io, actions[..|actions| - 1]), actions[|actions| - 1])
  }
}
