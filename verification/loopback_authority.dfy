/**
 The loopback traffic authority as a state machine. The control thread and the
 request handlers share one lock, but what they do while holding it is not
 atomic: completions are journalled without the lock, and a journal failure
 shuts the route without it. So a locked stretch is a script of small steps,
 and the unlocked steps may fall between any two of them.
 */
module LoopbackAuthority {
  import opened Wrappers
  import opened JournalBytes
  import opened HashChain

  // A generation as JSON carries it: an integer, a boolean or fraction that
  // compares like a number without being an integer, or something else.
  // A fraction is given by its numerator and its denominator less one.
  datatype Scalar = Whole(n: int) | Lookalike(numerator: int, excess: nat) | Text(s: string)

  function Size(a: Scalar): real
    requires !a.Text?
  {
    if a.Whole? then a.n as real else a.numerator as real / (a.excess as real + 1.0)
  }

  // Equality as the program's language has it.
  predicate Same(a: Scalar, b: Scalar) {
    if a.Text? || b.Text? then a == b else Size(a) == Size(b)
  }

  // Numbers by size however they are spelled, texts by their letters, and
  // never one for the other.
  lemma SameMeans(a: Scalar, b: Scalar)
    ensures Same(a, b) <==> a == b || (!a.Text? && !b.Text? && Size(a) == Size(b))
  {
  }

  // b == a + 1
  predicate Follows(a: Scalar, b: Scalar) {
    !a.Text? && !b.Text? && Size(b) == Size(a) + 1.0
  }

  predicate Natural(g: Scalar) {
    g.Whole? && g.n >= 0
  }

  datatype Field =
    | PlanId | LaunchId | ControllerInstance | CandidateGeneration | MembershipEpoch | TargetSet
    | ProcessMembership | RegistrationDigest | OtherField(name: string)

  type Snapshot = map<Field, Scalar>

  datatype Fence = Predecessor | Gate(suffix: string)

  // The closed route has no generation and no snapshot.
  datatype Route = Shut | Live(generation: Scalar, fence: Fence, snapshot: Snapshot)

  predicate OnGate(r: Route) {
    r.Live? && r.fence.Gate?
  }

  // A route as a record shows it: the snapshot only by its digest.
  datatype Shown = Shown(generation: Option<Scalar>, fence: Option<Fence>, snapshot: Digest)

  datatype Process = Process(pid: int, startTicks: int, bootId: string)

  // What a backend was registered as, and what was seen listening for it.
  datatype Registered = Registered(generation: Scalar, model: string, launch: string, process: Process)
  datatype Upstream = Upstream(host: string, port: int, identity: Option<Registered>, listener: string)

  datatype Detail =
    | AuthorityStart(authorization: Snapshot, backends: Digest)
    | AuthorityStop
    | CloseChecked(candidate: Scalar)
    | OpenIntent(candidate: Scalar, fence: Fence, observation: Option<Digest>, binding: Option<Snapshot>)
    | OpenApplied
    | RestoreIntent(candidate: Scalar)
    | RestoreApplied
    | CloseAll(lost: bool)
    | Admission(admitted: bool, requestId: string, admissionId: string, verb: string, body: Digest,
                observation: Option<Digest>)
    | Complete(requestId: string, admissionId: string, body: Digest, upstream: Upstream,
               status: int, payload: Bytes, payloadSha: Digest)
    | RequestError
    | Duplicate(requestId: string, admissionId: string, body: Digest)

  datatype Record = Record(ns: int, process: Process, route: Shown, detail: Detail)

  // The host observer's frozen binding; the formal schema adds two fields.
  datatype Observer = Observer(binding: Snapshot)
  {
    predicate Formal() {
      RegistrationDigest in binding
    }
  }

  datatype Backend = Backend(host: string, port: int)

  datatype Config = Config(
    format: Format<Record>, canon: Option<Snapshot> -> Bytes, process: Process, observer: Option<Observer>,
    authorization: Snapshot, backends: Digest, origin: Route, predecessor: Backend, candidate: Backend)

  const CAPACITY: nat := 4 * 1024 * 1024

  function Show(cfg: Config, r: Route): Shown {
    match r
    case Shut => Shown(None, None, cfg.format.sha(cfg.canon(None)))
    case Live(g, fence, snapshot) => Shown(Some(g), Some(fence), cfg.format.sha(cfg.canon(Some(snapshot))))
  }

  function RecordOf(cfg: Config, r: Route, d: Detail, io: Io): Record {
    Record(io.now, cfg.process, Show(cfg, r), d)
  }

  function Write(cfg: Config, log: Log<Record>, r: Route, d: Detail, io: Io): (Log<Record>, Appended) {
    Append(cfg.format, Some(CAPACITY), log, RecordOf(cfg, r, d, io), io)
  }

  // ---------------------------------------------------------------------
  // State

  datatype Ask = Ask(requestId: string, admissionId: string, verb: string, body: Bytes)

  // What is left to do of a locked stretch: set the route, read it into a
  // local variable, journal something about the local, or journal the
  // admission or rejection of a request.
  datatype Script =
    | Idle
    | Assign(route: Route, rest: Script)
    | Fetch(rest: Script)
    | Put(detail: Detail, rest: Script)
    | Decide(id: nat, ask: Ask, observation: Option<Digest>)

  datatype Stage = Cleared | Waiting | Forwarding(route: Route) | Failing | Gone

  datatype Handler = Handler(ask: Ask, stage: Stage)

  // `refused` remembers whether any append so far has failed; `control` says
  // whether the control thread holds the lock.
  datatype System = System(
    route: Route, seen: set<string>, log: Log<Record>, script: Script, control: bool, local: Route,
    handlers: map<nat, Handler>, refused: bool)

  // ---------------------------------------------------------------------
  // Guards

  // What the host observer is asked to authorize; with a formal registration
  // the answer is always no.
  function Authorized(o: Observer, snapshot: Snapshot, observed: Option<Bytes>): Option<Bytes> {
    if !BoundTo(o.binding, snapshot) || o.Formal() then None else observed
  }

  predicate BoundTo(binding: Snapshot, snapshot: Snapshot) {
    forall k :: k in binding ==> k in snapshot && Same(snapshot[k], binding[k])
  }

  // A refresh's view of the world: the lease, and the observer's answer.
  datatype Evidence = Evidence(lease: bool, observed: Option<Bytes>)

  predicate Watched(cfg: Config, r: Route) {
    cfg.observer.Some? && OnGate(r)
  }

  function Renewal(cfg: Config, r: Route, ev: Evidence): Option<Bytes>
    requires Watched(cfg, r)
  {
    if ev.lease then Authorized(cfg.observer.value, r.snapshot, ev.observed) else None
  }

  // _refresh_candidate, and what follows it in the same stretch.
  function Refreshed(cfg: Config, r: Route, ev: Evidence, rest: Script): Script {
    if Watched(cfg, r) && Renewal(cfg, r, ev).None?
    then Assign(Shut, Fetch(Put(CloseAll(true), rest))) else rest
  }

  function Observation(cfg: Config, r: Route, ev: Evidence): Option<Digest> {
    if Watched(cfg, r) && Renewal(cfg, r, ev).Some? then Some(cfg.format.sha(Renewal(cfg, r, ev).value)) else None
  }

  // Whether an open is allowed, and the observation it is journalled with.
  datatype Permit = Denied | Allowed(observation: Option<Digest>)

  function Candidacy(cfg: Config, generation: Scalar, snapshot: Snapshot, observed: Option<Bytes>): Permit {
    if cfg.observer.None? then Allowed(None) else
    var o := cfg.observer.value;
    if CandidateGeneration !in o.binding || !Same(o.binding[CandidateGeneration], generation)
       || Authorized(o, snapshot, observed).None?
    then Denied else Allowed(Some(cfg.format.sha(Authorized(o, snapshot, observed).value)))
  }

  function Applying(c: Route): Script {
    Assign(c, Fetch(Put(OpenApplied, Idle)))
  }

  function Opening(cfg: Config, c: Route, observation: Option<Digest>): Script
    requires c.Live?
  {
    var authorization := if cfg.observer.Some? then Some(cfg.observer.value.binding) else None;
    Fetch(Put(OpenIntent(c.generation, c.fence, observation, authorization), Applying(c)))
  }

  function Restoring(c: Route): Script
    requires c.Live?
  {
    Fetch(Put(RestoreIntent(c.generation), Assign(c, Fetch(Put(RestoreApplied, Idle)))))
  }

  // ---------------------------------------------------------------------
  // Actions

  // A missing or ill-typed field of a control request is None.
  datatype Action =
    | Query(ev: Evidence)
    | Close(generation: Scalar)
    | Open(lease: bool, generation: Scalar, fence: Option<Fence>, snapshot: Option<Snapshot>, observed: Option<Bytes>)
    | ShutAll
    | Restore(target: Option<Scalar>, matching: bool, snapshot: Option<Snapshot>)
    | Arrive(id: nat, ask: Ask)
    | Admit(id: nat, ev: Evidence)
    | Reply(id: nat, identity: Option<Registered>, listener: string, status: int, payload: Bytes, io: Io)
    | Drop(id: nat)
    | Sink(id: nat)
    | Tick(io: Io)
    | Interrupt
    | Leave
    | Stop

  datatype Attempt = Attempt(route: Route, detail: Detail, io: Io)

  predicate At(s: System, id: nat, stage: Stage) {
    id in s.handlers && s.handlers[id].stage == stage
  }

  predicate IsForwarding(s: System, id: nat) {
    id in s.handlers && s.handlers[id].stage.Forwarding?
  }

  function AdmissionOf(cfg: Config, ask: Ask, r: Route, observation: Option<Digest>): Detail {
    Admission(r.Live?, ask.requestId, ask.admissionId, ask.verb, cfg.format.sha(ask.body), observation)
  }

  function BackendOf(cfg: Config, r: Route): Backend {
    if OnGate(r) then cfg.candidate else cfg.predecessor
  }

  // The journal record an action tries to append, if any.
  function Attempted(cfg: Config, s: System, act: Action): Option<Attempt> {
    match act
    case Tick(io) =>
      if s.script.Put? then Some(Attempt(s.local, s.script.detail, io))
      else if s.script.Decide? then
        Some(Attempt(s.local, AdmissionOf(cfg, s.script.ask, s.local, s.script.observation), io))
      else None
    case Reply(id, identity, listener, status, payload, io) =>
      if !IsForwarding(s, id) then None else
      var h := s.handlers[id];
      var b := BackendOf(cfg, h.stage.route);
      Some(Attempt(h.stage.route,
                   Complete(h.ask.requestId, h.ask.admissionId, cfg.format.sha(h.ask.body),
                            Upstream(b.host, b.port, identity, listener),
                            status, payload, cfg.format.sha(payload)), io))
    case _ => None
  }

  function Move(s: System, id: nat, stage: Stage): map<nat, Handler> {
    if id in s.handlers then s.handlers[id := s.handlers[id].(stage := stage)] else s.handlers
  }

  // The rest of the state once an attempted append has gone through or failed.
  // Under the lock a failure shuts the route at once and abandons the stretch;
  // a failed completion shuts it later, whenever its thread gets there.
  function Settled(s: System, act: Action, ok: bool): System {
    match act
    case Tick(io) =>
      if s.script.Put? then
        if ok then s.(script := s.script.rest) else s.(route := Shut, script := Idle)
      else if s.script.Decide? then
        if ok then
          var stage := if s.local.Live? then Forwarding(s.local) else Gone;
          s.(script := Idle, handlers := Move(s, s.script.id, stage))
        else s.(route := Shut, script := Idle, handlers := Move(s, s.script.id, Gone))
      else s
    case Reply(id, _, _, _, _, _) => s.(handlers := Move(s, id, if ok then Gone else Failing))
    case _ => s
  }

  function Locked(s: System, control: bool, script: Script): System {
    s.(script := script, control := control)
  }

  // Actions that do not touch the journal.
  function Moved(cfg: Config, s: System, act: Action): System {
    match act
    case Query(ev) => if s.script.Idle? then Locked(s, true, Refreshed(cfg, s.route, ev, Idle)) else s
    case Close(g) =>
      if s.script.Idle? && s.route.Live? && Follows(s.route.generation, g)
      then Locked(s, true, Fetch(Put(CloseChecked(g), Idle))) else s
    case Open(lease, g, fence, snapshot, observed) =>
      if !s.script.Idle? || !lease || s.route.Shut? || !Follows(s.route.generation, g)
         || fence.None? || !fence.value.Gate? || snapshot.None? then s else
      var permit := Candidacy(cfg, g, snapshot.value, observed);
      if permit.Denied? then s
      else Locked(s, true, Opening(cfg, Live(g, fence.value, snapshot.value), permit.observation))
    case ShutAll =>
      if s.script.Idle? then Locked(s, true, Assign(Shut, Fetch(Put(CloseAll(false), Idle)))) else s
    case Restore(g, matching, snapshot) =>
      if s.script.Idle? && g.Some? && matching && snapshot.Some?
      then Locked(s, true, Restoring(Live(g.value, Predecessor, snapshot.value))) else s
    case Arrive(id, ask) =>
      if !s.script.Idle? || id in s.handlers then s
      else if ask.requestId != "" && ask.requestId in s.seen then
        Locked(s, false, Fetch(Put(Duplicate(ask.requestId, ask.admissionId, cfg.format.sha(ask.body)), Idle)))
          .(handlers := s.handlers[id := Handler(ask, Gone)])
      else s.(seen := if ask.requestId != "" then s.seen + {ask.requestId} else s.seen,
              handlers := s.handlers[id := Handler(ask, Cleared)])
    case Admit(id, ev) =>
      if s.script.Idle? && At(s, id, Cleared) then
        var decide := Fetch(Decide(id, s.handlers[id].ask, Observation(cfg, s.route, ev)));
        Locked(s, false, Refreshed(cfg, s.route, ev, decide)).(handlers := Move(s, id, Waiting))
      else s
    case Drop(id) => if IsForwarding(s, id) then s.(handlers := Move(s, id, Gone)) else s
    case Sink(id) => if At(s, id, Failing) then s.(route := Shut, handlers := Move(s, id, Gone)) else s
    case Tick(io) =>
      (match s.script
       case Assign(r, rest) => s.(route := r, script := rest)
       case Fetch(rest) => s.(local := s.route, script := rest)
       case _ => s)
    case Interrupt => if s.control then s.(script := Idle) else s
    case Leave => if s.script.Idle? then Locked(s, true, Assign(Shut, Idle)) else s
    case Stop => if s.script.Idle? then Locked(s, true, Fetch(Put(AuthorityStop, Idle))) else s
    case Reply(_, _, _, _, _, _) => s
  }

  // An action that does not apply in a state leaves it alone.
  function Next(cfg: Config, s: System, act: Action): System {
    var attempt := Attempted(cfg, s, act);
    if attempt.None? then Moved(cfg, s, act) else
    var (log, outcome) := Write(cfg, s.log, attempt.value.route, attempt.value.detail, attempt.value.io);
    var ok := outcome == Done;
    Settled(s, act, ok).(log := log, refused := s.refused || !ok)
  }

  function Fresh(cfg: Config, log: Log<Record>): System {
    System(cfg.origin, {}, log, Idle, true, Shut, map[], false)
  }

  // The authority exists once its start record is on disk.
  function Begun(cfg: Config, io: Io): (System, Appended) {
    var start := AuthorityStart(cfg.authorization, cfg.backends);
    var (log, outcome) := Write(cfg, Log([], [], Intact), cfg.origin, start, io);
    (Fresh(cfg, log), outcome)
  }

  function Run(cfg: Config, io: Io, actions: seq<Action>): System {
    if actions == [] then Begun(cfg, io).0 else
    Next(cfg, Run(cfg, io, actions[..|actions| - 1]), actions[|actions| - 1])
  }
}
