/** What a locked stretch still has in store: routes to set, records to write. */
module LoopbackScripts {
  import opened Wrappers
  import opened JournalBytes
  import opened HashChain
  import opened LoopbackAuthority

  function Routes(script: Script): set<Route> {
    match script
    case Idle => {}
    case Assign(r, rest) => {r} + Routes(rest)
    case Fetch(rest) => Routes(rest)
    case Put(_, rest) => Routes(rest)
    case Decide(_, _, _) => {}
  }

  function Details(script: Script): set<Detail> {
    match script
    case Idle => {}
    case Assign(_, rest) => Details(rest)
    case Fetch(rest) => Details(rest)
    case Put(d, rest) => {d} + Details(rest)
    case Decide(_, _, _) => {}
  }

  // The request a locked stretch is about to decide.
  function Target(script: Script): Option<(nat, Ask)> {
    match script
    case Idle => None
    case Assign(_, rest) => Target(rest)
    case Fetch(rest) => Target(rest)
    case Put(_, rest) => Target(rest)
    case Decide(id, ask, _) => Some((id, ask))
  }

  // The route a control request asks for, when it is granted.
  function Granted(cfg: Config, s: System, act: Action): Option<Route> {
    match act
    case Open(lease, g, fence, snapshot, observed) =>
      if !s.script.Idle? || !lease || s.route.Shut? || !Follows(s.route.generation, g)
         || fence.None? || !fence.value.Gate? || snapshot.None?
         || Candidacy(cfg, g, snapshot.value, observed).Denied?
      then None else Some(Live(g, fence.value, snapshot.value))
    case Restore(g, matching, snapshot) =>
      if s.script.Idle? && g.Some? && matching && snapshot.Some?
      then Some(Live(g.value, Predecessor, snapshot.value)) else None
    case _ => None
  }

  function Binding(cfg: Config): Option<Snapshot> {
    if cfg.observer.Some? then Some(cfg.observer.value.binding) else None
  }

  // The records an action may put into the script.
  function Topics(cfg: Config, s: System, act: Action): set<Detail> {
    match act
    case Query(_) => {CloseAll(true)}
    case Admit(_, _) => {CloseAll(true)}
    case ShutAll => {CloseAll(false)}
    case Close(g) => {CloseChecked(g)}
    case Arrive(_, ask) => {Duplicate(ask.requestId, ask.admissionId, cfg.format.sha(ask.body))}
    case Stop => {AuthorityStop}
    case Open(_, g, fence, snapshot, observed) =>
      if Granted(cfg, s, act).None? then {} else
      {OpenIntent(g, fence.value, Candidacy(cfg, g, snapshot.value, observed).observation, Binding(cfg)), OpenApplied}
    case Restore(g, _, _) => if Granted(cfg, s, act).None? then {} else {RestoreIntent(g.value), RestoreApplied}
    case _ => {}
  }

  function Destinations(cfg: Config, s: System, act: Action): set<Route> {
    if Granted(cfg, s, act).Some? then {Granted(cfg, s, act).value}
    else if act.Query? || act.Admit? || act.ShutAll? || act.Leave? then {Shut}
    else {}
  }

  ghost predicate Holds(script: Script, routes: set<Route>, details: set<Detail>, target: Option<(nat, Ask)>) {
    Routes(script) <= routes && Details(script) <= details && Target(script) == target
  }

  lemma PutHolds(d: Detail, rest: Script)
    ensures Holds(Fetch(Put(d, rest)), Routes(rest), {d} + Details(rest), Target(rest))
  {
    assert Holds(Put(d, rest), Routes(rest), {d} + Details(rest), Target(rest));
  }

  lemma IdleHolds(script: Script)
    requires script.Idle?
    ensures Holds(script, {}, {}, None)
  {
  }

  lemma AssignHolds(r: Route, d: Detail)
    ensures Holds(Assign(r, Fetch(Put(d, Idle))), {r}, {d}, None) && Holds(Assign(r, Idle), {r}, {}, None)
  {
    var idle := Idle;
    IdleHolds(idle);
    PutHolds(d, idle);
    assert Holds(Assign(r, Fetch(Put(d, idle))), {r}, {d}, None);
  }

  lemma OpeningHolds(cfg: Config, c: Route, observation: Option<Digest>)
    requires c.Live?
    ensures Holds(Opening(cfg, c, observation), {c},
                  {OpenIntent(c.generation, c.fence, observation, Binding(cfg)), OpenApplied}, None)
  {
    AssignHolds(c, OpenApplied);
    hide Routes, Details, Target;
    PutHolds(OpenIntent(c.generation, c.fence, observation, Binding(cfg)), Applying(c));
  }

  lemma RestoringHolds(c: Route)
    requires c.Live?
    ensures Holds(Restoring(c), {c}, {RestoreIntent(c.generation), RestoreApplied}, None)
  {
    AssignHolds(c, RestoreApplied);
    hide Routes, Details, Target;
    PutHolds(RestoreIntent(c.generation), Assign(c, Fetch(Put(RestoreApplied, Idle))));
  }

  lemma RefreshedHolds(cfg: Config, r: Route, ev: Evidence, rest: Script)
    ensures Holds(Refreshed(cfg, r, ev, rest), {Shut} + Routes(rest), {CloseAll(true)} + Details(rest), Target(rest))
  {
    PutHolds(CloseAll(true), rest);
    hide Watched, Renewal;
    var fetch := Fetch(Put(CloseAll(true), rest));
    assert Holds(Assign(Shut, fetch), {Shut} + Routes(fetch), Details(fetch), Target(fetch));
  }

  lemma DecideHolds(id: nat, ask: Ask, observation: Option<Digest>)
    ensures Holds(Fetch(Decide(id, ask, observation)), {}, {}, Some((id, ask)))
  {
  }

  // Taking a step leaves no more than there was.
  lemma RestHolds(script: Script)
    ensures script.Assign? || script.Fetch? || script.Put? ==>
      Holds(script.rest, Routes(script), Details(script), Target(script))
  {
  }

  ghost predicate WithinReach(cfg: Config, s: System, act: Action, script: Script) {
    && Routes(script) <= Routes(s.script) + Destinations(cfg, s, act)
    && Details(script) <= Details(s.script) + Topics(cfg, s, act)
  }

  // The request an action brings up for decision, if it takes the lock for one.
  function Brought(s: System, act: Action): Option<(nat, Ask)> {
    if act.Admit? && s.script.Idle? && At(s, act.id, Cleared) then Some((act.id, s.handlers[act.id].ask)) else None
  }

  ghost predicate TargetsReach(s: System, act: Action, script: Script) {
    Target(script).None? || Target(script) == Target(s.script) || Target(script) == Brought(s, act)
  }

  lemma GrantedReach(cfg: Config, s: System, act: Action)
    requires act.Open? || act.Restore?
    ensures WithinReach(cfg, s, act, Moved(cfg, s, act).script) && TargetsReach(s, act, Moved(cfg, s, act).script)
  {
    hide Routes, Details, Target, Follows;
    if Granted(cfg, s, act).Some? {
      var c := Granted(cfg, s, act).value;
      if act.Open? {
        OpeningHolds(cfg, c, Candidacy(cfg, act.generation, act.snapshot.value, act.observed).observation);
      } else {
        RestoringHolds(c);
      }
    }
  }

  lemma RefreshReach(cfg: Config, s: System, act: Action)
    requires act.Query? || act.Admit?
    ensures WithinReach(cfg, s, act, Moved(cfg, s, act).script) && TargetsReach(s, act, Moved(cfg, s, act).script)
  {
    hide Observation, Refreshed, Routes, Details, Target;
    if act.Query? {
      var idle := Idle;
      IdleHolds(idle);
      RefreshedHolds(cfg, s.route, act.ev, idle);
    } else if At(s, act.id, Cleared) {
      var decide := Fetch(Decide(act.id, s.handlers[act.id].ask, Observation(cfg, s.route, act.ev)));
      DecideHolds(act.id, s.handlers[act.id].ask, Observation(cfg, s.route, act.ev));
      RefreshedHolds(cfg, s.route, act.ev, decide);
    }
  }

  lemma StretchReach(cfg: Config, s: System, act: Action)
    requires act.ShutAll? || act.Leave? || act.Close? || act.Arrive? || act.Stop?
    ensures WithinReach(cfg, s, act, Moved(cfg, s, act).script) && TargetsReach(s, act, Moved(cfg, s, act).script)
  {
    hide Follows, Routes, Details, Target;
    var idle := Idle;
    IdleHolds(idle);
    match act
    case ShutAll => AssignHolds(Shut, CloseAll(false));
    case Leave => AssignHolds(Shut, CloseAll(false));
    case Close(g) => PutHolds(CloseChecked(g), idle);
    case Arrive(_, ask) => PutHolds(Duplicate(ask.requestId, ask.admissionId, cfg.format.sha(ask.body)), idle);
    case Stop => PutHolds(AuthorityStop, idle);
  }

  lemma StepReach(cfg: Config, s: System, act: Action)
    requires act.Tick? || act.Interrupt? || act.Drop? || act.Sink? || act.Reply?
    ensures WithinReach(cfg, s, act, Moved(cfg, s, act).script) && TargetsReach(s, act, Moved(cfg, s, act).script)
  {
    hide Routes, Details, Target, Granted;
    var idle := Idle;
    IdleHolds(idle);
    RestHolds(s.script);
  }

  lemma MovedReach(cfg: Config, s: System, act: Action)
    ensures WithinReach(cfg, s, act, Moved(cfg, s, act).script) && TargetsReach(s, act, Moved(cfg, s, act).script)
  {
    hide Moved, WithinReach, TargetsReach;
    if act.Open? || act.Restore? {
      GrantedReach(cfg, s, act);
    } else if act.Query? || act.Admit? {
      RefreshReach(cfg, s, act);
    } else if act.Tick? || act.Interrupt? || act.Drop? || act.Sink? || act.Reply? {
      StepReach(cfg, s, act);
    } else {
      StretchReach(cfg, s, act);
    }
  }

  // Nothing gets into a script but what an action brought.
  lemma NextReach(cfg: Config, s: System, act: Action)
    ensures WithinReach(cfg, s, act, Next(cfg, s, act).script) && TargetsReach(s, act, Next(cfg, s, act).script)
  {
    hide Moved, Write, Destinations, Topics, Brought;
    MovedReach(cfg, s, act);
  }

  lemma WriteLinks(cfg: Config, log: Log<Record>, r: Route, d: Detail, io: Io)
    ensures var (after, outcome) := Write(cfg, log, r, d, io);
      after.links == if outcome == Done then log.links + [NextLink(cfg.format, log.links, RecordOf(cfg, r, d, io))]
                     else log.links
  {
  }

  function Extension(cfg: Config, s: System, a: Attempt): Link<Record> {
    NextLink(cfg.format, s.log.links, RecordOf(cfg, a.route, a.detail, a.io))
  }

  // The records after an action: as before, or one more that it attempted.
  lemma NextLinks(cfg: Config, s: System, act: Action) returns (ok: bool)
    ensures var t, attempt := Next(cfg, s, act), Attempted(cfg, s, act);
      && (!ok ==> t.log.links == s.log.links)
      && (ok ==> attempt.Some? && t.log.links == s.log.links + [Extension(cfg, s, attempt.value)])
      && (attempt.None? ==> t == Moved(cfg, s, act) && t.log == s.log && t.refused == s.refused)
      && (attempt.Some? ==> t == Settled(s, act, ok).(log := t.log, refused := s.refused || !ok))
  {
    hide Attempted, Settled, Write;
    MovedKeepsLog(cfg, s, act);
    hide Moved;
    ok := false;
    var attempt := Attempted(cfg, s, act);
    if attempt.Some? {
      var a := attempt.value;
      ok := Write(cfg, s.log, a.route, a.detail, a.io).1 == Done;
      WriteLinks(cfg, s.log, a.route, a.detail, a.io);
    }
  }

  lemma MovedKeepsLog(cfg: Config, s: System, act: Action)
    ensures Moved(cfg, s, act).log == s.log && Moved(cfg, s, act).refused == s.refused
  {
    hide Candidacy, Observation, Refreshed, Opening, Restoring, Follows;
  }

  // Where a system's routes come from.
  ghost predicate FromBefore(s: System, r: Route) {
    r == s.route || r == s.local || r == Shut || r in Routes(s.script)
  }

  lemma MovedRoutes(cfg: Config, s: System, act: Action)
    ensures FromBefore(s, Moved(cfg, s, act).route) && FromBefore(s, Moved(cfg, s, act).local)
    ensures forall id :: id in Moved(cfg, s, act).handlers && Moved(cfg, s, act).handlers[id].stage.Forwarding? ==>
      id in s.handlers && Moved(cfg, s, act).handlers[id] == s.handlers[id]
  {
    hide Candidacy, Observation, Refreshed, Opening, Restoring, Follows;
  }

  lemma NextRoutes(cfg: Config, s: System, act: Action)
    ensures FromBefore(s, Next(cfg, s, act).route) && FromBefore(s, Next(cfg, s, act).local)
    ensures forall id :: id in Next(cfg, s, act).handlers && Next(cfg, s, act).handlers[id].stage.Forwarding? ==>
      || (id in s.handlers && Next(cfg, s, act).handlers[id] == s.handlers[id])
      || Next(cfg, s, act).handlers[id].stage.route == s.local
  {
    hide Moved, Write, Attempted, Routes;
    MovedRoutes(cfg, s, act);
  }
}
