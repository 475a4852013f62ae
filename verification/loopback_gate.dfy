/**
 What a gate route means: who can reach one, and under which observation
 requests are admitted on one.
 */
module LoopbackGate {
  import opened JournalBytes
  import opened HashChain
  import opened LoopbackAuthority
  import opened LoopbackScripts

  type Links = seq<Link<Record>>

  // ---------------------------------------------------------------------
  // A formal registration keeps the gate shut

  ghost predicate NoGate(s: System) {
    && !OnGate(s.route) && !OnGate(s.local) && (forall r :: r in Routes(s.script) ==> !OnGate(r))
    && forall id :: id in s.handlers && s.handlers[id].stage.Forwarding? ==> !OnGate(s.handlers[id].stage.route)
  }

  lemma FormalDenies(cfg: Config, s: System, act: Action)
    requires cfg.observer.Some? && cfg.observer.value.Formal()
    ensures Granted(cfg, s, act).Some? ==> !OnGate(Granted(cfg, s, act).value)
  {
    hide BoundTo, Follows;
  }

  lemma NextNoGate(cfg: Config, s: System, act: Action)
    requires cfg.observer.Some? && cfg.observer.value.Formal() && NoGate(s)
    ensures NoGate(Next(cfg, s, act))
  {
    FormalDenies(cfg, s, act);
    NextReach(cfg, s, act);
    NextRoutes(cfg, s, act);
    hide Next, Routes, Granted;
  }

  // With a formal registration the observer never authorizes, so no run ever
  // puts the authority, or a request, on a gate route.
  lemma {:induction false} FormalNeverGates(cfg: Config, io: Io, actions: seq<Action>)
    requires cfg.observer.Some? && cfg.observer.value.Formal() && !OnGate(cfg.origin)
    ensures NoGate(Run(cfg, io, actions))
  {
    if actions == [] {
    } else {
      var n := |actions| - 1;
      FormalNeverGates(cfg, io, actions[..n]);
      hide NoGate, Next;
      NextNoGate(cfg, Run(cfg, io, actions[..n]), actions[n]);
    }
  }

  // ---------------------------------------------------------------------
  // Requests are admitted on a gate route only under a current observation

  // When the stretch reaches its decision, an unobserved one is not on a gate.
  predicate Covered(script: Script, route: Route, local: Route) {
    match script
    case Idle => true
    case Assign(r, rest) => Covered(rest, r, local)
    case Fetch(rest) => Covered(rest, route, route)
    case Put(_, rest) => Covered(rest, route, local)
    case Decide(_, _, observation) => observation.None? ==> !OnGate(local)
  }

  // A completion whose journal append failed may shut the route meanwhile.
  lemma {:induction false} ShutKeepsCover(script: Script, route: Route, local: Route)
    requires Covered(script, route, local)
    ensures Covered(script, Shut, local)
  {
    match script
    case Idle =>
    case Assign(r, rest) =>
    case Fetch(rest) => ShutCovers(rest, route);
    case Put(_, rest) => ShutKeepsCover(rest, route, local);
    case Decide(_, _, _) =>
  }

  lemma {:induction false} ShutCovers(script: Script, route: Route)
    requires Covered(script, route, route)
    ensures Covered(script, Shut, Shut)
  {
    match script
    case Idle =>
    case Assign(r, rest) => ShutLocal(rest, r, route);
    case Fetch(rest) => ShutCovers(rest, route);
    case Put(_, rest) => ShutCovers(rest, route);
    case Decide(_, _, _) =>
  }

  lemma {:induction false} ShutLocal(script: Script, route: Route, local: Route)
    requires Covered(script, route, local)
    ensures Covered(script, route, Shut)
  {
    match script
    case Idle =>
    case Assign(r, rest) => ShutLocal(rest, r, local);
    case Fetch(rest) =>
    case Put(_, rest) => ShutLocal(rest, route, local);
    case Decide(_, _, _) =>
  }

  lemma {:induction false} UndecidedIsCovered(script: Script, route: Route, local: Route)
    requires Target(script).None?
    ensures Covered(script, route, local)
  {
    match script
    case Idle =>
    case Assign(r, rest) => UndecidedIsCovered(rest, r, local);
    case Fetch(rest) => UndecidedIsCovered(rest, route, route);
    case Put(_, rest) => UndecidedIsCovered(rest, route, local);
    case Decide(_, _, _) =>
  }

  lemma RefreshCovers(cfg: Config, r: Route, local: Route, ev: Evidence, id: nat, ask: Ask)
    requires cfg.observer.Some?
    ensures Covered(Refreshed(cfg, r, ev, Fetch(Decide(id, ask, Observation(cfg, r, ev)))), r, local)
  {
    hide Renewal;
    var observation := Observation(cfg, r, ev);
    var decide := Fetch(Decide(id, ask, observation));
    if Watched(cfg, r) && Renewal(cfg, r, ev).None? {
      assert Covered(decide, Shut, Shut);
      assert Covered(Put(CloseAll(true), decide), Shut, Shut);
      assert Covered(Fetch(Put(CloseAll(true), decide)), Shut, local);
    } else {
      assert Covered(decide, r, local);
    }
  }

  ghost predicate Admissible(s: System) {
    Covered(s.script, s.route, s.local) && GateObserved(s.log.links)
  }

  predicate ShowsGate(r: Shown) {
    r.fence.Some? && r.fence.value.Gate?
  }

  ghost predicate GateObserved(links: Links) {
    forall i :: 0 <= i < |links| && links[i].payload.detail.Admission? && ShowsGate(links[i].payload.route) ==>
      links[i].payload.detail.observation.Some?
  }

  // A fresh stretch: everything but a request's decision is out of question.
  lemma LoadedCovers(cfg: Config, s: System, act: Action)
    requires cfg.observer.Some? && s.script.Idle? && !act.Admit?
    ensures var t := Moved(cfg, s, act);
      Covered(t.script, t.route, t.local)
  {
    MovedReach(cfg, s, act);
    UndecidedIsCovered(Moved(cfg, s, act).script, Moved(cfg, s, act).route, Moved(cfg, s, act).local);
  }

  lemma MovedCovers(cfg: Config, s: System, act: Action)
    requires cfg.observer.Some? && Covered(s.script, s.route, s.local)
    ensures var t := Moved(cfg, s, act);
      Covered(t.script, t.route, t.local)
  {
    if s.script.Idle? && !act.Admit? {
      LoadedCovers(cfg, s, act);
    } else if act.Admit? && s.script.Idle? && At(s, act.id, Cleared) {
      hide Refreshed, Observation, Covered;
      RefreshCovers(cfg, s.route, s.local, act.ev, act.id, s.handlers[act.id].ask);
    } else if act.Sink? {
      ShutKeepsCover(s.script, s.route, s.local);
    }
  }

  lemma NextAdmissible(cfg: Config, s: System, act: Action)
    requires cfg.observer.Some? && Admissible(s)
    requires forall d :: d in Details(s.script) ==> !d.Admission?
    ensures Admissible(Next(cfg, s, act))
  {
    var ok := NextLinks(cfg, s, act);
    hide Next;
    var t, attempt := Next(cfg, s, act), Attempted(cfg, s, act);
    if attempt.None? {
      hide Moved;
      MovedCovers(cfg, s, act);
    } else {
      assert s.script.Put? ==> s.script.detail in Details(s.script);
      assert Covered(t.script, t.route, t.local);
    }
  }

  lemma {:induction false} RunAdmissible(cfg: Config, io: Io, actions: seq<Action>)
    requires cfg.observer.Some?
    ensures Admissible(Run(cfg, io, actions))
    ensures forall d :: d in Details(Run(cfg, io, actions).script) ==> !d.Admission?
  {
    if actions == [] {
      WriteLinks(cfg, Log([], [], Intact), cfg.origin, AuthorityStart(cfg.authorization, cfg.backends), io);
    } else {
      var n := |actions| - 1;
      RunAdmissible(cfg, io, actions[..n]);
      hide Admissible, Next, Details;
      NextAdmissible(cfg, Run(cfg, io, actions[..n]), actions[n]);
      NextReach(cfg, Run(cfg, io, actions[..n]), actions[n]);
    }
  }

  // Whatever the interleaving, no request is admitted on a gate route without
  // an observation taken in the same stretch.
  lemma GateAdmissionsAreObserved(cfg: Config, io: Io, actions: seq<Action>)
    requires cfg.observer.Some?
    ensures GateObserved(Run(cfg, io, actions).log.links)
  {
    RunAdmissible(cfg, io, actions);
    hide Run, GateObserved;
  }
}
