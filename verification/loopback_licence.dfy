/**
 What licenses the records of the traffic journal: which control requests are
 granted, and which evidence lets a request onto a gate route.
 */
module LoopbackLicence {
  import opened Wrappers
  import opened JournalBytes
  import opened HashChain
  import opened LoopbackAuthority
  import opened LoopbackScripts
  import opened LoopbackSpoiled

  // Every field the host observer is bound to is in the snapshot, with the
  // same value.
  predicate Agrees(binding: Snapshot, snapshot: Snapshot) {
    forall k :: k in binding ==> k in snapshot && Same(binding[k], snapshot[k])
  }

  // A host observation for this snapshot, under a registration that is not a
  // formal one.
  predicate ObservedFor(o: Observer, snapshot: Snapshot, observed: Option<Bytes>) {
    RegistrationDigest !in o.binding && Agrees(o.binding, snapshot) && observed.Some?
  }

  // ---------------------------------------------------------------------
  // Control requests

  predicate OneAbove(r: Route, g: Scalar) {
    r.Live? && !r.generation.Text? && !g.Text? && Size(g) == Size(r.generation) + 1.0
  }

  // What an open request must bring, whatever the route.
  predicate OpenInOrder(cfg: Config, act: Action) {
    && act.Open? && act.lease && act.fence.Some? && act.fence.value.Gate? && act.snapshot.Some?
    && (cfg.observer.Some? ==>
          && CandidateGeneration in cfg.observer.value.binding
          && Same(cfg.observer.value.binding[CandidateGeneration], act.generation)
          && ObservedFor(cfg.observer.value, act.snapshot.value, act.observed))
  }

  predicate RestoreInOrder(act: Action) {
    act.Restore? && act.target.Some? && act.matching && act.snapshot.Some?
  }

  function ShaOfObserved(cfg: Config, observed: Option<Bytes>): Option<Digest> {
    if cfg.observer.Some? && observed.Some? then Some(cfg.format.sha(observed.value)) else None
  }

  // An open or restore request begins a stretch exactly when it is in order and
  // the lock is free; an open also wants the generation after an open route's.
  // Otherwise it changes nothing.
  lemma GrantsExactly(cfg: Config, s: System, act: Action)
    requires act.Open? || act.Restore?
    ensures Next(cfg, s, act) != s <==>
      s.script.Idle? && (RestoreInOrder(act) || (OpenInOrder(cfg, act) && OneAbove(s.route, act.generation)))
    ensures act.Open? && Next(cfg, s, act) != s ==>
      var c := Live(act.generation, act.fence.value, act.snapshot.value);
      Next(cfg, s, act).script
      == Fetch(Put(OpenIntent(act.generation, act.fence.value, ShaOfObserved(cfg, act.observed),
                              if cfg.observer.Some? then Some(cfg.observer.value.binding) else None),
                   Assign(c, Fetch(Put(OpenApplied, Idle)))))
    ensures act.Restore? && Next(cfg, s, act) != s ==>
      Next(cfg, s, act).script
      == Fetch(Put(RestoreIntent(act.target.value),
                   Assign(Live(act.target.value, Predecessor, act.snapshot.value), Fetch(Put(RestoreApplied, Idle)))))
  {
  }

  // Which action a record goes back to.
  predicate Licence(cfg: Config, act: Action, d: Detail) {
    match d
    case OpenIntent(g, fence, observation, binding) =>
      && OpenInOrder(cfg, act) && act.generation == g && act.fence == Some(fence)
      && observation == ShaOfObserved(cfg, act.observed)
      && binding == (if cfg.observer.Some? then Some(cfg.observer.value.binding) else None)
    case OpenApplied => OpenInOrder(cfg, act)
    case RestoreIntent(g) => RestoreInOrder(act) && act.target == Some(g)
    case RestoreApplied => RestoreInOrder(act)
    case CloseChecked(g) => act.Close? && act.generation == g
    case CloseAll(lost) => if lost then cfg.observer.Some? && (act.Query? || act.Admit?) else act.ShutAll?
    case Duplicate(rid, aid, body) =>
      && act.Arrive? && act.ask.requestId == rid != "" && act.ask.admissionId == aid
      && body == cfg.format.sha(act.ask.body)
    case AuthorityStop => act.Stop?
    case Complete(rid, aid, body, upstream, status, payload, payloadSha) =>
      act.Reply? && status == act.status && payload == act.payload && upstream.identity == act.identity
      && upstream.listener == act.listener
    case Admission(_, _, _, _, _, _) => act.Tick?
    case AuthorityStart(_, _) => false
    case RequestError => false
  }

  ghost predicate Licensed(cfg: Config, actions: seq<Action>, d: Detail) {
    exists m: nat :: m < |actions| && Licence(cfg, actions[m], d)
  }

  ghost predicate AllLicensed(cfg: Config, actions: seq<Action>, links: seq<Link<Record>>) {
    forall k :: 0 < k < |links| ==> Licensed(cfg, actions, links[k].payload.detail)
  }

  lemma LicensedLater(cfg: Config, actions: seq<Action>, act: Action, d: Detail)
    ensures Licensed(cfg, actions, d) || Licence(cfg, act, d) ==> Licensed(cfg, actions + [act], d)
  {
    var more := actions + [act];
    if Licensed(cfg, actions, d) {
      var m: nat :| m < |actions| && Licence(cfg, actions[m], d);
      assert more[m] == actions[m];
    } else {
      assert more[|actions|] == act;
    }
  }

  // A stretch newly begun holds only what its action licenses.
  lemma LoadIsLicensed(cfg: Config, s: System, act: Action)
    requires s.script.Idle?
    ensures forall d :: d in Details(Moved(cfg, s, act).script) ==> Licence(cfg, act, d)
  {
    if act.Query? || act.Admit? {
      hide Renewal, Observation;
      RefreshIsLicensed(cfg, s, act);
    } else {
      MovedReach(cfg, s, act);
      assert forall d :: d in Topics(cfg, s, act) && !act.Arrive? ==> Licence(cfg, act, d);
      hide Candidacy, Follows, Details;
      if act.Arrive? {
        var idle := Idle;
        IdleHolds(idle);
        PutHolds(Duplicate(act.ask.requestId, act.ask.admissionId, cfg.format.sha(act.ask.body)), idle);
      }
    }
  }

  lemma RefreshIsLicensed(cfg: Config, s: System, act: Action)
    requires s.script.Idle? && (act.Query? || act.Admit?)
    ensures forall d :: d in Details(Moved(cfg, s, act).script) ==> Licence(cfg, act, d)
  {
    var idle := Idle;
    IdleHolds(idle);
    if act.Query? {
      RefreshedHolds(cfg, s.route, act.ev, idle);
    } else if At(s, act.id, Cleared) {
      var o := Observation(cfg, s.route, act.ev);
      DecideHolds(act.id, s.handlers[act.id].ask, o);
      RefreshedHolds(cfg, s.route, act.ev, Fetch(Decide(act.id, s.handlers[act.id].ask, o)));
    }
    hide Details, Routes, Renewal, Observation;
  }

  lemma NextIsLicensed(cfg: Config, s: System, act: Action)
    ensures forall d :: d in Details(Next(cfg, s, act).script) ==> d in Details(s.script) || Licence(cfg, act, d)
  {
    if s.script.Idle? && Attempted(cfg, s, act).None? {
      LoadIsLicensed(cfg, s, act);
      hide Moved, Details;
    } else {
      RestHolds(s.script);
      ScriptGoesOn(cfg, s, act);
      hide Next;
    }
  }

  lemma ScriptGoesOn(cfg: Config, s: System, act: Action)
    requires !s.script.Idle? || Attempted(cfg, s, act).Some?
    ensures var t := Next(cfg, s, act).script;
      t.Idle? || t == s.script || ((s.script.Assign? || s.script.Fetch? || s.script.Put?) && t == s.script.rest)
  {
    hide Candidacy, Observation, Refreshed, Opening, Restoring, Follows, Write;
  }

  lemma {:induction false} RunIsLicensed(cfg: Config, io: Io, actions: seq<Action>)
    requires Begun(cfg, io).1 == Done
    ensures var s := Run(cfg, io, actions);
      && s.log.links != [] && AllLicensed(cfg, actions, s.log.links)
      && (forall d :: d in Details(s.script) ==> Licensed(cfg, actions, d))
  {
    if actions == [] {
      WriteLinks(cfg, Log([], [], Intact), cfg.origin, AuthorityStart(cfg.authorization, cfg.backends), io);
      hide Write;
    } else {
      var front, act := actions[..|actions| - 1], actions[|actions| - 1];
      assert actions == front + [act];
      var s := Run(cfg, io, front);
      RunIsLicensed(cfg, io, front);
      NextIsLicensed(cfg, s, act);
      var ok := NextLinks(cfg, s, act);
      if ok {
        AttemptIsLicensed(cfg, s, act);
      }
      forall d ensures Licensed(cfg, front, d) || Licence(cfg, act, d) ==> Licensed(cfg, actions, d) {
        LicensedLater(cfg, front, act, d);
      }
      hide Next, Licensed, Licence, Details, Attempted;
    }
  }

  lemma AttemptIsLicensed(cfg: Config, s: System, act: Action)
    requires Attempted(cfg, s, act).Some?
    ensures var d := Attempted(cfg, s, act).value.detail;
      d in Details(s.script) || Licence(cfg, act, d)
  {
  }

  // In every run, every record but the start goes back to an action that
  // licenses it: intents to a control request in order, made under the lease
  // and, with an observer, for a snapshot that agrees with its binding.
  lemma RecordsAreLicensed(cfg: Config, io: Io, actions: seq<Action>)
    requires Begun(cfg, io).1 == Done
    ensures AllLicensed(cfg, actions, Run(cfg, io, actions).log.links)
  {
    RunIsLicensed(cfg, io, actions);
  }

  // ---------------------------------------------------------------------
  // Evidence

  // A gate route stays with an observer only on a valid lease and an
  // observation for its own snapshot.
  predicate Fresh(cfg: Config, r: Route, ev: Evidence) {
    cfg.observer.Some? && r.Live? && r.fence.Gate? ==>
      ev.lease && ObservedFor(cfg.observer.value, r.snapshot, ev.observed)
  }

  // A query, or a request up for decision, under stale evidence: the very next
  // step of its stretch shuts the route.
  lemma StaleEvidenceShuts(cfg: Config, s: System, act: Action, io: Io)
    requires s.script.Idle? && (act.Query? || (act.Admit? && At(s, act.id, Cleared)))
    ensures var t := Next(cfg, Next(cfg, s, act), Tick(io));
      t.route == if Fresh(cfg, s.route, act.ev) then s.route else Shut
  {
  }

  function Decision(cfg: Config, ask: Ask, admitted: bool, observation: Option<Digest>): Detail {
    Admission(admitted, ask.requestId, ask.admissionId, ask.verb, cfg.format.sha(ask.body), observation)
  }

  function ObservedOn(cfg: Config, r: Route, ev: Evidence): Option<Digest> {
    if r.Live? && r.fence.Gate? then ShaOfObserved(cfg, ev.observed) else None
  }

  lemma BoundIsAgreed(cfg: Config, r: Route)
    ensures cfg.observer.Some? && r.Live? ==>
      (BoundTo(cfg.observer.value.binding, r.snapshot) <==> Agrees(cfg.observer.value.binding, r.snapshot))
  {
  }

  // A request up for decision under fresh evidence, undisturbed and on a willing
  // disk: it is decided by the route as it is, with the observation if that is
  // a watched gate route.
  lemma FreshEvidenceDecides(cfg: Config, s: System, id: nat, ev: Evidence, io: Io)
    requires s.script.Idle? && At(s, id, Cleared) && Fresh(cfg, s.route, ev)
    requires Accepted(cfg, s.log, s.route,
                      Decision(cfg, s.handlers[id].ask, s.route.Live?, ObservedOn(cfg, s.route, ev)), io)
    ensures var t := Next(cfg, Next(cfg, Next(cfg, s, Admit(id, ev)), Tick(io)), Tick(io));
      && t.route == s.route
      && t.log == Write(cfg, s.log, s.route,
                        Decision(cfg, s.handlers[id].ask, s.route.Live?, ObservedOn(cfg, s.route, ev)), io).0
      && At(t, id, if s.route.Live? then Forwarding(s.route) else Gone)
  {
    hide Write, BoundTo, Agrees;
    BoundIsAgreed(cfg, s.route);
    var ask := s.handlers[id].ask;
    var begun := Next(cfg, s, Admit(id, ev));
    assert begun.script == Fetch(Decide(id, ask, ObservedOn(cfg, s.route, ev)));
    var read := Next(cfg, begun, Tick(io));
    assert read.script == Decide(id, ask, ObservedOn(cfg, s.route, ev)) && read.local == s.route;
  }

  // Under stale evidence it is turned away, behind the record of the loss.
  lemma StaleEvidenceTurnsAway(cfg: Config, s: System, id: nat, ev: Evidence, lost: Io, io: Io)
    requires s.script.Idle? && At(s, id, Cleared) && !Fresh(cfg, s.route, ev)
    requires Accepted(cfg, s.log, Shut, CloseAll(true), lost)
    requires Accepted(cfg, Write(cfg, s.log, Shut, CloseAll(true), lost).0, Shut,
                      Decision(cfg, s.handlers[id].ask, false, None), io)
    ensures
      var closed := Next(cfg, Next(cfg, Next(cfg, Next(cfg, s, Admit(id, ev)), Tick(lost)), Tick(lost)), Tick(lost));
      var t := Next(cfg, Next(cfg, closed, Tick(io)), Tick(io));
      && t.route.Shut? && At(t, id, Gone)
      && t.log == Write(cfg, Write(cfg, s.log, Shut, CloseAll(true), lost).0, Shut,
                        Decision(cfg, s.handlers[id].ask, false, None), io).0
  {
    hide Write, BoundTo, Agrees;
    BoundIsAgreed(cfg, s.route);
    var ask := s.handlers[id].ask;
    var decide := Fetch(Decide(id, ask, None));
    var begun := Next(cfg, s, Admit(id, ev));
    assert begun.script == Assign(Shut, Fetch(Put(CloseAll(true), decide)));
    var shut := Next(cfg, begun, Tick(lost));
    var read := Next(cfg, shut, Tick(lost));
    assert read.script == Put(CloseAll(true), decide) && read.local == Shut && read.log == s.log;
    var closed := Next(cfg, read, Tick(lost));
    assert closed.script == decide && closed.route == Shut;
    var again := Next(cfg, closed, Tick(io));
    assert again.script == Decide(id, ask, None) && again.local == Shut;
  }
}
