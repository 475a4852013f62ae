/**
 What becomes of a shut route when no open or restore is granted afterwards. It
 need not stay shut: a stretch granted before may still install its route.
 */
module LoopbackShut {
  import opened Wrappers
  import opened JournalBytes
  import opened LoopbackAuthority
  import opened LoopbackScripts
  import opened LoopbackSpoiled

  function After(cfg: Config, t: System, actions: seq<Action>, m: nat): System
    requires m <= |actions|
  {
    Play(cfg, t, actions[..m])
  }

  // No open or restore is granted on the way.
  predicate Ungranted(cfg: Config, t: System, actions: seq<Action>) {
    forall m: nat :: m < |actions| ==> Granted(cfg, After(cfg, t, actions, m), actions[m]).None?
  }

  predicate Installs(s: System, act: Action) {
    act.Tick? && s.script.Assign? && s.script.route.Live?
  }

  predicate StaysShut(cfg: Config, t: System, actions: seq<Action>) {
    forall m: nat :: m <= |actions| ==> After(cfg, t, actions, m).route.Shut?
  }

  ghost predicate Brings(script: Script) {
    exists r :: r in Routes(script) && r.Live?
  }

  lemma {:induction false} PlayStep(cfg: Config, s: System, actions: seq<Action>, act: Action)
    ensures Play(cfg, s, actions + [act]) == Next(cfg, Play(cfg, s, actions), act)
    decreases |actions|
  {
    hide Next;
    var all := actions + [act];
    if actions == [] {
      assert all[1..] == [];
    } else {
      assert all[1..] == actions[1..] + [act] && all[0] == actions[0];
      PlayStep(cfg, Next(cfg, s, actions[0]), actions[1..], act);
    }
  }

  lemma AfterStep(cfg: Config, t: System, actions: seq<Action>, m: nat)
    requires m < |actions|
    ensures After(cfg, t, actions, m + 1) == Next(cfg, After(cfg, t, actions, m), actions[m])
  {
    assert actions[..m + 1] == actions[..m] + [actions[m]];
    PlayStep(cfg, t, actions[..m], actions[m]);
  }

  // Only installing a route opens a shut one.
  lemma OneStep(cfg: Config, s: System, act: Action)
    requires Granted(cfg, s, act).None?
    ensures forall r :: r in Routes(Next(cfg, s, act).script) && r.Live? ==> r in Routes(s.script)
    ensures Installs(s, act) ==> Next(cfg, s, act).route == s.script.route && s.script.route in Routes(s.script)
    ensures s.route.Shut? && Next(cfg, s, act).route.Live? ==> Installs(s, act)
  {
    NextReach(cfg, s, act);
    hide Candidacy, Observation, Refreshed, Opening, Restoring, Follows, Write, Granted, Topics, Details, Target;
  }

  lemma {:induction false} RoutesShrink(cfg: Config, t: System, actions: seq<Action>, m: nat)
    requires Ungranted(cfg, t, actions) && m <= |actions|
    ensures forall r :: r in Routes(After(cfg, t, actions, m).script) && r.Live? ==> r in Routes(t.script)
  {
    hide Routes, Granted, Next;
    if m == 0 {
      assert actions[..0] == [];
    } else {
      RoutesShrink(cfg, t, actions, m - 1);
      AfterStep(cfg, t, actions, m - 1);
      OneStep(cfg, After(cfg, t, actions, m - 1), actions[m - 1]);
    }
  }

  lemma {:induction false} ShutUntilInstalled(cfg: Config, t: System, actions: seq<Action>, m: nat)
    requires Ungranted(cfg, t, actions) && t.route.Shut? && m <= |actions|
    requires forall k: nat :: k < m ==> !Installs(After(cfg, t, actions, k), actions[k])
    ensures After(cfg, t, actions, m).route.Shut?
  {
    hide Routes, Granted, Next;
    if m == 0 {
      assert actions[..0] == [];
    } else {
      ShutUntilInstalled(cfg, t, actions, m - 1);
      AfterStep(cfg, t, actions, m - 1);
      OneStep(cfg, After(cfg, t, actions, m - 1), actions[m - 1]);
    }
  }

  predicate NeverInstalls(cfg: Config, t: System, actions: seq<Action>) {
    forall m: nat :: m < |actions| ==> !Installs(After(cfg, t, actions, m), actions[m])
  }

  lemma InstalledIsPending(cfg: Config, t: System, actions: seq<Action>, m: nat)
    requires Ungranted(cfg, t, actions) && m < |actions| && Installs(After(cfg, t, actions, m), actions[m])
    ensures After(cfg, t, actions, m + 1).route.Live?
    ensures After(cfg, t, actions, m).script.route in Routes(t.script) && Brings(t.script)
  {
    hide Play, Next, Routes;
    RoutesShrink(cfg, t, actions, m);
    AfterStep(cfg, t, actions, m);
    OneStep(cfg, After(cfg, t, actions, m), actions[m]);
  }

  // While no open or restore is granted, a shut route stays shut unless a route
  // is installed that was on its way before the shut.
  lemma ShutHolds(cfg: Config, t: System, actions: seq<Action>)
    requires t.route.Shut? && Ungranted(cfg, t, actions)
    ensures StaysShut(cfg, t, actions) || Brings(t.script)
    ensures forall m: nat :: m < |actions| && Installs(After(cfg, t, actions, m), actions[m]) ==>
      After(cfg, t, actions, m).script.route in Routes(t.script)
  {
    hide After, Routes, Ungranted, Brings;
    forall m: nat | m < |actions| && Installs(After(cfg, t, actions, m), actions[m])
      ensures !After(cfg, t, actions, m + 1).route.Shut? && Brings(t.script)
      ensures After(cfg, t, actions, m).script.route in Routes(t.script)
    {
      InstalledIsPending(cfg, t, actions, m);
    }
    if NeverInstalls(cfg, t, actions) {
      forall m: nat | m <= |actions| ensures After(cfg, t, actions, m).route.Shut? {
        ShutUntilInstalled(cfg, t, actions, m);
      }
    }
  }

  // ---------------------------------------------------------------------
  // Where a live route can be pending

  // It is about to be installed, and nothing comes after it.
  predicate Lands(script: Script) {
    script.Assign? && script.route.Live? && Routes(script.rest) == {}
  }

  // The intent before it is about to be recorded, or the route to be read for
  // the intent.
  predicate Pending(script: Script) {
    || Lands(script)
    || (script.Put? && Lands(script.rest))
    || (script.Fetch? && script.rest.Put? && Lands(script.rest.rest))
  }

  ghost predicate Straight(script: Script) {
    Brings(script) ==> Pending(script)
  }

  lemma GrantedIsPending(cfg: Config, c: Route, observation: Option<Digest>)
    requires c.Live?
    ensures Pending(Opening(cfg, c, observation)) && Pending(Restoring(c))
  {
    var idle := Idle;
    assert Routes(Fetch(Put(OpenApplied, idle))) == Routes(Put(OpenApplied, idle)) == {};
    assert Routes(Fetch(Put(RestoreApplied, idle))) == Routes(Put(RestoreApplied, idle)) == {};
  }

  lemma PendingBrings(script: Script)
    requires Pending(script)
    ensures Brings(script)
  {
    if script.Assign? {
      assert script.route in Routes(script);
    } else if script.Put? {
      assert script.rest.route in Routes(script);
    } else {
      assert script.rest.rest.route in Routes(script.rest);
    }
  }

  lemma RestIsStraight(script: Script)
    requires Straight(script) && (script.Assign? || script.Fetch? || script.Put?)
    ensures Straight(script.rest)
  {
    assert Brings(script.rest) ==> Brings(script);
  }

  lemma NextStraight(cfg: Config, s: System, act: Action)
    requires Straight(s.script)
    ensures Straight(Next(cfg, s, act).script)
  {
    if Granted(cfg, s, act).Some? {
      var c := Granted(cfg, s, act).value;
      if act.Open? {
        GrantedIsPending(cfg, c, Candidacy(cfg, act.generation, act.snapshot.value, act.observed).observation);
      } else {
        GrantedIsPending(cfg, c, None);
      }
      hide Straight, Brings, Pending, Opening, Restoring;
      PendingIsStraight(Next(cfg, s, act).script);
    } else {
      OneStep(cfg, s, act);
      hide Granted;
      UngrantedScript(cfg, s, act);
      hide Next, Pending, Routes;
      if Next(cfg, s, act).script != s.script && !s.script.Idle? && !Next(cfg, s, act).script.Idle? {
        RestIsStraight(s.script);
      }
    }
  }

  lemma PendingIsStraight(script: Script)
    requires Pending(script)
    ensures Straight(script)
  {
  }

  // A stretch under way goes on, is left, or is dropped.
  lemma UngrantedScript(cfg: Config, s: System, act: Action)
    ensures var t := Next(cfg, s, act).script;
      || s.script.Idle? || t.Idle? || t == s.script
      || ((s.script.Assign? || s.script.Fetch? || s.script.Put?) && t == s.script.rest)
  {
    hide Candidacy, Observation, Refreshed, Opening, Restoring, Follows, Write;
  }

  lemma {:induction false} RunStraight(cfg: Config, io: Io, actions: seq<Action>)
    ensures Straight(Run(cfg, io, actions).script)
  {
    if actions == [] {
      assert Run(cfg, io, actions).script == Idle;
    } else {
      hide Next, Straight;
      RunStraight(cfg, io, actions[..|actions| - 1]);
      NextStraight(cfg, Run(cfg, io, actions[..|actions| - 1]), actions[|actions| - 1]);
    }
  }

  // ---------------------------------------------------------------------
  // A pending route does get installed

  // The disk takes the intent of a pending route, if that is still to be
  // recorded.
  ghost predicate DiskTakes(cfg: Config, t: System) {
    Brings(t.script) ==>
    && (t.script.Put? ==> exists io :: Accepted(cfg, t.log, t.local, t.script.detail, io))
    && (t.script.Fetch? && t.script.rest.Put? ==>
          exists io :: Accepted(cfg, t.log, t.route, t.script.rest.detail, io))
  }

  ghost predicate MayReopen(cfg: Config, t: System) {
    exists actions :: Ungranted(cfg, t, actions) && !StaysShut(cfg, t, actions)
  }

  lemma TicksAreUngranted(cfg: Config, t: System, actions: seq<Action>)
    requires forall i :: 0 <= i < |actions| ==> actions[i].Tick?
    ensures Ungranted(cfg, t, actions)
  {
  }

  // Ticks that end on an open route.
  lemma EndsOpen(cfg: Config, t: System, actions: seq<Action>)
    requires forall i :: 0 <= i < |actions| ==> actions[i].Tick?
    requires Play(cfg, t, actions).route.Live?
    ensures MayReopen(cfg, t)
  {
    TicksAreUngranted(cfg, t, actions);
    hide Play, Ungranted;
    assert actions[..|actions|] == actions;
    assert After(cfg, t, actions, |actions|).route.Live?;
  }

  lemma PendingReopens(cfg: Config, t: System)
    requires t.route.Shut? && Pending(t.script) && DiskTakes(cfg, t)
    ensures MayReopen(cfg, t)
  {
    PendingBrings(t.script);
    hide Brings;
    if t.script.Assign? {
      PlayOne(cfg, t, Tick(UNREAD));
      EndsOpen(cfg, t, [Tick(UNREAD)]);
    } else if t.script.Put? {
      var io :| Accepted(cfg, t.log, t.local, t.script.detail, io);
      PlayTwo(cfg, t, Tick(io), Tick(UNREAD));
      InstallsAfterPut(cfg, t, io);
      EndsOpen(cfg, t, [Tick(io), Tick(UNREAD)]);
    } else {
      var io :| Accepted(cfg, t.log, t.route, t.script.rest.detail, io);
      var read := Next(cfg, t, Tick(UNREAD));
      assert read == t.(local := t.route, script := t.script.rest);
      PlayThree(cfg, t, Tick(UNREAD), Tick(io), Tick(UNREAD));
      InstallsAfterPut(cfg, read, io);
      EndsOpen(cfg, t, [Tick(UNREAD), Tick(io), Tick(UNREAD)]);
    }
  }

  // Where no record is written the outcome of writing does not matter.
  const UNREAD := Io(0, [], true)

  lemma InstallsAfterPut(cfg: Config, t: System, io: Io)
    requires t.script.Put? && Lands(t.script.rest) && Accepted(cfg, t.log, t.local, t.script.detail, io)
    ensures Next(cfg, Next(cfg, t, Tick(io)), Tick(UNREAD)).route.Live?
  {
    hide Write, Routes;
    assert Next(cfg, t, Tick(io)).script == t.script.rest;
  }

  lemma PlayOne(cfg: Config, s: System, one: Action)
    ensures Play(cfg, s, [one]) == Next(cfg, s, one)
  {
    PlayStep(cfg, s, [], one);
    assert [] + [one] == [one];
  }

  lemma PlayTwo(cfg: Config, s: System, one: Action, two: Action)
    ensures Play(cfg, s, [one, two]) == Next(cfg, Next(cfg, s, one), two)
  {
    PlayOne(cfg, s, one);
    PlayStep(cfg, s, [one], two);
    assert [one] + [two] == [one, two];
  }

  lemma PlayThree(cfg: Config, s: System, one: Action, two: Action, three: Action)
    ensures Play(cfg, s, [one, two, three]) == Next(cfg, Next(cfg, Next(cfg, s, one), two), three)
  {
    PlayTwo(cfg, s, one, two);
    PlayStep(cfg, s, [one, two], three);
    assert [one, two] + [three] == [one, two, three];
  }

  // In any run a shut route may open again without a further grant exactly when
  // the stretch under way still has a live route to install: an open or a
  // restore granted before, from its grant up to that installation. The disk is
  // taken to have room for the intent, where that is still to be written.
  lemma ReopensExactly(cfg: Config, first: Io, actions: seq<Action>)
    requires var t := Run(cfg, first, actions);
      t.route.Shut? && DiskTakes(cfg, t)
    ensures MayReopen(cfg, Run(cfg, first, actions)) <==> Brings(Run(cfg, first, actions).script)
  {
    var t := Run(cfg, first, actions);
    RunStraight(cfg, first, actions);
    hide Run, Brings, Pending, Ungranted, StaysShut, DiskTakes, Installs, After;
    if Brings(t.script) {
      PendingReopens(cfg, t);
    }
    if MayReopen(cfg, t) {
      var more :| Ungranted(cfg, t, more) && !StaysShut(cfg, t, more);
      ShutHolds(cfg, t, more);
    }
  }

  // So a late shut that falls anywhere between the grant of an open or restore
  // and the installation of its route can be undone.
  lemma LateShutUndone(cfg: Config, first: Io, actions: seq<Action>, id: nat)
    requires At(Run(cfg, first, actions), id, Failing) && Brings(Run(cfg, first, actions).script)
    requires DiskTakes(cfg, Next(cfg, Run(cfg, first, actions), Sink(id)))
    ensures var t := Next(cfg, Run(cfg, first, actions), Sink(id));
      t == Run(cfg, first, actions + [Sink(id)]) && t.route.Shut? && MayReopen(cfg, t)
  {
    assert (actions + [Sink(id)])[..|actions|] == actions;
    assert Run(cfg, first, actions + [Sink(id)]) == Next(cfg, Run(cfg, first, actions), Sink(id));
    hide Run, MayReopen, DiskTakes, Brings;
    ReopensExactly(cfg, first, actions + [Sink(id)]);
  }
}
