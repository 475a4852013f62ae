/**
 Which runs of the authority the recovery verifier accepts, and what it cannot
 see.
 */
module LoopbackRecovery {
  import opened Wrappers
  import opened JournalBytes
  import opened HashChain
  import opened LoopbackAuthority
  import opened LoopbackScripts
  import opened LoopbackJournal
  import opened LoopbackOpens
  import opened LoopbackObserve
  import opened LoopbackSpoiled
  import opened RecoveryChain

  // ---------------------------------------------------------------------
  // Histories the verifier accepts

  predicate OnlyAt(links: Links, intent: nat, applied: nat) {
    forall i :: 0 <= i < |links| ==>
      && (links[i].payload.detail.RestoreIntent? <==> i == intent)
      && (links[i].payload.detail.RestoreApplied? <==> i == applied)
  }

  predicate StartsOnce(links: Links) {
    forall i :: 0 <= i < |links| ==> (links[i].payload.detail.AuthorityStart? <==> i == 0)
  }

  predicate Later(links: Links, i: nat)
    requires i < |links|
  {
    (if i == 0 then 0 else links[i - 1].payload.ns) < links[i].payload.ns
  }

  predicate Increasing(links: Links) {
    forall i :: 0 <= i < |links| ==> Later(links, i)
  }

  lemma {:induction false} CollectedOnce(links: Links, n: nat, intent: nat, applied: nat)
    requires n <= |links| && OnlyAt(links, intent, applied)
    ensures Intents(links, n) == (if intent < n then [intent] else [])
    ensures Restores(links, n) == (if applied < n then [applied] else [])
  {
    if n == 0 {
    } else {
      CollectedOnce(links, n - 1, intent, applied);
    }
  }

  lemma {:induction false} StartCounted(links: Links, n: nat)
    requires n <= |links| && StartsOnce(links)
    ensures Starts(links, n) == if n == 0 then 0 else 1
  {
    if n == 0 {
    } else {
      StartCounted(links, n - 1);
    }
  }

  lemma GoodHistoryIsAccepted(f: Format<Record>, links: Links, e: Expectation, j: nat)
    requires links != [] && Ordered(e) && Chained(f, links) && Increasing(links) && StartsOnce(links)
    requires forall i :: 0 <= i < |links| ==> links[i].payload.process == e.process
    requires StartBound(e, links[0].payload) && AllUndisturbed(e, links, |links|)
    requires j + 1 < |links| && OnlyAt(links, j, j + 1)
    requires Restored(e, links, j, j + 1)
    ensures Recovered(f, links, e) == Some(Receipt(e.prepared, Tip(f, links), links[j + 1].sequence))
  {
    hide Restored, AllUndisturbed, StartBound;
    StartCounted(links, |links|);
    CollectedOnce(links, |links|, j, j + 1);
    hide OnlyAt, StartsOnce, Intents, Restores, Starts;
    forall i | 0 <= i < |links| ensures InSequence(f, e.process, links, i) {
      assert Later(links, i);
      ChainedAt(f, links, i);
    }
  }

  // ---------------------------------------------------------------------
  // Route-preserving runs

  function Prepared(cfg: Config): Shown {
    Show(cfg, cfg.origin)
  }

  predicate Preserves(cfg: Config, act: Action) {
    match act
    case Restore(g, _, snapshot) =>
      g.Some? && snapshot.Some? ==> Show(cfg, Live(g.value, Predecessor, snapshot.value)) == Prepared(cfg)
    case Open(_, _, _, _, _) => false
    case ShutAll => false
    case Interrupt => false
    case Leave => false
    case _ => true
  }

  // How many restores were granted.
  function Grants(cfg: Config, io: Io, actions: seq<Action>): nat {
    if actions == [] then 0 else
    var front, last := actions[..|actions| - 1], actions[|actions| - 1];
    Grants(cfg, io, front) + if last.Restore? && Granted(cfg, Run(cfg, io, front), last).Some? then 1 else 0
  }

  // The records such runs write under the lock.
  predicate Harmless(cfg: Config, d: Detail) {
    || d.CloseChecked? || d.Duplicate? || d.AuthorityStop? || d.RestoreApplied?
    || (d.RestoreIntent? && Some(d.candidate) == Prepared(cfg).generation)
  }

  // Whatever the rest of a stretch journals, it journals on the prepared route.
  predicate Steady(cfg: Config, script: Script, route: Route, local: Route) {
    match script
    case Idle => true
    case Assign(r, rest) => Show(cfg, r) == Prepared(cfg) && Steady(cfg, rest, r, local)
    case Fetch(rest) => Steady(cfg, rest, route, route)
    case Put(d, rest) => Show(cfg, local) == Prepared(cfg) && Harmless(cfg, d) && Steady(cfg, rest, route, local)
    case Decide(_, _, _) => Show(cfg, local) == Prepared(cfg)
  }

  predicate OnPrepared(cfg: Config, p: Record) {
    && p.route == Prepared(cfg)
    && (Harmless(cfg, p.detail) || p.detail.Admission? || p.detail.Complete? || p.detail.AuthorityStart?)
  }

  ghost predicate Calm(cfg: Config, s: System) {
    && Show(cfg, s.route) == Prepared(cfg) && Steady(cfg, s.script, s.route, s.local)
    && (forall id :: id in s.handlers ==> !s.handlers[id].stage.Failing?)
    && (forall id :: id in s.handlers && s.handlers[id].stage.Forwarding? ==>
          Show(cfg, s.handlers[id].stage.route) == Prepared(cfg))
    && (forall i :: 0 <= i < |s.log.links| ==> OnPrepared(cfg, s.log.links[i].payload))
    && StartsOnce(s.log.links)
  }

  lemma RestoringIsSteady(cfg: Config, c: Route, route: Route, local: Route)
    requires c.Live? && Show(cfg, c) == Show(cfg, route) == Prepared(cfg)
    ensures Steady(cfg, Restoring(c), route, local)
  {
    var idle := Idle;
    assert Steady(cfg, Put(RestoreApplied, idle), c, c);
    assert Steady(cfg, Assign(c, Fetch(Put(RestoreApplied, idle))), route, route);
    assert Steady(cfg, Put(RestoreIntent(c.generation), Assign(c, Fetch(Put(RestoreApplied, idle)))), route, route);
  }

  lemma MovedSteady(cfg: Config, s: System, act: Action)
    requires cfg.origin.Live? && cfg.origin.fence == Predecessor && Calm(cfg, s) && Preserves(cfg, act)
    ensures var t := Moved(cfg, s, act);
      Steady(cfg, t.script, t.route, t.local) && Show(cfg, t.route) == Prepared(cfg)
  {
    assert !Watched(cfg, s.route);
    if act.Restore? {
      hide Steady;
      if Granted(cfg, s, act).Some? {
        RestoringIsSteady(cfg, Granted(cfg, s, act).value, s.route, s.local);
      }
    } else {
      var idle := Idle;
      assert Steady(cfg, idle, s.route, s.route);
    }
  }

  lemma MovedHandlersCalm(cfg: Config, s: System, act: Action)
    requires Calm(cfg, s)
    ensures var t := Moved(cfg, s, act);
      && (forall id :: id in t.handlers ==> !t.handlers[id].stage.Failing?)
      && (forall id :: id in t.handlers && t.handlers[id].stage.Forwarding? ==>
            Show(cfg, t.handlers[id].stage.route) == Prepared(cfg))
  {
    MovedNeverFails(cfg, s, act);
    MovedRoutes(cfg, s, act);
    hide Moved, Show, Steady;
  }

  lemma MovedCalm(cfg: Config, s: System, act: Action)
    requires cfg.origin.Live? && cfg.origin.fence == Predecessor && Calm(cfg, s) && Preserves(cfg, act)
    ensures Calm(cfg, Moved(cfg, s, act))
  {
    MovedSteady(cfg, s, act);
    MovedHandlersCalm(cfg, s, act);
    MovedKeepsLog(cfg, s, act);
    hide Moved, Steady, Show, OnPrepared;
  }

  lemma AppendedCalm(cfg: Config, s: System, act: Action)
    requires Calm(cfg, s) && Attempted(cfg, s, act).Some?
    requires forall d :: d in Details(s.script) ==> !d.Admission?
    ensures var t, link := Settled(s, act, true), Extension(cfg, s, Attempted(cfg, s, act).value);
      && OnPrepared(cfg, link.payload) && !link.payload.detail.AuthorityStart?
      && Show(cfg, t.route) == Prepared(cfg) && Steady(cfg, t.script, t.route, t.local)
      && (forall id :: id in t.handlers ==> !t.handlers[id].stage.Failing?)
      && (forall id :: id in t.handlers && t.handlers[id].stage.Forwarding? ==>
            Show(cfg, t.handlers[id].stage.route) == Prepared(cfg))
  {
  }

  lemma NextCalm(cfg: Config, s: System, act: Action)
    requires cfg.origin.Live? && cfg.origin.fence == Predecessor && Calm(cfg, s) && Preserves(cfg, act)
    requires forall d :: d in Details(s.script) ==> !d.Admission?
    requires !Next(cfg, s, act).refused && s.log.links != []
    ensures Calm(cfg, Next(cfg, s, act))
  {
    var ok := NextLinks(cfg, s, act);
    hide Next;
    if Attempted(cfg, s, act).None? {
      hide Calm, Moved, Preserves;
      MovedCalm(cfg, s, act);
    } else {
      AppendedCalm(cfg, s, act);
      hide Attempted, Settled, Steady, Show, Extension, OnPrepared;
    }
  }

  // ---------------------------------------------------------------------
  // How far the one restore has got

  predicate Untouched(links: Links) {
    forall i :: 0 <= i < |links| ==> !IsRestore(links[i].payload.detail)
  }

  // Its intent is written, and since then only completions.
  ghost predicate HalfDone(links: Links) {
    exists j: nat :: j < |links| && HalfDoneAt(links, j)
  }

  predicate HalfDoneAt(links: Links, j: nat)
    requires j < |links|
  {
    && links[j].payload.detail.RestoreIntent? && OnlyCompletions(links, j + 1, |links|)
    && forall i :: 0 <= i < j ==> !IsRestore(links[i].payload.detail)
  }

  // Both records are written, with only completions in between.
  ghost predicate Finished(links: Links) {
    exists j: nat, k: nat :: j < k < |links| && FinishedAt(links, j, k)
  }

  predicate FinishedAt(links: Links, j: nat, k: nat)
    requires j < k < |links|
  {
    && links[j].payload.detail.RestoreIntent? && links[k].payload.detail.RestoreApplied?
    && OnlyCompletions(links, j + 1, k)
    && forall i :: 0 <= i < |links| && i != j && i != k ==> !IsRestore(links[i].payload.detail)
  }

  ghost predicate Rested(grants: nat, links: Links) {
    (grants == 0 ==> Untouched(links)) && (grants == 1 ==> Finished(links))
  }

  function Finishing(c: Route): Script {
    Assign(c, Fetch(Put(RestoreApplied, Idle)))
  }

  ghost predicate NoRestore(script: Script) {
    forall d :: d in Details(script) ==> !IsRestore(d)
  }

  // What the rest of a stretch owes to the one granted restore.
  ghost predicate Owed(script: Script, grants: nat, links: Links) {
    match script
    case Idle => Rested(grants, links)
    case Assign(_, rest) => Owed(rest, grants, links)
    case Fetch(rest) => Owed(rest, grants, links)
    case Put(d, rest) =>
      if d.RestoreIntent? then grants == 1 && Untouched(links) && rest.Assign? && rest == Finishing(rest.route)
      else if d.RestoreApplied? then grants == 1 && HalfDone(links) && rest.Idle?
      else Rested(grants, links) && NoRestore(rest)
    case Decide(_, _, _) => Rested(grants, links)
  }

  lemma {:induction false} NothingOwed(script: Script, grants: nat, links: Links)
    requires NoRestore(script) && Rested(grants, links)
    ensures Owed(script, grants, links)
  {
    hide Rested;
    match script
    case Idle =>
    case Assign(_, rest) => NothingOwed(rest, grants, links);
    case Fetch(rest) => NothingOwed(rest, grants, links);
    case Put(d, rest) => assert d in Details(script);
    case Decide(_, _, _) =>
  }

  lemma RestedExtends(grants: nat, links: Links, link: Link<Record>)
    requires Rested(grants, links) && !IsRestore(link.payload.detail)
    ensures Rested(grants, links + [link])
  {
    var longer := links + [link];
    if grants == 1 {
      var j: nat, k: nat :| j < k < |links| && FinishedAt(links, j, k);
      assert FinishedAt(longer, j, k);
    }
  }

  lemma HalfDoneExtends(links: Links, link: Link<Record>)
    requires HalfDone(links) && link.payload.detail.Complete?
    ensures HalfDone(links + [link])
  {
    var j: nat :| j < |links| && HalfDoneAt(links, j);
    assert HalfDoneAt(links + [link], j);
  }

  lemma IntentStarts(links: Links, link: Link<Record>)
    requires Untouched(links) && link.payload.detail.RestoreIntent?
    ensures HalfDone(links + [link])
  {
    assert HalfDoneAt(links + [link], |links|);
  }

  lemma AppliedFinishes(links: Links, link: Link<Record>)
    requires HalfDone(links) && link.payload.detail.RestoreApplied?
    ensures Rested(1, links + [link])
  {
    var j: nat :| j < |links| && HalfDoneAt(links, j);
    assert FinishedAt(links + [link], j, |links|);
  }

  lemma {:induction false} CompletionOwes(script: Script, grants: nat, links: Links, link: Link<Record>)
    requires Owed(script, grants, links) && link.payload.detail.Complete?
    ensures Owed(script, grants, links + [link])
  {
    hide Rested, HalfDone;
    match script
    case Idle => RestedExtends(grants, links, link);
    case Assign(_, rest) => CompletionOwes(rest, grants, links, link);
    case Fetch(rest) => CompletionOwes(rest, grants, links, link);
    case Put(d, rest) =>
      if d.RestoreApplied? {
        HalfDoneExtends(links, link);
      } else if !d.RestoreIntent? {
        RestedExtends(grants, links, link);
      }
    case Decide(_, _, _) => RestedExtends(grants, links, link);
  }

  lemma FinishingOwes(c: Route, links: Links)
    requires HalfDone(links)
    ensures Owed(Finishing(c), 1, links)
  {
    hide HalfDone;
    var idle := Idle;
    assert Owed(Put(RestoreApplied, idle), 1, links);
    assert Owed(Fetch(Put(RestoreApplied, idle)), 1, links);
  }

  lemma AppendedOwes(cfg: Config, s: System, act: Action, grants: nat)
    requires Owed(s.script, grants, s.log.links) && Attempted(cfg, s, act).Some?
    ensures Owed(Settled(s, act, true).script, grants, s.log.links + [Extension(cfg, s, Attempted(cfg, s, act).value)])
  {
    hide Rested, HalfDone;
    var link, links := Extension(cfg, s, Attempted(cfg, s, act).value), s.log.links;
    if act.Reply? {
      CompletionOwes(s.script, grants, links, link);
    } else if s.script.Decide? {
      RestedExtends(grants, links, link);
    } else if s.script.detail.RestoreIntent? {
      IntentStarts(links, link);
      FinishingOwes(s.script.rest.route, links + [link]);
    } else if s.script.detail.RestoreApplied? {
      AppliedFinishes(links, link);
    } else {
      RestedExtends(grants, links, link);
      NothingOwed(s.script.rest, grants, links + [link]);
    }
  }

  lemma RestoringOwes(c: Route, links: Links)
    requires c.Live? && Untouched(links)
    ensures Owed(Restoring(c), 1, links)
  {
    assert Restoring(c) == Fetch(Put(RestoreIntent(c.generation), Finishing(c)));
    assert Owed(Put(RestoreIntent(c.generation), Finishing(c)), 1, links);
  }

  lemma MovedOwes(cfg: Config, s: System, act: Action, grants: nat)
    requires Owed(s.script, grants, s.log.links) && Preserves(cfg, act)
    ensures var more := grants + if act.Restore? && Granted(cfg, s, act).Some? then 1 else 0;
      more <= 1 ==> Owed(Moved(cfg, s, act).script, more, s.log.links)
  {
    hide Rested, Untouched;
    if s.script.Idle? {
      if act.Restore? && Granted(cfg, s, act).Some? {
        if grants == 0 {
          RestedMeansUntouched(s.log.links);
          hide Owed;
          RestoringOwes(Granted(cfg, s, act).value, s.log.links);
        }
      } else {
        MovedReach(cfg, s, act);
        assert NoRestore(Moved(cfg, s, act).script);
        hide Moved, Owed;
        IdleIsRested(s.script, grants, s.log.links);
        NothingOwed(Moved(cfg, s, act).script, grants, s.log.links);
      }
    } else {
      assert Moved(cfg, s, act).script != s.script ==> act.Tick?;
    }
  }

  lemma RestedMeansUntouched(links: Links)
    ensures Rested(0, links) ==> Untouched(links)
  {
  }

  lemma IdleIsRested(script: Script, grants: nat, links: Links)
    requires script.Idle? && Owed(script, grants, links)
    ensures Rested(grants, links)
  {
  }

  // ---------------------------------------------------------------------
  // Time

  // The clock reading for the record that action i of a run tries to write.
  function Reading(cfg: Config, io: Io, actions: seq<Action>, i: nat): Option<int>
    requires i < |actions|
  {
    var attempt := Attempted(cfg, Run(cfg, io, actions[..i]), actions[i]);
    if attempt.Some? then Some(attempt.value.io.now) else None
  }

  // The monotonic clock: every reading is above all earlier ones.
  ghost predicate Ticking(cfg: Config, io: Io, actions: seq<Action>) {
    && 0 < io.now
    && (forall i: nat :: i < |actions| && Reading(cfg, io, actions, i).Some? ==>
          io.now < Reading(cfg, io, actions, i).value)
    && (forall i: nat, k: nat ::
          i < k < |actions| && Reading(cfg, io, actions, i).Some? && Reading(cfg, io, actions, k).Some? ==>
            Reading(cfg, io, actions, i).value < Reading(cfg, io, actions, k).value)
  }

  ghost predicate LastRead(links: Links, cfg: Config, io: Io, actions: seq<Action>) {
    && links != []
    && var ns := links[|links| - 1].payload.ns;
       ns == io.now || exists i: nat :: i < |actions| && Reading(cfg, io, actions, i) == Some(ns)
  }

  lemma ReadingStays(cfg: Config, io: Io, before: seq<Action>, after: seq<Action>, i: nat)
    requires i < |before|
    ensures Reading(cfg, io, before + after, i) == Reading(cfg, io, before, i)
  {
    assert (before + after)[..i] == before[..i];
  }

  lemma TickingBefore(cfg: Config, io: Io, before: seq<Action>, after: seq<Action>)
    requires Ticking(cfg, io, before + after)
    ensures Ticking(cfg, io, before)
  {
    hide Reading;
    forall i: nat | i < |before| ensures Reading(cfg, io, before + after, i) == Reading(cfg, io, before, i) {
      ReadingStays(cfg, io, before, after, i);
    }
  }

  lemma TimeExtends(links: Links, link: Link<Record>)
    requires Increasing(links) && links != [] && links[|links| - 1].payload.ns < link.payload.ns
    ensures Increasing(links + [link])
  {
    var longer := links + [link];
    forall i | 0 <= i < |longer| ensures Later(longer, i) {
      if i < |links| {
        assert Later(links, i);
      }
    }
  }

  lemma LastReadGrows(links: Links, cfg: Config, io: Io, front: seq<Action>, act: Action)
    requires LastRead(links, cfg, io, front)
    ensures LastRead(links, cfg, io, front + [act])
  {
    hide Reading;
    var ns := links[|links| - 1].payload.ns;
    if ns != io.now {
      var i: nat :| i < |front| && Reading(cfg, io, front, i) == Some(ns);
      ReadingStays(cfg, io, front, [act], i);
    }
  }

  lemma ReadIsLater(links: Links, cfg: Config, io: Io, front: seq<Action>, act: Action)
    requires Ticking(cfg, io, front + [act]) && Reading(cfg, io, front + [act], |front|).Some?
    requires LastRead(links, cfg, io, front)
    ensures links[|links| - 1].payload.ns < Reading(cfg, io, front + [act], |front|).value
  {
    hide Reading;
    var ns := links[|links| - 1].payload.ns;
    if ns != io.now {
      var i: nat :| i < |front| && Reading(cfg, io, front, i) == Some(ns);
      ReadingStays(cfg, io, front, [act], i);
    }
  }

  lemma JustRead(links: Links, cfg: Config, io: Io, actions: seq<Action>)
    requires actions != [] && links != []
    requires Reading(cfg, io, actions, |actions| - 1) == Some(links[|links| - 1].payload.ns)
    ensures LastRead(links, cfg, io, actions)
  {
  }

  lemma {:induction false} RunIsTimed(cfg: Config, io: Io, actions: seq<Action>)
    requires Begun(cfg, io).1 == Done && Ticking(cfg, io, actions)
    ensures var links := Run(cfg, io, actions).log.links;
      Increasing(links) && LastRead(links, cfg, io, actions)
  {
    if actions == [] {
      WriteLinks(cfg, Log([], [], Intact), cfg.origin, AuthorityStart(cfg.authorization, cfg.backends), io);
      hide Write;
    } else {
      var front, act := actions[..|actions| - 1], actions[|actions| - 1];
      assert actions == front + [act];
      TickingBefore(cfg, io, front, [act]);
      RunIsTimed(cfg, io, front);
      var s := Run(cfg, io, front);
      assert Run(cfg, io, actions) == Next(cfg, s, act);
      hide Run, Next, Increasing, LastRead, Ticking;
      LastReadGrows(s.log.links, cfg, io, front, act);
      var ok := NextLinks(cfg, s, act);
      if ok {
        var link := Extension(cfg, s, Attempted(cfg, s, act).value);
        hide Attempted;
        ReadIsLater(s.log.links, cfg, io, front, act);
        assert Reading(cfg, io, actions, |front|) == Some(link.payload.ns);
        TimeExtends(s.log.links, link);
        JustRead(s.log.links + [link], cfg, io, actions);
      }
    }
  }

  // ---------------------------------------------------------------------
  // Completeness

  ghost predicate AllPreserve(cfg: Config, actions: seq<Action>) {
    forall i :: 0 <= i < |actions| ==> Preserves(cfg, actions[i])
  }

  lemma RefusedStays(cfg: Config, s: System, act: Action)
    ensures s.refused ==> Next(cfg, s, act).refused
  {
    var ok := NextLinks(cfg, s, act);
    hide Next, Moved, Attempted;
  }

  lemma {:induction false} RunIsCalm(cfg: Config, io: Io, actions: seq<Action>)
    requires cfg.origin.Live? && cfg.origin.fence == Predecessor && Begun(cfg, io).1 == Done
    requires AllPreserve(cfg, actions) && !Run(cfg, io, actions).refused && Grants(cfg, io, actions) <= 1
    ensures var s := Run(cfg, io, actions);
      && s.log.links != [] && Calm(cfg, s) && NoLooseAdmission(s.script)
      && Owed(s.script, Grants(cfg, io, actions), s.log.links)
  {
    if actions == [] {
      assert Run(cfg, io, actions) == Begun(cfg, io).0 && Grants(cfg, io, actions) == 0;
      hide *;
      StartIsCalm(cfg, io);
    } else {
      var front, act := actions[..|actions| - 1], actions[|actions| - 1];
      var s := Run(cfg, io, front);
      OneMore(cfg, io, actions);
      hide *;
      RefusedStays(cfg, s, act);
      RunIsCalm(cfg, io, front);
      StepIsCalm(cfg, s, act, Grants(cfg, io, front));
    }
  }

  lemma OneMore(cfg: Config, io: Io, actions: seq<Action>)
    requires actions != []
    ensures var front, act := actions[..|actions| - 1], actions[|actions| - 1];
      var s := Run(cfg, io, front);
      && Run(cfg, io, actions) == Next(cfg, s, act)
      && Grants(cfg, io, actions)
         == Grants(cfg, io, front) + (if act.Restore? && Granted(cfg, s, act).Some? then 1 else 0)
      && (AllPreserve(cfg, actions) ==> AllPreserve(cfg, front) && Preserves(cfg, act))
  {
    hide Next, Granted, Preserves;
  }

  lemma StartIsCalm(cfg: Config, io: Io)
    requires cfg.origin.Live? && Begun(cfg, io).1 == Done
    ensures var s := Begun(cfg, io).0;
      s.log.links != [] && Calm(cfg, s) && NoLooseAdmission(s.script) && Owed(s.script, 0, s.log.links)
  {
    WriteLinks(cfg, Log([], [], Intact), cfg.origin, AuthorityStart(cfg.authorization, cfg.backends), io);
    hide Write, Show, Finished;
  }

  lemma StepIsCalm(cfg: Config, s: System, act: Action, grants: nat)
    requires cfg.origin.Live? && cfg.origin.fence == Predecessor && Preserves(cfg, act)
    requires s.log.links != [] && Calm(cfg, s) && NoLooseAdmission(s.script) && Owed(s.script, grants, s.log.links)
    requires !Next(cfg, s, act).refused
    requires grants + (if act.Restore? && Granted(cfg, s, act).Some? then 1 else 0) <= 1
    ensures var t, more := Next(cfg, s, act), grants + if act.Restore? && Granted(cfg, s, act).Some? then 1 else 0;
      && t.log.links != [] && Calm(cfg, t) && NoLooseAdmission(t.script) && Owed(t.script, more, t.log.links)
  {
    NextCalm(cfg, s, act);
    NextScript(cfg, s, act);
    var ok := NextLinks(cfg, s, act);
    if Attempted(cfg, s, act).None? {
      hide Next, Moved, Calm, Owed, Granted, NoLooseAdmission;
      MovedOwes(cfg, s, act, grants);
    } else {
      AppendedOwes(cfg, s, act, grants);
      hide Next, Calm, Owed, Granted, NoLooseAdmission, Settled, Extension;
    }
  }

  // The verifier's expectations are about this authority.
  predicate Expects(cfg: Config, io: Io, e: Expectation) {
    && Ordered(e) && e.process == cfg.process && e.prepared == Prepared(cfg) && io.now < e.fault
    && Says(cfg.authorization, LaunchId, e.launch)
    && Says(cfg.authorization, RegistrationDigest, e.registration)
  }

  // The restore begins after the restart, is over by completion, and no
  // completion is journalled between its two records.
  predicate RestoredInTime(links: Links, e: Expectation) {
    forall k :: 0 <= k < |links| ==>
      && (links[k].payload.detail.RestoreIntent? ==> e.restart < links[k].payload.ns)
      && (links[k].payload.detail.RestoreApplied? ==>
            links[k].payload.ns <= e.completion && NoCompletionBefore(links, k))
  }

  lemma FinishedIsAdjacent(links: Links, e: Expectation) returns (j: nat)
    requires Finished(links) && RestoredInTime(links, e)
    ensures j + 1 < |links| && OnlyAt(links, j, j + 1)
  {
    var k: nat;
    j, k :| j < k < |links| && FinishedAt(links, j, k);
    assert NoCompletionBefore(links, k);
    assert k == j + 1;
    forall i | 0 <= i < |links|
      ensures links[i].payload.detail.RestoreIntent? <==> i == j
      ensures links[i].payload.detail.RestoreApplied? <==> i == j + 1
    {
      if i != j && i != k {
        assert !IsRestore(links[i].payload.detail);
      }
    }
  }

  lemma CalmIsUndisturbed(cfg: Config, s: System, e: Expectation)
    requires Calm(cfg, s) && e.prepared == Prepared(cfg)
    ensures AllUndisturbed(e, s.log.links, |s.log.links|)
  {
    hide Show, Steady;
    forall i | 0 <= i < |s.log.links| ensures Undisturbed(e, s.log.links[i].payload) {
      assert OnPrepared(cfg, s.log.links[i].payload);
    }
  }

  lemma RestoreFits(cfg: Config, s: System, e: Expectation, j: nat)
    requires cfg.origin.Live? && Calm(cfg, s) && e.prepared == Prepared(cfg) && RestoredInTime(s.log.links, e)
    requires Chained(cfg.format, s.log.links) && Increasing(s.log.links)
    requires j + 1 < |s.log.links| && OnlyAt(s.log.links, j, j + 1)
    ensures Restored(e, s.log.links, j, j + 1)
  {
    var links := s.log.links;
    assert OnPrepared(cfg, links[j].payload) && OnPrepared(cfg, links[j + 1].payload);
    ChainedAt(cfg.format, links, j);
    ChainedAt(cfg.format, links, j + 1);
    hide Calm, Chained, OnlyAt;
    assert Later(links, j + 1);
  }

  // The start record of any run.
  lemma {:induction false} RunStarts(cfg: Config, io: Io, actions: seq<Action>)
    requires Begun(cfg, io).1 == Done
    ensures var links := Run(cfg, io, actions).log.links;
      links != [] && links[0].payload == RecordOf(cfg, cfg.origin, AuthorityStart(cfg.authorization, cfg.backends), io)
  {
    if actions == [] {
      WriteLinks(cfg, Log([], [], Intact), cfg.origin, AuthorityStart(cfg.authorization, cfg.backends), io);
    } else {
      var front, act := actions[..|actions| - 1], actions[|actions| - 1];
      RunStarts(cfg, io, front);
      var ok := NextLinks(cfg, Run(cfg, io, front), act);
      hide Next;
    }
  }

  // ---------------------------------------------------------------------
  // After completion anything may follow but another restore

  // A record the verifier does not mind after completion.
  predicate Late(p: Record, completion: int) {
    completion < p.ns && !IsRestore(p.detail) && !p.detail.AuthorityStart?
  }

  ghost predicate ScriptIsLate(script: Script) {
    forall d :: d in Details(script) ==> !IsRestore(d) && !d.AuthorityStart?
  }

  // `links` goes on from `base` with late records only.
  predicate GoesOn(base: Links, links: Links, completion: int) {
    base <= links && forall i :: |base| <= i < |links| ==> Late(links[i].payload, completion)
  }

  lemma NextGoesOn(cfg: Config, s: System, act: Action, base: Links, completion: int)
    requires GoesOn(base, s.log.links, completion) && ScriptIsLate(s.script)
    requires !act.Restore? || Granted(cfg, s, act).None?
    requires Attempted(cfg, s, act).Some? ==> completion < Attempted(cfg, s, act).value.io.now
    ensures var t := Next(cfg, s, act);
      GoesOn(base, t.log.links, completion) && ScriptIsLate(t.script)
  {
    NextReach(cfg, s, act);
    assert forall d :: d in Topics(cfg, s, act) ==> !IsRestore(d) && !d.AuthorityStart?;
    var ok := NextLinks(cfg, s, act);
    hide Next, Topics, Granted, Destinations;
    if ok {
      assert s.script.Put? ==> s.script.detail in Details(s.script);
      assert Late(Extension(cfg, s, Attempted(cfg, s, act).value).payload, completion);
      hide Attempted;
    }
  }

  lemma {:induction false} GrantsGrow(cfg: Config, io: Io, before: seq<Action>, after: seq<Action>)
    ensures Grants(cfg, io, before) <= Grants(cfg, io, before + after)
    decreases |after|
  {
    hide Run, Granted;
    if after == [] {
      assert before + after == before;
    } else {
      var n := |after| - 1;
      assert (before + after)[..|before| + n] == before + after[..n];
      GrantsGrow(cfg, io, before, after[..n]);
    }
  }

  // Whatever is read of the clock after the first n actions is past completion.
  ghost predicate LaterFrom(cfg: Config, io: Io, actions: seq<Action>, n: nat, completion: int) {
    forall i: nat :: n <= i < |actions| && Reading(cfg, io, actions, i).Some? ==>
      completion < Reading(cfg, io, actions, i).value
  }

  lemma {:induction false} RunGoesOn(cfg: Config, io: Io, before: seq<Action>, after: seq<Action>, completion: int)
    requires Run(cfg, io, before).script.Idle? && LaterFrom(cfg, io, before + after, |before|, completion)
    requires Grants(cfg, io, before + after) == Grants(cfg, io, before)
    ensures var t := Run(cfg, io, before + after);
      GoesOn(Run(cfg, io, before).log.links, t.log.links, completion) && ScriptIsLate(t.script)
    decreases |after|
  {
    if after == [] {
      assert before + after == before;
    } else {
      var n := |after| - 1;
      var front, act := before + after[..n], after[n];
      assert before + after == front + [act];
      OneMoreLater(cfg, io, front, act, |before|, completion);
      GrantsGrow(cfg, io, before, after[..n]);
      hide *;
      RunGoesOn(cfg, io, before, after[..n], completion);
      NextGoesOn(cfg, Run(cfg, io, front), act, Run(cfg, io, before).log.links, completion);
    }
  }

  lemma OneMoreLater(cfg: Config, io: Io, front: seq<Action>, act: Action, n: nat, completion: int)
    requires LaterFrom(cfg, io, front + [act], n, completion) && n <= |front|
    ensures LaterFrom(cfg, io, front, n, completion)
    ensures var s := Run(cfg, io, front);
      && Run(cfg, io, front + [act]) == Next(cfg, s, act)
      && (Attempted(cfg, s, act).Some? ==> completion < Attempted(cfg, s, act).value.io.now)
      && Grants(cfg, io, front + [act])
         == Grants(cfg, io, front) + (if act.Restore? && Granted(cfg, s, act).Some? then 1 else 0)
  {
    var all := front + [act];
    assert all[..|front|] == front && all[|front|] == act;
    hide Next, Attempted, Granted;
    assert Reading(cfg, io, all, |front|).Some? ==> completion < Reading(cfg, io, all, |front|).value;
    forall i: nat | i < |front| ensures Reading(cfg, io, all, i) == Reading(cfg, io, front, i) {
      ReadingStays(cfg, io, front, [act], i);
    }
  }

  // What a history has up to completion it still has when only late records
  // follow.
  lemma LateRecordsDoNoHarm(base: Links, links: Links, e: Expectation, j: nat)
    requires base != [] && GoesOn(base, links, e.completion)
    requires StartsOnce(base) && AllUndisturbed(e, base, |base|)
    requires j + 1 < |base| && OnlyAt(base, j, j + 1) && Restored(e, base, j, j + 1)
    ensures StartsOnce(links) && AllUndisturbed(e, links, |links|)
    ensures OnlyAt(links, j, j + 1) && Restored(e, links, j, j + 1)
  {
    hide SameShown, Same;
    forall i | 0 <= i < |links| ensures Undisturbed(e, links[i].payload) {
      assert i < |base| ==> Undisturbed(e, base[i].payload) && links[i] == base[i];
    }
  }

  // A run that starts on the prepared predecessor before the fault, keeps to
  // route-preserving operations and restores that route exactly once, after
  // the restart and by completion, has that route in place then; and it is
  // accepted with it as its result, whatever but another restore follows
  // completion: opens, closes, lost records.
  lemma RestoringRunIsAccepted(cfg: Config, io: Io, before: seq<Action>, after: seq<Action>, e: Expectation)
    requires cfg.origin.Live? && cfg.origin.fence == Predecessor && Begun(cfg, io).1 == Done
    requires AllPreserve(cfg, before) && Grants(cfg, io, before) == 1
    requires var s := Run(cfg, io, before);
      !s.refused && s.script.Idle? && RestoredInTime(s.log.links, e)
    requires Ticking(cfg, io, before + after) && LaterFrom(cfg, io, before + after, |before|, e.completion)
    requires Grants(cfg, io, before + after) == 1
    requires Expects(cfg, io, e)
    ensures Show(cfg, Run(cfg, io, before).route) == Prepared(cfg)
    ensures var links := Run(cfg, io, before + after).log.links;
      var receipt := Recovered(cfg.format, links, e);
      receipt.Some? && receipt.value.route == Prepared(cfg) && receipt.value.chain == Tip(cfg.format, links)
  {
    var s, links := Run(cfg, io, before), Run(cfg, io, before + after).log.links;
    TickingBefore(cfg, io, before, after);
    var j := RestoredBy(cfg, io, before, e);
    RunGoesOn(cfg, io, before, after, e.completion);
    RunIsTimed(cfg, io, before + after);
    RunStarts(cfg, io, before + after);
    RunJournal(cfg, io, before + after);
    AllSameProcess(cfg, Run(cfg, io, before + after).log);
    hide Run, Ticking, LastRead, AllPreserve, Grants, Restored, Increasing, RestoredInTime, AllUndisturbed, GoesOn,
      OnlyAt, StartsOnce, Recovered, ScriptIsLate, Chained, Show;
    LateRecordsDoNoHarm(s.log.links, links, e, j);
    GoodHistoryIsAccepted(cfg.format, links, e, j);
  }

  // The history up to completion.
  lemma RestoredBy(cfg: Config, io: Io, before: seq<Action>, e: Expectation) returns (j: nat)
    requires cfg.origin.Live? && cfg.origin.fence == Predecessor && Begun(cfg, io).1 == Done
    requires AllPreserve(cfg, before) && Ticking(cfg, io, before) && Grants(cfg, io, before) == 1
    requires var s := Run(cfg, io, before);
      !s.refused && s.script.Idle? && RestoredInTime(s.log.links, e)
    requires Expects(cfg, io, e)
    ensures Show(cfg, Run(cfg, io, before).route) == Prepared(cfg)
    ensures var links := Run(cfg, io, before).log.links;
      && links != [] && StartsOnce(links) && AllUndisturbed(e, links, |links|)
      && j + 1 < |links| && OnlyAt(links, j, j + 1) && Restored(e, links, j, j + 1)
  {
    var s := Run(cfg, io, before);
    var links := s.log.links;
    RunIsCalm(cfg, io, before);
    IdleIsRested(s.script, 1, links);
    RunIsTimed(cfg, io, before);
    RunJournal(cfg, io, before);
    assert Finished(links);
    hide Run, Owed, Rested, Finished, Ticking, LastRead, AllPreserve, Grants, Restored, Increasing, RestoredInTime,
      Steady, AllUndisturbed, OnPrepared, StartsOnce, OnlyAt, Undisturbed;
    j := FinishedIsAdjacent(links, e);
    AllSameProcess(cfg, s.log);
    CalmIsUndisturbed(cfg, s, e);
    RestoreFits(cfg, s, e, j);
  }

  lemma AllSameProcess(cfg: Config, log: Log<Record>)
    requires JournalOk(cfg, log)
    ensures Chained(cfg.format, log.links)
    ensures forall i :: 0 <= i < |log.links| ==> log.links[i].payload.process == cfg.process
  {
    hide Chained;
    forall i | 0 <= i < |log.links| ensures log.links[i].payload.process == cfg.process {
      assert Truthful(cfg, log.links[i].payload);
    }
  }

  // ---------------------------------------------------------------------
  // Whether the predecessor is really in place

  // A failed append closes the route, at once under the lock and late for a
  // completion.
  predicate Closes(cfg: Config, s: System, act: Action) {
    || (act.Sink? && At(s, act.id, Failing))
    || (act.Tick? && Attempted(cfg, s, act).Some? && |Next(cfg, s, act).log.links| == |s.log.links|)
  }

  // No restore has installed its route since the last such close.
  predicate LeftClosed(cfg: Config, io: Io, actions: seq<Action>) {
    if actions == [] then false else
    var front, act := actions[..|actions| - 1], actions[|actions| - 1];
    var s := Run(cfg, io, front);
    if act.Tick? && s.script.Assign? then false else LeftClosed(cfg, io, front) || Closes(cfg, s, act)
  }

  ghost predicate OnlyPrepared(cfg: Config, s: System, closed: bool) {
    && (forall r :: r in Routes(s.script) ==> Show(cfg, r) == Prepared(cfg))
    && (if closed then s.route.Shut? else Show(cfg, s.route) == Prepared(cfg))
  }

  lemma NextOnlyPrepared(cfg: Config, s: System, act: Action, closed: bool)
    requires cfg.origin.Live? && cfg.origin.fence == Predecessor
    requires OnlyPrepared(cfg, s, closed) && Preserves(cfg, act)
    ensures OnlyPrepared(cfg, Next(cfg, s, act),
                         !(act.Tick? && s.script.Assign?) && (closed || Closes(cfg, s, act)))
  {
    MovedBringsPrepared(cfg, s, act);
    var ok := NextLinks(cfg, s, act);
    hide Next;
    RestHolds(s.script);
    hide Show, Follows, Candidacy, Preserves;
  }

  lemma MovedBringsPrepared(cfg: Config, s: System, act: Action)
    requires cfg.origin.Live? && cfg.origin.fence == Predecessor && Preserves(cfg, act)
    requires forall r :: r in Routes(s.script) ==> Show(cfg, r) == Prepared(cfg)
    requires s.route.Shut? || Show(cfg, s.route) == Prepared(cfg)
    ensures forall r :: r in Routes(Moved(cfg, s, act).script) ==> Show(cfg, r) == Prepared(cfg)
  {
    assert !Watched(cfg, s.route);
    if act.Admit? || act.Query? {
      assert forall id, ask, o :: Routes(Fetch(Decide(id, ask, o))) == {};
    } else {
      MovedReach(cfg, s, act);
    }
    hide Follows, Candidacy;
  }

  // Failed appends admitted: after route-preserving operations the prepared
  // route is in place exactly when no failed append has closed it since a
  // restore last installed it.
  lemma {:induction false} InPlaceExactly(cfg: Config, io: Io, actions: seq<Action>)
    requires cfg.origin.Live? && cfg.origin.fence == Predecessor && AllPreserve(cfg, actions)
    ensures Show(cfg, Run(cfg, io, actions).route) == Prepared(cfg) <==> !LeftClosed(cfg, io, actions)
    ensures OnlyPrepared(cfg, Run(cfg, io, actions), LeftClosed(cfg, io, actions))
  {
    if actions == [] {
    } else {
      hide Next, Preserves, Closes, OnlyPrepared;
      var front, act := actions[..|actions| - 1], actions[|actions| - 1];
      InPlaceExactly(cfg, io, front);
      NextOnlyPrepared(cfg, Run(cfg, io, front), act, LeftClosed(cfg, io, front));
      assert OnlyPrepared(cfg, Run(cfg, io, actions), LeftClosed(cfg, io, actions));
    }
    ShownIsOpen(cfg, Run(cfg, io, actions), LeftClosed(cfg, io, actions));
  }

  lemma ShownIsOpen(cfg: Config, s: System, closed: bool)
    requires cfg.origin.Live? && OnlyPrepared(cfg, s, closed)
    ensures Show(cfg, s.route) == Prepared(cfg) <==> !closed
  {
  }

  // ---------------------------------------------------------------------
  // What the verifier cannot see

  // In any accepted run with a request in flight, losing that request's
  // completion shuts the route; the events are the same, and so is the
  // verdict that the predecessor is in place.
  lemma SilentShutIsInvisible(cfg: Config, io: Io, actions: seq<Action>, e: Expectation, id: nat)
    requires Recovered(cfg.format, Run(cfg, io, actions).log.links, e).Some?
    requires IsForwarding(Run(cfg, io, actions), id)
    ensures var s, t := Run(cfg, io, actions), Run(cfg, io, actions + [LostReply(id), Sink(id)]);
      && t.log.links == s.log.links && t.route.Shut?
      && Recovered(cfg.format, t.log.links, e) == Recovered(cfg.format, s.log.links, e)
  {
    var s, one := Run(cfg, io, actions), actions + [LostReply(id)];
    var two := actions + [LostReply(id), Sink(id)];
    assert one[..|one| - 1] == actions && two[..|two| - 1] == one;
    hide Recovered, Write;
    LostWrite(cfg, s.log, s.handlers[id].stage.route, Attempted(cfg, s, LostReply(id)).value.detail);
    assert Run(cfg, io, one) == Next(cfg, s, LostReply(id));
    assert At(Run(cfg, io, one), id, Failing);
  }
}
