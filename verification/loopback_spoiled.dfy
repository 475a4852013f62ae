/**
 The two windows in which one lost completion spoils an open. Its late shut may
 fall after the candidate was installed: the applied open is recorded with a
 closed route. Or before the route is read for the intent: then the intent is
 recorded with a closed route, and installing the candidate undoes the shut.
 */
module LoopbackSpoiled {
  import opened Wrappers
  import opened JournalBytes
  import opened HashChain
  import opened LoopbackAuthority
  import opened LoopbackScripts
  import opened LoopbackOpens

  function Play(cfg: Config, s: System, actions: seq<Action>): System
    decreases |actions|
  {
    if actions == [] then s else Play(cfg, Next(cfg, s, actions[0]), actions[1..])
  }

  lemma {:induction false} RunPlays(cfg: Config, io: Io, before: seq<Action>, after: seq<Action>)
    ensures Run(cfg, io, before + after) == Play(cfg, Run(cfg, io, before), after)
    decreases |after|
  {
    if after == [] {
      assert before + after == before;
    } else {
      var one := before + [after[0]];
      assert one + after[1..] == before + after;
      assert one[..|one| - 1] == before;
      RunPlays(cfg, io, one, after[1..]);
    }
  }

  // The disk takes this record.
  predicate Accepted(cfg: Config, log: Log<Record>, r: Route, d: Detail, io: Io) {
    Write(cfg, log, r, d, io).1 == Done
  }

  function LostReply(id: nat): Action {
    Reply(id, None, "", 200, [], Io(0, [], true))
  }

  // The intent is on disk and the candidate is about to be installed; request
  // `id` is in flight; its completion is lost, and its thread gets round to
  // shutting the route just after the candidate was installed.
  function Spoiling(id: nat, io: Io): seq<Action> {
    [LostReply(id), Tick(io), Sink(id), Tick(io), Tick(io)]
  }

  // Nothing of a lost record reaches the file.
  lemma LostWrite(cfg: Config, log: Log<Record>, r: Route, d: Detail)
    ensures Write(cfg, log, r, d, Io(0, [], true)).0 == log
    ensures Write(cfg, log, r, d, Io(0, [], true)).1 != Done
  {
    var raw := cfg.format.line(NextLink(cfg.format, log.links, RecordOf(cfg, r, d, Io(0, [], true))));
    assert log.file + (raw + [LF])[..0] == log.file;
  }

  lemma SpoilSteps(cfg: Config, s: System, c: Route, id: nat, io: Io)
    requires s.script == Applying(c) && IsForwarding(s, id)
    requires Accepted(cfg, s.log, Shut, OpenApplied, io)
    ensures Play(cfg, s, Spoiling(id, io)).log == Write(cfg, s.log, Shut, OpenApplied, io).0
  {
    LostWrite(cfg, s.log, s.handlers[id].stage.route, Attempted(cfg, s, LostReply(id)).value.detail);
    hide Write;
    var actions := Spoiling(id, io);
    var failing := Next(cfg, s, actions[0]);
    assert failing.log == s.log && failing.script == s.script && At(failing, id, Failing);
    var installed := Next(cfg, failing, actions[1]);
    assert installed == failing.(route := c, script := Fetch(Put(OpenApplied, Idle)));
    var sunk := Next(cfg, installed, actions[2]);
    assert sunk.route == Shut && sunk.script == installed.script && sunk.log == s.log;
    var fetched := Next(cfg, sunk, actions[3]);
    assert fetched == sunk.(local := Shut, script := Put(OpenApplied, Idle));
    var done := Next(cfg, fetched, actions[4]);
    PlaysFive(cfg, s, actions);
  }

  lemma PlaysFive(cfg: Config, s: System, actions: seq<Action>)
    requires |actions| == 5
    ensures Play(cfg, s, actions)
         == Next(cfg, Next(cfg, Next(cfg, Next(cfg, Next(cfg, s, actions[0]), actions[1]), actions[2]), actions[3]),
                 actions[4])
  {
    hide Next;
    var one := Next(cfg, s, actions[0]);
    assert actions[1..][1..] == actions[2..] && actions[2..][1..] == actions[3..];
    assert actions[3..][1..] == actions[4..] && actions[4..][1..] == [];
    assert Play(cfg, one, actions[1..]) == Play(cfg, Next(cfg, one, actions[1]), actions[2..]);
    var two := Next(cfg, one, actions[1]);
    assert Play(cfg, two, actions[2..]) == Play(cfg, Next(cfg, two, actions[2]), actions[3..]);
    var three := Next(cfg, two, actions[2]);
    assert Play(cfg, three, actions[3..]) == Play(cfg, Next(cfg, three, actions[3]), actions[4..]);
    var four := Next(cfg, three, actions[3]);
    assert Play(cfg, four, actions[4..]) == Play(cfg, Next(cfg, four, actions[4]), []);
  }

  // In any run that has got this far, the journal then shows an applied open
  // with no generation and no fence.
  lemma LostCompletionSpoilsOpen(cfg: Config, first: Io, actions: seq<Action>, c: Route, id: nat, io: Io)
    requires var s := Run(cfg, first, actions);
      && s.script == Applying(c) && IsForwarding(s, id)
      && Accepted(cfg, s.log, Shut, OpenApplied, io)
    ensures !Disciplined(Run(cfg, first, actions + Spoiling(id, io)).log.links)
    ensures Run(cfg, first, actions + Spoiling(id, io)).log.disk.Intact? == Run(cfg, first, actions).log.disk.Intact?
  {
    var s := Run(cfg, first, actions);
    RunPlays(cfg, first, actions, Spoiling(id, io));
    SpoilSteps(cfg, s, c, id, io);
    WriteLinks(cfg, s.log, Shut, OpenApplied, io);
    hide Run, Play, Accepted;
    var n, links := |s.log.links|, Write(cfg, s.log, Shut, OpenApplied, io).0.links;
    assert links[n].payload.detail.OpenApplied? && links[n].payload.route.generation.None?;
  }

  // And runs do get this far: one request forwarded on the predecessor route,
  // then an open whose intent has been written.
  function MidOpen(ask: Ask, c: Route, admit: Io, intent: Io): seq<Action>
    requires c.Live?
  {
    [Arrive(0, ask), Admit(0, Evidence(true, None)), Tick(admit), Tick(admit),
     Open(true, c.generation, Some(c.fence), Some(c.snapshot), None), Tick(intent), Tick(intent)]
  }

  lemma MidOpenIsReached(cfg: Config, first: Io, ask: Ask, c: Route, admit: Io, intent: Io)
    requires cfg.observer.None? && cfg.origin.Live? && c.Live? && OnGate(c)
    requires Follows(cfg.origin.generation, c.generation)
    requires var log := Begun(cfg, first).0.log;
      var admitted := Write(cfg, log, cfg.origin, AdmissionOf(cfg, ask, cfg.origin, None), admit).0;
      && Accepted(cfg, log, cfg.origin, AdmissionOf(cfg, ask, cfg.origin, None), admit)
      && Accepted(cfg, admitted, cfg.origin, OpenIntent(c.generation, c.fence, None, None), intent)
    ensures var s := Run(cfg, first, MidOpen(ask, c, admit, intent));
      s.script == Applying(c) && IsForwarding(s, 0)
  {
    var actions := MidOpen(ask, c, admit, intent);
    var s0 := Begun(cfg, first).0;
    assert [] + actions == actions;
    RunPlays(cfg, first, [], actions);
    PlaysFive(cfg, s0, actions[..5]);
    assert actions == actions[..5] + [actions[5], actions[6]];
    PlaysTwo(cfg, s0, actions[..5], actions[5], actions[6]);
    hide Next, Run, Play, Write, Follows;
    var s4 := Forwarded(cfg, s0, ask, admit);
    IntentWritten(cfg, s4, c, intent);
  }

  lemma Forwarded(cfg: Config, s0: System, ask: Ask, admit: Io) returns (s4: System)
    requires cfg.observer.None? && s0.route.Live? && s0.script.Idle? && s0.seen == {} && s0.handlers == map[]
    requires Accepted(cfg, s0.log, s0.route, AdmissionOf(cfg, ask, s0.route, None), admit)
    ensures s4 == Next(cfg, Next(cfg, Next(cfg, Next(cfg, s0, Arrive(0, ask)), Admit(0, Evidence(true, None))),
                                 Tick(admit)), Tick(admit))
    ensures s4.script.Idle? && IsForwarding(s4, 0) && s4.route == s0.route
    ensures s4.log == Write(cfg, s0.log, s0.route, AdmissionOf(cfg, ask, s0.route, None), admit).0
  {
    hide Write;
    var s1 := Next(cfg, s0, Arrive(0, ask));
    assert s1.handlers == map[0 := Handler(ask, Cleared)];
    var s2 := Next(cfg, s1, Admit(0, Evidence(true, None)));
    assert s2.script == Fetch(Decide(0, ask, None)) && s2.handlers == map[0 := Handler(ask, Waiting)];
    var s3 := Next(cfg, s2, Tick(admit));
    assert s3.script == Decide(0, ask, None) && s3.local == s0.route;
    s4 := Next(cfg, s3, Tick(admit));
  }

  lemma IntentWritten(cfg: Config, s4: System, c: Route, intent: Io)
    requires cfg.observer.None? && s4.script.Idle? && s4.route.Live? && c.Live? && OnGate(c)
    requires Follows(s4.route.generation, c.generation) && IsForwarding(s4, 0)
    requires Accepted(cfg, s4.log, s4.route, OpenIntent(c.generation, c.fence, None, None), intent)
    ensures var open := Open(true, c.generation, Some(c.fence), Some(c.snapshot), None);
      var s7 := Next(cfg, Next(cfg, Next(cfg, s4, open), Tick(intent)), Tick(intent));
      s7.script == Applying(c) && IsForwarding(s7, 0)
  {
    hide Write, Follows;
    var s5 := Next(cfg, s4, Open(true, c.generation, Some(c.fence), Some(c.snapshot), None));
    assert s5.script == Opening(cfg, c, None) && s5.handlers == s4.handlers && s5.route == s4.route;
    var s6 := Next(cfg, s5, Tick(intent));
    assert s6.script == Opening(cfg, c, None).rest && s6.local == s4.route;
  }

  lemma {:induction false} PlaysTwo(cfg: Config, s: System, actions: seq<Action>, one: Action, two: Action)
    ensures Play(cfg, s, actions + [one, two]) == Next(cfg, Next(cfg, Play(cfg, s, actions), one), two)
    decreases |actions|
  {
    hide Next;
    var all := actions + [one, two];
    if actions == [] {
      assert all == [one, two] && all[1..] == [two] && all[1..][1..] == [];
      var after := Next(cfg, s, one);
      assert Play(cfg, after, [two]) == Play(cfg, Next(cfg, after, two), [two][1..]);
    } else {
      assert all[1..] == actions[1..] + [one, two] && all[0] == actions[0];
      PlaysTwo(cfg, Next(cfg, s, actions[0]), actions[1..], one, two);
    }
  }

  // ---------------------------------------------------------------------
  // The early window

  lemma RunStep(cfg: Config, first: Io, actions: seq<Action>, act: Action)
    ensures var s := Run(cfg, first, actions);
      && Run(cfg, first, actions + [act]) == Next(cfg, s, act)
      && (Struck(cfg, first, actions + [act]) <==>
            !s.script.Idle? && (Struck(cfg, first, actions) || Strikes(s, act)))
      && (Spoilt(cfg, first, actions + [act]) <==>
            Spoilt(cfg, first, actions) || (Struck(cfg, first, actions) && Applies(cfg, s, act)))
  {
    assert (actions + [act])[..|actions|] == actions;
  }

  // Request `id` has lost its completion, an open has been granted, and the
  // request's thread gets round to shutting the route only now.
  function Undone(id: nat, intent: Io, applied: Io): seq<Action> {
    [Sink(id), Tick(intent), Tick(intent), Tick(applied), Tick(applied), Tick(applied)]
  }

  function IntentOf(cfg: Config, c: Route, observation: Option<Digest>): Detail
    requires c.Live?
  {
    OpenIntent(c.generation, c.fence, observation, Binding(cfg))
  }

  // The journal then shows an intent without a generation, and the shut is
  // undone: the authority ends up on the gate route.
  lemma EarlyShutSpoilsOpen(cfg: Config, first: Io, actions: seq<Action>, c: Route, observation: Option<Digest>,
                            id: nat, intent: Io, applied: Io)
    requires Begun(cfg, first).1 == Done && c.Live?
    requires var s := Run(cfg, first, actions);
      && s.script == Opening(cfg, c, observation) && At(s, id, Failing)
      && Accepted(cfg, s.log, Shut, IntentOf(cfg, c, observation), intent)
      && Accepted(cfg, Write(cfg, s.log, Shut, IntentOf(cfg, c, observation), intent).0, c, OpenApplied, applied)
    ensures var t := Run(cfg, first, actions + Undone(id, intent, applied));
      !Disciplined(t.log.links) && t.route == c && t.script.Idle?
  {
    hide Write, Struck, Spoilt;
    var steps := Undone(id, intent, applied);
    var a1 := actions + [steps[0]];
    var a2, a3 := a1 + [steps[1]], a1 + [steps[1]] + [steps[2]];
    var a4, a5 := a3 + [steps[3]], a3 + [steps[3]] + [steps[4]];
    assert a5 + [steps[5]] == actions + steps;
    EarlyIntent(cfg, first, actions, c, observation, id, intent);
    EarlyApplied(cfg, first, a3, c, applied);
    LateShutsSpoilExactly(cfg, first, actions + steps);
  }

  lemma EarlyIntent(cfg: Config, first: Io, actions: seq<Action>, c: Route, observation: Option<Digest>,
                    id: nat, intent: Io)
    requires c.Live?
    requires var s := Run(cfg, first, actions);
      && s.script == Opening(cfg, c, observation) && At(s, id, Failing)
      && Accepted(cfg, s.log, Shut, IntentOf(cfg, c, observation), intent)
    ensures var s, a3 := Run(cfg, first, actions), actions + [Sink(id)] + [Tick(intent)] + [Tick(intent)];
      var t := Run(cfg, first, a3);
      && t.script == Applying(c) && Struck(cfg, first, a3)
      && t.log == Write(cfg, s.log, Shut, IntentOf(cfg, c, observation), intent).0
  {
    hide Write, Run, Struck, Spoilt;
    var a1 := actions + [Sink(id)];
    RunStep(cfg, first, actions, Sink(id));
    RunStep(cfg, first, a1, Tick(intent));
    RunStep(cfg, first, a1 + [Tick(intent)], Tick(intent));
  }

  lemma EarlyApplied(cfg: Config, first: Io, a3: seq<Action>, c: Route, applied: Io)
    requires c.Live? && Run(cfg, first, a3).script == Applying(c) && Struck(cfg, first, a3)
    requires Accepted(cfg, Run(cfg, first, a3).log, c, OpenApplied, applied)
    ensures var a6 := a3 + [Tick(applied)] + [Tick(applied)] + [Tick(applied)];
      var t := Run(cfg, first, a6);
      t.script.Idle? && t.route == c && Spoilt(cfg, first, a6)
  {
    var s := Run(cfg, first, a3);
    WriteLinks(cfg, s.log, c, OpenApplied, applied);
    hide Write, Run, Struck, Spoilt;
    var a4 := a3 + [Tick(applied)];
    RunStep(cfg, first, a3, Tick(applied));
    RunStep(cfg, first, a4, Tick(applied));
    RunStep(cfg, first, a4 + [Tick(applied)], Tick(applied));
  }

  // And runs get this far as well.
  function EarlyOpen(ask: Ask, c: Route, admit: Io): seq<Action>
    requires c.Live?
  {
    [Arrive(0, ask), Admit(0, Evidence(true, None)), Tick(admit), Tick(admit), LostReply(0),
     Open(true, c.generation, Some(c.fence), Some(c.snapshot), None)]
  }

  lemma EarlyOpenIsReached(cfg: Config, first: Io, ask: Ask, c: Route, admit: Io)
    requires cfg.observer.None? && cfg.origin.Live? && c.Live? && OnGate(c)
    requires Follows(cfg.origin.generation, c.generation)
    requires Accepted(cfg, Begun(cfg, first).0.log, cfg.origin, AdmissionOf(cfg, ask, cfg.origin, None), admit)
    ensures var s := Run(cfg, first, EarlyOpen(ask, c, admit));
      s.script == Opening(cfg, c, None) && At(s, 0, Failing)
  {
    var actions := EarlyOpen(ask, c, admit);
    var s0 := Begun(cfg, first).0;
    var s4 := Forwarded(cfg, s0, ask, admit);
    var lost, open := LostAndAsked(cfg, s4, c);
    assert [] + actions == actions == actions[..4] + [lost, open];
    assert Run(cfg, first, []) == s0;
    PlaysForwarded(cfg, s0, ask, admit, actions[..4]);
    hide *;
    RunPlays(cfg, first, [], actions);
    PlaysTwo(cfg, s0, actions[..4], lost, open);
  }

  lemma PlaysForwarded(cfg: Config, s0: System, ask: Ask, admit: Io, actions: seq<Action>)
    requires actions == [Arrive(0, ask), Admit(0, Evidence(true, None)), Tick(admit), Tick(admit)]
    ensures Play(cfg, s0, actions)
         == Next(cfg, Next(cfg, Next(cfg, Next(cfg, s0, Arrive(0, ask)), Admit(0, Evidence(true, None))), Tick(admit)),
                 Tick(admit))
  {
    hide Next;
    var two := actions[..2];
    assert two == [] + [actions[0], actions[1]] && actions == two + [actions[2], actions[3]];
    PlaysTwo(cfg, s0, [], actions[0], actions[1]);
    PlaysTwo(cfg, s0, two, actions[2], actions[3]);
  }

  lemma LostAndAsked(cfg: Config, s4: System, c: Route) returns (lost: Action, open: Action)
    requires cfg.observer.None? && s4.script.Idle? && s4.route.Live? && c.Live? && OnGate(c)
    requires Follows(s4.route.generation, c.generation) && IsForwarding(s4, 0)
    ensures lost == LostReply(0) && open == Open(true, c.generation, Some(c.fence), Some(c.snapshot), None)
    ensures var s := Next(cfg, Next(cfg, s4, lost), open);
      s.script == Opening(cfg, c, None) && At(s, 0, Failing)
  {
    lost, open := LostReply(0), Open(true, c.generation, Some(c.fence), Some(c.snapshot), None);
    LostWrite(cfg, s4.log, s4.handlers[0].stage.route, Attempted(cfg, s4, lost).value.detail);
    hide Write, Follows;
    var s5 := Next(cfg, s4, lost);
    assert At(s5, 0, Failing) && s5.script.Idle? && s5.route == s4.route;
  }
}
