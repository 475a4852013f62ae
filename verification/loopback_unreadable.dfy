/** Two ways in which the writer leaves a journal that its own reader refuses. */
module LoopbackUnreadable {
  import opened Wrappers
  import opened JournalBytes
  import opened HashChain
  import opened LoopbackAuthority
  import opened LoopbackScripts
  import opened LoopbackJournal
  import opened LoopbackOpens
  import opened LoopbackSpoiled

  // A restore, run through without disturbance.
  function RestoreTo(c: Route, intent: Io, applied: Io): seq<Action>
    requires c.Live?
  {
    [Restore(Some(c.generation), true, Some(c.snapshot)), Tick(intent), Tick(intent), Tick(applied), Tick(applied),
     Tick(applied)]
  }

  // Any run with the lock free and room on disk goes on to restore a route
  // whose generation is not a natural number: negative, boolean, fractional or
  // a text. From then on its journal, torn nowhere, is unreadable.
  lemma UnnaturalRestoreIsUnreadable(cfg: Config, first: Io, actions: seq<Action>, c: Route, intent: Io, applied: Io)
    requires Usable(cfg) && Begun(cfg, first).1 == Done
    requires c.Live? && c.fence == Predecessor && !Natural(c.generation)
    requires var s := Run(cfg, first, actions);
      && s.script.Idle? && s.log.disk.Intact?
      && Accepted(cfg, s.log, s.route, RestoreIntent(c.generation), intent)
      && Accepted(cfg, Write(cfg, s.log, s.route, RestoreIntent(c.generation), intent).0, c, RestoreApplied, applied)
    ensures var log := Run(cfg, first, actions + RestoreTo(c, intent, applied)).log;
      log.disk.Intact? && ReadTraffic(cfg.format, log.file) == None
  {
    hide Run, Write, Usable, Accepted, Natural, ReadTraffic;
    var steps := RestoreTo(c, intent, applied);
    var a3 := actions + [steps[0]] + [steps[1]] + [steps[2]];
    RestoreBegins(cfg, first, actions, c, intent);
    RestoreEnds(cfg, first, a3, c, applied);
    assert a3 + [steps[3]] + [steps[4]] + [steps[5]] == actions + steps;
    RunIsReadable(cfg, first, actions + steps);
  }

  lemma RestoreBegins(cfg: Config, first: Io, actions: seq<Action>, c: Route, intent: Io)
    requires c.Live? && c.fence == Predecessor && Run(cfg, first, actions).script.Idle?
    requires var s := Run(cfg, first, actions);
      s.log.disk.Intact? && Accepted(cfg, s.log, s.route, RestoreIntent(c.generation), intent)
    ensures var s := Run(cfg, first, actions);
      var t := Run(cfg, first, actions + [Restore(Some(c.generation), true, Some(c.snapshot))]
                               + [Tick(intent)] + [Tick(intent)]);
      && t.script == Assign(c, Fetch(Put(RestoreApplied, Idle))) && t.log.disk.Intact?
      && t.log == Write(cfg, s.log, s.route, RestoreIntent(c.generation), intent).0
  {
    var s := Run(cfg, first, actions);
    var a1 := actions + [Restore(Some(c.generation), true, Some(c.snapshot))];
    RunStep(cfg, first, actions, Restore(Some(c.generation), true, Some(c.snapshot)));
    RunStep(cfg, first, a1, Tick(intent));
    RunStep(cfg, first, a1 + [Tick(intent)], Tick(intent));
    DoneIsWhole(cfg, s.log, s.route, RestoreIntent(c.generation), intent);
    hide Run, Write, Struck, Spoilt;
  }

  lemma RestoreEnds(cfg: Config, first: Io, a3: seq<Action>, c: Route, applied: Io)
    requires c.Live? && Run(cfg, first, a3).script == Assign(c, Fetch(Put(RestoreApplied, Idle)))
    requires Run(cfg, first, a3).log.disk.Intact? && Accepted(cfg, Run(cfg, first, a3).log, c, RestoreApplied, applied)
    ensures var log := Run(cfg, first, a3 + [Tick(applied)] + [Tick(applied)] + [Tick(applied)]).log;
      && log.disk.Intact? && log.links != []
      && log.links[|log.links| - 1].payload.route.generation == Some(c.generation)
  {
    var s, a4 := Run(cfg, first, a3), a3 + [Tick(applied)];
    RunStep(cfg, first, a3, Tick(applied));
    RunStep(cfg, first, a4, Tick(applied));
    RunStep(cfg, first, a4 + [Tick(applied)], Tick(applied));
    DoneIsWhole(cfg, s.log, c, RestoreApplied, applied);
    WriteLinks(cfg, s.log, c, RestoreApplied, applied);
    hide Run, Write, Struck, Spoilt;
  }

  lemma DoneIsWhole(cfg: Config, log: Log<Record>, r: Route, d: Detail, io: Io)
    requires Accepted(cfg, log, r, d, io)
    ensures Write(cfg, log, r, d, io).0.disk.Intact? == log.disk.Intact?
  {
  }

  // ---------------------------------------------------------------------
  // A line whose sync failed

  // The whole line gets out; the sync does not succeed.
  const UNSYNCED := Io(0, [CAPACITY], false)

  function Answered(id: nat): Action {
    Reply(id, None, "", 200, [], UNSYNCED)
  }

  // Closing everything, run through without disturbance.
  function ThenClose(id: nat, io: Io): seq<Action> {
    [Answered(id), ShutAll, Tick(io), Tick(io), Tick(io)]
  }

  predicate HasRoom(cfg: Config, s: System, a: Attempt) {
    Fits(Some(CAPACITY), |s.log.file|, |cfg.format.line(Extension(cfg, s, a))|)
  }

  lemma UnsyncedWrite(cfg: Config, s: System, a: Attempt)
    requires HasRoom(cfg, s, a) && a.io == UNSYNCED && s.log.disk.Intact?
    ensures var (log, outcome) := Write(cfg, s.log, a.route, a.detail, UNSYNCED);
      outcome != Done && log.disk == Unsynced(Extension(cfg, s, a)) && log.links == s.log.links
  {
    var len := |cfg.format.line(Extension(cfg, s, a))| + 1;
    assert Landed(len, UNSYNCED.writes) == len;
  }

  // Any run with the lock free and a request in flight: its completion gets to
  // the file whole, but the sync fails, so its number is used again. With the
  // next record the journal is unreadable for good.
  lemma UnsyncedSpoilsJournal(cfg: Config, first: Io, actions: seq<Action>, id: nat, io: Io)
    requires Usable(cfg) && Begun(cfg, first).1 == Done
    requires var s := Run(cfg, first, actions);
      && s.script.Idle? && s.log.disk.Intact? && IsForwarding(s, id)
      && HasRoom(cfg, s, Attempted(cfg, s, Answered(id)).value)
      && Accepted(cfg, Next(cfg, s, Answered(id)).log, Shut, CloseAll(false), io)
    ensures var log := Run(cfg, first, actions + ThenClose(id, io)).log;
      log.disk.Doubled? && ReadTraffic(cfg.format, log.file) == None
  {
    var s, steps := Run(cfg, first, actions), ThenClose(id, io);
    UnsyncedWrite(cfg, s, Attempted(cfg, s, Answered(id)).value);
    RunPlays(cfg, first, actions, steps);
    PlaysFive(cfg, s, steps);
    ClosedBehind(cfg, Next(cfg, s, Answered(id)), io);
    RunIsReadable(cfg, first, actions + steps);
    hide Run, Write, Play;
  }

  lemma ClosedBehind(cfg: Config, s: System, io: Io)
    requires s.script.Idle? && s.log.disk.Unsynced? && Accepted(cfg, s.log, Shut, CloseAll(false), io)
    ensures Next(cfg, Next(cfg, Next(cfg, Next(cfg, s, ShutAll), Tick(io)), Tick(io)), Tick(io)).log.disk.Doubled?
  {
    SecondWrite(cfg, s.log, Shut, CloseAll(false), io);
    hide Write;
    var installed := Next(cfg, Next(cfg, s, ShutAll), Tick(io));
    var fetched := Next(cfg, installed, Tick(io));
    assert fetched.script == Put(CloseAll(false), Idle) && fetched.local == Shut && fetched.log == s.log;
  }

  lemma SecondWrite(cfg: Config, log: Log<Record>, r: Route, d: Detail, io: Io)
    requires log.disk.Unsynced? && Accepted(cfg, log, r, d, io)
    ensures Write(cfg, log, r, d, io).0.disk.Doubled?
  {
  }
}
