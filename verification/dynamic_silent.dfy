/** A run that ends on an open route no record tells of. */
module DynamicSilent {
  import opened Wrappers
  import opened JournalBytes
  import opened HashChain
  import opened DynamicAuthority
  import opened DynamicHistory
  import opened DynamicCompletion

  // A write that makes no progress.
  const STUCK := Io(0, [0], true)

  lemma StuckWrite(cfg: Config, log: Log<Record>, route: Route, d: Detail)
    ensures Write(cfg, log, route, d, STUCK).1 in {Full, Stalled}
    ensures Write(cfg, log, route, d, STUCK).0 == log
  {
    var raw := cfg.format.line(NextLink(cfg.format, log.links, Payload(cfg, log, route, d, STUCK)));
    assert log.file + (raw + [LF])[..0] == log.file;
  }

  // The first enrollment is recorded; the opening record is refused for lack of
  // room, or not written for lack of progress. The route is open, and nothing
  // in the journal says so.
  lemma SilentOpeningIsReached(cfg: Config, first: Io, c: Candidate, close: Io, enroll: Io)
    requires Begun(cfg, first).1 == Done && c.source && c.members && c.claims && c.backend
    requires var s := Begun(cfg, first).0;
      && Taken(cfg, s.auth.log, Closed, RouteClosed(None), close)
      && Taken(cfg, Close(cfg, s.auth, close).0.log, Closed,
               Enrolled(Enrollment(c.sha, 1, c.epoch, c.launch, c.api)), enroll)
    ensures var s := Run(cfg, first, [DoEnroll(true, 0, c, close, enroll)]);
      var t := Run(cfg, first, [DoEnroll(true, 0, c, close, enroll), DoAdmit(true, 1, c.sha, SOUND, STUCK)]);
      SilentOpening(cfg, s, DoAdmit(true, 1, c.sha, SOUND, STUCK)) && t.auth.route.Open? && t.auth.log == s.auth.log
  {
    var actions := [DoEnroll(true, 0, c, close, enroll), DoAdmit(true, 1, c.sha, SOUND, STUCK)];
    DynamicCompletion.RunStep(cfg, first, actions, 0);
    DynamicCompletion.RunStep(cfg, first, actions, 1);
    assert actions[..2] == actions && actions[..0] == [] && actions[..1] == [actions[0]];
    EnrolledState(cfg, Run(cfg, first, []), c, close, enroll);
    hide Run, Write;
    var s, e := Run(cfg, first, [actions[0]]), Enrollment(c.sha, 1, c.epoch, c.launch, c.api);
    StuckOpens(cfg, s, e);
  }

  lemma StuckOpens(cfg: Config, s: System, e: Enrollment)
    requires Holds(s, e, Closed)
    ensures var act := DoAdmit(true, 1, e.sha, SOUND, STUCK);
      && SilentOpening(cfg, s, act)
      && Next(cfg, s, act).auth.route.Open? && Next(cfg, s, act).auth.log == s.auth.log
  {
    StuckWrite(cfg, s.auth.log, RouteFor(e, 1), Opened(e.sha, ""));
    hide Write;
  }
}
