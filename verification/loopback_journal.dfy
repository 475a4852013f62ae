/**
 Reading a traffic journal back, and which of the journals the authority can
 write the reader accepts.
 */
module LoopbackJournal {
  import opened Wrappers
  import opened JournalBytes
  import opened HashChain
  import opened LoopbackAuthority
  import opened LoopbackScripts

  type Links = seq<Link<Record>>

  // The spelling of a digest.
  predicate IsSha(s: string) {
    && |s| == 71 && s[..7] == "sha256:"
    && forall i :: 7 <= i < 71 ==> '0' <= s[i] <= '9' || 'a' <= s[i] <= 'f'
  }

  ghost predicate ShaShaped<P(!new)>(f: Format<P>) {
    forall b :: IsSha(f.sha(b))
  }

  predicate Countable(r: Shown) {
    r.generation.None? || Natural(r.generation.value)
  }

  predicate DecidedByRoute(p: Record) {
    p.detail.Admission? ==> p.detail.admitted == p.route.generation.Some?
  }

  // What the reader asks of one event; `first` is the event the identity is
  // taken from. The boot identity is not compared.
  predicate Shaped(p: Record, first: Record) {
    && p.process.pid > 0 && p.process.startTicks > 0
    && Countable(p.route) && IsSha(p.route.snapshot)
    && p.process.pid == first.process.pid && p.process.startTicks == first.process.startTicks
    && DecidedByRoute(p)
  }

  predicate AllShaped(links: Links) {
    forall i :: 0 <= i < |links| ==> Shaped(links[i].payload, links[0].payload)
  }

  predicate Terminated(data: Bytes) {
    data != [] && |data| <= CAPACITY && data[|data| - 1] == LF
  }

  function ReadTraffic(f: Format<Record>, data: Bytes): Option<Links> {
    if !Terminated(data) then None else
    var links := Decode(f, SplitLines(data));
    if links.None? || !AllShaped(links.value) || links.value == [] || !links.value[0].payload.detail.AuthorityStart?
    then None else links
  }

  // The reader itself: one pass, a running digest and the first identity.
  method ReadTrafficJournal(f: Format<Record>, data: Bytes) returns (events: Option<Links>)
    ensures events == ReadTraffic(f, data)
  {
    if !Terminated(data) {
      return None;
    }
    var lines := SplitLines(data);
    var i, previous := 0, f.zero;
    var links: Links := [];
    assert lines[..0] == [];
    while i < |lines|
      invariant 0 <= i <= |lines| && |links| == i
      invariant Decode(f, lines[..i]) == Some(links)
      invariant previous == Tip(f, links)
      invariant AllShaped(links)
    {
      DecodeStep(f, lines, i, links);
      DecodePrefix(f, lines, i + 1);
      var link := f.parse(lines[i]);
      if link.None? || f.line(link.value) != lines[i]
         || link.value.sequence != f.base + i || link.value.previous != previous {
        return None;
      }
      var first := if links == [] then link.value.payload else links[0].payload;
      if !Shaped(link.value.payload, first) {
        UnshapedStays(f, lines, i, links, link.value);
        return None;
      }
      links := links + [link.value];
      previous := f.DigestOf(link.value);
      i := i + 1;
    }
    assert lines[..i] == lines;
    if links == [] || !links[0].payload.detail.AuthorityStart? {
      return None;
    }
    return Some(links);
  }

  lemma UnshapedStays(f: Format<Record>, lines: seq<Bytes>, i: nat, links: Links, link: Link<Record>)
    requires i < |lines| && Decode(f, lines[..i + 1]) == Some(links + [link]) && |links| == i
    requires !Shaped(link.payload, if links == [] then link.payload else links[0].payload)
    ensures Decode(f, lines).None? || !AllShaped(Decode(f, lines).value)
  {
    DecodePrefix(f, lines, i + 1);
    if Decode(f, lines).Some? {
      PrefixUnshaped(Decode(f, lines).value, links, link);
    }
  }

  lemma PrefixUnshaped(all: Links, links: Links, link: Link<Record>)
    requires |links| < |all| && all[..|links| + 1] == links + [link]
    requires !Shaped(link.payload, if links == [] then link.payload else links[0].payload)
    ensures !AllShaped(all)
  {
    hide Shaped;
    var part := all[..|links| + 1];
    assert part[|links|] == link && part[0] == all[0];
    assert all[|links|] == link;
  }

  // ---------------------------------------------------------------------
  // The writer's side

  // Every record is about a route the authority was in, and admits exactly
  // when that route is open.
  ghost predicate Truthful(cfg: Config, p: Record) {
    p.process == cfg.process && DecidedByRoute(p) && exists r: Route :: p.route == Show(cfg, r)
  }

  ghost predicate JournalOk(cfg: Config, log: Log<Record>) {
    && LogOk(cfg.format, Some(CAPACITY), log)
    && log.links != [] && log.links[0].payload.detail.AuthorityStart?
    && (forall i :: 0 <= i < |log.links| ==> Truthful(cfg, log.links[i].payload))
    && (log.disk.Unsynced? ==> Truthful(cfg, log.disk.extra.payload))
  }

  // Scripts journal admissions only through `Decide`.
  ghost predicate NoLooseAdmission(script: Script) {
    forall d :: d in Details(script) ==> !d.Admission?
  }

  lemma AttemptIsTruthful(cfg: Config, s: System, act: Action)
    requires Attempted(cfg, s, act).Some? && NoLooseAdmission(s.script)
    ensures var a := Attempted(cfg, s, act).value;
      Truthful(cfg, RecordOf(cfg, a.route, a.detail, a.io))
  {
    assert s.script.Put? ==> s.script.detail in Details(s.script);
  }

  lemma WriteKeepsJournal(cfg: Config, log: Log<Record>, r: Route, d: Detail, io: Io)
    requires JournalOk(cfg, log) && Truthful(cfg, RecordOf(cfg, r, d, io))
    ensures JournalOk(cfg, Write(cfg, log, r, d, io).0)
  {
    hide Truthful, LogOk;
    AppendKeepsLog(cfg.format, Some(CAPACITY), log, RecordOf(cfg, r, d, io), io);
  }

  lemma NextScript(cfg: Config, s: System, act: Action)
    requires NoLooseAdmission(s.script)
    ensures NoLooseAdmission(Next(cfg, s, act).script)
  {
    NextReach(cfg, s, act);
    hide Next, Details;
  }

  lemma NextJournal(cfg: Config, s: System, act: Action)
    requires JournalOk(cfg, s.log) && NoLooseAdmission(s.script)
    ensures JournalOk(cfg, Next(cfg, s, act).log)
  {
    hide JournalOk, Write;
    var attempt := Attempted(cfg, s, act);
    if attempt.Some? {
      AttemptIsTruthful(cfg, s, act);
      WriteKeepsJournal(cfg, s.log, attempt.value.route, attempt.value.detail, attempt.value.io);
    } else {
      MovedKeepsLog(cfg, s, act);
    }
  }

  lemma BegunJournal(cfg: Config, io: Io)
    requires Begun(cfg, io).1 == Done
    ensures JournalOk(cfg, Begun(cfg, io).0.log)
  {
    hide LogOk;
    var d := AuthorityStart(cfg.authorization, cfg.backends);
    EmptyLogOk(cfg.format, Some(CAPACITY));
    AppendKeepsLog(cfg.format, Some(CAPACITY), Log([], [], Intact), RecordOf(cfg, cfg.origin, d, io), io);
  }

  lemma {:induction false} RunJournal(cfg: Config, io: Io, actions: seq<Action>)
    requires Begun(cfg, io).1 == Done
    ensures JournalOk(cfg, Run(cfg, io, actions).log) && NoLooseAdmission(Run(cfg, io, actions).script)
  {
    if actions == [] {
      BegunJournal(cfg, io);
    } else {
      hide JournalOk, Next, NoLooseAdmission;
      var front := actions[..|actions| - 1];
      RunJournal(cfg, io, front);
      NextScript(cfg, Run(cfg, io, front), actions[|actions| - 1]);
      NextJournal(cfg, Run(cfg, io, front), actions[|actions| - 1]);
    }
  }

  // ---------------------------------------------------------------------
  // Acceptance

  ghost predicate Usable(cfg: Config) {
    && Lawful(cfg.format) && ShaShaped(cfg.format)
    && cfg.process.pid > 0 && cfg.process.startTicks > 0
  }

  predicate AllCountable(links: Links) {
    forall i :: 0 <= i < |links| ==> Countable(links[i].payload.route)
  }

  lemma JournalShape(cfg: Config, log: Log<Record>)
    requires Usable(cfg) && JournalOk(cfg, log) && log.OnDisk().Some?
    ensures AllShaped(log.OnDisk().value) <==> AllCountable(log.OnDisk().value)
    ensures log.OnDisk().value[0].payload.detail.AuthorityStart?
  {
  }

  // Whatever the interleaving and whatever appends failed: a journal is
  // accepted, as exactly the whole lines in it, if and only if every route it
  // records has a natural generation, no line follows one whose sync failed,
  // and it does not end within a line.
  lemma RunIsReadable(cfg: Config, io: Io, actions: seq<Action>)
    requires Usable(cfg) && Begun(cfg, io).1 == Done
    requires !Run(cfg, io, actions).log.disk.Torn?
    ensures var log := Run(cfg, io, actions).log;
      ReadTraffic(cfg.format, log.file)
      == if log.OnDisk().Some? && AllCountable(log.OnDisk().value) then log.OnDisk() else None
  {
    var log := Run(cfg, io, actions).log;
    RunJournal(cfg, io, actions);
    hide Run, IsSha, AllCountable, AllShaped, Chained, Truthful, Decode;
    if log.disk.Cut? {
      CutLeavesNoBreak(cfg.format, log.file);
    } else {
      LogReadsBack(cfg.format, Some(CAPACITY), log);
      if log.OnDisk().Some? {
        JournalShape(cfg, log);
        FrameEndsInBreak(LinesOf(cfg.format, log.OnDisk().value));
      }
    }
  }

  // The generations a caller hands in.
  predicate NaturalAction(act: Action) {
    match act
    case Open(_, g, _, _, _) => Natural(g)
    case Restore(g, _, _) => g.Some? ==> Natural(g.value)
    case _ => true
  }

  predicate NaturalRoute(r: Route) {
    r.Live? ==> Natural(r.generation)
  }

  ghost predicate NaturalHandlers(handlers: map<nat, Handler>) {
    forall id :: id in handlers && handlers[id].stage.Forwarding? ==> NaturalRoute(handlers[id].stage.route)
  }

  ghost predicate NaturalSystem(s: System) {
    && NaturalRoute(s.route) && NaturalRoute(s.local) && NaturalHandlers(s.handlers)
    && (forall r :: r in Routes(s.script) ==> NaturalRoute(r))
  }

  // The routes of a system come from its script and its earlier routes.
  lemma NextNatural(cfg: Config, s: System, act: Action)
    requires NaturalSystem(s) && NaturalAction(act)
    ensures NaturalSystem(Next(cfg, s, act))
  {
    NextReach(cfg, s, act);
    NextRoutes(cfg, s, act);
    hide Next, Natural, Routes, Follows, Candidacy;
  }

  ghost predicate CountableLog(log: Log<Record>) {
    AllCountable(log.links) && (log.disk.Unsynced? ==> Countable(log.disk.extra.payload.route))
  }

  lemma WriteCountable(cfg: Config, log: Log<Record>, r: Route, d: Detail, io: Io)
    requires CountableLog(log) && NaturalRoute(r)
    ensures CountableLog(Write(cfg, log, r, d, io).0)
  {
    hide Natural, Landed;
  }

  lemma NextCountable(cfg: Config, s: System, act: Action)
    requires NaturalSystem(s) && CountableLog(s.log)
    ensures CountableLog(Next(cfg, s, act).log)
  {
    var attempt := Attempted(cfg, s, act);
    hide Natural, CountableLog, Write;
    if attempt.Some? {
      WriteCountable(cfg, s.log, attempt.value.route, attempt.value.detail, attempt.value.io);
    } else {
      MovedKeepsLog(cfg, s, act);
    }
  }

  lemma {:induction false} RunCountable(cfg: Config, io: Io, actions: seq<Action>)
    requires NaturalRoute(cfg.origin)
    requires forall i :: 0 <= i < |actions| ==> NaturalAction(actions[i])
    ensures NaturalSystem(Run(cfg, io, actions)) && CountableLog(Run(cfg, io, actions).log)
  {
    if actions == [] {
      WriteCountable(cfg, Log([], [], Intact), cfg.origin, AuthorityStart(cfg.authorization, cfg.backends), io);
      hide Write;
    } else {
      var n := |actions| - 1;
      RunCountable(cfg, io, actions[..n]);
      hide NaturalSystem, CountableLog, Next, NaturalAction;
      NextNatural(cfg, Run(cfg, io, actions[..n]), actions[n]);
      NextCountable(cfg, Run(cfg, io, actions[..n]), actions[n]);
    }
  }

  // Callers who only use natural generations only ever leave natural ones.
  lemma NaturalCallersStayReadable(cfg: Config, io: Io, actions: seq<Action>)
    requires NaturalRoute(cfg.origin)
    requires forall i :: 0 <= i < |actions| ==> NaturalAction(actions[i])
    ensures var log := Run(cfg, io, actions).log;
      AllCountable(log.links) && (log.OnDisk().Some? ==> AllCountable(log.OnDisk().value))
  {
    RunCountable(cfg, io, actions);
    hide Run, Natural;
  }

  // The closing digest of an accepted journal fixes every event in it.
  lemma AcceptedTrafficAgrees(f: Format<Record>, a: Bytes, b: Bytes) returns (x: Bytes, y: Bytes)
    requires Lawful(f) && ReadTraffic(f, a).Some? && ReadTraffic(f, b).Some?
    requires Tip(f, ReadTraffic(f, a).value) == Tip(f, ReadTraffic(f, b).value)
    ensures ReadTraffic(f, a) == ReadTraffic(f, b) || (x != y && f.sha(x) == f.sha(y))
  {
    hide AllShaped;
    DecodedIsChained(f, SplitLines(a));
    DecodedIsChained(f, SplitLines(b));
    x, y := TipFixesChain(f, ReadTraffic(f, a).value, ReadTraffic(f, b).value);
  }
}
