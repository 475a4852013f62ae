/** The independent reader of the dynamic journal, and what it makes of a run. */
module DynamicJournal {
  import opened Wrappers
  import opened JournalBytes
  import opened HashChain
  import opened DynamicAuthority

  // Time strictly grows, the writer and its policy stay the same, and exactly
  // the first record is a start.
  predicate InPlace(links: seq<Link<Record>>, i: nat)
    requires i < |links|
  {
    var r := links[i].payload;
    && r.ns > (if i == 0 then 0 else links[i - 1].payload.ns)
    && r.owner == links[0].payload.owner && r.policy == links[0].payload.policy
    && (r.detail.AuthorityStart? <==> i == 0)
  }

  predicate AllInPlace(links: seq<Link<Record>>) {
    forall i :: 0 <= i < |links| ==> InPlace(links, i)
  }

  function ReadDynamic(f: Format<Record>, file: Bytes): Option<seq<Link<Record>>> {
    if |file| > CAPACITY || file == [] || file[|file| - 1] != LF then None else
    var links := Decode(f, SplitLines(file));
    if links.None? || !AllInPlace(links.value) then None else links
  }

  lemma InPlacePrefix(links: seq<Link<Record>>, n: nat)
    requires n <= |links|
    ensures AllInPlace(links) ==> AllInPlace(links[..n])
  {
    if AllInPlace(links) {
      forall i | 0 <= i < n
        ensures InPlace(links[..n], i)
      {
        assert InPlace(links, i);
      }
    }
  }

  method ReadDynamicJournal(f: Format<Record>, file: Bytes) returns (r: Option<seq<Link<Record>>>)
    ensures r == ReadDynamic(f, file)
  {
    if |file| > CAPACITY || file == [] || file[|file| - 1] != LF {
      return None;
    }
    var lines := SplitLines(file);
    var events: seq<Link<Record>> := [];
    for i := 0 to |lines|
      invariant Decode(f, lines[..i]) == Some(events) && AllInPlace(events)
    {
      DecodeStep(f, lines, i, events);
      DecodePrefix(f, lines, i + 1);
      var link := DecodeLine(f, events, lines[i]);
      if link.None? {
        return None;
      }
      ghost var before := events;
      events := events + [link.value];
      assert events[..i] == before;
      if !InPlace(events, i) {
        if Decode(f, lines).Some? {
          InPlacePrefix(Decode(f, lines).value, i + 1);
        }
        return None;
      }
      forall k | 0 <= k < |events|
        ensures InPlace(events, k)
      {
        if k < i {
          assert InPlace(before, k);
        }
      }
    }
    assert lines[..|lines|] == lines;
    return Some(events);
  }

  // ---------------------------------------------------------------------
  // Every run's journal is readable

  ghost predicate JournalOk(cfg: Config, log: Log<Record>) {
    && LogOk(cfg.format, Some(CAPACITY), log)
    && log.links != [] && AllInPlace(log.links)
    && (log.disk.Unsynced? ==> AllInPlace(log.links + [log.disk.extra]))
    && log.links[0].payload.owner == cfg.owner && log.links[0].payload.policy == cfg.policy
  }

  lemma WriteKeepsJournal(cfg: Config, log: Log<Record>, route: Route, d: Detail, io: Io)
    requires JournalOk(cfg, log) && !d.AuthorityStart?
    ensures JournalOk(cfg, Write(cfg, log, route, d, io).0)
  {
    var payload := Payload(cfg, log, route, d, io);
    AppendKeepsLog(cfg.format, Some(CAPACITY), log, payload, io);
    var after := log.links + [NextLink(cfg.format, log.links, payload)];
    forall i | 0 <= i < |after|
      ensures InPlace(after, i)
    {
      if i < |log.links| {
        assert InPlace(log.links, i);
      }
    }
  }

  lemma BegunJournal(cfg: Config, io: Io)
    requires Begun(cfg, io).1 == Done
    ensures JournalOk(cfg, Begun(cfg, io).0.auth.log)
  {
    var empty := Log([], [], Intact);
    var payload := Payload(cfg, empty, Closed, AuthorityStart, io);
    EmptyLogOk(cfg.format, Some(CAPACITY));
    AppendKeepsLog(cfg.format, Some(CAPACITY), empty, payload, io);
  }

  lemma RecordedJournal(cfg: Config, a: Auth, route: Route, d: Detail, io: Io)
    requires JournalOk(cfg, a.log) && !d.AuthorityStart?
    ensures JournalOk(cfg, Recorded(cfg, a, route, d, io).0.log)
  {
    WriteKeepsJournal(cfg, a.log, route, d, io);
  }

  lemma CloseJournal(cfg: Config, a: Auth, io: Io)
    requires JournalOk(cfg, a.log)
    ensures JournalOk(cfg, Close(cfg, a, io).0.log)
  {
    WriteKeepsJournal(cfg, a.log, Closed, RouteClosed(ShaOf(a.enrollment)), io);
  }

  lemma EnrollJournal(cfg: Config, a: Auth, lease: bool, expected: int, c: Candidate, io: Io, io': Io)
    requires JournalOk(cfg, a.log)
    ensures JournalOk(cfg, Enroll(cfg, a, lease, expected, c, io, io').0.log)
  {
    CloseJournal(cfg, a, io);
    var closed := Close(cfg, a, io).0;
    var enrolled := Installed(closed, c);
    RecordedJournal(cfg, enrolled, closed.route, Enrolled(enrolled.enrollment.value), io');
    EnrollCases(cfg, a, lease, expected, c, io, io');
  }

  lemma EnrollCases(cfg: Config, a: Auth, lease: bool, expected: int, c: Candidate, io: Io, io': Io)
    ensures var after, closed := Enroll(cfg, a, lease, expected, c, io, io').0, Close(cfg, a, io).0;
      var enrolled := Installed(closed, c);
      || after == a || after == closed
      || after == Recorded(cfg, enrolled, closed.route, Enrolled(enrolled.enrollment.value), io').0
  {
  }

  lemma ArriveJournal(cfg: Config, a: Auth, requestId: string, admissionId: string, ev: Evidence, io: Io)
    requires JournalOk(cfg, a.log)
    ensures JournalOk(cfg, Arrive(cfg, a, requestId, admissionId, ev, io).0.log)
  {
    var marked := a.(seen := a.seen + {requestId});
    CloseJournal(cfg, marked, io);
    var renewed := Refresh(cfg, marked, ev, io).0;
    if renewed.enrollment.Some? {
      var sha := renewed.enrollment.value.sha;
      WriteKeepsJournal(cfg, renewed.log, renewed.route, Admit(requestId, admissionId, sha), io);
    }
  }

  lemma NextJournal(cfg: Config, s: System, act: Action)
    requires JournalOk(cfg, s.auth.log)
    ensures JournalOk(cfg, Next(cfg, s, act).auth.log)
  {
    var a := s.auth;
    hide JournalOk, Write, Install, Enroll, Arrive;
    match act
    case DoQuery(writer, ev, io) => CloseJournal(cfg, a, io);
    case DoClose(lease, expected, io) => CloseJournal(cfg, a, io);
    case DoEnroll(lease, expected, c, io, io') => EnrollJournal(cfg, a, lease, expected, c, io, io');
    case DoAdmit(lease, g, m, ev, io) =>
      CloseJournal(cfg, a, io);
      if Recheck(a, ev).Some? {
        WriteKeepsJournal(cfg, a.log, RouteFor(a.enrollment.value, a.generation),
                          Opened(a.enrollment.value.sha, Recheck(a, ev).value), io);
      }
    case DoArrive(id, rid, aid, ev, io) => ArriveJournal(cfg, a, rid, aid, ev, io);
    case DoBind(id, ev, peer, ev', io) =>
      if id in s.handlers && s.handlers[id].enrollment.Some? {
        var h := s.handlers[id];
        WriteKeepsJournal(cfg, a.log, h.route, PeerBound(h.requestId, h.admissionId, h.enrollment.value.sha), io);
      }
    case DoFinish(id, ev, backend, io) =>
      if id in s.handlers && s.handlers[id].enrollment.Some? {
        var h := s.handlers[id];
        WriteKeepsJournal(cfg, a.log, h.route, Complete(h.requestId, h.admissionId, h.enrollment.value.sha), io);
      }
    case DoRaise(id) =>
    case DoHandle(id, io) => CloseJournal(cfg, a, io);
    case OwnerGone(io) => CloseJournal(cfg, a, io);
  }

  lemma {:induction false} RunJournal(cfg: Config, io: Io, actions: seq<Action>)
    requires Begun(cfg, io).1 == Done
    ensures JournalOk(cfg, Run(cfg, io, actions).auth.log)
  {
    if actions == [] {
      BegunJournal(cfg, io);
    } else {
      var front := actions[..|actions| - 1];
      RunJournal(cfg, io, front);
      NextJournal(cfg, Run(cfg, io, front), actions[|actions| - 1]);
    }
  }

  // Whatever the interleaving, and whatever appends failed: the journal of a
  // run reads back as exactly its records; after a line whose sync failed, as
  // these and that line; once any line follows such a line, it is refused, and
  // so is a file that ends within a line.
  lemma RunIsReadable(cfg: Config, io: Io, actions: seq<Action>)
    requires Lawful(cfg.format) && Begun(cfg, io).1 == Done
    requires !Run(cfg, io, actions).auth.log.disk.Torn?
    ensures var log := Run(cfg, io, actions).auth.log;
      ReadDynamic(cfg.format, log.file) == log.OnDisk()
  {
    var log := Run(cfg, io, actions).auth.log;
    RunJournal(cfg, io, actions);
    hide Run, AllInPlace, Decode, Chained;
    if log.disk.Cut? {
      CutLeavesNoBreak(cfg.format, log.file);
    } else {
      LogReadsBack(cfg.format, Some(CAPACITY), log);
      if log.OnDisk().Some? {
        FrameEndsInBreak(LinesOf(cfg.format, log.OnDisk().value));
      }
    }
  }

  // The closing digest of an accepted journal fixes all of it.
  lemma AcceptedJournalsAgree(f: Format<Record>, a: Bytes, b: Bytes) returns (x: Bytes, y: Bytes)
    requires Lawful(f) && ReadDynamic(f, a).Some? && ReadDynamic(f, b).Some?
    requires Tip(f, ReadDynamic(f, a).value) == Tip(f, ReadDynamic(f, b).value)
    requires ReadDynamic(f, a).value != [] && ReadDynamic(f, b).value != []
    ensures ReadDynamic(f, a) == ReadDynamic(f, b) || (x != y && f.sha(x) == f.sha(y))
  {
    DecodedIsChained(f, SplitLines(a));
    DecodedIsChained(f, SplitLines(b));
    x, y := TipFixesChain(f, ReadDynamic(f, a).value, ReadDynamic(f, b).value);
  }
}
