/** What every run of the live collector keeps: durable ACKs, a bounded journal. */
module CollectorRuns {
  import opened Wrappers
  import opened JournalBytes
  import opened HashChain
  import opened CollectorFacts
  import opened CollectorHistory
  import opened Collector

  // {normal: sha256} for the frozen source files.
  function FrozenSources(files: seq<SourceFile>): map<string, Digest> {
    if files == [] then map[] else
    var last := files[|files| - 1];
    FrozenSources(files[..|files| - 1])[last.normal := last.sha256]
  }

  lemma {:induction false} SourcesAreFrozen(files: seq<SourceFile>, disk: map<string, Digest>)
    requires SourceDigests(files, disk).Some?
    ensures SourceDigests(files, disk).value == FrozenSources(files)
  {
    if files == [] {
    } else {
      SourcesAreFrozen(files[..|files| - 1], disk);
    }
  }

  lemma {:induction false} SenderMapPids(senders: seq<Sender>)
    ensures forall p :: p in SenderMap(senders) ==>
      SenderMap(senders)[p] in senders && SenderMap(senders)[p].process.kernel.pid == p
  {
    if senders == [] {
    } else {
      SenderMapPids(senders[..|senders| - 1]);
    }
  }

  // The record an admitted fact leaves in the journal.
  function Recorded(site: Site, e: Entry): Body {
    var kernel := e.sender.process.kernel;
    Accepted(e.now, e.raw, site.codec.facts.sha(e.raw), Peer(kernel.pid, e.sender.uid, e.sender.gid),
             FrozenSources(e.sender.sources), kernel, e.verdict.phase, e.verdict.fact.common.runtime, site.archive)
  }

  lemma ScreenedIsRecorded(site: Site, live: Live, call: Call)
    requires Screen(site, live, call).Some?
    ensures var ok := Screen(site, live, call).value;
      && !live.failed
      && BodyOf(site, call, ok) == Recorded(site, EntryOf(call, ok))
      && ok.sender in site.spec.senders
      && SenderMap(site.spec.senders)[call.peer.pid] == ok.sender
      && call.peer.pid in SenderMap(site.spec.senders)
      && site.codec.facts.sha(call.raw) !in live.intake.seen
      && Judge(site.codec.facts, site.spec, ok.sender, call.raw, Some(call.io.now), live.intake) == Ok(ok.verdict)
  {
    SenderMapPids(site.spec.senders);
    SourcesAreFrozen(Screen(site, live, call).value.sender.sources, call.disk);
  }

  ghost predicate JournalOk(f: Format<Body>, live: Live) {
    && Chained(f, live.log.links)
    && Frame(LinesOf(f, live.log.links)) <= live.log.file
    && (live.log.disk.Intact? ==> live.log.file == Frame(LinesOf(f, live.log.links)))
    && (!live.failed ==> live.log.disk.Intact?)
  }

  ghost predicate Registered(site: Site, e: Entry) {
    var pid := e.sender.process.kernel.pid;
    pid in SenderMap(site.spec.senders) && SenderMap(site.spec.senders)[pid] == e.sender
  }

  ghost predicate RecordsMatch(site: Site, links: seq<Link<Body>>, entries: seq<Entry>) {
    && |links| == 1 + |entries|
    && forall i :: 1 <= i < |links| ==>
         links[i].payload == Recorded(site, entries[i - 1]) && Registered(site, entries[i - 1])
  }

  ghost predicate HistoryOk(site: Site, started: int, live: Live) {
    && |live.log.links| == 1 + |live.entries|
    && live.log.links[0].payload == StartBody(site, started)
    && RecordsMatch(site, live.log.links, live.entries)
    && Admissible(site.codec.facts, site.spec, live.entries)
    && Folded(site.codec.facts, live.entries) == live.intake
  }

  ghost predicate LiveOk(site: Site, started: int, live: Live) {
    JournalOk(FormatOf(site.codec), live) && HistoryOk(site, started, live)
  }

  lemma AppendExtendsFile(f: Format<Body>, log: Log<Body>, body: Body, io: Io)
    requires Chained(f, log.links) && log.file == Frame(LinesOf(f, log.links)) && log.disk.Intact?
    ensures var (after, outcome) := Append(f, None, log, body, io);
      && Chained(f, after.links)
      && Frame(LinesOf(f, after.links)) <= after.file
      && (outcome == Done ==> after.file == Frame(LinesOf(f, after.links))
                              && after.links == log.links + [NextLink(f, log.links, body)])
      && (outcome == Done ==> after.disk.Intact?)
      && (after.disk.Intact? ==> after.file == Frame(LinesOf(f, after.links)))
      && (outcome != Done ==> after.links == log.links)
  {
    var link := NextLink(f, log.links, body);
    ChainedExtend(f, log.links, body);
    LinesOfExtend(f, log.links, link);
    var data := f.line(link) + [LF];
    assert data[..|data|] == data;
    assert log.file + data == Frame(LinesOf(f, log.links)) + f.line(link) + [LF];
  }

  lemma OpenedOk(site: Site, opening: Io)
    requires CanOpen(site, opening)
    ensures LiveOk(site, opening.now, Opened(site, opening))
  {
    var none: seq<Link<Body>> := [];
    var f, body := FormatOf(site.codec), StartBody(site, opening.now);
    assert LinesOf(f, none) == [];
    AppendExtendsFile(f, Log([], [], Intact), body, opening);
    StartIsHistory(site, opening.now, Opened(site, opening), NextLink(f, none, body));
  }

  lemma StartIsHistory(site: Site, started: int, live: Live, link: Link<Body>)
    requires live.entries == [] && live.intake == EMPTY_INTAKE
    requires live.log.links == [link] && link.payload == StartBody(site, started)
    ensures HistoryOk(site, started, live)
  {
  }

  // What an admission adds.
  lemma AdmissionAdds(site: Site, live: Live, call: Call) returns (e: Entry, link: Link<Body>)
    requires AcceptStep(site, live, call).1.Some?
    ensures var after := AcceptStep(site, live, call).0;
      && after.entries == live.entries + [e] && after.log.links == live.log.links + [link]
      && after.intake == Note(live.intake, e.verdict, site.codec.facts.sha(e.raw))
      && link.payload == Recorded(site, e) && Registered(site, e) && e.sender in site.spec.senders
      && site.codec.facts.sha(e.raw) !in live.intake.seen
      && Judge(site.codec.facts, site.spec, e.sender, e.raw, e.now, live.intake) == Ok(e.verdict)
  {
    ScreenedIsRecorded(site, live, call);
    SenderMapPids(site.spec.senders);
    var ok := Screen(site, live, call).value;
    hide Screen, Judge, Note, SenderMap;
    e, link := EntryOf(call, ok), NextLink(FormatOf(site.codec), live.log.links, BodyOf(site, call, ok));
  }

  lemma AdmissionKeepsHistory(site: Site, started: int, live: Live, call: Call)
    requires HistoryOk(site, started, live) && AcceptStep(site, live, call).1.Some?
    ensures HistoryOk(site, started, AcceptStep(site, live, call).0)
  {
    var e, link := AdmissionAdds(site, live, call);
    hide AcceptStep, Admissible, Folded, Judge, Note, Recorded, Registered, StartBody;
    AdmissibleExtend(site.codec.facts, site.spec, live.entries, e);
  }

  lemma StepKeepsLive(site: Site, started: int, live: Live, call: Call)
    requires LiveOk(site, started, live)
    ensures LiveOk(site, started, AcceptStep(site, live, call).0)
  {
    if Screen(site, live, call).Some? {
      var f := FormatOf(site.codec);
      var body := BodyOf(site, call, Screen(site, live, call).value);
      AppendExtendsFile(f, live.log, body, call.io);
      if Append(f, None, live.log, body, call.io).1 == Done {
        AdmissionKeepsHistory(site, started, live, call);
      }
    }
  }

  lemma {:induction false} RunKeepsLive(site: Site, opening: Io, calls: seq<Call>)
    requires CanOpen(site, opening)
    ensures LiveOk(site, opening.now, Run(site, opening, calls).0)
  {
    if calls == [] {
      OpenedOk(site, opening);
    } else {
      var n := |calls| - 1;
      RunKeepsLive(site, opening, calls[..n]);
      StepKeepsLive(site, opening.now, Run(site, opening, calls[..n]).0, calls[n]);
    }
  }

  // ---------------------------------------------------------------------
  // ACK durability

  // The file never loses what a record list says, and a failure is final.
  lemma StepOnlyAppends(site: Site, live: Live, call: Call)
    ensures live.log.links <= AcceptStep(site, live, call).0.log.links
    ensures live.log.file <= AcceptStep(site, live, call).0.log.file
    ensures live.failed ==> AcceptStep(site, live, call) == (live, None)
  {
  }

  lemma {:induction false} RunOnlyAppends(site: Site, opening: Io, calls: seq<Call>, n: nat)
    requires n <= |calls|
    ensures var before, after := Run(site, opening, calls[..n]).0, Run(site, opening, calls).0;
      && before.log.links <= after.log.links
      && before.log.file <= after.log.file
      && (before.failed ==> after == before)
    ensures Run(site, opening, calls[..n]).1 <= Run(site, opening, calls).1
  {
    var last := |calls| - 1;
    if n == |calls| {
      assert calls[..n] == calls;
    } else {
      RunOnlyAppends(site, opening, calls[..last], n);
      assert calls[..last][..n] == calls[..n];
      StepOnlyAppends(site, Run(site, opening, calls[..last]).0, calls[last]);
    }
  }

  // The line an ACK names parses to the record it acknowledges.
  ghost predicate AckNames(site: Site, ack: Ack, raw: Bytes, file: Bytes) {
    var lines := SplitLines(file);
    && 0 < ack.sequence < |lines|
    && ack.rawSha == site.codec.facts.sha(raw)
    && exists e :: && site.codec.parseEvent(lines[ack.sequence]) == Some(e)
                   && e.link.sequence == ack.sequence && e.sha256 == ack.eventSha
                   && e.link.payload.Accepted? && e.link.payload.raw == raw
                   && e.link.payload.phase == ack.phase
  }

  lemma FileShowsRecords(site: Site, started: int, live: Live)
    requires LawfulCodec(site.codec) && LiveOk(site, started, live)
    ensures LinesOf(FormatOf(site.codec), live.log.links) <= SplitLines(live.log.file)
    ensures live.log.disk.Intact? ==> SplitLines(live.log.file) == LinesOf(FormatOf(site.codec), live.log.links)
  {
    var records := LinesOf(FormatOf(site.codec), live.log.links);
    var rest := live.log.file[|Frame(records)|..];
    assert live.log.file == Frame(records) + rest;
    FormatIsLawful(site.codec);
    SplitFrameThen(records, rest);
    assert records + [] == records;
  }

  // What an acknowledging step appended, and how its ACK names it.
  lemma AckedRecord(site: Site, live: Live, call: Call) returns (link: Link<Body>)
    requires AcceptStep(site, live, call).1.Some?
    ensures AcceptStep(site, live, call).0.log.links == live.log.links + [link]
    ensures link.sequence == |live.log.links|
    ensures link.payload.Accepted? && link.payload.raw == call.raw
    ensures var ack := AcceptStep(site, live, call).1.value;
      && ack.rawSha == site.codec.facts.sha(call.raw) && ack.eventSha == Seal(site.codec, link).sha256
      && ack.sequence == link.sequence && ack.phase == link.payload.phase
  {
    link := NextLink(FormatOf(site.codec), live.log.links, BodyOf(site, call, Screen(site, live, call).value));
  }

  lemma AckReachesDisk(site: Site, started: int, before: Live, call: Call, final: Live)
    requires LawfulCodec(site.codec) && LiveOk(site, started, final) && before.log.links != []
    requires AcceptStep(site, before, call).1.Some?
    requires AcceptStep(site, before, call).0.log.links <= final.log.links
    ensures AckNames(site, AcceptStep(site, before, call).1.value, call.raw, final.log.file)
  {
    var link := AckedRecord(site, before, call);
    var at := |before.log.links|;
    assert final.log.links[at] == link;
    FileShowsRecords(site, started, final);
    assert SplitLines(final.log.file)[at] == FormatOf(site.codec).line(link);
    assert site.codec.parseEvent(site.codec.event(Seal(site.codec, link))) == Some(Seal(site.codec, link));
  }

  // An acknowledged fact is on disk, whole, at the line its ACK names, in every
  // later state of the run and whatever happens to later writes.
  lemma AckIsDurable(site: Site, opening: Io, calls: seq<Call>, k: nat)
    requires LawfulCodec(site.codec) && CanOpen(site, opening) && k < |calls|
    requires Run(site, opening, calls).1[k].Some?
    ensures AckNames(site, Run(site, opening, calls).1[k].value, calls[k].raw, Run(site, opening, calls).0.log.file)
  {
    RunKeepsLive(site, opening, calls);
    RunOnlyAppends(site, opening, calls, k + 1);
    RunStep(site, opening, calls, k);
    RunKeepsLive(site, opening, calls[..k]);
    assert Run(site, opening, calls).1[k] == Run(site, opening, calls[..k + 1]).1[k];
    AckReachesDisk(site, opening.now, Run(site, opening, calls[..k]).0, calls[k], Run(site, opening, calls).0);
  }

  // The file always begins with exactly the acknowledged records.
  lemma FileBeginsWithAcknowledged(site: Site, opening: Io, calls: seq<Call>)
    requires LawfulCodec(site.codec) && CanOpen(site, opening)
    ensures var live := Run(site, opening, calls).0;
      var records := LinesOf(FormatOf(site.codec), live.log.links);
      && records <= SplitLines(live.log.file)
      && (live.log.disk.Intact? ==> SplitLines(live.log.file) == records)
      && (!live.failed ==> live.log.disk.Intact?)
  {
    RunKeepsLive(site, opening, calls);
    FileShowsRecords(site, opening.now, Run(site, opening, calls).0);
  }

  // One ACK per admitted fact: the number of ACKs is the number of records
  // after the start record.
  function AckCount(acks: seq<Option<Ack>>): nat {
    if acks == [] then 0 else AckCount(acks[..|acks| - 1]) + if acks[|acks| - 1].Some? then 1 else 0
  }

  lemma StepCounts(site: Site, live: Live, call: Call)
    ensures var (after, ack) := AcceptStep(site, live, call);
      |after.log.links| == |live.log.links| + if ack.Some? then 1 else 0
  {
    hide Screen, Note, BodyOf, EntryOf, Landed;
  }

  lemma {:induction false} AcksCountRecords(site: Site, opening: Io, calls: seq<Call>)
    requires CanOpen(site, opening)
    ensures |Run(site, opening, calls).0.log.links| == 1 + AckCount(Run(site, opening, calls).1)
  {
    if calls == [] {
      hide Landed, StartBody;
    } else {
      var n := |calls| - 1;
      AcksCountRecords(site, opening, calls[..n]);
      var (before, acks) := Run(site, opening, calls[..n]);
      var (after, ack) := AcceptStep(site, before, calls[n]);
      StepCounts(site, before, calls[n]);
      assert Run(site, opening, calls) == (after, acks + [ack]);
      hide Run, AcceptStep;
      assert (acks + [ack])[..|acks|] == acks;
    }
  }

  lemma AckNamesNext(site: Site, live: Live, call: Call)
    ensures var ack := AcceptStep(site, live, call).1;
      ack.Some? ==> ack.value.sequence == |live.log.links|
  {
    hide Screen, Append, Note, BodyOf, EntryOf;
  }

  // The n-th ACK names the n-th record after the start record.
  lemma AcksNameRecords(site: Site, opening: Io, calls: seq<Call>, k: nat)
    requires CanOpen(site, opening) && k < |calls|
    requires Run(site, opening, calls).1[k].Some?
    ensures Run(site, opening, calls).1[k].value.sequence == 1 + AckCount(Run(site, opening, calls).1[..k])
  {
    RunOnlyAppends(site, opening, calls, k + 1);
    RunOnlyAppends(site, opening, calls, k);
    RunStep(site, opening, calls, k);
    AcksCountRecords(site, opening, calls[..k]);
    AckNamesNext(site, Run(site, opening, calls[..k]).0, calls[k]);
    hide *;
    var acks := Run(site, opening, calls).1;
    assert acks[k] == Run(site, opening, calls[..k + 1]).1[k];
    assert acks[..k] == Run(site, opening, calls[..k]).1;
  }

  // After one failed write or sync no further ACK is ever returned and not a
  // byte more is written.
  lemma {:induction false} NoAckAfterFailure(site: Site, opening: Io, calls: seq<Call>, n: nat, k: nat)
    requires n <= k < |calls|
    requires Run(site, opening, calls[..n]).0.failed
    ensures Run(site, opening, calls).1[k] == None
    ensures Run(site, opening, calls).0 == Run(site, opening, calls[..n]).0
  {
    var last := |calls| - 1;
    RunOnlyAppends(site, opening, calls, n);
    RunOnlyAppends(site, opening, calls[..last], n);
    assert calls[..last][..n] == calls[..n];
    StepOnlyAppends(site, Run(site, opening, calls[..last]).0, calls[last]);
    if k < last {
      NoAckAfterFailure(site, opening, calls[..last], n, k);
    }
  }

  lemma LiveIsBounded(site: Site, started: int, live: Live)
    requires WellFormed(site.spec) && LiveOk(site, started, live)
    ensures |live.log.links| <= 1 + MostAdmissions(site.spec)
  {
    AdmissionsBounded(site.codec.facts, site.spec, live.entries);
  }

  // The journal of any run has at most one start record and, per preregistered
  // phase, one mapping, one projection and `maxUploads` uploads per rank.
  lemma JournalIsBounded(site: Site, opening: Io, calls: seq<Call>)
    requires WellFormed(site.spec) && CanOpen(site, opening)
    ensures |Run(site, opening, calls).0.log.links| <= 1 + MostAdmissions(site.spec)
  {
    RunKeepsLive(site, opening, calls);
    LiveIsBounded(site, opening.now, Run(site, opening, calls).0);
  }
}
