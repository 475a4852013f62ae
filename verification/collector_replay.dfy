/**
 The independent verifier of the collector's journal: it follows the chain,
 checks every record against the frozen spec and admits every fact again with
 the shared predicate and an intake state of its own.
 */
module CollectorReplay {
  import opened Wrappers
  import opened JournalBytes
  import opened CollectorFacts
  import opened CollectorHistory
  import opened Collector

  datatype ReplayError =
    | Unparsable | StartMissing | SpecDiffers | ChainBroken | KindUnsupported
    | ScopeDiffers | ClockViolation | FactRefused(reason: Reason) | JoinDiffers | PrefixDiffers

  // The verifier's own inputs: the spec file and the sources it recognises.
  datatype Verifier = Verifier(codec: Codec, spec: Spec, specSha: Digest, sources: set<Digest>)

  // The authenticated acknowledgement the collector last published.
  datatype Prefix = Prefix(nextSequence: int, last: Digest)

  datatype Report = Report(
    accepted: nat, mappings: nat, observed: nat,
    transport: Option<nat>, kvComplete: Option<nat>,
    chronology: bool, durable: bool, expectedPhases: nat)

  // `admitted` lists what was admitted again, for the statements about it.
  datatype Replay = Replay(
    intake: Intake, projections: map<Slot, seq<Fact>>, kvRanks: map<string, set<int>>,
    chronology: bool, lastNs: Option<int>, previous: Digest, admitted: seq<Entry>)

  // {path: sha256} as the spec spells the paths.
  function ListedSources(files: seq<SourceFile>): map<string, Digest> {
    if files == [] then map[] else
    var last := files[|files| - 1];
    ListedSources(files[..|files| - 1])[last.path := last.sha256]
  }

  predicate TagMatches(spec: Spec, tag: IntakeTag) {
    tag == (if spec.schema == KvSpecV2 then IntakeV3 else IntakeV2)
  }

  function Fresh(v: Verifier, start: Body): Replay
    requires start.Start?
  {
    Replay(EMPTY_INTAKE, map[], map[], TagMatches(v.spec, start.tag) && start.startedNs.Some?,
           start.startedNs, Zero(), [])
  }

  predicate Sealed(v: Verifier, rs: Replay, index: nat, e: Event) {
    && e.link.sequence == index
    && e.link.previous == rs.previous
    && e.sha256 == v.codec.facts.sha(v.codec.core(e.link))
  }

  // Source, peer and request scope of one accepted record.
  predicate InScope(v: Verifier, start: Body, rs: Replay, b: Body, sender: Sender)
    requires start.Start? && b.Accepted?
  {
    var parsed := v.codec.facts.parseFact(b.raw);
    && b.peer.uid == sender.uid && b.peer.gid == sender.gid
    && parsed.Some?
    && parsed.value.common.process == sender.process
    && b.process == sender.process.kernel
    && b.sources == ListedSources(sender.sources)
    && b.archive == start.archive
    && v.codec.facts.fact(parsed.value) == b.raw
    && v.codec.facts.sha(b.raw) == b.rawSha
    && b.rawSha !in rs.intake.seen
    && parsed.value.common.planId == v.spec.planId
    && parsed.value.common.launchId == v.spec.launchId
  }

  // An accept time must be no earlier than the start and the previous one.
  predicate ClockOk(start: Body, rs: Replay, now: Option<int>)
    requires start.Start?
  {
    now.Some? ==>
      && start.startedNs.Some? && start.startedNs.value <= now.value
      && (rs.lastNs.Some? ==> rs.lastNs.value <= now.value)
  }

  predicate MatchesSome(projections: seq<Fact>, upload: Fact)
    requires upload.Upload?
  {
    exists i :: 0 <= i < |projections| && projections[i].Projection? && UploadMatches(projections[i], upload)
  }

  // Whether an upload completes a projection already seen for its slot.
  predicate Closes(projections: map<Slot, seq<Fact>>, slot: Slot, upload: Fact)
    requires upload.Upload?
  {
    slot in projections && MatchesSome(projections[slot], upload)
  }

  function Readmit(rs: Replay, verdict: Verdict, e: Entry, digest: Digest, next: Digest): Replay {
    var runtime := verdict.fact.common.runtime;
    var slot := Slot(runtime, e.sender.process.ordinal);
    var after := rs.(intake := Note(rs.intake, verdict, digest), previous := next,
                     chronology := rs.chronology && e.now.Some?,
                     lastNs := if e.now.Some? then e.now else rs.lastNs,
                     admitted := rs.admitted + [e]);
    if verdict.update.ProjectionUpdate?
    then after.(projections := rs.projections[slot := Get(rs.projections, slot, []) + [verdict.fact]])
    else if verdict.fact.Upload? && verdict.update.UploadUpdate? && Closes(rs.projections, slot, verdict.fact)
    then after.(kvRanks := rs.kvRanks[runtime := Get(rs.kvRanks, runtime, {}) + {slot.rank}])
    else after
  }

  // One record of the journal. The first is the start record itself.
  function ReplayEvent(v: Verifier, start: Body, rs: Replay, index: nat, e: Event): Result<Replay, ReplayError>
    requires start.Start?
  {
    if !Sealed(v, rs, index, e) then Err(ChainBroken)
    else if index == 0 then Ok(rs.(previous := e.sha256))
    else if !e.link.payload.Accepted? then Err(KindUnsupported) else
    var b := e.link.payload;
    var senders := SenderMap(v.spec.senders);
    if b.peer.pid !in senders || !InScope(v, start, rs, b, senders[b.peer.pid]) then Err(ScopeDiffers)
    else if !ClockOk(start, rs, b.now) then Err(ClockViolation) else
    var sender := senders[b.peer.pid];
    var judged := Judge(v.codec.facts, v.spec, sender, b.raw, b.now, rs.intake);
    if judged.Err? then Err(FactRefused(judged.error)) else
    var verdict := judged.value;
    if verdict.phase != b.phase || verdict.fact.common.runtime != b.runtime then Err(JoinDiffers)
    else Ok(Readmit(rs, verdict, Entry(b.raw, sender, b.now, verdict), b.rawSha, e.sha256))
  }

  function ReplayPrefix(v: Verifier, start: Body, events: seq<Event>): Result<Replay, ReplayError>
    requires start.Start?
  {
    if events == [] then Ok(Fresh(v, start)) else
    var n := |events| - 1;
    var front := ReplayPrefix(v, start, events[..n]);
    if front.Err? then front else ReplayEvent(v, start, front.value, n, events[n])
  }

  function TwoRanks(ranks: map<string, set<int>>, runtime: string): bool {
    Get(ranks, runtime, {}) == {0, 1}
  }

  function Complete(mappings: map<string, Phase>, ranks: map<string, set<int>>): set<string> {
    set r | r in mappings && TwoRanks(ranks, r)
  }

  function ReportOf(v: Verifier, rs: Replay, count: nat, prefix: Option<Prefix>): Report {
    var observed := |Complete(rs.intake.mappings, rs.intake.ranks)|;
    var kv := |Complete(rs.intake.mappings, rs.kvRanks)|;
    var strong := prefix.Some? && rs.chronology;
    Report(if count > 0 then count - 1 else 0, |rs.intake.mappings|, observed,
           if strong then Some(observed) else None,
           if strong && v.spec.schema != PlainSpec then Some(kv) else None,
           rs.chronology, prefix.Some?, |PhaseMap(v.spec.phases)|)
  }

  predicate StartOk(v: Verifier, start: Body) {
    start.Start? && start.specSha == v.specSha && start.source in v.sources
  }

  // The verdict on a whole list of parsed records.
  function Verified(v: Verifier, events: seq<Event>, prefix: Option<Prefix>): Result<Replay, ReplayError> {
    if events == [] || !events[0].link.payload.Start? then Err(StartMissing) else
    var start := events[0].link.payload;
    if !StartOk(v, start) then Err(SpecDiffers) else
    var rs := ReplayPrefix(v, start, events);
    if rs.Err? then rs
    else if prefix.Some? && prefix.value != Prefix(|events|, rs.value.previous) then Err(PrefixDiffers)
    else rs
  }

  // [json.loads(line) for line in lines]
  function ParseAll(c: Codec, lines: seq<Bytes>): Option<seq<Event>> {
    if lines == [] then Some([]) else
    var n := |lines| - 1;
    var front := ParseAll(c, lines[..n]);
    var last := c.parseEvent(lines[n]);
    if front.None? || last.None? then None else Some(front.value + [last.value])
  }

  // verify_journal as a function of the file's bytes.
  function Judgement(v: Verifier, file: Bytes, prefix: Option<Prefix>): Result<Report, ReplayError> {
    var events := ParseAll(v.codec, SplitLines(file));
    if events.None? then Err(Unparsable) else
    var rs := Verified(v, events.value, prefix);
    if rs.Err? then Err(rs.error) else Ok(ReportOf(v, rs.value, |events.value|, prefix))
  }

  // ---------------------------------------------------------------------
  // The verifier as it runs: two loops over local dictionaries

  method ParseEvents(c: Codec, file: Bytes) returns (r: Option<seq<Event>>)
    ensures r == ParseAll(c, SplitLines(file))
  {
    var lines := SplitLines(file);
    var events: seq<Event> := [];
    for i := 0 to |lines|
      invariant ParseAll(c, lines[..i]) == Some(events)
    {
      assert lines[..i + 1][..i] == lines[..i];
      var e := c.parseEvent(lines[i]);
      if e.None? {
        ParseFailureStays(c, lines, i + 1);
        return None;
      }
      events := events + [e.value];
    }
    assert lines[..|lines|] == lines;
    return Some(events);
  }

  lemma {:induction false} ParseFailureStays(c: Codec, lines: seq<Bytes>, n: nat)
    requires n <= |lines| && ParseAll(c, lines[..n]).None?
    ensures ParseAll(c, lines).None?
  {
    if n < |lines| {
      assert lines[..|lines| - 1][..n] == lines[..n];
      ParseFailureStays(c, lines[..|lines| - 1], n);
    } else {
      assert lines[..n] == lines;
    }
  }

  lemma {:induction false} ReplayFailureStays(v: Verifier, start: Body, events: seq<Event>, n: nat)
    requires start.Start? && n <= |events| && ReplayPrefix(v, start, events[..n]).Err?
    ensures ReplayPrefix(v, start, events) == ReplayPrefix(v, start, events[..n])
  {
    if n < |events| {
      assert events[..|events| - 1][..n] == events[..n];
      ReplayFailureStays(v, start, events[..|events| - 1], n);
    } else {
      assert events[..n] == events;
    }
  }

  lemma ReplayGrows(v: Verifier, start: Body, events: seq<Event>, i: nat)
    requires start.Start? && i < |events| && ReplayPrefix(v, start, events[..i]).Ok?
    ensures ReplayPrefix(v, start, events[..i + 1])
         == ReplayEvent(v, start, ReplayPrefix(v, start, events[..i]).value, i, events[i])
  {
    assert events[..i + 1][..i] == events[..i];
  }

  method VerifyJournal(v: Verifier, file: Bytes, prefix: Option<Prefix>) returns (r: Result<Report, ReplayError>)
    ensures r == Judgement(v, file, prefix)
  {
    var parsed := ParseEvents(v.codec, file);
    if parsed.None? {
      return Err(Unparsable);
    }
    var events := parsed.value;
    if events == [] || !events[0].link.payload.Start? {
      return Err(StartMissing);
    }
    var start := events[0].link.payload;
    if !StartOk(v, start) {
      return Err(SpecDiffers);
    }
    var rs := Fresh(v, start);
    for i := 0 to |events|
      invariant ReplayPrefix(v, start, events[..i]) == Ok(rs)
    {
      ReplayGrows(v, start, events, i);
      var step := ReplayEvent(v, start, rs, i, events[i]);
      if step.Err? {
        ReplayFailureStays(v, start, events, i + 1);
        return Err(step.error);
      }
      rs := step.value;
    }
    assert events[..|events|] == events;
    if prefix.Some? && prefix.value != Prefix(|events|, rs.previous) {
      return Err(PrefixDiffers);
    }
    return Ok(ReportOf(v, rs, |events|, prefix));
  }
}
