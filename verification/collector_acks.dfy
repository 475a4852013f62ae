/** Which calls the collector acknowledges, in any state a run can reach. */
module CollectorAcks {
  import opened Wrappers
  import opened JournalBytes
  import opened HashChain
  import opened CollectorFacts
  import opened CollectorHistory
  import opened Collector
  import opened CollectorRuns
  import opened CollectorWelcome

  // The frozen source files are all there, unchanged, and no two print alike.
  predicate Unchanged(files: seq<SourceFile>, disk: map<string, Digest>) {
    && files != []
    && (forall i :: 0 <= i < |files| ==> files[i].path in disk && disk[files[i].path] == files[i].sha256)
    && (forall i, k :: 0 <= i < k < |files| ==> files[i].normal != files[k].normal)
  }

  // The caller is this frozen sender.
  predicate IsSender(site: Site, call: Call, s: Sender) {
    && s in site.spec.senders && s.process.kernel.pid == call.peer.pid
    && s.uid == call.peer.uid == site.uid && s.gid == call.peer.gid
    && call.kernel == Some(s.process.kernel) && call.cmdline == Some(s.cmdline)
    && Unchanged(s.sources, call.disk)
  }

  // It reports a fact not reported before and welcome now.
  ghost predicate MayEnter(site: Site, log: seq<Entry>, call: Call, s: Sender, fact: Fact) {
    && IsSender(site, call, s)
    && (forall i :: 0 <= i < |log| ==> site.codec.facts.sha(log[i].raw) != site.codec.facts.sha(call.raw))
    && Welcome(site.codec.facts, site.spec, log, s, call.raw, Some(call.io.now), fact)
  }

  // The record it then leaves: the raw fact, who sent it from which sources,
  // and the phase and runtime it belongs to.
  function RecordFor(site: Site, call: Call, s: Sender, fact: Fact, phase: Phase): Body {
    Accepted(Some(call.io.now), call.raw, site.codec.facts.sha(call.raw), Peer(s.process.kernel.pid, s.uid, s.gid),
             FrozenSources(s.sources), s.process.kernel, phase, fact.common.runtime, site.archive)
  }

  function LineFor(site: Site, live: Live, body: Body): Bytes {
    site.codec.event(Seal(site.codec, Link(|live.log.links|, Tip(FormatOf(site.codec), live.log.links), body)))
  }

  // ---------------------------------------------------------------------

  predicate NormalIn(files: seq<SourceFile>, path: string) {
    exists i :: 0 <= i < |files| && files[i].normal == path
  }

  predicate Matching(files: seq<SourceFile>, disk: map<string, Digest>) {
    && (forall i :: 0 <= i < |files| ==> files[i].path in disk && disk[files[i].path] == files[i].sha256)
    && (forall i, k :: 0 <= i < k < |files| ==> files[i].normal != files[k].normal)
  }

  lemma {:induction false} SourcesExactly(files: seq<SourceFile>, disk: map<string, Digest>)
    ensures SourceDigests(files, disk).Some? <==> Matching(files, disk)
    ensures SourceDigests(files, disk).Some? ==>
      forall path :: path in SourceDigests(files, disk).value <==> NormalIn(files, path)
  {
    if files == [] {
    } else {
      var n := |files| - 1;
      var front, last := files[..n], files[n];
      SourcesExactly(front, disk);
      assert files == front + [last];
      assert forall path :: NormalIn(files, path) <==> NormalIn(front, path) || last.normal == path;
      MatchingGrows(front, last, disk);
    }
  }

  lemma MatchingGrows(front: seq<SourceFile>, last: SourceFile, disk: map<string, Digest>)
    ensures Matching(front + [last], disk)
      <==> Matching(front, disk) && last.path in disk && disk[last.path] == last.sha256 && !NormalIn(front, last.normal)
  {
    var files := front + [last];
    assert files[|front|] == last && forall i :: 0 <= i < |front| ==> files[i] == front[i];
  }

  lemma {:induction false} SenderMapExactly(senders: seq<Sender>, s: Sender)
    requires forall i, k :: 0 <= i < k < |senders| ==>
      senders[i].process.kernel.pid != senders[k].process.kernel.pid
    ensures s in senders <==>
      s.process.kernel.pid in SenderMap(senders) && SenderMap(senders)[s.process.kernel.pid] == s
  {
    if senders == [] {
    } else {
      var n := |senders| - 1;
      SenderMapExactly(senders[..n], s);
      assert senders == senders[..n] + [senders[n]];
    }
  }

  lemma SendersByPid(spec: Spec, s: Sender)
    requires SendersOk(spec.senders)
    ensures s in spec.senders
      <==> s.process.kernel.pid in SenderMap(spec.senders) && SenderMap(spec.senders)[s.process.kernel.pid] == s
  {
    assert forall i, k :: 0 <= i < k < |spec.senders| ==> SendersApart(spec.senders[i], spec.senders[k]);
    hide SenderMap;
    SenderMapExactly(spec.senders, s);
  }

  lemma EnteringIsScreened(site: Site, live: Live, call: Call, s: Sender, fact: Fact)
    requires SendersOk(site.spec.senders) && !live.failed
    requires Admissible(site.codec.facts, site.spec, live.entries)
    requires Folded(site.codec.facts, live.entries) == live.intake
    requires MayEnter(site, live.entries, call, s, fact)
    ensures Screen(site, live, call).Some?
  {
    var c, log := site.codec.facts, live.entries;
    hide Judge, Folded, Admissible, SendersOk, SenderMap;
    SeenExactly(c, site.spec, log, c.sha(call.raw));
    SendersByPid(site.spec, s);
    SourcesExactly(s.sources, call.disk);
    WelcomeExactly(c, site.spec, log, s, call.raw, Some(call.io.now));
    hide Welcome, SourceDigests;
  }

  lemma ScreenedMayEnter(site: Site, live: Live, call: Call)
    requires Admissible(site.codec.facts, site.spec, live.entries)
    requires Folded(site.codec.facts, live.entries) == live.intake
    requires Screen(site, live, call).Some?
    ensures var ok := Screen(site, live, call).value;
      && MayEnter(site, live.entries, call, ok.sender, ok.verdict.fact)
      && Joins(site.spec, live.entries, ok.verdict.fact, ok.verdict.phase)
  {
    var c, log := site.codec.facts, live.entries;
    var s := Screen(site, live, call).value.sender;
    SenderMapPids(site.spec.senders);
    hide Judge, Folded, Admissible, SenderMap;
    SeenExactly(c, site.spec, log, c.sha(call.raw));
    SourcesExactly(s.sources, call.disk);
    WelcomeExactly(c, site.spec, log, s, call.raw, Some(call.io.now));
    hide Welcome, Joins, SourceDigests;
  }

  // What comes of a call that may enter: with its line on the disk, whole and
  // synced, the ACK of that line; otherwise the collector has failed.
  ghost predicate Entered(
      site: Site, live: Live, call: Call, s: Sender, fact: Fact, phase: Phase, after: Live, ack: Option<Ack>) {
    && Joins(site.spec, live.entries, fact, phase)
    && var line := LineFor(site, live, RecordFor(site, call, s, fact, phase));
    && (ack.Some? <==> Persisted(|line| + 1, call.io)) && (after.failed <==> ack.None?)
    && (ack.Some? ==>
          && after.log.file == live.log.file + line + [LF] && ack.value.sequence == |live.log.links|
          && ack.value.phase == phase && ack.value.rawSha == site.codec.facts.sha(call.raw))
  }

  lemma OneSender(site: Site, log: seq<Entry>, call: Call, s: Sender, t: Sender, fact: Fact, other: Fact)
    requires SendersOk(site.spec.senders) && MayEnter(site, log, call, s, fact) && MayEnter(site, log, call, t, other)
    ensures s == t && fact == other
  {
    SendersByPid(site.spec, s);
    SendersByPid(site.spec, t);
    hide SendersOk, SenderMap, Unchanged, Timely, New;
  }

  lemma StepEnters(site: Site, live: Live, call: Call)
    requires Screen(site, live, call).Some?
    requires var ok := Screen(site, live, call).value;
      BodyOf(site, call, ok) == RecordFor(site, call, ok.sender, ok.verdict.fact, ok.verdict.phase)
      && Joins(site.spec, live.entries, ok.verdict.fact, ok.verdict.phase) && !live.failed
    ensures var ok := Screen(site, live, call).value;
      var (after, ack) := AcceptStep(site, live, call);
      Entered(site, live, call, ok.sender, ok.verdict.fact, ok.verdict.phase, after, ack)
  {
    hide Screen, Joins, Note;
    var ok := Screen(site, live, call).value;
    var line := LineFor(site, live, RecordFor(site, call, ok.sender, ok.verdict.fact, ok.verdict.phase));
    assert line == FormatOf(site.codec).line(NextLink(FormatOf(site.codec), live.log.links, BodyOf(site, call, ok)));
    if Persisted(|line| + 1, call.io) {
      assert (line + [LF])[..|line| + 1] == line + [LF];
      assert live.log.file + (line + [LF]) == live.log.file + line + [LF];
    }
  }

  lemma ScreenedRecord(site: Site, live: Live, call: Call)
    requires Screen(site, live, call).Some?
    ensures var ok := Screen(site, live, call).value;
      BodyOf(site, call, ok) == RecordFor(site, call, ok.sender, ok.verdict.fact, ok.verdict.phase)
  {
    ScreenedIsRecorded(site, live, call);
  }

  // One call on a state.
  ghost predicate Answered(site: Site, live: Live, call: Call, after: Live, ack: Option<Ack>) {
    && ((forall s, fact :: !MayEnter(site, live.entries, call, s, fact)) ==> after == live && ack.None?)
    && (forall s, fact :: MayEnter(site, live.entries, call, s, fact) ==>
          exists phase :: Entered(site, live, call, s, fact, phase, after, ack))
  }

  lemma StepAnswers(site: Site, started: int, live: Live, call: Call)
    requires LiveOk(site, started, live) && SendersOk(site.spec.senders) && !live.failed
    ensures Answered(site, live, call, AcceptStep(site, live, call).0, AcceptStep(site, live, call).1)
  {
    hide LiveOk, SendersOk, Admissible, Folded, Screen, Entered, MayEnter, Joins, Append;
    HistoryOf(site, started, live);
    if Screen(site, live, call).Some? {
      var ok := Screen(site, live, call).value;
      ScreenedMayEnter(site, live, call);
      ScreenedRecord(site, live, call);
      StepEnters(site, live, call);
      forall s, fact | MayEnter(site, live.entries, call, s, fact) ensures s == ok.sender && fact == ok.verdict.fact {
        OneSender(site, live.entries, call, s, ok.sender, fact, ok.verdict.fact);
      }
    } else {
      forall s, fact ensures !MayEnter(site, live.entries, call, s, fact) {
        if MayEnter(site, live.entries, call, s, fact) {
          EnteringIsScreened(site, live, call, s, fact);
        }
      }
    }
  }

  // In any state a run reaches without a failure: a call that may not enter
  // changes nothing and gets no ACK; one that may enter gets its ACK exactly
  // when its line gets to the disk.
  lemma AckExactly(site: Site, opening: Io, calls: seq<Call>, call: Call)
    requires CanOpen(site, opening) && SendersOk(site.spec.senders) && !Run(site, opening, calls).0.failed
    ensures var (after, acks) := Run(site, opening, calls + [call]);
      Answered(site, Run(site, opening, calls).0, call, after, acks[|calls|])
  {
    hide Answered, SendersOk, AcceptStep;
    RunKeepsLive(site, opening, calls);
    CallStep(site, opening, calls, call);
    StepAnswers(site, opening.now, Run(site, opening, calls).0, call);
    hide Run;
  }

  lemma CallStep(site: Site, opening: Io, calls: seq<Call>, call: Call)
    ensures var (after, ack) := AcceptStep(site, Run(site, opening, calls).0, call);
      Run(site, opening, calls + [call]) == (after, Run(site, opening, calls).1 + [ack])
  {
    RunStep(site, opening, calls + [call], |calls|);
    assert (calls + [call])[..|calls|] == calls && (calls + [call])[..|calls| + 1] == calls + [call];
  }

  lemma HistoryOf(site: Site, started: int, live: Live)
    requires LiveOk(site, started, live)
    ensures Admissible(site.codec.facts, site.spec, live.entries)
    ensures Folded(site.codec.facts, live.entries) == live.intake
  {
  }
}
