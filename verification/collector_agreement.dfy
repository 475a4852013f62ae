/**
 Live collector and independent replay: what an accepted journal implies, when
 the replay accepts a live journal, and what two accepted journals share.
 */
module CollectorAgreement {
  import opened Wrappers
  import opened JournalBytes
  import opened HashChain
  import opened CollectorFacts
  import opened CollectorHistory
  import opened Collector
  import opened CollectorRuns
  import opened CollectorReplay

  function LinksOf(events: seq<Event>): (links: seq<Link<Body>>)
    ensures |links| == |events|
    ensures forall i :: 0 <= i < |events| ==> links[i] == events[i].link
  {
    seq(|events|, i requires 0 <= i < |events| => events[i].link)
  }

  // ---------------------------------------------------------------------
  // What acceptance implies

  ghost predicate SealedChain(v: Verifier, events: seq<Event>, previous: Digest) {
    && Chained(FormatOf(v.codec), LinksOf(events))
    && previous == Tip(FormatOf(v.codec), LinksOf(events))
    && forall i :: 0 <= i < |events| ==> events[i] == Seal(v.codec, events[i].link)
  }

  // Which record each admitted entry stands for.
  ghost predicate RawsMatch(events: seq<Event>, admitted: seq<Entry>) {
    && |admitted| == (if |events| == 0 then 0 else |events| - 1)
    && forall i :: 1 <= i < |events| ==>
         events[i].link.payload.Accepted? && events[i].link.payload.raw == admitted[i - 1].raw
  }

  // Everything a successful replay has established about the records so far.
  ghost predicate Established(v: Verifier, events: seq<Event>, rs: Replay) {
    && SealedChain(v, events, rs.previous)
    && RawsMatch(events, rs.admitted)
    && Admissible(v.codec.facts, v.spec, rs.admitted)
    && Folded(v.codec.facts, rs.admitted) == rs.intake
  }

  lemma SealedExtends(v: Verifier, events: seq<Event>, previous: Digest, e: Event)
    requires SealedChain(v, events, previous)
    requires e.link.sequence == |events| && e.link.previous == previous && e == Seal(v.codec, e.link)
    ensures SealedChain(v, events + [e], e.sha256)
  {
    var f := FormatOf(v.codec);
    assert LinksOf(events + [e]) == LinksOf(events) + [e.link];
    assert e.link == NextLink(f, LinksOf(events), e.link.payload);
    ChainedExtend(f, LinksOf(events), e.link.payload);
  }

  // The entry a successfully replayed record admits again.
  lemma Readmitted(v: Verifier, start: Body, rs: Replay, index: nat, e: Event) returns (entry: Entry)
    requires start.Start? && index > 0 && ReplayEvent(v, start, rs, index, e).Ok?
    ensures e.link.payload.Accepted? && e.link.payload.raw == entry.raw
    ensures entry.sender in v.spec.senders
    ensures v.codec.facts.sha(entry.raw) !in rs.intake.seen
    ensures Judge(v.codec.facts, v.spec, entry.sender, entry.raw, entry.now, rs.intake) == Ok(entry.verdict)
    ensures ReplayEvent(v, start, rs, index, e).value
         == Readmit(rs, entry.verdict, entry, v.codec.facts.sha(entry.raw), e.sha256)
  {
    var b := e.link.payload;
    SenderMapPids(v.spec.senders);
    var sender := SenderMap(v.spec.senders)[b.peer.pid];
    entry := Entry(b.raw, sender, b.now, Judge(v.codec.facts, v.spec, sender, b.raw, b.now, rs.intake).value);
  }

  lemma EventKeepsEstablished(v: Verifier, start: Body, events: seq<Event>, rs: Replay, e: Event)
    requires start.Start? && Established(v, events, rs)
    requires ReplayEvent(v, start, rs, |events|, e).Ok?
    ensures Established(v, events + [e], ReplayEvent(v, start, rs, |events|, e).value)
  {
    SealedExtends(v, events, rs.previous, e);
    if events != [] {
      var entry := Readmitted(v, start, rs, |events|, e);
      AdmissibleExtend(v.codec.facts, v.spec, rs.admitted, entry);
      ReadmitFields(rs, entry, v.codec.facts.sha(entry.raw), e.sha256);
      RawsExtend(events, rs.admitted, e, entry);
    }
  }

  lemma RawsExtend(events: seq<Event>, admitted: seq<Entry>, e: Event, entry: Entry)
    requires events != [] && RawsMatch(events, admitted)
    requires e.link.payload.Accepted? && e.link.payload.raw == entry.raw
    ensures RawsMatch(events + [e], admitted + [entry])
  {
  }

  lemma ReadmitFields(rs: Replay, entry: Entry, digest: Digest, next: Digest)
    ensures var after := Readmit(rs, entry.verdict, entry, digest, next);
      && after.previous == next
      && after.admitted == rs.admitted + [entry]
      && after.intake == Note(rs.intake, entry.verdict, digest)
      && after.chronology == (rs.chronology && entry.now.Some?)
      && (entry.now.Some? ==> after.lastNs == entry.now)
  {
  }

  // A successful replay of a list is a successful replay of its front and a
  // successful last record.
  lemma ReplaySplits(v: Verifier, start: Body, events: seq<Event>, front: seq<Event>, e: Event)
    requires start.Start? && events == front + [e] && ReplayPrefix(v, start, events).Ok?
    ensures ReplayPrefix(v, start, front).Ok?
    ensures ReplayEvent(v, start, ReplayPrefix(v, start, front).value, |front|, e) == ReplayPrefix(v, start, events)
  {
    assert events[..|events| - 1] == front;
  }

  lemma {:induction false} ReplayEstablishes(v: Verifier, start: Body, events: seq<Event>)
    requires start.Start? && ReplayPrefix(v, start, events).Ok?
    ensures Established(v, events, ReplayPrefix(v, start, events).value)
    decreases |events|
  {
    if events == [] {
      hide Judge, Readmit, ReplayEvent;
      assert LinksOf(events) == [];
    } else {
      var front, e := events[..|events| - 1], events[|events| - 1];
      assert events == front + [e];
      hide Established, ReplayEvent, Judge, Readmit, Chained, Sealed;
      ReplaySplits(v, start, events, front, e);
      ReplayEstablishes(v, start, front);
      EventKeepsEstablished(v, start, front, ReplayPrefix(v, start, front).value, e);
    }
  }

  // An accepted journal is no longer than the preregistration allows, whoever
  // wrote it.
  lemma AcceptedJournalBounded(v: Verifier, events: seq<Event>, prefix: Option<Prefix>)
    requires WellFormed(v.spec) && Verified(v, events, prefix).Ok?
    ensures |events| <= 1 + MostAdmissions(v.spec)
  {
    ReplayEstablishes(v, events[0].link.payload, events);
    AdmissionsBounded(v.codec.facts, v.spec, Verified(v, events, prefix).value.admitted);
  }

  // Two journals accepted against the same acknowledged prefix are equal event
  // by event, or a hash collision is at hand.
  lemma PrefixFixesJournal(v: Verifier, a: seq<Event>, b: seq<Event>, prefix: Prefix) returns (x: Bytes, y: Bytes)
    requires LawfulCodec(v.codec)
    requires Verified(v, a, Some(prefix)).Ok? && Verified(v, b, Some(prefix)).Ok?
    ensures a == b || (x != y && v.codec.facts.sha(x) == v.codec.facts.sha(y))
  {
    ReplayEstablishes(v, a[0].link.payload, a);
    ReplayEstablishes(v, b[0].link.payload, b);
    FormatIsLawful(v.codec);
    x, y := SameTipSameChain(FormatOf(v.codec), LinksOf(a), LinksOf(b));
    if LinksOf(a) == LinksOf(b) {
      forall i | 0 <= i < |a|
        ensures a[i] == b[i]
      {
        assert a[i].link == LinksOf(a)[i] == LinksOf(b)[i] == b[i].link;
      }
    }
  }

  // ---------------------------------------------------------------------
  // KV completion ordering

  ghost predicate IsProjection(e: Entry, slot: Slot) {
    && e.verdict.update.ProjectionUpdate? && e.verdict.fact.Projection?
    && Slot(e.verdict.fact.common.runtime, e.verdict.update.rank) == slot
  }

  ghost predicate ProjectedBy(admitted: seq<Entry>, slot: Slot, fact: Fact) {
    exists i :: 0 <= i < |admitted| && IsProjection(admitted[i], slot) && admitted[i].verdict.fact == fact
  }

  // A projection followed, later in the journal, by an upload of the same
  // process, no earlier in time, with a row that starts with its blocks.
  ghost predicate ClosedBy(admitted: seq<Entry>, slot: Slot) {
    exists i, k :: 0 <= i < k < |admitted|
      && IsProjection(admitted[i], slot) && IsUpload(admitted[k], slot)
      && UploadMatches(admitted[i].verdict.fact, admitted[k].verdict.fact)
  }

  ghost predicate ProjectionsOk(rs: Replay) {
    forall slot, n :: slot in rs.projections && 0 <= n < |rs.projections[slot]| ==>
      ProjectedBy(rs.admitted, slot, rs.projections[slot][n])
  }

  ghost predicate KvRanksOk(rs: Replay) {
    forall r, k :: r in rs.kvRanks && k in rs.kvRanks[r] ==>
      ClosedBy(rs.admitted, Slot(r, k)) && r in rs.intake.ranks && k in rs.intake.ranks[r]
  }

  ghost predicate KvOk(rs: Replay) {
    ProjectionsOk(rs) && KvRanksOk(rs)
  }

  lemma LaterKeeps(admitted: seq<Entry>, e: Entry, slot: Slot, fact: Fact)
    ensures ProjectedBy(admitted, slot, fact) ==> ProjectedBy(admitted + [e], slot, fact)
    ensures ClosedBy(admitted, slot) ==> ClosedBy(admitted + [e], slot)
  {
    var longer := admitted + [e];
    if ProjectedBy(admitted, slot, fact) {
      var i :| 0 <= i < |admitted| && IsProjection(admitted[i], slot) && admitted[i].verdict.fact == fact;
      assert longer[i] == admitted[i];
    }
    if ClosedBy(admitted, slot) {
      var i, k :| 0 <= i < k < |admitted| && IsProjection(admitted[i], slot) && IsUpload(admitted[k], slot)
               && UploadMatches(admitted[i].verdict.fact, admitted[k].verdict.fact);
      assert longer[i] == admitted[i] && longer[k] == admitted[k];
    }
  }

  lemma ClosingUpload(rs: Replay, slot: Slot, e: Entry)
    requires ProjectionsOk(rs) && IsUpload(e, slot)
    requires Closes(rs.projections, slot, e.verdict.fact)
    ensures ClosedBy(rs.admitted + [e], slot)
  {
    var list := rs.projections[slot];
    var n :| 0 <= n < |list| && list[n].Projection? && UploadMatches(list[n], e.verdict.fact);
    assert ProjectedBy(rs.admitted, slot, list[n]);
    var i :| 0 <= i < |rs.admitted| && IsProjection(rs.admitted[i], slot) && rs.admitted[i].verdict.fact == list[n];
    var longer := rs.admitted + [e];
    assert longer[i] == rs.admitted[i] && longer[|rs.admitted|] == e;
  }

  lemma ReadmitKeepsProjections(v: Verifier, rs: Replay, e: Entry, digest: Digest, next: Digest)
    requires ProjectionsOk(rs) && Sound(v.spec, e.sender, rs.intake, e.verdict)
    ensures ProjectionsOk(Readmit(rs, e.verdict, e, digest, next))
  {
    var after := Readmit(rs, e.verdict, e, digest, next);
    var mine := Slot(e.verdict.fact.common.runtime, e.sender.process.ordinal);
    ReadmitFields(rs, e, digest, next);
    forall slot, n | slot in after.projections && 0 <= n < |after.projections[slot]|
      ensures ProjectedBy(after.admitted, slot, after.projections[slot][n])
    {
      LaterKeeps(rs.admitted, e, slot, after.projections[slot][n]);
      if slot == mine && e.verdict.update.ProjectionUpdate? && n == |after.projections[slot]| - 1 {
        assert after.admitted[|rs.admitted|] == e && IsProjection(e, mine);
      }
    }
  }

  lemma ReadmitKeepsKvRanks(v: Verifier, rs: Replay, e: Entry, digest: Digest, next: Digest)
    requires KvOk(rs) && Sound(v.spec, e.sender, rs.intake, e.verdict)
    ensures KvRanksOk(Readmit(rs, e.verdict, e, digest, next))
  {
    var after := Readmit(rs, e.verdict, e, digest, next);
    var mine := Slot(e.verdict.fact.common.runtime, e.sender.process.ordinal);
    ReadmitFields(rs, e, digest, next);
    forall r, k | r in after.kvRanks && k in after.kvRanks[r]
      ensures ClosedBy(after.admitted, Slot(r, k)) && r in after.intake.ranks && k in after.intake.ranks[r]
    {
      LaterKeeps(rs.admitted, e, Slot(r, k), e.verdict.fact);
      if !(r in rs.kvRanks && k in rs.kvRanks[r]) {
        assert Slot(r, k) == mine && IsUpload(e, mine);
        ClosingUpload(rs, mine, e);
      }
    }
  }

  lemma ReadmitKeepsKv(v: Verifier, rs: Replay, e: Entry, digest: Digest, next: Digest)
    requires KvOk(rs) && Sound(v.spec, e.sender, rs.intake, e.verdict)
    ensures KvOk(Readmit(rs, e.verdict, e, digest, next))
  {
    ReadmitKeepsProjections(v, rs, e, digest, next);
    ReadmitKeepsKvRanks(v, rs, e, digest, next);
  }

  lemma {:induction false} ReplayKeepsKv(v: Verifier, start: Body, events: seq<Event>)
    requires start.Start? && ReplayPrefix(v, start, events).Ok?
    ensures KvOk(ReplayPrefix(v, start, events).value)
  {
    if events == [] {
    } else {
      var n := |events| - 1;
      ReplayKeepsKv(v, start, events[..n]);
      if n > 0 {
        var rs := ReplayPrefix(v, start, events[..n]).value;
        var entry := Readmitted(v, start, rs, n, events[n]);
        JudgeIsSound(v.codec.facts, v.spec, entry.sender, entry.raw, entry.now, rs.intake);
        ReadmitKeepsKv(v, rs, entry, v.codec.facts.sha(entry.raw), events[n].sha256);
      }
    }
  }

  lemma {:induction false} RanksAreWorkers(c: FactCodec, spec: Spec, log: seq<Entry>, r: string)
    requires SendersOk(spec.senders) && Admissible(c, spec, log)
    requires r in Folded(c, log).ranks
    ensures Folded(c, log).ranks[r] <= {0, 1}
  {
    if log == [] {
    } else {
      var n := |log| - 1;
      EntryIsSound(c, spec, log, n);
      assert log[..n + 1] == log;
      EntryWasJudged(c, spec, log, n);
      if log[n].verdict.update.UploadUpdate? {
        WorkerRanks(spec, log[n].sender);
      }
      if r in Folded(c, log[..n]).ranks {
        RanksAreWorkers(c, spec, log[..n], r);
      }
    }
  }

  ghost predicate KvOrdered(spec: Spec, rs: Replay) {
    var kv, complete := Complete(rs.intake.mappings, rs.kvRanks), Complete(rs.intake.mappings, rs.intake.ranks);
    && kv <= complete <= rs.intake.mappings.Keys
    && |kv| <= |complete| <= |rs.intake.mappings| <= |PhaseMap(spec.phases)|
    && (forall r :: r in kv ==> ClosedBy(rs.admitted, Slot(r, 0)) && ClosedBy(rs.admitted, Slot(r, 1)))
  }

  lemma KvIsOrdered(c: FactCodec, spec: Spec, rs: Replay)
    requires SendersOk(spec.senders) && KvOk(rs)
    requires Admissible(c, spec, rs.admitted) && Folded(c, rs.admitted) == rs.intake
    ensures KvOrdered(spec, rs)
  {
    var kv, complete := Complete(rs.intake.mappings, rs.kvRanks), Complete(rs.intake.mappings, rs.intake.ranks);
    hide Judge, Readmit, Chained, Admissible, Folded, ClosedBy, SendersOk, Note;
    forall r | r in kv
      ensures r in complete && ClosedBy(rs.admitted, Slot(r, 0)) && ClosedBy(rs.admitted, Slot(r, 1))
    {
      assert 0 in rs.kvRanks[r] && 1 in rs.kvRanks[r];
      RanksAreWorkers(c, spec, rs.admitted, r);
      assert rs.intake.ranks[r] == {0, 1};
    }
    MappingsWithinPhases(c, spec, rs.admitted);
    SubsetCount(kv, complete);
    SubsetCount(complete, rs.intake.mappings.Keys);
  }

  // In every accepted replay of a frozen spec, KV-complete phases are complete,
  // complete phases are mapped, mapped phases are preregistered; and each
  // KV-complete runtime has, for both ranks, its projection and a later
  // matching upload in the journal.
  lemma KvCompletionOrdered(v: Verifier, events: seq<Event>, prefix: Option<Prefix>)
    requires SendersOk(v.spec.senders) && Verified(v, events, prefix).Ok?
    ensures KvOrdered(v.spec, Verified(v, events, prefix).value)
  {
    ReplayEstablishes(v, events[0].link.payload, events);
    ReplayKeepsKv(v, events[0].link.payload, events);
    KvIsOrdered(v.codec.facts, v.spec, Verified(v, events, prefix).value);
  }

  // ---------------------------------------------------------------------
  // The replay of a live journal

  function VerifierFor(site: Site): Verifier {
    Verifier(site.codec, site.spec, site.specSha, {site.source})
  }

  function EventsOf(c: Codec, links: seq<Link<Body>>): (events: seq<Event>)
    ensures |events| == |links|
    ensures forall i :: 0 <= i < |links| ==> events[i] == Seal(c, links[i])
  {
    seq(|links|, i requires 0 <= i < |links| => Seal(c, links[i]))
  }

  // The collector prints back every source path exactly as the spec lists it.
  ghost predicate NormalPaths(s: Sender) {
    ListedSources(s.sources) == FrozenSources(s.sources)
  }

  // The kernel's monotonic clock: no reading is below an earlier one.
  ghost predicate Monotone(opening: Io, calls: seq<Call>) {
    && (forall i :: 0 <= i < |calls| ==> opening.now <= calls[i].io.now)
    && (forall i, k :: 0 <= i < k < |calls| ==> calls[i].io.now <= calls[k].io.now)
  }

  ghost predicate Clocked(started: int, entries: seq<Entry>, latest: int) {
    && started <= latest
    && (forall i :: 0 <= i < |entries| ==> entries[i].now.Some? && started <= entries[i].now.value <= latest)
    && (forall i, k :: 0 <= i < k < |entries| ==> entries[i].now.value <= entries[k].now.value)
  }

  lemma StepIsClocked(site: Site, live: Live, call: Call, started: int, latest: int)
    requires Clocked(started, live.entries, latest) && started <= latest <= call.io.now
    ensures Clocked(started, AcceptStep(site, live, call).0.entries, call.io.now)
  {
    hide Judge, Landed;
  }

  lemma {:induction false} RunIsClocked(site: Site, opening: Io, calls: seq<Call>)
    requires Monotone(opening, calls)
    ensures Clocked(opening.now, Run(site, opening, calls).0.entries,
                    if calls == [] then opening.now else calls[|calls| - 1].io.now)
  {
    if calls == [] {
    } else {
      var n := |calls| - 1;
      RunIsClocked(site, opening, calls[..n]);
      hide Clocked, AcceptStep;
      StepIsClocked(site, Run(site, opening, calls[..n]).0, calls[n], opening.now,
                    if n == 0 then opening.now else calls[n - 1].io.now);
    }
  }

  ghost predicate EverClocked(started: int, entries: seq<Entry>) {
    exists latest :: Clocked(started, entries, latest)
  }

  // One live record against the replay state its predecessors left.
  lemma RecordReplays(site: Site, started: int, rs: Replay, entry: Entry, e: Event, index: nat)
    requires index > 0 && Sealed(VerifierFor(site), rs, index, e)
    requires e.link.payload == Recorded(site, entry) && Registered(site, entry)
    requires Judge(site.codec.facts, site.spec, entry.sender, entry.raw, entry.now, rs.intake) == Ok(entry.verdict)
    requires site.codec.facts.sha(entry.raw) !in rs.intake.seen
    requires entry.now.Some? && started <= entry.now.value
    requires rs.lastNs.Some? ==> rs.lastNs.value <= entry.now.value
    ensures var step := ReplayEvent(VerifierFor(site), StartBody(site, started), rs, index, e);
      if NormalPaths(entry.sender)
      then step == Ok(Readmit(rs, entry.verdict, entry, site.codec.facts.sha(entry.raw), e.sha256))
      else step == Err(ScopeDiffers)
  {
  }

  // The replay state after the start record and the first k admissions.
  ghost predicate InStep(site: Site, live: Live, started: int, k: nat, rs: Replay)
    requires k <= |live.entries| && k < |live.log.links|
  {
    && rs.admitted == live.entries[..k]
    && rs.intake == Folded(site.codec.facts, live.entries[..k])
    && rs.previous == Tip(FormatOf(site.codec), live.log.links[..k + 1])
    && rs.chronology
    && rs.lastNs == (if k == 0 then Some(started) else live.entries[k - 1].now)
  }

  lemma RecordIsSealed(site: Site, live: Live, started: int, k: nat, rs: Replay)
    requires LiveOk(site, started, live) && k < |live.entries| && InStep(site, live, started, k, rs)
    ensures Sealed(VerifierFor(site), rs, k + 1, Seal(site.codec, live.log.links[k + 1]))
  {
    ChainedAt(FormatOf(site.codec), live.log.links, k + 1);
    hide Chained;
  }

  lemma ReadmitInStep(site: Site, live: Live, started: int, k: nat, rs: Replay)
    requires |live.log.links| == 1 + |live.entries| && k < |live.entries|
    requires InStep(site, live, started, k, rs)
    requires live.entries[k].now.Some?
    requires Folded(site.codec.facts, live.entries[..k + 1])
          == Note(rs.intake, live.entries[k].verdict, site.codec.facts.sha(live.entries[k].raw))
    ensures InStep(site, live, started, k + 1,
              Readmit(rs, live.entries[k].verdict, live.entries[k], site.codec.facts.sha(live.entries[k].raw),
                      Seal(site.codec, live.log.links[k + 1]).sha256))
  {
    var entry, digest := live.entries[k], site.codec.facts.sha(live.entries[k].raw);
    var next := Seal(site.codec, live.log.links[k + 1]).sha256;
    ReadmitFields(rs, entry, digest, next);
    assert live.entries[..k + 1] == live.entries[..k] + [entry];
    TipOfPrefix(FormatOf(site.codec), live.log.links, k + 1);
  }

  lemma TipOfPrefix(f: Format<Body>, links: seq<Link<Body>>, i: nat)
    requires i < |links|
    ensures Tip(f, links[..i + 1]) == f.DigestOf(links[i])
  {
  }

  lemma NextAdmission(site: Site, live: Live, started: int, k: nat, rs: Replay)
    requires LiveOk(site, started, live)
    requires k < |live.entries| && InStep(site, live, started, k, rs)
    requires EverClocked(started, live.entries)
    ensures var e := Seal(site.codec, live.log.links[k + 1]);
      var step := ReplayEvent(VerifierFor(site), StartBody(site, started), rs, k + 1, e);
      if NormalPaths(live.entries[k].sender) then step.Ok? && InStep(site, live, started, k + 1, step.value)
      else step == Err(ScopeDiffers)
  {
    var entry, e := live.entries[k], Seal(site.codec, live.log.links[k + 1]);
    EntryWasJudged(site.codec.facts, site.spec, live.entries, k);
    RecordIsSealed(site, live, started, k, rs);
    RecordReplays(site, started, rs, entry, e, k + 1);
    ReadmitInStep(site, live, started, k, rs);
  }

  ghost predicate AllNormal(entries: seq<Entry>) {
    forall i :: 0 <= i < |entries| ==> NormalPaths(entries[i].sender)
  }

  lemma NormalFront(entries: seq<Entry>, n: nat)
    requires 0 < n <= |entries| && AllNormal(entries[..n])
    ensures AllNormal(entries[..n - 1]) && NormalPaths(entries[n - 1].sender)
  {
    assert entries[..n - 1] == entries[..n][..n - 1];
    assert entries[..n][n - 1] == entries[n - 1];
  }

  lemma StartReplays(site: Site, live: Live, started: int)
    requires LiveOk(site, started, live)
    ensures ReplayedTo(site, live, started, 0)
  {
    var v, start, events := VerifierFor(site), StartBody(site, started), EventsOf(site.codec, live.log.links);
    assert events[..1][..0] == [];
    TipOfPrefix(FormatOf(site.codec), live.log.links, 0);
    assert live.log.links[..0] == [];
    ChainedAt(FormatOf(site.codec), live.log.links, 0);
    assert ReplayPrefix(v, start, events[..1]) == ReplayEvent(v, start, Fresh(v, start), 0, events[0]);
  }

  // The replay of the first k admissions has gone through and is in step.
  ghost predicate ReplayedTo(site: Site, live: Live, started: int, k: nat)
  {
    && k <= |live.entries| && k < |live.log.links|
    && var events := EventsOf(site.codec, live.log.links);
    var rs := ReplayPrefix(VerifierFor(site), StartBody(site, started), events[..k + 1]);
    rs.Ok? && InStep(site, live, started, k, rs.value)
  }

  lemma ReplayedNext(site: Site, live: Live, started: int, k: nat)
    requires LiveOk(site, started, live) && k < |live.entries|
    requires EverClocked(started, live.entries)
    requires ReplayedTo(site, live, started, k)
    ensures if NormalPaths(live.entries[k].sender) then ReplayedTo(site, live, started, k + 1)
      else ReplayPrefix(VerifierFor(site), StartBody(site, started), EventsOf(site.codec, live.log.links)[..k + 2])
           == Err(ScopeDiffers)
  {
    var v, start, events := VerifierFor(site), StartBody(site, started), EventsOf(site.codec, live.log.links);
    hide ReplayEvent, InStep, Admissible, Folded, EverClocked, NormalPaths, Seal, Chained;
    ReplayGrows(v, start, events, k + 1);
    NextAdmission(site, live, started, k, ReplayPrefix(v, start, events[..k + 1]).value);
  }

  // The replay keeps step with the live collector, record by record, for as
  // long as the senders' paths are spelled the way the collector prints them.
  lemma {:induction false} ReplayKeepsStep(site: Site, live: Live, started: int, k: nat)
    requires LiveOk(site, started, live) && k <= |live.entries|
    requires EverClocked(started, live.entries)
    requires AllNormal(live.entries[..k])
    ensures ReplayedTo(site, live, started, k)
  {
    hide *;
    if k == 0 {
      StartReplays(site, live, started);
    } else {
      NormalFront(live.entries, k);
      ReplayKeepsStep(site, live, started, k - 1);
      ReplayedNext(site, live, started, k - 1);
    }
  }

  // An admission whose sender's paths are spelled otherwise stops the replay.
  lemma OddPathStopsReplay(site: Site, live: Live, started: int, k: nat)
    requires LiveOk(site, started, live) && k < |live.entries|
    requires EverClocked(started, live.entries)
    requires AllNormal(live.entries[..k]) && !NormalPaths(live.entries[k].sender)
    ensures ReplayPrefix(VerifierFor(site), StartBody(site, started), EventsOf(site.codec, live.log.links))
         == Err(ScopeDiffers)
  {
    var v, start, events := VerifierFor(site), StartBody(site, started), EventsOf(site.codec, live.log.links);
    hide ReplayPrefix, ReplayEvent, InStep, Clocked, NormalPaths, Seal;
    ReplayKeepsStep(site, live, started, k);
    ReplayedNext(site, live, started, k);
    ReplayFailureStays(v, start, events, k + 2);
  }

  lemma {:induction false} FirstOdd(entries: seq<Entry>) returns (k: nat)
    requires !AllNormal(entries)
    ensures k < |entries| && AllNormal(entries[..k]) && !NormalPaths(entries[k].sender)
    decreases |entries|
  {
    var n := |entries| - 1;
    if AllNormal(entries[..n]) {
      k := n;
    } else {
      k := FirstOdd(entries[..n]);
      assert entries[..n][..k] == entries[..k];
    }
  }

  lemma {:induction false} EventsParse(c: Codec, links: seq<Link<Body>>)
    requires LawfulCodec(c)
    ensures ParseAll(c, LinesOf(FormatOf(c), links)) == Some(EventsOf(c, links))
  {
    var lines, n := LinesOf(FormatOf(c), links), |links| - 1;
    if links == [] {
      assert lines == [] && EventsOf(c, links) == [];
    } else {
      EventsParse(c, links[..n]);
      assert lines[..n] == LinesOf(FormatOf(c), links[..n]);
      assert lines[n] == c.event(Seal(c, links[n]));
      assert EventsOf(c, links) == EventsOf(c, links[..n]) + [Seal(c, links[n])];
    }
  }

  // The acknowledged prefix the service publishes.
  function Published(site: Site, live: Live): Prefix {
    Prefix(|live.log.links|, Tip(FormatOf(site.codec), live.log.links))
  }

  ghost predicate Agrees(site: Site, live: Live, rs: Replay) {
    rs.intake == live.intake && rs.admitted == live.entries && rs.chronology
  }

  lemma LiveReplays(site: Site, live: Live, started: int)
    requires LiveOk(site, started, live)
    requires EverClocked(started, live.entries)
    ensures var r := Verified(VerifierFor(site), EventsOf(site.codec, live.log.links), Some(Published(site, live)));
      && (r.Ok? <==> AllNormal(live.entries))
      && (r.Ok? ==> Agrees(site, live, r.value))
  {
    hide ReplayPrefix, ReplayEvent, EverClocked, AllNormal, NormalPaths, Chained, Judge, Folded;
    var links := live.log.links;
    if AllNormal(live.entries) {
      assert live.entries[..|live.entries|] == live.entries;
      ReplayKeepsStep(site, live, started, |live.entries|);
      var events := EventsOf(site.codec, links);
      assert events[..|events|] == events && links[..|links|] == links;
    } else {
      var k := FirstOdd(live.entries);
      OddPathStopsReplay(site, live, started, k);
    }
  }

  // What the verifier concludes of a live collector's file.
  ghost predicate Concludes(site: Site, live: Live) {
    var prefix := Some(Published(site, live));
    var r := Judgement(VerifierFor(site), live.log.file, prefix);
    var replay := Verified(VerifierFor(site), EventsOf(site.codec, live.log.links), prefix);
    && (r.Ok? <==> AllNormal(live.entries))
    && (r.Ok? <==> replay.Ok?)
    && (replay.Ok? ==> Agrees(site, live, replay.value))
    && (r.Ok? ==>
          && r.value.chronology && r.value.durable
          && r.value.accepted == |live.entries|
          && r.value.mappings == |live.intake.mappings|
          && r.value.transport == Some(|Complete(live.intake.mappings, live.intake.ranks)|))
  }

  lemma LiveFileReplays(site: Site, live: Live)
    requires |live.log.links| == 1 + |live.entries|
    requires ParseAll(site.codec, SplitLines(live.log.file)) == Some(EventsOf(site.codec, live.log.links))
    requires var r := Verified(VerifierFor(site), EventsOf(site.codec, live.log.links), Some(Published(site, live)));
      && (r.Ok? <==> AllNormal(live.entries))
      && (r.Ok? ==> Agrees(site, live, r.value))
    ensures Concludes(site, live)
  {
  }

  // After any sequence of intake calls under a monotonic clock whose failed
  // append, if there was one, left nothing in the file, the verifier given the
  // published prefix accepts the file exactly when every admitted sender's
  // source paths are spelled as the collector prints them; it then holds the
  // same dictionaries as the collector and reports the chronology as verified.
  lemma LiveReplayAgreement(site: Site, opening: Io, calls: seq<Call>)
    requires LawfulCodec(site.codec) && CanOpen(site, opening) && Monotone(opening, calls)
    requires Run(site, opening, calls).0.log.disk.Intact?
    ensures Concludes(site, Run(site, opening, calls).0)
  {
    var live := Run(site, opening, calls).0;
    RunKeepsLive(site, opening, calls);
    RunIsClocked(site, opening, calls);
    assert EverClocked(opening.now, live.entries);
    FileShowsRecords(site, opening.now, live);
    EventsParse(site.codec, live.log.links);
    LiveReplays(site, live, opening.now);
    LiveFileReplays(site, live);
  }

  // ---------------------------------------------------------------------
  // A line whose sync failed

  // The same call, but for the sync.
  function Synced(call: Call): Call {
    call.(io := call.io.(synced := true))
  }

  // The line is whole but was never acknowledged.
  lemma UnsyncedIsSyncedButFor(site: Site, live: Live, call: Call)
    requires live.log.disk.Intact? && AcceptStep(site, live, call).0.log.disk.Unsynced?
    ensures var after, better := AcceptStep(site, live, call).0, AcceptStep(site, live, Synced(call)).0;
      && AcceptStep(site, live, Synced(call)).1.Some?
      && after == live.(log := after.log, failed := true) && after.log.links == live.log.links
      && better.log.file == after.log.file && better.log.disk.Intact? && !better.failed
      && |better.log.links| == |after.log.links| + 1
  {
    hide Judge, Note, Landed;
    assert Screen(site, live, Synced(call)) == Screen(site, live, call);
    var ok := Screen(site, live, call).value;
    assert BodyOf(site, Synced(call), ok) == BodyOf(site, call, ok);
  }

  lemma RefusedByPrefix(v: Verifier, events: seq<Event>, prefix: Prefix, other: Prefix)
    requires other.nextSequence != |events|
    ensures Verified(v, events, Some(other)).Err?
    ensures Verified(v, events, Some(prefix)).Ok? ==> Verified(v, events, Some(other)) == Err(PrefixDiffers)
  {
    hide ReplayPrefix;
  }

  // A file that would be accepted with the published prefix, and another one.
  lemma AnotherPrefix(site: Site, started: int, better: Live, other: Prefix)
    requires LawfulCodec(site.codec) && LiveOk(site, started, better) && better.log.disk.Intact?
    requires Concludes(site, better) && other.nextSequence != |better.log.links|
    ensures var verdict := Judgement(VerifierFor(site), better.log.file, Some(other));
      verdict.Err? && (AllNormal(better.entries) ==> verdict == Err(PrefixDiffers))
  {
    hide LiveOk, AllNormal, Agrees, Verified;
    FileShowsRecords(site, started, better);
    EventsParse(site.codec, better.log.links);
    RefusedByPrefix(VerifierFor(site), EventsOf(site.codec, better.log.links), Published(site, better), other);
  }

  // When the sync of a whole line fails, the collector stops for good and never
  // publishes that line. The verifier given what it did publish refuses the
  // file: where it would have accepted it had the sync worked, at the very end.
  lemma UnsyncedLineIsRefused(site: Site, opening: Io, calls: seq<Call>, call: Call, later: seq<Call>)
    requires LawfulCodec(site.codec) && CanOpen(site, opening) && Monotone(opening, calls + [call])
    requires !Run(site, opening, calls).0.failed
    requires Run(site, opening, calls + [call]).0.log.disk.Unsynced?
    ensures var live := Run(site, opening, calls + [call] + later).0;
      var better := Run(site, opening, calls + [Synced(call)]).0;
      && live == Run(site, opening, calls + [call]).0 && live.log.file == better.log.file
      && var verdict := Judgement(VerifierFor(site), live.log.file, Some(Published(site, live)));
         verdict.Err? && (AllNormal(better.entries) ==> verdict == Err(PrefixDiffers))
  {
    assert Monotone(opening, calls + [Synced(call)]);
    hide *;
    OneMoreCall(site, opening, calls, call);
    OneMoreCall(site, opening, calls, Synced(call));
    UnfailedIsIntact(site, opening, calls);
    RunOnlyAppends(site, opening, calls + [call] + later, |calls| + 1);
    assert (calls + [call] + later)[..|calls| + 1] == calls + [call];
    UnsyncedIsSyncedButFor(site, Run(site, opening, calls).0, call);
    LiveReplayAgreement(site, opening, calls + [Synced(call)]);
    RunKeepsLive(site, opening, calls + [Synced(call)]);
    PublishedCounts(site, Run(site, opening, calls + [call]).0);
    AnotherPrefix(site, opening.now, Run(site, opening, calls + [Synced(call)]).0,
                  Published(site, Run(site, opening, calls + [call]).0));
  }

  lemma PublishedCounts(site: Site, live: Live)
    ensures Published(site, live).nextSequence == |live.log.links|
  {
  }

  lemma UnfailedIsIntact(site: Site, opening: Io, calls: seq<Call>)
    requires CanOpen(site, opening) && !Run(site, opening, calls).0.failed
    ensures Run(site, opening, calls).0.log.disk.Intact?
  {
    RunKeepsLive(site, opening, calls);
    hide Run;
  }

  lemma OneMoreCall(site: Site, opening: Io, calls: seq<Call>, call: Call)
    ensures Run(site, opening, calls + [call]).0 == AcceptStep(site, Run(site, opening, calls).0, call).0
  {
    RunStep(site, opening, calls + [call], |calls|);
    assert (calls + [call])[..|calls|] == calls && (calls + [call])[..|calls| + 1] == calls + [call];
  }
}
