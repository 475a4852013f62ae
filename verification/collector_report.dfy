/**
 What the verifier's verdict and report say of the records: acceptance and
 every number in the report, spelled out on the journal and not on the
 dictionaries that the replay keeps.
 */
module CollectorReport {
  import opened Wrappers
  import opened JournalBytes
  import opened CollectorFacts
  import opened CollectorHistory
  import opened CollectorWelcome
  import opened Collector
  import opened CollectorRuns
  import opened CollectorReplay

  // ---------------------------------------------------------------------
  // An acceptable journal

  predicate NoLater(log: seq<Entry>, x: int) {
    forall i :: 0 <= i < |log| && log[i].now.Some? ==> log[i].now.value <= x
  }

  // Record b readmits entry e behind the entries before: its sender's identity
  // and sources, the one raw fact with its digest, not seen before, a clock that
  // does not run backwards, and a fact that is welcome and joined as recorded.
  ghost predicate Readmits(v: Verifier, start: Body, before: seq<Entry>, b: Body, e: Entry)
    requires start.Start?
  {
    var senders := SenderMap(v.spec.senders);
    && b.Accepted? && b.peer.pid in senders && e.sender == senders[b.peer.pid]
    && b.peer.uid == e.sender.uid && b.peer.gid == e.sender.gid && b.process == e.sender.process.kernel
    && b.sources == ListedSources(e.sender.sources) && b.archive == start.archive
    && e.raw == b.raw && b.rawSha == v.codec.facts.sha(b.raw)
    && (forall i: nat :: i < |before| ==> v.codec.facts.sha(before[i].raw) != b.rawSha)
    && e.now == b.now
    && (b.now.Some? ==>
          start.startedNs.Some? && start.startedNs.value <= b.now.value && NoLater(before, b.now.value))
    && Welcome(v.codec.facts, v.spec, before, e.sender, b.raw, b.now, e.verdict.fact)
    && Joins(v.spec, before, e.verdict.fact, e.verdict.phase) && Kind(e.verdict, e.sender)
    && b.phase == e.verdict.phase && b.runtime == e.verdict.fact.common.runtime
  }

  // The entries that the records behind the start readmit.
  ghost predicate Told(v: Verifier, start: Body, events: seq<Event>, log: seq<Entry>)
    requires start.Start?
  {
    && |log| == (if events == [] then 0 else |events| - 1)
    && forall k :: 1 <= k < |events| ==> Readmits(v, start, log[..k - 1], events[k].link.payload, log[k - 1])
  }

  predicate InChain(v: Verifier, events: seq<Event>, k: nat)
    requires k < |events|
  {
    && events[k].link.sequence == k
    && events[k].link.previous == (if k == 0 then Zero() else events[k - 1].sha256)
    && events[k].sha256 == v.codec.facts.sha(v.codec.core(events[k].link))
  }

  ghost predicate Linked(v: Verifier, events: seq<Event>) {
    forall k: nat :: k < |events| ==> InChain(v, events, k)
  }

  ghost predicate Acceptable(v: Verifier, events: seq<Event>, prefix: Option<Prefix>) {
    && events != [] && events[0].link.payload.Start?
    && events[0].link.payload.specSha == v.specSha && events[0].link.payload.source in v.sources
    && Linked(v, events)
    && (exists log :: Told(v, events[0].link.payload, events, log))
    && (prefix.Some? ==>
          prefix.value.nextSequence == |events| && prefix.value.last == events[|events| - 1].sha256)
  }

  // ---------------------------------------------------------------------
  // The replay in step with the journal

  predicate ClockTells(start: Body, log: seq<Entry>, last: Option<int>, x: int)
    requires start.Start?
  {
    start.startedNs.Some? ==>
      last.Some? && (last.value <= x <==> start.startedNs.value <= x && NoLater(log, x))
  }

  ghost predicate Stands(v: Verifier, start: Body, log: seq<Entry>, rs: Replay)
    requires start.Start?
  {
    && rs.admitted == log && Admissible(v.codec.facts, v.spec, log) && rs.intake == Folded(v.codec.facts, log)
    && (forall x: int :: ClockTells(start, log, rs.lastNs, x))
    && (start.startedNs.None? ==> forall i :: 0 <= i < |log| ==> log[i].now.None?)
  }

  // What one record does to a replay in step.
  lemma ReadmittingStep(v: Verifier, start: Body, log: seq<Entry>, rs: Replay, index: nat, e: Event, entry: Entry)
    requires start.Start? && Stands(v, start, log, rs) && index > 0 && Sealed(v, rs, index, e)
    requires Readmits(v, start, log, e.link.payload, entry)
    ensures ReplayEvent(v, start, rs, index, e)
         == Ok(Readmit(rs, entry.verdict, entry, v.codec.facts.sha(entry.raw), e.sha256))
    ensures Admissible(v.codec.facts, v.spec, log + [entry])
    ensures Folded(v.codec.facts, log + [entry]) == Note(rs.intake, entry.verdict, v.codec.facts.sha(entry.raw))
  {
    var b, c := e.link.payload, v.codec.facts;
    SenderMapPids(v.spec.senders);
    hide SenderMap, Admissible, Folded, Readmit, Note, ListedSources;
    SeenExactly(c, v.spec, log, b.rawSha);
    WelcomeExactly(c, v.spec, log, entry.sender, b.raw, b.now);
    var judged := Judge(c, v.spec, entry.sender, b.raw, b.now, rs.intake).value;
    SameVerdict(c, v.spec, log, judged, entry.verdict, entry.sender);
    hide Judge, Welcome, Joins;
    AdmissibleExtend(c, v.spec, log, entry);
    if b.now.Some? {
      assert ClockTells(start, log, rs.lastNs, b.now.value);
    }
  }

  // Fact, phase and kind leave no choice.
  lemma SameVerdict(c: FactCodec, spec: Spec, log: seq<Entry>, v: Verdict, w: Verdict, sender: Sender)
    requires Admissible(c, spec, log) && v.fact == w.fact && Kind(v, sender) && Kind(w, sender)
    requires Joins(spec, log, v.fact, v.phase) && Joins(spec, log, w.fact, w.phase)
    ensures v == w
  {
    HistoryTells(c, spec, log);
    hide Admissible, Folded;
    MappedTells(Folded(c, log), log, v.fact.common.runtime);
    hide Tells;
  }

  lemma ReplayedStep(v: Verifier, start: Body, log: seq<Entry>, rs: Replay, index: nat, e: Event) returns (entry: Entry)
    requires start.Start? && Stands(v, start, log, rs) && index > 0
    requires ReplayEvent(v, start, rs, index, e).Ok?
    ensures Sealed(v, rs, index, e) && Readmits(v, start, log, e.link.payload, entry)
  {
    var b, c := e.link.payload, v.codec.facts;
    var sender := SenderMap(v.spec.senders)[b.peer.pid];
    var verdict := Judge(c, v.spec, sender, b.raw, b.now, rs.intake).value;
    entry := Entry(b.raw, sender, b.now, verdict);
    hide SenderMap, Admissible, Folded, Readmit, ListedSources;
    SeenExactly(c, v.spec, log, b.rawSha);
    WelcomeExactly(c, v.spec, log, sender, b.raw, b.now);
    hide Judge, Joins, Kind, New;
    if b.now.Some? {
      assert ClockTells(start, log, rs.lastNs, b.now.value);
    }
  }

  lemma LaterClock(start: Body, log: seq<Entry>, last: Option<int>, e: Entry, x: int)
    requires start.Start? && (forall y: int :: ClockTells(start, log, last, y))
    requires e.now.Some? ==>
      start.startedNs.Some? && start.startedNs.value <= e.now.value && NoLater(log, e.now.value)
    ensures ClockTells(start, log + [e], if e.now.Some? then e.now else last, x)
  {
    var longer := log + [e];
    assert longer[|log|] == e && forall i :: 0 <= i < |log| ==> longer[i] == log[i];
    assert ClockTells(start, log, last, x);
    assert NoLater(longer, x) <==> NoLater(log, x) && (e.now.Some? ==> e.now.value <= x);
  }

  lemma StandsNext(v: Verifier, start: Body, log: seq<Entry>, rs: Replay, b: Body, entry: Entry, next: Digest)
    requires start.Start? && Stands(v, start, log, rs) && Readmits(v, start, log, b, entry)
    requires Admissible(v.codec.facts, v.spec, log + [entry])
    requires Folded(v.codec.facts, log + [entry]) == Note(rs.intake, entry.verdict, v.codec.facts.sha(entry.raw))
    ensures var after := Readmit(rs, entry.verdict, entry, v.codec.facts.sha(entry.raw), next);
      Stands(v, start, log + [entry], after) && after.previous == next
  {
    hide Admissible, Folded, Note, SenderMap, Welcome, Joins, Kind, ListedSources;
    var after := Readmit(rs, entry.verdict, entry, v.codec.facts.sha(entry.raw), next);
    assert after.lastNs == if entry.now.Some? then entry.now else rs.lastNs;
    forall x: int ensures ClockTells(start, log + [entry], after.lastNs, x) {
      LaterClock(start, log, rs.lastNs, entry, x);
    }
  }

  // What a replay has come to after these events.
  ghost predicate InStep(v: Verifier, start: Body, events: seq<Event>, log: seq<Entry>, rs: Replay)
    requires start.Start?
  {
    && Stands(v, start, log, rs) && Told(v, start, events, log)
    && Linked(v, events)
    && rs.previous == (if events == [] then Zero() else events[|events| - 1].sha256)
  }

  lemma FreshInStep(v: Verifier, start: Body)
    requires start.Start?
    ensures InStep(v, start, [], [], Fresh(v, start))
  {
    var none: seq<Entry> := [];
    assert forall x: int :: NoLater(none, x);
  }

  // One more event, as the replay goes on.
  lemma PrefixGrows(v: Verifier, start: Body, events: seq<Event>)
    requires start.Start? && events != []
    ensures var front := ReplayPrefix(v, start, events[..|events| - 1]);
      ReplayPrefix(v, start, events)
      == if front.Err? then front else ReplayEvent(v, start, front.value, |events| - 1, events[|events| - 1])
  {
  }

  lemma ToldSplits(v: Verifier, start: Body, events: seq<Event>, log: seq<Entry>)
    requires start.Start? && Told(v, start, events, log) && |events| > 1
    ensures Told(v, start, events[..|events| - 1], log[..|log| - 1])
    ensures Readmits(v, start, log[..|log| - 1], events[|events| - 1].link.payload, log[|log| - 1])
  {
    var front, short := events[..|events| - 1], log[..|log| - 1];
    hide Readmits;
    forall k | 1 <= k < |front| ensures Readmits(v, start, short[..k - 1], front[k].link.payload, short[k - 1]) {
      assert short[..k - 1] == log[..k - 1];
    }
  }

  lemma ToldGrows(v: Verifier, start: Body, events: seq<Event>, log: seq<Entry>, e: Event, entry: Entry)
    requires start.Start? && Told(v, start, events, log) && events != []
    requires Readmits(v, start, log, e.link.payload, entry)
    ensures Told(v, start, events + [e], log + [entry])
  {
    var more, longer := events + [e], log + [entry];
    hide Readmits;
    forall k | 1 <= k < |more| ensures Readmits(v, start, longer[..k - 1], more[k].link.payload, longer[k - 1]) {
      if k < |events| {
        assert longer[..k - 1] == log[..k - 1];
      } else {
        assert longer[..k - 1] == log;
      }
    }
  }

  lemma ChainGrows(v: Verifier, events: seq<Event>, e: Event, previous: Digest)
    requires Linked(v, events)
    requires previous == (if events == [] then Zero() else events[|events| - 1].sha256)
    ensures Linked(v, events + [e])
      <==> e.link.sequence == |events| && e.link.previous == previous
           && e.sha256 == v.codec.facts.sha(v.codec.core(e.link))
  {
    var more, n := events + [e], |events|;
    assert more[n] == e && forall k :: 0 <= k < n ==> more[k] == events[k];
    forall k: nat | k < n ensures InChain(v, more, k) {
      assert InChain(v, events, k);
    }
    assert InChain(v, more, n)
      <==> e.link.sequence == n && e.link.previous == previous
           && e.sha256 == v.codec.facts.sha(v.codec.core(e.link));
  }

  lemma StandsAdmits(v: Verifier, start: Body, log: seq<Entry>, rs: Replay)
    requires start.Start? && Stands(v, start, log, rs)
    ensures rs.admitted == log
  {
  }

  // One more event of either kind.
  lemma FirstInStep(v: Verifier, start: Body, before: Replay, e: Event)
    requires start.Start? && InStep(v, start, [], before.admitted, before)
    requires ReplayEvent(v, start, before, 0, e).Ok?
    ensures var rs := ReplayEvent(v, start, before, 0, e).value;
      InStep(v, start, [e], rs.admitted, rs)
  {
    hide Stands;
    var rs := before.(previous := e.sha256);
    assert ReplayEvent(v, start, before, 0, e) == Ok(rs);
    hide ReplayEvent;
    ChainGrows(v, [], e, before.previous);
    assert [] + [e] == [e];
    PreviousAside(v, start, before.admitted, before, e.sha256);
  }

  lemma PreviousAside(v: Verifier, start: Body, log: seq<Entry>, rs: Replay, next: Digest)
    requires start.Start? && Stands(v, start, log, rs)
    ensures Stands(v, start, log, rs.(previous := next))
  {
    hide Admissible, Folded;
  }

  lemma NextInStep(v: Verifier, start: Body, front: seq<Event>, before: Replay, e: Event)
    requires start.Start? && front != [] && InStep(v, start, front, before.admitted, before)
    requires ReplayEvent(v, start, before, |front|, e).Ok?
    ensures var rs := ReplayEvent(v, start, before, |front|, e).value;
      InStep(v, start, front + [e], rs.admitted, rs)
  {
    hide Stands, Told, Readmits, Readmit, InChain, ReplayEvent;
    var entry := ReplayedStep(v, start, before.admitted, before, |front|, e);
    ReadmittingStep(v, start, before.admitted, before, |front|, e, entry);
    StandsNext(v, start, before.admitted, before, e.link.payload, entry, e.sha256);
    StandsAdmits(v, start, before.admitted + [entry], ReplayEvent(v, start, before, |front|, e).value);
    ToldGrows(v, start, front, before.admitted, e, entry);
    ChainGrows(v, front, e, before.previous);
  }

  // A replay that goes through has found a chain and told its entries.
  lemma {:induction false} ReplayTells(v: Verifier, start: Body, events: seq<Event>)
    requires start.Start? && ReplayPrefix(v, start, events).Ok?
    ensures var rs := ReplayPrefix(v, start, events).value;
      InStep(v, start, events, rs.admitted, rs)
    decreases |events|
  {
    hide InStep, ReplayEvent;
    if events == [] {
      FreshInStep(v, start);
    } else {
      var front, e := events[..|events| - 1], events[|events| - 1];
      PrefixGrows(v, start, events);
      hide ReplayPrefix;
      ReplayTells(v, start, front);
      assert events == front + [e];
      if front == [] {
        FirstInStep(v, start, ReplayPrefix(v, start, front).value, e);
      } else {
        NextInStep(v, start, front, ReplayPrefix(v, start, front).value, e);
      }
    }
  }

  lemma LinkedFront(v: Verifier, events: seq<Event>)
    requires Linked(v, events) && events != []
    ensures Linked(v, events[..|events| - 1])
  {
    var front := events[..|events| - 1];
    forall k: nat | k < |front| ensures InChain(v, front, k) {
      assert InChain(v, events, k);
    }
  }

  // And a chain whose entries are told is replayed to its end.
  lemma {:induction false} ToldReplays(v: Verifier, start: Body, events: seq<Event>, log: seq<Entry>)
    requires start.Start? && Told(v, start, events, log) && Linked(v, events)
    ensures ReplayPrefix(v, start, events).Ok? && ReplayPrefix(v, start, events).value.admitted == log
    decreases |events|
  {
    hide ReplayEvent, InChain, Readmits;
    if events == [] {
    } else {
      var front, e := events[..|events| - 1], events[|events| - 1];
      PrefixGrows(v, start, events);
      LinkedFront(v, events);
      hide ReplayPrefix;
      if front == [] {
        assert Told(v, start, front, log);
        ToldReplays(v, start, front, log);
        FirstReplays(v, start, events);
      } else {
        ToldSplits(v, start, events, log);
        ToldReplays(v, start, front, log[..|log| - 1]);
        LastReplays(v, start, front, ReplayPrefix(v, start, front).value, events, log);
      }
    }
  }

  lemma FirstReplays(v: Verifier, start: Body, events: seq<Event>)
    requires start.Start? && |events| == 1 && Linked(v, events)
    ensures var before := ReplayPrefix(v, start, events[..0]);
      before.Ok? && ReplayEvent(v, start, before.value, 0, events[0]) == Ok(before.value.(previous := events[0].sha256))
  {
    assert InChain(v, events, 0);
  }

  lemma LastReplays(v: Verifier, start: Body, front: seq<Event>, before: Replay, events: seq<Event>, log: seq<Entry>)
    requires start.Start? && |events| > 1 && front == events[..|events| - 1] && log != [] && Linked(v, events)
    requires ReplayPrefix(v, start, front) == Ok(before) && before.admitted == log[..|log| - 1]
    requires Readmits(v, start, log[..|log| - 1], events[|events| - 1].link.payload, log[|log| - 1])
    ensures var step := ReplayEvent(v, start, before, |front|, events[|events| - 1]);
      step.Ok? && step.value.admitted == log
  {
    var e, entry := events[|events| - 1], log[|log| - 1];
    hide ReplayPrefix, Stands, Readmits, ReplayEvent, Readmit, Linked, Sealed;
    Snoc(log);
    LastSealed(v, start, front, before, events);
    ReadmittingStep(v, start, before.admitted, before, |front|, e, entry);
    ReadmitAdmits(before, entry, v.codec.facts.sha(entry.raw), e.sha256);
  }

  lemma Snoc<T>(s: seq<T>)
    requires s != []
    ensures s == s[..|s| - 1] + [s[|s| - 1]]
  {
  }

  lemma LastSealed(v: Verifier, start: Body, front: seq<Event>, before: Replay, events: seq<Event>)
    requires start.Start? && |events| > 1 && front == events[..|events| - 1] && Linked(v, events)
    requires ReplayPrefix(v, start, front) == Ok(before)
    ensures Stands(v, start, before.admitted, before) && Sealed(v, before, |front|, events[|events| - 1])
  {
    ReplayTells(v, start, front);
    hide ReplayPrefix, Stands, Told;
    assert InChain(v, events, |events| - 1);
    assert front[|front| - 1] == events[|events| - 2];
  }

  lemma ReadmitAdmits(rs: Replay, entry: Entry, digest: Digest, next: Digest)
    ensures Readmit(rs, entry.verdict, entry, digest, next).admitted == rs.admitted + [entry]
  {
  }

  // The verifier accepts exactly the acceptable journals, and readmits their
  // entries.
  lemma AcceptsExactly(v: Verifier, events: seq<Event>, prefix: Option<Prefix>)
    ensures Verified(v, events, prefix).Ok? <==> Acceptable(v, events, prefix)
    ensures Verified(v, events, prefix).Ok? ==>
      Told(v, events[0].link.payload, events, Verified(v, events, prefix).value.admitted)
    ensures forall log :: Acceptable(v, events, prefix) && Told(v, events[0].link.payload, events, log) ==>
      Verified(v, events, prefix).value.admitted == log
  {
    if events != [] && events[0].link.payload.Start? {
      var start := events[0].link.payload;
      hide ReplayPrefix, Told, Stands, Linked;
      if ReplayPrefix(v, start, events).Ok? {
        ReplayTells(v, start, events);
      }
      if Linked(v, events) {
        forall log | Told(v, start, events, log)
          ensures ReplayPrefix(v, start, events).Ok? && ReplayPrefix(v, start, events).value.admitted == log
        {
          ToldReplays(v, start, events, log);
        }
      }
    }
  }

  // ---------------------------------------------------------------------
  // The numbers in the report

  ghost function Mapped(log: seq<Entry>): set<string> {
    set i | 0 <= i < |log| && log[i].verdict.fact.Mapping? :: log[i].verdict.fact.common.runtime
  }

  ghost predicate Uploaded(log: seq<Entry>, r: string, k: int) {
    exists j: nat :: j < |log| && Uploads(log[j], r, k)
  }

  // The upload answers the projection: the same process, runtime, launch and
  // plan, neither stamp before the projection, and a row of its group whose
  // blocks begin with the projected ones.
  predicate Answers(p: Fact, u: Fact)
    requires p.Projection? && u.Upload?
  {
    && u.common.process == p.common.process && u.common.runtime == p.common.runtime
    && u.common.launchId == p.common.launchId && u.common.planId == p.common.planId
    && p.common.stamp <= u.common.stamp && p.common.stamp <= u.after
    && exists i :: 0 <= i < |u.rows| && u.rows[i].group == p.txn.attentionGroup
                   && Begins(u.rows[i].blocks, p.txn.hostBlocks)
  }

  predicate Begins(blocks: seq<int>, with: seq<int>) {
    |with| <= |blocks| && forall k :: 0 <= k < |with| ==> blocks[k] == with[k]
  }

  // Entry j uploads what entry i, before it, has projected.
  predicate Pairs(log: seq<Entry>, i: nat, j: nat, r: string, k: int) {
    && i < j < |log| && Projects(log[i], r, k) && Uploads(log[j], r, k)
    && Answers(log[i].verdict.fact, log[j].verdict.fact)
  }

  ghost predicate Closed(log: seq<Entry>, r: string, k: int) {
    exists i: nat, j: nat :: Pairs(log, i, j, r, k)
  }

  // Mapped runtimes for which exactly the ranks 0 and 1 have uploaded; have
  // uploaded what they had projected.
  ghost function Observed(log: seq<Entry>): set<string> {
    set r | r in Mapped(log) && forall k: int :: Uploaded(log, r, k) <==> k == 0 || k == 1
  }

  ghost function KvComplete(log: seq<Entry>): set<string> {
    set r | r in Mapped(log) && forall k: int :: Closed(log, r, k) <==> k == 0 || k == 1
  }

  ghost predicate RanksTell(ranks: map<string, set<int>>, log: seq<Entry>) {
    forall r, k :: RankTells(ranks, log, r, k)
  }

  ghost predicate RankTells(ranks: map<string, set<int>>, log: seq<Entry>, r: string, k: int) {
    k in Get(ranks, r, {}) <==> Uploaded(log, r, k)
  }

  ghost predicate KvTells(ranks: map<string, set<int>>, log: seq<Entry>, r: string, k: int) {
    k in Get(ranks, r, {}) <==> Closed(log, r, k)
  }

  predicate Listed(projections: map<Slot, seq<Fact>>, r: string, k: int, f: Fact) {
    Slot(r, k) in projections && f in projections[Slot(r, k)]
  }

  ghost predicate Projected(log: seq<Entry>, r: string, k: int, f: Fact) {
    exists i: nat :: i < |log| && Projects(log[i], r, k) && log[i].verdict.fact == f
  }

  ghost predicate Counts(rs: Replay, log: seq<Entry>) {
    && RanksTell(rs.intake.ranks, log)
    && (forall r, k :: KvTells(rs.kvRanks, log, r, k))
    && (forall r, k, f :: Listed(rs.projections, r, k, f) <==> Projected(log, r, k, f))
  }

  lemma UploadedGrows(log: seq<Entry>, e: Entry, r: string, k: int)
    ensures Uploaded(log + [e], r, k) <==> Uploaded(log, r, k) || Uploads(e, r, k)
  {
    var longer := log + [e];
    assert longer[|log|] == e && forall i: nat :: i < |log| ==> longer[i] == log[i];
  }

  lemma ProjectedGrows(log: seq<Entry>, e: Entry, r: string, k: int, f: Fact)
    ensures Projected(log + [e], r, k, f)
      <==> Projected(log, r, k, f) || (Projects(e, r, k) && e.verdict.fact == f)
  {
    var longer := log + [e];
    assert longer[|log|] == e && forall i: nat :: i < |log| ==> longer[i] == log[i];
  }

  // Entry e uploads what some entry has projected.
  ghost predicate ClosesNow(log: seq<Entry>, e: Entry, r: string, k: int) {
    Uploads(e, r, k)
    && exists i: nat :: i < |log| && Projects(log[i], r, k) && Answers(log[i].verdict.fact, e.verdict.fact)
  }

  lemma ClosedGrows(log: seq<Entry>, e: Entry, r: string, k: int)
    ensures Closed(log + [e], r, k) <==> Closed(log, r, k) || ClosesNow(log, e, r, k)
  {
    var longer, n := log + [e], |log|;
    assert longer[n] == e && forall i: nat :: i < n ==> longer[i] == log[i];
    hide Answers;
    if Closed(longer, r, k) {
      var i: nat, j: nat :| Pairs(longer, i, j, r, k);
      assert j < n ==> Pairs(log, i, j, r, k);
      assert j == n ==> Projects(log[i], r, k) && Answers(log[i].verdict.fact, e.verdict.fact);
    }
    if Closed(log, r, k) {
      var i: nat, j: nat :| Pairs(log, i, j, r, k);
      assert Pairs(longer, i, j, r, k);
    }
    if ClosesNow(log, e, r, k) {
      var i: nat :| i < n && Projects(log[i], r, k) && Answers(log[i].verdict.fact, e.verdict.fact);
      assert Pairs(longer, i, n, r, k);
    }
  }

  lemma MatchIsAnswer(p: Fact, u: Fact)
    requires p.Projection? && u.Upload?
    ensures UploadMatches(p, u) <==> Answers(p, u)
  {
    assert forall i :: 0 <= i < |u.rows| ==>
      (p.txn.hostBlocks <= u.rows[i].blocks <==> Begins(u.rows[i].blocks, p.txn.hostBlocks));
  }

  // An upload closes its slot in the replay's dictionaries exactly if it closes
  // it in the history.
  lemma ClosesTell(rs: Replay, log: seq<Entry>, e: Entry, r: string, k: int)
    requires Counts(rs, log) && Uploads(e, r, k)
    ensures CollectorReplay.Closes(rs.projections, Slot(r, k), e.verdict.fact) <==> ClosesNow(log, e, r, k)
  {
    var u := e.verdict.fact;
    hide Answers, UploadMatches;
    if CollectorReplay.Closes(rs.projections, Slot(r, k), u) {
      var list := rs.projections[Slot(r, k)];
      var n :| 0 <= n < |list| && list[n].Projection? && UploadMatches(list[n], u);
      assert Listed(rs.projections, r, k, list[n]);
      assert Projected(log, r, k, list[n]);
      MatchIsAnswer(list[n], u);
    }
    if ClosesNow(log, e, r, k) {
      var i: nat :| i < |log| && Projects(log[i], r, k) && Answers(log[i].verdict.fact, u);
      var p := log[i].verdict.fact;
      assert Projected(log, r, k, p);
      assert Listed(rs.projections, r, k, p);
      MatchIsAnswer(p, u);
    }
  }

  // What readmitting changes, by the kind of the fact.
  lemma ReadmitByKind(rs: Replay, e: Entry, digest: Digest, next: Digest)
    requires Kind(e.verdict, e.sender)
    ensures var after, f := Readmit(rs, e.verdict, e, digest, next), e.verdict.fact;
      var r, k := f.common.runtime, e.sender.process.ordinal;
      && after.projections
         == (if f.Projection? then rs.projections[Slot(r, k) := Get(rs.projections, Slot(r, k), []) + [f]]
             else rs.projections)
      && after.kvRanks
         == (if f.Upload? && CollectorReplay.Closes(rs.projections, Slot(r, k), f)
             then rs.kvRanks[r := Get(rs.kvRanks, r, {}) + {k}] else rs.kvRanks)
      && after.intake.ranks
         == (if f.Upload? then rs.intake.ranks[r := Get(rs.intake.ranks, r, {}) + {k}] else rs.intake.ranks)
      && after.chronology == (rs.chronology && e.now.Some?)
  {
    hide CollectorReplay.Closes;
  }

  lemma ReadmitCounts(rs: Replay, log: seq<Entry>, e: Entry, digest: Digest, next: Digest)
    requires Counts(rs, log) && Kind(e.verdict, e.sender)
    ensures Counts(Readmit(rs, e.verdict, e, digest, next), log + [e])
  {
    var after, longer := Readmit(rs, e.verdict, e, digest, next), log + [e];
    ReadmitByKind(rs, e, digest, next);
    hide Readmit, Kind, Uploaded, Closed, Projected, CollectorReplay.Closes, ClosesNow;
    forall r, k ensures RankTells(after.intake.ranks, longer, r, k) {
      UploadedGrows(log, e, r, k);
      assert RankTells(rs.intake.ranks, log, r, k);
    }
    forall r, k ensures KvTells(after.kvRanks, longer, r, k) {
      ClosedGrows(log, e, r, k);
      assert KvTells(rs.kvRanks, log, r, k);
      if Uploads(e, r, k) {
        ClosesTell(rs, log, e, r, k);
      } else {
        NotClosedNow(log, e, r, k);
      }
    }
    forall r, k, f ensures Listed(after.projections, r, k, f) <==> Projected(longer, r, k, f) {
      ProjectedGrows(log, e, r, k, f);
      assert Listed(rs.projections, r, k, f) <==> Projected(log, r, k, f);
    }
  }

  lemma NotClosedNow(log: seq<Entry>, e: Entry, r: string, k: int)
    requires !Uploads(e, r, k)
    ensures !ClosesNow(log, e, r, k)
  {
  }

  // Every record carries its accept time, and the start says it would.
  predicate Timed(v: Verifier, start: Body, log: seq<Entry>)
    requires start.Start?
  {
    && start.tag == (if v.spec.schema == KvSpecV2 then IntakeV3 else IntakeV2) && start.startedNs.Some?
    && forall i :: 0 <= i < |log| ==> log[i].now.Some?
  }

  lemma FreshCounts(v: Verifier, start: Body)
    requires start.Start?
    ensures Counts(Fresh(v, start), []) && (Fresh(v, start).chronology <==> Timed(v, start, []))
  {
    var none: seq<Entry> := [];
    assert EMPTY_INTAKE.ranks == map[];
    assert forall r, k :: RankTells(EMPTY_INTAKE.ranks, none, r, k);
    assert forall r, k :: KvTells(map[], none, r, k);
  }

  lemma NextCounts(v: Verifier, start: Body, front: seq<Event>, before: Replay, e: Event)
    requires start.Start? && front != [] && InStep(v, start, front, before.admitted, before)
    requires Counts(before, before.admitted) && (before.chronology <==> Timed(v, start, before.admitted))
    requires ReplayEvent(v, start, before, |front|, e).Ok?
    ensures var rs := ReplayEvent(v, start, before, |front|, e).value;
      Counts(rs, rs.admitted) && (rs.chronology <==> Timed(v, start, rs.admitted))
  {
    hide Stands, Told, Readmit, ReplayEvent, Counts, Linked, Welcome, Joins, Kind, SenderMap, ListedSources;
    var entry := ReplayedStep(v, start, before.admitted, before, |front|, e);
    ReadmittingStep(v, start, before.admitted, before, |front|, e, entry);
    var digest := v.codec.facts.sha(entry.raw);
    ReadmitCounts(before, before.admitted, entry, digest, e.sha256);
    ReadmitAdmits(before, entry, digest, e.sha256);
    ReadmitByKind(before, entry, digest, e.sha256);
    var longer := before.admitted + [entry];
    assert longer[|before.admitted|] == entry;
    assert forall i :: 0 <= i < |before.admitted| ==> longer[i] == before.admitted[i];
  }

  lemma {:induction false} ReplayCounts(v: Verifier, start: Body, events: seq<Event>)
    requires start.Start? && ReplayPrefix(v, start, events).Ok?
    ensures var rs := ReplayPrefix(v, start, events).value;
      Counts(rs, rs.admitted) && (rs.chronology <==> Timed(v, start, rs.admitted))
    decreases |events|
  {
    hide InStep, ReplayEvent, Counts, Timed;
    if events == [] {
      FreshCounts(v, start);
    } else {
      var front, e := events[..|events| - 1], events[|events| - 1];
      PrefixGrows(v, start, events);
      hide ReplayPrefix;
      ReplayCounts(v, start, front);
      ReplayTells(v, start, front);
      if front == [] {
        FirstCounts(v, start, ReplayPrefix(v, start, front).value, e);
      } else {
        NextCounts(v, start, front, ReplayPrefix(v, start, front).value, e);
      }
    }
  }

  lemma FirstCounts(v: Verifier, start: Body, before: Replay, e: Event)
    requires start.Start? && Counts(before, before.admitted)
    requires ReplayEvent(v, start, before, 0, e).Ok?
    ensures var rs := ReplayEvent(v, start, before, 0, e).value;
      Counts(rs, rs.admitted) && rs.admitted == before.admitted && rs.chronology == before.chronology
  {
  }

  // The report, number by number.
  ghost predicate ReportTells(v: Verifier, start: Body, log: seq<Entry>, prefix: Option<Prefix>, report: Report)
    requires start.Start?
  {
    && report.accepted == |log| && report.mappings == |Mapped(log)| && report.observed == |Observed(log)|
    && report.chronology == Timed(v, start, log) && report.durable == prefix.Some?
    && report.transport == (if prefix.Some? && Timed(v, start, log) then Some(|Observed(log)|) else None)
    && report.kvComplete
       == (if prefix.Some? && Timed(v, start, log) && v.spec.schema != PlainSpec then Some(|KvComplete(log)|) else None)
    && report.expectedPhases == |set p | p in v.spec.phases :: p.externalId|
  }

  lemma {:induction false} PhaseMapIds(phases: seq<Phase>)
    ensures PhaseMap(phases).Keys == set p | p in phases :: p.externalId
  {
    if phases == [] {
    } else {
      var front, last := phases[..|phases| - 1], phases[|phases| - 1];
      PhaseMapIds(front);
      assert phases == front + [last];
      assert (set p | p in phases :: p.externalId) == (set p | p in front :: p.externalId) + {last.externalId};
    }
  }

  lemma MappedKeys(c: FactCodec, spec: Spec, log: seq<Entry>)
    requires Admissible(c, spec, log)
    ensures Folded(c, log).mappings.Keys == Mapped(log)
  {
    HistoryTells(c, spec, log);
    hide Admissible, Folded;
    var st := Folded(c, log);
    forall r ensures r in st.mappings <==> r in Mapped(log) {
      MappedTells(st, log, r);
    }
  }

  lemma BothRanks(ranks: map<string, set<int>>, r: string)
    ensures TwoRanks(ranks, r) <==> forall k: int :: k in Get(ranks, r, {}) <==> k == 0 || k == 1
  {
    var s := Get(ranks, r, {});
    if forall k: int :: k in s <==> k == 0 || k == 1 {
      assert s == {0, 1};
    }
  }

  lemma CompletesTell(rs: Replay, log: seq<Entry>)
    requires Counts(rs, log) && rs.intake.mappings.Keys == Mapped(log)
    ensures Complete(rs.intake.mappings, rs.intake.ranks) == Observed(log)
    ensures Complete(rs.intake.mappings, rs.kvRanks) == KvComplete(log)
  {
    hide Uploaded, Closed, TwoRanks;
    forall r ensures TwoRanks(rs.intake.ranks, r) <==> forall k: int :: Uploaded(log, r, k) <==> k == 0 || k == 1 {
      BothUploaded(rs, log, r);
    }
    forall r ensures TwoRanks(rs.kvRanks, r) <==> forall k: int :: Closed(log, r, k) <==> k == 0 || k == 1 {
      BothClosed(rs, log, r);
    }
  }

  lemma BothUploaded(rs: Replay, log: seq<Entry>, r: string)
    requires Counts(rs, log)
    ensures TwoRanks(rs.intake.ranks, r) <==> forall k: int :: Uploaded(log, r, k) <==> k == 0 || k == 1
  {
    hide Uploaded;
    BothRanks(rs.intake.ranks, r);
    forall k: int ensures k in Get(rs.intake.ranks, r, {}) <==> Uploaded(log, r, k) {
      assert RankTells(rs.intake.ranks, log, r, k);
    }
  }

  lemma BothClosed(rs: Replay, log: seq<Entry>, r: string)
    requires Counts(rs, log)
    ensures TwoRanks(rs.kvRanks, r) <==> forall k: int :: Closed(log, r, k) <==> k == 0 || k == 1
  {
    hide Closed;
    BothRanks(rs.kvRanks, r);
    forall k: int ensures k in Get(rs.kvRanks, r, {}) <==> Closed(log, r, k) {
      assert KvTells(rs.kvRanks, log, r, k);
    }
  }

  lemma ReportExactly(v: Verifier, events: seq<Event>, prefix: Option<Prefix>)
    requires Verified(v, events, prefix).Ok?
    ensures var rs := Verified(v, events, prefix).value;
      ReportTells(v, events[0].link.payload, rs.admitted, prefix, ReportOf(v, rs, |events|, prefix))
  {
    var start, rs := events[0].link.payload, Verified(v, events, prefix).value;
    ReplayCounts(v, start, events);
    ReplayTells(v, start, events);
    hide ReplayPrefix, Counts, Told, Linked, Admissible, Folded, Timed;
    MappedKeys(v.codec.facts, v.spec, rs.admitted);
    CompletesTell(rs, rs.admitted);
    PhaseMapIds(v.spec.phases);
    ToldLength(v, start, events, rs.admitted);
    assert |rs.intake.mappings| == |rs.intake.mappings.Keys|;
    assert |PhaseMap(v.spec.phases)| == |PhaseMap(v.spec.phases).Keys|;
    hide Complete, Observed, KvComplete, Mapped, PhaseMap;
  }

  lemma ToldLength(v: Verifier, start: Body, events: seq<Event>, log: seq<Entry>)
    requires start.Start? && Told(v, start, events, log) && events != []
    ensures |log| == |events| - 1
  {
  }

  // The verifier accepts a file exactly when its lines are an acceptable
  // journal, and then reports what its records say.
  lemma VerdictExactly(v: Verifier, file: Bytes, prefix: Option<Prefix>)
    ensures var events, verdict := ParseAll(v.codec, SplitLines(file)), Judgement(v, file, prefix);
      && (verdict.Ok? <==> events.Some? && Acceptable(v, events.value, prefix))
      && (verdict.Ok? ==>
            var start := events.value[0].link.payload;
            exists log :: Told(v, start, events.value, log) && ReportTells(v, start, log, prefix, verdict.value))
  {
    var events := ParseAll(v.codec, SplitLines(file));
    if events.Some? {
      AcceptsExactly(v, events.value, prefix);
      if Verified(v, events.value, prefix).Ok? {
        ReportExactly(v, events.value, prefix);
      }
    }
    hide Verified, ReportOf, ReportTells, Told, ParseAll, SplitLines, Linked;
  }
}
