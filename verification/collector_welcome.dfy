/**
 Which facts are admitted, said of the facts admitted before and not of the
 dictionaries the collector keeps about them.
 */
module CollectorWelcome {
  import opened Wrappers
  import opened JournalBytes
  import opened CollectorFacts
  import opened CollectorHistory

  // ---------------------------------------------------------------------
  // What has been admitted so far

  predicate Maps(e: Entry, runtime: string) {
    e.verdict.fact.Mapping? && e.verdict.fact.common.runtime == runtime
  }

  // A worker's projection or upload for a runtime; its ordinal is its rank.
  predicate Projects(e: Entry, runtime: string, rank: int) {
    e.verdict.fact.Projection? && e.verdict.fact.common.runtime == runtime && e.sender.process.ordinal == rank
  }

  predicate Uploads(e: Entry, runtime: string, rank: int) {
    e.verdict.fact.Upload? && e.verdict.fact.common.runtime == runtime && e.sender.process.ordinal == rank
  }

  function UploadCount(log: seq<Entry>, runtime: string, rank: int): nat {
    if log == [] then 0 else
    UploadCount(log[..|log| - 1], runtime, rank) + if Uploads(log[|log| - 1], runtime, rank) then 1 else 0
  }

  // ---------------------------------------------------------------------
  // What a fact must be

  // Admitted by its own process, for this plan and launch, no older than
  // allowed and not from the future.
  predicate Timely(spec: Spec, sender: Sender, common: Common, now: Option<int>) {
    && common.process == sender.process && common.launchId == spec.launchId && common.planId == spec.planId
    && common.runtime != "" && spec.frozenNs <= common.stamp
    && (now.Some? ==> 0 < now.value && common.stamp <= now.value <= common.stamp + spec.maxAge)
  }

  // The API server maps a runtime, once, to a preregistered phase not yet
  // taken.
  predicate NewMapping(spec: Spec, log: seq<Entry>, sender: Sender, fact: Fact) {
    && fact.Mapping? && sender.process.role == ApiServer
    && (exists p: nat :: p < |spec.phases| && spec.phases[p].externalId == fact.externalId)
    && (forall i: nat :: i < |log| ==> !Maps(log[i], fact.common.runtime))
    && (forall i: nat :: i < |log| && log[i].verdict.fact.Mapping? ==>
          log[i].verdict.fact.externalId != fact.externalId)
  }

  // Entry i mapped the runtime, no later than this fact.
  predicate MappedBy(log: seq<Entry>, i: nat, common: Common) {
    i < |log| && Maps(log[i], common.runtime) && log[i].verdict.fact.common.stamp <= common.stamp
  }

  predicate Anchored(p: Transaction, need: Requirement) {
    && p.attentionGroup == need.attentionGroup && p.semanticAnchor == need.semanticAnchor
    && p.physicalAnchor == need.physicalAnchor && p.blockSize == need.blockSize && p.threshold == need.threshold
    && |p.destination| == need.blockCount
    && p.attentionGroup >= 0 && 0 < p.physicalAnchor < p.threshold <= p.semanticAnchor
    && p.blockSize > 0 && p.physicalAnchor == need.blockCount * p.blockSize
  }

  predicate Blocks(xs: seq<int>) {
    && (forall i :: 0 <= i < |xs| ==> 0 <= xs[i])
    && (forall i, k :: 0 <= i < k < |xs| ==> xs[i] != xs[k])
  }

  // The blocks on the host: the destination, and in the materialized schema
  // what was appended to it, between mapping and projection.
  predicate HostBlocks(p: Transaction, mapped: int, stamp: int) {
    && p.destination != [] && Blocks(p.hostBlocks)
    && (p.materialized.None? ==> p.hostBlocks == p.destination)
    && (p.materialized.Some? ==>
          && p.hostBlocks == p.destination + p.materialized.value.appended
          && 0 < p.materialized.value.effectNs && mapped <= p.materialized.value.effectNs <= stamp)
  }

  // The fixed parts of a projection.
  predicate NewShape(c: FactCodec, fact: Fact)
    requires fact.Projection?
  {
    && fact.metadataRow >= 0 && fact.claimsNull
    && fact.operation == ProjectionOperation && fact.scope == ProjectionScope
    && fact.hostMapping == (if fact.txn.materialized.Some? then HostMappingAppended else HostMapping)
    && fact.transactionId == c.sha(c.transaction(fact.common.runtime, fact.txn))
  }

  // A worker projects a mapped runtime, once, as its phase requires.
  ghost predicate NewProjection(c: FactCodec, spec: Spec, log: seq<Entry>, sender: Sender, fact: Fact) {
    && fact.Projection? && sender.process.role == Worker
    && spec.schema == (if fact.txn.materialized.Some? then KvSpecV2 else KvSpec)
    && NewShape(c, fact)
    && (forall i: nat :: i < |log| ==> !Projects(log[i], fact.common.runtime, sender.process.ordinal))
    && exists i: nat :: MappedBy(log, i, fact.common) && Required(spec, log[i], fact)
  }

  predicate Required(spec: Spec, mapping: Entry, fact: Fact)
    requires fact.Projection?
  {
    && mapping.verdict.phase.phaseId in spec.requirements
    && Anchored(fact.txn, spec.requirements[mapping.verdict.phase.phaseId])
    && HostBlocks(fact.txn, mapping.verdict.fact.common.stamp, fact.common.stamp)
  }

  predicate GoodRow(row: Row) {
    row.group >= 0 && row.row >= 0 && row.blocks != [] && forall i :: 0 <= i < |row.blocks| ==> 0 <= row.blocks[i]
  }

  predicate GoodRows(rows: seq<Row>) {
    && rows != [] && (forall i :: 0 <= i < |rows| ==> GoodRow(rows[i]))
    && (forall i, k :: 0 <= i < k < |rows| ==> rows[i].group != rows[k].group || rows[i].row != rows[k].row)
  }

  // A worker uploads for a mapped runtime, behind a barrier stamped no earlier
  // than the fact, no later than now, and later than its last one; its rows and
  // their digest are in order, and it has not uploaded too often.
  ghost predicate NewUpload(c: FactCodec, spec: Spec, log: seq<Entry>, sender: Sender, fact: Fact, now: Option<int>) {
    && fact.Upload? && sender.process.role == Worker
    && (exists i: nat :: MappedBy(log, i, fact.common))
    && fact.common.stamp <= fact.after && 0 < fact.after && (now.Some? ==> fact.after <= now.value)
    && GoodRows(fact.rows) && fact.rowsSha == c.sha(c.rows(fact.rows))
    && |fact.device| > 4 && fact.device[..4] == "npu:"
    && (forall i :: 4 <= i < |fact.device| ==> '0' <= fact.device[i] <= '9')
    && fact.scope == UploadScope && fact.claimsNull
    && (forall i: nat :: i < |log| && Uploads(log[i], fact.common.runtime, sender.process.ordinal) ==>
          log[i].verdict.fact.after < fact.after)
    && UploadCount(log, fact.common.runtime, sender.process.ordinal) < spec.maxUploads
  }

  ghost predicate New(c: FactCodec, spec: Spec, log: seq<Entry>, sender: Sender, fact: Fact, now: Option<int>) {
    NewMapping(spec, log, sender, fact) || NewProjection(c, spec, log, sender, fact)
    || NewUpload(c, spec, log, sender, fact, now)
  }

  // This raw fact, from this sender, now.
  ghost predicate Welcome(
      c: FactCodec, spec: Spec, log: seq<Entry>, sender: Sender, raw: Bytes, now: Option<int>, fact: Fact) {
    && c.parseFact(raw) == Some(fact) && c.fact(fact) == raw && Timely(spec, sender, fact.common, now)
    && New(c, spec, log, sender, fact, now)
  }

  predicate LastWith(phases: seq<Phase>, p: nat, id: string) {
    && p < |phases| && phases[p].externalId == id
    && forall q :: p < q < |phases| ==> phases[q].externalId != id
  }

  // The phase an admitted fact belongs to: the last preregistered one with the
  // mapping's external id, or that of its runtime's mapping.
  ghost predicate Joins(spec: Spec, log: seq<Entry>, fact: Fact, phase: Phase) {
    if fact.Mapping? then
      exists p: nat :: LastWith(spec.phases, p, fact.externalId) && spec.phases[p] == phase
    else exists i: nat :: i < |log| && Maps(log[i], fact.common.runtime) && log[i].verdict.phase == phase
  }

  // ---------------------------------------------------------------------
  // The dictionaries say what was admitted

  // What an approval is about.
  predicate Kind(v: Verdict, sender: Sender) {
    match v.fact
    case Mapping(_, _) => v.update.MapUpdate?
    case Projection(_, _, _, _, _, _, _, _) => v.update == ProjectionUpdate(sender.process.ordinal)
    case Upload(_, _, _, _, _, _, _) => v.update == UploadUpdate(sender.process.ordinal)
    case UnsupportedFact(_) => false
  }

  ghost predicate MappingsTell(st: Intake, log: seq<Entry>) {
    && st.mapStamps.Keys == st.mappings.Keys && Known(st.mappings, log)
    && (forall i: nat :: i < |log| ==> Noted(st, log[i]))
  }

  ghost predicate ProjectionsTell(st: Intake, log: seq<Entry>) {
    forall r, k :: Slot(r, k) in st.projected <==> exists i: nat :: i < |log| && Projects(log[i], r, k)
  }

  predicate CountTells(st: Intake, log: seq<Entry>, r: string, k: int) {
    Get(st.uploads, Slot(r, k), 0) == UploadCount(log, r, k)
  }

  predicate StampTells(st: Intake, log: seq<Entry>, r: string, k: int, x: int) {
    Get(st.uploadStamps, Slot(r, k), 0) < x <==> 0 < x && AllBefore(log, r, k, x)
  }

  ghost predicate UploadsTell(st: Intake, log: seq<Entry>) {
    (forall r, k :: CountTells(st, log, r, k)) && (forall r, k, x: int :: StampTells(st, log, r, k, x))
  }

  predicate AllBefore(log: seq<Entry>, runtime: string, rank: int, x: int) {
    forall i: nat :: i < |log| && Uploads(log[i], runtime, rank) ==> log[i].verdict.fact.after < x
  }

  ghost predicate SeenTells(c: FactCodec, st: Intake, log: seq<Entry>) {
    forall d :: d in st.seen <==> exists i: nat :: i < |log| && c.sha(log[i].raw) == d
  }

  ghost predicate Tells(c: FactCodec, st: Intake, log: seq<Entry>) {
    && MappingsTell(st, log) && ProjectionsTell(st, log) && UploadsTell(st, log) && SeenTells(c, st, log)
    && (forall i: nat :: i < |log| ==> Kind(log[i].verdict, log[i].sender))
  }

  predicate OneMore(log: seq<Entry>, longer: seq<Entry>, e: Entry) {
    |longer| == |log| + 1 && longer[|log|] == e && forall i: nat :: i < |log| ==> longer[i] == log[i]
  }

  // Every mapped runtime has its entry.
  ghost predicate Known(mappings: map<string, Phase>, log: seq<Entry>) {
    forall r :: r in mappings ==> exists i: nat :: i < |log| && Maps(log[i], r)
  }

  lemma KnownGrows(
      mappings: map<string, Phase>, log: seq<Entry>, longer: seq<Entry>, e: Entry, after: map<string, Phase>)
    requires Known(mappings, log) && OneMore(log, longer, e)
    requires after == mappings
          || (e.verdict.fact.Mapping? && after == mappings[e.verdict.fact.common.runtime := e.verdict.phase])
    ensures Known(after, longer)
  {
    forall r | r in after ensures exists i: nat :: i < |longer| && Maps(longer[i], r) {
      if r in mappings {
        var i: nat :| i < |log| && Maps(log[i], r);
        assert Maps(longer[i], r);
      } else {
        assert Maps(longer[|log|], r);
      }
    }
  }

  // Entry i is what the dictionaries say of its runtime.
  predicate Noted(st: Intake, e: Entry) {
    var r := e.verdict.fact.common.runtime;
    e.verdict.fact.Mapping? ==>
      && r in st.mappings && r in st.mapStamps && st.mappings[r] == e.verdict.phase
      && e.verdict.phase.externalId == e.verdict.fact.externalId
      && st.mapStamps[r] == e.verdict.fact.common.stamp
  }

  // What an approval changes.
  lemma NoteByKind(st: Intake, v: Verdict, sender: Sender, digest: Digest)
    requires Kind(v, sender)
    ensures var after, r := Note(st, v, digest), v.fact.common.runtime;
      var mine := Slot(r, sender.process.ordinal);
      && after.mappings == (if v.fact.Mapping? then st.mappings[r := v.phase] else st.mappings)
      && after.mapStamps == (if v.fact.Mapping? then st.mapStamps[r := v.fact.common.stamp] else st.mapStamps)
      && after.projected == (if v.fact.Projection? then st.projected + {mine} else st.projected)
      && after.uploads == (if v.fact.Upload? then st.uploads[mine := Get(st.uploads, mine, 0) + 1] else st.uploads)
      && after.uploadStamps == (if v.fact.Upload? then st.uploadStamps[mine := v.fact.after] else st.uploadStamps)
      && after.seen == st.seen + {digest}
  {
  }

  lemma NoteTellsMappings(st: Intake, log: seq<Entry>, e: Entry, digest: Digest)
    requires MappingsTell(st, log) && Kind(e.verdict, e.sender)
    requires e.verdict.fact.Mapping? ==>
      e.verdict.fact.common.runtime !in st.mappings && e.verdict.phase.externalId == e.verdict.fact.externalId
    ensures MappingsTell(Note(st, e.verdict, digest), log + [e])
  {
    var longer, after := log + [e], Note(st, e.verdict, digest);
    NoteByKind(st, e.verdict, e.sender, digest);
    hide Note, Kind, Known, Noted;
    assert OneMore(log, longer, e);
    KnownGrows(st.mappings, log, longer, e, after.mappings);
    forall i: nat | i < |longer| ensures Noted(after, longer[i]) {
      NotedStays(st, after, e, longer[i]);
    }
  }

  lemma NotedStays(st: Intake, after: Intake, e: Entry, x: Entry)
    requires x == e || Noted(st, x)
    requires e.verdict.fact.Mapping? ==>
      e.verdict.fact.common.runtime !in st.mappings && e.verdict.phase.externalId == e.verdict.fact.externalId
    requires var r := e.verdict.fact.common.runtime;
      && after.mappings == (if e.verdict.fact.Mapping? then st.mappings[r := e.verdict.phase] else st.mappings)
      && after.mapStamps
         == (if e.verdict.fact.Mapping? then st.mapStamps[r := e.verdict.fact.common.stamp] else st.mapStamps)
    ensures Noted(after, x)
  {
  }

  lemma NoteTellsProjections(st: Intake, log: seq<Entry>, e: Entry, digest: Digest)
    requires ProjectionsTell(st, log) && Kind(e.verdict, e.sender)
    ensures ProjectionsTell(Note(st, e.verdict, digest), log + [e])
  {
    var longer, after := log + [e], Note(st, e.verdict, digest);
    assert longer[|log|] == e && forall i: nat :: i < |log| ==> longer[i] == log[i];
    forall r, k
      ensures Slot(r, k) in after.projected <==> exists i: nat :: i < |longer| && Projects(longer[i], r, k)
    {
      if exists i: nat :: i < |log| && Projects(log[i], r, k) {
        var i: nat :| i < |log| && Projects(log[i], r, k);
        assert Projects(longer[i], r, k);
      } else if Projects(e, r, k) {
        assert Projects(longer[|log|], r, k);
      }
    }
  }

  lemma OneMoreUpload(log: seq<Entry>, e: Entry, r: string, k: int, x: int)
    ensures UploadCount(log + [e], r, k) == UploadCount(log, r, k) + if Uploads(e, r, k) then 1 else 0
    ensures AllBefore(log + [e], r, k, x)
      <==> AllBefore(log, r, k, x) && (Uploads(e, r, k) ==> e.verdict.fact.after < x)
  {
    var longer := log + [e];
    assert longer[..|log|] == log && longer[|log|] == e;
    assert forall i: nat :: i < |log| ==> longer[i] == log[i];
  }

  lemma NoteTellsUploads(st: Intake, log: seq<Entry>, e: Entry, digest: Digest)
    requires UploadsTell(st, log) && Kind(e.verdict, e.sender)
    requires e.verdict.fact.Upload? ==>
      Get(st.uploadStamps, Slot(e.verdict.fact.common.runtime, e.sender.process.ordinal), 0) < e.verdict.fact.after
    ensures UploadsTell(Note(st, e.verdict, digest), log + [e])
  {
    var longer, after := log + [e], Note(st, e.verdict, digest);
    NoteByKind(st, e.verdict, e.sender, digest);
    hide Note, Kind, UploadCount, AllBefore;
    forall r, k ensures CountTells(after, longer, r, k) {
      OneMoreUpload(log, e, r, k, 0);
      assert CountTells(st, log, r, k);
    }
    forall r, k, x: int ensures StampTells(after, longer, r, k, x) {
      OneMoreUpload(log, e, r, k, x);
      assert StampTells(st, log, r, k, x);
      if Uploads(e, r, k) {
        LastIsLatest(st, log, r, k, e.verdict.fact.after, x);
      }
    }
  }

  lemma LastIsLatest(st: Intake, log: seq<Entry>, r: string, k: int, last: int, x: int)
    requires UploadsTell(st, log) && Get(st.uploadStamps, Slot(r, k), 0) < last
    ensures 0 < last && (last < x ==> AllBefore(log, r, k, x))
  {
    assert StampTells(st, log, r, k, last);
  }

  lemma NoteTellsSeen(c: FactCodec, st: Intake, log: seq<Entry>, e: Entry)
    requires SeenTells(c, st, log)
    ensures SeenTells(c, Note(st, e.verdict, c.sha(e.raw)), log + [e])
  {
    var longer := log + [e];
    assert longer[|log|] == e && forall i: nat :: i < |log| ==> longer[i] == log[i];
    forall d
      ensures d in Note(st, e.verdict, c.sha(e.raw)).seen
        <==> exists i: nat :: i < |longer| && c.sha(longer[i].raw) == d
    {
      if d in st.seen {
        var i: nat :| i < |log| && c.sha(log[i].raw) == d;
        assert c.sha(longer[i].raw) == d;
      } else if d == c.sha(e.raw) {
        assert c.sha(longer[|log|].raw) == d;
      }
    }
  }

  lemma JudgedKind(c: FactCodec, spec: Spec, sender: Sender, raw: Bytes, now: Option<int>, st: Intake)
    requires Judge(c, spec, sender, raw, now, st).Ok?
    ensures var v := Judge(c, spec, sender, raw, now, st).value;
      Kind(v, sender) && (v.fact.Mapping? ==> v.phase.externalId == v.fact.externalId)
  {
    PhaseMapKeys(spec.phases);
    hide PhaseMap, RowsBind, ProjectionMeets, IsNpuDevice;
  }

  lemma EmptyTells(c: FactCodec)
    ensures Tells(c, EMPTY_INTAKE, [])
  {
    var none: seq<Entry> := [];
    assert EMPTY_INTAKE.uploads == map[] && EMPTY_INTAKE.uploadStamps == map[];
    assert forall r, k :: CountTells(EMPTY_INTAKE, none, r, k);
    assert forall r, k, x: int :: StampTells(EMPTY_INTAKE, none, r, k, x);
  }

  lemma NoteTells(c: FactCodec, spec: Spec, st: Intake, log: seq<Entry>, e: Entry)
    requires Tells(c, st, log) && Sound(spec, e.sender, st, e.verdict) && Kind(e.verdict, e.sender)
    requires e.verdict.fact.Mapping? ==> e.verdict.phase.externalId == e.verdict.fact.externalId
    ensures Tells(c, Note(st, e.verdict, c.sha(e.raw)), log + [e])
  {
    hide Note, MappingsTell, ProjectionsTell, UploadsTell, SeenTells, PhaseMap;
    NoteTellsMappings(st, log, e, c.sha(e.raw));
    NoteTellsProjections(st, log, e, c.sha(e.raw));
    NoteTellsUploads(st, log, e, c.sha(e.raw));
    NoteTellsSeen(c, st, log, e);
  }

  lemma LastIsSound(c: FactCodec, spec: Spec, log: seq<Entry>)
    requires Admissible(c, spec, log) && log != []
    ensures var e, st := log[|log| - 1], Folded(c, log[..|log| - 1]);
      && Admissible(c, spec, log[..|log| - 1])
      && Sound(spec, e.sender, st, e.verdict) && Kind(e.verdict, e.sender)
      && (e.verdict.fact.Mapping? ==> e.verdict.phase.externalId == e.verdict.fact.externalId)
      && Folded(c, log) == Note(st, e.verdict, c.sha(e.raw))
  {
    var e, st := log[|log| - 1], Folded(c, log[..|log| - 1]);
    assert Judge(c, spec, e.sender, e.raw, e.now, st) == Ok(e.verdict);
    hide Judge, Admissible, Note, Sound, Kind;
    JudgeIsSound(c, spec, e.sender, e.raw, e.now, st);
    JudgedKind(c, spec, e.sender, e.raw, e.now, st);
  }

  lemma {:induction false} HistoryTells(c: FactCodec, spec: Spec, log: seq<Entry>)
    requires Admissible(c, spec, log)
    ensures Tells(c, Folded(c, log), log)
  {
    hide Tells, Judge, Note, Sound, Kind;
    if log == [] {
      EmptyTells(c);
    } else {
      var front, e := log[..|log| - 1], log[|log| - 1];
      LastIsSound(c, spec, log);
      HistoryTells(c, spec, front);
      NoteTells(c, spec, Folded(c, front), front, e);
      assert log == front + [e];
    }
  }

  // ---------------------------------------------------------------------
  // Judging by the dictionaries is judging by the history

  lemma {:induction false} PhaseMapTells(phases: seq<Phase>, id: string)
    ensures if id in PhaseMap(phases) then exists p: nat :: LastWith(phases, p, id) && phases[p] == PhaseMap(phases)[id]
      else forall p: nat :: p < |phases| ==> phases[p].externalId != id
  {
    if phases == [] {
    } else {
      var n := |phases| - 1;
      var front := phases[..n];
      PhaseMapTells(front, id);
      assert PhaseMap(phases) == PhaseMap(front)[phases[n].externalId := phases[n]];
      hide PhaseMap;
      assert forall p: nat :: p < n ==> phases[p] == front[p];
      if phases[n].externalId == id {
        assert LastWith(phases, n, id);
      } else if id in PhaseMap(front) {
        var p: nat :| LastWith(front, p, id) && front[p] == PhaseMap(front)[id];
        assert LastWith(phases, p, id);
      }
    }
  }

  // A runtime's entry in the dictionaries, and its entry in the history.
  lemma MappedTells(st: Intake, log: seq<Entry>, r: string)
    requires MappingsTell(st, log)
    ensures r in st.mappings <==> exists i: nat :: i < |log| && Maps(log[i], r)
    ensures forall i: nat :: i < |log| && Maps(log[i], r) ==>
      r in st.mappings && st.mappings[r] == log[i].verdict.phase
      && Get(st.mapStamps, r, 0) == log[i].verdict.fact.common.stamp
  {
    forall i: nat | i < |log| && Maps(log[i], r)
      ensures r in st.mappings && st.mappings[r] == log[i].verdict.phase
      ensures Get(st.mapStamps, r, 0) == log[i].verdict.fact.common.stamp
    {
      assert Noted(st, log[i]);
    }
  }

  lemma IdTells(st: Intake, log: seq<Entry>, id: string)
    requires MappingsTell(st, log)
    ensures (exists r :: r in st.mappings && st.mappings[r].externalId == id)
      <==> exists i: nat :: i < |log| && log[i].verdict.fact.Mapping? && log[i].verdict.fact.externalId == id
  {
    forall r | r in st.mappings && st.mappings[r].externalId == id
      ensures exists i: nat :: i < |log| && log[i].verdict.fact.Mapping? && log[i].verdict.fact.externalId == id
    {
      var i: nat :| i < |log| && Maps(log[i], r);
      assert Noted(st, log[i]);
    }
    forall i: nat | i < |log| && log[i].verdict.fact.Mapping? && log[i].verdict.fact.externalId == id
      ensures exists r :: r in st.mappings && st.mappings[r].externalId == id
    {
      assert Noted(st, log[i]);
    }
  }

  lemma MappingWelcome(spec: Spec, log: seq<Entry>, sender: Sender, fact: Fact, st: Intake)
    requires fact.Mapping? && MappingsTell(st, log)
    ensures var judged := JudgeMapping(spec, sender, fact, st);
      && (judged.Ok? <==> NewMapping(spec, log, sender, fact))
      && (judged.Ok? ==> Joins(spec, log, fact, judged.value.phase))
  {
    PhaseMapTells(spec.phases, fact.externalId);
    MappedTells(st, log, fact.common.runtime);
    IdTells(st, log, fact.externalId);
    hide PhaseMap, MappingsTell;
  }

  lemma StampTellsMapped(st: Intake, log: seq<Entry>, common: Common)
    requires MappingsTell(st, log)
    ensures (exists i: nat :: MappedBy(log, i, common))
      <==> common.runtime in st.mappings && Get(st.mapStamps, common.runtime, 0) <= common.stamp
  {
    MappedTells(st, log, common.runtime);
    hide MappingsTell;
    if common.runtime in st.mappings {
      var i: nat :| i < |log| && Maps(log[i], common.runtime);
      assert MappedBy(log, i, common) <==> Get(st.mapStamps, common.runtime, 0) <= common.stamp;
    }
  }

  lemma RowsAreGood(rows: seq<Row>)
    ensures RowsBind(rows) && rows != [] <==> GoodRows(rows)
  {
    assert forall i :: 0 <= i < |rows| ==>
      (GoodRow(rows[i])
       <==> NonNegative(rows[i].blocks) && rows[i].group >= 0 && rows[i].row >= 0 && rows[i].blocks != []);
    assert forall i, k :: 0 <= i < k < |rows| ==>
      ((rows[i].group, rows[i].row) != (rows[k].group, rows[k].row)
       <==> rows[i].group != rows[k].group || rows[i].row != rows[k].row);
  }

  lemma UploadWelcome(
      c: FactCodec, spec: Spec, log: seq<Entry>, sender: Sender, fact: Fact, now: Option<int>, st: Intake)
    requires fact.Upload? && MappingsTell(st, log) && UploadsTell(st, log)
    ensures var judged := JudgeUpload(c, spec, sender, fact, now, st);
      && (judged.Ok? <==> NewUpload(c, spec, log, sender, fact, now))
      && (judged.Ok? ==> Joins(spec, log, fact, judged.value.phase))
  {
    var runtime, rank := fact.common.runtime, sender.process.ordinal;
    StampTellsMapped(st, log, fact.common);
    MappedTells(st, log, runtime);
    RowsAreGood(fact.rows);
    assert CountTells(st, log, runtime, rank) && StampTells(st, log, runtime, rank, fact.after);
    hide MappingsTell, UploadsTell, UploadCount, GoodRows, RowsBind;
  }

  lemma ProjectionWelcome(c: FactCodec, spec: Spec, log: seq<Entry>, sender: Sender, fact: Fact, st: Intake)
    requires fact.Projection? && MappingsTell(st, log) && ProjectionsTell(st, log)
    ensures var judged := JudgeProjection(c, spec, sender, fact, st);
      && (judged.Ok? <==> NewProjection(c, spec, log, sender, fact))
      && (judged.Ok? ==> Joins(spec, log, fact, judged.value.phase))
  {
    var runtime, rank := fact.common.runtime, sender.process.ordinal;
    MappedTells(st, log, runtime);
    assert Slot(runtime, rank) in st.projected
      <==> exists i: nat :: i < |log| && Projects(log[i], runtime, rank);
    hide MappingsTell, ProjectionsTell;
    if runtime in st.mappings {
      var i: nat :| i < |log| && Maps(log[i], runtime);
      RequiredExactly(c, spec, log[i], fact, st.mappings[runtime]);
      hide ProjectionMeets, Required;
    }
  }

  lemma RequiredExactly(c: FactCodec, spec: Spec, mapping: Entry, fact: Fact, phase: Phase)
    requires fact.Projection? && mapping.verdict.phase == phase
    ensures Required(spec, mapping, fact) && NewShape(c, fact)
      <==> phase.phaseId in spec.requirements && ProjectionMeets(c, fact, spec.requirements[phase.phaseId])
           && (fact.txn.materialized.Some? ==>
                 mapping.verdict.fact.common.stamp <= fact.txn.materialized.value.effectNs <= fact.common.stamp)
  {
    var p := fact.txn;
    var appended := Appended(p);
    assert p.destination + [] == p.destination;
    BothNonNegative(p.destination, appended);
    assert Blocks(p.hostBlocks) <==> NonNegative(p.hostBlocks) && Distinct(p.hostBlocks);
    hide Blocks, NonNegative, Distinct;
  }

  lemma BothNonNegative(a: seq<int>, b: seq<int>)
    ensures NonNegative(a + b) <==> NonNegative(a) && NonNegative(b)
  {
    if NonNegative(a + b) {
      assert forall i :: 0 <= i < |a| ==> (a + b)[i] == a[i];
      assert forall i :: 0 <= i < |b| ==> (a + b)[|a| + i] == b[i];
    }
  }

  // The three kinds of facts, as the predicate takes them apart.
  function JudgeKind(
      c: FactCodec, spec: Spec, sender: Sender, fact: Fact, now: Option<int>, st: Intake): Result<Verdict, Reason> {
    match fact
    case Mapping(_, _) => JudgeMapping(spec, sender, fact, st)
    case Projection(_, _, _, _, _, _, _, _) => JudgeProjection(c, spec, sender, fact, st)
    case Upload(_, _, _, _, _, _, _) => JudgeUpload(c, spec, sender, fact, now, st)
    case UnsupportedFact(_) => Err(UnsupportedSchema)
  }

  lemma KindWelcome(c: FactCodec, spec: Spec, log: seq<Entry>, sender: Sender, fact: Fact, now: Option<int>, st: Intake)
    requires Tells(c, st, log)
    ensures var judged := JudgeKind(c, spec, sender, fact, now, st);
      && (judged.Ok? <==> New(c, spec, log, sender, fact, now))
      && (judged.Ok? ==>
            judged.value.fact == fact && Joins(spec, log, fact, judged.value.phase) && Kind(judged.value, sender))
  {
    hide MappingsTell, ProjectionsTell, UploadsTell, SeenTells, Joins, UploadCount, GoodRows, Required, ProjectionMeets,
      RowsBind, PhaseMap;
    match fact
    case Mapping(_, _) => MappingWelcome(spec, log, sender, fact, st);
    case Projection(_, _, _, _, _, _, _, _) => ProjectionWelcome(c, spec, log, sender, fact, st);
    case Upload(_, _, _, _, _, _, _) => UploadWelcome(c, spec, log, sender, fact, now, st);
    case UnsupportedFact(_) =>
  }

  lemma JudgedByKind(c: FactCodec, spec: Spec, sender: Sender, raw: Bytes, now: Option<int>, st: Intake)
    ensures var parsed := c.parseFact(raw);
      var judged := Judge(c, spec, sender, raw, now, st);
      && (judged.Ok? <==>
            && parsed.Some? && c.fact(parsed.value) == raw && Timely(spec, sender, parsed.value.common, now)
            && JudgeKind(c, spec, sender, parsed.value, now, st).Ok?)
      && (judged.Ok? ==> judged == JudgeKind(c, spec, sender, parsed.value, now, st))
  {
    hide JudgeMapping, JudgeProjection, JudgeUpload;
  }

  // Whoever sends what: the predicate over the dictionaries admits exactly the
  // facts that the history makes welcome, into the phase it joins them to.
  lemma WelcomeExactly(c: FactCodec, spec: Spec, log: seq<Entry>, sender: Sender, raw: Bytes, now: Option<int>)
    requires Admissible(c, spec, log)
    ensures var judged := Judge(c, spec, sender, raw, now, Folded(c, log));
      && (judged.Ok? <==> exists fact :: Welcome(c, spec, log, sender, raw, now, fact))
      && (judged.Ok? ==>
            && Welcome(c, spec, log, sender, raw, now, judged.value.fact)
            && Joins(spec, log, judged.value.fact, judged.value.phase) && Kind(judged.value, sender))
  {
    hide Judge, JudgeKind, Folded, Admissible, Tells, Timely, New, Joins, Kind;
    HistoryTells(c, spec, log);
    JudgedByKind(c, spec, sender, raw, now, Folded(c, log));
    var parsed := c.parseFact(raw);
    if parsed.Some? {
      KindWelcome(c, spec, log, sender, parsed.value, now, Folded(c, log));
      assert Welcome(c, spec, log, sender, raw, now, parsed.value)
        <==> c.fact(parsed.value) == raw && Timely(spec, sender, parsed.value.common, now)
             && New(c, spec, log, sender, parsed.value, now);
    }
  }

  // A digest has been seen exactly if a fact with it was admitted.
  lemma SeenExactly(c: FactCodec, spec: Spec, log: seq<Entry>, digest: Digest)
    requires Admissible(c, spec, log)
    ensures digest in Folded(c, log).seen <==> exists i: nat :: i < |log| && c.sha(log[i].raw) == digest
  {
    HistoryTells(c, spec, log);
  }

  // Entry k was welcome when it came.
  ghost predicate Welcomed(c: FactCodec, spec: Spec, log: seq<Entry>, k: nat)
    requires k < |log|
  {
    var e := log[k];
    && e.sender in spec.senders && (forall i :: 0 <= i < k ==> c.sha(log[i].raw) != c.sha(e.raw))
    && Welcome(c, spec, log[..k], e.sender, e.raw, e.now, e.verdict.fact)
    && Joins(spec, log[..k], e.verdict.fact, e.verdict.phase) && Kind(e.verdict, e.sender)
  }

  // Every history of admissions is one of welcome facts.
  lemma AdmittedWereWelcome(c: FactCodec, spec: Spec, log: seq<Entry>, k: nat)
    requires Admissible(c, spec, log) && k < |log|
    ensures Welcomed(c, spec, log, k)
  {
    AdmissiblePrefix(c, spec, log, k);
    EntryWasJudged(c, spec, log, k);
    WelcomeExactly(c, spec, log[..k], log[k].sender, log[k].raw, log[k].now);
    SeenExactly(c, spec, log[..k], c.sha(log[k].raw));
    hide Admissible, Folded, Judge, Welcome, Joins, Kind;
    forall i | 0 <= i < k ensures c.sha(log[i].raw) != c.sha(log[k].raw) {
      assert log[..k][i] == log[i];
    }
  }
}
