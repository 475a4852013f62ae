/**
 The raw facts a native sender reports and the stateful predicate that decides
 whether one may be admitted. The live collector and the later replay call the
 same predicate, each with its own intake state.
 */
module CollectorFacts {
  import opened Wrappers
  import opened JournalBytes

  datatype Role = ApiServer | Worker | OtherRole(text: string)

  // The fixed strings a fact must carry, and anything else it may carry.
  datatype Label =
    | UploadScope | ProjectionOperation | ProjectionScope
    | HostMapping | HostMappingAppended
    | OtherLabel(text: string)

  // Why a fact is turned away, one case per rejection in the program.
  datatype Reason =
    | BadClock | NotAnObject | Noncanonical | WrongProcess | WrongScope | Stale | NoRuntime
    | UnsupportedSchema
    | MappingNotApi | MappingUnknownOrRepeated
    | ProjectionOutOfScope | ProjectionPredates | NoRequirement | ProjectionUnbound
    | ProjectionChronology | ProjectionRepeated
    | UploadNoMapping | UploadPredates | UploadBound | UploadReplayed | UploadUnsupported | UploadRows

  datatype Kernel = Kernel(pid: int, startTicks: int, startIdentity: string, bootId: string, session: int)

  datatype Process = Process(host: string, role: Role, ordinal: int, epoch: int, assignedByHost: bool, kernel: Kernel)

  // `normal` is the path as the live collector prints it back.
  datatype SourceFile = SourceFile(path: string, normal: string, sha256: Digest)

  datatype Sender = Sender(process: Process, uid: int, gid: int, cmdline: Digest, sources: seq<SourceFile>)

  datatype Phase = Phase(phaseId: string, clientId: string, nonce: string, externalId: string, ranks: seq<int>)

  datatype Requirement = Requirement(
    attentionGroup: int, semanticAnchor: int, physicalAnchor: int,
    blockSize: int, threshold: int, blockCount: int)

  datatype SpecSchema = PlainSpec | KvSpec | KvSpecV2

  datatype Spec = Spec(
    schema: SpecSchema, planId: string, launchId: string,
    frozenNs: int, maxAge: int, maxUploads: int,
    senders: seq<Sender>, phases: seq<Phase>, requirements: map<string, Requirement>)

  // What the three fact kinds share.
  datatype Common = Common(process: Process, launchId: string, planId: string, stamp: int, runtime: string)

  datatype Row = Row(group: int, row: int, blocks: seq<int>)

  // Present only in the materialized (v2) projection schema.
  datatype Materialized = Materialized(appended: seq<int>, effectNs: int)

  datatype Transaction = Transaction(
    attentionGroup: int, semanticAnchor: int, physicalAnchor: int,
    destination: seq<int>, hostBlocks: seq<int>, blockSize: int, threshold: int,
    materialized: Option<Materialized>)

  datatype Fact =
    | Mapping(common: Common, externalId: string)
    | Projection(
        common: Common, txn: Transaction, metadataRow: int, transactionId: Digest,
        operation: Label, scope: Label, hostMapping: Label, claimsNull: bool)
    | Upload(
        common: Common, after: int, device: string, rows: seq<Row>, rowsSha: Digest,
        scope: Label, claimsNull: bool)
    | UnsupportedFact(common: Common)

  // The encoder and hash, as parameters.
  datatype FactCodec = FactCodec(
    fact: Fact -> Bytes,
    parseFact: Bytes -> Option<Fact>,
    rows: seq<Row> -> Bytes,
    transaction: (string, Transaction) -> Bytes,
    sha: Bytes -> Digest)

  datatype Slot = Slot(runtime: string, rank: int)

  // The dictionaries the predicate reads. `projected` and `uploads` are the two
  // key shapes of the program's single count dictionary.
  datatype Intake = Intake(
    mappings: map<string, Phase>,
    mapStamps: map<string, int>,
    ranks: map<string, set<int>>,
    uploadStamps: map<Slot, int>,
    projected: set<Slot>,
    uploads: map<Slot, nat>,
    seen: set<Digest>)

  const EMPTY_INTAKE := Intake(map[], map[], map[], map[], {}, map[], {})

  datatype Update = MapUpdate | ProjectionUpdate(rank: int) | UploadUpdate(rank: int)

  datatype Verdict = Verdict(fact: Fact, phase: Phase, update: Update)

  function Get<K, V>(m: map<K, V>, key: K, default: V): V {
    if key in m then m[key] else default
  }

  // {x["external_request_id"]: x for x in phases}
  function PhaseMap(phases: seq<Phase>): map<string, Phase> {
    if phases == [] then map[] else
    var last := phases[|phases| - 1];
    PhaseMap(phases[..|phases| - 1])[last.externalId := last]
  }

  // {x["process"]["pid"]: x for x in senders}
  function SenderMap(senders: seq<Sender>): map<int, Sender> {
    if senders == [] then map[] else
    var last := senders[|senders| - 1];
    SenderMap(senders[..|senders| - 1])[last.process.kernel.pid := last]
  }

  predicate Distinct<T(==)>(xs: seq<T>) {
    forall i, k :: 0 <= i < k < |xs| ==> xs[i] != xs[k]
  }

  predicate NonNegative(xs: seq<int>) {
    forall i :: 0 <= i < |xs| ==> xs[i] >= 0
  }

  predicate IsNpuDevice(device: string) {
    && |device| > 4 && device[..4] == "npu:"
    && forall i :: 4 <= i < |device| ==> '0' <= device[i] <= '9'
  }

  function Appended(p: Transaction): seq<int> {
    if p.materialized.Some? then p.materialized.value.appended else []
  }

  // The frozen destination and anchor binding of one projection.
  predicate ProjectionMeets(c: FactCodec, fact: Fact, need: Requirement)
    requires fact.Projection?
  {
    var p := fact.txn;
    var appended := Appended(p);
    && (p.materialized.Some? ==>
          NonNegative(appended) && 0 < p.materialized.value.effectNs <= fact.common.stamp)
    && p.attentionGroup >= 0 && fact.metadataRow >= 0
    && p.destination != [] && NonNegative(p.destination)
    && p.hostBlocks == p.destination + appended && Distinct(p.hostBlocks)
    && 0 < p.physicalAnchor < p.threshold <= p.semanticAnchor
    && p.blockSize > 0 && p.physicalAnchor == |p.destination| * p.blockSize
    && p.attentionGroup == need.attentionGroup && p.semanticAnchor == need.semanticAnchor
    && p.physicalAnchor == need.physicalAnchor && p.blockSize == need.blockSize
    && p.threshold == need.threshold && |p.destination| == need.blockCount
    && fact.operation == ProjectionOperation && fact.scope == ProjectionScope
    && fact.hostMapping == (if p.materialized.Some? then HostMappingAppended else HostMapping)
    && fact.claimsNull
    && fact.transactionId == c.sha(c.transaction(fact.common.runtime, p))
  }

  predicate RowsBind(rows: seq<Row>) {
    && (forall i :: 0 <= i < |rows| ==>
          rows[i].group >= 0 && rows[i].row >= 0 && rows[i].blocks != [] && NonNegative(rows[i].blocks))
    && (forall i, k :: 0 <= i < k < |rows| ==> (rows[i].group, rows[i].row) != (rows[k].group, rows[k].row))
  }

  // A later upload by the same worker whose rows start with the projected blocks.
  predicate UploadMatches(projection: Fact, upload: Fact)
    requires projection.Projection? && upload.Upload?
  {
    && projection.common.process == upload.common.process
    && projection.common.runtime == upload.common.runtime
    && projection.common.launchId == upload.common.launchId
    && projection.common.planId == upload.common.planId
    && upload.common.stamp >= projection.common.stamp
    && upload.after >= projection.common.stamp
    && exists i :: 0 <= i < |upload.rows|
                && upload.rows[i].group == projection.txn.attentionGroup
                && projection.txn.hostBlocks <= upload.rows[i].blocks
  }

  function JudgeMapping(spec: Spec, sender: Sender, fact: Fact, st: Intake): Result<Verdict, Reason>
    requires fact.Mapping?
  {
    var phases := PhaseMap(spec.phases);
    if sender.process.role != ApiServer then Err(MappingNotApi)
    else if fact.externalId !in phases || fact.common.runtime in st.mappings
            || exists r :: r in st.mappings && st.mappings[r].externalId == fact.externalId
    then Err(MappingUnknownOrRepeated)
    else Ok(Verdict(fact, phases[fact.externalId], MapUpdate))
  }

  function JudgeProjection(c: FactCodec, spec: Spec, sender: Sender, fact: Fact, st: Intake): Result<Verdict, Reason>
    requires fact.Projection?
  {
    var runtime, stamp, rank := fact.common.runtime, fact.common.stamp, sender.process.ordinal;
    if spec.schema != (if fact.txn.materialized.Some? then KvSpecV2 else KvSpec)
       || sender.process.role != Worker || runtime !in st.mappings
    then Err(ProjectionOutOfScope) else
    var phase := st.mappings[runtime];
    if stamp < Get(st.mapStamps, runtime, 0) then Err(ProjectionPredates)
    else if phase.phaseId !in spec.requirements then Err(NoRequirement)
    else if !ProjectionMeets(c, fact, spec.requirements[phase.phaseId])
    then Err(ProjectionUnbound)
    else if fact.txn.materialized.Some?
            && !(Get(st.mapStamps, runtime, 0) <= fact.txn.materialized.value.effectNs <= stamp)
    then Err(ProjectionChronology)
    else if Slot(runtime, rank) in st.projected
    then Err(ProjectionRepeated)
    else Ok(Verdict(fact, phase, ProjectionUpdate(rank)))
  }

  function JudgeUpload(
      c: FactCodec, spec: Spec, sender: Sender, fact: Fact, now: Option<int>, st: Intake): Result<Verdict, Reason>
    requires fact.Upload?
  {
    var runtime, stamp, rank := fact.common.runtime, fact.common.stamp, sender.process.ordinal;
    if sender.process.role != Worker || runtime !in st.mappings
    then Err(UploadNoMapping)
    else if stamp < Get(st.mapStamps, runtime, 0)
    then Err(UploadPredates)
    else if Get(st.uploads, Slot(runtime, rank), 0) >= spec.maxUploads
    then Err(UploadBound)
    else if fact.after <= Get(st.uploadStamps, Slot(runtime, rank), 0)
    then Err(UploadReplayed)
    else if fact.after < stamp || (now.Some? && fact.after > now.value) || fact.rows == []
            || fact.rowsSha != c.sha(c.rows(fact.rows)) || !IsNpuDevice(fact.device)
            || fact.scope != UploadScope || !fact.claimsNull
    then Err(UploadUnsupported)
    else if !RowsBind(fact.rows)
    then Err(UploadRows)
    else Ok(Verdict(fact, st.mappings[runtime], UploadUpdate(rank)))
  }

  // The shared gate. A missing accept time keeps the static checks only.
  function Judge(
      c: FactCodec, spec: Spec, sender: Sender, raw: Bytes, now: Option<int>, st: Intake): Result<Verdict, Reason> {
    if now.Some? && now.value <= 0 then Err(BadClock) else
    var parsed := c.parseFact(raw);
    if parsed.None? then Err(NotAnObject) else
    var fact := parsed.value;
    var common := fact.common;
    if c.fact(fact) != raw then Err(Noncanonical)
    else if common.process != sender.process
    then Err(WrongProcess)
    else if common.planId != spec.planId || common.launchId != spec.launchId
    then Err(WrongScope)
    else if common.stamp < spec.frozenNs
            || (now.Some? && (common.stamp > now.value || now.value - common.stamp > spec.maxAge))
    then Err(Stale)
    else if common.runtime == "" then Err(NoRuntime)
    else match fact
      case Mapping(_, _) => JudgeMapping(spec, sender, fact, st)
      case Projection(_, _, _, _, _, _, _, _) => JudgeProjection(c, spec, sender, fact, st)
      case Upload(_, _, _, _, _, _, _) => JudgeUpload(c, spec, sender, fact, now, st)
      case UnsupportedFact(_) => Err(UnsupportedSchema)
  }

  // What an admitted fact leaves behind.
  function Note(st: Intake, v: Verdict, digest: Digest): Intake {
    var runtime := v.fact.common.runtime;
    var seen := st.(seen := st.seen + {digest});
    match v.update
    case MapUpdate =>
      seen.(mappings := st.mappings[runtime := v.phase],
            mapStamps := st.mapStamps[runtime := v.fact.common.stamp])
    case ProjectionUpdate(rank) =>
      seen.(projected := st.projected + {Slot(runtime, rank)})
    case UploadUpdate(rank) =>
      var slot := Slot(runtime, rank);
      seen.(ranks := st.ranks[runtime := Get(st.ranks, runtime, {}) + {rank}],
            uploadStamps := st.uploadStamps[slot := if v.fact.Upload? then v.fact.after else 0],
            uploads := st.uploads[slot := Get(st.uploads, slot, 0) + 1])
  }

  // Both preregistration readings of the spec, as the service constructor
  // insists on them before it writes anything.
  ghost predicate WellFormed(spec: Spec) {
    && spec.planId != "" && spec.launchId != "" && spec.maxAge > 0 && 0 < spec.maxUploads <= 4096
    && PhasesOk(spec.phases) && SendersOk(spec.senders)
    && (spec.schema != PlainSpec ==> RequirementsOk(spec))
  }

  predicate PhaseNamed(p: Phase) {
    p.phaseId != "" && p.clientId != "" && p.nonce != "" && p.externalId != "" && p.ranks == [0, 1]
  }

  predicate PhasesApart(p: Phase, q: Phase) {
    p.externalId != q.externalId && p.clientId != q.clientId && p.nonce != q.nonce && p.phaseId != q.phaseId
  }

  ghost predicate PhasesOk(phases: seq<Phase>) {
    && phases != []
    && (forall i :: 0 <= i < |phases| ==> PhaseNamed(phases[i]))
    && (forall i, k :: 0 <= i < k < |phases| ==> PhasesApart(phases[i], phases[k]))
  }

  function RoleSlot(s: Sender): (Role, int) {
    (s.process.role, s.process.ordinal)
  }

  function RoleSlots(senders: seq<Sender>): set<(Role, int)> {
    set s | s in senders :: RoleSlot(s)
  }

  predicate SendersApart(s: Sender, t: Sender) {
    s.process.kernel.pid != t.process.kernel.pid && RoleSlot(s) != RoleSlot(t)
  }

  // Exactly one API server and two workers, each under its own PID.
  ghost predicate SendersOk(senders: seq<Sender>) {
    && (forall i, k :: 0 <= i < k < |senders| ==> SendersApart(senders[i], senders[k]))
    && (forall i :: 0 <= i < |senders| ==> senders[i].process.assignedByHost)
    && RoleSlots(senders) == {(ApiServer, 0), (Worker, 0), (Worker, 1)}
  }

  predicate RequirementsOk(spec: Spec) {
    && spec.requirements.Keys == (set p | p in spec.phases :: p.phaseId)
    && forall id :: id in spec.requirements ==> RequirementSound(spec.requirements[id])
  }

  predicate RequirementSound(r: Requirement) {
    && r.attentionGroup >= 0
    && 0 < r.physicalAnchor < r.threshold <= r.semanticAnchor
    && r.blockSize > 0 && r.blockCount > 0 && r.physicalAnchor == r.blockCount * r.blockSize
  }
}
