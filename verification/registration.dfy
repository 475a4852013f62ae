/**
 The four-document registration transaction: building it, checking it, and
 committing it file by file with rollback.
 */
module Registration {
  import opened Wrappers
  import opened JournalBytes

  datatype Role = Study | Deployment | Registry | Matrix

  // The write set, in its order.
  function RoleAt(i: nat): Role
    requires i < 4
  {
    if i == 0 then Study else if i == 1 then Deployment else if i == 2 then Registry else Matrix
  }

  datatype Arm = Vanilla | Manual | Ecpa

  datatype Adapter = Adapter(arm: Arm, id: string)

  // The documents, with the fields the transaction looks at or sets; `body`
  // stands for everything else.
  datatype Document =
    | StudyDoc(admitted: bool, admissible: bool, blockers: seq<string>, body: string)
    | DeploymentDoc(registered: bool, admissible: bool, blockers: seq<string>, studySha: Digest,
                    sources: seq<set<string>>, body: string)
    | RegistryDoc(adapters: seq<Adapter>)
    | MatrixDoc(experiment: bool, body: string)

  datatype Row = Row(role: Role, before: Digest, after: Digest)

  datatype Packet = Packet(withinBoundary: bool, documents: map<Role, Document>, rows: seq<Row>, rowsDigest: Digest)

  datatype Codec = Codec(parse: Bytes -> Option<Document>, encode: Document -> Bytes, manifest: seq<Row> -> Bytes,
                         sha: Bytes -> Digest)

  // What the encoder writes reads back as the same document.
  ghost predicate Faithful(c: Codec) {
    forall d :: c.parse(c.encode(d)) == Some(d)
  }

  datatype Place = Official(role: Role) | Staged(role: Role) | Backup(role: Role)

  type Files = map<Place, Bytes>

  predicate HasAll(files: Files) {
    forall i :: 0 <= i < 4 ==> Official(RoleAt(i)) in files
  }

  predicate RowHolds(c: Codec, files: Files, p: Packet, i: nat)
    requires i < |p.rows| == 4
  {
    var role := RoleAt(i);
    && p.rows[i].role == role && role in p.documents && Official(role) in files
    && p.rows[i].before == c.sha(files[Official(role)])
    && p.rows[i].after == c.sha(c.encode(p.documents[role]))
  }

  // The cross-document invariants.
  predicate Consistent(c: Codec, documents: map<Role, Document>) {
    && documents.Keys == {Study, Deployment, Registry, Matrix}
    && var study, deployment, registry, matrix :=
         documents[Study], documents[Deployment], documents[Registry], documents[Matrix];
    && study.StudyDoc? && deployment.DeploymentDoc? && registry.RegistryDoc? && matrix.MatrixDoc?
    && study.admitted && study.admissible && study.blockers == []
    && deployment.registered && deployment.admissible && deployment.blockers == []
    && deployment.studySha == c.sha(c.encode(study))
    && |registry.adapters| == 3 && registry.adapters[0].arm == Vanilla && registry.adapters[1].arm == Manual
    && registry.adapters[2].arm == Ecpa
    && matrix.experiment
    && |Ids(registry.adapters)| == 3
    && forall k :: 0 <= k < |deployment.sources| ==> deployment.sources[k] == Ids(registry.adapters)
  }

  function Ids(adapters: seq<Adapter>): set<string> {
    set k | 0 <= k < |adapters| :: adapters[k].id
  }

  predicate Validates(c: Codec, files: Files, p: Packet) {
    && p.withinBoundary && |p.rows| == 4
    && p.rowsDigest == c.sha(c.manifest(p.rows))
    && (forall i :: 0 <= i < 4 ==> RowHolds(c, files, p, i))
    && Consistent(c, p.documents)
  }

  // ---------------------------------------------------------------------
  // Building

  // The reviewed candidate's contribution.
  datatype Candidate = Candidate(adapters: seq<Adapter>, study: string, deployment: string, matrix: string)

  function After(c: Codec, before: map<Role, Document>, candidate: Candidate): map<Role, Document>
    requires Study in before && Deployment in before && before[Deployment].DeploymentDoc?
  {
    var study := StudyDoc(true, true, [], candidate.study);
    var ids := Ids(candidate.adapters);
    map[Study := study,
        Deployment := DeploymentDoc(true, true, [], c.sha(c.encode(study)),
                                    seq(|before[Deployment].sources|, _ => ids), candidate.deployment),
        Registry := RegistryDoc(candidate.adapters),
        Matrix := MatrixDoc(true, candidate.matrix)]
  }

  function Rows(c: Codec, files: Files, documents: map<Role, Document>): seq<Row>
    requires HasAll(files) && documents.Keys == {Study, Deployment, Registry, Matrix}
  {
    seq(4, i requires 0 <= i < 4 =>
      assert Official(RoleAt(i)) in files;
      Row(RoleAt(i), c.sha(files[Official(RoleAt(i))]), c.sha(c.encode(documents[RoleAt(i)]))))
  }

  // The documents as they are before: nothing admitted yet.
  function Preimage(c: Codec, files: Files): Option<map<Role, Document>> {
    if !HasAll(files) then None else
    assert forall i :: 0 <= i < 4 ==> Official(RoleAt(i)) in files;
    assert RoleAt(0) == Study && RoleAt(1) == Deployment && RoleAt(2) == Registry && RoleAt(3) == Matrix;
    var study, deployment, registry, matrix :=
      c.parse(files[Official(Study)]), c.parse(files[Official(Deployment)]),
      c.parse(files[Official(Registry)]), c.parse(files[Official(Matrix)]);
    if study.None? || !study.value.StudyDoc? || study.value.admitted || study.value.admissible then None
    else if deployment.None? || !deployment.value.DeploymentDoc? || deployment.value.registered
            || deployment.value.admissible then None
    else if registry != Some(RegistryDoc([])) then None
    else if matrix.None? || !matrix.value.MatrixDoc? || matrix.value.experiment then None
    else Some(map[Study := study.value, Deployment := deployment.value, Registry := registry.value,
                  Matrix := matrix.value])
  }

  function Build(c: Codec, files: Files, candidate: Candidate): Option<Packet> {
    var before := Preimage(c, files);
    if before.None? then None else
    var documents := After(c, before.value, candidate);
    var rows := Rows(c, files, documents);
    var packet := Packet(true, documents, rows, c.sha(c.manifest(rows)));
    if Validates(c, files, packet) then Some(packet) else None
  }

  // ---------------------------------------------------------------------
  // Committing

  // The operations that can fail, the moment between replacing a document and
  // remembering that it was replaced, and an exception other than the one the
  // rollback expects, just before it undoes a document.
  datatype Op =
    | MakeRoot | WriteStaged(i: nat) | ReadOld(i: nat) | WriteBackup(i: nat) | SyncStaged(i: nat) | SyncBackup(i: nat)
    | Replace(i: nat) | Interrupt(i: nat) | SyncRoot | Undo(i: nat)
    | Cut(i: nat)

  type Faults = Op -> bool

  datatype Result = Invalid | Committed | Raised | RollbackFailed | Aborted

  // Row i fails before its document is replaced.
  predicate FailsBefore(faults: Faults, i: nat) {
    faults(WriteStaged(i)) || faults(ReadOld(i)) || faults(WriteBackup(i)) || faults(SyncStaged(i))
    || faults(SyncBackup(i)) || faults(Replace(i))
  }

  predicate Stops(faults: Faults, i: nat) {
    FailsBefore(faults, i) || faults(Interrupt(i))
  }

  // How many rows, from row i on, go through and are remembered.
  function Progress(faults: Faults, i: nat): (n: nat)
    requires i <= 4
    ensures i <= n <= 4
    ensures n < 4 ==> Stops(faults, n)
    ensures forall k :: i <= k < n ==> !Stops(faults, k)
    decreases 4 - i
  {
    if i == 4 || Stops(faults, i) then i else Progress(faults, i + 1)
  }

  predicate Succeeds(faults: Faults) {
    !faults(MakeRoot) && Progress(faults, 0) == 4 && !faults(SyncRoot)
  }

  // The rollback of n documents leaves document k new: its undo fails, or the
  // rollback, newest first, is cut short before it gets there.
  predicate StaysNew(faults: Faults, n: nat, k: nat) {
    faults(Undo(k)) || exists j: nat :: k <= j < n && faults(Cut(j))
  }

  // Whether document k ends up with its new bytes.
  predicate EndsNew(faults: Faults, k: nat) {
    Succeeds(faults)
    || (!faults(MakeRoot)
        && var n := Progress(faults, 0);
           if k < n then StaysNew(faults, n, k) else k == n && n < 4 && !FailsBefore(faults, n))
  }

  predicate UndoFails(faults: Faults) {
    exists k: nat :: k < Progress(faults, 0) && faults(Undo(k))
  }

  predicate CutShort(faults: Faults) {
    exists k: nat :: k < Progress(faults, 0) && faults(Cut(k))
  }

  function NewBytes(c: Codec, p: Packet, i: nat): Bytes
    requires i < 4 && RoleAt(i) in p.documents
  {
    c.encode(p.documents[RoleAt(i)])
  }

  predicate Covered(p: Packet, files: Files) {
    forall k :: 0 <= k < 4 ==> RoleAt(k) in p.documents && Official(RoleAt(k)) in files
  }

  // What working on row i does to the files.
  ghost predicate RowDone(c: Codec, p: Packet, before: Files, after: Files, i: nat, replaced: bool) {
    && i < 4 && RoleAt(i) in p.documents && Official(RoleAt(i)) in before && Official(RoleAt(i)) in after
    && (forall x :: x in before && x.role != RoleAt(i) ==> x in after && after[x] == before[x])
    && after[Official(RoleAt(i))] == (if replaced then NewBytes(c, p, i) else before[Official(RoleAt(i))])
    && (replaced ==> Backup(RoleAt(i)) in after && after[Backup(RoleAt(i))] == before[Official(RoleAt(i))])
  }

  // The first n rows are replaced and backed up; `extra` says the next one is
  // replaced too.
  ghost predicate Halfway(c: Codec, p: Packet, before: Files, now: Files, n: nat, extra: bool) {
    && n <= 4 && Covered(p, before) && Covered(p, now)
    && (forall k :: 0 <= k < 4 ==>
          now[Official(RoleAt(k))]
          == if k < n || (k == n && extra) then NewBytes(c, p, k) else before[Official(RoleAt(k))])
    && (forall k :: 0 <= k < n ==>
          Backup(RoleAt(k)) in now && now[Backup(RoleAt(k))] == before[Official(RoleAt(k))])
  }

  lemma HalfwayStep(c: Codec, p: Packet, before: Files, now: Files, after: Files, n: nat, replaced: bool)
    requires n < 4 && Halfway(c, p, before, now, n, false) && RowDone(c, p, now, after, n, replaced)
    ensures Halfway(c, p, before, after, n, replaced)
    ensures replaced ==> Halfway(c, p, before, after, n + 1, false)
  {
    DistinctRoles();
  }

  // What committing a packet comes to: which result, and which of the four
  // documents have their new bytes.
  ghost predicate CommitEffect(c: Codec, p: Packet, before: Files, after: Files, faults: Faults, result: Result) {
    && (result.Invalid? <==> !Validates(c, before, p))
    && (result.Committed? <==> Validates(c, before, p) && Succeeds(faults))
    && (result.Aborted? <==> Validates(c, before, p) && !Succeeds(faults) && !faults(MakeRoot) && CutShort(faults))
    && (result.RollbackFailed? <==>
          && Validates(c, before, p) && !Succeeds(faults) && !faults(MakeRoot)
          && UndoFails(faults) && !CutShort(faults))
    && (result.Invalid? ==> after == before)
    && (!result.Invalid? ==> Covered(p, before) && Covered(p, after) && forall k :: 0 <= k < 4 ==>
          after[Official(RoleAt(k))] == if EndsNew(faults, k) then NewBytes(c, p, k) else before[Official(RoleAt(k))])
  }

  class Repository {
    var files: Files

    // Roll back the first n replaced documents, newest first.
    method Rollback(n: nat, faults: Faults) returns (clean: bool, aborted: bool)
      requires n <= 4
      requires forall k :: 0 <= k < n ==> Backup(RoleAt(k)) in files && Official(RoleAt(k)) in files
      modifies this
      ensures aborted <==> exists k: nat :: k < n && faults(Cut(k))
      ensures !aborted ==> (clean <==> forall k: nat :: k < n ==> !faults(Undo(k)))
      ensures forall k :: 0 <= k < 4 && Official(RoleAt(k)) in old(files) ==>
        && Official(RoleAt(k)) in files
        && files[Official(RoleAt(k))]
           == old(files[if k < n && !StaysNew(faults, n, k) then Backup(RoleAt(k)) else Official(RoleAt(k))])
    {
      clean := true;
      var k: nat := n;
      while k > 0
        invariant k <= n
        invariant forall j: nat :: k <= j < n ==> !faults(Cut(j))
        invariant clean <==> forall j: nat :: k <= j < n ==> !faults(Undo(j))
        invariant forall j :: 0 <= j < k ==>
          Backup(RoleAt(j)) in files && files[Backup(RoleAt(j))] == old(files[Backup(RoleAt(j))])
        invariant forall j :: 0 <= j < 4 && Official(RoleAt(j)) in old(files) ==>
          && Official(RoleAt(j)) in files
          && files[Official(RoleAt(j))]
             == old(files[if k <= j < n && !faults(Undo(j)) then Backup(RoleAt(j)) else Official(RoleAt(j))])
      {
        k := k - 1;
        if faults(Cut(k)) {
          return clean, true;
        } else if faults(Undo(k)) {
          clean := false;
        } else {
          files := files[Official(RoleAt(k)) := files[Backup(RoleAt(k))]] - {Backup(RoleAt(k))};
        }
      }
      return clean, false;
    }

    // Stage, back up and replace one document. `torn` is what a failed write
    // leaves behind in its own file.
    method ReplaceRow(c: Codec, p: Packet, i: nat, faults: Faults, torn: Bytes) returns (replaced: bool)
      requires i < 4 && RoleAt(i) in p.documents && Official(RoleAt(i)) in files
      modifies this
      ensures replaced <==> !FailsBefore(faults, i)
      ensures RowDone(c, p, old(files), files, i, replaced)
    {
      var role := RoleAt(i);
      if faults(WriteStaged(i)) {
        files := files[Staged(role) := torn];
        return false;
      }
      files := files[Staged(role) := c.encode(p.documents[role])];
      if faults(ReadOld(i)) {
        return false;
      }
      var current := files[Official(role)];
      if faults(WriteBackup(i)) {
        files := files[Backup(role) := torn];
        return false;
      }
      files := files[Backup(role) := current];
      if faults(SyncStaged(i)) || faults(SyncBackup(i)) || faults(Replace(i)) {
        return false;
      }
      files := files[Official(role) := files[Staged(role)]] - {Staged(role)};
      return true;
    }

    // Replace row after row; stop at the first that does not go through.
    method ReplaceAll(c: Codec, p: Packet, faults: Faults, torn: Bytes) returns (remembered: nat)
      requires Covered(p, files)
      modifies this
      ensures remembered == Progress(faults, 0)
      ensures Halfway(c, p, old(files), files, remembered, !FailsBefore(faults, remembered))
    {
      hide FailsBefore, RowDone;
      remembered := 0;
      while remembered < 4
        invariant remembered <= 4 && Progress(faults, 0) == Progress(faults, remembered)
        invariant Halfway(c, p, old(files), files, remembered, false)
      {
        ghost var before := files;
        var replaced := ReplaceRow(c, p, remembered, faults, torn);
        HalfwayStep(c, p, old(files), before, files, remembered, replaced);
        if !replaced || faults(Interrupt(remembered)) {
          return;
        }
        remembered := remembered + 1;
      }
    }

    // The whole transaction, under the repository lock.
    method CommitTransition(c: Codec, p: Packet, faults: Faults, torn: Bytes) returns (result: Result)
      modifies this
      ensures CommitEffect(c, p, old(files), files, faults, result)
    {
      hide Validates, FailsBefore, Progress;
      if !Validates(c, files, p) {
        return Invalid;
      }
      ValidatedRows(c, files, p);
      if faults(MakeRoot) {
        return Raised;
      }
      var remembered := ReplaceAll(c, p, faults, torn);
      if remembered < 4 || faults(SyncRoot) {
        var clean, aborted := Rollback(remembered, faults);
        return if aborted then Aborted else if clean then Raised else RollbackFailed;
      }
      return Committed;
    }
  }

  lemma ValidatedRows(c: Codec, files: Files, p: Packet)
    requires Validates(c, files, p)
    ensures Covered(p, files)
  {
    hide Consistent;
    forall k | 0 <= k < 4 ensures RoleAt(k) in p.documents && Official(RoleAt(k)) in files {
      assert RowHolds(c, files, p, k);
    }
  }

  lemma DistinctRoles()
    ensures forall i, k :: 0 <= i < k < 4 ==> RoleAt(i) != RoleAt(k)
  {
  }

  // ---------------------------------------------------------------------
  // All or nothing

  // No asynchronous exception lands between a replace and its bookkeeping.
  predicate Uninterrupted(faults: Faults) {
    var n := Progress(faults, 0);
    faults(MakeRoot) || (n < 4 ==> FailsBefore(faults, n))
  }

  // The documents, but for document n, are as the packet has them, or as they
  // were.
  ghost predicate NewBut(c: Codec, p: Packet, after: Files, n: nat)
    requires Covered(p, after)
  {
    forall k :: 0 <= k < 4 && k != n ==> after[Official(RoleAt(k))] == NewBytes(c, p, k)
  }

  ghost predicate OldBut(p: Packet, before: Files, after: Files, n: nat)
    requires Covered(p, before) && Covered(p, after)
  {
    forall k :: 0 <= k < 4 && k != n ==> after[Official(RoleAt(k))] == before[Official(RoleAt(k))]
  }

  ghost predicate OnlyInterrupted(c: Codec, p: Packet, before: Files, after: Files, n: nat)
    requires Covered(p, before) && Covered(p, after)
  {
    n < 4 && after[Official(RoleAt(n))] == NewBytes(c, p, n) && OldBut(p, before, after, n)
  }

  // A committed packet replaced all four documents. A commit that reports its
  // own failure left all four as they were, unless an interrupt separated a
  // replace from its bookkeeping: then it left exactly that one document new.
  lemma AllOrNothing(c: Codec, p: Packet, before: Files, after: Files, faults: Faults, result: Result)
    requires CommitEffect(c, p, before, after, faults, result)
    ensures result.Invalid? ==> after == before
    ensures result.Committed? ==> Covered(p, after) && NewBut(c, p, after, 4)
    ensures result.Raised? ==> Covered(p, before) && Covered(p, after)
    ensures result.Raised? && Uninterrupted(faults) ==> OldBut(p, before, after, 4)
    ensures result.Raised? && !Uninterrupted(faults) ==> OnlyInterrupted(c, p, before, after, Progress(faults, 0))
  {
    hide Validates, FailsBefore, Progress;
    if result.Raised? {
      forall k: nat | k < 4 && EndsNew(faults, k) ensures k == Progress(faults, 0) && !Uninterrupted(faults) {
        assert k < Progress(faults, 0) ==> UndoFails(faults) || CutShort(faults);
      }
    }
  }

  // Whatever went wrong, a document that was changed without a commit is
  // either that one, or the commit reported a failed or aborted rollback.
  lemma MixNeedsFailedUndo(c: Codec, p: Packet, before: Files, after: Files, faults: Faults, result: Result, k: nat)
    requires CommitEffect(c, p, before, after, faults, result)
    requires !result.Committed? && k < 4 && Official(RoleAt(k)) in before
    requires Official(RoleAt(k)) !in after || after[Official(RoleAt(k))] != before[Official(RoleAt(k))]
    ensures result.RollbackFailed? || result.Aborted? || (k == Progress(faults, 0) && !Uninterrupted(faults))
    ensures RoleAt(k) in p.documents && Official(RoleAt(k)) in after && after[Official(RoleAt(k))] == NewBytes(c, p, k)
  {
    hide Validates, FailsBefore, Progress;
    assert EndsNew(faults, k);
    if k < Progress(faults, 0) {
      assert UndoFails(faults) || CutShort(faults);
    }
  }

  // ---------------------------------------------------------------------
  // Once only

  // The exact three arms, under three different registry ids.
  predicate ThreeArms(adapters: seq<Adapter>) {
    && |adapters| == 3 && adapters[0].arm == Vanilla && adapters[1].arm == Manual && adapters[2].arm == Ecpa
    && |Ids(adapters)| == 3
  }

  // From unregistered documents the builder's own packet always passes its
  // check, and it fails on everything else.
  lemma BuildsExactly(c: Codec, files: Files, candidate: Candidate)
    ensures Build(c, files, candidate).Some? <==> Preimage(c, files).Some? && ThreeArms(candidate.adapters)
  {
  }

  // What building yields is what committing accepts.
  lemma BuiltPacketIsAdmission(c: Codec, files: Files, candidate: Candidate)
    requires Build(c, files, candidate).Some?
    ensures var p := Build(c, files, candidate).value;
      && Validates(c, files, p)
      && Study in p.documents && p.documents[Study].StudyDoc? && p.documents[Study].admitted
      && Official(Study) in files
      && c.parse(files[Official(Study)]).Some? && c.parse(files[Official(Study)]).value.StudyDoc?
      && !c.parse(files[Official(Study)]).value.admitted
  {
    hide Consistent, RowHolds;
    assert RoleAt(0) == Study;
  }

  // A built packet cannot be committed over its own result, unless two
  // different byte strings share a digest.
  lemma CannotCommitTwice(c: Codec, files: Files, candidate: Candidate, after: Files) returns (x: Bytes, y: Bytes)
    requires Faithful(c) && Build(c, files, candidate).Some?
    requires var p := Build(c, files, candidate).value;
      Official(Study) in after && Study in p.documents && after[Official(Study)] == c.encode(p.documents[Study])
    ensures !Validates(c, after, Build(c, files, candidate).value) || (x != y && c.sha(x) == c.sha(y))
  {
    BuiltPacketIsAdmission(c, files, candidate);
    hide Build, Consistent;
    var p := Build(c, files, candidate).value;
    x, y := files[Official(Study)], after[Official(Study)];
    assert c.parse(y) == Some(p.documents[Study]);
    if Validates(c, after, p) {
      assert RoleAt(0) == Study;
      assert RowHolds(c, files, p, 0) && RowHolds(c, after, p, 0);
    }
  }

  ghost predicate Collides(c: Codec) {
    exists x: Bytes, y: Bytes :: x != y && c.sha(x) == c.sha(y)
  }

  // The packet built from these files was committed over them.
  ghost predicate CommittedOver(c: Codec, files: Files, candidate: Candidate, after: Files, faults: Faults) {
    && Build(c, files, candidate).Some?
    && CommitEffect(c, Build(c, files, candidate).value, files, after, faults, Committed)
  }

  // From unregistered documents and the exact three arms a packet is built,
  // whatever commits it puts all four documents in place, and over what it put
  // in place the packet never validates again, short of a collision.
  lemma RegistersOnce(c: Codec, files: Files, candidate: Candidate, after: Files, faults: Faults)
    requires Faithful(c)
    ensures Build(c, files, candidate).Some? <==> Preimage(c, files).Some? && ThreeArms(candidate.adapters)
    ensures CommittedOver(c, files, candidate, after, faults) ==>
      var p := Build(c, files, candidate).value;
      Covered(p, after) && NewBut(c, p, after, 4) && (!Validates(c, after, p) || Collides(c))
  {
    BuildsExactly(c, files, candidate);
    hide Preimage, ThreeArms, Validates, EndsNew;
    if CommittedOver(c, files, candidate, after, faults) {
      hide Build, CommitEffect;
      var p := Build(c, files, candidate).value;
      AllOrNothing(c, p, files, after, faults, Committed);
      assert RoleAt(0) == Study;
      var x, y := CannotCommitTwice(c, files, candidate, after);
      assert x != y && c.sha(x) == c.sha(y) ==> Collides(c);
    }
  }
}
