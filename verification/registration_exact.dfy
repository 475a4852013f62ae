/** Which packets a commit takes, which documents it starts from, and what it publishes. */
module RegistrationExact {
  import opened Wrappers
  import opened JournalBytes
  import opened Registration

  function Stored(c: Codec, files: Files, role: Role): Option<Document> {
    if Official(role) in files then c.parse(files[Official(role)]) else None
  }

  // The four official documents before any registration.
  ghost predicate Unregistered(c: Codec, files: Files) {
    && (exists blockers, body :: Stored(c, files, Study) == Some(StudyDoc(false, false, blockers, body)))
    && (exists blockers, sha, sources, body ::
          Stored(c, files, Deployment) == Some(DeploymentDoc(false, false, blockers, sha, sources, body)))
    && Stored(c, files, Registry) == Some(RegistryDoc([]))
    && (exists body :: Stored(c, files, Matrix) == Some(MatrixDoc(false, body)))
  }

  // A packet is built exactly from unregistered documents and the three arms.
  lemma BuildsFromUnregistered(c: Codec, files: Files, candidate: Candidate)
    ensures Build(c, files, candidate).Some? <==> Unregistered(c, files) && ThreeArms(candidate.adapters)
  {
    BuildsExactly(c, files, candidate);
    assert RoleAt(0) == Study && RoleAt(1) == Deployment && RoleAt(2) == Registry && RoleAt(3) == Matrix;
    if Preimage(c, files).Some? {
      var study, deployment, matrix :=
        c.parse(files[Official(Study)]).value, c.parse(files[Official(Deployment)]).value,
        c.parse(files[Official(Matrix)]).value;
      assert study == StudyDoc(false, false, study.blockers, study.body);
      assert deployment == DeploymentDoc(false, false, deployment.blockers, deployment.studySha, deployment.sources,
                                         deployment.body);
      assert matrix == MatrixDoc(false, matrix.body);
    }
    hide ThreeArms, Build;
  }

  predicate ThreeIds(adapters: seq<Adapter>) {
    && |adapters| == 3
    && adapters[0].arm == Vanilla && adapters[1].arm == Manual && adapters[2].arm == Ecpa
    && adapters[0].id != adapters[1].id && adapters[0].id != adapters[2].id && adapters[1].id != adapters[2].id
  }

  // Four admitted documents that agree: the deployment names the digest of
  // exactly this study, and each of its source lists the registry's three ids.
  predicate Agree(c: Codec, study: Document, studyBytes: Bytes, deployment: Document, registry: Document,
                  matrix: Document) {
    && study.StudyDoc? && study.admitted && study.admissible && study.blockers == []
    && deployment.DeploymentDoc? && deployment.registered && deployment.admissible && deployment.blockers == []
    && deployment.studySha == c.sha(studyBytes)
    && registry.RegistryDoc? && ThreeIds(registry.adapters)
    && (forall s :: s in deployment.sources ==>
          s == {registry.adapters[0].id, registry.adapters[1].id, registry.adapters[2].id})
    && matrix.MatrixDoc? && matrix.experiment
  }

  lemma ThreeTells(adapters: seq<Adapter>)
    ensures ThreeArms(adapters) <==> ThreeIds(adapters)
    ensures |adapters| == 3 ==> Ids(adapters) == {adapters[0].id, adapters[1].id, adapters[2].id}
  {
    if |adapters| == 3 {
      var a, b, d := adapters[0].id, adapters[1].id, adapters[2].id;
      assert Ids(adapters) == {a, b, d};
      assert a == b ==> {a, b, d} == {a, d};
      assert a == d ==> {a, b, d} == {a, b};
      assert b == d ==> {a, b, d} == {a, b};
    }
  }

  lemma AgreeTells(c: Codec, documents: map<Role, Document>)
    ensures Consistent(c, documents) <==>
      && documents.Keys == {Study, Deployment, Registry, Matrix}
      && Agree(c, documents[Study], c.encode(documents[Study]), documents[Deployment], documents[Registry],
               documents[Matrix])
  {
    if documents.Keys == {Study, Deployment, Registry, Matrix} && documents[Registry].RegistryDoc? {
      ThreeTells(documents[Registry].adapters);
      if documents[Deployment].DeploymentDoc? {
        var sources := documents[Deployment].sources;
        assert forall k :: 0 <= k < |sources| ==> sources[k] in sources;
      }
    }
    hide Ids, ThreeIds;
  }

  // Row i of the packet: its place in the write order, the document on disk
  // and the one to come.
  predicate RowNames(c: Codec, files: Files, p: Packet, i: nat, role: Role) {
    && i < |p.rows| && role in p.documents && Official(role) in files
    && p.rows[i] == Row(role, c.sha(files[Official(role)]), c.sha(c.encode(p.documents[role])))
  }

  // The write set is exactly the four files, over exactly the documents that
  // are there, and the documents agree.
  lemma ValidatesExactly(c: Codec, files: Files, p: Packet)
    ensures Validates(c, files, p) <==>
      && p.withinBoundary && |p.rows| == 4 && p.rowsDigest == c.sha(c.manifest(p.rows))
      && RowNames(c, files, p, 0, Study) && RowNames(c, files, p, 1, Deployment)
      && RowNames(c, files, p, 2, Registry) && RowNames(c, files, p, 3, Matrix)
      && p.documents.Keys == {Study, Deployment, Registry, Matrix}
      && Agree(c, p.documents[Study], c.encode(p.documents[Study]), p.documents[Deployment], p.documents[Registry],
               p.documents[Matrix])
  {
    AgreeTells(c, p.documents);
    hide Consistent, Agree;
    assert RoleAt(0) == Study && RoleAt(1) == Deployment && RoleAt(2) == Registry && RoleAt(3) == Matrix;
    if |p.rows| == 4 {
      forall i: nat | i < 4 ensures RowHolds(c, files, p, i) <==> RowNames(c, files, p, i, RoleAt(i)) {
      }
    }
  }

  // The documents on disk are registered and agree with each other.
  predicate Registered(c: Codec, files: Files) {
    && Official(Study) in files
    && Stored(c, files, Study).Some? && Stored(c, files, Deployment).Some?
    && Stored(c, files, Registry).Some? && Stored(c, files, Matrix).Some?
    && Agree(c, Stored(c, files, Study).value, files[Official(Study)], Stored(c, files, Deployment).value,
             Stored(c, files, Registry).value, Stored(c, files, Matrix).value)
  }

  lemma CommittedIsRegistered(c: Codec, p: Packet, before: Files, after: Files, faults: Faults)
    requires Faithful(c) && CommitEffect(c, p, before, after, faults, Committed)
    ensures Registered(c, after)
    ensures forall role :: role in p.documents ==> Stored(c, after, role) == Some(p.documents[role])
  {
    ValidatesExactly(c, before, p);
    AllOrNothing(c, p, before, after, faults, Committed);
    hide CommitEffect, Validates, Agree, RowNames;
    assert RoleAt(0) == Study && RoleAt(1) == Deployment && RoleAt(2) == Registry && RoleAt(3) == Matrix;
    forall k | 0 <= k < 4 ensures Stored(c, after, RoleAt(k)) == Some(p.documents[RoleAt(k)]) {
    }
  }

  // Committing the packet built from a candidate puts the candidate on disk:
  // its three documents' contents, its adapters, and as many source lists as
  // the deployment had.
  lemma CommitPublishesCandidate(c: Codec, files: Files, candidate: Candidate, after: Files, faults: Faults)
    requires Faithful(c) && CommittedOver(c, files, candidate, after, faults)
    ensures Registered(c, after)
    ensures Stored(c, after, Study).value.body == candidate.study
    ensures Stored(c, after, Deployment).value.body == candidate.deployment
    ensures Stored(c, after, Registry).value.adapters == candidate.adapters
    ensures Stored(c, after, Matrix).value.body == candidate.matrix
    ensures Stored(c, files, Deployment).Some? && Stored(c, files, Deployment).value.DeploymentDoc?
    ensures |Stored(c, after, Deployment).value.sources| == |Stored(c, files, Deployment).value.sources|
  {
    BuildsFromUnregistered(c, files, candidate);
    CommittedIsRegistered(c, Build(c, files, candidate).value, files, after, faults);
    hide Validates, Registered, CommittedOver, CommitEffect, ThreeArms;
    assert RoleAt(1) == Deployment;
  }

  // ---------------------------------------------------------------------
  // Faults

  // Everything needed to replace document i works.
  predicate Replaces(faults: Faults, i: nat) {
    && !faults(WriteStaged(i)) && !faults(ReadOld(i)) && !faults(WriteBackup(i))
    && !faults(SyncStaged(i)) && !faults(SyncBackup(i)) && !faults(Replace(i))
  }

  // The first n documents are replaced and remembered, and the next is not.
  predicate Remembers(faults: Faults, n: nat) {
    && n <= 4
    && (forall i :: 0 <= i < n ==> Replaces(faults, i) && !faults(Interrupt(i)))
    && (n < 4 ==> !Replaces(faults, n) || faults(Interrupt(n)))
  }

  lemma {:induction false} ProgressTells(faults: Faults, i: nat)
    requires i <= 4 && forall k :: 0 <= k < i ==> Replaces(faults, k) && !faults(Interrupt(k))
    ensures Remembers(faults, Progress(faults, i))
    decreases 4 - i
  {
    if i < 4 && !Stops(faults, i) {
      ProgressTells(faults, i + 1);
    }
  }

  // A valid packet is committed iff nothing fails. Otherwise, once the working
  // directory is made, the remembered documents are undone, newest first: an
  // unexpected exception aborts this, a failing undo is reported. A document
  // is new iff the packet was committed, its undo failed or was not reached,
  // or it was replaced and the exception came before it was remembered.
  lemma CommitExactly(c: Codec, p: Packet, before: Files, after: Files, faults: Faults, result: Registration.Result)
      returns (n: nat)
    requires CommitEffect(c, p, before, after, faults, result) && Validates(c, before, p)
    ensures Remembers(faults, n)
    ensures result.Committed? <==> !faults(MakeRoot) && n == 4 && !faults(SyncRoot)
    ensures result.Aborted? <==> !result.Committed? && !faults(MakeRoot) && exists k: nat :: k < n && faults(Cut(k))
    ensures result.RollbackFailed? <==>
      && !result.Committed? && !result.Aborted? && !faults(MakeRoot) && exists k: nat :: k < n && faults(Undo(k))
    ensures !result.Invalid? && Covered(p, before) && Covered(p, after)
    ensures forall k: nat :: k < 4 ==>
      after[Official(RoleAt(k))]
      == if IsNew(faults, result, n, k) then NewBytes(c, p, k) else before[Official(RoleAt(k))]
  {
    n := Progress(faults, 0);
    ProgressTells(faults, 0);
    hide Validates, Covered, Progress;
  }

  predicate IsNew(faults: Faults, result: Registration.Result, n: nat, k: nat) {
    || result.Committed?
    || (!faults(MakeRoot) && k < n && (faults(Undo(k)) || exists j: nat :: k <= j < n && faults(Cut(j))))
    || (!faults(MakeRoot) && k == n && Replaces(faults, k))
  }
}
