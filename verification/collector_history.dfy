/**
 Histories of admitted facts: every entry passed the predicate against the
 intake left by the entries before it. Live runs and accepted replays are both
 such histories, so what is proved here holds for both.
 */
module CollectorHistory {
  import opened Wrappers
  import opened JournalBytes
  import opened CollectorFacts

  datatype Entry = Entry(raw: Bytes, sender: Sender, now: Option<int>, verdict: Verdict)

  function Folded(c: FactCodec, log: seq<Entry>): Intake {
    if log == [] then EMPTY_INTAKE else
    var last := log[|log| - 1];
    Note(Folded(c, log[..|log| - 1]), last.verdict, c.sha(last.raw))
  }

  ghost predicate Admissible(c: FactCodec, spec: Spec, log: seq<Entry>) {
    log == [] ||
    var last, front := log[|log| - 1], log[..|log| - 1];
    && Admissible(c, spec, front)
    && last.sender in spec.senders
    && c.sha(last.raw) !in Folded(c, front).seen
    && Judge(c, spec, last.sender, last.raw, last.now, Folded(c, front)) == Ok(last.verdict)
  }

  lemma AdmissibleExtend(c: FactCodec, spec: Spec, log: seq<Entry>, e: Entry)
    requires Admissible(c, spec, log)
    requires e.sender in spec.senders && c.sha(e.raw) !in Folded(c, log).seen
    requires Judge(c, spec, e.sender, e.raw, e.now, Folded(c, log)) == Ok(e.verdict)
    ensures Admissible(c, spec, log + [e])
    ensures Folded(c, log + [e]) == Note(Folded(c, log), e.verdict, c.sha(e.raw))
  {
    assert (log + [e])[..|log|] == log;
  }

  lemma {:induction false} AdmissiblePrefix(c: FactCodec, spec: Spec, log: seq<Entry>, n: nat)
    requires Admissible(c, spec, log) && n <= |log|
    ensures Admissible(c, spec, log[..n])
  {
    if n == |log| {
      assert log[..n] == log;
    } else {
      var front := log[..|log| - 1];
      AdmissiblePrefix(c, spec, front, n);
      assert front[..n] == log[..n];
    }
  }

  // What one admitted entry was checked against.
  lemma EntryWasJudged(c: FactCodec, spec: Spec, log: seq<Entry>, i: nat)
    requires Admissible(c, spec, log) && i < |log|
    ensures Judge(c, spec, log[i].sender, log[i].raw, log[i].now, Folded(c, log[..i])) == Ok(log[i].verdict)
    ensures c.sha(log[i].raw) !in Folded(c, log[..i]).seen
    ensures Folded(c, log[..i + 1]) == Note(Folded(c, log[..i]), log[i].verdict, c.sha(log[i].raw))
    ensures log[i].sender in spec.senders
  {
    AdmissiblePrefix(c, spec, log, i + 1);
    assert log[..i + 1][..i] == log[..i];
  }

  // The part of an approval the counting and ordering arguments use.
  ghost predicate Sound(spec: Spec, sender: Sender, st: Intake, v: Verdict) {
    var runtime := v.fact.common.runtime;
    match v.update
    case MapUpdate =>
      && v.fact.Mapping? && runtime !in st.mappings
      && v.fact.externalId in PhaseMap(spec.phases)
      && v.phase == PhaseMap(spec.phases)[v.fact.externalId]
      && (forall r :: r in st.mappings ==> st.mappings[r].externalId != v.fact.externalId)
    case ProjectionUpdate(rank) =>
      && v.fact.Projection? && rank == sender.process.ordinal && sender.process.role == Worker
      && runtime in st.mappings && v.phase == st.mappings[runtime]
      && Slot(runtime, rank) !in st.projected
    case UploadUpdate(rank) =>
      && v.fact.Upload? && rank == sender.process.ordinal && sender.process.role == Worker
      && runtime in st.mappings && v.phase == st.mappings[runtime]
      && Get(st.uploads, Slot(runtime, rank), 0) < spec.maxUploads
      && v.fact.after > Get(st.uploadStamps, Slot(runtime, rank), 0)
  }

  lemma JudgeIsSound(c: FactCodec, spec: Spec, sender: Sender, raw: Bytes, now: Option<int>, st: Intake)
    requires Judge(c, spec, sender, raw, now, st).Ok?
    ensures Sound(spec, sender, st, Judge(c, spec, sender, raw, now, st).value)
  {
  }

  lemma EntryIsSound(c: FactCodec, spec: Spec, log: seq<Entry>, i: nat)
    requires Admissible(c, spec, log) && i < |log|
    ensures Sound(spec, log[i].sender, Folded(c, log[..i]), log[i].verdict)
    ensures Folded(c, log[..i + 1]) == Note(Folded(c, log[..i]), log[i].verdict, c.sha(log[i].raw))
  {
    EntryWasJudged(c, spec, log, i);
    JudgeIsSound(c, spec, log[i].sender, log[i].raw, log[i].now, Folded(c, log[..i]));
  }

  // ---------------------------------------------------------------------
  // Mappings are injective into the preregistered phases

  ghost predicate MappingsInjective(spec: Spec, st: Intake) {
    && (forall r :: r in st.mappings ==>
          st.mappings[r].externalId in PhaseMap(spec.phases)
          && st.mappings[r] == PhaseMap(spec.phases)[st.mappings[r].externalId])
    && (forall r, q :: r in st.mappings && q in st.mappings && r != q ==>
          st.mappings[r].externalId != st.mappings[q].externalId)
  }

  lemma {:induction false} PhaseMapKeys(phases: seq<Phase>)
    ensures |PhaseMap(phases)| <= |phases|
    ensures forall x :: x in PhaseMap(phases) ==> PhaseMap(phases)[x] in phases && PhaseMap(phases)[x].externalId == x
  {
    if phases == [] {
    } else {
      var front := phases[..|phases| - 1];
      PhaseMapKeys(front);
      var last := phases[|phases| - 1];
      assert PhaseMap(phases).Keys == PhaseMap(front).Keys + {last.externalId};
    }
  }

  lemma NoteKeepsMappings(spec: Spec, sender: Sender, st: Intake, v: Verdict, digest: Digest)
    requires Sound(spec, sender, st, v) && MappingsInjective(spec, st)
    ensures MappingsInjective(spec, Note(st, v, digest))
  {
    PhaseMapKeys(spec.phases);
    hide PhaseMap;
    var after, runtime := Note(st, v, digest).mappings, v.fact.common.runtime;
    if v.update.MapUpdate? {
      assert after == st.mappings[runtime := v.phase] && v.phase.externalId == v.fact.externalId;
    } else {
      assert after == st.mappings;
    }
  }

  lemma {:induction false} MappingsStayInjective(c: FactCodec, spec: Spec, log: seq<Entry>)
    requires Admissible(c, spec, log)
    ensures MappingsInjective(spec, Folded(c, log))
  {
    if log == [] {
    } else {
      var n := |log| - 1;
      MappingsStayInjective(c, spec, log[..n]);
      EntryIsSound(c, spec, log, n);
      NoteKeepsMappings(spec, log[n].sender, Folded(c, log[..n]), log[n].verdict, c.sha(log[n].raw));
    }
  }

  lemma {:induction false} InjectiveImageCount(m: map<string, Phase>, targets: set<string>)
    requires forall r :: r in m ==> m[r].externalId in targets
    requires forall r, q :: r in m && q in m && r != q ==> m[r].externalId != m[q].externalId
    ensures |m| <= |targets|
    decreases |m|
  {
    if m.Keys == {} {
    } else {
      var r :| r in m;
      var rest := m - {r};
      assert rest.Keys == m.Keys - {r};
      InjectiveImageCount(rest, targets - {m[r].externalId});
    }
  }

  // At most one runtime per preregistered phase.
  lemma MappingsWithinPhases(c: FactCodec, spec: Spec, log: seq<Entry>)
    requires Admissible(c, spec, log)
    ensures |Folded(c, log).mappings| <= |PhaseMap(spec.phases)| <= |spec.phases|
  {
    MappingsStayInjective(c, spec, log);
    PhaseMapKeys(spec.phases);
    InjectiveImageCount(Folded(c, log).mappings, PhaseMap(spec.phases).Keys);
  }

  // ---------------------------------------------------------------------
  // Barrier stamps strictly increase per runtime and rank

  ghost predicate IsUpload(e: Entry, slot: Slot) {
    && e.verdict.update.UploadUpdate? && e.verdict.fact.Upload?
    && Slot(e.verdict.fact.common.runtime, e.verdict.update.rank) == slot
  }

  ghost predicate StampReached(st: Intake, slot: Slot, least: int) {
    slot in st.uploadStamps && least <= st.uploadStamps[slot]
  }

  lemma NoteKeepsStamp(spec: Spec, sender: Sender, st: Intake, v: Verdict, digest: Digest, slot: Slot, least: int)
    requires Sound(spec, sender, st, v)
    requires StampReached(st, slot, least)
          || (v.update.UploadUpdate? && v.fact.Upload? && least == v.fact.after
              && Slot(v.fact.common.runtime, v.update.rank) == slot)
    ensures StampReached(Note(st, v, digest), slot, least)
  {
  }

  lemma {:induction false} LastStampKept(c: FactCodec, spec: Spec, log: seq<Entry>, i: nat, slot: Slot)
    requires Admissible(c, spec, log) && i < |log| && IsUpload(log[i], slot)
    ensures StampReached(Folded(c, log), slot, log[i].verdict.fact.after)
  {
    hide Admissible, Folded, Note, Sound;
    var n := |log| - 1;
    EntryIsSound(c, spec, log, n);
    if i < n {
      AdmissiblePrefix(c, spec, log, n);
      LastStampKept(c, spec, log[..n], i, slot);
    }
    NoteKeepsStamp(spec, log[n].sender, Folded(c, log[..n]), log[n].verdict, c.sha(log[n].raw), slot,
                   log[i].verdict.fact.after);
    FoldedStep(c, log);
  }

  lemma FoldedStep(c: FactCodec, log: seq<Entry>)
    requires log != []
    ensures var n := |log| - 1;
      Folded(c, log) == Note(Folded(c, log[..n]), log[n].verdict, c.sha(log[n].raw))
  {
  }

  lemma {:induction false} StampsArePositive(c: FactCodec, spec: Spec, log: seq<Entry>, slot: Slot)
    requires Admissible(c, spec, log)
    ensures Get(Folded(c, log).uploadStamps, slot, 0) >= 0
  {
    if log == [] {
    } else {
      StampsArePositive(c, spec, log[..|log| - 1], slot);
      EntryIsSound(c, spec, log, |log| - 1);
      assert log[..|log| - 1 + 1] == log;
    }
  }

  lemma BarrierStampsIncrease(c: FactCodec, spec: Spec, log: seq<Entry>, i: nat, k: nat, slot: Slot)
    requires Admissible(c, spec, log) && i < k < |log|
    requires IsUpload(log[i], slot) && IsUpload(log[k], slot)
    ensures 0 < log[i].verdict.fact.after < log[k].verdict.fact.after
  {
    AdmissiblePrefix(c, spec, log, k);
    LastStampKept(c, spec, log[..k], i, slot);
    AdmissiblePrefix(c, spec, log, i);
    StampsArePositive(c, spec, log[..i], slot);
    EntryIsSound(c, spec, log, k);
    EntryIsSound(c, spec, log, i);
  }

  // ---------------------------------------------------------------------
  // Admissions are bounded

  ghost function Pick<T(!new)>(s: set<T>): T
    requires s != {}
  {
    var x :| x in s; x
  }

  ghost function Total(m: map<Slot, nat>): nat
    decreases |m|
  {
    if m.Keys == {} then 0 else
    var k := Pick(m.Keys);
    assert (m - {k}).Keys == m.Keys - {k};
    m[k] + Total(m - {k})
  }

  lemma {:induction false} TotalRemove(m: map<Slot, nat>, k: Slot)
    requires k in m
    ensures Total(m) == m[k] + Total(m - {k})
    decreases |m|
  {
    var p := Pick(m.Keys);
    if p != k {
      assert (m - {p}).Keys == m.Keys - {p} && (m - {k}).Keys == m.Keys - {k};
      TotalRemove(m - {p}, k);
      TotalRemove(m - {k}, p);
      assert m - {p} - {k} == m - {k} - {p};
    }
  }

  lemma TotalUpdate(m: map<Slot, nat>, k: Slot, v: nat)
    ensures Total(m[k := v]) + Get(m, k, 0) == Total(m) + v
  {
    TotalRemove(m[k := v], k);
    assert m[k := v] - {k} == m - {k};
    if k in m {
      TotalRemove(m, k);
    } else {
      assert m - {k} == m;
    }
  }

  lemma {:induction false} TotalBound(m: map<Slot, nat>, most: nat)
    requires forall k :: k in m ==> m[k] <= most
    ensures Total(m) <= |m.Keys| * most
    decreases |m|
  {
    if m.Keys == {} {
    } else {
      var k := Pick(m.Keys);
      var rest := m - {k};
      assert rest.Keys == m.Keys - {k};
      TotalBound(rest, most);
      OneMore(|rest.Keys|, most);
    }
  }

  lemma OneMore(n: nat, most: nat)
    ensures (n + 1) * most == n * most + most
  {
  }

  ghost predicate SlotsOver(slots: set<Slot>, runtimes: set<string>) {
    forall x :: x in slots ==> x.runtime in runtimes && (x.rank == 0 || x.rank == 1)
  }

  lemma {:induction false} SlotCount(slots: set<Slot>, runtimes: set<string>)
    requires SlotsOver(slots, runtimes)
    ensures |slots| <= 2 * |runtimes|
    decreases |runtimes|
  {
    if runtimes == {} {
      assert slots == {};
    } else {
      var r :| r in runtimes;
      var mine := {Slot(r, 0), Slot(r, 1)};
      SlotCount(slots - mine, runtimes - {r});
      assert slots <= (slots - mine) + mine;
      SubsetCount(slots, (slots - mine) + mine);
    }
  }

  lemma {:induction false} SubsetCount<T>(a: set<T>, b: set<T>)
    requires a <= b
    ensures |a| <= |b|
    decreases |a|
  {
    if a == {} {
    } else {
      var x :| x in a;
      SubsetCount(a - {x}, b - {x});
    }
  }

  // What every admission history keeps about its counters.
  ghost predicate Counted(spec: Spec, st: Intake, length: nat) {
    && length == |st.mappings| + |st.projected| + Total(st.uploads)
    && SlotsOver(st.projected, st.mappings.Keys)
    && SlotsOver(st.uploads.Keys, st.mappings.Keys)
    && (forall k :: k in st.uploads ==> st.uploads[k] <= spec.maxUploads)
  }

  lemma WorkerRanks(spec: Spec, s: Sender)
    requires SendersOk(spec.senders) && s in spec.senders && s.process.role == Worker
    ensures s.process.ordinal == 0 || s.process.ordinal == 1
  {
    var slot := RoleSlot(s);
    assert slot in RoleSlots(spec.senders);
    assert slot in {(ApiServer, 0), (Worker, 0), (Worker, 1)};
  }

  lemma MapKeepsCounts(spec: Spec, st: Intake, v: Verdict, digest: Digest, length: nat)
    requires Counted(spec, st, length)
    requires v.update.MapUpdate? && v.fact.common.runtime !in st.mappings
    ensures Counted(spec, Note(st, v, digest), length + 1)
  {
    assert Note(st, v, digest).mappings.Keys == st.mappings.Keys + {v.fact.common.runtime};
  }

  lemma UploadKeepsCounts(spec: Spec, st: Intake, v: Verdict, digest: Digest, length: nat)
    requires Counted(spec, st, length)
    requires v.update.UploadUpdate? && (v.update.rank == 0 || v.update.rank == 1)
    requires v.fact.common.runtime in st.mappings
    requires Get(st.uploads, Slot(v.fact.common.runtime, v.update.rank), 0) < spec.maxUploads
    ensures Counted(spec, Note(st, v, digest), length + 1)
  {
    hide Total;
    var slot := Slot(v.fact.common.runtime, v.update.rank);
    TotalUpdate(st.uploads, slot, Get(st.uploads, slot, 0) + 1);
  }

  lemma NoteKeepsCounts(spec: Spec, sender: Sender, st: Intake, v: Verdict, digest: Digest, length: nat)
    requires SendersOk(spec.senders) && Counted(spec, st, length) && sender in spec.senders
    requires Sound(spec, sender, st, v)
    ensures Counted(spec, Note(st, v, digest), length + 1)
  {
    match v.update
    case MapUpdate =>
      MapKeepsCounts(spec, st, v, digest, length);
    case ProjectionUpdate(rank) =>
      WorkerRanks(spec, sender);
    case UploadUpdate(rank) =>
      WorkerRanks(spec, sender);
      UploadKeepsCounts(spec, st, v, digest, length);
  }

  lemma {:induction false} HistoryIsCounted(c: FactCodec, spec: Spec, log: seq<Entry>)
    requires WellFormed(spec) && Admissible(c, spec, log)
    ensures Counted(spec, Folded(c, log), |log|)
  {
    if log != [] {
      var n := |log| - 1;
      HistoryIsCounted(c, spec, log[..n]);
      EntryIsSound(c, spec, log, n);
      NoteKeepsCounts(spec, log[n].sender, Folded(c, log[..n]), log[n].verdict, c.sha(log[n].raw), n);
    } else {
      assert EMPTY_INTAKE.uploads.Keys == {};
    }
  }

  lemma CountsGiveBound(spec: Spec, st: Intake, length: nat)
    requires spec.maxUploads >= 0 && Counted(spec, st, length) && |st.mappings| <= |spec.phases|
    ensures length <= |spec.phases| * (1 + 2 + 2 * spec.maxUploads)
  {
    hide Total;
    var m, most := |st.mappings.Keys|, spec.maxUploads;
    SlotCount(st.projected, st.mappings.Keys);
    SlotCount(st.uploads.Keys, st.mappings.Keys);
    TotalBound(st.uploads, most);
    CountArithmetic(length, m, |st.projected|, |st.uploads.Keys|, Total(st.uploads), |spec.phases|, most);
  }

  lemma CountArithmetic(length: nat, mapped: nat, projected: nat, slots: nat, uploads: nat, phases: nat, most: nat)
    requires length == mapped + projected + uploads && mapped <= phases
    requires projected <= 2 * mapped && slots <= 2 * mapped && uploads <= slots * most
    ensures length <= phases * (1 + 2 + 2 * most)
  {
    Scale(slots, 2 * mapped, most);
    Scale(mapped, phases, 3 + 2 * most);
    assert 2 * mapped * most + 3 * mapped == mapped * (3 + 2 * most);
  }

  lemma Scale(a: nat, b: nat, k: nat)
    requires a <= b
    ensures a * k <= b * k
  {
  }

  function MostAdmissions(spec: Spec): int {
    |spec.phases| * (1 + 2 + 2 * spec.maxUploads)
  }

  // No history of admissions, whatever the senders do, is longer than the
  // preregistered phases allow.
  lemma AdmissionsBounded(c: FactCodec, spec: Spec, log: seq<Entry>)
    requires WellFormed(spec) && Admissible(c, spec, log)
    ensures |log| <= MostAdmissions(spec)
  {
    HistoryIsCounted(c, spec, log);
    MappingsWithinPhases(c, spec, log);
    CountsGiveBound(spec, Folded(c, log), |log|);
  }
}
