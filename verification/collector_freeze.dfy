/** The constructor's reading of the preregistration, as it runs. */
module CollectorFreeze {
  import opened Wrappers
  import opened JournalBytes
  import opened HashChain
  import opened CollectorFacts
  import opened CollectorHistory
  import opened Collector
  import opened CollectorRuns
  import opened CollectorReplay
  import opened CollectorAgreement

  method CheckPhases(phases: seq<Phase>) returns (ok: bool)
    ensures ok <==> PhasesOk(phases)
  {
    var externals, clients, nonces, ids := {}, {}, {}, {};
    for n := 0 to |phases|
      invariant forall i :: 0 <= i < n ==> PhaseNamed(phases[i])
      invariant forall i, k :: 0 <= i < k < n ==> PhasesApart(phases[i], phases[k])
      invariant externals == set i | 0 <= i < n :: phases[i].externalId
      invariant clients == set i | 0 <= i < n :: phases[i].clientId
      invariant nonces == set i | 0 <= i < n :: phases[i].nonce
      invariant ids == set i | 0 <= i < n :: phases[i].phaseId
    {
      var p := phases[n];
      if !PhaseNamed(p) || p.externalId in externals || p.clientId in clients
         || p.nonce in nonces || p.phaseId in ids {
        return false;
      }
      externals, clients := externals + {p.externalId}, clients + {p.clientId};
      nonces, ids := nonces + {p.nonce}, ids + {p.phaseId};
    }
    return phases != [];
  }

  method CheckSenders(senders: seq<Sender>) returns (ok: bool)
    ensures ok <==> SendersOk(senders)
  {
    var pids, slots := {}, {};
    for n := 0 to |senders|
      invariant forall i :: 0 <= i < n ==> senders[i].process.assignedByHost
      invariant forall i, k :: 0 <= i < k < n ==> SendersApart(senders[i], senders[k])
      invariant pids == set i | 0 <= i < n :: senders[i].process.kernel.pid
      invariant slots == set i | 0 <= i < n :: RoleSlot(senders[i])
    {
      var s := senders[n];
      if !s.process.assignedByHost || s.process.kernel.pid in pids || RoleSlot(s) in slots {
        return false;
      }
      pids, slots := pids + {s.process.kernel.pid}, slots + {RoleSlot(s)};
    }
    assert slots == RoleSlots(senders);
    return slots == {(ApiServer, 0), (Worker, 0), (Worker, 1)};
  }

  method CheckRequirements(spec: Spec) returns (ok: bool)
    ensures ok <==> RequirementsOk(spec)
  {
    var ids := {};
    for n := 0 to |spec.phases|
      invariant ids == set i | 0 <= i < n :: spec.phases[i].phaseId
    {
      ids := ids + {spec.phases[n].phaseId};
    }
    assert ids == set p | p in spec.phases :: p.phaseId;
    if spec.requirements.Keys != ids {
      return false;
    }
    var left := ids;
    while left != {}
      invariant left <= ids
      invariant forall id :: id in ids && id !in left ==> RequirementSound(spec.requirements[id])
    {
      var id :| id in left;
      var r := spec.requirements[id];
      if r.attentionGroup < 0 || r.physicalAnchor <= 0 || r.threshold <= r.physicalAnchor
         || r.semanticAnchor < r.threshold || r.blockSize <= 0 || r.blockCount <= 0
         || r.physicalAnchor != r.blockCount * r.blockSize {
        return false;
      }
      left := left - {id};
    }
    return true;
  }

  // The service starts only on a spec that passes every check.
  method CheckSpec(spec: Spec) returns (ok: bool)
    ensures ok <==> WellFormed(spec)
  {
    if spec.planId == "" || spec.launchId == "" || spec.maxAge <= 0 || !(0 < spec.maxUploads <= 4096) {
      return false;
    }
    var phases := CheckPhases(spec.phases);
    var senders := CheckSenders(spec.senders);
    var requirements := true;
    if spec.schema != PlainSpec {
      requirements := CheckRequirements(spec);
    }
    return phases && senders && requirements;
  }

  // ---------------------------------------------------------------------
  // A sender whose path has a doubled slash

  const ODD := Sender(Process("h", ApiServer, 0, 0, true, Kernel(7, 1, "", "", 1)), 0, 0, "",
                      [SourceFile("/x//y", "/x/y", "d")])

  function Plain(rank: int): Sender {
    Sender(Process("h", Worker, rank, 0, true, Kernel(8 + rank, 1, "", "", 1)), 0, 0, "", [SourceFile("/z", "/z", "d")])
  }

  const ODD_PHASE := Phase("a", "b", "c", "e", [0, 1])
  const ODD_SPEC := Spec(PlainSpec, "p", "l", 1, 1, 1, [ODD, Plain(0), Plain(1)], [ODD_PHASE], map[])
  const ODD_FACT := Mapping(Common(ODD.process, "l", "p", 1, "r"), "e")

  function OddCall(c: Codec, io: Io): Call {
    Call(Peer(7, 0, 0), c.facts.fact(ODD_FACT), Some(ODD.process.kernel), Some(""), map["/x//y" := "d"], io)
  }

  // Its sources read back unchanged, but the paths in the journal are not
  // those in the spec.
  lemma DoubledSlashIsOdd()
    ensures SourceDigests(ODD.sources, map["/x//y" := "d"]) == Some(map["/x/y" := "d"]) && !NormalPaths(ODD)
  {
    var file := ODD.sources[0];
    assert [file][..0] == [] && ODD.sources == [file];
    assert "/x//y"[3] != "/x/y"[3];
    assert "/x//y" in ListedSources([file]);
    assert FrozenSources([file]) == map["/x/y" := "d"];
  }

  lemma OddSpecIsWellFormed()
    ensures WellFormed(ODD_SPEC)
    ensures SenderMap(ODD_SPEC.senders) == map[7 := ODD, 8 := Plain(0), 9 := Plain(1)]
    ensures PhaseMap(ODD_SPEC.phases) == map["e" := ODD_PHASE]
  {
    var senders := ODD_SPEC.senders;
    var none: seq<Sender> := [];
    assert senders[..2] == [ODD, Plain(0)] && [ODD, Plain(0)][..1] == [ODD] && [ODD][..0] == none;
    assert SenderMap([ODD]) == map[7 := ODD];
    assert SenderMap([ODD, Plain(0)]) == map[7 := ODD, 8 := Plain(0)];
    assert ODD_SPEC.phases[..0] == [];
    assert RoleSlot(senders[0]) == (ApiServer, 0) && RoleSlot(senders[1]) == (Worker, 0)
           && RoleSlot(senders[2]) == (Worker, 1);
    assert RoleSlots(senders) == {(ApiServer, 0), (Worker, 0), (Worker, 1)};
  }

  lemma OddCallIsScreened(site: Site, live: Live, io: Io)
    requires site.spec == ODD_SPEC && site.uid == 0 && io.now == 1
    requires site.codec.facts.parseFact(site.codec.facts.fact(ODD_FACT)) == Some(ODD_FACT)
    requires !live.failed && live.intake == EMPTY_INTAKE
    ensures Screen(site, live, OddCall(site.codec, io))
         == Some(Screened(ODD, map["/x/y" := "d"], ODD.process.kernel, Verdict(ODD_FACT, ODD_PHASE, MapUpdate)))
  {
    OddSpecIsWellFormed();
    DoubledSlashIsOdd();
    hide SenderMap, PhaseMap, SourceDigests, WellFormed;
  }

  // The record its mapping leaves in the journal.
  function OddBody(site: Site): Body {
    Recorded(site, Entry(site.codec.facts.fact(ODD_FACT), ODD, Some(1), Verdict(ODD_FACT, ODD_PHASE, MapUpdate)))
  }

  lemma OddIsAdmitted(site: Site, live: Live, io: Io)
    requires site.spec == ODD_SPEC && site.uid == 0 && io.now == 1
    requires site.codec.facts.parseFact(site.codec.facts.fact(ODD_FACT)) == Some(ODD_FACT)
    requires !live.failed && live.intake == EMPTY_INTAKE && live.entries == []
    requires Append(FormatOf(site.codec), None, live.log, OddBody(site), io).1 == Done
    ensures var (after, ack) := AcceptStep(site, live, OddCall(site.codec, io));
      ack.Some? && !after.failed && after.entries != [] && !NormalPaths(after.entries[0].sender)
  {
    DoubledSlashIsOdd();
    OddCallIsScreened(site, live, io);
    ScreenedIsRecorded(site, live, OddCall(site.codec, io));
    hide Screen, Append, Judge, Note, NormalPaths, Recorded;
  }

  // A collector may be frozen with such a sender, admits and acknowledges its
  // mapping, and has then a journal that no replay accepts.
  lemma OddSenderSpoilsReplay(site: Site, opening: Io, io: Io)
    requires LawfulCodec(site.codec) && site.spec == ODD_SPEC && site.uid == 0
    requires site.codec.facts.parseFact(site.codec.facts.fact(ODD_FACT)) == Some(ODD_FACT)
    requires CanOpen(site, opening) && opening.now <= io.now == 1
    requires Append(FormatOf(site.codec), None, Opened(site, opening).log, OddBody(site), io).1 == Done
    ensures WellFormed(site.spec)
    ensures var (live, acks) := Run(site, opening, [OddCall(site.codec, io)]);
      && |acks| == 1 && acks[0].Some? && !live.failed
      && Judgement(VerifierFor(site), live.log.file, Some(Published(site, live))).Err?
  {
    hide AcceptStep, Append, WellFormed, Recorded, NormalPaths, Judgement, Concludes, LawfulCodec, SenderMap, PhaseMap;
    var call := OddCall(site.codec, io);
    OddSpecIsWellFormed();
    OddIsAdmitted(site, Opened(site, opening), io);
    RunStep(site, opening, [call], 0);
    assert [call][..0] == [] && [call][..1] == [call];
    assert Run(site, opening, []) == (Opened(site, opening), []);
    assert Monotone(opening, [call]);
    hide *;
    UnfailedIsIntact(site, opening, [call]);
    LiveReplayAgreement(site, opening, [call]);
    OddIsConcluded(site, Run(site, opening, [call]).0);
  }

  lemma OddIsConcluded(site: Site, live: Live)
    requires Concludes(site, live) && live.entries != [] && !NormalPaths(live.entries[0].sender)
    ensures Judgement(VerifierFor(site), live.log.file, Some(Published(site, live))).Err?
  {
    hide Judgement, Verified, NormalPaths;
    assert !AllNormal(live.entries);
  }
}
