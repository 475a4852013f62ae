/** What the gate facts of a journal are, on the records they were derived from. */
module LoopbackFacts {
  import opened Wrappers
  import opened JournalBytes
  import opened HashChain
  import opened LoopbackAuthority
  import opened LoopbackJournal
  import opened LoopbackObserve

  // A host authorization for this generation: the six fields, or these and the
  // two formal ones.
  predicate Authorizes(b: Snapshot, generation: Scalar) {
    && PlanId in b && LaunchId in b && ControllerInstance in b && CandidateGeneration in b && MembershipEpoch in b
    && TargetSet in b && (ProcessMembership in b <==> RegistrationDigest in b)
    && (forall k :: k in b ==> k in FormalFields())
    && b[PlanId].Text? && b[PlanId].s != "" && b[LaunchId].Text? && b[LaunchId].s != ""
    && b[ControllerInstance].Text? && b[ControllerInstance].s != ""
    && Same(b[CandidateGeneration], generation)
    && b[MembershipEpoch].Whole? && b[MembershipEpoch].n >= 0
    && b[TargetSet].Text? && IsSha(b[TargetSet].s)
    && (ProcessMembership in b ==> b[ProcessMembership].Text? && IsSha(b[ProcessMembership].s))
    && (RegistrationDigest in b ==> b[RegistrationDigest].Text? && IsSha(b[RegistrationDigest].s))
  }

  // The record right before this applied open is the intent for its route,
  // authorized and observed by the host.
  predicate Backed(links: Links, i: nat) {
    && 0 < i < |links| && links[i - 1].payload.detail.OpenIntent? && links[i].payload.route.generation.Some?
    && var intent, generation := links[i - 1].payload.detail, links[i].payload.route.generation.value;
    && Same(intent.candidate, generation) && links[i].payload.route.fence == Some(intent.fence)
    && intent.binding.Some? && Authorizes(intent.binding.value, generation)
    && intent.observation.Some? && IsSha(intent.observation.value)
  }

  lemma AuthorizesTells(b: Snapshot, g: Scalar)
    ensures Authorizes(b, g) <==> FullBinding(b) && Same(b[CandidateGeneration], g)
  {
    hide IsSha;
    KeysTell(b);
  }

  lemma KeysTell(b: Snapshot)
    ensures b.Keys == AuthorizationFields() || b.Keys == FormalFields() <==>
      && PlanId in b && LaunchId in b && ControllerInstance in b && CandidateGeneration in b && MembershipEpoch in b
      && TargetSet in b && (ProcessMembership in b <==> RegistrationDigest in b)
      && (forall k :: k in b ==> k in FormalFields())
  {
    if forall k :: k in b ==> k in FormalFields() {
      assert b.Keys <= FormalFields();
    }
  }

  lemma BackedTells(links: Links, i: nat)
    requires 0 < i < |links|
    ensures AuthorityBound(links[i - 1].payload, links[i].payload) <==> Backed(links, i)
  {
    var intent, p := links[i - 1].payload.detail, links[i].payload;
    if intent.OpenIntent? && intent.binding.Some? && p.route.generation.Some? {
      AuthorizesTells(intent.binding.value, p.route.generation.value);
    }
    hide FullBinding, Authorizes, IsSha;
  }

  // Facts are derived exactly from the readable journals in which each applied
  // open is backed.
  lemma ObservedExactly(f: Format<Record>, data: Bytes)
    ensures Observed(f, data).Some? <==>
      && ReadTraffic(f, data).Some?
      && var links := ReadTraffic(f, data).value;
      forall i: nat :: i < |links| && links[i].payload.detail.OpenApplied? ==> Backed(links, i)
  {
    if ReadTraffic(f, data).Some? {
      var links := ReadTraffic(f, data).value;
      FactsWhenBound(links, |links|);
      hide AuthorityBound, Backed, ReadTraffic;
      forall i: nat | i < |links|
        ensures FactAt(links, i).Some? <==> (links[i].payload.detail.OpenApplied? ==> Backed(links, i))
      {
        if i > 0 {
          BackedTells(links, i);
        } else {
          NeverFirst(links);
        }
      }
    }
  }

  lemma NeverFirst(links: Links)
    ensures !Backed(links, 0)
  {
  }

  predicate GateRecord(d: Detail) {
    d.OpenApplied? || d.CloseAll? || d.RestoreApplied?
  }

  // The fact is what record i says, an open with its intent's authorization
  // and observation.
  predicate Shows(links: Links, i: nat, fact: Fact) {
    && i < |links| && fact.sequence == links[i].sequence && fact.route == links[i].payload.route
    && match fact
       case GateOpen(_, _, authorization, observation) =>
         && links[i].payload.detail.OpenApplied? && i > 0 && links[i - 1].payload.detail.OpenIntent?
         && links[i - 1].payload.detail.binding == Some(authorization)
         && links[i - 1].payload.detail.observation == Some(observation)
       case GateClose(_, _, lost) => links[i].payload.detail == CloseAll(lost)
       case GateRestore(_, _) => links[i].payload.detail.RestoreApplied?
  }

  // One fact for each gate record, in the records' order.
  ghost predicate InRecordOrder(links: Links, n: nat, facts: seq<Fact>, at: seq<nat>) {
    && |at| == |facts|
    && (forall k :: 0 <= k < |at| ==> at[k] < n && Shows(links, at[k], facts[k]))
    && (forall j, k :: 0 <= j < k < |at| ==> at[j] < at[k])
    && (forall i: nat :: i < n && i < |links| && GateRecord(links[i].payload.detail) ==> i in at)
  }

  lemma OrderGrows(links: Links, n: nat, facts: seq<Fact>, at: seq<nat>, one: seq<Fact>)
    requires InRecordOrder(links, n, facts, at) && n < |links| && |one| <= 1
    requires (one != [] <==> GateRecord(links[n].payload.detail)) && (one != [] ==> Shows(links, n, one[0]))
    ensures InRecordOrder(links, n + 1, facts + one, if one == [] then at else at + [n])
  {
    hide Shows, GateRecord;
    var longer := if one == [] then at else at + [n];
    assert facts + [] == facts;
    forall k | 0 <= k < |longer| ensures longer[k] < n + 1 && Shows(links, longer[k], (facts + one)[k]) {
      if k == |at| {
        assert (facts + one)[k] == one[0];
      }
    }
    assert forall i :: i in at ==> i in longer;
  }

  lemma {:induction false} FactsTell(links: Links, n: nat) returns (at: seq<nat>)
    requires n <= |links| && Facts(links, n).Some?
    ensures InRecordOrder(links, n, Facts(links, n).value, at)
  {
    hide InRecordOrder, FactAt, Shows;
    if n == 0 {
      at := [];
      NoFactsYet(links);
    } else {
      var before := FactsTell(links, n - 1);
      FactShown(links, n - 1);
      var one := FactAt(links, n - 1).value;
      OrderGrows(links, n - 1, Facts(links, n - 1).value, before, one);
      at := if one == [] then before else before + [n - 1];
    }
  }

  lemma NoFactsYet(links: Links)
    ensures InRecordOrder(links, 0, [], [])
  {
  }

  lemma FactShown(links: Links, i: nat)
    requires i < |links| && FactAt(links, i).Some?
    ensures var one := FactAt(links, i).value;
      && |one| <= 1 && (one != [] <==> GateRecord(links[i].payload.detail))
      && (one != [] ==> Shows(links, i, one[0]))
  {
    hide FullBinding;
  }

  // The derived facts are the journal's gate records, one for one.
  lemma ObservedTells(f: Format<Record>, data: Bytes) returns (at: seq<nat>)
    requires Observed(f, data).Some?
    ensures ReadTraffic(f, data).Some?
    ensures var links := ReadTraffic(f, data).value; InRecordOrder(links, |links|, Observed(f, data).value, at)
  {
    var links := ReadTraffic(f, data).value;
    at := FactsTell(links, |links|);
  }
}
