/** Gate facts derived from a traffic journal, and the runs they can be derived from. */
module LoopbackObserve {
  import opened Wrappers
  import opened JournalBytes
  import opened HashChain
  import opened LoopbackAuthority
  import opened LoopbackScripts
  import opened LoopbackJournal
  import opened LoopbackOpens

  datatype Fact =
    | GateOpen(sequence: int, route: Shown, authorization: Snapshot, observation: Digest)
    | GateClose(sequence: int, route: Shown, lost: bool)
    | GateRestore(sequence: int, route: Shown)

  function AuthorizationFields(): set<Field> {
    {PlanId, LaunchId, ControllerInstance, CandidateGeneration, MembershipEpoch, TargetSet}
  }

  function FormalFields(): set<Field> {
    AuthorizationFields() + {ProcessMembership, RegistrationDigest}
  }

  predicate Named(v: Scalar) {
    v.Text? && v.s != ""
  }

  predicate DigestText(v: Scalar) {
    v.Text? && IsSha(v.s)
  }

  // The identity a host authorization must carry, whoever checks it.
  predicate FullBinding(b: Snapshot) {
    && (b.Keys == AuthorizationFields() || b.Keys == FormalFields())
    && Named(b[PlanId]) && Named(b[LaunchId]) && Named(b[ControllerInstance])
    && Natural(b[MembershipEpoch]) && DigestText(b[TargetSet])
    && (b.Keys == FormalFields() ==> DigestText(b[ProcessMembership]) && DigestText(b[RegistrationDigest]))
  }

  // An applied open directly behind the intent that authorizes it.
  predicate AuthorityBound(intent: Record, applied: Record) {
    && intent.detail.OpenIntent?
    && applied.route.generation.Some? && Same(intent.detail.candidate, applied.route.generation.value)
    && applied.route.fence == Some(intent.detail.fence)
    && intent.detail.binding.Some? && FullBinding(intent.detail.binding.value)
    && Same(intent.detail.binding.value[CandidateGeneration], applied.route.generation.value)
    && intent.detail.observation.Some? && IsSha(intent.detail.observation.value)
  }

  // What event i contributes; None is the refusal of an unbound open.
  function FactAt(links: Links, i: nat): Option<seq<Fact>>
    requires i < |links|
  {
    var p := links[i].payload;
    if p.detail.OpenApplied? then
      if i == 0 || !AuthorityBound(links[i - 1].payload, p) then None
      else
        var intent := links[i - 1].payload.detail;
        Some([GateOpen(links[i].sequence, p.route, intent.binding.value, intent.observation.value)])
    else if p.detail.CloseAll? then Some([GateClose(links[i].sequence, p.route, p.detail.lost)])
    else if p.detail.RestoreApplied? then Some([GateRestore(links[i].sequence, p.route)])
    else Some([])
  }

  function Facts(links: Links, n: nat): Option<seq<Fact>>
    requires n <= |links|
  {
    if n == 0 then Some([]) else
    var before, one := Facts(links, n - 1), FactAt(links, n - 1);
    if before.None? || one.None? then None else Some(before.value + one.value)
  }

  function Observed(f: Format<Record>, data: Bytes): Option<seq<Fact>> {
    var events := ReadTraffic(f, data);
    if events.None? then None else Facts(events.value, |events.value|)
  }

  method ObserveGateTransitions(f: Format<Record>, data: Bytes) returns (facts: Option<seq<Fact>>)
    ensures facts == Observed(f, data)
  {
    var events := ReadTrafficJournal(f, data);
    if events.None? {
      return None;
    }
    var links, found := events.value, [];
    for i := 0 to |links|
      invariant Facts(links, i) == Some(found)
    {
      var one := FactAt(links, i);
      if one.None? {
        RefusalStays(links, i, |links|);
        return None;
      }
      found := found + one.value;
    }
    return Some(found);
  }

  lemma {:induction false} RefusalStays(links: Links, i: nat, n: nat)
    requires i < n <= |links| && FactAt(links, i).None?
    ensures Facts(links, n).None?
  {
    if i == n - 1 {
    } else {
      RefusalStays(links, i, n - 1);
    }
  }

  // Facts come out exactly when every applied open is bound to the record
  // before it.
  lemma {:induction false} FactsWhenBound(links: Links, n: nat)
    requires n <= |links|
    ensures Facts(links, n).Some? <==> forall k :: 0 <= k < n ==> FactAt(links, k).Some?
  {
    hide FactAt;
    if n == 0 {
    } else {
      FactsWhenBound(links, n - 1);
    }
  }

  // ---------------------------------------------------------------------
  // Which runs qualify

  // The intents an authority with an observer writes.
  ghost predicate Licensed(cfg: Config, d: Detail) {
    d.OpenIntent? && cfg.observer.Some? ==>
      && var b := cfg.observer.value.binding;
      && d.binding == Some(b) && CandidateGeneration in b && Same(b[CandidateGeneration], d.candidate)
      && d.observation.Some? && exists x :: d.observation.value == cfg.format.sha(x)
  }

  ghost predicate AllLicensed(cfg: Config, s: System) {
    && (forall d :: d in Details(s.script) ==> Licensed(cfg, d))
    && (forall i :: 0 <= i < |s.log.links| ==> Licensed(cfg, s.log.links[i].payload.detail))
  }

  lemma TopicsAreLicensed(cfg: Config, s: System, act: Action)
    ensures forall d :: d in Topics(cfg, s, act) ==> Licensed(cfg, d)
  {
    hide BoundTo, Follows, Same;
  }

  lemma NextLicensed(cfg: Config, s: System, act: Action)
    requires AllLicensed(cfg, s)
    ensures AllLicensed(cfg, Next(cfg, s, act))
  {
    TopicsAreLicensed(cfg, s, act);
    NextReach(cfg, s, act);
    var ok := NextLinks(cfg, s, act);
    if ok {
      AttemptIsLicensed(cfg, s, act);
    }
    hide Next, Topics, Details, Attempted, Licensed;
  }

  lemma AttemptIsLicensed(cfg: Config, s: System, act: Action)
    requires AllLicensed(cfg, s) && Attempted(cfg, s, act).Some?
    ensures Licensed(cfg, Attempted(cfg, s, act).value.detail)
  {
    assert s.script.Put? ==> s.script.detail in Details(s.script);
  }

  lemma {:induction false} RunLicensed(cfg: Config, io: Io, actions: seq<Action>)
    ensures AllLicensed(cfg, Run(cfg, io, actions))
  {
    if actions == [] {
      WriteLinks(cfg, Log([], [], Intact), cfg.origin, AuthorityStart(cfg.authorization, cfg.backends), io);
    } else {
      var n := |actions| - 1;
      RunLicensed(cfg, io, actions[..n]);
      hide AllLicensed, Next;
      NextLicensed(cfg, Run(cfg, io, actions[..n]), actions[n]);
    }
  }

  predicate NoCompletionBefore(links: Links, k: nat)
    requires k < |links|
  {
    k > 0 ==> !links[k - 1].payload.detail.Complete?
  }

  // Nothing slipped in between an applied open and its intent, and no late shut
  // closed the route it is recorded with.
  predicate Tight(links: Links) {
    forall k :: 0 <= k < |links| && links[k].payload.detail.OpenApplied? ==>
      NoCompletionBefore(links, k) && links[k].payload.route.generation.Some?
  }

  lemma OpenIsBound(cfg: Config, links: Links, k: nat)
    requires Usable(cfg) && cfg.observer.Some? && FullBinding(cfg.observer.value.binding)
    requires k < |links| && links[k].payload.detail.OpenApplied? && Announced(links, k, links[k].payload.route)
    requires forall i :: 0 <= i < |links| ==> Licensed(cfg, links[i].payload.detail)
    ensures k > 0
    ensures AuthorityBound(links[k - 1].payload, links[k].payload)
      <==> NoCompletionBefore(links, k) && links[k].payload.route.generation.Some?
  {
    var shown := links[k].payload.route;
    var j: nat :| LastIntent(links, k, j) && MeantFor(links[j].payload, shown);
    hide FullBinding, IsSha, Follows;
    assert Licensed(cfg, links[j].payload.detail);
    assert j < k - 1 ==> links[k - 1].payload.detail.Complete?;
  }

  // With an observer configured and natural generations, the reader derives
  // facts from a run's untorn journal exactly when no applied open has a
  // completion right before it or is recorded with a closed route; refused
  // appends and closed intents do not matter to it.
  lemma ObservableExactly(cfg: Config, io: Io, actions: seq<Action>)
    requires Usable(cfg) && Begun(cfg, io).1 == Done
    requires cfg.observer.Some? && FullBinding(cfg.observer.value.binding) && NaturalRoute(cfg.origin)
    requires forall i :: 0 <= i < |actions| ==> NaturalAction(actions[i])
    requires Run(cfg, io, actions).log.disk.Intact?
    ensures Observed(cfg.format, Run(cfg, io, actions).log.file).Some? <==> Tight(Run(cfg, io, actions).log.links)
  {
    var links := Run(cfg, io, actions).log.links;
    NaturalCallersStayReadable(cfg, io, actions);
    RunIsReadable(cfg, io, actions);
    OpenDisciplineExactly(cfg, io, actions);
    RunLicensed(cfg, io, actions);
    hide Run, Details, FullBinding, Usable, Announced, Disciplined, AllCountable, FactAt, ClosedIntent;
    BoundWhenTight(cfg, links);
    FactsWhenBound(links, |links|);
  }

  lemma BoundWhenTight(cfg: Config, links: Links)
    requires Usable(cfg) && cfg.observer.Some? && FullBinding(cfg.observer.value.binding) && AllAnnounced(links)
    requires forall i :: 0 <= i < |links| ==> Licensed(cfg, links[i].payload.detail)
    ensures Tight(links) <==> forall k :: 0 <= k < |links| ==> FactAt(links, k).Some?
  {
    hide Usable, FullBinding, AuthorityBound, Announced, NoCompletionBefore, Licensed;
    forall k | 0 <= k < |links| && links[k].payload.detail.OpenApplied?
      ensures FactAt(links, k).Some? <==> NoCompletionBefore(links, k) && links[k].payload.route.generation.Some?
    {
      OpenIsBound(cfg, links, k);
    }
  }

  // ---------------------------------------------------------------------
  // No gate fact without an observer's licence

  predicate OpensNothing(links: Links) {
    forall k :: 0 <= k < |links| ==> !links[k].payload.detail.OpenApplied?
  }

  ghost predicate NeverOpens(s: System) {
    OpenApplied !in Details(s.script) && OpensNothing(s.log.links)
  }

  lemma NextNeverOpens(cfg: Config, s: System, act: Action)
    requires cfg.observer.Some? && cfg.observer.value.Formal() && NeverOpens(s)
    ensures NeverOpens(Next(cfg, s, act))
  {
    NoOpenTopics(cfg, s, act);
    NextReach(cfg, s, act);
    var ok := NextLinks(cfg, s, act);
    assert s.script.Put? ==> s.script.detail in Details(s.script);
    hide Next, Topics, Details;
  }

  lemma NoOpenTopics(cfg: Config, s: System, act: Action)
    requires cfg.observer.Some? && cfg.observer.value.Formal()
    ensures OpenApplied !in Topics(cfg, s, act)
  {
    hide BoundTo, Follows;
  }

  lemma {:induction false} FormalNeverOpens(cfg: Config, io: Io, actions: seq<Action>)
    requires cfg.observer.Some? && cfg.observer.value.Formal()
    ensures NeverOpens(Run(cfg, io, actions))
  {
    if actions == [] {
      WriteLinks(cfg, Log([], [], Intact), cfg.origin, AuthorityStart(cfg.authorization, cfg.backends), io);
    } else {
      var n := |actions| - 1;
      FormalNeverOpens(cfg, io, actions[..n]);
      hide NeverOpens, Next;
      NextNeverOpens(cfg, Run(cfg, io, actions[..n]), actions[n]);
    }
  }
}
