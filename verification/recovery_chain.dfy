/** The independent verifier of route recovery, over the authority's own events. */
module RecoveryChain {
  import opened Wrappers
  import opened JournalBytes
  import opened HashChain
  import opened LoopbackAuthority
  import opened LoopbackJournal

  datatype Expectation = Expectation(
    process: Process, registration: string, launch: string, prepared: Shown,
    fault: int, restart: int, completion: int)

  datatype Receipt = Receipt(route: Shown, chain: Digest, restoreSequence: int)

  // Routes compare as JSON values do: the fence of a predecessor route spells
  // out its generation, a gate fence does not.
  predicate SameShown(a: Shown, b: Shown) {
    || a == b
    || (a.fence == b.fence && a.fence.Some? && a.fence.value.Gate? && a.snapshot == b.snapshot
        && a.generation.Some? && b.generation.Some? && Same(a.generation.value, b.generation.value))
  }

  predicate Says(m: Snapshot, k: Field, s: string) {
    k in m && m[k] == Text(s)
  }

  predicate StartBound(e: Expectation, p: Record) {
    && p.detail.AuthorityStart?
    && Says(p.detail.authorization, LaunchId, e.launch)
    && Says(p.detail.authorization, RegistrationDigest, e.registration)
    && p.ns < e.fault && SameShown(p.route, e.prepared)
  }

  // Up to completion the predecessor is in place and nothing is opened.
  predicate Undisturbed(e: Expectation, p: Record) {
    p.ns <= e.completion ==> SameShown(p.route, e.prepared) && !p.detail.OpenIntent? && !p.detail.OpenApplied?
  }

  predicate IsRestore(d: Detail) {
    d.RestoreIntent? || d.RestoreApplied?
  }

  // On the prepared route, and admitted if this decides a request.
  predicate Served(e: Expectation, p: Record) {
    SameShown(p.route, e.prepared) && (p.detail.Admission? ==> p.detail.admitted)
  }

  // Positions among the first n records.
  function Intents(links: Links, n: nat): seq<nat>
    requires n <= |links|
  {
    if n == 0 then []
    else if links[n - 1].payload.detail.RestoreIntent? then Intents(links, n - 1) + [n - 1]
    else Intents(links, n - 1)
  }

  function Restores(links: Links, n: nat): seq<nat>
    requires n <= |links|
  {
    if n == 0 then []
    else if links[n - 1].payload.detail.RestoreApplied? then Restores(links, n - 1) + [n - 1]
    else Restores(links, n - 1)
  }

  function Starts(links: Links, n: nat): nat
    requires n <= |links|
  {
    if n == 0 then 0 else Starts(links, n - 1) + if links[n - 1].payload.detail.AuthorityStart? then 1 else 0
  }

  // Record i as the chain check sees it.
  predicate InSequence(f: Format<Record>, process: Process, links: Links, i: nat)
    requires i < |links|
  {
    && links[i].sequence == f.base + i && links[i].previous == Tip(f, links[..i])
    && links[i].payload.process == process
    && (if i == 0 then 0 else links[i - 1].payload.ns) < links[i].payload.ns
  }

  predicate AllInSequence(f: Format<Record>, process: Process, links: Links, n: nat)
    requires n <= |links|
  {
    forall i :: 0 <= i < n ==> InSequence(f, process, links, i)
  }

  predicate AllUndisturbed(e: Expectation, links: Links, n: nat)
    requires n <= |links|
  {
    forall i :: 0 <= i < n ==> Undisturbed(e, links[i].payload)
  }

  // The one restore: intent and effect next to each other, after the restart
  // and by completion.
  predicate Restored(e: Expectation, links: Links, intent: nat, applied: nat) {
    && intent < |links| && applied < |links|
    && e.restart < links[intent].payload.ns < links[applied].payload.ns <= e.completion
    && links[applied].sequence == links[intent].sequence + 1
    && SameShown(links[applied].payload.route, e.prepared)
    && links[intent].payload.detail.RestoreIntent? && e.prepared.generation.Some?
    && Same(links[intent].payload.detail.candidate, e.prepared.generation.value)
  }

  predicate Ordered(e: Expectation) {
    0 < e.fault < e.restart < e.completion
  }

  lemma {:induction false} IntentAt(links: Links, n: nat, k: nat)
    requires n <= |links| && k < |Intents(links, n)|
    ensures Intents(links, n)[k] < n && links[Intents(links, n)[k]].payload.detail.RestoreIntent?
  {
    if k < |Intents(links, n - 1)| {
      IntentAt(links, n - 1, k);
    }
  }

  lemma {:induction false} RestoreAt(links: Links, n: nat, k: nat)
    requires n <= |links| && k < |Restores(links, n)|
    ensures Restores(links, n)[k] < n && links[Restores(links, n)[k]].payload.detail.RestoreApplied?
  {
    if k < |Restores(links, n - 1)| {
      RestoreAt(links, n - 1, k);
    }
  }

  function Recovered(f: Format<Record>, links: Links, e: Expectation): Option<Receipt> {
    var n := |links|;
    if n == 0 || !Ordered(e) || Starts(links, n) != 1 || !AllInSequence(f, e.process, links, n)
       || !StartBound(e, links[0].payload) || !AllUndisturbed(e, links, n)
       || |Intents(links, n)| != 1 || |Restores(links, n)| != 1
    then None else
    var intent, applied := Intents(links, n)[0], Restores(links, n)[0];
    RestoreAt(links, n, 0);
    if Restored(e, links, intent, applied)
    then Some(Receipt(e.prepared, Tip(f, links), links[applied].sequence)) else None
  }

  // The verifier: one pass for chain, identity and time, one for the routes,
  // and the restore records it collects.
  method VerifyRecoveryEvents(f: Format<Record>, links: Links, e: Expectation) returns (receipt: Option<Receipt>)
    ensures receipt == Recovered(f, links, e)
  {
    if links == [] || !Ordered(e) {
      return None;
    }
    var n := |links|;
    var previous, lastNs, starts := f.zero, 0, 0;
    for i := 0 to n
      invariant AllInSequence(f, e.process, links, i)
      invariant previous == Tip(f, links[..i]) && starts == Starts(links, i)
      invariant lastNs == if i == 0 then 0 else links[i - 1].payload.ns
    {
      var link := links[i];
      if link.sequence != f.base + i || link.previous != previous
         || link.payload.process != e.process || link.payload.ns <= lastNs {
        assert !InSequence(f, e.process, links, i);
        return None;
      }
      assert links[..i + 1][i] == link;
      previous := f.DigestOf(link);
      lastNs := link.payload.ns;
      starts := starts + if link.payload.detail.AuthorityStart? then 1 else 0;
    }
    assert links[..n] == links;
    if starts != 1 || !StartBound(e, links[0].payload) {
      return None;
    }
    var intents, restores := [], [];
    for i := 0 to n
      invariant AllUndisturbed(e, links, i)
      invariant intents == Intents(links, i) && restores == Restores(links, i)
    {
      if !Undisturbed(e, links[i].payload) {
        return None;
      }
      if links[i].payload.detail.RestoreIntent? {
        intents := intents + [i];
      } else if links[i].payload.detail.RestoreApplied? {
        restores := restores + [i];
      }
    }
    if |intents| != 1 || |restores| != 1 || !Restored(e, links, intents[0], restores[0]) {
      return None;
    }
    RestoreAt(links, n, 0);
    return Some(Receipt(e.prepared, previous, links[restores[0]].sequence));
  }

  // ---------------------------------------------------------------------
  // What acceptance implies

  // Every request decided up to completion was admitted on the prepared route;
  // none was turned away, and none reached the candidate.
  lemma AcceptedRecoveryServed(f: Format<Record>, data: Bytes, e: Expectation, i: nat)
    requires ReadTraffic(f, data).Some? && Recovered(f, ReadTraffic(f, data).value, e).Some?
    requires i < |ReadTraffic(f, data).value| && ReadTraffic(f, data).value[i].payload.ns <= e.completion
    ensures var p := ReadTraffic(f, data).value[i].payload;
      SameShown(p.route, e.prepared) && (p.detail.Admission? ==> p.detail.admitted)
  {
    var links := ReadTraffic(f, data).value;
    assert Undisturbed(e, links[i].payload);
    assert Shaped(links[i].payload, links[0].payload);
    hide *;
  }

  // The restore's two records are neighbours, and the only ones of their kind.
  lemma AcceptedRecoveryRestoredOnce(f: Format<Record>, links: Links, e: Expectation)
    requires Recovered(f, links, e).Some?
    ensures var k := Recovered(f, links, e).value.restoreSequence - f.base;
      && 0 < k < |links| && links[k - 1].payload.detail.RestoreIntent? && links[k].payload.detail.RestoreApplied?
      && e.restart < links[k - 1].payload.ns && links[k].payload.ns <= e.completion
      && (forall i :: 0 <= i < |links| && links[i].payload.detail.RestoreApplied? ==> i == k)
      && (forall i :: 0 <= i < |links| && links[i].payload.detail.RestoreIntent? ==> i == k - 1)
  {
    var n := |links|;
    IntentAt(links, n, 0);
    RestoreAt(links, n, 0);
    var intent, applied := Intents(links, n)[0], Restores(links, n)[0];
    assert InSequence(f, e.process, links, intent) && InSequence(f, e.process, links, applied);
    hide AllInSequence, AllUndisturbed, Starts;
    forall i | 0 <= i < n
      ensures links[i].payload.detail.RestoreApplied? ==> i == applied
      ensures links[i].payload.detail.RestoreIntent? ==> i == intent
    {
      AllCollected(links, n, i);
    }
  }

  // What an accepted journal tells: one restore, after the restart and by
  // completion, its two records adjacent; and by completion every record on the
  // prepared route and every decided request admitted.
  lemma AcceptedRecoveryMeans(f: Format<Record>, data: Bytes, e: Expectation)
    requires ReadTraffic(f, data).Some? && Recovered(f, ReadTraffic(f, data).value, e).Some?
    ensures var links := ReadTraffic(f, data).value;
      var k := Recovered(f, links, e).value.restoreSequence - f.base;
      && 0 < k < |links| && links[k - 1].payload.detail.RestoreIntent? && links[k].payload.detail.RestoreApplied?
      && e.restart < links[k - 1].payload.ns && links[k].payload.ns <= e.completion
      && (forall i :: 0 <= i < |links| && IsRestore(links[i].payload.detail) ==> k - 1 <= i <= k)
      && (forall i :: 0 <= i < |links| && links[i].payload.ns <= e.completion ==> Served(e, links[i].payload))
  {
    var links := ReadTraffic(f, data).value;
    AcceptedRecoveryRestoredOnce(f, links, e);
    hide Recovered, ReadTraffic;
    forall i | 0 <= i < |links| && links[i].payload.ns <= e.completion ensures Served(e, links[i].payload) {
      AcceptedRecoveryServed(f, data, e, i);
    }
  }

  lemma {:induction false} AllCollected(links: Links, n: nat, i: nat)
    requires i < n <= |links|
    ensures links[i].payload.detail.RestoreApplied? ==> i in Restores(links, n)
    ensures links[i].payload.detail.RestoreIntent? ==> i in Intents(links, n)
  {
    if i == n - 1 {
    } else {
      AllCollected(links, n - 1, i);
    }
  }

  // The reported chain digest fixes the whole event list, length and content.
  lemma ChainDigestFixesEvents(f: Format<Record>, a: Links, b: Links, e: Expectation, d: Expectation)
      returns (x: Bytes, y: Bytes)
    requires Lawful(f) && Recovered(f, a, e).Some? && Recovered(f, b, d).Some?
    requires Recovered(f, a, e).value.chain == Recovered(f, b, d).value.chain
    ensures a == b || (x != y && f.sha(x) == f.sha(y))
  {
    InSequenceIsChained(f, e.process, a);
    InSequenceIsChained(f, d.process, b);
    hide AllInSequence, AllUndisturbed, Starts, Intents, Restores, Restored;
    x, y := TipFixesChain(f, a, b);
  }

  lemma InSequenceIsChained(f: Format<Record>, process: Process, links: Links)
    requires AllInSequence(f, process, links, |links|)
    ensures Chained(f, links)
  {
    forall i | 0 <= i < |links|
      ensures links[i].sequence == f.base + i && links[i].previous == Tip(f, links[..i])
    {
      assert InSequence(f, process, links, i);
    }
  }
}
