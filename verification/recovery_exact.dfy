/** Which event lists the recovery verifier accepts, on their records. */
module RecoveryExact {
  import opened Wrappers
  import opened HashChain
  import opened LoopbackAuthority
  import opened LoopbackJournal
  import opened RecoveryChain

  // The prepared route: same fence, same snapshot, same generation; a gate
  // fence leaves open how the generation is spelled.
  predicate OnPrepared(e: Expectation, r: Shown) {
    && r.fence == e.prepared.fence && r.snapshot == e.prepared.snapshot
    && (|| r.generation == e.prepared.generation
        || (&& r.fence.Some? && r.fence.value.Gate? && r.generation.Some? && e.prepared.generation.Some?
            && Same(r.generation.value, e.prepared.generation.value)))
  }

  // Each record follows the one before it, in number, digest and time.
  predicate FollowsOn(f: Format<Record>, e: Expectation, links: Links, i: nat)
    requires i < |links|
  {
    && links[i].sequence == f.base + i && links[i].payload.process == e.process
    && links[i].previous == (if i == 0 then f.zero else f.DigestOf(links[i - 1]))
    && links[i].payload.ns > (if i == 0 then 0 else links[i - 1].payload.ns)
  }

  // This launch and this registration, on the prepared route before the fault.
  predicate BeganBefore(e: Expectation, p: Record) {
    && p.detail.AuthorityStart? && p.ns < e.fault && OnPrepared(e, p.route)
    && LaunchId in p.detail.authorization && p.detail.authorization[LaunchId] == Text(e.launch)
    && RegistrationDigest in p.detail.authorization
    && p.detail.authorization[RegistrationDigest] == Text(e.registration)
  }

  predicate Kept(e: Expectation, p: Record) {
    OnPrepared(e, p.route) && !p.detail.OpenIntent? && !p.detail.OpenApplied?
  }

  // The records k - 1 and k are the one restore of the prepared generation.
  predicate RestoredAt(e: Expectation, links: Links, k: nat) {
    && 0 < k < |links|
    && (forall i :: 0 <= i < |links| ==> (links[i].payload.detail.RestoreIntent? <==> i == k - 1))
    && (forall i :: 0 <= i < |links| ==> (links[i].payload.detail.RestoreApplied? <==> i == k))
    && e.restart < links[k - 1].payload.ns && links[k].payload.ns <= e.completion
    && e.prepared.generation.Some?
    && Same(links[k - 1].payload.detail.candidate, e.prepared.generation.value)
  }

  predicate Recovers(f: Format<Record>, links: Links, e: Expectation, k: nat) {
    && 0 < k < |links| && 0 < e.fault < e.restart < e.completion
    && (forall i :: 0 <= i < |links| ==> FollowsOn(f, e, links, i))
    && (forall i :: 0 <= i < |links| ==> (links[i].payload.detail.AuthorityStart? <==> i == 0))
    && BeganBefore(e, links[0].payload)
    && (forall i :: 0 <= i < |links| && links[i].payload.ns <= e.completion ==> Kept(e, links[i].payload))
    && RestoredAt(e, links, k)
  }

  lemma PreparedTells(e: Expectation, r: Shown)
    ensures SameShown(r, e.prepared) <==> OnPrepared(e, r)
  {
  }

  lemma SequenceTells(f: Format<Record>, e: Expectation, links: Links)
    ensures AllInSequence(f, e.process, links, |links|) <==> forall i :: 0 <= i < |links| ==> FollowsOn(f, e, links, i)
  {
    forall i | 0 <= i < |links| ensures InSequence(f, e.process, links, i) <==> FollowsOn(f, e, links, i) {
      if i > 0 {
        assert links[..i][i - 1] == links[i - 1];
      }
    }
  }

  lemma {:induction false} StartsTell(links: Links, n: nat)
    requires 0 < n <= |links| && links[0].payload.detail.AuthorityStart?
    ensures Starts(links, n) >= 1
    ensures Starts(links, n) == 1 <==> forall i :: 0 < i < n ==> !links[i].payload.detail.AuthorityStart?
  {
    if n == 1 {
      assert Starts(links, 0) == 0;
    } else {
      StartsTell(links, n - 1);
    }
  }

  predicate NoIntent(links: Links, n: nat) {
    n <= |links| && forall i :: 0 <= i < n ==> !links[i].payload.detail.RestoreIntent?
  }

  predicate OnlyIntent(links: Links, n: nat, k: nat) {
    && k < n <= |links| && links[k].payload.detail.RestoreIntent?
    && forall i :: 0 <= i < n && links[i].payload.detail.RestoreIntent? ==> i == k
  }

  ghost predicate IntentTells(links: Links, n: nat, rows: seq<nat>) {
    (rows == [] <==> NoIntent(links, n)) && forall k: nat :: rows == [k] <==> OnlyIntent(links, n, k)
  }

  lemma IntentGrows(links: Links, n: nat, m: nat, rows: seq<nat>)
    requires n < |links| && m == n + 1 && IntentTells(links, n, rows)
    ensures IntentTells(links, m, if links[n].payload.detail.RestoreIntent? then rows + [n] else rows)
  {
    if links[n].payload.detail.RestoreIntent? {
      assert forall k: nat :: rows + [n] == [k] <==> rows == [] && k == n by {
        forall k: nat | rows + [n] == [k] ensures rows == [] && k == n {
          assert |rows + [n]| == 1 && (rows + [n])[0] == k;
        }
      }
      forall k: nat ensures OnlyIntent(links, m, k) <==> NoIntent(links, n) && k == n {
      }
    } else {
      assert NoIntent(links, m) <==> NoIntent(links, n);
      assert forall k: nat :: OnlyIntent(links, m, k) <==> OnlyIntent(links, n, k);
    }
  }

  lemma {:induction false} IntentFound(links: Links, n: nat)
    requires n <= |links|
    ensures IntentTells(links, n, Intents(links, n))
  {
    hide IntentTells;
    if n == 0 {
      NoIntentYet(links);
    } else {
      IntentFound(links, n - 1);
      IntentGrows(links, n - 1, n, Intents(links, n - 1));
    }
  }

  lemma NoIntentYet(links: Links)
    ensures IntentTells(links, 0, [])
  {
  }

  predicate NoRestore(links: Links, n: nat) {
    n <= |links| && forall i :: 0 <= i < n ==> !links[i].payload.detail.RestoreApplied?
  }

  predicate OnlyRestore(links: Links, n: nat, k: nat) {
    && k < n <= |links| && links[k].payload.detail.RestoreApplied?
    && forall i :: 0 <= i < n && links[i].payload.detail.RestoreApplied? ==> i == k
  }

  ghost predicate RestoreTells(links: Links, n: nat, rows: seq<nat>) {
    (rows == [] <==> NoRestore(links, n)) && forall k: nat :: rows == [k] <==> OnlyRestore(links, n, k)
  }

  lemma RestoreGrows(links: Links, n: nat, m: nat, rows: seq<nat>)
    requires n < |links| && m == n + 1 && RestoreTells(links, n, rows)
    ensures RestoreTells(links, m, if links[n].payload.detail.RestoreApplied? then rows + [n] else rows)
  {
    if links[n].payload.detail.RestoreApplied? {
      assert forall k: nat :: rows + [n] == [k] <==> rows == [] && k == n by {
        forall k: nat | rows + [n] == [k] ensures rows == [] && k == n {
          assert |rows + [n]| == 1 && (rows + [n])[0] == k;
        }
      }
      forall k: nat ensures OnlyRestore(links, m, k) <==> NoRestore(links, n) && k == n {
      }
    } else {
      assert NoRestore(links, m) <==> NoRestore(links, n);
      assert forall k: nat :: OnlyRestore(links, m, k) <==> OnlyRestore(links, n, k);
    }
  }

  lemma {:induction false} RestoreFound(links: Links, n: nat)
    requires n <= |links|
    ensures RestoreTells(links, n, Restores(links, n))
  {
    hide RestoreTells;
    if n == 0 {
      NoRestoreYet(links);
    } else {
      RestoreFound(links, n - 1);
      RestoreGrows(links, n - 1, n, Restores(links, n - 1));
    }
  }

  lemma NoRestoreYet(links: Links)
    ensures RestoreTells(links, 0, [])
  {
  }

  lemma StartTells(e: Expectation, p: Record)
    ensures StartBound(e, p) <==> BeganBefore(e, p)
  {
    PreparedTells(e, p.route);
    hide SameShown, OnPrepared;
  }

  lemma KeptTells(e: Expectation, links: Links)
    ensures AllUndisturbed(e, links, |links|)
            <==> forall i :: 0 <= i < |links| && links[i].payload.ns <= e.completion ==> Kept(e, links[i].payload)
  {
    forall i | 0 <= i < |links|
      ensures Undisturbed(e, links[i].payload)
              <==> (links[i].payload.ns <= e.completion ==> Kept(e, links[i].payload))
    {
      PreparedTells(e, links[i].payload.route);
    }
    hide SameShown, OnPrepared;
  }

  // Neighbours by number are neighbours in the list.
  lemma RestoredTells(f: Format<Record>, e: Expectation, links: Links, intent: nat, applied: nat)
    requires forall i :: 0 <= i < |links| ==> FollowsOn(f, e, links, i)
    requires forall i :: 0 <= i < |links| && links[i].payload.ns <= e.completion ==> Kept(e, links[i].payload)
    requires OnlyIntent(links, |links|, intent) && OnlyRestore(links, |links|, applied)
    ensures Restored(e, links, intent, applied) <==> intent + 1 == applied && RestoredAt(e, links, applied)
    ensures forall k: nat :: RestoredAt(e, links, k) ==> k == applied && k == intent + 1
  {
    PreparedTells(e, links[applied].payload.route);
    assert FollowsOn(f, e, links, intent) && FollowsOn(f, e, links, applied);
    hide SameShown, OnPrepared;
  }

  // A list is accepted exactly when it recovers at some record, and the receipt
  // names that record and the list's last digest.
  lemma RecoveredExactly(f: Format<Record>, links: Links, e: Expectation)
    ensures Recovered(f, links, e).Some? <==> exists k: nat :: Recovers(f, links, e, k)
    ensures forall k: nat :: Recovers(f, links, e, k) ==>
      Recovered(f, links, e) == Some(Receipt(e.prepared, f.DigestOf(links[|links| - 1]), links[k].sequence))
  {
    var n := |links|;
    hide SameShown, OnPrepared, StartBound, BeganBefore, FollowsOn, AllInSequence, AllUndisturbed, Kept, Intents,
      Restores, Starts, RestoredAt, Restored;
    if links != [] {
      SequenceTells(f, e, links);
      StartTells(e, links[0].payload);
      KeptTells(e, links);
      IntentFound(links, n);
      RestoreFound(links, n);
      BeginsOnce(e, links);
      if Recovered(f, links, e).Some? {
        var intent, applied := Intents(links, n)[0], Restores(links, n)[0];
        assert Intents(links, n) == [intent] && Restores(links, n) == [applied];
        RestoredTells(f, e, links, intent, applied);
        assert Recovers(f, links, e, applied);
      }
      forall k: nat | Recovers(f, links, e, k)
        ensures Recovered(f, links, e)
                == Some(Receipt(e.prepared, f.DigestOf(links[n - 1]), links[k].sequence))
      {
        OnlyThese(e, links, k);
        RestoredTells(f, e, links, k - 1, k);
      }
    }
  }

  lemma BeginsOnce(e: Expectation, links: Links)
    requires links != []
    ensures BeganBefore(e, links[0].payload) ==>
      (Starts(links, |links|) == 1
       <==> forall i :: 0 <= i < |links| ==> (links[i].payload.detail.AuthorityStart? <==> i == 0))
  {
    if BeganBefore(e, links[0].payload) {
      StartsTell(links, |links|);
    }
  }

  lemma OnlyThese(e: Expectation, links: Links, k: nat)
    requires RestoredAt(e, links, k)
    ensures k > 0 && OnlyIntent(links, |links|, k - 1) && OnlyRestore(links, |links|, k)
  {
  }
}
