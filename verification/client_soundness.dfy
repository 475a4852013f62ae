/** What a completely covered window says about the requests in it. */
module ClientSoundness {
  import opened Wrappers
  import opened JournalBytes
  import opened HashChain
  import opened LoopbackAuthority
  import opened LoopbackJournal
  import opened LoopbackAdmissions
  import opened ClientTrace
  import opened RequestNames
  import opened ClientWindow

  // ---------------------------------------------------------------------
  // Every id is sent once and finished once

  // As many entries as different entries: no entry occurs twice.
  lemma {:induction false} FullHasNoRepeats(s: seq<string>, i: nat, k: nat)
    requires |s| == |Elements(s)| && i < k < |s|
    ensures s[i] != s[k]
  {
    var front, last := s[..|s| - 1], s[|s| - 1];
    assert Elements(s) == Elements(front) + {last};
    SetSizeBound(front);
    if k < |s| - 1 {
      assert |front| == |Elements(front)| by {
        assert |Elements(front) + {last}| <= |Elements(front)| + 1;
      }
      FullHasNoRepeats(front, i, k);
      assert front[i] == s[i] && front[k] == s[k];
    } else {
      assert last in Elements(front) ==> Elements(front) + {last} == Elements(front);
      assert front[i] == s[i] && s[i] in Elements(front);
    }
  }

  // Two different finishes of one id are two entries of the list.
  lemma {:induction false} FinishListed(client: ClientLinks, n: nat, k: nat, rid: string) returns (at: nat)
    requires k < n <= |client| && IsFinish(client, k, rid)
    ensures at < |FinishNames(client, n)| && FinishNames(client, n)[at] == rid
    ensures at == |FinishNames(client, k)|
  {
    if k == n - 1 {
      at := |FinishNames(client, k)|;
    } else {
      at := FinishListed(client, n - 1, k, rid);
    }
  }

  lemma {:induction false} SendListed(client: ClientLinks, n: nat, k: nat, rid: string) returns (at: nat)
    requires k < n <= |client| && IsSend(client, k, rid)
    ensures at < |SendNames(client, n)| && SendNames(client, n)[at] == rid
    ensures at == |SendNames(client, k)|
  {
    if k == n - 1 {
      at := |SendNames(client, k)|;
    } else {
      at := SendListed(client, n - 1, k, rid);
    }
  }

  lemma {:induction false} NamesGrow(client: ClientLinks, k: nat, n: nat)
    requires k <= n <= |client|
    ensures |FinishNames(client, k)| <= |FinishNames(client, n)| && |SendNames(client, k)| <= |SendNames(client, n)|
  {
    if k < n {
      NamesGrow(client, k, n - 1);
    }
  }

  ghost predicate OncePerId(client: ClientLinks) {
    && (forall j, k, rid :: 0 <= j < k && IsSend(client, j, rid) ==> !IsSend(client, k, rid))
    && (forall j, k, rid :: 0 <= j < k && IsFinish(client, j, rid) ==> !IsFinish(client, k, rid))
  }

  lemma FullListsOnce(client: ClientLinks)
    requires |SendNames(client, |client|)| == |Elements(SendNames(client, |client|))|
    requires |FinishNames(client, |client|)| == |Elements(FinishNames(client, |client|))|
    ensures OncePerId(client)
  {
    var n := |client|;
    hide SendNames, FinishNames;
    forall j: nat, k: nat, rid | j < k && IsSend(client, j, rid) ensures !IsSend(client, k, rid) {
      if IsSend(client, k, rid) {
        var a := SendListed(client, n, j, rid);
        var b := SendListed(client, n, k, rid);
        SendStep(client, j);
        NamesGrow(client, j + 1, k);
        FullHasNoRepeats(SendNames(client, n), a, b);
        assert false;
      }
    }
    forall j: nat, k: nat, rid | j < k && IsFinish(client, j, rid) ensures !IsFinish(client, k, rid) {
      if IsFinish(client, k, rid) {
        var a := FinishListed(client, n, j, rid);
        var b := FinishListed(client, n, k, rid);
        SendStep(client, j);
        NamesGrow(client, j + 1, k);
        FullHasNoRepeats(FinishNames(client, n), a, b);
        assert false;
      }
    }
  }

  lemma CoveredOnce(w: Window, client: ClientLinks)
    requires CheckClient(w, client).None?
    ensures OncePerId(client)
  {
    FullListsOnce(client);
  }

  lemma SendStep(client: ClientLinks, j: nat)
    requires j < |client|
    ensures client[j].payload.detail.RequestStart? ==> |SendNames(client, j + 1)| == |SendNames(client, j)| + 1
    ensures client[j].payload.detail.RequestFinish? ==> |FinishNames(client, j + 1)| == |FinishNames(client, j)| + 1
  {
  }

  // ---------------------------------------------------------------------
  // Lost requests

  // Request i came back with status 200 by its deadline.
  ghost predicate OnTime(w: Window, client: ClientLinks, i: nat) {
    exists s: nat, f: nat :: IsSend(client, s, Name(w, i)) && IsFinish(client, f, Name(w, i)) && InTimeAt(client, s, f)
  }

  predicate InTimeAt(client: ClientLinks, s: nat, f: nat) {
    && s < |client| && f < |client| && client[s].payload.detail.RequestStart? && client[f].payload.detail.RequestFinish?
    && client[f].payload.detail.status == 200 && client[f].payload.detail.finished <= client[s].payload.detail.deadline
  }

  ghost function LostSet(w: Window, client: ClientLinks, n: nat): set<nat> {
    set i: nat | i < n && !OnTime(w, client, i)
  }

  lemma JudgedIsOnTime(w: Window, client: ClientLinks, links: Links, i: nat)
    requires OncePerId(client) && !Judged(w, client, links, i).Halt?
    ensures Judged(w, client, links, i).Serve? <==> OnTime(w, client, i)
  {
  }

  lemma {:induction false} TallyCountsLost(w: Window, client: ClientLinks, links: Links, n: nat)
    requires OncePerId(client) && Tallied(w, client, links, n).Ok?
    ensures Tallied(w, client, links, n).value.lost == |LostSet(w, client, n)|
    ensures |Tallied(w, client, links, n).value.served| == n - |LostSet(w, client, n)|
    ensures forall i :: 0 <= i < n ==> !Judged(w, client, links, i).Halt?
  {
    hide OncePerId, Judged, OnTime;
    if n > 0 {
      TallyCountsLost(w, client, links, n - 1);
      JudgedIsOnTime(w, client, links, n - 1);
      var before := LostSet(w, client, n - 1);
      assert LostSet(w, client, n) == if OnTime(w, client, n - 1) then before else before + {n - 1};
    } else {
      assert LostSet(w, client, 0) == {};
    }
  }

  // What the verifier read when it reports complete coverage.
  ghost predicate Covers(
      w: Window, clientFile: Option<Bytes>, authorityFile: Option<Bytes>, client: ClientLinks, links: Links) {
    && clientFile.Some? && ReadClient(w.cf, clientFile.value) == Some(client) && CheckClient(w, client).None?
    && authorityFile.Some? && ReadTraffic(w.tf, authorityFile.value) == Some(links)
    && AllNew(w, links, |links|) && Counting(w, client, links).Counted?
  }

  lemma CountedCovers(w: Window, clientFile: Option<Bytes>, authorityFile: Option<Bytes>)
      returns (client: ClientLinks, links: Links)
    requires Verified(w, clientFile, authorityFile).Counted?
    ensures Covers(w, clientFile, authorityFile, client, links)
    ensures Verified(w, clientFile, authorityFile) == Counting(w, client, links)
  {
    hide Counting, AllNew, ReadTraffic, ReadClient, CheckSchedule, SendNames, FinishNames, Expected, SplitLines;
    client := ReadClient(w.cf, clientFile.value).value;
    SchedulesNeverCount(w, client, client[0].payload.detail.anchor, w.spec.count);
    links := ReadTraffic(w.tf, authorityFile.value).value;
  }

  lemma {:induction false} SchedulesNeverCount(w: Window, client: ClientLinks, anchor: int, n: nat)
    ensures CheckSchedules(w, client, anchor, n).Some? ==> !CheckSchedules(w, client, anchor, n).value.Counted?
  {
    if n == 0 {
    } else {
      SchedulesNeverCount(w, client, anchor, n - 1);
    }
  }

  // `lost_requests` is the number of logical requests without a status 200 by
  // their deadline, each request having one dispatch and one finish.
  lemma LostIsExact(w: Window, clientFile: Option<Bytes>, authorityFile: Option<Bytes>)
      returns (client: ClientLinks, links: Links)
    requires Verified(w, clientFile, authorityFile).Counted?
    ensures Covers(w, clientFile, authorityFile, client, links) && OncePerId(client)
    ensures Verified(w, clientFile, authorityFile).lost == |LostSet(w, client, w.spec.count)|
  {
    hide Verified, Covers, OncePerId;
    client, links := CountedCovers(w, clientFile, authorityFile);
    CoversParts(w, clientFile, authorityFile, client, links);
    CoveredOnce(w, client);
    TallyCountsLost(w, client, links, w.spec.count);
  }

  lemma CoversParts(w: Window, clientFile: Option<Bytes>, authorityFile: Option<Bytes>, client: ClientLinks,
                    links: Links)
    requires Covers(w, clientFile, authorityFile, client, links)
    ensures CheckClient(w, client).None? && AllNew(w, links, |links|) && Counting(w, client, links).Counted?
    ensures Tallied(w, client, links, w.spec.count).Ok?
    ensures authorityFile.Some? && ReadTraffic(w.tf, authorityFile.value) == Some(links)
  {
    hide CheckClient, AllNew, ReadTraffic, ReadClient, Judged;
    TallyNeverCounts(w, client, links, w.spec.count);
  }

  lemma {:induction false} TallyNeverCounts(w: Window, client: ClientLinks, links: Links, n: nat)
    ensures Tallied(w, client, links, n).Err? ==> !Tallied(w, client, links, n).error.Counted?
  {
    if n == 0 {
    } else {
      TallyNeverCounts(w, client, links, n - 1);
      HaltNeverCounts(w, client, links, n - 1);
      hide Judged;
    }
  }

  lemma HaltNeverCounts(w: Window, client: ClientLinks, links: Links, i: nat)
    ensures Judged(w, client, links, i).Halt? ==> !Judged(w, client, links, i).outcome.Counted?
  {
    hide RequestName, BorneOut, Matching, DecisionsOf, CompletionsOf;
  }

  // ---------------------------------------------------------------------
  // Served requests

  predicate Decides(links: Links, a: nat, rid: string) {
    a < |links| && links[a].payload.detail.Admission? && links[a].payload.detail.requestId == rid
  }

  predicate Completes(links: Links, c: nat, rid: string) {
    c < |links| && links[c].payload.detail.Complete? && links[c].payload.detail.requestId == rid
  }

  // Rows a and c of the authority back the client's finish f of request rid.
  predicate Backs(w: Window, client: ClientLinks, links: Links, s: nat, f: nat, a: nat, c: nat, rid: string) {
    && IsSend(client, s, rid) && IsFinish(client, f, rid) && Decides(links, a, rid) && Completes(links, c, rid)
    && links[a].payload.detail.admitted
    && client[f].payload.detail.admissionId == Some(links[a].payload.detail.admissionId)
    && links[c].payload.detail.admissionId == links[a].payload.detail.admissionId
    && BorneOut(w, client[s].payload.detail.sent, client[f].payload.detail, links, a, c)
  }

  lemma {:induction false} DecisionRow(links: Links, n: nat, rid: string, k: nat)
    requires n <= |links| && k < |DecisionsOf(links, n, rid)|
    ensures Decides(links, DecisionsOf(links, n, rid)[k], rid)
  {
    if k < |DecisionsOf(links, n - 1, rid)| {
      DecisionRow(links, n - 1, rid, k);
    }
  }

  lemma {:induction false} CompletionRow(links: Links, n: nat, rid: string, k: nat)
    requires n <= |links| && k < |CompletionsOf(links, n, rid)|
    ensures Completes(links, CompletionsOf(links, n, rid)[k], rid)
  {
    if k < |CompletionsOf(links, n - 1, rid)| {
      CompletionRow(links, n - 1, rid, k);
    }
  }

  lemma {:induction false} MatchingRow(links: Links, rows: seq<nat>, id: Option<string>, k: nat) returns (j: nat)
    requires k < |Matching(links, rows, id)|
    ensures j < |rows| && rows[j] == Matching(links, rows, id)[k] && Carries(links, rows[j], id)
  {
    var front := rows[..|rows| - 1];
    if k < |Matching(links, front, id)| {
      j := MatchingRow(links, front, id, k);
    } else {
      j := |rows| - 1;
    }
  }

  // Each request not counted lost is backed by one admission and one
  // completion in the authority's journal: sent, admitted, completed and
  // finished in this order, with equal status and equal bytes.
  lemma ServedIsBacked(w: Window, client: ClientLinks, links: Links, i: nat) returns (s: nat, f: nat, a: nat, c: nat)
    requires Judged(w, client, links, i).Serve?
    ensures Backs(w, client, links, s, f, a, c, Name(w, i)) && InTimeAt(client, s, f)
  {
    var rid := Name(w, i);
    s, f := SendOf(client, |client|, rid).value, FinishOf(client, |client|, rid).value;
    var id := client[f].payload.detail.admissionId;
    var decisions, completions := DecisionsOf(links, |links|, rid), CompletionsOf(links, |links|, rid);
    a, c := Matching(links, decisions, id)[0], Matching(links, completions, id)[0];
    hide RequestName, BorneOut, DecisionsOf, CompletionsOf, Matching, SendOf, FinishOf;
    var j := MatchingRow(links, decisions, id, 0);
    DecisionRow(links, |links|, rid, j);
    var k := MatchingRow(links, completions, id, 0);
    CompletionRow(links, |links|, rid, k);
  }

  lemma {:induction false} IdsCollect(w: Window, links: Links, i: nat, n: nat)
    requires i < n <= |links| && Mine(w, links[i].payload)
    ensures links[i].payload.detail.admissionId in AdmissionIds(w, links, n)
  {
    if i == n - 1 {
    } else {
      IdsCollect(w, links, i, n - 1);
    }
  }

  // Admissions of this window's requests never share an admission id.
  lemma AdmissionsDiffer(w: Window, links: Links, a: nat, b: nat)
    requires AllNew(w, links, |links|) && a < b < |links| && Mine(w, links[a].payload) && Mine(w, links[b].payload)
    ensures links[a].payload.detail.admissionId != links[b].payload.detail.admissionId
  {
    assert NewDecision(w, links, b);
    IdsCollect(w, links, a, b);
  }

  // The main soundness statement: every served request is backed, and two of
  // them by different admissions with different admission ids.
  lemma ServedAreBackedApart(w: Window, clientFile: Option<Bytes>, authorityFile: Option<Bytes>,
                             client: ClientLinks, links: Links, i: nat, k: nat)
      returns (s: nat, f: nat, a: nat, c: nat, s': nat, f': nat, a': nat, c': nat)
    requires Covers(w, clientFile, authorityFile, client, links)
    requires i < w.spec.count && k < w.spec.count && OnTime(w, client, i) && OnTime(w, client, k)
    ensures Backs(w, client, links, s, f, a, c, Name(w, i)) && InTimeAt(client, s, f)
    ensures Backs(w, client, links, s', f', a', c', Name(w, k)) && InTimeAt(client, s', f')
    ensures i != k ==>
      a != a' && c != c' && links[a].payload.detail.admissionId != links[a'].payload.detail.admissionId
  {
    hide Covers, OncePerId, OnTime, Judged, Backs, Counting, CheckClient, AllNew;
    CoversParts(w, clientFile, authorityFile, client, links);
    CoveredOnce(w, client);
    TallyCountsLost(w, client, links, w.spec.count);
    JudgedIsOnTime(w, client, links, i);
    JudgedIsOnTime(w, client, links, k);
    s, f, a, c := ServedIsBacked(w, client, links, i);
    s', f', a', c' := ServedIsBacked(w, client, links, k);
    if i != k {
      BackedApart(w, client, links, i, k, s, f, a, c, s', f', a', c');
    }
  }

  lemma BackedApart(w: Window, client: ClientLinks, links: Links, i: nat, k: nat,
                    s: nat, f: nat, a: nat, c: nat, s': nat, f': nat, a': nat, c': nat)
    requires AllNew(w, links, |links|) && i < w.spec.count && k < w.spec.count && i != k
    requires Backs(w, client, links, s, f, a, c, Name(w, i)) && Backs(w, client, links, s', f', a', c', Name(w, k))
    ensures a != a' && c != c' && links[a].payload.detail.admissionId != links[a'].payload.detail.admissionId
  {
    hide AllNew, RequestName, BorneOut;
    if Name(w, i) == Name(w, k) {
      NamesDiffer(w.spec.startId, i, k);
    }
    assert Name(w, i) in Expected(w) && Name(w, k) in Expected(w);
    if a < a' {
      AdmissionsDiffer(w, links, a, a');
    } else if a' < a {
      AdmissionsDiffer(w, links, a', a);
    }
  }

  // ---------------------------------------------------------------------
  // Duplicates

  lemma {:induction false} DecidedOnceRows(links: Links, n: nat, rid: string)
    requires n <= |links| && DecidedOnce(links) && rid != ""
    ensures |DecisionsOf(links, n, rid)| <= 1
    ensures |DecisionsOf(links, n, rid)| == 1 ==> exists k :: 0 <= k < n && DecidedId(links, k) == rid
  {
    if n == 0 {
    } else {
      DecidedOnceRows(links, n - 1, rid);
      var last := DecidedId(links, n - 1);
      if |DecisionsOf(links, n - 1, rid)| == 0 {
        assert |DecisionsOf(links, n, rid)| == 1 ==> last == rid;
      } else {
        var k :| 0 <= k < n - 1 && DecidedId(links, k) == rid;
        assert last != rid;
      }
    }
  }

  lemma {:induction false} NoDuplicates(w: Window, links: Links, n: nat)
    requires DecidedOnce(links)
    ensures Duplicates(w, links, n) == 0
  {
    hide DecidedOnce, DecisionsOf, Padded, Digits;
    if n == 0 {
    } else {
      NoDuplicates(w, links, n - 1);
      assert |Name(w, n - 1)| >= 9;
      DecidedOnceRows(links, |links|, Name(w, n - 1));
    }
  }

  // Whatever its handlers' schedule, a journal the proxy wrote shows no
  // duplicate admission.
  lemma ProxyNeverDuplicates(w: Window, clientFile: Option<Bytes>, cfg: Config, io: Io, actions: seq<Action>)
    requires w.tf == cfg.format && Usable(cfg) && Begun(cfg, io).1 == Done
    requires !Run(cfg, io, actions).log.disk.Torn?
    ensures var outcome := Verified(w, clientFile, Some(Run(cfg, io, actions).log.file));
      outcome.Counted? ==> outcome.duplicates == 0
  {
    var s := Run(cfg, io, actions);
    if Verified(w, clientFile, Some(s.log.file)).Counted? {
      hide Verified, Run, Usable, Covers, DecidedOnce, AllCountable, ReadTraffic;
      var client, links := CountedCovers(w, clientFile, Some(s.log.file));
      CoversParts(w, clientFile, Some(s.log.file), client, links);
      RunIsReadable(cfg, io, actions);
      AdmittedOnce(cfg, io, actions);
      NoDuplicates(w, links, w.spec.count);
    }
  }
}
