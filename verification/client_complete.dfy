/**
 The delivery window on its records: which two files are covered completely,
 and what the three numbers reported of them are.
 */
module ClientComplete {
  import opened Wrappers
  import opened JournalBytes
  import opened HashChain
  import opened LoopbackAuthority
  import opened LoopbackJournal
  import opened RecoveryChain
  import opened ClientTrace
  import opened RequestNames
  import opened ClientWindow
  import opened ClientSoundness

  // ---------------------------------------------------------------------
  // What the client's trace has to show

  ghost predicate SentOnce(client: ClientLinks, s: nat, rid: string) {
    IsSend(client, s, rid) && forall k: nat :: IsSend(client, k, rid) ==> k == s
  }

  ghost predicate FinishedOnce(client: ClientLinks, f: nat, rid: string) {
    IsFinish(client, f, rid) && forall k: nat :: IsFinish(client, k, rid) ==> k == f
  }

  // Record s is the one dispatch of request i, record f its one finish.
  ghost predicate Sole(w: Window, client: ClientLinks, i: nat, s: nat, f: nat) {
    SentOnce(client, s, RequestName(w.spec.startId, i)) && FinishedOnce(client, f, RequestName(w.spec.startId, i))
  }

  ghost predicate Named(w: Window, rid: string) {
    exists i: nat :: i < w.spec.count && RequestName(w.spec.startId, i) == rid
  }

  // Dispatched when the schedule says, with the frozen timeout and body.
  predicate OnSchedule(w: Window, client: ClientLinks, s: nat, i: nat) {
    && s < |client| && client[s].payload.detail.RequestStart? && client[0].payload.detail.ClientStart?
    && var d := client[s].payload.detail;
    && d.scheduled == client[0].payload.detail.anchor + w.spec.offset(i)
    && d.scheduled <= d.sent && d.sent - d.scheduled <= w.spec.slack
    && d.deadline - d.sent == w.spec.timeout
    && d.body == w.spec.payload && d.bodySha == w.spec.sha(w.spec.payload)
  }

  predicate SentAt(client: ClientLinks, k: nat, ns: int) {
    k < |client| && client[k].payload.detail.RequestStart? && client[k].payload.detail.sent == ns
  }

  // Requests go out before the fault, between it and the recovery, and after.
  ghost predicate AcrossFault(w: Window, client: ClientLinks) {
    && w.fault < w.recovery
    && (exists k: nat, ns: int :: SentAt(client, k, ns) && ns < w.fault)
    && (exists k: nat, ns: int :: SentAt(client, k, ns) && w.fault <= ns && ns <= w.recovery)
    && (exists k: nat, ns: int :: SentAt(client, k, ns) && ns > w.recovery)
  }

  ghost predicate Bracketed(w: Window, client: ClientLinks) {
    && client != []
    && (forall k :: 0 <= k < |client| ==> (client[k].payload.detail.ClientStart? <==> k == 0))
    && (forall k :: 0 <= k < |client| ==> (client[k].payload.detail.ClientStop? <==> k == |client| - 1))
    && client[0].payload.client == w.expected && client[0].payload.detail.startId == w.spec.startId
    && client[0].payload.detail.specSha == w.spec.specSha
    && client[|client| - 1].payload.detail.count == w.spec.count
  }

  ghost predicate Scheduled(w: Window, client: ClientLinks, i: nat) {
    exists s: nat, f: nat :: Sole(w, client, i, s, f) && OnSchedule(w, client, s, i)
  }

  ghost predicate Traced(w: Window, client: ClientLinks) {
    && Bracketed(w, client)
    && (forall k: nat, rid :: IsSend(client, k, rid) || IsFinish(client, k, rid) ==> Named(w, rid))
    && (forall i: nat :: i < w.spec.count ==> Scheduled(w, client, i))
    && AcrossFault(w, client)
  }

  // ---------------------------------------------------------------------
  // What the authority's journal has to show

  ghost predicate Own(w: Window, links: Links, k: nat) {
    k < |links| && links[k].payload.detail.Admission? && Named(w, links[k].payload.detail.requestId)
  }

  ghost predicate Journalled(w: Window, links: Links) {
    && links != []
    && (forall k :: 0 <= k < |links| ==> (links[k].payload.detail.AuthorityStart? <==> k == 0))
    && w.spec.authority.Some? && w.spec.authority.value.bootId == w.expected.bootId
    && (forall k :: 0 <= k < |links| ==> links[k].payload.process == w.spec.authority.value)
    && var start := links[0].payload.detail;
    && LaunchId in start.authorization && start.authorization[LaunchId] == Text(w.spec.startId)
    && (if RegistrationDigest in start.authorization
        then w.spec.registration == Some(start.authorization[RegistrationDigest]) else w.spec.registration.None?)
    && (w.spec.backends.Some? ==> start.backends == w.spec.backendsSha)
  }

  // Every decision about the window's requests is about the frozen body and
  // has an admission id of its own.
  ghost predicate DecidedApart(w: Window, links: Links) {
    && (forall k: nat :: Own(w, links, k) ==>
          && links[k].payload.detail.admissionId != "" && links[k].payload.detail.verb == "POST"
          && links[k].payload.detail.body == w.spec.sha(w.spec.payload))
    && (forall j: nat, k: nat :: j < k && Own(w, links, j) && Own(w, links, k) ==>
          links[j].payload.detail.admissionId != links[k].payload.detail.admissionId)
  }

  // ---------------------------------------------------------------------
  // What each request has to show

  predicate Granted(links: Links, k: nat, rid: string, id: Option<string>) {
    && k < |links| && links[k].payload.detail.Admission? && links[k].payload.detail.admitted
    && links[k].payload.detail.requestId == rid && Some(links[k].payload.detail.admissionId) == id
  }

  predicate Replied(links: Links, k: nat, rid: string, id: Option<string>) {
    && k < |links| && links[k].payload.detail.Complete?
    && links[k].payload.detail.requestId == rid && Some(links[k].payload.detail.admissionId) == id
  }

  ghost predicate GrantedOnce(links: Links, a: nat, rid: string, id: Option<string>) {
    Granted(links, a, rid, id) && forall k: nat :: Granted(links, k, rid, id) ==> k == a
  }

  ghost predicate RepliedOnce(links: Links, c: nat, rid: string, id: Option<string>) {
    Replied(links, c, rid, id) && forall k: nat :: Replied(links, k, rid, id) ==> k == c
  }

  // The registered process of the routed generation answered.
  predicate FromRegistered(spec: WindowSpec, p: Record)
    requires p.detail.Complete?
  {
    spec.backends.None? || spec.backends.value == map[] ||
    (&& p.detail.upstream.host == "127.0.0.1" && p.detail.upstream.port in spec.backends.value
     && var registered := spec.backends.value[p.detail.upstream.port];
     && p.detail.upstream.identity == Some(registered)
     && p.detail.upstream.listener != "" && (forall c :: c in p.detail.upstream.listener ==> '0' <= c && c <= '9')
     && p.route.generation.Some? && Same(registered.generation, p.route.generation.value)
     && registered.model == spec.model && registered.launch != "")
  }

  // One admission and one completion carry the id the client got back; sent,
  // admitted, completed and finished follow each other; status and bytes agree.
  ghost predicate Vouched(w: Window, client: ClientLinks, links: Links, i: nat, s: nat, f: nat, a: nat, c: nat) {
    && s < |client| && client[s].payload.detail.RequestStart? && f < |client| && client[f].payload.detail.RequestFinish?
    && var end := client[f].payload.detail;
    && GrantedOnce(links, a, RequestName(w.spec.startId, i), end.admissionId)
    && RepliedOnce(links, c, RequestName(w.spec.startId, i), end.admissionId)
    && client[s].payload.detail.sent <= links[a].payload.ns && links[a].payload.ns < links[c].payload.ns
    && links[c].payload.ns <= end.finished
    && links[c].payload.detail.status == end.status && links[c].payload.detail.payload == end.body
    && links[c].payload.detail.payloadSha == end.bodySha && FromRegistered(w.spec, links[c].payload)
  }

  predicate Consistent(w: Window, client: ClientLinks, s: nat, f: nat) {
    && s < |client| && client[s].payload.detail.RequestStart? && f < |client| && client[f].payload.detail.RequestFinish?
    && client[s].payload.detail.sent <= client[f].payload.detail.finished
    && client[f].payload.detail.finished <= client[f].payload.ns
    && client[f].payload.detail.bodySha == w.spec.sha(client[f].payload.detail.body)
  }

  predicate AnswersWith(w: Window, client: ClientLinks, f: nat, id: string) {
    && f < |client| && client[f].payload.detail.RequestFinish?
    && w.spec.judge(client[f].payload.detail.body) == Served(id)
  }

  // Late or refused, or vouched for and answered as the oracle wants.
  ghost predicate Settled(w: Window, client: ClientLinks, links: Links, i: nat, s: nat, f: nat) {
    && Consistent(w, client, s, f)
    && (InTimeAt(client, s, f) ==>
          && (exists a: nat, c: nat :: Vouched(w, client, links, i, s, f, a, c))
          && (exists id :: AnswersWith(w, client, f, id)))
  }

  ghost predicate AllSettled(w: Window, client: ClientLinks, links: Links) {
    forall i: nat, s: nat, f: nat :: i < w.spec.count && Sole(w, client, i, s, f) ==> Settled(w, client, links, i, s, f)
  }

  // ---------------------------------------------------------------------
  // The client's side of the equivalence

  lemma {:induction false} StartMarks(client: ClientLinks, n: nat)
    requires 0 < n <= |client| && client[0].payload.detail.ClientStart?
    ensures Marks(client, n).0 >= 1
    ensures Marks(client, n).0 == 1 <==> forall k :: 0 < k < n ==> !client[k].payload.detail.ClientStart?
  {
    if n == 1 {
      assert Marks(client, 0) == (0, 0);
    } else {
      StartMarks(client, n - 1);
    }
  }

  lemma {:induction false} StopMarks(client: ClientLinks, n: nat)
    requires n <= |client|
    ensures Marks(client, n).1 == 0 <==> forall k :: 0 <= k < n ==> !client[k].payload.detail.ClientStop?
  {
    if n == 0 {
    } else {
      StopMarks(client, n - 1);
    }
  }

  lemma BracketsTell(w: Window, client: ClientLinks)
    requires client != [] && client[0].payload.detail.ClientStart? && client[|client| - 1].payload.detail.ClientStop?
    ensures Marks(client, |client|).0 == 1 && Marks(client, |client|).1 <= 1 <==>
      && (forall k :: 0 <= k < |client| ==> (client[k].payload.detail.ClientStart? <==> k == 0))
      && (forall k :: 0 <= k < |client| ==> (client[k].payload.detail.ClientStop? <==> k == |client| - 1))
  {
    StartMarks(client, |client|);
    StopMarks(client, |client| - 1);
  }

  lemma {:induction false} SendMember(client: ClientLinks, n: nat, rid: string)
    requires n <= |client|
    ensures rid in SendNames(client, n) <==> exists k: nat :: k < n && IsSend(client, k, rid)
  {
    if n == 0 {
    } else {
      SendMember(client, n - 1, rid);
      assert rid in SendNames(client, n) <==> rid in SendNames(client, n - 1) || IsSend(client, n - 1, rid);
    }
  }

  lemma {:induction false} FinishMember(client: ClientLinks, n: nat, rid: string)
    requires n <= |client|
    ensures rid in FinishNames(client, n) <==> exists k: nat :: k < n && IsFinish(client, k, rid)
  {
    if n == 0 {
    } else {
      FinishMember(client, n - 1, rid);
      assert rid in FinishNames(client, n) <==> rid in FinishNames(client, n - 1) || IsFinish(client, n - 1, rid);
    }
  }

  // A list that repeats nothing has as many entries as different entries.
  lemma SnocSize(s: seq<string>, x: string)
    requires |s| == |Elements(s)| && x !in s
    ensures |s + [x]| == |Elements(s + [x])|
  {
    assert Elements(s + [x]) == Elements(s) + {x};
  }

  lemma {:induction false} SentSize(client: ClientLinks, n: nat)
    requires n <= |client| && forall j, k, rid :: 0 <= j < k && IsSend(client, j, rid) ==> !IsSend(client, k, rid)
    ensures |SendNames(client, n)| == |Elements(SendNames(client, n))|
  {
    if n == 0 {
      assert Elements(SendNames(client, 0)) == {};
    } else {
      SentSize(client, n - 1);
      var d := client[n - 1].payload.detail;
      if d.RequestStart? {
        SendMember(client, n - 1, d.requestId);
        assert IsSend(client, n - 1, d.requestId);
        SnocSize(SendNames(client, n - 1), d.requestId);
      }
    }
  }

  lemma {:induction false} FinishedSize(client: ClientLinks, n: nat)
    requires n <= |client| && forall j, k, rid :: 0 <= j < k && IsFinish(client, j, rid) ==> !IsFinish(client, k, rid)
    ensures |FinishNames(client, n)| == |Elements(FinishNames(client, n))|
  {
    if n == 0 {
      assert Elements(FinishNames(client, 0)) == {};
    } else {
      FinishedSize(client, n - 1);
      var d := client[n - 1].payload.detail;
      if d.RequestFinish? {
        FinishMember(client, n - 1, d.requestId);
        assert IsFinish(client, n - 1, d.requestId);
        SnocSize(FinishNames(client, n - 1), d.requestId);
      }
    }
  }

  lemma ExpectedNamed(w: Window, rid: string)
    ensures rid in Expected(w) <==> Named(w, rid)
  {
    hide RequestName;
    if rid in Expected(w) {
      var i: nat :| i < w.spec.count && Name(w, i) == rid;
      assert RequestName(w.spec.startId, i) == rid;
    }
    if Named(w, rid) {
      var i: nat :| i < w.spec.count && RequestName(w.spec.startId, i) == rid;
      assert Name(w, i) in Expected(w);
    }
  }

  // The two lists name every request once and nothing else.
  ghost predicate Complement(w: Window, client: ClientLinks) {
    && |SendNames(client, |client|)| == |Expected(w)| && |FinishNames(client, |client|)| == |Expected(w)|
    && Elements(SendNames(client, |client|)) == Expected(w) && Elements(FinishNames(client, |client|)) == Expected(w)
  }

  ghost predicate HasBoth(w: Window, client: ClientLinks, i: nat) {
    exists s: nat, f: nat :: Sole(w, client, i, s, f)
  }

  ghost predicate OneEach(w: Window, client: ClientLinks) {
    && (forall k: nat, rid :: IsSend(client, k, rid) || IsFinish(client, k, rid) ==> Named(w, rid))
    && (forall i: nat :: i < w.spec.count ==> HasBoth(w, client, i))
  }

  lemma ListsGiveOneEach(w: Window, client: ClientLinks)
    requires Complement(w, client) && OncePerId(client)
    ensures OneEach(w, client)
  {
    var n := |client|;
    hide SendNames, FinishNames, RequestName, Named, Expected;
    forall k: nat, rid | IsSend(client, k, rid) || IsFinish(client, k, rid) ensures Named(w, rid) {
      SendMember(client, n, rid);
      FinishMember(client, n, rid);
      assert rid in Expected(w);
      ExpectedNamed(w, rid);
    }
    forall i: nat | i < w.spec.count ensures HasBoth(w, client, i) {
      var rid := RequestName(w.spec.startId, i);
      assert rid in Expected(w) by {
        RequestIsNamed(w, i);
        ExpectedNamed(w, rid);
      }
      assert rid in Elements(SendNames(client, n)) && rid in Elements(FinishNames(client, n));
      SendMember(client, n, rid);
      FinishMember(client, n, rid);
      var s: nat :| s < n && IsSend(client, s, rid);
      var f: nat :| f < n && IsFinish(client, f, rid);
      assert Sole(w, client, i, s, f);
    }
  }

  lemma RequestIsNamed(w: Window, i: nat)
    requires i < w.spec.count
    ensures Named(w, RequestName(w.spec.startId, i))
  {
  }

  lemma NamedHasBoth(w: Window, client: ClientLinks, rid: string) returns (s: nat, f: nat)
    requires OneEach(w, client) && Named(w, rid)
    ensures SentOnce(client, s, rid) && FinishedOnce(client, f, rid) && s < |client| && f < |client|
  {
    hide RequestName;
    var i: nat :| i < w.spec.count && RequestName(w.spec.startId, i) == rid;
    assert HasBoth(w, client, i);
    s, f :| Sole(w, client, i, s, f);
  }

  lemma EachOnce(w: Window, client: ClientLinks)
    requires OneEach(w, client)
    ensures OncePerId(client)
  {
    hide RequestName, Named;
    forall j: nat, k: nat, rid | j < k && IsSend(client, j, rid) ensures !IsSend(client, k, rid) {
      var s, f := NamedHasBoth(w, client, rid);
      assert j == s;
    }
    forall j: nat, k: nat, rid | j < k && IsFinish(client, j, rid) ensures !IsFinish(client, k, rid) {
      var s, f := NamedHasBoth(w, client, rid);
      assert j == f;
    }
  }

  lemma OneEachGivesLists(w: Window, client: ClientLinks)
    requires OneEach(w, client)
    ensures OncePerId(client) && Complement(w, client)
  {
    var n := |client|;
    hide SendNames, FinishNames, RequestName, Expected, Named;
    EachOnce(w, client);
    SentSize(client, n);
    FinishedSize(client, n);
    forall rid
      ensures rid in Elements(SendNames(client, n)) <==> rid in Expected(w)
      ensures rid in Elements(FinishNames(client, n)) <==> rid in Expected(w)
    {
      SendMember(client, n, rid);
      FinishMember(client, n, rid);
      ExpectedNamed(w, rid);
      if Named(w, rid) {
        var s, f := NamedHasBoth(w, client, rid);
      }
    }
    assert Elements(SendNames(client, n)) == Expected(w) && Elements(FinishNames(client, n)) == Expected(w);
  }

  // ---------------------------------------------------------------------
  // Schedules

  lemma {:induction false} SchedulesTell(w: Window, client: ClientLinks, anchor: int, n: nat)
    ensures CheckSchedules(w, client, anchor, n).None?
            <==> forall i: nat :: i < n ==> CheckSchedule(w, client, anchor, i).None?
  {
    hide CheckSchedule;
    if n == 0 {
    } else {
      SchedulesTell(w, client, anchor, n - 1);
    }
  }

  lemma {:induction false} SendFound(client: ClientLinks, n: nat, rid: string, k: nat)
    requires k < n <= |client| && IsSend(client, k, rid)
    ensures SendOf(client, n, rid).Some?
  {
    if k < n - 1 {
      SendFound(client, n - 1, rid, k);
    }
  }

  lemma {:induction false} FinishFound(client: ClientLinks, n: nat, rid: string, k: nat)
    requires k < n <= |client| && IsFinish(client, k, rid)
    ensures FinishOf(client, n, rid).Some?
  {
    if k < n - 1 {
      FinishFound(client, n - 1, rid, k);
    }
  }

  lemma SoleFound(w: Window, client: ClientLinks, i: nat, s: nat, f: nat)
    requires Sole(w, client, i, s, f)
    ensures SendOf(client, |client|, Name(w, i)) == Some(s) && FinishOf(client, |client|, Name(w, i)) == Some(f)
  {
    hide RequestName;
    SendFound(client, |client|, Name(w, i), s);
    FinishFound(client, |client|, Name(w, i), f);
  }

  lemma ScheduleTells(w: Window, client: ClientLinks, i: nat, s: nat, f: nat)
    requires client != [] && client[0].payload.detail.ClientStart? && Sole(w, client, i, s, f)
    ensures CheckSchedule(w, client, client[0].payload.detail.anchor, i).None? <==> OnSchedule(w, client, s, i)
    ensures OnSchedule(w, client, s, i) <==> Scheduled(w, client, i)
  {
    SoleFound(w, client, i, s, f);
    hide RequestName, SendOf, FinishOf;
  }

  lemma StraddlesTell(w: Window, client: ClientLinks)
    ensures Straddles(w, client) <==> AcrossFault(w, client)
  {
    if Straddles(w, client) {
      var a, b, c :| 0 <= a < |client| && 0 <= b < |client| && 0 <= c < |client|
                     && client[a].payload.detail.RequestStart? && client[a].payload.detail.sent < w.fault
                     && client[b].payload.detail.RequestStart? && w.recovery < client[b].payload.detail.sent
                     && client[c].payload.detail.RequestStart?
                     && w.fault <= client[c].payload.detail.sent <= w.recovery;
      assert SentAt(client, a, client[a].payload.detail.sent) && SentAt(client, b, client[b].payload.detail.sent)
             && SentAt(client, c, client[c].payload.detail.sent);
    }
  }

  lemma SchedulesExactly(w: Window, client: ClientLinks)
    requires client != [] && client[0].payload.detail.ClientStart? && OneEach(w, client)
    ensures CheckSchedules(w, client, client[0].payload.detail.anchor, w.spec.count).None?
            <==> forall i: nat :: i < w.spec.count ==> Scheduled(w, client, i)
  {
    var anchor := client[0].payload.detail.anchor;
    SchedulesTell(w, client, anchor, w.spec.count);
    hide CheckSchedule, Scheduled, Named, RequestName, OnSchedule, CheckSchedules;
    forall i: nat | i < w.spec.count
      ensures CheckSchedule(w, client, anchor, i).None? <==> Scheduled(w, client, i)
    {
      assert HasBoth(w, client, i);
      var s: nat, f: nat :| Sole(w, client, i, s, f);
      ScheduleTells(w, client, i, s, f);
    }
  }

  lemma ScheduledGivesSole(w: Window, client: ClientLinks)
    requires Traced(w, client)
    ensures OneEach(w, client)
  {
    hide RequestName, OnSchedule;
    forall i: nat | i < w.spec.count ensures HasBoth(w, client, i) {
      assert Scheduled(w, client, i);
    }
  }

  lemma TracedExactly(w: Window, client: ClientLinks)
    ensures CheckClient(w, client).None? <==> Traced(w, client)
  {
    hide RequestName, Named, SendNames, FinishNames, Expected, Scheduled, Straddles, AcrossFault, CheckSchedules, Marks;
    if client != [] && client[0].payload.detail.ClientStart? && client[|client| - 1].payload.detail.ClientStop? {
      BracketsTell(w, client);
      StraddlesTell(w, client);
      if CheckClient(w, client).None? {
        CoveredOnce(w, client);
        ListsGiveOneEach(w, client);
        SchedulesExactly(w, client);
      }
      if Traced(w, client) {
        ScheduledGivesSole(w, client);
        OneEachGivesLists(w, client);
        SchedulesExactly(w, client);
      }
    }
  }

  // ---------------------------------------------------------------------
  // The authority's side

  lemma {:induction false} AuthorityMarks(links: Links, n: nat)
    requires 0 < n <= |links| && links[0].payload.detail.AuthorityStart?
    ensures Starts(links, n) >= 1
    ensures Starts(links, n) == 1 <==> forall k :: 0 < k < n ==> !links[k].payload.detail.AuthorityStart?
  {
    if n == 1 {
      assert Starts(links, 0) == 0;
    } else {
      AuthorityMarks(links, n - 1);
    }
  }

  lemma JournalledExactly(w: Window, links: Links)
    requires links != [] && links[0].payload.detail.AuthorityStart?
    ensures CheckAuthority(w, links).None? <==> Journalled(w, links)
  {
    AuthorityMarks(links, |links|);
  }

  lemma {:induction false} IdListed(w: Window, links: Links, n: nat, id: string)
    requires n <= |links|
    ensures id in AdmissionIds(w, links, n)
            <==> exists k: nat :: k < n && Own(w, links, k) && links[k].payload.detail.admissionId == id
  {
    hide Named, Expected;
    if n == 0 {
    } else {
      IdListed(w, links, n - 1, id);
      ExpectedNamedOf(w, links, n - 1);
      assert id in AdmissionIds(w, links, n) <==>
        id in AdmissionIds(w, links, n - 1)
        || (Own(w, links, n - 1) && links[n - 1].payload.detail.admissionId == id);
    }
  }

  lemma ExpectedNamedOf(w: Window, links: Links, k: nat)
    requires k < |links|
    ensures Mine(w, links[k].payload) <==> Own(w, links, k)
  {
    hide Named, Expected;
    if links[k].payload.detail.Admission? {
      ExpectedNamed(w, links[k].payload.detail.requestId);
    }
  }

  lemma DecidedExactly(w: Window, links: Links)
    ensures AllNew(w, links, |links|) <==> DecidedApart(w, links)
  {
    hide Named, Expected, AdmissionIds;
    forall k: nat | k < |links|
      ensures NewDecision(w, links, k) <==> (Own(w, links, k) ==> NewHere(w, links, k))
    {
      ExpectedNamedOf(w, links, k);
      if Own(w, links, k) {
        IdListed(w, links, k, links[k].payload.detail.admissionId);
      }
    }
    NewTogether(w, links);
  }

  ghost predicate NewHere(w: Window, links: Links, k: nat)
    requires Own(w, links, k)
  {
    && links[k].payload.detail.admissionId != "" && links[k].payload.detail.verb == "POST"
    && links[k].payload.detail.body == w.spec.sha(w.spec.payload)
    && forall j: nat :: j < k && Own(w, links, j) ==>
         links[j].payload.detail.admissionId != links[k].payload.detail.admissionId
  }

  lemma NewTogether(w: Window, links: Links)
    ensures DecidedApart(w, links) <==> forall k: nat :: k < |links| && Own(w, links, k) ==> NewHere(w, links, k)
  {
    hide Named;
  }

  // ---------------------------------------------------------------------
  // One request

  ghost predicate OnlyGrant(links: Links, n: nat, rid: string, id: Option<string>, a: nat) {
    a < n && Granted(links, a, rid, id) && forall k: nat :: k < n && Granted(links, k, rid, id) ==> k == a
  }

  ghost predicate NoGrant(links: Links, n: nat, rid: string, id: Option<string>) {
    forall k: nat :: k < n ==> !Granted(links, k, rid, id)
  }

  ghost predicate GrantTells(links: Links, n: nat, rid: string, id: Option<string>, rows: seq<nat>) {
    && (rows == [] <==> NoGrant(links, n, rid, id))
    && (|rows| == 1 ==> OnlyGrant(links, n, rid, id, rows[0]))
    && (forall a: nat :: OnlyGrant(links, n, rid, id, a) ==> |rows| == 1)
  }

  lemma GrantGrows(links: Links, n: nat, m: nat, rid: string, id: Option<string>, rows: seq<nat>)
    requires GrantTells(links, n, rid, id, rows) && m == n + 1
    ensures GrantTells(links, m, rid, id, if Granted(links, n, rid, id) then rows + [n] else rows)
  {
    hide Granted;
    if Granted(links, n, rid, id) {
      assert |rows + [n]| == 1 ==> (rows + [n])[0] == n;
      assert forall a: nat :: OnlyGrant(links, m, rid, id, a) ==> a == n;
    } else {
      assert forall a: nat :: OnlyGrant(links, m, rid, id, a) <==> OnlyGrant(links, n, rid, id, a);
      assert NoGrant(links, m, rid, id) <==> NoGrant(links, n, rid, id);
    }
  }

  lemma GrantRow(links: Links, n: nat, rid: string, id: Option<string>)
    requires 0 < n <= |links|
    ensures var before := Matching(links, DecisionsOf(links, n - 1, rid), id);
      Matching(links, DecisionsOf(links, n, rid), id)
      == if Granted(links, n - 1, rid, id) then before + [n - 1] else before
  {
    var before := DecisionsOf(links, n - 1, rid);
    assert (before + [n - 1])[..|before|] == before;
  }

  lemma {:induction false} GrantFound(links: Links, n: nat, rid: string, id: Option<string>)
    requires n <= |links|
    ensures GrantTells(links, n, rid, id, Matching(links, DecisionsOf(links, n, rid), id))
  {
    hide GrantTells, DecisionsOf, Matching, Granted;
    if n == 0 {
      NoGrantYet(links, rid, id);
    } else {
      GrantFound(links, n - 1, rid, id);
      GrantRow(links, n, rid, id);
      GrantGrows(links, n - 1, n, rid, id, Matching(links, DecisionsOf(links, n - 1, rid), id));
    }
  }

  lemma NoGrantYet(links: Links, rid: string, id: Option<string>)
    ensures GrantTells(links, 0, rid, id, Matching(links, DecisionsOf(links, 0, rid), id))
  {
    assert DecisionsOf(links, 0, rid) == [];
  }

  ghost predicate OnlyReply(links: Links, n: nat, rid: string, id: Option<string>, a: nat) {
    a < n && Replied(links, a, rid, id) && forall k: nat :: k < n && Replied(links, k, rid, id) ==> k == a
  }

  ghost predicate NoReply(links: Links, n: nat, rid: string, id: Option<string>) {
    forall k: nat :: k < n ==> !Replied(links, k, rid, id)
  }

  ghost predicate ReplyTells(links: Links, n: nat, rid: string, id: Option<string>, rows: seq<nat>) {
    && (rows == [] <==> NoReply(links, n, rid, id))
    && (|rows| == 1 ==> OnlyReply(links, n, rid, id, rows[0]))
    && (forall a: nat :: OnlyReply(links, n, rid, id, a) ==> |rows| == 1)
  }

  lemma ReplyGrows(links: Links, n: nat, m: nat, rid: string, id: Option<string>, rows: seq<nat>)
    requires ReplyTells(links, n, rid, id, rows) && m == n + 1
    ensures ReplyTells(links, m, rid, id, if Replied(links, n, rid, id) then rows + [n] else rows)
  {
    hide Replied;
    if Replied(links, n, rid, id) {
      assert |rows + [n]| == 1 ==> (rows + [n])[0] == n;
      assert forall a: nat :: OnlyReply(links, m, rid, id, a) ==> a == n;
    } else {
      assert forall a: nat :: OnlyReply(links, m, rid, id, a) <==> OnlyReply(links, n, rid, id, a);
      assert NoReply(links, m, rid, id) <==> NoReply(links, n, rid, id);
    }
  }

  lemma ReplyRow(links: Links, n: nat, rid: string, id: Option<string>)
    requires 0 < n <= |links|
    ensures var before := Matching(links, CompletionsOf(links, n - 1, rid), id);
      Matching(links, CompletionsOf(links, n, rid), id)
      == if Replied(links, n - 1, rid, id) then before + [n - 1] else before
  {
    var before := CompletionsOf(links, n - 1, rid);
    assert (before + [n - 1])[..|before|] == before;
  }

  lemma {:induction false} ReplyFound(links: Links, n: nat, rid: string, id: Option<string>)
    requires n <= |links|
    ensures ReplyTells(links, n, rid, id, Matching(links, CompletionsOf(links, n, rid), id))
  {
    hide ReplyTells, CompletionsOf, Matching, Replied;
    if n == 0 {
      NoReplyYet(links, rid, id);
    } else {
      ReplyFound(links, n - 1, rid, id);
      ReplyRow(links, n, rid, id);
      ReplyGrows(links, n - 1, n, rid, id, Matching(links, CompletionsOf(links, n - 1, rid), id));
    }
  }

  lemma NoReplyYet(links: Links, rid: string, id: Option<string>)
    ensures ReplyTells(links, 0, rid, id, Matching(links, CompletionsOf(links, 0, rid), id))
  {
    assert CompletionsOf(links, 0, rid) == [];
  }

  lemma BackendTells(w: Window, p: Record)
    requires p.detail.Complete?
    ensures BackendBound(w, p) <==> FromRegistered(w.spec, p)
  {
    if w.spec.backends.Some? {
      assert |w.spec.backends.value| == 0 <==> w.spec.backends.value == map[];
    }
    var s := p.detail.upstream.listener;
    if forall c :: c in s ==> '0' <= c && c <= '9' {
      assert forall i :: 0 <= i < |s| ==> s[i] in s;
    }
  }

  lemma VouchedTells(w: Window, client: ClientLinks, links: Links, i: nat, s: nat, f: nat)
    requires Sole(w, client, i, s, f) && Consistent(w, client, s, f)
    ensures var d, end := client[s].payload.detail, client[f].payload.detail;
      var admits := Matching(links, DecisionsOf(links, |links|, Name(w, i)), end.admissionId);
      var completes := Matching(links, CompletionsOf(links, |links|, Name(w, i)), end.admissionId);
      (|completes| == 1 && |admits| == 1 && BorneOut(w, d.sent, end, links, admits[0], completes[0]))
      <==> exists a: nat, c: nat :: Vouched(w, client, links, i, s, f, a, c)
  {
    var d, end, rid := client[s].payload.detail, client[f].payload.detail, RequestName(w.spec.startId, i);
    var decisions, completions := DecisionsOf(links, |links|, rid), CompletionsOf(links, |links|, rid);
    var admits, completes := Matching(links, decisions, end.admissionId), Matching(links, completions, end.admissionId);
    GrantFound(links, |links|, rid, end.admissionId);
    ReplyFound(links, |links|, rid, end.admissionId);
    hide RequestName, Matching, DecisionsOf, CompletionsOf, BackendBound, FromRegistered, Sole, InTimeAt;
    forall a: nat, id | GrantedOnce(links, a, rid, id) ensures OnlyGrant(links, |links|, rid, id, a) {
    }
    forall c: nat, id | RepliedOnce(links, c, rid, id) ensures OnlyReply(links, |links|, rid, id, c) {
    }
    if |completes| == 1 && |admits| == 1 {
      var a, c := admits[0], completes[0];
      BackendTells(w, links[c].payload);
      assert GrantedOnce(links, a, rid, end.admissionId) && RepliedOnce(links, c, rid, end.admissionId);
      assert BorneOut(w, d.sent, end, links, a, c) <==> Vouched(w, client, links, i, s, f, a, c);
      forall a': nat, c': nat | Vouched(w, client, links, i, s, f, a', c') ensures a' == a && c' == c {
      }
    } else {
      forall a': nat, c': nat ensures !Vouched(w, client, links, i, s, f, a', c') {
      }
    }
  }

  lemma JudgedTells(w: Window, client: ClientLinks, links: Links, i: nat, s: nat, f: nat)
    requires Sole(w, client, i, s, f)
    ensures !Judged(w, client, links, i).Halt? <==> Settled(w, client, links, i, s, f)
    ensures var step := Judged(w, client, links, i);
      !step.Halt? ==>
        && (step.Serve? <==> InTimeAt(client, s, f))
        && (step.Serve? ==> AnswersWith(w, client, f, step.responseId))
  {
    SoleFound(w, client, i, s, f);
    if Consistent(w, client, s, f) {
      VouchedTells(w, client, links, i, s, f);
    }
    var answer := w.spec.judge(client[f].payload.detail.body);
    hide RequestName, Matching, DecisionsOf, CompletionsOf, BorneOut, SendOf, FinishOf, Vouched, Sole;
    if answer.Served? {
      assert AnswersWith(w, client, f, answer.responseId);
    }
  }

  lemma {:induction false} TallyStands(w: Window, client: ClientLinks, links: Links, n: nat)
    ensures Tallied(w, client, links, n).Ok? <==> forall i: nat :: i < n ==> !Judged(w, client, links, i).Halt?
  {
    hide Judged;
    if n == 0 {
    } else {
      TallyStands(w, client, links, n - 1);
    }
  }

  lemma SettledExactly(w: Window, client: ClientLinks, links: Links)
    requires OneEach(w, client)
    ensures Tallied(w, client, links, w.spec.count).Ok? <==> AllSettled(w, client, links)
  {
    TallyStands(w, client, links, w.spec.count);
    hide Judged, Settled, Sole, Named, Tallied;
    forall i: nat, s: nat, f: nat | Sole(w, client, i, s, f)
      ensures !Judged(w, client, links, i).Halt? <==> Settled(w, client, links, i, s, f)
    {
      JudgedTells(w, client, links, i, s, f);
    }
    forall i: nat | i < w.spec.count && AllSettled(w, client, links) ensures !Judged(w, client, links, i).Halt? {
      assert HasBoth(w, client, i);
      var s: nat, f: nat :| Sole(w, client, i, s, f);
      assert Settled(w, client, links, i, s, f);
    }
  }

  // ---------------------------------------------------------------------
  // The three numbers

  ghost predicate Answered(w: Window, client: ClientLinks, i: nat, id: string) {
    exists s: nat, f: nat :: Sole(w, client, i, s, f) && InTimeAt(client, s, f) && AnswersWith(w, client, f, id)
  }

  // An earlier request was served under the same response id.
  ghost predicate Repeats(w: Window, client: ClientLinks, i: nat) {
    exists j: nat, id :: j < i && Answered(w, client, j, id) && Answered(w, client, i, id)
  }

  ghost function RepeatSet(w: Window, client: ClientLinks, n: nat): set<nat> {
    set i: nat | i < n && Repeats(w, client, i)
  }

  lemma ReusedSnoc(s: seq<string>, x: string)
    ensures Reused(s + [x]) == Reused(s) + if x in s then 1 else 0
  {
    assert Elements(s + [x]) == Elements(s) + {x};
    assert x in s ==> Elements(s) + {x} == Elements(s);
  }

  lemma ServeAnswers(w: Window, client: ClientLinks, links: Links, i: nat, id: string)
    requires HasBoth(w, client, i) && !Judged(w, client, links, i).Halt?
    ensures Answered(w, client, i, id) <==> Judged(w, client, links, i) == Serve(id)
  {
    hide Judged, Settled, RequestName;
    var s: nat, f: nat :| Sole(w, client, i, s, f);
    JudgedTells(w, client, links, i, s, f);
  }

  ghost predicate Known(w: Window, client: ClientLinks, n: nat, id: string) {
    exists j: nat :: j < n && Answered(w, client, j, id)
  }

  lemma KnownGrows(w: Window, client: ClientLinks, n: nat, id: string)
    requires n > 0
    ensures Known(w, client, n, id) <==> Known(w, client, n - 1, id) || Answered(w, client, n - 1, id)
  {
    hide Answered;
  }

  lemma RepeatsTell(w: Window, client: ClientLinks, i: nat)
    ensures Repeats(w, client, i) <==> exists id :: Known(w, client, i, id) && Answered(w, client, i, id)
  {
    hide Answered;
    if Repeats(w, client, i) {
      var j: nat, id :| j < i && Answered(w, client, j, id) && Answered(w, client, i, id);
      assert Known(w, client, i, id);
    }
  }

  lemma RepeatsWhen(w: Window, client: ClientLinks, i: nat, id: string)
    requires forall x :: Answered(w, client, i, x) <==> x == id
    ensures Repeats(w, client, i) <==> Known(w, client, i, id)
  {
    RepeatsTell(w, client, i);
    hide Answered, Known, Repeats;
    assert Answered(w, client, i, id);
  }

  lemma RepeatSetGrows(w: Window, client: ClientLinks, n: nat)
    requires n > 0
    ensures |RepeatSet(w, client, n)| == |RepeatSet(w, client, n - 1)| + if Repeats(w, client, n - 1) then 1 else 0
  {
    hide Repeats;
    var before := RepeatSet(w, client, n - 1);
    assert RepeatSet(w, client, n) == if Repeats(w, client, n - 1) then before + {n - 1} else before;
  }

  lemma {:induction false} TallyRepeats(w: Window, client: ClientLinks, links: Links, n: nat)
    requires OneEach(w, client) && n <= w.spec.count && Tallied(w, client, links, n).Ok?
    ensures var served := Tallied(w, client, links, n).value.served;
      && (forall id :: id in served <==> Known(w, client, n, id))
      && Reused(served) == |RepeatSet(w, client, n)|
  {
    hide Judged, Answered, Named, HasBoth, Repeats, Known, Reused, RepeatSet;
    if n == 0 {
      NothingKnown(w, client);
    } else {
      var m: nat := n - 1;
      TallyRepeats(w, client, links, m);
      var step, served := Judged(w, client, links, m), Tallied(w, client, links, m).value.served;
      forall id
        ensures Known(w, client, n, id) <==> id in served || step == Serve(id)
      {
        ServeAnswers(w, client, links, m, id);
        KnownGrows(w, client, n, id);
      }
      RepeatsTell(w, client, m);
      RepeatSetGrows(w, client, n);
      forall id ensures Answered(w, client, m, id) <==> step.Serve? && step.responseId == id {
        ServeAnswers(w, client, links, m, id);
      }
      if step.Serve? {
        var id := step.responseId;
        ReusedSnoc(served, id);
        RepeatsWhen(w, client, m, id);
        assert Tallied(w, client, links, n).value.served == served + [id];
      } else {
        assert Tallied(w, client, links, n).value.served == served;
      }
    }
  }

  lemma NothingKnown(w: Window, client: ClientLinks)
    ensures forall id :: !Known(w, client, 0, id)
    ensures RepeatSet(w, client, 0) == {} && Reused([]) == 0
  {
    assert Elements([]) == {};
  }

  // ---------------------------------------------------------------------
  // Duplicate admissions

  ghost function RowSet(links: Links, n: nat, rid: string): set<nat> {
    set k: nat | k < n && Decides(links, k, rid)
  }

  lemma {:induction false} RowsCount(links: Links, n: nat, rid: string)
    requires n <= |links|
    ensures |DecisionsOf(links, n, rid)| == |RowSet(links, n, rid)|
  {
    if n == 0 {
      assert RowSet(links, 0, rid) == {};
    } else {
      RowsCount(links, n - 1, rid);
      var before := RowSet(links, n - 1, rid);
      assert RowSet(links, n, rid) == if Decides(links, n - 1, rid) then before + {n - 1} else before;
    }
  }

  ghost predicate DecisionBelow(w: Window, links: Links, n: nat, k: nat) {
    exists i: nat :: i < n && Decides(links, k, RequestName(w.spec.startId, i))
  }

  ghost function DecisionSet(w: Window, links: Links, n: nat): set<nat> {
    set k: nat | k < |links| && DecisionBelow(w, links, n, k)
  }

  ghost predicate HasDecision(w: Window, links: Links, i: nat) {
    exists k: nat :: Decides(links, k, RequestName(w.spec.startId, i))
  }

  // The requests of the window the authority decided about at all.
  ghost function DecidedSet(w: Window, links: Links, n: nat): set<nat> {
    set i: nat | i < n && HasDecision(w, links, i)
  }

  ghost function OwnSet(w: Window, links: Links): set<nat> {
    set k: nat | k < |links| && Own(w, links, k)
  }

  lemma RowsApart(w: Window, links: Links, n: nat)
    requires n > 0
    ensures var rows := RowSet(links, |links|, RequestName(w.spec.startId, n - 1));
      && DecisionSet(w, links, n) == DecisionSet(w, links, n - 1) + rows
      && DecisionSet(w, links, n - 1) !! rows
  {
    hide RequestName;
    var rid := RequestName(w.spec.startId, n - 1);
    forall k: nat
      ensures DecisionBelow(w, links, n, k) <==> DecisionBelow(w, links, n - 1, k) || Decides(links, k, rid)
    {
    }
    forall k: nat | DecisionBelow(w, links, n - 1, k) && Decides(links, k, rid) ensures false {
      var i: nat :| i < n - 1 && Decides(links, k, RequestName(w.spec.startId, i));
      NamesDiffer(w.spec.startId, i, n - 1);
    }
  }

  lemma {:induction false} DuplicatesCount(w: Window, links: Links, n: nat)
    ensures Duplicates(w, links, n) == |DecisionSet(w, links, n)| - |DecidedSet(w, links, n)|
  {
    hide DecisionsOf, RequestName, DecisionBelow, HasDecision;
    if n == 0 {
      NoDecisionBelow(w, links);
    } else {
      DuplicatesCount(w, links, n - 1);
      RowsApart(w, links, n);
      RowsCount(links, |links|, Name(w, n - 1));
      DecidedGrows(w, links, n);
    }
  }

  lemma NoDecisionBelow(w: Window, links: Links)
    ensures DecisionSet(w, links, 0) == {} && DecidedSet(w, links, 0) == {}
  {
  }

  lemma DecidedGrows(w: Window, links: Links, n: nat)
    requires n > 0
    ensures var rows := RowSet(links, |links|, RequestName(w.spec.startId, n - 1));
      |DecidedSet(w, links, n)| == |DecidedSet(w, links, n - 1)| + if rows == {} then 0 else 1
  {
    hide RequestName;
    var rid, before := RequestName(w.spec.startId, n - 1), DecidedSet(w, links, n - 1);
    var rows := RowSet(links, |links|, rid);
    if HasDecision(w, links, n - 1) {
      var k: nat :| Decides(links, k, rid);
      assert k in rows;
      assert DecidedSet(w, links, n) == before + {n - 1};
    } else {
      assert rows == {};
      assert DecidedSet(w, links, n) == before;
    }
  }

  lemma OwnIsDecision(w: Window, links: Links)
    ensures DecisionSet(w, links, w.spec.count) == OwnSet(w, links)
  {
    hide RequestName;
    forall k: nat | k < |links| ensures DecisionBelow(w, links, w.spec.count, k) <==> Own(w, links, k) {
    }
  }

  // ---------------------------------------------------------------------
  // The window

  // Both files read back, and their records meet every condition above.
  ghost predicate Delivered(w: Window, clientFile: Option<Bytes>, authorityFile: Option<Bytes>) {
    && clientFile.Some? && ReadClient(w.cf, clientFile.value).Some?
    && authorityFile.Some? && ReadTraffic(w.tf, authorityFile.value).Some?
    && var client, links := ReadClient(w.cf, clientFile.value).value, ReadTraffic(w.tf, authorityFile.value).value;
    Traced(w, client) && Journalled(w, links) && DecidedApart(w, links) && AllSettled(w, client, links)
  }

  lemma FirstLineReads(w: Window, data: Bytes)
    requires ReadTraffic(w.tf, data).Some?
    ensures var links, lines := ReadTraffic(w.tf, data).value, SplitLines(data);
      links != [] && lines != [] && w.tf.parse(lines[0]) == Some(links[0]) && links[0].payload.detail.AuthorityStart?
  {
    var lines := SplitLines(data);
    DecodePrefix(w.tf, lines, 1);
    assert lines[..0] == [] && lines[..1] == [lines[0]];
    DecodeStep(w.tf, lines, 0, []);
  }

  // A window is covered completely exactly when its records say so.
  lemma CountedExactly(w: Window, clientFile: Option<Bytes>, authorityFile: Option<Bytes>)
    ensures Verified(w, clientFile, authorityFile).Counted? <==> Delivered(w, clientFile, authorityFile)
  {
    hide Traced, Journalled, DecidedApart, AllSettled, AllNew, CheckClient, CheckAuthority, Tallied, SplitLines,
      CheckSchedules, Reused, Duplicates;
    if clientFile.Some? && ReadClient(w.cf, clientFile.value).Some? {
      var client := ReadClient(w.cf, clientFile.value).value;
      TracedExactly(w, client);
      ClientNeverCounts(w, client);
      if Traced(w, client) && authorityFile.Some? && ReadTraffic(w.tf, authorityFile.value).Some? {
        var links := ReadTraffic(w.tf, authorityFile.value).value;
        FirstLineReads(w, authorityFile.value);
        JournalledExactly(w, links);
        AuthorityNeverCounts(w, links);
        DecidedExactly(w, links);
        ScheduledGivesSole(w, client);
        SettledExactly(w, client, links);
        TallyNeverCounts(w, client, links, w.spec.count);
      }
    }
  }

  lemma ClientNeverCounts(w: Window, client: ClientLinks)
    ensures CheckClient(w, client).Some? ==> !CheckClient(w, client).value.Counted?
  {
    if client != [] && client[0].payload.detail.ClientStart? {
      SchedulesNeverCount(w, client, client[0].payload.detail.anchor, w.spec.count);
    }
    hide CheckSchedules, SendNames, FinishNames, Expected, Marks;
  }

  lemma AuthorityNeverCounts(w: Window, links: Links)
    requires links != [] && links[0].payload.detail.AuthorityStart?
    ensures CheckAuthority(w, links).Some? ==> !CheckAuthority(w, links).value.Counted?
  {
  }

  // The three numbers of a covered window: requests without a status 200 by
  // their deadline; served requests whose response id an earlier one carries;
  // decisions on the window's requests less the requests decided about.
  lemma CountsAreExact(w: Window, clientFile: Option<Bytes>, authorityFile: Option<Bytes>)
    requires Verified(w, clientFile, authorityFile).Counted?
    ensures Delivered(w, clientFile, authorityFile)
    ensures var client, links := ReadClient(w.cf, clientFile.value).value, ReadTraffic(w.tf, authorityFile.value).value;
      && Verified(w, clientFile, authorityFile).lost == |LostSet(w, client, w.spec.count)|
      && Verified(w, clientFile, authorityFile).reused == |RepeatSet(w, client, w.spec.count)|
      && Verified(w, clientFile, authorityFile).duplicates
         == |OwnSet(w, links)| - |DecidedSet(w, links, w.spec.count)|
  {
    CountedExactly(w, clientFile, authorityFile);
    var client, links := LostIsExact(w, clientFile, authorityFile);
    var same, read := CountedCovers(w, clientFile, authorityFile);
    CoversParts(w, clientFile, authorityFile, client, links);
    hide Verified, AllSettled, Traced, Journalled, DecidedApart, CheckClient, AllNew, Tallied, Duplicates, Reused;
    ScheduledGivesSole(w, client);
    TallyRepeats(w, client, links, w.spec.count);
    DuplicatesCount(w, links, w.spec.count);
    OwnIsDecision(w, links);
  }
}
