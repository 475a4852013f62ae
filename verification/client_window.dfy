/**
 The delivery-window verifier: the client's trace against the authority's
 journal, one attempt per logical request.
 */
module ClientWindow {
  import opened Wrappers
  import opened JournalBytes
  import opened HashChain
  import opened LoopbackAuthority
  import opened LoopbackJournal
  import opened RecoveryChain
  import opened ClientTrace
  import opened RequestNames

  // What the frozen functional oracle says of a response body.
  datatype Verdict = Unreadable | Wrong | Served(responseId: string)

  datatype WindowSpec = WindowSpec(
    startId: string, count: nat, offset: nat -> int, slack: int, timeout: int,
    payload: Bytes, specSha: Digest, registration: Option<Scalar>, authority: Option<Process>,
    backends: Option<map<int, Registered>>, backendsSha: Digest, model: string,
    judge: Bytes -> Verdict, sha: Bytes -> Digest)

  // Not covered, rejected with an error, or covered completely.
  datatype Outcome = Unknown | Refused | Counted(lost: nat, reused: nat, duplicates: nat)

  datatype Window = Window(
    spec: WindowSpec, cf: Format<ClientRecord>, tf: Format<Record>, expected: Process, fault: int, recovery: int)

  function Name(w: Window, i: nat): string {
    RequestName(w.spec.startId, i)
  }

  function Expected(w: Window): set<string> {
    set i | 0 <= i < w.spec.count :: Name(w, i)
  }

  // ---------------------------------------------------------------------
  // The client's side

  // The request ids of the first n events' sends and finishes, in order.
  function SendNames(client: ClientLinks, n: nat): seq<string>
    requires n <= |client|
  {
    if n == 0 then []
    else if client[n - 1].payload.detail.RequestStart?
    then SendNames(client, n - 1) + [client[n - 1].payload.detail.requestId]
    else SendNames(client, n - 1)
  }

  function FinishNames(client: ClientLinks, n: nat): seq<string>
    requires n <= |client|
  {
    if n == 0 then []
    else if client[n - 1].payload.detail.RequestFinish?
    then FinishNames(client, n - 1) + [client[n - 1].payload.detail.requestId]
    else FinishNames(client, n - 1)
  }

  predicate IsSend(client: ClientLinks, k: nat, rid: string) {
    k < |client| && client[k].payload.detail.RequestStart? && client[k].payload.detail.requestId == rid
  }

  predicate IsFinish(client: ClientLinks, k: nat, rid: string) {
    k < |client| && client[k].payload.detail.RequestFinish? && client[k].payload.detail.requestId == rid
  }

  // Where the table of sends (of finishes) points for an id: the last one.
  function SendOf(client: ClientLinks, n: nat, rid: string): (k: Option<nat>)
    requires n <= |client|
    ensures k.Some? ==> k.value < n && IsSend(client, k.value, rid)
  {
    if n == 0 then None
    else if IsSend(client, n - 1, rid) then Some(n - 1)
    else SendOf(client, n - 1, rid)
  }

  function FinishOf(client: ClientLinks, n: nat, rid: string): (k: Option<nat>)
    requires n <= |client|
    ensures k.Some? ==> k.value < n && IsFinish(client, k.value, rid)
  {
    if n == 0 then None
    else if IsFinish(client, n - 1, rid) then Some(n - 1)
    else FinishOf(client, n - 1, rid)
  }

  function Marks(client: ClientLinks, n: nat): (nat, nat)
    requires n <= |client|
  {
    if n == 0 then (0, 0) else
    var (starts, stops) := Marks(client, n - 1);
    (starts + (if client[n - 1].payload.detail.ClientStart? then 1 else 0),
     stops + (if client[n - 1].payload.detail.ClientStop? then 1 else 0))
  }

  predicate Straddles(w: Window, client: ClientLinks) {
    && (exists k :: 0 <= k < |client| && client[k].payload.detail.RequestStart?
                    && client[k].payload.detail.sent < w.fault)
    && w.fault < w.recovery
    && (exists k :: 0 <= k < |client| && client[k].payload.detail.RequestStart?
                    && w.recovery < client[k].payload.detail.sent)
    && (exists k :: 0 <= k < |client| && client[k].payload.detail.RequestStart?
                    && w.fault <= client[k].payload.detail.sent <= w.recovery)
  }

  function Elements(s: seq<string>): set<string> {
    set x | x in s
  }

  // What is asked of one request's dispatch record.
  function CheckSchedule(w: Window, client: ClientLinks, anchor: int, i: nat): Option<Outcome> {
    var k := SendOf(client, |client|, Name(w, i));
    if k.None? then Some(Unknown) else
    var d, scheduled := client[k.value].payload.detail, anchor + w.spec.offset(i);
    if d.scheduled != scheduled || !(scheduled <= d.sent <= scheduled + w.spec.slack) then Some(Unknown)
    else if d.deadline != d.sent + w.spec.timeout then Some(Refused)
    else if d.body != w.spec.payload || d.bodySha != w.spec.sha(d.body) then Some(Refused)
    else None
  }

  function CheckSchedules(w: Window, client: ClientLinks, anchor: int, n: nat): Option<Outcome> {
    if n == 0 then None else
    var before := CheckSchedules(w, client, anchor, n - 1);
    if before.Some? then before else CheckSchedule(w, client, anchor, n - 1)
  }

  // None means the client trace is complete, bound and straddles the fault.
  function CheckClient(w: Window, client: ClientLinks): Option<Outcome> {
    if client == [] || !client[0].payload.detail.ClientStart? then Some(Unknown) else
    var n, begin, end := |client|, client[0].payload, client[|client| - 1].payload.detail;
    if begin.client != w.expected || begin.detail.startId != w.spec.startId || begin.detail.specSha != w.spec.specSha
    then Some(Refused)
    else if Marks(client, n).0 != 1 || Marks(client, n).1 > 1 then Some(Refused)
    else if !end.ClientStop? || end.count != w.spec.count then Some(Unknown)
    else if |SendNames(client, n)| != |Expected(w)| || |FinishNames(client, n)| != |Expected(w)|
            || Elements(SendNames(client, n)) != Expected(w) || Elements(FinishNames(client, n)) != Expected(w)
    then Some(Unknown)
    else if CheckSchedules(w, client, begin.detail.anchor, w.spec.count).Some?
    then CheckSchedules(w, client, begin.detail.anchor, w.spec.count)
    else if !Straddles(w, client) then Some(Unknown)
    else None
  }

  // ---------------------------------------------------------------------
  // The authority's side

  function Get(m: Snapshot, k: Field): Option<Scalar> {
    if k in m then Some(m[k]) else None
  }

  predicate SameOwner(p: Process, links: Links) {
    forall i :: 0 <= i < |links| ==> links[i].payload.process == p
  }

  function CheckAuthority(w: Window, links: Links): Option<Outcome>
    requires links != [] && links[0].payload.detail.AuthorityStart?
  {
    var start := links[0].payload.detail;
    if Starts(links, |links|) != 1 then Some(Refused)
    else if w.spec.authority.None? then Some(Unknown)
    else if w.spec.authority.value.bootId != w.expected.bootId || !SameOwner(w.spec.authority.value, links)
    then Some(Refused)
    else if Get(start.authorization, LaunchId) != Some(Text(w.spec.startId))
            || Get(start.authorization, RegistrationDigest) != w.spec.registration then Some(Refused)
    else if w.spec.backends.Some? && start.backends != w.spec.backendsSha then Some(Refused)
    else None
  }

  predicate Mine(w: Window, p: Record) {
    p.detail.Admission? && p.detail.requestId in Expected(w)
  }

  function AdmissionIds(w: Window, links: Links, n: nat): set<string>
    requires n <= |links|
  {
    if n == 0 then {}
    else if Mine(w, links[n - 1].payload) then AdmissionIds(w, links, n - 1) + {links[n - 1].payload.detail.admissionId}
    else AdmissionIds(w, links, n - 1)
  }

  // A decision about one of this window's requests: its own identity, the
  // frozen body, a POST.
  predicate NewDecision(w: Window, links: Links, i: nat)
    requires i < |links|
  {
    Mine(w, links[i].payload) ==>
      && links[i].payload.detail.admissionId != "" && links[i].payload.detail.admissionId !in AdmissionIds(w, links, i)
      && links[i].payload.detail.body == w.spec.sha(w.spec.payload) && links[i].payload.detail.verb == "POST"
  }

  predicate AllNew(w: Window, links: Links, n: nat)
    requires n <= |links|
  {
    forall i :: 0 <= i < n ==> NewDecision(w, links, i)
  }

  function DecisionsOf(links: Links, n: nat, rid: string): seq<nat>
    requires n <= |links|
  {
    if n == 0 then []
    else if links[n - 1].payload.detail.Admission? && links[n - 1].payload.detail.requestId == rid
    then DecisionsOf(links, n - 1, rid) + [n - 1]
    else DecisionsOf(links, n - 1, rid)
  }

  function CompletionsOf(links: Links, n: nat, rid: string): seq<nat>
    requires n <= |links|
  {
    if n == 0 then []
    else if links[n - 1].payload.detail.Complete? && links[n - 1].payload.detail.requestId == rid
    then CompletionsOf(links, n - 1, rid) + [n - 1]
    else CompletionsOf(links, n - 1, rid)
  }

  predicate Carries(links: Links, k: nat, admissionId: Option<string>) {
    && k < |links|
    && ((links[k].payload.detail.Complete? && Some(links[k].payload.detail.admissionId) == admissionId)
        || (links[k].payload.detail.Admission? && links[k].payload.detail.admitted
            && Some(links[k].payload.detail.admissionId) == admissionId))
  }

  // The rows of one request that carry the admission the client reports.
  function Matching(links: Links, rows: seq<nat>, admissionId: Option<string>): seq<nat> {
    if rows == [] then [] else
    var front, last := Matching(links, rows[..|rows| - 1], admissionId), rows[|rows| - 1];
    if Carries(links, last, admissionId) then front + [last] else front
  }

  // ---------------------------------------------------------------------
  // Request by request

  datatype Step = Lose | Serve(responseId: string) | Halt(outcome: Outcome)

  predicate AllDigits(s: string) {
    s != "" && forall i :: 0 <= i < |s| ==> '0' <= s[i] <= '9'
  }

  // With a frozen backend registration, the answer came from the registered
  // process of the generation the request was routed to.
  predicate BackendBound(w: Window, p: Record)
    requires p.detail.Complete?
  {
    w.spec.backends.Some? && |w.spec.backends.value| > 0 ==>
      && var upstream := p.detail.upstream;
      && upstream.port in w.spec.backends.value
      && var binding := w.spec.backends.value[upstream.port];
      && upstream.host == "127.0.0.1" && upstream.identity == Some(binding) && AllDigits(upstream.listener)
      && p.route.generation.Some? && Same(binding.generation, p.route.generation.value)
      && binding.model == w.spec.model && binding.launch != ""
  }

  // The authority's rows a and c bear the delivered response out: order,
  // status, bytes, backend.
  predicate BorneOut(w: Window, sent: int, finish: ClientDetail, links: Links, a: nat, c: nat)
    requires finish.RequestFinish?
  {
    && a < |links| && c < |links| && links[c].payload.detail.Complete?
    && var complete := links[c].payload;
    && sent <= links[a].payload.ns < complete.ns <= finish.finished
    && complete.detail.status == finish.status
    && complete.detail.payloadSha == w.spec.sha(finish.body) && complete.detail.payload == finish.body
    && BackendBound(w, complete)
  }

  function Judged(w: Window, client: ClientLinks, links: Links, i: nat): Step {
    var s, f := SendOf(client, |client|, Name(w, i)), FinishOf(client, |client|, Name(w, i));
    if s.None? || f.None? then Halt(Unknown) else
    Decided(w, client[s.value].payload.detail, client[f.value].payload, links,
            DecisionsOf(links, |links|, Name(w, i)), CompletionsOf(links, |links|, Name(w, i)))
  }

  function Decided(
      w: Window, start: ClientDetail, finish: ClientRecord, links: Links, decisions: seq<nat>,
      completions: seq<nat>): Step
    requires start.RequestStart? && finish.detail.RequestFinish?
  {
    var end := finish.detail;
    if !(start.sent <= end.finished <= finish.ns) || w.spec.sha(end.body) != end.bodySha then Halt(Refused)
    else if end.status != 200 || end.finished > start.deadline then Lose
    else
      var completes := Matching(links, completions, end.admissionId);
      var admits := Matching(links, decisions, end.admissionId);
      if |completes| != 1 || |admits| != 1 || !BorneOut(w, start.sent, end, links, admits[0], completes[0])
      then Halt(Refused)
      else match w.spec.judge(end.body)
        case Unreadable => Halt(Unknown)
        case Wrong => Halt(Refused)
        case Served(id) => Serve(id)
  }

  datatype Tally = Tally(lost: nat, served: seq<string>)

  function Tallied(w: Window, client: ClientLinks, links: Links, n: nat): Result<Tally, Outcome> {
    if n == 0 then Ok(Tally(0, [])) else
    var before := Tallied(w, client, links, n - 1);
    if before.Err? then before else
    match Judged(w, client, links, n - 1)
    case Lose => Ok(before.value.(lost := before.value.lost + 1))
    case Serve(id) => Ok(before.value.(served := before.value.served + [id]))
    case Halt(outcome) => Err(outcome)
  }

  // sum(max(0, len(rows) - 1))
  function Duplicates(w: Window, links: Links, n: nat): nat {
    if n == 0 then 0 else
    var rows := |DecisionsOf(links, |links|, Name(w, n - 1))|;
    Duplicates(w, links, n - 1) + if rows > 0 then rows - 1 else 0
  }

  function SetSize(s: seq<string>): nat {
    |Elements(s)|
  }

  lemma {:induction false} SetSizeBound(s: seq<string>)
    ensures SetSize(s) <= |s|
  {
    if s == [] {
    } else {
      var front, last := s[..|s| - 1], s[|s| - 1];
      SetSizeBound(front);
      assert Elements(s) == Elements(front) + {last};
    }
  }

  function Reused(s: seq<string>): nat {
    SetSizeBound(s);
    |s| - SetSize(s)
  }

  function Counting(w: Window, client: ClientLinks, links: Links): Outcome {
    var tally := Tallied(w, client, links, w.spec.count);
    if tally.Err? then tally.error
    else Counted(tally.value.lost, Reused(tally.value.served), Duplicates(w, links, w.spec.count))
  }

  // The whole verification; a missing file is None.
  function Verified(w: Window, clientFile: Option<Bytes>, authorityFile: Option<Bytes>): Outcome {
    if clientFile.None? || !EndsLine(clientFile.value) || authorityFile.None? || !EndsLine(authorityFile.value)
    then Unknown else
    var client := ReadClient(w.cf, clientFile.value);
    if client.None? then Refused else
    var bad := CheckClient(w, client.value);
    if bad.Some? then bad.value else
    var lines := SplitLines(authorityFile.value);
    var first := if lines == [] then None else w.tf.parse(lines[0]);
    if first.None? then Refused
    else if !first.value.payload.detail.AuthorityStart? then Unknown
    else
      var authority := ReadTraffic(w.tf, authorityFile.value);
      if authority.None? then Refused
      else if CheckAuthority(w, authority.value).Some? then CheckAuthority(w, authority.value).value
      else if !AllNew(w, authority.value, |authority.value|) then Refused
      else Counting(w, client.value, authority.value)
  }

  // ---------------------------------------------------------------------
  // The verifier

  function Rows(table: map<string, seq<nat>>, rid: string): seq<nat> {
    if rid in table then table[rid] else []
  }

  function At(table: map<string, nat>, rid: string): Option<nat> {
    if rid in table then Some(table[rid]) else None
  }

  method ExpectedNames(w: Window) returns (names: set<string>)
    ensures names == Expected(w)
  {
    names := {};
    for i := 0 to w.spec.count
      invariant names == set k | 0 <= k < i :: Name(w, k)
    {
      hide RequestName;
      names := names + {Name(w, i)};
      assert names == set k | 0 <= k < i + 1 :: Name(w, k);
    }
  }

  method CollectClient(client: ClientLinks)
      returns (sent: map<string, nat>, sends: nat, finished: map<string, nat>, finishes: nat)
    ensures sends == |SendNames(client, |client|)| && finishes == |FinishNames(client, |client|)|
    ensures sent.Keys == Elements(SendNames(client, |client|))
    ensures finished.Keys == Elements(FinishNames(client, |client|))
    ensures forall rid :: SendOf(client, |client|, rid) == At(sent, rid)
    ensures forall rid :: FinishOf(client, |client|, rid) == At(finished, rid)
  {
    sent, sends, finished, finishes := map[], 0, map[], 0;
    for i := 0 to |client|
      invariant sends == |SendNames(client, i)| && finishes == |FinishNames(client, i)|
      invariant sent.Keys == Elements(SendNames(client, i))
      invariant finished.Keys == Elements(FinishNames(client, i))
      invariant forall rid :: SendOf(client, i, rid) == At(sent, rid)
      invariant forall rid :: FinishOf(client, i, rid) == At(finished, rid)
    {
      var d := client[i].payload.detail;
      if d.RequestStart? {
        sent, sends := sent[d.requestId := i], sends + 1;
      } else if d.RequestFinish? {
        finished, finishes := finished[d.requestId := i], finishes + 1;
      }
    }
  }

  method CheckSchedulesInOrder(w: Window, client: ClientLinks, sent: map<string, nat>, anchor: int)
      returns (bad: Option<Outcome>)
    requires forall rid :: SendOf(client, |client|, rid) == At(sent, rid)
    ensures bad == CheckSchedules(w, client, anchor, w.spec.count)
  {
    for i := 0 to w.spec.count
      invariant CheckSchedules(w, client, anchor, i).None?
    {
      var k := At(sent, Name(w, i));
      var scheduled := anchor + w.spec.offset(i);
      bad := None;
      if k.None? {
        bad := Some(Unknown);
      } else {
        var d := client[k.value].payload.detail;
        if d.scheduled != scheduled || d.sent < scheduled || scheduled + w.spec.slack < d.sent {
          bad := Some(Unknown);
        } else if d.deadline != d.sent + w.spec.timeout || d.body != w.spec.payload || d.bodySha != w.spec.sha(d.body) {
          bad := Some(Refused);
        }
      }
      assert bad == CheckSchedule(w, client, anchor, i);
      if bad.Some? {
        FirstBadSchedule(w, client, anchor, i, w.spec.count);
        return;
      }
    }
    bad := None;
  }

  lemma {:induction false} FirstBadSchedule(w: Window, client: ClientLinks, anchor: int, i: nat, n: nat)
    requires i < n && CheckSchedules(w, client, anchor, i).None? && CheckSchedule(w, client, anchor, i).Some?
    ensures CheckSchedules(w, client, anchor, n) == CheckSchedule(w, client, anchor, i)
  {
    hide CheckSchedule;
    if i == n - 1 {
    } else {
      FirstBadSchedule(w, client, anchor, i, n - 1);
    }
  }

  // One pass over the authority's events: the rows of each request, and the
  // freshness of each decision. None is a rejection.
  method CollectAuthority(w: Window, links: Links, names: set<string>)
      returns (tables: Option<(map<string, seq<nat>>, map<string, seq<nat>>)>)
    requires names == Expected(w)
    ensures tables.Some? <==> AllNew(w, links, |links|)
    ensures tables.Some? ==> forall rid :: rid in names ==>
      && Rows(tables.value.0, rid) == DecisionsOf(links, |links|, rid)
      && Rows(tables.value.1, rid) == CompletionsOf(links, |links|, rid)
  {
    var admitted: map<string, seq<nat>>, completed: map<string, seq<nat>>, ids := map[], map[], {};
    for i := 0 to |links|
      invariant AllNew(w, links, i) && ids == AdmissionIds(w, links, i)
      invariant forall rid :: rid in names ==> Rows(admitted, rid) == DecisionsOf(links, i, rid)
      invariant forall rid :: rid in names ==> Rows(completed, rid) == CompletionsOf(links, i, rid)
    {
      var d := links[i].payload.detail;
      if d.Admission? && d.requestId in names {
        if d.admissionId == "" || d.admissionId in ids
           || d.body != w.spec.sha(w.spec.payload) || d.verb != "POST" {
          assert !NewDecision(w, links, i);
          return None;
        }
        ids := ids + {d.admissionId};
        admitted := admitted[d.requestId := Rows(admitted, d.requestId) + [i]];
      } else if d.Complete? && d.requestId in names {
        completed := completed[d.requestId := Rows(completed, d.requestId) + [i]];
      }
    }
    return Some((admitted, completed));
  }

  method VerifyWindow(w: Window, clientFile: Option<Bytes>, authorityFile: Option<Bytes>) returns (outcome: Outcome)
    ensures outcome == Verified(w, clientFile, authorityFile)
  {
    if clientFile.None? || !EndsLine(clientFile.value) || authorityFile.None? || !EndsLine(authorityFile.value) {
      return Unknown;
    }
    var client := ReadClientTrace(w.cf, clientFile.value);
    if client.None? {
      return Refused;
    }
    var bad, finished, sent := ExamineClient(w, client.value);
    if bad.Some? {
      return bad.value;
    }
    var lines := SplitLines(authorityFile.value);
    var first := if lines == [] then None else w.tf.parse(lines[0]);
    if first.None? {
      return Refused;
    }
    if !first.value.payload.detail.AuthorityStart? {
      return Unknown;
    }
    var authority := ReadTrafficJournal(w.tf, authorityFile.value);
    if authority.None? {
      return Refused;
    }
    bad := CheckAuthority(w, authority.value);
    if bad.Some? {
      return bad.value;
    }
    var names := ExpectedNames(w);
    var tables := CollectAuthority(w, authority.value, names);
    if tables.None? {
      return Refused;
    }
    outcome := CountRequests(w, client.value, authority.value, sent, finished, tables.value.0, tables.value.1);
  }

  method ExamineClient(w: Window, client: ClientLinks)
      returns (bad: Option<Outcome>, finished: map<string, nat>, sent: map<string, nat>)
    ensures bad == CheckClient(w, client)
    ensures forall rid :: SendOf(client, |client|, rid) == At(sent, rid)
    ensures forall rid :: FinishOf(client, |client|, rid) == At(finished, rid)
  {
    hide SendOf, FinishOf, SendNames, FinishNames, Expected, CheckSchedules;
    var sends, finishes;
    sent, sends, finished, finishes := CollectClient(client);
    if client == [] || !client[0].payload.detail.ClientStart? {
      bad := Some(Unknown);
      return;
    }
    var begin, end := client[0].payload, client[|client| - 1].payload.detail;
    if begin.client != w.expected || begin.detail.startId != w.spec.startId || begin.detail.specSha != w.spec.specSha
       || Marks(client, |client|).0 != 1 || Marks(client, |client|).1 > 1 {
      bad := Some(Refused);
      return;
    }
    if !end.ClientStop? || end.count != w.spec.count {
      bad := Some(Unknown);
      return;
    }
    var names := ExpectedNames(w);
    if sends != |names| || finishes != |names| || sent.Keys != names || finished.Keys != names {
      bad := Some(Unknown);
      return;
    }
    bad := CheckSchedulesInOrder(w, client, sent, begin.detail.anchor);
    if bad.None? && !Straddles(w, client) {
      bad := Some(Unknown);
    }
  }

  method CountRequests(
      w: Window, client: ClientLinks, links: Links, sent: map<string, nat>, finished: map<string, nat>,
      admitted: map<string, seq<nat>>, completed: map<string, seq<nat>>) returns (outcome: Outcome)
    requires forall rid :: SendOf(client, |client|, rid) == At(sent, rid)
    requires forall rid :: FinishOf(client, |client|, rid) == At(finished, rid)
    requires forall rid :: rid in Expected(w) ==> Rows(admitted, rid) == DecisionsOf(links, |links|, rid)
    requires forall rid :: rid in Expected(w) ==> Rows(completed, rid) == CompletionsOf(links, |links|, rid)
    ensures outcome == Counting(w, client, links)
  {
    var lost, served, duplicates := 0, [], 0;
    for i := 0 to w.spec.count
      invariant Tallied(w, client, links, i) == Ok(Tally(lost, served))
      invariant duplicates == Duplicates(w, links, i)
    {
      hide Decided, DecisionsOf, CompletionsOf, RequestName;
      var rid := Name(w, i);
      assert rid in Expected(w);
      var s, f := At(sent, rid), At(finished, rid);
      var step := Halt(Unknown);
      if s.Some? && f.Some? {
        step := Decided(w, client[s.value].payload.detail, client[f.value].payload, links,
                        Rows(admitted, rid), Rows(completed, rid));
      }
      assert step == Judged(w, client, links, i);
      match step {
        case Lose => lost := lost + 1;
        case Serve(id) => served := served + [id];
        case Halt(stop) =>
          HaltStays(w, client, links, i, w.spec.count);
          return stop;
      }
      var rows := |Rows(admitted, rid)|;
      duplicates := duplicates + if rows > 0 then rows - 1 else 0;
    }
    return Counted(lost, Reused(served), duplicates);
  }

  lemma {:induction false} HaltStays(w: Window, client: ClientLinks, links: Links, i: nat, n: nat)
    requires i < n && Tallied(w, client, links, i).Ok? && Judged(w, client, links, i).Halt?
    ensures Tallied(w, client, links, n) == Err(Judged(w, client, links, i).outcome)
  {
    hide Judged;
    if i == n - 1 {
    } else {
      HaltStays(w, client, links, i, n - 1);
    }
  }
}
