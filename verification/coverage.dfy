/**
 Process coverage of a formal start: the frozen target snapshot against the
 processes observed at the hook boundary, and what the oracle concludes.
 */
module Coverage {
  import opened Wrappers
  import opened RealOrder

  datatype Slot = Slot(host: string, role: string, ordinal: int)
  datatype Key = Key(slot: Slot, epoch: int)

  // An observed process; `shaped` says that its fields and their types are
  // right, `named` that its start identity spells out pid and start ticks.
  datatype Seen = Seen(key: Key, pid: int, startTicks: int, shaped: bool, named: bool, byHost: bool, argv: seq<string>)

  datatype Linux = Linux(host: string, pid: int, startTicks: int)

  datatype Reason =
    | SnapshotMissing | SnapshotMalformed | SnapshotRepeats | SnapshotUnordered
    | NoIdentities | IdentityMalformed | IdentityRepeats | OutsideSnapshot | ReplacedIdentity | TransitionInvalid
    | ClaimDisagrees | CoverageDisagrees | Other(text: string)

  // ---------------------------------------------------------------------
  // The snapshot

  predicate Blank(c: char) {
    c == ' ' || '\t' <= c <= '\r' || '\U{1c}' <= c <= '\U{1f}'
  }

  predicate Trimmed(s: string) {
    s != "" && !Blank(s[0]) && !Blank(s[|s| - 1])
  }

  predicate KeyShaped(k: Key) {
    Trimmed(k.slot.host) && Trimmed(k.slot.role) && k.slot.ordinal >= 0 && k.epoch >= 0
  }

  predicate TextUpTo(a: string, b: string) {
    a == "" || (b != "" && (a[0] < b[0] || (a[0] == b[0] && TextUpTo(a[1..], b[1..]))))
  }

  predicate KeyUpTo(a: Key, b: Key) {
    if a.slot.host != b.slot.host then TextUpTo(a.slot.host, b.slot.host)
    else if a.slot.role != b.slot.role then TextUpTo(a.slot.role, b.slot.role)
    else if a.slot.ordinal != b.slot.ordinal then a.slot.ordinal < b.slot.ordinal
    else a.epoch <= b.epoch
  }

  predicate AllShaped(keys: seq<Key>) {
    forall i :: 0 <= i < |keys| ==> KeyShaped(keys[i])
  }

  predicate SlotsDiffer(keys: seq<Key>) {
    forall i, k :: 0 <= i < k < |keys| ==> keys[i].slot != keys[k].slot
  }

  predicate InOrder(keys: seq<Key>) {
    forall i :: 1 <= i < |keys| ==> KeyUpTo(keys[i - 1], keys[i])
  }

  // None means the snapshot may be used.
  function SnapshotFault(required: Option<seq<Key>>): Option<Reason> {
    if required.None? || required.value == [] then Some(SnapshotMissing)
    else if !AllShaped(required.value) then Some(SnapshotMalformed)
    else if !SlotsDiffer(required.value) then Some(SnapshotRepeats)
    else if !InOrder(required.value) then Some(SnapshotUnordered)
    else None
  }

  method ValidateSnapshot(required: Option<seq<Key>>) returns (fault: Option<Reason>)
    ensures fault == SnapshotFault(required)
  {
    if required.None? || required.value == [] {
      return Some(SnapshotMissing);
    }
    var keys, slots := required.value, {};
    var repeats := false;
    for i := 0 to |keys|
      invariant AllShaped(keys[..i])
      invariant slots == set k | 0 <= k < i :: keys[k].slot
      invariant repeats == !SlotsDiffer(keys[..i])
    {
      assert forall k :: 0 <= k < i ==> keys[..i + 1][k] == keys[..i][k];
      assert keys[..i + 1][i] == keys[i];
      if !KeyShaped(keys[i]) {
        return Some(SnapshotMalformed);
      }
      repeats := repeats || keys[i].slot in slots;
      slots := slots + {keys[i].slot};
    }
    assert keys[..|keys|] == keys;
    if repeats {
      return Some(SnapshotRepeats);
    }
    return if InOrder(keys) then None else Some(SnapshotUnordered);
  }

  // ---------------------------------------------------------------------
  // The observation

  predicate SeenShaped(s: Seen) {
    && s.shaped && KeyShaped(s.key) && s.pid > 0 && s.startTicks > 0 && s.named && s.byHost
    && s.argv != [] && forall i :: 0 <= i < |s.argv| ==> s.argv[i] != ""
  }

  function LinuxOf(s: Seen): Linux {
    Linux(s.key.slot.host, s.pid, s.startTicks)
  }

  function Keys(observed: seq<Seen>): set<Key> {
    set i | 0 <= i < |observed| :: observed[i].key
  }

  function KeySet(required: seq<Key>): set<Key> {
    set i | 0 <= i < |required| :: required[i]
  }

  function Linuxes(observed: seq<Seen>): set<Linux> {
    set i | 0 <= i < |observed| :: LinuxOf(observed[i])
  }

  // A frozen process of the launch transition, per slot.
  datatype Frozen = Frozen(epoch: int, pid: int, startTicks: int)
  datatype Transition = NotRecorded | Broken | Fixed(slots: map<Slot, Frozen>)

  function TransitionFault(t: Transition, observed: seq<Seen>): Option<Reason> {
    match t
    case NotRecorded => None
    case Broken => Some(TransitionInvalid)
    case Fixed(slots) =>
      if exists i :: 0 <= i < |observed| && observed[i].key.slot !in slots then Some(TransitionInvalid)
      else if exists i :: 0 <= i < |observed| && !SameAs(observed[i], slots) then Some(ReplacedIdentity)
      else None
  }

  predicate SameAs(s: Seen, slots: map<Slot, Frozen>) {
    s.key.slot in slots && slots[s.key.slot] == Frozen(s.key.epoch, s.pid, s.startTicks)
  }

  // None means the observed identities may be counted.
  function ObservationFault(required: seq<Key>, observed: Option<seq<Seen>>, t: Transition): Option<Reason> {
    if observed.None? then Some(NoIdentities) else
    var seen := observed.value;
    if exists i :: 0 <= i < |seen| && !SeenShaped(seen[i]) then Some(IdentityMalformed)
    else if |Keys(seen)| != |seen| || |Linuxes(seen)| != |seen| then Some(IdentityRepeats)
    else if !(Keys(seen) <= KeySet(required)) then Some(OutsideSnapshot)
    else TransitionFault(t, seen)
  }

  function Share(part: nat, whole: nat): real
    requires whole > 0
  {
    part as real / whole as real
  }

  predicate Close(a: real, b: real) {
    -0.000000000001 <= a - b <= 0.000000000001
  }

  // The coverage, if it can be computed, and the reasons added on the way.
  function CoverageOf(required: Option<seq<Key>>, observed: Option<seq<Seen>>, t: Transition,
                      invoked: Option<bool>, reported: Option<real>): (Option<real>, seq<Reason>) {
    if SnapshotFault(required).Some? then (None, [SnapshotFault(required).value])
    else if ObservationFault(required.value, observed, t).Some?
    then (None, [ObservationFault(required.value, observed, t).value])
    else
      var computed := Share(|observed.value|, |required.value|);
      var claim := if invoked == Some(observed.value != []) then [] else [ClaimDisagrees];
      var report := if reported.Some? && Close(reported.value, computed) then [] else [CoverageDisagrees];
      (Some(computed), claim + report)
  }

  // The list of reasons is shared with everything else the oracle checks.
  method FormalProcessCoverage(required: Option<seq<Key>>, observed: Option<seq<Seen>>, t: Transition,
                               invoked: Option<bool>, reported: Option<real>, reasons: seq<Reason>)
      returns (coverage: Option<real>, after: seq<Reason>)
    ensures coverage == CoverageOf(required, observed, t, invoked, reported).0
    ensures after == reasons + CoverageOf(required, observed, t, invoked, reported).1
  {
    hide SeenShaped, TransitionFault, SnapshotFault, Share, Close;
    var fault := ValidateSnapshot(required);
    if fault.Some? {
      return None, reasons + [fault.value];
    }
    if observed.None? {
      return None, reasons + [NoIdentities];
    }
    UsableSnapshot(required);
    var seen := observed.value;
    var malformed, keys, identities := CollectSeen(seen);
    if malformed {
      return None, reasons + [IdentityMalformed];
    }
    hide Keys, Linuxes, KeySet;
    if |keys| != |seen| || |identities| != |seen| {
      return None, reasons + [IdentityRepeats];
    }
    if !(keys <= KeySet(required.value)) {
      return None, reasons + [OutsideSnapshot];
    }
    var moved := TransitionFault(t, seen);
    if moved.Some? {
      return None, reasons + [moved.value];
    }
    after := reasons;
    if invoked != Some(seen != []) {
      after := after + [ClaimDisagrees];
    }
    coverage := Some(Share(|seen|, |required.value|));
    if reported.None? || !Close(reported.value, coverage.value) {
      after := after + [CoverageDisagrees];
    }
  }

  lemma UsableSnapshot(required: Option<seq<Key>>)
    requires SnapshotFault(required).None?
    ensures required.Some? && |required.value| > 0
  {
  }

  method CollectSeen(seen: seq<Seen>) returns (malformed: bool, keys: set<Key>, identities: set<Linux>)
    ensures malformed <==> exists i :: 0 <= i < |seen| && !SeenShaped(seen[i])
    ensures !malformed ==> keys == Keys(seen) && identities == Linuxes(seen)
  {
    hide SeenShaped;
    malformed, keys, identities := false, {}, {};
    for i := 0 to |seen|
      invariant forall k :: 0 <= k < i ==> SeenShaped(seen[k])
      invariant keys == set k | 0 <= k < i :: seen[k].key
      invariant identities == set k | 0 <= k < i :: LinuxOf(seen[k])
    {
      if !SeenShaped(seen[i]) {
        malformed := true;
        return;
      }
      keys, identities := keys + {seen[i].key}, identities + {LinuxOf(seen[i])};
    }
  }

  // ---------------------------------------------------------------------
  // What a coverage value means

  lemma {:induction false} KeySetSize(required: seq<Key>)
    requires SlotsDiffer(required)
    ensures |KeySet(required)| == |required|
  {
    if required == [] {
    } else {
      var front, last := required[..|required| - 1], required[|required| - 1];
      KeySetSize(front);
      assert KeySet(required) == KeySet(front) + {last};
      assert last !in KeySet(front);
    }
  }

  lemma SubsetSize<T>(a: set<T>, b: set<T>)
    requires a <= b
    ensures |a| <= |b| && (|a| == |b| <==> a == b)
  {
    assert |b| == |a| + |b - a| by {
      assert b == a + (b - a);
    }
    if |a| == |b| {
      assert b - a == {};
    }
  }

  lemma ShareIsOne(part: nat, whole: nat)
    requires 0 < whole && part <= whole
    ensures 0.0 <= Share(part, whole) <= 1.0 && (Share(part, whole) == 1.0 <==> part == whole)
  {
    var p, w := part as real, whole as real;
    QuotientUp(0.0, p, w);
    QuotientUp(p, w, w);
    QuotientIs(1.0, w, w);
    QuotientIs(0.0, w, 0.0);
    assert (p / w) * w == p;
  }

  // A coverage value is full exactly when the observed processes are the
  // required ones.
  lemma CoverageMeans(required: Option<seq<Key>>, observed: Option<seq<Seen>>, t: Transition,
                      invoked: Option<bool>, reported: Option<real>)
    requires CoverageOf(required, observed, t, invoked, reported).0.Some?
    ensures var value := CoverageOf(required, observed, t, invoked, reported).0.value;
      && required.Some? && observed.Some?
      && 0.0 <= value <= 1.0
      && (value == 1.0 <==> Keys(observed.value) == KeySet(required.value))
  {
    hide AllShaped, InOrder, TransitionFault, SeenShaped, Linuxes, Share;
    KeySetSize(required.value);
    hide SlotsDiffer;
    SubsetSize(Keys(observed.value), KeySet(required.value));
    ShareIsOne(|observed.value|, |required.value|);
  }

  lemma ShareOf(value: real, part: nat, whole: nat)
    requires 0 < whole && value == Share(part, whole)
    ensures value * whole as real == part as real
  {
  }

  // Otherwise it is the share of the required processes that was observed.
  lemma CoverageIsShare(required: Option<seq<Key>>, observed: Option<seq<Seen>>, t: Transition,
                        invoked: Option<bool>, reported: Option<real>) returns (value: real, part: nat, whole: nat)
    requires CoverageOf(required, observed, t, invoked, reported).0.Some?
    ensures required.Some? && observed.Some?
    ensures CoverageOf(required, observed, t, invoked, reported).0 == Some(value)
    ensures value * whole as real == part as real
    ensures part == |Keys(observed.value) * KeySet(required.value)| && whole == |KeySet(required.value)|
  {
    hide AllShaped, InOrder, TransitionFault, SeenShaped, Linuxes, Share;
    KeySetSize(required.value);
    hide SlotsDiffer;
    assert Keys(observed.value) * KeySet(required.value) == Keys(observed.value);
    value, part, whole := Share(|observed.value|, |required.value|), |observed.value|, |required.value|;
    ShareOf(value, part, whole);
  }

  // Distinct entries: no Linux process stands for two observed processes.
  lemma {:induction false} LinuxesDiffer(observed: seq<Seen>, i: nat, k: nat)
    requires |Linuxes(observed)| == |observed| && i < k < |observed|
    ensures LinuxOf(observed[i]) != LinuxOf(observed[k])
  {
    var n := |observed| - 1;
    var front := observed[..n];
    LinuxesBound(front);
    assert Linuxes(observed) == Linuxes(front) + {LinuxOf(observed[n])};
    if k < n {
      LinuxesDiffer(front, i, k);
    } else {
      assert LinuxOf(front[i]) in Linuxes(front);
      var rest, last := Linuxes(front), LinuxOf(observed[n]);
      assert last in rest ==> rest + {last} == rest;
    }
  }

  lemma {:induction false} LinuxesBound(observed: seq<Seen>)
    ensures |Linuxes(observed)| <= |observed|
  {
    if observed == [] {
    } else {
      var n := |observed| - 1;
      LinuxesBound(observed[..n]);
      assert Linuxes(observed) == Linuxes(observed[..n]) + {LinuxOf(observed[n])};
    }
  }

  function Members<T>(s: seq<T>): set<T> {
    set x | x in s
  }

  lemma {:induction false} DistinctSize<T>(s: seq<T>)
    ensures |Members(s)| <= |s|
    ensures |Members(s)| == |s| <==> forall i, k :: 0 <= i < k < |s| ==> s[i] != s[k]
  {
    if s == [] {
    } else {
      var front, last := s[..|s| - 1], s[|s| - 1];
      DistinctSize(front);
      assert Members(s) == Members(front) + {last};
      assert last in front ==> Members(s) == Members(front);
      assert forall i :: 0 <= i < |front| ==> front[i] == s[i];
      if last in front {
        var i :| 0 <= i < |front| && front[i] == last;
        assert s[i] == s[|s| - 1];
      }
    }
  }

  predicate OneEach(seen: seq<Seen>) {
    && (forall i, k :: 0 <= i < k < |seen| ==> seen[i].key != seen[k].key)
    && (forall i, k :: 0 <= i < k < |seen| ==>
          || seen[i].key.slot.host != seen[k].key.slot.host
          || seen[i].pid != seen[k].pid || seen[i].startTicks != seen[k].startTicks)
  }

  lemma OneEachTells(seen: seq<Seen>)
    ensures OneEach(seen) <==> |Keys(seen)| == |seen| && |Linuxes(seen)| == |seen|
  {
    var keys := seq(|seen|, i requires 0 <= i < |seen| => seen[i].key);
    var hosts := seq(|seen|, i requires 0 <= i < |seen| => LinuxOf(seen[i]));
    DistinctSize(keys);
    DistinctSize(hosts);
    assert Members(keys) == Keys(seen) by {
      assert forall i :: 0 <= i < |seen| ==> keys[i] == seen[i].key;
    }
    assert Members(hosts) == Linuxes(seen) by {
      assert forall i :: 0 <= i < |seen| ==> hosts[i] == LinuxOf(seen[i]);
    }
    forall i, k | 0 <= i < k < |seen|
      ensures keys[i] != keys[k] <==> seen[i].key != seen[k].key
      ensures hosts[i] != hosts[k] <==> seen[i].key.slot.host != seen[k].key.slot.host
                                        || seen[i].pid != seen[k].pid || seen[i].startTicks != seen[k].startTicks
    {
    }
  }

  // A list of different slots in order.
  predicate Listed(required: seq<Key>) {
    && required != []
    && (forall i :: 0 <= i < |required| ==> KeyShaped(required[i]))
    && (forall i, k :: 0 <= i < k < |required| ==> required[i].slot != required[k].slot)
    && (forall i :: 1 <= i < |required| ==> KeyUpTo(required[i - 1], required[i]))
  }

  // Different processes of the list, as the transition froze them.
  predicate Countable(required: seq<Key>, seen: seq<Seen>, t: Transition) {
    && OneEach(seen)
    && (forall i :: 0 <= i < |seen| ==> SeenShaped(seen[i]))
    && (forall i :: 0 <= i < |seen| ==> seen[i].key in required)
    && (t.NotRecorded? || (t.Fixed? && forall i :: 0 <= i < |seen| ==> Unchanged(seen[i], t.slots)))
  }

  predicate Unchanged(s: Seen, slots: map<Slot, Frozen>) {
    && s.key.slot in slots && slots[s.key.slot].epoch == s.key.epoch
    && slots[s.key.slot].pid == s.pid && slots[s.key.slot].startTicks == s.startTicks
  }

  lemma ListedTells(required: Option<seq<Key>>)
    ensures SnapshotFault(required).None? <==> required.Some? && Listed(required.value)
  {
    hide KeyShaped, KeyUpTo;
  }

  lemma CountableTells(required: seq<Key>, observed: Option<seq<Seen>>, t: Transition)
    ensures ObservationFault(required, observed, t).None?
            <==> observed.Some? && Countable(required, observed.value, t)
  {
    if observed.Some? {
      OneEachTells(observed.value);
      InsideTells(required, observed.value);
      UnchangedTells(observed.value, t);
    }
    hide SeenShaped, Keys, KeySet, Linuxes, OneEach, Unchanged, TransitionFault;
  }

  lemma UnchangedTells(seen: seq<Seen>, t: Transition)
    ensures TransitionFault(t, seen).None?
            <==> t.NotRecorded? || (t.Fixed? && forall i :: 0 <= i < |seen| ==> Unchanged(seen[i], t.slots))
  {
    if t.Fixed? {
      assert forall i :: 0 <= i < |seen| ==> (SameAs(seen[i], t.slots) <==> Unchanged(seen[i], t.slots));
    }
  }

  // There is a coverage exactly for a listed snapshot and countable processes,
  // and then a reason for a claim and for a report it contradicts; otherwise
  // there is one reason.
  lemma CoverageExactly(required: Option<seq<Key>>, observed: Option<seq<Seen>>, t: Transition,
                        invoked: Option<bool>, reported: Option<real>)
    ensures var (covered, added) := CoverageOf(required, observed, t, invoked, reported);
      && (covered.Some? <==> required.Some? && Listed(required.value)
                             && observed.Some? && Countable(required.value, observed.value, t))
      && (covered.None? ==> |added| == 1)
      && (covered.Some? ==>
            && (forall r :: r in added ==> r == ClaimDisagrees || r == CoverageDisagrees)
            && (ClaimDisagrees in added <==> invoked != Some(observed.value != []))
            && (CoverageDisagrees in added <==>
                  reported.None? || reported.value < covered.value - 0.000000000001
                  || reported.value > covered.value + 0.000000000001))
  {
    ListedTells(required);
    if required.Some? {
      CountableTells(required.value, observed, t);
    }
    hide SnapshotFault, ObservationFault, Listed, Countable, Share;
  }

  lemma InsideTells(required: seq<Key>, seen: seq<Seen>)
    ensures Keys(seen) <= KeySet(required) <==> forall i :: 0 <= i < |seen| ==> seen[i].key in required
  {
    if Keys(seen) <= KeySet(required) {
      forall i | 0 <= i < |seen| ensures seen[i].key in required {
        assert seen[i].key in Keys(seen);
      }
    }
  }

  // ---------------------------------------------------------------------
  // The verdict

  // What the oracle reads besides: the claim, the invocation event, and
  // whether the frozen scenario lets the plugin act at all.
  datatype Claim = Claim(claimed: bool, invoked: bool, possible: bool, formal: bool)

  predicate Pass(reasons: seq<Reason>) {
    reasons == []
  }

  predicate FalseEffective(c: Claim, covered: Option<real>) {
    c.claimed && (!c.possible || !c.invoked || (c.formal && covered != Some(1.0)))
  }

  // With a PASS, an effectiveness claim is false exactly when the scenario
  // excludes it, nothing was invoked, or, in a formal start, some required
  // process was not observed.
  lemma FalseEffectiveMeans(c: Claim, required: Option<seq<Key>>, observed: Option<seq<Seen>>, t: Transition,
                            invoked: Option<bool>, reported: Option<real>, reasons: seq<Reason>)
    requires var (covered, added) := CoverageOf(required, observed, t, invoked, reported);
      Pass(reasons + added)
    ensures var covered := CoverageOf(required, observed, t, invoked, reported).0;
      && required.Some? && observed.Some?
      && (FalseEffective(c, covered) <==>
            && c.claimed
            && (!c.possible || !c.invoked || (c.formal && Keys(observed.value) != KeySet(required.value))))
  {
    var (covered, added) := CoverageOf(required, observed, t, invoked, reported);
    assert covered.None? ==> |added| == 1;
    assert |reasons + added| == |reasons| + |added|;
    CoverageMeans(required, observed, t, invoked, reported);
  }

  // A claim that passes and is not false: every required process was observed
  // on its own host, and no two of them as the same Linux process.
  lemma EffectiveMeansObserved(c: Claim, required: seq<Key>, observed: seq<Seen>, t: Transition,
                               invoked: Option<bool>, reported: Option<real>, reasons: seq<Reason>,
                               i: nat, k: nat) returns (a: nat, b: nat)
    requires c.formal && c.claimed && i < |required| && k < |required|
    requires var (covered, added) := CoverageOf(Some(required), Some(observed), t, invoked, reported);
      Pass(reasons + added) && !FalseEffective(c, covered)
    ensures a < |observed| && b < |observed| && observed[a].key == required[i] && observed[b].key == required[k]
    ensures LinuxOf(observed[a]).host == required[i].slot.host && LinuxOf(observed[b]).host == required[k].slot.host
    ensures i != k ==> LinuxOf(observed[a]) != LinuxOf(observed[b])
  {
    FalseEffectiveMeans(c, Some(required), Some(observed), t, invoked, reported, reasons);
    var (covered, added) := CoverageOf(Some(required), Some(observed), t, invoked, reported);
    assert |reasons + added| == |reasons| + |added|;
    assert SnapshotFault(Some(required)).None? && ObservationFault(required, Some(observed), t).None?;
    hide TransitionFault, SeenShaped, AllShaped, InOrder, CoverageOf;
    assert required[i] in KeySet(required) && required[k] in KeySet(required);
    a :| 0 <= a < |observed| && observed[a].key == required[i];
    b :| 0 <= b < |observed| && observed[b].key == required[k];
    if i != k {
      assert required[i].slot != required[k].slot;
      LinuxesDiffer(observed, if a < b then a else b, if a < b then b else a);
    }
  }
}
