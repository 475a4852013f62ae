/**
 The resumable campaign driver: the frozen schedule, what a fresh invocation
 makes of the starts left by earlier ones, and what any number of interrupted
 invocations can leave behind.
 */
module Driver {
  import opened Wrappers

  datatype Arm = Vanilla | Manual | Ecpa

  datatype Position = Position(start: nat, repetition: nat, order: nat, arm: Arm)

  function LatinSquare(): seq<seq<Arm>> {
    [[Vanilla, Manual, Ecpa], [Manual, Ecpa, Vanilla], [Ecpa, Vanilla, Manual]]
  }

  const STARTS: nat := 9

  function PositionAt(k: nat): Position
    requires k < STARTS
  {
    Position(k + 1, k / 3 + 1, k % 3 + 1, LatinSquare()[k / 3][k % 3])
  }

  // The schedule of a study, refused unless it is the frozen square.
  method Schedule(study: seq<seq<Arm>>) returns (schedule: Option<seq<Position>>)
    ensures schedule ==
      if study == LatinSquare() then Some(seq(STARTS, k requires 0 <= k < STARTS => PositionAt(k))) else None
  {
    if study != LatinSquare() {
      return None;
    }
    var rows := [];
    for r := 0 to 3
      invariant rows == seq(3 * r, k requires 0 <= k < 3 * r => PositionAt(k))
    {
      for o := 0 to 3
        invariant rows == seq(3 * r + o, k requires 0 <= k < 3 * r + o => PositionAt(k))
      {
        rows := rows + [Position(r * 3 + o + 1, r + 1, o + 1, study[r][o])];
      }
    }
    return Some(rows);
  }

  // Every repetition runs every arm, and every arm runs in every place.
  lemma SquareIsLatin(i: nat, k: nat)
    requires i < k < STARTS
    ensures PositionAt(i).repetition == PositionAt(k).repetition ==> PositionAt(i).arm != PositionAt(k).arm
    ensures PositionAt(i).order == PositionAt(k).order ==> PositionAt(i).arm != PositionAt(k).arm
  {
    if i / 3 == k / 3 {
      SameRow(k / 3, i % 3, k % 3);
    }
    if i % 3 == k % 3 {
      SameColumn(i / 3, k / 3, k % 3);
    }
  }

  // The arms in their order, each repetition starting one further on.
  lemma SquareIsCyclic(k: nat)
    requires k < STARTS
    ensures PositionAt(k).start == k + 1 && 3 * (PositionAt(k).repetition - 1) + (PositionAt(k).order - 1) == k
    ensures var turn := (PositionAt(k).repetition - 1) + (PositionAt(k).order - 1);
      PositionAt(k).arm == [Vanilla, Manual, Ecpa][turn % 3]
  {
    assert k / 3 == 0 || k / 3 == 1 || k / 3 == 2;
    assert k % 3 == 0 || k % 3 == 1 || k % 3 == 2;
  }

  lemma SameRow(r: nat, a: nat, b: nat)
    requires r < 3 && a < 3 && b < 3 && a != b
    ensures LatinSquare()[r][a] != LatinSquare()[r][b]
  {
  }

  lemma SameColumn(r: nat, s: nat, a: nat)
    requires r < 3 && s < 3 && a < 3 && r != s
    ensures LatinSquare()[r][a] != LatinSquare()[s][a]
  {
  }

  // The name of a start's directory: repetition and arm.
  datatype StartId = StartId(repetition: nat, arm: Arm)

  function IdAt(k: nat): StartId
    requires k < STARTS
  {
    StartId(PositionAt(k).repetition, PositionAt(k).arm)
  }

  lemma IdsDiffer(i: nat, k: nat)
    requires i < STARTS && k < STARTS && i != k
    ensures IdAt(i) != IdAt(k)
  {
    SquareIsLatin(if i < k then i else k, if i < k then k else i);
  }

  // A start's directory without a record, or with one; `sound` says that the
  // record is whole and is the scheduled start's.
  datatype Start = Begun | Recorded(sound: bool)

  // `launches` remembers every directory ever made, in order.
  datatype State = State(starts: map<StartId, Start>, launches: seq<nat>)

  // ---------------------------------------------------------------------
  // Resuming

  datatype Scan = Scan(records: nat, gap: bool)

  // The first k positions as the loader walks them; None is its refusal.
  function Scanned(starts: map<StartId, Start>, k: nat): Option<Scan>
    requires k <= STARTS
  {
    if k == 0 then Some(Scan(0, false)) else
    var before, id := Scanned(starts, k - 1), IdAt(k - 1);
    if before.None? then None
    else if id !in starts then Some(before.value.(gap := true))
    else if starts[id].Begun? || before.value.gap || !starts[id].sound then None
    else Some(before.value.(records := before.value.records + 1))
  }

  // What happens to one start: refused before its directory exists, killed
  // inside, killed once its record is (partly) written, or returned, with the
  // publication after it succeeding or not.
  datatype Turn = RefusedEarly | DiesInside | DiesAfter(sound: bool) | Returns(published: bool)

  // One invocation: whether the registration holds and the lock is free,
  // whether the first publication succeeds, and the starts it gets to.
  datatype Invocation = Invocation(admitted: bool, lockFree: bool, published: bool, turns: seq<Turn>)

  function Launch(s: State, k: nat, start: Start): State
    requires k < STARTS
  {
    State(s.starts[IdAt(k) := start], s.launches + [k])
  }

  // A directory that exists already cannot be made.
  function Go(s: State, k: nat, turns: seq<Turn>): State
    requires k <= STARTS
    decreases |turns|
  {
    if k == STARTS || turns == [] || IdAt(k) in s.starts then s else
    match turns[0]
    case RefusedEarly => s
    case DiesInside => Launch(s, k, Begun)
    case DiesAfter(sound) => Launch(s, k, Recorded(sound))
    case Returns(published) =>
      if published then Go(Launch(s, k, Recorded(true)), k + 1, turns[1..]) else Launch(s, k, Recorded(true))
  }

  function Invoke(s: State, v: Invocation): State {
    var scan := Scanned(s.starts, STARTS);
    if !v.admitted || !v.lockFree || scan.None? || (scan.value.records > 0 && !v.published) then s
    else ScanBound(s.starts, STARTS); Go(s, scan.value.records, v.turns)
  }

  lemma {:induction false} ScanBound(starts: map<StartId, Start>, k: nat)
    requires k <= STARTS
    ensures Scanned(starts, k).Some? ==> Scanned(starts, k).value.records <= k
  {
    if k == 0 {
    } else {
      ScanBound(starts, k - 1);
    }
  }

  function Invoked(calls: seq<Invocation>): State {
    if calls == [] then State(map[], []) else Invoke(Invoked(calls[..|calls| - 1]), calls[|calls| - 1])
  }

  class Campaign {
    var starts: map<StartId, Start>
    ghost var launches: seq<nat>

    ghost function View(): State
      reads this
    {
      State(starts, launches)
    }

    // None when a retained start blocks the resume.
    method LoadExistingRecords() returns (records: Option<nat>)
      ensures records == if Scanned(starts, STARTS).None? then None else Some(Scanned(starts, STARTS).value.records)
    {
      var count, sawGap := 0, false;
      for k := 0 to STARTS
        invariant Scanned(starts, k) == Some(Scan(count, sawGap))
      {
        var id := IdAt(k);
        if id !in starts {
          sawGap := true;
        } else if starts[id].Begun? || sawGap || !starts[id].sound {
          RefusalStays(starts, k + 1, STARTS);
          return None;
        } else {
          count := count + 1;
        }
      }
      return Some(count);
    }

    method RunCampaign(v: Invocation)
      modifies this
      ensures View() == Invoke(old(View()), v)
    {
      if !v.admitted || !v.lockFree {
        return;
      }
      var records := LoadExistingRecords();
      if records.None? || (records.value > 0 && !v.published) {
        return;
      }
      ScanBound(starts, STARTS);
      var turn := 0;
      ghost var s := View();
      for k := records.value to STARTS
        invariant turn <= |v.turns|
        invariant Go(s, records.value, v.turns) == Go(View(), k, v.turns[turn..])
      {
        if turn == |v.turns| || IdAt(k) in starts {
          return;
        }
        var now := v.turns[turn];
        assert v.turns[turn..][1..] == v.turns[turn + 1..];
        if now.RefusedEarly? {
          return;
        }
        launches := launches + [k];
        var left := if now.DiesInside? then Begun else if now.DiesAfter? then Recorded(now.sound) else Recorded(true);
        starts := starts[IdAt(k) := left];
        if !now.Returns? || !now.published {
          return;
        }
        turn := turn + 1;
      }
    }
  }

  lemma {:induction false} RefusalStays(starts: map<StartId, Start>, k: nat, n: nat)
    requires k <= n <= STARTS && Scanned(starts, k).None?
    ensures Scanned(starts, n).None?
  {
    if k < n {
      RefusalStays(starts, k, n - 1);
    }
  }

  // ---------------------------------------------------------------------
  // Exactly once

  // The starts are the first m positions; all but the last are soundly
  // recorded; and exactly these were launched, once each, in order.
  ghost predicate Prefix(s: State, m: nat) {
    && m <= STARTS
    && |s.launches| == m && (forall k :: 0 <= k < m ==> s.launches[k] == k)
    && (forall k :: 0 <= k < STARTS ==> (IdAt(k) in s.starts <==> k < m))
    && (forall k :: 0 <= k < m - 1 ==> s.starts[IdAt(k)] == Recorded(true))
  }

  ghost predicate LastSound(s: State, m: nat) {
    m > 0 ==> m <= STARTS && IdAt(m - 1) in s.starts && s.starts[IdAt(m - 1)] == Recorded(true)
  }

  lemma {:induction false} ScanOfPrefix(s: State, m: nat, k: nat)
    requires Prefix(s, m) && k <= STARTS
    ensures k < m || (k == m && LastSound(s, m)) ==> Scanned(s.starts, k) == Some(Scan(k, false))
    ensures k > m && LastSound(s, m) ==> Scanned(s.starts, k) == Some(Scan(m, true))
    ensures k >= m && !LastSound(s, m) ==> Scanned(s.starts, k).None?
  {
    hide IdAt;
    if k == 0 {
    } else {
      ScanOfPrefix(s, m, k - 1);
    }
  }

  lemma LaunchExtends(s: State, m: nat, start: Start)
    requires Prefix(s, m) && m < STARTS && LastSound(s, m)
    ensures Prefix(Launch(s, m, start), m + 1)
    ensures start == Recorded(true) ==> LastSound(Launch(s, m, start), m + 1)
  {
    forall k | 0 <= k < STARTS && k != m ensures IdAt(k) != IdAt(m) {
      IdsDiffer(k, m);
    }
  }

  lemma {:induction false} GoKeepsPrefix(s: State, m: nat, turns: seq<Turn>) returns (n: nat)
    requires Prefix(s, m) && LastSound(s, m)
    ensures m <= n && Prefix(Go(s, m, turns), n)
    decreases |turns|
  {
    n := m;
    if m < STARTS && turns != [] {
      hide Prefix, LastSound, IdAt;
      NotYetThere(s, m);
      match turns[0]
      case RefusedEarly =>
      case DiesInside =>
        LaunchExtends(s, m, Begun);
        n := m + 1;
      case DiesAfter(sound) =>
        LaunchExtends(s, m, Recorded(sound));
        n := m + 1;
      case Returns(published) =>
        LaunchExtends(s, m, Recorded(true));
        n := m + 1;
        if published {
          n := GoKeepsPrefix(Launch(s, m, Recorded(true)), m + 1, turns[1..]);
        }
    }
  }

  lemma NotYetThere(s: State, m: nat)
    requires Prefix(s, m) && m < STARTS
    ensures IdAt(m) !in s.starts
  {
  }

  lemma InvokeKeepsPrefix(s: State, m: nat, v: Invocation) returns (n: nat)
    requires Prefix(s, m)
    ensures m <= n && Prefix(Invoke(s, v), n)
    ensures !LastSound(s, m) ==> Invoke(s, v) == s
  {
    ScanOfPrefix(s, m, STARTS);
    hide Prefix, LastSound, Scanned, IdAt;
    n := m;
    if Invoke(s, v) != s {
      PrefixBound(s, m);
      n := GoKeepsPrefix(s, m, v.turns);
    }
  }

  lemma PrefixBound(s: State, m: nat)
    requires Prefix(s, m)
    ensures m <= STARTS
  {
  }

  // Over any number of invocations, interrupted anywhere, the starts are a
  // prefix of the schedule, everything but its last start is soundly recorded,
  // and no position was ever launched twice.
  lemma {:induction false} ResumesExactlyOnce(calls: seq<Invocation>) returns (m: nat)
    ensures Prefix(Invoked(calls), m)
  {
    if calls == [] {
      m := 0;
    } else {
      hide Prefix, Invoke;
      var before := ResumesExactlyOnce(calls[..|calls| - 1]);
      m := InvokeKeepsPrefix(Invoked(calls[..|calls| - 1]), before, calls[|calls| - 1]);
    }
  }

  // The last start was interrupted, or its record is not the scheduled one.
  predicate Stuck(s: State) {
    exists k :: 0 <= k < STARTS && IdAt(k) in s.starts && s.starts[IdAt(k)] != Recorded(true)
  }

  // An interrupted start blocks every later launch, for good; without one, an
  // invocation that gets a start going launches the next position.
  lemma {:induction false} InterruptedBlocks(calls: seq<Invocation>, later: seq<Invocation>)
    requires Stuck(Invoked(calls))
    ensures Invoked(calls + later) == Invoked(calls)
    decreases |later|
  {
    if later == [] {
      assert calls + later == calls;
    } else {
      var n := |later| - 1;
      InterruptedBlocks(calls, later[..n]);
      assert (calls + later)[..|calls + later| - 1] == calls + later[..n];
      var s := Invoked(calls);
      var m := ResumesExactlyOnce(calls);
      StuckIsLast(s, m);
      var _ := InvokeKeepsPrefix(s, m, later[n]);
    }
  }

  lemma StuckIsLast(s: State, m: nat)
    requires Prefix(s, m)
    ensures Stuck(s) <==> !LastSound(s, m)
  {
    if !LastSound(s, m) {
      assert IdAt(m - 1) in s.starts;
    }
  }

  lemma FreeLaunchesNext(calls: seq<Invocation>, v: Invocation) returns (m: nat)
    requires !Stuck(Invoked(calls)) && v.admitted && v.lockFree && v.published
    requires v.turns != [] && !v.turns[0].RefusedEarly?
    ensures Prefix(Invoked(calls), m)
    ensures m < STARTS ==> m in Invoke(Invoked(calls), v).launches && m !in Invoked(calls).launches
  {
    hide IdAt;
    var s := Invoked(calls);
    m := ResumesExactlyOnce(calls);
    StuckIsLast(s, m);
    ScanOfPrefix(s, m, STARTS);
    if m < STARTS {
      hide Scanned;
      NotYetThere(s, m);
      LaunchesGrow(Launch(s, m, Recorded(true)), m + 1, v.turns[1..], m);
      assert (s.launches + [m])[|s.launches|] == m;
    }
  }

  lemma {:induction false} LaunchesGrow(s: State, k: nat, turns: seq<Turn>, m: nat)
    requires k <= STARTS
    ensures m in s.launches ==> m in Go(s, k, turns).launches
    decreases |turns|
  {
    hide IdAt;
    if k < STARTS && turns != [] && IdAt(k) !in s.starts && turns[0].Returns? && turns[0].published {
      LaunchesGrow(Launch(s, k, Recorded(true)), k + 1, turns[1..], m);
    }
  }

  // ---------------------------------------------------------------------
  // One resume, and one invocation, exactly

  // The first m starts are there and soundly recorded, no later one is there.
  predicate Contiguous(starts: map<StartId, Start>, m: nat, n: nat)
    requires n <= STARTS
  {
    forall k :: 0 <= k < n ==>
      (IdAt(k) in starts <==> k < m) && (k < m ==> starts[IdAt(k)] == Recorded(true))
  }

  lemma {:induction false} ScanShape(starts: map<StartId, Start>, k: nat)
    requires k <= STARTS && Scanned(starts, k).Some?
    ensures var scan := Scanned(starts, k).value; scan.records <= k && (scan.gap <==> scan.records < k)
  {
    hide IdAt;
    if k > 0 {
      ScanShape(starts, k - 1);
    }
  }

  // The loader counts m records exactly when these starts are there.
  lemma {:induction false} ScannedExactly(starts: map<StartId, Start>, k: nat, m: nat)
    requires m <= k <= STARTS
    ensures Scanned(starts, k).Some? && Scanned(starts, k).value.records == m <==> Contiguous(starts, m, k)
  {
    hide IdAt;
    if k == 0 {
    } else {
      ScannedExactly(starts, k - 1, if m < k then m else k - 1);
      if Scanned(starts, k - 1).Some? {
        ScanShape(starts, k - 1);
      }
    }
  }

  predicate Ready(v: Invocation, m: nat) {
    v.admitted && v.lockFree && (m > 0 ==> v.published)
  }

  // The first t turns go on to the next one, but perhaps the last of them; and
  // no further turn gets a start going.
  predicate Taken(turns: seq<Turn>, m: nat, t: nat) {
    && t <= |turns| && m + t <= STARTS
    && (forall j :: 0 <= j < t ==> !turns[j].RefusedEarly?)
    && (forall j :: 0 <= j < t - 1 ==> turns[j] == Returns(true))
    && (t == 0 || turns[t - 1] == Returns(true) ==> m + t == STARTS || t == |turns| || turns[t].RefusedEarly?)
  }

  // What a turn leaves of the start it got going.
  function Left(turn: Turn): Start {
    match turn
    case DiesInside => Begun
    case DiesAfter(sound) => Recorded(sound)
    case _ => Recorded(true)
  }

  // From start m on, t starts were launched; the last is as its turn left it.
  ghost predicate Advanced(s: State, now: State, m: nat, turns: seq<Turn>, t: nat) {
    && Prefix(now, m + t) && t <= |turns|
    && (t == 0 ==> now == s)
    && (t > 0 ==> IdAt(m + t - 1) in now.starts && now.starts[IdAt(m + t - 1)] == Left(turns[t - 1]))
  }

  lemma {:induction false} GoTakes(s: State, m: nat, turns: seq<Turn>) returns (t: nat)
    requires Prefix(s, m) && LastSound(s, m)
    ensures Taken(turns, m, t) && Advanced(s, Go(s, m, turns), m, turns, t)
    decreases |turns|
  {
    hide IdAt;
    t := 0;
    if m < STARTS && turns != [] && !turns[0].RefusedEarly? {
      NotYetThere(s, m);
      var next := Launch(s, m, Left(turns[0]));
      LaunchExtends(s, m, Left(turns[0]));
      t := 1;
      if turns[0] == Returns(true) {
        hide Prefix, LastSound, Launch;
        var more := GoTakes(next, m + 1, turns[1..]);
        t := 1 + more;
        TakenOneMore(turns, m, more);
        AdvancedOneMore(s, next, Go(s, m, turns), m, turns, more);
      }
    }
  }

  lemma TakenOneMore(turns: seq<Turn>, m: nat, t: nat)
    requires turns != [] && turns[0] == Returns(true) && Taken(turns[1..], m + 1, t)
    ensures Taken(turns, m, t + 1)
  {
    var rest := turns[1..];
    forall j | 0 < j < t + 1 ensures turns[j] == rest[j - 1] {
    }
  }

  lemma AdvancedOneMore(s: State, next: State, now: State, m: nat, turns: seq<Turn>, t: nat)
    requires turns != [] && m < STARTS && next == Launch(s, m, Left(turns[0]))
    requires Advanced(next, now, m + 1, turns[1..], t)
    ensures Advanced(s, now, m, turns, t + 1)
  {
    hide Prefix, IdAt;
    if t > 0 {
      assert turns[1..][t - 1] == turns[t];
    }
  }

  // What one invocation launches: nothing when it is not admitted, finds the
  // lock taken, is stuck on an earlier start or fails its first publication;
  // otherwise the next starts, turn by turn, until one does not go on.
  lemma InvokesExactly(calls: seq<Invocation>, v: Invocation) returns (m: nat, t: nat)
    ensures var s := Invoked(calls);
      && Prefix(s, m) && Advanced(s, Invoke(s, v), m, v.turns, t)
      && (if Ready(v, m) && !Stuck(s) then Taken(v.turns, m, t) else t == 0)
  {
    var s := Invoked(calls);
    m := ResumesExactlyOnce(calls);
    t := 0;
    StuckIsLast(s, m);
    ScanOfPrefix(s, m, STARTS);
    PrefixBound(s, m);
    hide Prefix, Scanned, IdAt, LastSound, Stuck, Taken;
    if Ready(v, m) && LastSound(s, m) {
      t := GoTakes(s, m, v.turns);
    }
  }
}
