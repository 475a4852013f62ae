/**
 Publishing the index of formal records: a new generation is written beside the
 old one, and only the last step, replacing one pointer, makes it current.
 */
module Manifest {
  import opened Wrappers
  import opened JournalBytes

  datatype Record = Record(startId: string, artifactRoot: string, body: string)

  datatype Entry = Entry(startId: string, record: string, digest: Digest)

  datatype Index = Index(jsonlDigest: Digest, entries: seq<Entry>)

  datatype Pointer = Pointer(generation: string, indexDigest: Digest)

  // `relative` is the path, below the root, that an artifact root's record file
  // resolves to.
  datatype Codec = Codec(
    row: Record -> Bytes, parseRow: Bytes -> Option<Record>,
    index: Index -> Bytes, parseIndex: Bytes -> Option<Index>,
    pointer: Pointer -> Bytes, parsePointer: Bytes -> Option<Pointer>,
    relative: string -> string, sha: Bytes -> Digest)

  ghost predicate Faithful(c: Codec) {
    && (forall r :: c.parseRow(c.row(r)) == Some(r) && Printable(c.row(r)) && c.row(r) != [])
    && (forall i :: c.parseIndex(c.index(i) + [LF]) == Some(i))
    && (forall p :: c.parsePointer(c.pointer(p) + [LF]) == Some(p))
  }

  datatype Place =
    | Current | IndexOf(generation: string) | JsonlOf(generation: string) | RecordAt(path: string) | Temporary(k: nat)

  type Files = map<Place, Bytes>

  predicate GenerationName(g: string) {
    |g| == 32 && forall i :: 0 <= i < 32 ==> '0' <= g[i] <= '9' || 'a' <= g[i] <= 'f'
  }

  function RecordPath(artifactRoot: string): string {
    artifactRoot + "/record.json"
  }

  // ---------------------------------------------------------------------
  // Loading

  function RowLines(c: Codec, rows: seq<Record>): (lines: seq<Bytes>)
    ensures |lines| == |rows|
    ensures forall i :: 0 <= i < |rows| ==> lines[i] == c.row(rows[i])
  {
    seq(|rows|, i requires 0 <= i < |rows| => c.row(rows[i]))
  }

  function Jsonl(c: Codec, rows: seq<Record>): Bytes {
    Frame(RowLines(c, rows))
  }

  function ParseRows(c: Codec, lines: seq<Bytes>): Option<seq<Record>> {
    if lines == [] then Some([]) else
    var front, last := ParseRows(c, lines[..|lines| - 1]), lines[|lines| - 1];
    if front.None? then None
    else if last == [] then front
    else if c.parseRow(last).None? then None
    else Some(front.value + [c.parseRow(last).value])
  }

  // One indexed record as found on disk, if it is what the index says.
  function LoadEntry(c: Codec, files: Files, e: Entry): Option<Record> {
    if RecordAt(e.record) !in files then None else
    var bytes := files[RecordAt(e.record)];
    var record := c.parseRow(bytes);
    if c.sha(bytes) != e.digest || record.None? || record.value.startId != e.startId
       || e.record != RecordPath(record.value.artifactRoot)
    then None else record
  }

  function LoadEntries(c: Codec, files: Files, entries: seq<Entry>): Option<seq<Record>> {
    if entries == [] then Some([]) else
    var front := LoadEntries(c, files, entries[..|entries| - 1]);
    var last := LoadEntry(c, files, entries[|entries| - 1]);
    if front.None? || last.None? then None else Some(front.value + [last.value])
  }

  function LoadGeneration(c: Codec, files: Files, p: Pointer): Option<seq<Record>> {
    if !GenerationName(p.generation) || IndexOf(p.generation) !in files || JsonlOf(p.generation) !in files
    then None else
    var indexBytes, jsonl := files[IndexOf(p.generation)], files[JsonlOf(p.generation)];
    var index := c.parseIndex(indexBytes);
    if c.sha(indexBytes) != p.indexDigest || index.None? || indexBytes != c.index(index.value) + [LF]
       || c.sha(jsonl) != index.value.jsonlDigest then None else
    var indexed := ParseRows(c, SplitLines(jsonl));
    if indexed.None? || jsonl != Jsonl(c, indexed.value) then None else
    var records := LoadEntries(c, files, index.value.entries);
    if records != indexed then None else records
  }

  function Load(c: Codec, files: Files): Option<seq<Record>> {
    if Current !in files then None else
    var pointer := c.parsePointer(files[Current]);
    if pointer.None? || files[Current] != c.pointer(pointer.value) + [LF] then None
    else LoadGeneration(c, files, pointer.value)
  }

  // ---------------------------------------------------------------------
  // Writing

  // The index entries, unless some record file differs from its row.
  function Entries(c: Codec, files: Files, rows: seq<Record>): Option<seq<Entry>> {
    if rows == [] then Some([]) else
    var front, row := Entries(c, files, rows[..|rows| - 1]), rows[|rows| - 1];
    var path := c.relative(row.artifactRoot);
    if front.None? || RecordAt(path) !in files || c.parseRow(files[RecordAt(path)]) != Some(row) then None
    else Some(front.value + [Entry(row.startId, path, c.sha(files[RecordAt(path)]))])
  }

  datatype Step = Save(place: Place, bytes: Bytes) | Rename(from: Place, to: Place)

  function Apply(files: Files, step: Step): Files {
    match step
    case Save(place, bytes) => files[place := bytes]
    case Rename(from, to) => if from in files then files[to := files[from]] - {from} else files
  }

  function ApplyAll(files: Files, steps: seq<Step>): Files {
    if steps == [] then files else Apply(ApplyAll(files, steps[..|steps| - 1]), steps[|steps| - 1])
  }

  // A temporary file, first partly and then fully written, renamed in place.
  function Atomic(k: nat, to: Place, bytes: Bytes, torn: Bytes): seq<Step> {
    [Save(Temporary(k), torn), Save(Temporary(k), bytes), Rename(Temporary(k), to)]
  }

  function IndexBytes(c: Codec, rows: seq<Record>, entries: seq<Entry>): Bytes {
    c.index(Index(c.sha(Jsonl(c, rows)), entries)) + [LF]
  }

  function PointerBytes(c: Codec, g: string, rows: seq<Record>, entries: seq<Entry>): Bytes {
    c.pointer(Pointer(g, c.sha(IndexBytes(c, rows, entries)))) + [LF]
  }

  // Everything the publication does to the files, in order. A record that
  // differs from its row ends it after the first file.
  function Plan(c: Codec, files: Files, g: string, rows: seq<Record>, torn: Bytes): seq<Step> {
    var entries := Entries(c, files, rows);
    var first := Atomic(0, JsonlOf(g), Jsonl(c, rows), torn);
    if entries.None? then first else
    first + Atomic(1, IndexOf(g), IndexBytes(c, rows, entries.value), torn)
          + Atomic(2, Current, PointerBytes(c, g, rows, entries.value), torn)
  }

  class Store {
    var files: Files

    method Do(step: Step)
      modifies this
      ensures files == Apply(old(files), step)
    {
      match step {
        case Save(place, bytes) => files := files[place := bytes];
        case Rename(from, to) =>
          if from in files {
            files := files[to := files[from]] - {from};
          }
      }
    }

    // Write the generation and switch the pointer; `stop` is the step the
    // process dies after.
    method WriteFormalManifest(c: Codec, g: string, rows: seq<Record>, torn: Bytes, stop: nat)
      modifies this
      ensures var plan := Plan(c, old(files), g, rows, torn);
        files == ApplyAll(old(files), plan[..if stop < |plan| then stop else |plan|])
    {
      var entries := CollectEntries(c, rows);
      var plan := Atomic(0, JsonlOf(g), Jsonl(c, rows), torn);
      if entries.Some? {
        plan := plan + Atomic(1, IndexOf(g), IndexBytes(c, rows, entries.value), torn)
                + Atomic(2, Current, PointerBytes(c, g, rows, entries.value), torn);
      }
      var last := if stop < |plan| then stop else |plan|;
      for i := 0 to last
        invariant files == ApplyAll(old(files), plan[..i])
      {
        assert plan[..i + 1][..i] == plan[..i];
        Do(plan[i]);
      }
    }

    method CollectEntries(c: Codec, rows: seq<Record>) returns (entries: Option<seq<Entry>>)
      ensures entries == Entries(c, files, rows)
    {
      var found := [];
      for i := 0 to |rows|
        invariant Entries(c, files, rows[..i]) == Some(found)
      {
        assert rows[..i + 1][..i] == rows[..i];
        var path := c.relative(rows[i].artifactRoot);
        if RecordAt(path) !in files || c.parseRow(files[RecordAt(path)]) != Some(rows[i]) {
          MismatchStays(c, files, rows, i);
          return None;
        }
        found := found + [Entry(rows[i].startId, path, c.sha(files[RecordAt(path)]))];
      }
      assert rows[..|rows|] == rows;
      return Some(found);
    }

    method LoadFormalManifest(c: Codec) returns (records: Option<seq<Record>>)
      ensures records == Load(c, files)
    {
      if Current !in files {
        return None;
      }
      var pointer := c.parsePointer(files[Current]);
      if pointer.None? || files[Current] != c.pointer(pointer.value) + [LF] {
        return None;
      }
      var g := pointer.value.generation;
      if !GenerationName(g) || IndexOf(g) !in files || JsonlOf(g) !in files {
        return None;
      }
      var indexBytes, jsonl := files[IndexOf(g)], files[JsonlOf(g)];
      var index := c.parseIndex(indexBytes);
      if c.sha(indexBytes) != pointer.value.indexDigest || index.None? || indexBytes != c.index(index.value) + [LF]
         || c.sha(jsonl) != index.value.jsonlDigest {
        return None;
      }
      var indexed := ParseRows(c, SplitLines(jsonl));
      if indexed.None? || jsonl != Jsonl(c, indexed.value) {
        return None;
      }
      var entries, found := index.value.entries, [];
      for i := 0 to |entries|
        invariant LoadEntries(c, files, entries[..i]) == Some(found)
      {
        assert entries[..i + 1][..i] == entries[..i];
        var one := LoadEntry(c, files, entries[i]);
        if one.None? {
          MissingStays(c, files, entries, i);
          return None;
        }
        found := found + [one.value];
      }
      assert entries[..|entries|] == entries;
      return if Some(found) != indexed then None else Some(found);
    }
  }

  lemma {:induction false} MismatchStays(c: Codec, files: Files, rows: seq<Record>, i: nat)
    requires i < |rows| && Entries(c, files, rows[..i + 1]).None?
    ensures Entries(c, files, rows).None?
    decreases |rows|
  {
    if i == |rows| - 1 {
      assert rows[..i + 1] == rows;
    } else {
      var front := rows[..|rows| - 1];
      assert front[..i + 1] == rows[..i + 1];
      MismatchStays(c, files, front, i);
    }
  }

  lemma {:induction false} MissingStays(c: Codec, files: Files, entries: seq<Entry>, i: nat)
    requires i < |entries| && LoadEntries(c, files, entries[..i + 1]).None?
    ensures LoadEntries(c, files, entries).None?
    decreases |entries|
  {
    if i == |entries| - 1 {
      assert entries[..i + 1] == entries;
    } else {
      var front := entries[..|entries| - 1];
      assert front[..i + 1] == entries[..i + 1];
      MissingStays(c, files, front, i);
    }
  }

  // ---------------------------------------------------------------------
  // Crash consistency

  // Two file systems the loader cannot tell apart for pointer p.
  ghost predicate SameFor(a: Files, b: Files, g: string) {
    && Looks(a, b, Current) && Looks(a, b, IndexOf(g)) && Looks(a, b, JsonlOf(g))
    && forall path :: Looks(a, b, RecordAt(path))
  }

  predicate Looks(a: Files, b: Files, place: Place) {
    (place in a <==> place in b) && (place in a ==> a[place] == b[place])
  }

  lemma {:induction false} SameEntries(c: Codec, a: Files, b: Files, entries: seq<Entry>)
    requires forall path :: Looks(a, b, RecordAt(path))
    ensures LoadEntries(c, a, entries) == LoadEntries(c, b, entries)
  {
    if entries == [] {
    } else {
      SameEntries(c, a, b, entries[..|entries| - 1]);
      assert Looks(a, b, RecordAt(entries[|entries| - 1].record));
    }
  }

  lemma SameLoad(c: Codec, a: Files, b: Files)
    requires Looks(a, b, Current)
    requires Current in a && c.parsePointer(a[Current]).Some? ==>
      SameFor(a, b, c.parsePointer(a[Current]).value.generation)
    ensures Load(c, a) == Load(c, b)
  {
    if Current in a && c.parsePointer(a[Current]).Some? {
      var p := c.parsePointer(a[Current]).value;
      assert SameFor(a, b, p.generation);
      if IndexOf(p.generation) in a && c.parseIndex(a[IndexOf(p.generation)]).Some? {
        SameEntries(c, a, b, c.parseIndex(a[IndexOf(p.generation)]).value.entries);
      }
    }
  }

  // Steps that leave pointer, records and all other generations alone.
  predicate Aside(step: Step, g: string) {
    match step
    case Save(place, _) => place.Temporary?
    case Rename(from, to) => from.Temporary? && (to == IndexOf(g) || to == JsonlOf(g))
  }

  lemma {:induction false} AsideIsInvisible(files: Files, steps: seq<Step>, g: string, other: string)
    requires forall i :: 0 <= i < |steps| ==> Aside(steps[i], g)
    requires other != g
    ensures SameFor(files, ApplyAll(files, steps), other)
  {
    if steps == [] {
    } else {
      AsideIsInvisible(files, steps[..|steps| - 1], g, other);
      assert Aside(steps[|steps| - 1], g);
    }
  }

  lemma PlanGoesAside(c: Codec, files: Files, g: string, rows: seq<Record>, torn: Bytes, i: nat)
    requires i < |Plan(c, files, g, rows, torn)| && i != 8
    ensures Aside(Plan(c, files, g, rows, torn)[i], g)
  {
  }

  // A new generation: no file of it exists, and the pointer does not name it.
  predicate NewGeneration(c: Codec, files: Files, g: string) {
    && GenerationName(g) && IndexOf(g) !in files && JsonlOf(g) !in files
    && (Current in files ==>
          var p := c.parsePointer(files[Current]); p.Some? ==> p.value.generation != g)
  }

  // Dying after any step but the last, the loader still returns exactly what
  // it returned before.
  lemma StoppedEarlyChangesNothing(c: Codec, files: Files, g: string, rows: seq<Record>, torn: Bytes, n: nat)
    requires NewGeneration(c, files, g) && n <= |Plan(c, files, g, rows, torn)| && n < 9
    ensures Load(c, ApplyAll(files, Plan(c, files, g, rows, torn)[..n])) == Load(c, files)
  {
    var steps := Plan(c, files, g, rows, torn)[..n];
    hide Plan, Load, GenerationName;
    forall i | 0 <= i < n ensures Aside(steps[i], g) {
      PlanGoesAside(c, files, g, rows, torn, i);
    }
    var now := ApplyAll(files, steps);
    forall other | other != g ensures SameFor(files, now, other) {
      AsideIsInvisible(files, steps, g, other);
    }
    CurrentUntouched(files, steps, g);
    SameLoad(c, files, now);
  }

  lemma {:induction false} CurrentUntouched(files: Files, steps: seq<Step>, g: string)
    requires forall i :: 0 <= i < |steps| ==> Aside(steps[i], g)
    ensures Looks(files, ApplyAll(files, steps), Current)
  {
    if steps == [] {
    } else {
      CurrentUntouched(files, steps[..|steps| - 1], g);
      assert Aside(steps[|steps| - 1], g);
    }
  }

  // ---------------------------------------------------------------------
  // Publication

  lemma {:induction false} RowsParse(c: Codec, rows: seq<Record>)
    requires Faithful(c)
    ensures ParseRows(c, RowLines(c, rows)) == Some(rows)
  {
    if rows == [] {
    } else {
      var n, lines := |rows| - 1, RowLines(c, rows);
      RowsParse(c, rows[..n]);
      assert lines[..n] == RowLines(c, rows[..n]) && lines[n] == c.row(rows[n]);
      assert c.parseRow(c.row(rows[n])) == Some(rows[n]) && c.row(rows[n]) != [];
      assert rows == rows[..n] + [rows[n]];
    }
  }

  // Every row's record file resolves to the path the loader reconstructs.
  predicate Spelled(c: Codec, rows: seq<Record>) {
    forall i :: 0 <= i < |rows| ==> c.relative(rows[i].artifactRoot) == RecordPath(rows[i].artifactRoot)
  }

  lemma {:induction false} EntriesLoad(c: Codec, before: Files, files: Files, rows: seq<Record>)
    requires Entries(c, before, rows).Some? && forall path :: Looks(before, files, RecordAt(path))
    ensures LoadEntries(c, files, Entries(c, before, rows).value) == if Spelled(c, rows) then Some(rows) else None
  {
    if rows == [] {
    } else {
      var n := |rows| - 1;
      var front, row := rows[..n], rows[n];
      EntriesLoad(c, before, files, front);
      hide LoadEntry, Printable;
      var entries := Entries(c, before, rows).value;
      assert entries[..|entries| - 1] == Entries(c, before, front).value;
      assert Spelled(c, rows) <==> Spelled(c, front) && c.relative(row.artifactRoot) == RecordPath(row.artifactRoot);
      assert rows == front + [row];
      LastLoads(c, before, files, row);
    }
  }

  lemma LastLoads(c: Codec, before: Files, files: Files, row: Record)
    requires forall path :: Looks(before, files, RecordAt(path))
    requires var path := RecordAt(c.relative(row.artifactRoot));
      path in before && c.parseRow(before[path]) == Some(row)
    ensures var path := c.relative(row.artifactRoot);
      LoadEntry(c, files, Entry(row.startId, path, c.sha(before[RecordAt(path)])))
      == if path == RecordPath(row.artifactRoot) then Some(row) else None
  {
    assert Looks(before, files, RecordAt(c.relative(row.artifactRoot)));
  }

  lemma AtomicApplies(files: Files, k: nat, to: Place, bytes: Bytes, torn: Bytes)
    requires to != Temporary(k)
    ensures ApplyAll(files, Atomic(k, to, bytes, torn)) == files[to := bytes] - {Temporary(k)}
  {
    var steps := Atomic(k, to, bytes, torn);
    assert steps[..2][..1] == steps[..1] && steps[..1][..0] == [];
    assert ApplyAll(files, steps[..1]) == files[Temporary(k) := torn];
    assert ApplyAll(files, steps[..2]) == files[Temporary(k) := bytes];
  }

  lemma {:induction false} ApplySplit(files: Files, a: seq<Step>, b: seq<Step>)
    ensures ApplyAll(files, a + b) == ApplyAll(ApplyAll(files, a), b)
  {
    if b == [] {
      assert a + b == a;
    } else {
      var n := |b| - 1;
      ApplySplit(files, a, b[..n]);
      assert (a + b)[..|a + b| - 1] == a + b[..n];
    }
  }

  lemma PlanApplied(c: Codec, files: Files, g: string, rows: seq<Record>, torn: Bytes)
    requires Entries(c, files, rows).Some?
    ensures var entries, now := Entries(c, files, rows).value, ApplyAll(files, Plan(c, files, g, rows, torn));
      && Current in now && now[Current] == PointerBytes(c, g, rows, entries)
      && IndexOf(g) in now && now[IndexOf(g)] == IndexBytes(c, rows, entries)
      && JsonlOf(g) in now && now[JsonlOf(g)] == Jsonl(c, rows)
      && forall path :: Looks(files, now, RecordAt(path))
  {
    var entries := Entries(c, files, rows).value;
    ThreePlaced(files, g, Jsonl(c, rows), IndexBytes(c, rows, entries), PointerBytes(c, g, rows, entries), torn);
    hide Atomic, ApplyAll, Jsonl, IndexBytes, PointerBytes;
  }

  lemma ThreePlaced(files: Files, g: string, jsonl: Bytes, index: Bytes, pointer: Bytes, torn: Bytes)
    ensures var plan := Atomic(0, JsonlOf(g), jsonl, torn) + Atomic(1, IndexOf(g), index, torn)
                        + Atomic(2, Current, pointer, torn);
      ApplyAll(files, plan)
      == ((files[JsonlOf(g) := jsonl] - {Temporary(0)})[IndexOf(g) := index] - {Temporary(1)})[Current := pointer]
         - {Temporary(2)}
  {
    hide Atomic, ApplyAll;
    var one, two, three := Atomic(0, JsonlOf(g), jsonl, torn), Atomic(1, IndexOf(g), index, torn),
                           Atomic(2, Current, pointer, torn);
    ApplySplit(files, one + two, three);
    ApplySplit(files, one, two);
    AtomicApplies(files, 0, JsonlOf(g), jsonl, torn);
    var after := files[JsonlOf(g) := jsonl] - {Temporary(0)};
    AtomicApplies(after, 1, IndexOf(g), index, torn);
    AtomicApplies(after[IndexOf(g) := index] - {Temporary(1)}, 2, Current, pointer, torn);
  }

  // After the last step the loader returns exactly the written list, in order,
  // provided the artifact roots are spelled the way the loader spells them;
  // otherwise it refuses the generation it was just given.
  lemma PublishedIsLoaded(c: Codec, files: Files, g: string, rows: seq<Record>, torn: Bytes)
    requires Faithful(c) && GenerationName(g) && Entries(c, files, rows).Some?
    ensures Load(c, ApplyAll(files, Plan(c, files, g, rows, torn))) == if Spelled(c, rows) then Some(rows) else None
  {
    var entries, now := Entries(c, files, rows).value, ApplyAll(files, Plan(c, files, g, rows, torn));
    PlanApplied(c, files, g, rows, torn);
    EntriesLoad(c, files, now, rows);
    hide Plan, ApplyAll, GenerationName, Spelled, Entries, LoadEntries;
    var index := Index(c.sha(Jsonl(c, rows)), entries);
    var pointer := Pointer(g, c.sha(IndexBytes(c, rows, entries)));
    assert c.parsePointer(c.pointer(pointer) + [LF]) == Some(pointer);
    assert c.parseIndex(c.index(index) + [LF]) == Some(index);
    JsonlReadsBack(c, rows);
    hide Jsonl, ParseRows, SplitLines, Faithful;
  }

  // A record whose artifact root does not print back as it resolves: its file
  // lies where the root resolves to, it is published, and cannot be loaded.
  lemma OddRootIsPublishedInVain(c: Codec, files: Files, g: string, row: Record, torn: Bytes)
    requires Faithful(c) && GenerationName(g) && c.relative(row.artifactRoot) != RecordPath(row.artifactRoot)
    ensures var before := files[RecordAt(c.relative(row.artifactRoot)) := c.row(row)];
      && Entries(c, before, [row]).Some?
      && Load(c, ApplyAll(before, Plan(c, before, g, [row], torn))) == None
  {
    var before := files[RecordAt(c.relative(row.artifactRoot)) := c.row(row)];
    assert [row][..0] == [];
    assert c.parseRow(c.row(row)) == Some(row);
    assert Entries(c, before, [row]).Some?;
    hide Load, Plan, ApplyAll, Entries;
    PublishedIsLoaded(c, before, g, [row], torn);
    assert !Spelled(c, [row]);
  }

  lemma JsonlReadsBack(c: Codec, rows: seq<Record>)
    requires Faithful(c)
    ensures ParseRows(c, SplitLines(Jsonl(c, rows))) == Some(rows)
  {
    hide ParseRows, SplitLines, Frame;
    forall i | 0 <= i < |rows| ensures Printable(RowLines(c, rows)[i]) {
      assert Printable(c.row(rows[i]));
    }
    SplitFrame(RowLines(c, rows));
    RowsParse(c, rows);
  }
}
