/** Which stores the loader takes a list of records from, and which lists can be published. */
module ManifestExact {
  import opened Wrappers
  import opened JournalBytes
  import opened Manifest

  predicate Holds(files: Files, place: Place, bytes: Bytes) {
    place in files && files[place] == bytes
  }

  // Entry e indexes this record: its file is where the record's artifact root
  // says, with the indexed digest, and parses to it.
  ghost predicate Indexes(c: Codec, files: Files, e: Entry, r: Record) {
    && e.startId == r.startId && e.record == r.artifactRoot + "/record.json"
    && exists bytes ::
         Holds(files, RecordAt(e.record), bytes) && c.sha(bytes) == e.digest && c.parseRow(bytes) == Some(r)
  }

  // The current file leads to a generation and the digest of its index, the
  // index to the digest of the list and of each record.
  ghost predicate Stores(c: Codec, files: Files, p: Pointer, x: Index, records: seq<Record>) {
    && Holds(files, Current, c.pointer(p) + [LF])
    && |p.generation| == 32 && (forall d :: d in p.generation ==> '0' <= d <= '9' || 'a' <= d <= 'f')
    && Holds(files, IndexOf(p.generation), c.index(x) + [LF]) && c.sha(c.index(x) + [LF]) == p.indexDigest
    && Holds(files, JsonlOf(p.generation), Jsonl(c, records)) && c.sha(Jsonl(c, records)) == x.jsonlDigest
    && |x.entries| == |records| && forall i :: 0 <= i < |records| ==> Indexes(c, files, x.entries[i], records[i])
  }

  lemma IndexesTells(c: Codec, files: Files, e: Entry, r: Record)
    ensures LoadEntry(c, files, e) == Some(r) <==> Indexes(c, files, e, r)
  {
    if LoadEntry(c, files, e) == Some(r) {
      assert Holds(files, RecordAt(e.record), files[RecordAt(e.record)]);
    }
  }

  lemma {:induction false} EntriesTell(c: Codec, files: Files, entries: seq<Entry>, records: seq<Record>)
    ensures LoadEntries(c, files, entries) == Some(records) <==>
      |entries| == |records| && forall i :: 0 <= i < |records| ==> Indexes(c, files, entries[i], records[i])
  {
    hide Indexes;
    if entries == [] || records == [] {
      LoadedLength(c, files, entries);
    } else {
      var n, m := |entries| - 1, |records| - 1;
      EntriesTell(c, files, entries[..n], records[..m]);
      IndexesTells(c, files, entries[n], records[m]);
      LoadedLength(c, files, entries[..n]);
      assert records == records[..m] + [records[m]];
      hide LoadEntry;
    }
  }

  lemma {:induction false} LoadedLength(c: Codec, files: Files, entries: seq<Entry>)
    ensures LoadEntries(c, files, entries).Some? ==> |LoadEntries(c, files, entries).value| == |entries|
  {
    hide LoadEntry;
    if entries == [] {
    } else {
      LoadedLength(c, files, entries[..|entries| - 1]);
    }
  }

  lemma HexTells(g: string)
    ensures GenerationName(g) <==> |g| == 32 && forall d :: d in g ==> '0' <= d <= '9' || 'a' <= d <= 'f'
  {
    if forall d :: d in g ==> '0' <= d <= '9' || 'a' <= d <= 'f' {
      assert forall i :: 0 <= i < |g| ==> g[i] in g;
    }
  }

  // The loader returns exactly the stored list.
  lemma LoadsExactly(c: Codec, files: Files, records: seq<Record>)
    requires Faithful(c)
    ensures Load(c, files) == Some(records) <==> exists p, x :: Stores(c, files, p, x, records)
  {
    if Load(c, files) == Some(records) {
      var p := c.parsePointer(files[Current]).value;
      var x := c.parseIndex(files[IndexOf(p.generation)]).value;
      HexTells(p.generation);
      EntriesTell(c, files, x.entries, records);
      hide GenerationName, LoadEntries, Indexes, ParseRows, SplitLines, Jsonl, Faithful;
      assert Stores(c, files, p, x, records);
    }
    forall p, x | Stores(c, files, p, x, records) ensures Load(c, files) == Some(records) {
      HexTells(p.generation);
      EntriesTell(c, files, x.entries, records);
      JsonlReadsBack(c, records);
      assert c.parsePointer(c.pointer(p) + [LF]) == Some(p) && c.parseIndex(c.index(x) + [LF]) == Some(x);
      hide GenerationName, LoadEntries, Indexes, ParseRows, SplitLines, Jsonl, Faithful;
    }
  }

  // A list is indexed, and so published, exactly when each row's record file
  // is where the row's artifact root resolves to, and parses to the row.
  lemma {:induction false} IndexedExactly(c: Codec, files: Files, rows: seq<Record>)
    ensures Entries(c, files, rows).Some? <==> forall i :: 0 <= i < |rows| ==>
      Stored(c, files, c.relative(rows[i].artifactRoot), rows[i])
  {
    if rows == [] {
    } else {
      var n := |rows| - 1;
      IndexedExactly(c, files, rows[..n]);
      assert forall i :: 0 <= i < n ==> rows[..n][i] == rows[i];
    }
  }

  predicate Stored(c: Codec, files: Files, path: string, r: Record) {
    RecordAt(path) in files && c.parseRow(files[RecordAt(path)]) == Some(r)
  }
}
