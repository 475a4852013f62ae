/**
 The client's delivery trace: worker threads append under one lock, a reader
 follows the chain. Unlike the other journals, the client advances its sequence
 number before it writes.
 */
module ClientTrace {
  import opened Wrappers
  import opened JournalBytes
  import opened HashChain
  import opened LoopbackAuthority

  datatype ClientDetail =
    | ClientStart(startId: string, specSha: Digest, anchor: int)
    | RequestStart(requestId: string, scheduled: int, sent: int, deadline: int, body: Bytes, bodySha: Digest)
    | RequestFinish(requestId: string, status: int, admissionId: Option<string>, body: Bytes, bodySha: Digest,
                    finished: int)
    | ClientStop(count: int)

  datatype ClientRecord = ClientRecord(ns: int, client: Process, detail: ClientDetail)

  type ClientLinks = seq<Link<ClientRecord>>

  const MOST_BYTES: nat := 64 * 1024 * 1024

  // ---------------------------------------------------------------------
  // The reader

  // Event i as the reader wants it: one client, time moving strictly forward.
  predicate InTime(links: ClientLinks, i: nat)
    requires i < |links|
  {
    && links[i].payload.client == links[0].payload.client
    && (if i == 0 then 0 else links[i - 1].payload.ns) < links[i].payload.ns
  }

  predicate AllInTime(links: ClientLinks) {
    forall i :: 0 <= i < |links| ==> InTime(links, i)
  }

  predicate EndsLine(data: Bytes) {
    data != [] && data[|data| - 1] == LF
  }

  function ReadClient(f: Format<ClientRecord>, data: Bytes): Option<ClientLinks> {
    if |data| > MOST_BYTES || !EndsLine(data) then None else
    var links := Decode(f, SplitLines(data));
    if links.None? || !AllInTime(links.value) then None else links
  }

  method ReadClientTrace(f: Format<ClientRecord>, data: Bytes) returns (events: Option<ClientLinks>)
    ensures events == ReadClient(f, data)
  {
    if |data| > MOST_BYTES || !EndsLine(data) {
      return None;
    }
    var lines := SplitLines(data);
    var previous, lastNs := f.zero, 0;
    var links: ClientLinks := [];
    var owner: Option<Process> := None;
    assert lines[..0] == [];
    for i := 0 to |lines|
      invariant |links| == i && Decode(f, lines[..i]) == Some(links)
      invariant previous == Tip(f, links) && AllInTime(links)
      invariant lastNs == if i == 0 then 0 else links[i - 1].payload.ns
      invariant owner == if i == 0 then None else Some(links[0].payload.client)
    {
      DecodeStep(f, lines, i, links);
      DecodePrefix(f, lines, i + 1);
      var link := f.parse(lines[i]);
      if link.None? || f.line(link.value) != lines[i]
         || link.value.sequence != f.base + i || link.value.previous != previous {
        return None;
      }
      if owner.None? {
        owner := Some(link.value.payload.client);
      }
      ghost var longer := links + [link.value];
      if link.value.payload.client != owner.value || link.value.payload.ns <= lastNs {
        assert !InTime(longer, i);
        LateStays(f, lines, i, longer);
        return None;
      }
      StillInTime(links, link.value);
      links := links + [link.value];
      previous := f.DigestOf(link.value);
      lastNs := link.value.payload.ns;
    }
    assert lines[..|lines|] == lines;
    return Some(links);
  }

  lemma StillInTime(links: ClientLinks, link: Link<ClientRecord>)
    requires AllInTime(links) && InTime(links + [link], |links|)
    ensures AllInTime(links + [link])
  {
    var longer := links + [link];
    forall i | 0 <= i < |longer| ensures InTime(longer, i) {
      if i < |links| {
        assert InTime(links, i);
      }
    }
  }

  lemma LateStays(f: Format<ClientRecord>, lines: seq<Bytes>, i: nat, longer: ClientLinks)
    requires i < |lines| && Decode(f, lines[..i + 1]) == Some(longer) && |longer| == i + 1 && !InTime(longer, i)
    ensures Decode(f, lines).None? || !AllInTime(Decode(f, lines).value)
  {
    DecodePrefix(f, lines, i + 1);
    hide Decode;
    if Decode(f, lines).Some? {
      var all := Decode(f, lines).value;
      assert all[..i + 1] == longer;
      assert all[i] == longer[i] && all[0] == longer[0] && (i > 0 ==> all[i - 1] == longer[i - 1]);
      assert !InTime(all, i);
    }
  }

  // ---------------------------------------------------------------------
  // The writer

  datatype Trace = Trace(
    file: Bytes, links: ClientLinks, sequence: nat, previous: Digest, intact: bool)

  datatype Entry = Entry(client: Process, detail: ClientDetail, io: Io)

  function NextRecord(f: Format<ClientRecord>, t: Trace, e: Entry): Link<ClientRecord> {
    Link(t.sequence + 1, t.previous, ClientRecord(e.io.now, e.client, e.detail))
  }

  function RecordEntry(f: Format<ClientRecord>, t: Trace, e: Entry): (Trace, bool) {
    var link := NextRecord(f, t, e);
    var data := f.line(link) + [LF];
    var landed := Landed(|data|, e.io.writes);
    var file := t.file + data[..landed];
    if Persisted(|data|, e.io)
    then (Trace(file, t.links + [link], t.sequence + 1, f.DigestOf(link), t.intact), true)
    else (Trace(file, t.links, t.sequence + 1, t.previous, t.intact && landed == 0), false)
  }

  function Written(f: Format<ClientRecord>, entries: seq<Entry>): (Trace, seq<bool>) {
    if entries == [] then (Trace([], [], 0, f.zero, true), []) else
    var (before, oks) := Written(f, entries[..|entries| - 1]);
    var (after, ok) := RecordEntry(f, before, entries[|entries| - 1]);
    (after, oks + [ok])
  }

  class ClientJournal {
    const format: Format<ClientRecord>
    const client: Process
    var file: Bytes
    var sequence: nat
    var previous: Digest
    ghost var links: ClientLinks
    ghost var intact: bool

    ghost function View(): Trace
      reads this
    {
      Trace(file, links, sequence, previous, intact)
    }

    constructor (format: Format<ClientRecord>, client: Process)
      ensures this.format == format && this.client == client && View() == Written(format, []).0
    {
      this.format, this.client := format, client;
      file, sequence, previous, links, intact := [], 0, format.zero, [], true;
    }

    // The number is taken before the write, and kept when the write fails.
    method Record(detail: ClientDetail, io: Io) returns (ok: bool)
      modifies this
      ensures (View(), ok) == RecordEntry(format, old(View()), Entry(client, detail, io))
    {
      sequence := sequence + 1;
      var link := Link(sequence, previous, ClientRecord(io.now, client, detail));
      var data := format.line(link) + [LF];
      var stalled;
      file, ok, stalled := WriteAll(file, data, io);
      if !ok {
        intact := intact && Landed(|data|, io.writes) == 0;
        return false;
      }
      previous := format.sha(format.core(link));
      links := links + [link];
    }
  }

  // ---------------------------------------------------------------------
  // What the reader makes of what the writer wrote

  // No record went through after one had failed.
  predicate FailuresLast(oks: seq<bool>) {
    forall i, k :: 0 <= i < k < |oks| && !oks[i] ==> !oks[k]
  }

  ghost predicate SameClient(entries: seq<Entry>) {
    forall i :: 0 <= i < |entries| ==> entries[i].client == entries[0].client
  }

  ghost predicate Ticking(entries: seq<Entry>) {
    && (forall i :: 0 <= i < |entries| ==> 0 < entries[i].io.now)
    && (forall i, k :: 0 <= i < k < |entries| ==> entries[i].io.now < entries[k].io.now)
  }

  // Facts about any trace, whatever failed.
  ghost predicate TraceOk(f: Format<ClientRecord>, entries: seq<Entry>) {
    var (t, oks) := Written(f, entries);
    && t.sequence == |entries| == |oks| && |t.links| <= |entries|
    && t.previous == Tip(f, t.links)
    && (t.intact ==> t.file == Frame(LinesOf(f, t.links)))
    && (FailuresLast(oks) ==> ChainedFrom(f, t.links))
    && (!FailuresLast(oks) ==> !ChainedFrom(f, t.links))
    && (false in oks <==> |t.links| < |entries|)
  }

  // The client counts from one.
  ghost predicate ChainedFrom(f: Format<ClientRecord>, links: ClientLinks) {
    f.base == 1 && Chained(f, links)
  }

  lemma FailuresLastSnoc(oks: seq<bool>, ok: bool)
    ensures FailuresLast(oks + [ok]) <==> FailuresLast(oks) && (ok ==> false !in oks)
  {
    var longer := oks + [ok];
    assert forall i :: 0 <= i < |oks| ==> longer[i] == oks[i];
    if FailuresLast(longer) && ok {
      forall i | 0 <= i < |oks| ensures oks[i] {
        assert longer[i] == oks[i] && longer[|oks|];
      }
    }
  }

  lemma {:induction false} WrittenOk(f: Format<ClientRecord>, entries: seq<Entry>)
    requires f.base == 1
    ensures TraceOk(f, entries)
  {
    if entries != [] {
      var n := |entries| - 1;
      WrittenOk(f, entries[..n]);
      StepOk(f, entries);
    } else {
      var none: ClientLinks := [];
      assert LinesOf(f, none) == [];
    }
  }

  lemma StepOk(f: Format<ClientRecord>, entries: seq<Entry>)
    requires f.base == 1 && entries != [] && TraceOk(f, entries[..|entries| - 1])
    ensures TraceOk(f, entries)
  {
    var n := |entries| - 1;
    var (t, oks) := Written(f, entries[..n]);
    var (after, ok) := RecordEntry(f, t, entries[n]);
    assert Written(f, entries) == (after, oks + [ok]);
    hide Written;
    FailuresLastSnoc(oks, ok);
    hide FailuresLast;
    if ok {
      GoodStep(f, t, entries[n]);
    } else {
      LostStep(f, t, entries[n]);
    }
  }

  lemma LostStep(f: Format<ClientRecord>, t: Trace, e: Entry)
    requires !RecordEntry(f, t, e).1
    ensures RecordEntry(f, t, e).0.links == t.links
    ensures RecordEntry(f, t, e).0.intact ==> t.intact && RecordEntry(f, t, e).0.file == t.file
  {
    assert t.file + (f.line(NextRecord(f, t, e)) + [LF])[..0] == t.file;
  }

  // A record that goes through continues the chain only if none failed before.
  lemma GoodStep(f: Format<ClientRecord>, t: Trace, e: Entry)
    requires f.base == 1 && RecordEntry(f, t, e).1 && t.previous == Tip(f, t.links)
    ensures var u := RecordEntry(f, t, e).0;
      && (t.intact && t.file == Frame(LinesOf(f, t.links)) ==> u.file == Frame(LinesOf(f, u.links)))
      && u.previous == Tip(f, u.links)
      && (Chained(f, u.links) <==> Chained(f, t.links) && |t.links| == t.sequence)
  {
    var link := NextRecord(f, t, e);
    var data, longer := f.line(link) + [LF], t.links + [link];
    assert data[..|data|] == data;
    LinesOfExtend(f, t.links, link);
    BrokenStays(f, t.links, link);
    hide Frame, LinesOf;
    if |t.links| == t.sequence {
      assert link == NextLink(f, t.links, link.payload);
      if Chained(f, t.links) {
        ChainedExtend(f, t.links, link.payload);
      }
    } else {
      assert longer[|t.links|] == link && !InPlace(f, longer, |t.links|);
    }
  }

  lemma BrokenStays(f: Format<ClientRecord>, links: ClientLinks, link: Link<ClientRecord>)
    ensures Chained(f, links + [link]) ==> Chained(f, links)
  {
    if Chained(f, links + [link]) {
      ChainedPrefix(f, links + [link], |links|);
      assert (links + [link])[..|links|] == links;
    }
  }

  // Lines that decode are a chain.
  lemma {:induction false} DecodedLinksAreChained(f: Format<ClientRecord>, links: ClientLinks)
    requires Lawful(f) && Decode(f, LinesOf(f, links)).Some?
    ensures Chained(f, links) && Decode(f, LinesOf(f, links)).value == links
  {
    var lines := LinesOf(f, links);
    DecodedIsChained(f, lines);
    var read := Decode(f, lines).value;
    forall i | 0 <= i < |links| ensures read[i] == links[i] {
      assert f.line(read[i]) == LinesOf(f, read)[i] == f.line(links[i]);
      assert f.parse(f.line(read[i])) == Some(read[i]) && f.parse(f.line(links[i])) == Some(links[i]);
    }
    hide Decode, Chained, LinesOf;
    assert read == links;
  }

  // Records come from entries, in order.
  ghost predicate FromEntries(links: ClientLinks, entries: seq<Entry>)
    requires entries != []
  {
    && (forall i :: 0 <= i < |links| ==> links[i].payload.client == entries[0].client && 0 < links[i].payload.ns)
    && (forall i, k :: 0 <= i < k < |links| ==> links[i].payload.ns < links[k].payload.ns)
    && (links != [] ==> links[|links| - 1].payload.ns <= entries[|entries| - 1].io.now)
  }

  lemma RecordFromEntries(links: ClientLinks, link: Link<ClientRecord>, front: seq<Entry>, e: Entry)
    requires front != [] && FromEntries(links, front) && front[|front| - 1].io.now < e.io.now
    requires link.payload.ns == e.io.now && link.payload.client == front[0].client && 0 < e.io.now
    ensures FromEntries(links, front + [e]) && FromEntries(links + [link], front + [e])
  {
  }

  lemma {:induction false} WrittenInTime(f: Format<ClientRecord>, entries: seq<Entry>)
    requires entries != [] && SameClient(entries) && Ticking(entries)
    ensures FromEntries(Written(f, entries).0.links, entries)
  {
    var n := |entries| - 1;
    var front := entries[..n];
    if n > 0 {
      WrittenInTime(f, front);
      assert entries[n - 1].io.now < entries[n].io.now;
      LastClient(entries);
      hide Ticking, SameClient, FromEntries, Landed;
      assert entries == front + [entries[n]];
      var t := Written(f, front).0;
      RecordFromEntries(t.links, NextRecord(f, t, entries[n]), front, entries[n]);
    } else {
      assert front == [];
    }
  }

  lemma LastClient(entries: seq<Entry>)
    requires entries != [] && SameClient(entries)
    ensures entries[|entries| - 1].client == entries[0].client
  {
  }

  // An untorn trace of one process under a forward clock is accepted, as
  // exactly its records, if and only if no record was written after another
  // had failed: a later success leaves a hole in the sequence.
  lemma ClientTraceIsReadable(f: Format<ClientRecord>, entries: seq<Entry>)
    requires Lawful(f) && f.base == 1 && entries != [] && SameClient(entries) && Ticking(entries)
    requires var t := Written(f, entries).0;
      t.intact && t.links != [] && |t.file| <= MOST_BYTES
    ensures var (t, oks) := Written(f, entries);
      ReadClient(f, t.file) == if FailuresLast(oks) then Some(t.links) else None
  {
    var (t, oks) := Written(f, entries);
    WrittenOk(f, entries);
    WrittenInTime(f, entries);
    TimesAreFine(t.links, entries);
    hide Written, FailuresLast, Ticking, SameClient, FromEntries, Chained, AllInTime;
    FramedDecode(f, t.links);
  }

  // One record is lost, the next one goes through: the reader refuses what the
  // client has written, however well it went before.
  lemma LostThenGoodIsRefused(f: Format<ClientRecord>, entries: seq<Entry>, lost: Entry, good: Entry)
    requires Lawful(f) && f.base == 1 && SameClient(entries + [lost, good]) && Ticking(entries + [lost, good])
    requires Written(f, entries).0.intact && lost.io.writes == []
    requires RecordEntry(f, Written(f, entries + [lost]).0, good).1
    requires |Written(f, entries + [lost, good]).0.file| <= MOST_BYTES
    ensures ReadClient(f, Written(f, entries + [lost, good]).0.file) == None
  {
    var all := entries + [lost, good];
    assert all[..|all| - 1] == entries + [lost] && (entries + [lost])[..|entries|] == entries;
    var oks := Written(f, all).1;
    WrittenOk(f, entries);
    assert !oks[|entries|] && oks[|entries| + 1];
    hide Decode, SplitLines, Ticking, SameClient;
    ClientTraceIsReadable(f, all);
  }

  // A framed list of records decodes exactly when it is a chain.
  lemma FramedDecode(f: Format<ClientRecord>, links: ClientLinks)
    requires Lawful(f) && links != []
    ensures Decode(f, SplitLines(Frame(LinesOf(f, links)))) == if Chained(f, links) then Some(links) else None
    ensures EndsLine(Frame(LinesOf(f, links)))
  {
    hide Decode, Chained;
    SplitFrame(LinesOf(f, links));
    FrameEndsInBreak(LinesOf(f, links));
    hide Frame, SplitLines, LinesOf;
    if Chained(f, links) {
      DecodeChained(f, links);
    } else if Decode(f, LinesOf(f, links)).Some? {
      DecodedLinksAreChained(f, links);
    }
  }

  lemma TimesAreFine(links: ClientLinks, entries: seq<Entry>)
    requires entries != [] && FromEntries(links, entries)
    ensures AllInTime(links)
  {
    forall i | 0 <= i < |links| ensures InTime(links, i) {
      if i > 0 {
        assert links[i - 1].payload.ns < links[i].payload.ns;
      }
    }
  }
}
