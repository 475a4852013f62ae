/**
 Hash-chained journals: every record names its position and the digest of the
 record before it. The digest and the canonical encoding are parameters, so
 every statement holds for whatever hash and encoder the program uses, and
 tamper evidence is stated as "equal, or here are two colliding inputs".
 */
module HashChain {
  import opened Wrappers
  import opened JournalBytes

  datatype Link<+P> = Link(sequence: int, previous: Digest, payload: P)

  // `core` is what gets hashed, `line` what gets written; they differ only for
  // a journal whose records also carry their own digest.
  datatype Format<!P> = Format(
    base: nat,
    zero: Digest,
    core: Link<P> -> Bytes,
    line: Link<P> -> Bytes,
    parse: Bytes -> Option<Link<P>>,
    sha: Bytes -> Digest)
  {
    function DigestOf(link: Link<P>): Digest {
      sha(core(link))
    }
  }

  // Canonical JSON: injective, one printable line per record, parsed back.
  ghost predicate Lawful<P(!new)>(f: Format<P>) {
    && (forall l :: f.parse(f.line(l)) == Some(l))
    && (forall l :: Printable(f.line(l)))
    && (forall l, m :: f.core(l) == f.core(m) ==> l == m)
  }

  function Tip<P>(f: Format<P>, links: seq<Link<P>>): Digest {
    if links == [] then f.zero else f.DigestOf(links[|links| - 1])
  }

  function NextLink<P>(f: Format<P>, links: seq<Link<P>>, payload: P): Link<P> {
    Link(f.base + |links|, Tip(f, links), payload)
  }

  // Link i names its position and the digest of what precedes it.
  ghost predicate InPlace<P>(f: Format<P>, links: seq<Link<P>>, i: nat)
    requires i < |links|
  {
    links[i].sequence == f.base + i && links[i].previous == Tip(f, links[..i])
  }

  ghost predicate Chained<P>(f: Format<P>, links: seq<Link<P>>) {
    forall i :: 0 <= i < |links| ==> InPlace(f, links, i)
  }

  function LinesOf<P>(f: Format<P>, links: seq<Link<P>>): (lines: seq<Bytes>)
    ensures |lines| == |links|
    ensures forall i :: 0 <= i < |links| ==> lines[i] == f.line(links[i])
  {
    seq(|links|, i requires 0 <= i < |links| => f.line(links[i]))
  }

  lemma ChainedPrefix<P>(f: Format<P>, links: seq<Link<P>>, n: nat)
    requires Chained(f, links) && n <= |links|
    ensures Chained(f, links[..n])
  {
    forall i | 0 <= i < n ensures InPlace(f, links[..n], i) {
      assert InPlace(f, links, i) && links[..n][..i] == links[..i];
    }
  }

  lemma ChainedExtend<P>(f: Format<P>, links: seq<Link<P>>, payload: P)
    requires Chained(f, links)
    ensures Chained(f, links + [NextLink(f, links, payload)])
  {
    var longer := links + [NextLink(f, links, payload)];
    forall i | 0 <= i < |longer| ensures InPlace(f, longer, i) {
      assert longer[..i] == links[..i];
      if i == |links| {
        assert links[..i] == links;
      } else {
        assert InPlace(f, links, i);
      }
    }
  }

  lemma SameFrontSameLast<T>(a: seq<T>, b: seq<T>)
    requires |a| == |b| > 0 && a[..|a| - 1] == b[..|b| - 1] && a[|a| - 1] == b[|b| - 1]
    ensures a == b
  {
    assert a == a[..|a| - 1] + [a[|a| - 1]] && b == b[..|b| - 1] + [b[|b| - 1]];
  }

  // Two chains of equal length with the same closing digest are the same
  // chain, or two different hashed byte strings share a digest.
  lemma {:induction false} SameTipSameChain<P(!new)>(f: Format<P>, a: seq<Link<P>>, b: seq<Link<P>>)
      returns (x: Bytes, y: Bytes)
    requires Lawful(f)
    requires Chained(f, a) && Chained(f, b)
    requires |a| == |b| && Tip(f, a) == Tip(f, b)
    ensures a == b || (x != y && f.sha(x) == f.sha(y))
  {
    x, y := [], [];
    if a == [] {
    } else {
      var n := |a| - 1;
      assert InPlace(f, a, n) && InPlace(f, b, n);
      if a[n] != b[n] {
        x, y := f.core(a[n]), f.core(b[n]);
      } else {
        ChainedPrefix(f, a, n);
        ChainedPrefix(f, b, n);
        x, y := SameTipSameChain(f, a[..n], b[..n]);
        if a[..n] == b[..n] {
          SameFrontSameLast(a, b);
        }
      }
    }
  }

  // The closing digest alone fixes a non-empty chain: the hashed record names
  // its own position, so even the lengths agree.
  lemma TipFixesChain<P(!new)>(f: Format<P>, a: seq<Link<P>>, b: seq<Link<P>>)
      returns (x: Bytes, y: Bytes)
    requires Lawful(f)
    requires Chained(f, a) && Chained(f, b)
    requires a != [] && b != [] && Tip(f, a) == Tip(f, b)
    ensures a == b || (x != y && f.sha(x) == f.sha(y))
  {
    var last, other := a[|a| - 1], b[|b| - 1];
    if last != other {
      x, y := f.core(last), f.core(other);
    } else {
      assert InPlace(f, a, |a| - 1) && InPlace(f, b, |b| - 1);
      x, y := SameTipSameChain(f, a, b);
    }
  }

  // ---------------------------------------------------------------------
  // The writer

  // What failed appends have left in the file besides the records: nothing;
  // one whole line at the end, whose sync failed; such a line and whole lines
  // behind it; the beginning of a line at the end, or somewhere before.
  datatype Disk<+P> = Intact | Unsynced(extra: Link<P>) | Doubled | Cut | Torn

  datatype Log<+P> = Log(file: Bytes, links: seq<Link<P>>, disk: Disk<P>)
  {
    // The whole lines of the file, where they are a chain.
    function OnDisk(): Option<seq<Link<P>>> {
      match disk
      case Intact => Some(links)
      case Unsynced(extra) => Some(links + [extra])
      case _ => None
    }
  }

  // `Full` is a refusal for lack of room, `Stalled` a write that made no
  // progress, `Failed` an operating-system error.
  datatype Appended = Done | Full | Stalled | Failed

  // The most bytes the file may hold; a journal without a bound has None.
  type Limit = Option<nat>

  predicate Fits(limit: Limit, size: nat, raw: nat) {
    limit.None? || size + raw + 1 <= limit.value
  }

  // What `landed` of the `len` bytes of a link's line make of a file.
  function Left<P>(disk: Disk<P>, link: Link<P>, landed: nat, len: nat, synced: bool): Disk<P> {
    if landed == 0 then disk
    else if landed < len then Cut
    else if disk.Intact? then (if synced then Intact else Unsynced(link))
    else if disk.Unsynced? || disk.Doubled? then Doubled
    else Torn
  }

  function Append<P>(f: Format<P>, limit: Limit, log: Log<P>, payload: P, io: Io): (Log<P>, Appended) {
    var link := NextLink(f, log.links, payload);
    var raw := f.line(link);
    if !Fits(limit, |log.file|, |raw|) then (log, Full) else
    var landed := Landed(|raw| + 1, io.writes);
    var file := log.file + (raw + [LF])[..landed];
    var disk := Left(log.disk, link, landed, |raw| + 1, io.synced);
    if Persisted(|raw| + 1, io) then (Log(file, log.links + [link], disk), Done)
    else (Log(file, log.links, disk), if Stalls(|raw| + 1, io.writes) then Stalled else Failed)
  }

  // The file is these lines, which are no chain.
  ghost predicate IsBroken<P(!new)>(f: Format<P>, file: Bytes) {
    exists all: seq<Link<P>> :: file == Frame(LinesOf(f, all)) && !Chained(f, all)
  }

  // The file ends with the first n bytes of this link's line.
  predicate EndsWith<P>(f: Format<P>, file: Bytes, link: Link<P>, n: nat) {
    0 < n <= |f.line(link)| && n <= |file| && file[|file| - n..] == f.line(link)[..n]
  }

  ghost predicate EndsWithin<P(!new)>(f: Format<P>, file: Bytes) {
    exists link: Link<P>, n: nat :: EndsWith(f, file, link, n)
  }

  ghost predicate FileOk<P(!new)>(f: Format<P>, log: Log<P>) {
    match log.disk
    case Intact => log.file == Frame(LinesOf(f, log.links))
    case Unsynced(extra) =>
      extra == NextLink(f, log.links, extra.payload) && log.file == Frame(LinesOf(f, log.links + [extra]))
    case Doubled => IsBroken(f, log.file)
    case Cut => EndsWithin(f, log.file)
    case Torn => true
  }

  ghost predicate LogOk<P(!new)>(f: Format<P>, limit: Limit, log: Log<P>) {
    && Chained(f, log.links)
    && FileOk(f, log)
    && (limit.Some? ==> |log.file| <= limit.value)
  }

  const EMPTY_FILE: Bytes := []

  lemma EmptyLogOk<P(!new)>(f: Format<P>, limit: Limit)
    ensures LogOk(f, limit, Log(EMPTY_FILE, [], Intact))
  {
    var none: seq<Link<P>> := [];
    assert LinesOf(f, none) == [];
  }

  lemma LinesOfExtend<P>(f: Format<P>, links: seq<Link<P>>, link: Link<P>)
    ensures LinesOf(f, links + [link]) == LinesOf(f, links) + [f.line(link)]
    ensures Frame(LinesOf(f, links + [link])) == Frame(LinesOf(f, links)) + f.line(link) + [LF]
  {
    var lines, longer := LinesOf(f, links), LinesOf(f, links + [link]);
    assert longer == lines + [f.line(link)];
    assert longer[..|longer| - 1] == lines;
  }

  // A line behind one that was not acknowledged repeats its number.
  lemma RepeatBreaks<P(!new)>(f: Format<P>, links: seq<Link<P>>, extra: Link<P>, link: Link<P>)
    requires extra.sequence == link.sequence == f.base + |links|
    ensures !Chained(f, links + [extra] + [link])
  {
    var all := links + [extra] + [link];
    assert all[|links| + 1] == link;
    assert !InPlace(f, all, |links| + 1);
  }

  lemma BrokenStays<P(!new)>(f: Format<P>, file: Bytes, link: Link<P>)
    requires IsBroken(f, file)
    ensures IsBroken(f, file + f.line(link) + [LF])
  {
    var all :| file == Frame(LinesOf(f, all)) && !Chained(f, all);
    hide Chained, Frame, LinesOf;
    LinesOfExtend(f, all, link);
    assert (all + [link])[..|all|] == all;
    if Chained(f, all + [link]) {
      ChainedPrefix(f, all + [link], |all|);
    }
  }

  // A whole line, acknowledged or not.
  lemma WholeLine<P(!new)>(f: Format<P>, log: Log<P>, payload: P, synced: bool)
    requires Chained(f, log.links) && FileOk(f, log)
    ensures var link := NextLink(f, log.links, payload);
      var raw := f.line(link);
      FileOk(f, Log(log.file + raw + [LF], if synced then log.links + [link] else log.links,
                    Left(log.disk, link, |raw| + 1, |raw| + 1, synced)))
  {
    var link := NextLink(f, log.links, payload);
    hide Chained, Frame, LinesOf, EndsWithin;
    if log.disk.Intact? {
      LinesOfExtend(f, log.links, link);
    } else if log.disk.Unsynced? {
      var all := log.links + [log.disk.extra];
      LinesOfExtend(f, all, link);
      RepeatBreaks(f, log.links, log.disk.extra, link);
      assert log.file + f.line(link) + [LF] == Frame(LinesOf(f, all + [link])) && !Chained(f, all + [link]);
    } else if log.disk.Doubled? {
      BrokenStays(f, log.file, link);
    }
  }

  // Whatever an append does, the chain, the size bound and what the file is
  // made of are kept.
  lemma AppendKeepsLog<P(!new)>(f: Format<P>, limit: Limit, log: Log<P>, payload: P, io: Io)
    requires LogOk(f, limit, log)
    ensures LogOk(f, limit, Append(f, limit, log, payload, io).0)
  {
    var link := NextLink(f, log.links, payload);
    var raw := f.line(link);
    var landed := Landed(|raw| + 1, io.writes);
    ChainedExtend(f, log.links, payload);
    hide Frame, LinesOf, Chained, Landed;
    if Fits(limit, |log.file|, |raw|) {
      if landed == |raw| + 1 {
        WholeLine(f, log, payload, io.synced);
        assert (raw + [LF])[..landed] == raw + [LF];
        assert log.file + (raw + [LF]) == log.file + raw + [LF];
      } else if landed == 0 {
        assert log.file + (raw + [LF])[..0] == log.file;
      } else {
        assert (raw + [LF])[..landed] == raw[..landed];
        assert EndsWith(f, log.file + raw[..landed], link, landed);
      }
    }
  }

  // A journal object: the fields the program keeps, and the list of records
  // they stand for.
  class ChainedJournal<P(!new)> {
    const format: Format<P>
    const limit: Limit
    var file: Bytes
    var sequence: nat
    var previous: Digest
    ghost var links: seq<Link<P>>
    ghost var disk: Disk<P>

    ghost predicate Valid()
      reads this
    {
      && sequence == |links|
      && previous == Tip(format, links)
      && LogOk(format, limit, View())
    }

    ghost function View(): Log<P>
      reads this
    {
      Log(file, links, disk)
    }

    constructor (format: Format<P>, limit: Limit)
      ensures Valid()
      ensures this.format == format && this.limit == limit
      ensures View() == Log([], [], Intact)
    {
      this.format, this.limit := format, limit;
      file, sequence, previous := [], 0, format.zero;
      links, disk := [], Intact;
      new;
      EmptyLogOk(format, limit);
    }

    method Record(payload: P, io: Io) returns (outcome: Appended)
      requires Valid()
      modifies this
      ensures Valid()
      ensures (View(), outcome) == Append(format, limit, old(View()), payload, io)
    {
      hide Frame, LinesOf, Chained;
      ghost var next := Append(format, limit, View(), payload, io);
      AppendKeepsLog(format, limit, View(), payload, io);
      var link := Link(format.base + sequence, previous, payload);
      var raw := format.line(link);
      if !Fits(limit, |file|, |raw|) {
        return Full;
      }
      var data := raw + [LF];
      var after, ok, stalled := WriteAll(file, data, io);
      assert next.0.file == after;
      file := after;
      disk := Left(disk, link, Landed(|data|, io.writes), |data|, io.synced);
      if !ok {
        assert View() == next.0;
        return if stalled then Stalled else Failed;
      }
      sequence := sequence + 1;
      previous := format.sha(format.core(link));
      links := links + [link];
      assert View() == next.0;
      return Done;
    }
  }

  // ---------------------------------------------------------------------
  // The reader's first half: parse each line, insist that it is the canonical
  // form of what it parses to, and follow the chain.

  function Decode<P(==)>(f: Format<P>, lines: seq<Bytes>): Option<seq<Link<P>>> {
    if lines == [] then Some([]) else
    var n := |lines| - 1;
    var front := Decode(f, lines[..n]);
    if front.None? then None else
    var link := f.parse(lines[n]);
    if link.None? || f.line(link.value) != lines[n] || link.value.sequence != f.base + n
      || link.value.previous != Tip(f, front.value) then None
    else Some(front.value + [link.value])
  }

  lemma {:induction false} DecodeChained<P(!new)>(f: Format<P>, links: seq<Link<P>>)
    requires Lawful(f) && Chained(f, links)
    ensures Decode(f, LinesOf(f, links)) == Some(links)
  {
    if links == [] {
    } else {
      hide *;
      var n := |links| - 1;
      ChainedPrefix(f, links, n);
      DecodeChained(f, links[..n]);
      DecodeLast(f, links);
    }
  }

  lemma DecodeLast<P(!new)>(f: Format<P>, links: seq<Link<P>>)
    requires Lawful(f) && Chained(f, links) && links != []
    requires Decode(f, LinesOf(f, links[..|links| - 1])) == Some(links[..|links| - 1])
    ensures Decode(f, LinesOf(f, links)) == Some(links)
  {
    hide Decode, Chained;
    var n, lines := |links| - 1, LinesOf(f, links);
    assert lines[..n] == LinesOf(f, links[..n]) && lines[..n + 1] == lines;
    DecodeStep(f, lines, n, links[..n]);
    ChainedAt(f, links, n);
    hide LinesOf, Tip;
    assert links == links[..n] + [links[n]];
  }

  lemma ChainedAt<P>(f: Format<P>, links: seq<Link<P>>, i: nat)
    requires Chained(f, links) && i < |links|
    ensures links[i].sequence == f.base + i && links[i].previous == Tip(f, links[..i])
  {
    assert InPlace(f, links, i);
  }

  lemma {:induction false} DecodedIsChained<P(!new)>(f: Format<P>, lines: seq<Bytes>)
    requires Decode(f, lines).Some?
    ensures |Decode(f, lines).value| == |lines|
    ensures Chained(f, Decode(f, lines).value)
    ensures LinesOf(f, Decode(f, lines).value) == lines
  {
    if lines == [] {
    } else {
      var n := |lines| - 1;
      DecodedIsChained(f, lines[..n]);
      var front := Decode(f, lines[..n]).value;
      var link := f.parse(lines[n]).value;
      assert link == NextLink(f, front, link.payload);
      ChainedExtend(f, front, link.payload);
      LinesOfExtend(f, front, link);
      assert lines == lines[..n] + [lines[n]];
    }
  }

  // Without a broken line in it, a log reads back as exactly its whole lines,
  // or, once a line follows one that was not acknowledged, not at all.
  lemma LogReadsBack<P(!new)>(f: Format<P>, limit: Limit, log: Log<P>)
    requires Lawful(f) && LogOk(f, limit, log) && !log.disk.Cut? && !log.disk.Torn?
    ensures Decode(f, SplitLines(log.file)) == log.OnDisk()
  {
    if log.disk.Doubled? {
      BrokenIsRefused(f, log.file);
    } else {
      var all := log.OnDisk().value;
      if log.disk.Unsynced? {
        ChainedExtend(f, log.links, log.disk.extra.payload);
      }
      SplitFrame(LinesOf(f, all));
      DecodeChained(f, all);
    }
  }

  lemma SameLinesSameLinks<P(!new)>(f: Format<P>, a: seq<Link<P>>, b: seq<Link<P>>)
    requires Lawful(f) && LinesOf(f, a) == LinesOf(f, b)
    ensures a == b
  {
    forall i | 0 <= i < |a| ensures |a| == |b| && a[i] == b[i] {
      assert LinesOf(f, a)[i] == LinesOf(f, b)[i];
      assert f.parse(f.line(a[i])) == Some(a[i]) && f.parse(f.line(b[i])) == Some(b[i]);
    }
    assert |LinesOf(f, a)| == |LinesOf(f, b)|;
  }

  lemma BrokenIsRefused<P(!new)>(f: Format<P>, file: Bytes)
    requires Lawful(f) && IsBroken(f, file)
    ensures Decode(f, SplitLines(file)) == None
  {
    var all :| file == Frame(LinesOf(f, all)) && !Chained(f, all);
    SplitFrame(LinesOf(f, all));
    if Decode(f, LinesOf(f, all)).Some? {
      DecodedIsChained(f, LinesOf(f, all));
      hide Decode, Chained, LinesOf;
      SameLinesSameLinks(f, Decode(f, LinesOf(f, all)).value, all);
    }
  }

  // A file that ends within a line does not end in a line break.
  lemma CutLeavesNoBreak<P(!new)>(f: Format<P>, file: Bytes)
    requires Lawful(f) && EndsWithin(f, file)
    ensures file != [] && file[|file| - 1] != LF
  {
    var link: Link<P>, n: nat :| EndsWith(f, file, link, n);
    assert file[|file| - n..][n - 1] == f.line(link)[n - 1];
    assert Printable(f.line(link));
  }

  lemma {:induction false} DecodeLength<P(!new)>(f: Format<P>, lines: seq<Bytes>)
    requires Decode(f, lines).Some?
    ensures |Decode(f, lines).value| == |lines|
  {
    if lines == [] {
    } else {
      DecodeLength(f, lines[..|lines| - 1]);
    }
  }

  lemma {:induction false} DecodePrefix<P(!new)>(f: Format<P>, lines: seq<Bytes>, n: nat)
    requires n <= |lines|
    ensures Decode(f, lines[..n]).None? ==> Decode(f, lines).None?
    ensures Decode(f, lines).Some? ==>
      |Decode(f, lines).value| == |lines| && Decode(f, lines[..n]) == Some(Decode(f, lines).value[..n])
  {
    if Decode(f, lines).Some? {
      DecodeLength(f, lines);
    }
    if n == |lines| {
      assert lines[..n] == lines;
      assert Decode(f, lines).Some? ==> Decode(f, lines).value[..n] == Decode(f, lines).value;
    } else {
      var front := lines[..|lines| - 1];
      DecodePrefix(f, front, n);
      assert front[..n] == lines[..n];
      if Decode(f, lines).Some? {
        var whole, part := Decode(f, lines).value, Decode(f, front).value;
        assert whole == part + [whole[|part|]];
        assert whole[..n] == part[..n];
      }
    }
  }

  // One more line of a journal being read.
  function DecodeLine<P(==)>(f: Format<P>, before: seq<Link<P>>, line: Bytes): Option<Link<P>> {
    var link := f.parse(line);
    if link.None? || f.line(link.value) != line || link.value.sequence != f.base + |before|
       || link.value.previous != Tip(f, before) then None
    else link
  }

  lemma DecodeStep<P(!new)>(f: Format<P>, lines: seq<Bytes>, i: nat, before: seq<Link<P>>)
    requires i < |lines| && Decode(f, lines[..i]) == Some(before)
    ensures |before| == i
    ensures var link := DecodeLine(f, before, lines[i]);
      Decode(f, lines[..i + 1]) == if link.None? then None else Some(before + [link.value])
  {
    DecodeLength(f, lines[..i]);
    assert lines[..i + 1][..i] == lines[..i];
  }

  // Line i is the canonical form of link i, which names its position and its
  // predecessor's digest.
  predicate Reads<P(==)>(f: Format<P>, line: Bytes, links: seq<Link<P>>, i: nat)
    requires i < |links|
  {
    && f.parse(line) == Some(links[i]) && f.line(links[i]) == line
    && links[i].sequence == f.base + i
    && links[i].previous == (if i == 0 then f.zero else f.DigestOf(links[i - 1]))
  }

  lemma ReadsPrefix<P(!new)>(f: Format<P>, lines: seq<Bytes>, links: seq<Link<P>>, n: nat)
    requires n <= |lines| == |links|
    ensures forall i :: 0 <= i < n ==> (Reads(f, lines[..n][i], links[..n], i) <==> Reads(f, lines[i], links, i))
  {
  }

  lemma DecodesLast<P(!new)>(f: Format<P>, lines: seq<Bytes>, links: seq<Link<P>>)
    requires |lines| == |links| > 0
    ensures var n := |links| - 1;
      Decode(f, lines) == Some(links) <==> Decode(f, lines[..n]) == Some(links[..n]) && Reads(f, lines[n], links, n)
  {
    var n := |links| - 1;
    assert links == links[..n] + [links[n]];
    if Decode(f, lines[..n]).Some? {
      DecodeLength(f, lines[..n]);
    }
  }

  // What decoding yields, line by line.
  lemma {:induction false} DecodesExactly<P(!new)>(f: Format<P>, lines: seq<Bytes>, links: seq<Link<P>>)
    ensures Decode(f, lines) == Some(links) <==>
      |lines| == |links| && forall i :: 0 <= i < |links| ==> Reads(f, lines[i], links, i)
    decreases |links|
  {
    if |lines| != |links| {
      if Decode(f, lines).Some? {
        DecodeLength(f, lines);
      }
    } else if links == [] {
    } else {
      hide Decode, Reads;
      var n := |links| - 1;
      DecodesExactly(f, lines[..n], links[..n]);
      DecodesLast(f, lines, links);
      ReadsPrefix(f, lines, links, n);
    }
  }
}
