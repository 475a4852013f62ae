/**
 Journal files as bytes: one newline-terminated record per line, the line
 splitting a reader applies, and the loop that pushes one record out through
 short writes.
 */
module JournalBytes {

  type Byte = b: int | 0 <= b < 256
  type Bytes = seq<Byte>
  type Digest = string

  const LF: Byte := 10
  const CR: Byte := 13

  // What the encoder promises of a canonical record: ASCII JSON with every
  // control character escaped.
  predicate Printable(line: Bytes) {
    forall i :: 0 <= i < |line| ==> 32 <= line[i]
  }

  function Frame(lines: seq<Bytes>): Bytes {
    if lines == [] then [] else Frame(lines[..|lines| - 1]) + lines[|lines| - 1] + [LF]
  }

  function FirstBreak(data: Bytes): (n: nat)
    ensures n <= |data|
    ensures forall i :: 0 <= i < n ==> data[i] != LF && data[i] != CR
    ensures n < |data| ==> data[n] == LF || data[n] == CR
  {
    if data == [] || data[0] == LF || data[0] == CR then 0 else 1 + FirstBreak(data[1..])
  }

  // bytes.splitlines(): a break is "\n", "\r" or "\r\n".
  function SplitLines(data: Bytes): seq<Bytes>
    decreases |data|
  {
    if data == [] then [] else
    var n := FirstBreak(data);
    if n == |data| then [data] else
    var width := if data[n] == CR && n + 1 < |data| && data[n + 1] == LF then 2 else 1;
    [data[..n]] + SplitLines(data[n + width..])
  }

  lemma {:induction false} FrameCons(line: Bytes, rest: seq<Bytes>)
    ensures Frame([line] + rest) == line + [LF] + Frame(rest)
  {
    var all := [line] + rest;
    if rest == [] {
      assert all[..0] == [];
      assert Frame(all) == [] + line + [LF];
    } else {
      var front := rest[..|rest| - 1];
      assert all[..|all| - 1] == [line] + front;
      FrameCons(line, front);
    }
  }

  lemma SplitFirst(line: Bytes, rest: Bytes)
    requires Printable(line)
    ensures SplitLines(line + [LF] + rest) == [line] + SplitLines(rest)
  {
    var data := line + [LF] + rest;
    assert data[|line|] == LF;
    assert forall i :: 0 <= i < |line| ==> data[i] == line[i];
    assert FirstBreak(data) == |line|;
    assert data[..|line|] == line;
    assert data[|line| + 1..] == rest;
  }

  lemma FrameConsThen(line: Bytes, rest: seq<Bytes>, tail: Bytes)
    ensures Frame([line] + rest) + tail == line + [LF] + (Frame(rest) + tail)
  {
    FrameCons(line, rest);
  }

  lemma SplitOneMore(whole: Bytes, line: Bytes, rest: Bytes, pieces: seq<Bytes>)
    requires Printable(line) && whole == line + [LF] + rest && SplitLines(rest) == pieces
    ensures SplitLines(whole) == [line] + pieces
  {
    SplitFirst(line, rest);
  }

  lemma SplitPrepended(line: Bytes, rest: seq<Bytes>, tail: Bytes, last: seq<Bytes>)
    requires Printable(line) && SplitLines(Frame(rest) + tail) == rest + last
    ensures SplitLines(Frame([line] + rest) + tail) == [line] + rest + last
  {
    hide Frame, SplitLines;
    FrameConsThen(line, rest, tail);
    SplitOneMore(Frame([line] + rest) + tail, line, Frame(rest) + tail, rest + last);
    assert [line] + (rest + last) == [line] + rest + last;
  }

  predicate AllPrintable(lines: seq<Bytes>) {
    forall i :: 0 <= i < |lines| ==> Printable(lines[i])
  }

  // Whatever follows, complete records read back first.
  lemma {:induction false} SplitFrameThen(lines: seq<Bytes>, tail: Bytes)
    requires AllPrintable(lines)
    ensures SplitLines(Frame(lines) + tail) == lines + SplitLines(tail)
  {
    if lines == [] {
      assert Frame(lines) + tail == tail;
    } else {
      hide Frame, SplitLines;
      SplitFrameThen(lines[1..], tail);
      SplitPrepended(lines[0], lines[1..], tail, SplitLines(tail));
      assert lines == [lines[0]] + lines[1..];
    }
  }

  // Reading back what was written: printable records survive framing.
  lemma SplitFrame(lines: seq<Bytes>)
    requires AllPrintable(lines)
    ensures SplitLines(Frame(lines)) == lines
  {
    SplitFrameThen(lines, []);
    assert Frame(lines) + [] == Frame(lines) && lines + [] == lines;
  }

  lemma FrameEndsInBreak(lines: seq<Bytes>)
    requires lines != []
    ensures Frame(lines) != [] && Frame(lines)[|Frame(lines)| - 1] == LF
  {
  }

  // One record's trip to the disk: the clock reading taken for it, the return
  // values of successive os.write calls (running out stands for an exception)
  // and whether the closing fsync succeeds.
  datatype Io = Io(now: int, writes: seq<int>, synced: bool)

  // How many of the `len` pending bytes the write loop gets out.
  function Landed(len: nat, writes: seq<int>): (n: nat)
    ensures n <= len
  {
    if len == 0 || writes == [] || writes[0] <= 0 then 0 else
    var count := if writes[0] < len then writes[0] else len;
    count + Landed(len - count, writes[1..])
  }

  // Whether the loop gives up on a non-positive count, and not on an exception.
  predicate Stalls(len: nat, writes: seq<int>) {
    len > 0 && writes != [] && (writes[0] <= 0 || (writes[0] < len && Stalls(len - writes[0], writes[1..])))
  }

  // The counts the operating system returned before the first useless one.
  function Useful(writes: seq<int>): (n: nat)
    ensures n <= |writes|
    ensures forall i :: 0 <= i < n ==> writes[i] > 0
    ensures n < |writes| ==> writes[n] <= 0
  {
    if writes == [] || writes[0] <= 0 then 0 else 1 + Useful(writes[1..])
  }

  function Total(writes: seq<int>): int {
    if writes == [] then 0 else writes[0] + Total(writes[1..])
  }

  // The loop gets out what the useful writes add up to, as far as there are
  // bytes; it stalls when the bytes outlast them and a useless write follows.
  lemma {:induction false} LandedExactly(len: nat, writes: seq<int>)
    ensures var all := Total(writes[..Useful(writes)]);
      && all >= 0 && Landed(len, writes) == (if all < len then all else len)
      && (Stalls(len, writes) <==> all < len && Useful(writes) < |writes|)
  {
    var n := Useful(writes);
    if n == 0 {
      assert writes[..0] == [];
    } else {
      var rest := writes[1..];
      assert writes[..n][1..] == rest[..n - 1];
      LandedExactly(if writes[0] < len then len - writes[0] else 0, rest);
    }
  }

  predicate Persisted(len: nat, io: Io) {
    Landed(len, io.writes) == len && io.synced
  }

  // The write loop shared by every journal: push the remaining bytes until
  // none are left, give up on an exception or a non-positive count, then sync.
  method WriteAll(file: Bytes, data: Bytes, io: Io) returns (after: Bytes, ok: bool, stalled: bool)
    ensures after == file + data[..Landed(|data|, io.writes)]
    ensures ok == Persisted(|data|, io)
    ensures stalled == Stalls(|data|, io.writes)
  {
    var sent, turn := 0, 0;
    while sent < |data|
      invariant 0 <= sent <= |data| && 0 <= turn <= |io.writes|
      invariant Landed(|data|, io.writes) == sent + Landed(|data| - sent, io.writes[turn..])
      invariant Stalls(|data|, io.writes) == Stalls(|data| - sent, io.writes[turn..])
      decreases |data| - sent
    {
      if turn == |io.writes| || io.writes[turn] <= 0 {
        return file + data[..sent], false, turn < |io.writes|;
      }
      var count := if io.writes[turn] < |data| - sent then io.writes[turn] else |data| - sent;
      assert io.writes[turn..][1..] == io.writes[turn + 1..];
      sent, turn := sent + count, turn + 1;
    }
    return file + data[..sent], io.synced, false;
  }
}
