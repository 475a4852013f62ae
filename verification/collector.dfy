/**
 The live collector: a locked intake that screens one native fact, appends it
 to the hash-chained journal and only then acknowledges it.
 */
module Collector {
  import opened Wrappers
  import opened JournalBytes
  import opened HashChain
  import opened CollectorFacts
  import opened CollectorHistory

  datatype IntakeTag = IntakeV2 | IntakeV3 | OtherTag(text: string)

  datatype Peer = Peer(pid: int, uid: int, gid: int)

  datatype Body =
    | Start(startedNs: Option<int>, tag: IntakeTag, specSha: Digest, source: Digest, archive: string)
    | Accepted(
        now: Option<int>, raw: Bytes, rawSha: Digest, peer: Peer, sources: map<string, Digest>,
        process: Kernel, phase: Phase, runtime: string, archive: string)
    | OtherBody(kind: string)

  // A journal record as written: the hashed part and its digest.
  datatype Event = Event(link: Link<Body>, sha256: Digest)

  datatype Codec = Codec(
    facts: FactCodec,
    core: Link<Body> -> Bytes,
    event: Event -> Bytes,
    parseEvent: Bytes -> Option<Event>)

  ghost predicate LawfulCodec(c: Codec) {
    && (forall e :: c.parseEvent(c.event(e)) == Some(e))
    && (forall e :: Printable(c.event(e)))
    && (forall l, m :: c.core(l) == c.core(m) ==> l == m)
  }

  // The digest before the first record.
  function Zero(): Digest {
    seq(64, i => '0')
  }

  function Seal(c: Codec, link: Link<Body>): Event {
    Event(link, c.facts.sha(c.core(link)))
  }

  function FormatOf(c: Codec): Format<Body> {
    Format(0, Zero(), c.core,
      (l: Link<Body>) => c.event(Seal(c, l)),
      (b: Bytes) => match c.parseEvent(b) case Some(e) => Some(e.link) case None => None,
      c.facts.sha)
  }

  lemma FormatIsLawful(c: Codec)
    requires LawfulCodec(c)
    ensures Lawful(FormatOf(c))
  {
    var f := FormatOf(c);
    forall l ensures f.parse(f.line(l)) == Some(l) {
      assert c.parseEvent(c.event(Seal(c, l))) == Some(Seal(c, l));
    }
    assert forall l :: f.line(l) == c.event(Seal(c, l));
    assert forall l, m :: f.core(l) == f.core(m) ==> c.core(l) == c.core(m);
  }

  // What the service froze before it wrote its first record.
  datatype Site = Site(codec: Codec, spec: Spec, specSha: Digest, source: Digest, archive: string, uid: int)

  // One intake call with everything read from the kernel and the disk for it.
  // A process that cannot be read is None; a source file that is missing,
  // relative or a symlink is not on `disk`.
  datatype Call = Call(
    peer: Peer, raw: Bytes,
    kernel: Option<Kernel>, cmdline: Option<Digest>, disk: map<string, Digest>,
    io: Io)

  datatype Ack = Ack(rawSha: Digest, eventSha: Digest, sequence: int, phase: Phase, source: Digest, archive: string)

  // The collector's state: the journal, the failure flag, the dictionaries, and
  // the history of what was admitted.
  datatype Live = Live(log: Log<Body>, failed: bool, intake: Intake, entries: seq<Entry>)

  // source_digests: every frozen source file read back and unchanged.
  function SourceDigests(files: seq<SourceFile>, disk: map<string, Digest>): Option<map<string, Digest>> {
    if files == [] then Some(map[]) else
    var last := files[|files| - 1];
    var front := SourceDigests(files[..|files| - 1], disk);
    if front.None? || last.path !in disk || last.normal in front.value || disk[last.path] != last.sha256 then None
    else Some(front.value[last.normal := last.sha256])
  }

  datatype Screened = Screened(sender: Sender, sources: map<string, Digest>, kernel: Kernel, verdict: Verdict)

  // Every check that precedes the append.
  function Screen(site: Site, live: Live, call: Call): Option<Screened> {
    var senders := SenderMap(site.spec.senders);
    if live.failed || call.peer.pid !in senders then None else
    var sender := senders[call.peer.pid];
    if sender.uid != call.peer.uid || call.peer.uid != site.uid || sender.gid != call.peer.gid then None
    else if call.kernel != Some(sender.process.kernel) || call.cmdline != Some(sender.cmdline) then None else
    var sources := SourceDigests(sender.sources, call.disk);
    if sender.sources == [] || sources.None? || site.codec.facts.sha(call.raw) in live.intake.seen then None else
    var verdict := Judge(site.codec.facts, site.spec, sender, call.raw, Some(call.io.now), live.intake);
    if verdict.Err? then None
    else Some(Screened(sender, sources.value, call.kernel.value, verdict.value))
  }

  function BodyOf(site: Site, call: Call, ok: Screened): Body {
    Accepted(Some(call.io.now), call.raw, site.codec.facts.sha(call.raw), call.peer, ok.sources,
             ok.kernel, ok.verdict.phase, ok.verdict.fact.common.runtime, site.archive)
  }

  function EntryOf(call: Call, ok: Screened): Entry {
    Entry(call.raw, ok.sender, Some(call.io.now), ok.verdict)
  }

  // One call of the intake: refuse without effect, fail to persist, or admit.
  function AcceptStep(site: Site, live: Live, call: Call): (Live, Option<Ack>) {
    var screened := Screen(site, live, call);
    if screened.None? then (live, None) else
    var ok := screened.value;
    var f := FormatOf(site.codec);
    var body := BodyOf(site, call, ok);
    var (log, outcome) := Append(f, None, live.log, body, call.io);
    if outcome != Done then (live.(log := log, failed := true), None) else
    var digest := site.codec.facts.sha(call.raw);
    var after := Live(log, false, Note(live.intake, ok.verdict, digest), live.entries + [EntryOf(call, ok)]);
    var link := NextLink(f, live.log.links, body);
    (after, Some(Ack(digest, f.DigestOf(link), link.sequence, ok.verdict.phase, site.source, site.archive)))
  }

  function StartBody(site: Site, now: int): Body {
    Start(Some(now), if site.spec.schema == KvSpecV2 then IntakeV3 else IntakeV2,
          site.specSha, site.source, site.archive)
  }

  // The state after the start record has been persisted.
  function Opened(site: Site, io: Io): Live {
    var log := Append(FormatOf(site.codec), None, Log([], [], Intact), StartBody(site, io.now), io).0;
    Live(log, false, EMPTY_INTAKE, [])
  }

  predicate CanOpen(site: Site, io: Io) {
    Append(FormatOf(site.codec), None, Log([], [], Intact), StartBody(site, io.now), io).1 == Done
  }

  // Any number of calls, in the order their lock was taken.
  function Run(site: Site, opening: Io, calls: seq<Call>): (r: (Live, seq<Option<Ack>>))
    ensures |r.1| == |calls|
  {
    if calls == [] then (Opened(site, opening), []) else
    var (before, acks) := Run(site, opening, calls[..|calls| - 1]);
    var (after, ack) := AcceptStep(site, before, calls[|calls| - 1]);
    (after, acks + [ack])
  }

  lemma RunStep(site: Site, opening: Io, calls: seq<Call>, n: nat)
    requires n < |calls|
    ensures Run(site, opening, calls[..n + 1]).0 ==
            AcceptStep(site, Run(site, opening, calls[..n]).0, calls[n]).0
    ensures Run(site, opening, calls[..n + 1]).1 ==
            Run(site, opening, calls[..n]).1 + [AcceptStep(site, Run(site, opening, calls[..n]).0, calls[n]).1]
  {
    assert calls[..n + 1][..n] == calls[..n];
  }

  // ---------------------------------------------------------------------
  // The collector object

  // The files named by the freeze, read one by one.
  method ReadSources(files: seq<SourceFile>, disk: map<string, Digest>) returns (r: Option<map<string, Digest>>)
    ensures r == (if files == [] then None else SourceDigests(files, disk))
  {
    if files == [] {
      return None;
    }
    var result: map<string, Digest> := map[];
    for i := 0 to |files|
      invariant SourceDigests(files[..i], disk) == Some(result)
    {
      assert files[..i + 1][..i] == files[..i];
      var binding := files[i];
      if binding.path !in disk || binding.normal in result || disk[binding.path] != binding.sha256 {
        MissingSourceStays(files, disk, i + 1);
        return None;
      }
      result := result[binding.normal := binding.sha256];
    }
    assert files[..|files|] == files;
    return Some(result);
  }

  lemma {:induction false} MissingSourceStays(files: seq<SourceFile>, disk: map<string, Digest>, n: nat)
    requires n <= |files| && SourceDigests(files[..n], disk).None?
    ensures SourceDigests(files, disk).None?
  {
    if n < |files| {
      var front := files[..|files| - 1];
      assert front[..n] == files[..n];
      MissingSourceStays(front, disk, n);
    } else {
      assert files[..n] == files;
    }
  }

  class CollectorService {
    const site: Site
    const senders: map<int, Sender>
    var failed: bool
    var file: Bytes
    var sequence: nat
    var previous: Digest
    var maps: map<string, Phase>
    var mappingStamps: map<string, int>
    var ranks: map<string, set<int>>
    var uploadStamps: map<Slot, int>
    var projected: set<Slot>
    var uploads: map<Slot, nat>
    var seenRaw: set<Digest>
    ghost var links: seq<Link<Body>>
    ghost var disk: Disk<Body>
    ghost var entries: seq<Entry>

    ghost predicate Valid()
      reads this
    {
      && senders == SenderMap(site.spec.senders)
      && sequence == |links|
      && previous == Tip(FormatOf(site.codec), links)
    }

    ghost function View(): Live
      reads this
    {
      Live(Log(file, links, disk), failed,
           Intake(maps, mappingStamps, ranks, uploadStamps, projected, uploads, seenRaw), entries)
    }

    // The service exists once its start record is on disk.
    constructor (site: Site, io: Io)
      requires CanOpen(site, io)
      ensures Valid() && this.site == site
      ensures View() == Opened(site, io)
    {
      this.site := site;
      senders := SenderMap(site.spec.senders);
      failed, file, sequence, previous := false, [], 0, Zero();
      maps, mappingStamps, ranks := map[], map[], map[];
      uploadStamps, projected, uploads, seenRaw := map[], {}, map[], {};
      links, disk, entries := [], Intact, [];
      new;
      var _, _ := AppendEvent(StartBody(site, io.now), io);
    }

    // _append: seal the record, write it out, and remember a failure for good.
    method AppendEvent(body: Body, io: Io) returns (event: Event, ok: bool)
      requires Valid() && !failed
      modifies this`failed, this`file, this`sequence, this`previous, this`links, this`disk
      ensures Valid()
      ensures event == Seal(site.codec, NextLink(FormatOf(site.codec), old(links), body))
      ensures View().log == Append(FormatOf(site.codec), None, old(View().log), body, io).0
      ensures ok <==> Append(FormatOf(site.codec), None, old(View().log), body, io).1 == Done
      ensures failed == !ok
    {
      var link := Link(sequence, previous, body);
      event := Event(link, site.codec.facts.sha(site.codec.core(link)));
      var data := site.codec.event(event) + [LF];
      var after, done, _ := WriteAll(file, data, io);
      file := after;
      disk := Left(disk, link, Landed(|data|, io.writes), |data|, io.synced);
      if !done {
        failed := true;
        return event, false;
      }
      sequence := sequence + 1;
      previous := event.sha256;
      links := links + [link];
      return event, true;
    }

    // The checks of an intake call, in the order the program makes them.
    method ScreenCall(call: Call) returns (r: Option<Screened>)
      requires Valid()
      ensures r == Screen(site, View(), call)
    {
      if failed || call.peer.pid !in senders {
        return None;
      }
      var sender := senders[call.peer.pid];
      if sender.uid != call.peer.uid || call.peer.uid != site.uid || sender.gid != call.peer.gid {
        return None;
      }
      if call.kernel != Some(sender.process.kernel) || call.cmdline != Some(sender.cmdline) {
        return None;
      }
      var sources := ReadSources(sender.sources, call.disk);
      if sources.None? || site.codec.facts.sha(call.raw) in seenRaw {
        return None;
      }
      var intake := Intake(maps, mappingStamps, ranks, uploadStamps, projected, uploads, seenRaw);
      var verdict := Judge(site.codec.facts, site.spec, sender, call.raw, Some(call.io.now), intake);
      if verdict.Err? {
        return None;
      }
      return Some(Screened(sender, sources.value, call.kernel.value, verdict.value));
    }

    method Accept(call: Call) returns (ack: Option<Ack>)
      requires Valid()
      modifies this
      ensures Valid()
      ensures (View(), ack) == AcceptStep(site, old(View()), call)
    {
      var screened := ScreenCall(call);
      if screened.None? {
        return None;
      }
      var ok := screened.value;
      var event, done := AppendEvent(BodyOf(site, call, ok), call.io);
      if !done {
        return None;
      }
      var digest := site.codec.facts.sha(call.raw);
      Learn(ok.verdict, digest);
      entries := entries + [EntryOf(call, ok)];
      return Some(Ack(digest, event.sha256, event.link.sequence, ok.verdict.phase, site.source, site.archive));
    }

    // The dictionary updates that follow a persisted fact.
    method Learn(v: Verdict, digest: Digest)
      modifies this`maps, this`mappingStamps, this`ranks, this`uploadStamps, this`projected, this`uploads, this`seenRaw
      ensures View() == old(View()).(intake := Note(old(View()).intake, v, digest))
    {
      var runtime := v.fact.common.runtime;
      seenRaw := seenRaw + {digest};
      match v.update
      case MapUpdate =>
        maps := maps[runtime := v.phase];
        mappingStamps := mappingStamps[runtime := v.fact.common.stamp];
      case ProjectionUpdate(rank) =>
        projected := projected + {Slot(runtime, rank)};
      case UploadUpdate(rank) =>
        var slot := Slot(runtime, rank);
        ranks := ranks[runtime := Get(ranks, runtime, {}) + {rank}];
        uploadStamps := uploadStamps[slot := if v.fact.Upload? then v.fact.after else 0];
        uploads := uploads[slot := Get(uploads, slot, 0) + 1];
    }
  }
}
