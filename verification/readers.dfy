/** What each of the three journal readers accepts, on the bytes and the records. */
module Readers {
  import opened Wrappers
  import opened JournalBytes
  import opened HashChain
  import L = LoopbackAuthority
  import LoopbackJournal
  import D = DynamicAuthority
  import DynamicJournal
  import ClientTrace

  // A file of whole lines, within the reader's limit.
  predicate Whole(data: Bytes, limit: nat) {
    0 < |data| <= limit && data[|data| - 1] == LF
  }

  // The lines of the file are the records, each chained to the one before.
  ghost predicate Spells<P(!new)>(f: Format<P>, data: Bytes, links: seq<Link<P>>) {
    |SplitLines(data)| == |links| && forall i :: 0 <= i < |links| ==> Reads(f, SplitLines(data)[i], links, i)
  }

  // ---------------------------------------------------------------------
  // The traffic journal

  predicate Hex(c: char) {
    '0' <= c <= '9' || 'a' <= c <= 'f'
  }

  predicate DigestSpelled(s: string) {
    |s| == 71 && "sha256:" <= s && forall i :: 7 <= i < |s| ==> Hex(s[i])
  }

  // One process, under positive numbers; a natural generation or none; a
  // digest of the snapshot; a decision that goes by the route.
  predicate TrafficRecord(p: L.Record, first: L.Record) {
    && p.process.pid == first.process.pid > 0 && p.process.startTicks == first.process.startTicks > 0
    && (p.route.generation.Some? ==> p.route.generation.value.Whole? && p.route.generation.value.n >= 0)
    && DigestSpelled(p.route.snapshot)
    && (p.detail.Admission? && p.detail.admitted ==> p.route.generation.Some?)
    && (p.detail.Admission? && !p.detail.admitted ==> p.route.generation.None?)
  }

  lemma TrafficTells(p: L.Record, first: L.Record)
    requires first.process.pid > 0 && first.process.startTicks > 0
    ensures LoopbackJournal.Shaped(p, first) <==> TrafficRecord(p, first)
  {
    var s := p.route.snapshot;
    assert |s| == 71 ==> ("sha256:" <= s <==> s[..7] == "sha256:");
  }

  lemma TrafficReadExactly(f: Format<L.Record>, data: Bytes, links: LoopbackJournal.Links)
    ensures LoopbackJournal.ReadTraffic(f, data) == Some(links) <==>
      && Whole(data, 4 * 1024 * 1024) && Spells(f, data, links)
      && links != [] && links[0].payload.detail.AuthorityStart?
      && forall i :: 0 <= i < |links| ==> TrafficRecord(links[i].payload, links[0].payload)
  {
    DecodesExactly(f, SplitLines(data), links);
    hide SplitLines, Decode;
    if links != [] && links[0].payload.process.pid > 0 && links[0].payload.process.startTicks > 0 {
      forall i | 0 <= i < |links|
        ensures LoopbackJournal.Shaped(links[i].payload, links[0].payload)
                <==> TrafficRecord(links[i].payload, links[0].payload)
      {
        TrafficTells(links[i].payload, links[0].payload);
      }
    }
    hide TrafficRecord, Reads;
  }

  // ---------------------------------------------------------------------
  // The dynamic authority's journal

  // Strictly later than the record before it, under the first record's owner
  // and policy.
  predicate DynamicRecord(links: seq<Link<D.Record>>, i: nat)
    requires i < |links|
  {
    && links[i].payload.ns > (if i == 0 then 0 else links[i - 1].payload.ns)
    && links[i].payload.owner == links[0].payload.owner && links[i].payload.policy == links[0].payload.policy
  }

  lemma DynamicReadExactly(f: Format<D.Record>, data: Bytes, links: seq<Link<D.Record>>)
    ensures DynamicJournal.ReadDynamic(f, data) == Some(links) <==>
      && Whole(data, 32 * 1024 * 1024) && Spells(f, data, links)
      && forall i :: 0 <= i < |links| ==>
           DynamicRecord(links, i) && (links[i].payload.detail.AuthorityStart? <==> i == 0)
  {
    DecodesExactly(f, SplitLines(data), links);
    hide SplitLines, Decode, Reads;
    forall i | 0 <= i < |links|
      ensures DynamicJournal.InPlace(links, i)
              <==> DynamicRecord(links, i) && (links[i].payload.detail.AuthorityStart? <==> i == 0)
    {
    }
  }

  // ---------------------------------------------------------------------
  // The client's trace

  // Strictly later than the record before it, from the first record's client.
  predicate ClientRecord(links: ClientTrace.ClientLinks, i: nat)
    requires i < |links|
  {
    && links[i].payload.ns > (if i == 0 then 0 else links[i - 1].payload.ns)
    && links[i].payload.client == links[0].payload.client
  }

  lemma ClientReadExactly(f: Format<ClientTrace.ClientRecord>, data: Bytes, links: ClientTrace.ClientLinks)
    ensures ClientTrace.ReadClient(f, data) == Some(links) <==>
      && Whole(data, 64 * 1024 * 1024) && Spells(f, data, links)
      && forall i :: 0 <= i < |links| ==> ClientRecord(links, i)
  {
    DecodesExactly(f, SplitLines(data), links);
    hide SplitLines, Decode, Reads;
    forall i | 0 <= i < |links| ensures ClientTrace.InTime(links, i) <==> ClientRecord(links, i) {
    }
  }
}
