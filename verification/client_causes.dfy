/** Why a window is not covered: what is missing, or what is broken. */
module ClientCauses {
  import opened Wrappers
  import opened JournalBytes
  import opened LoopbackJournal
  import opened RecoveryChain
  import opened ClientTrace
  import opened RequestNames
  import opened ClientWindow
  import opened ClientSoundness
  import opened ClientComplete

  predicate Lines(file: Option<Bytes>) {
    file.Some? && file.value != [] && file.value[|file.value| - 1] == LF
  }

  // ---------------------------------------------------------------------
  // What is missing

  // A dispatch away from its place in the schedule.
  predicate OffTime(w: Window, client: ClientLinks, s: nat, i: nat) {
    && s < |client| && client[s].payload.detail.RequestStart? && client[0].payload.detail.ClientStart?
    && var d, due := client[s].payload.detail, client[0].payload.detail.anchor + w.spec.offset(i);
    d.scheduled != due || d.sent < due || d.sent > due + w.spec.slack
  }

  ghost predicate SomeOffTime(w: Window, client: ClientLinks) {
    exists i: nat, s: nat, f: nat :: i < w.spec.count && Sole(w, client, i, s, f) && OffTime(w, client, s, i)
  }

  ghost predicate SomeUnreadable(w: Window, client: ClientLinks) {
    exists i: nat, s: nat, f: nat ::
      i < w.spec.count && Sole(w, client, i, s, f) && InTimeAt(client, s, f)
      && w.spec.judge(client[f].payload.detail.body).Unreadable?
  }

  ghost predicate Unfinished(w: Window, client: ClientLinks) {
    || client == [] || !client[0].payload.detail.ClientStart?
    || !client[|client| - 1].payload.detail.ClientStop?
    || client[|client| - 1].payload.detail.count != w.spec.count
    || !OneEach(w, client) || SomeOffTime(w, client) || !AcrossFault(w, client) || SomeUnreadable(w, client)
  }

  // The authority's file does not begin with a start.
  predicate Headless(w: Window, data: Bytes) {
    SplitLines(data) != [] && w.tf.parse(SplitLines(data)[0]).Some?
    && !w.tf.parse(SplitLines(data)[0]).value.payload.detail.AuthorityStart?
  }

  ghost predicate Missing(w: Window, clientFile: Option<Bytes>, authorityFile: Option<Bytes>) {
    || !Lines(clientFile) || !Lines(authorityFile) || w.spec.authority.None? || Headless(w, authorityFile.value)
    || (ReadClient(w.cf, clientFile.value).Some? && Unfinished(w, ReadClient(w.cf, clientFile.value).value))
  }

  // ---------------------------------------------------------------------
  // What is broken

  // A dispatch with another timeout or another body than the frozen ones.
  predicate Altered(w: Window, client: ClientLinks, s: nat) {
    && s < |client| && client[s].payload.detail.RequestStart?
    && var d := client[s].payload.detail;
    d.deadline - d.sent != w.spec.timeout || d.body != w.spec.payload || d.bodySha != w.spec.sha(d.body)
  }

  // Another client, launch or window, or its markers repeated.
  predicate ForeignClient(w: Window, client: ClientLinks) {
    && client != [] && client[0].payload.detail.ClientStart?
    && (|| client[0].payload.client != w.expected || client[0].payload.detail.startId != w.spec.startId
        || client[0].payload.detail.specSha != w.spec.specSha
        || (exists k :: 0 < k < |client| && client[k].payload.detail.ClientStart?)
        || (exists j, k :: 0 <= j < k < |client| && client[j].payload.detail.ClientStop?
                           && client[k].payload.detail.ClientStop?))
  }

  predicate RestartedIn(links: Links) {
    exists k :: 0 < k < |links| && links[k].payload.detail.AuthorityStart?
  }

  // Out of order, changed, not vouched for, or not the expected answer.
  ghost predicate Unsettled(w: Window, client: ClientLinks, links: Links, i: nat, s: nat, f: nat) {
    || !Consistent(w, client, s, f)
    || (InTimeAt(client, s, f)
        && (|| w.spec.judge(client[f].payload.detail.body).Wrong?
            || !exists a: nat, c: nat :: Vouched(w, client, links, i, s, f, a, c)))
  }

  ghost predicate SomeUnsettled(w: Window, client: ClientLinks, links: Links) {
    exists i: nat, s: nat, f: nat ::
      i < w.spec.count && Sole(w, client, i, s, f) && Unsettled(w, client, links, i, s, f)
  }

  ghost predicate SomeAltered(w: Window, client: ClientLinks) {
    exists i: nat, s: nat, f: nat :: i < w.spec.count && Sole(w, client, i, s, f) && Altered(w, client, s)
  }

  ghost predicate Broken(w: Window, clientFile: Option<Bytes>, authorityFile: Option<Bytes>) {
    && clientFile.Some? && authorityFile.Some?
    && (|| ReadClient(w.cf, clientFile.value).None? || ReadTraffic(w.tf, authorityFile.value).None?
        || (var client, links := ReadClient(w.cf, clientFile.value).value, ReadTraffic(w.tf, authorityFile.value).value;
            || ForeignClient(w, client) || SomeAltered(w, client)
            || RestartedIn(links) || (w.spec.authority.Some? && !Journalled(w, links)) || !DecidedApart(w, links)
            || SomeUnsettled(w, client, links)))
  }

  // ---------------------------------------------------------------------
  // The client's side

  lemma {:induction false} FirstBad(w: Window, client: ClientLinks, anchor: int, n: nat) returns (i: nat)
    requires CheckSchedules(w, client, anchor, n).Some?
    ensures i < n && CheckSchedule(w, client, anchor, i) == CheckSchedules(w, client, anchor, n)
  {
    hide CheckSchedule;
    if CheckSchedules(w, client, anchor, n - 1).Some? {
      i := FirstBad(w, client, anchor, n - 1);
    } else {
      i := n - 1;
    }
  }

  lemma BadDispatch(w: Window, client: ClientLinks, i: nat, s: nat, f: nat)
    requires client != [] && client[0].payload.detail.ClientStart? && Sole(w, client, i, s, f)
    ensures var bad := CheckSchedule(w, client, client[0].payload.detail.anchor, i);
      && (bad == Some(Unknown) ==> OffTime(w, client, s, i))
      && (bad == Some(Refused) ==> Altered(w, client, s))
  {
    SoleFound(w, client, i, s, f);
    hide RequestName, SendOf, FinishOf;
  }

  lemma ScheduleCause(w: Window, client: ClientLinks)
    requires client != [] && client[0].payload.detail.ClientStart? && OneEach(w, client)
    ensures var bad := CheckSchedules(w, client, client[0].payload.detail.anchor, w.spec.count);
      && (bad == Some(Unknown) ==> SomeOffTime(w, client))
      && (bad == Some(Refused) ==> SomeAltered(w, client))
  {
    var anchor := client[0].payload.detail.anchor;
    if CheckSchedules(w, client, anchor, w.spec.count).Some? {
      var i := FirstBad(w, client, anchor, w.spec.count);
      hide Named, RequestName, CheckSchedule, CheckSchedules, OffTime, Altered, Sole;
      assert HasBoth(w, client, i);
      var s: nat, f: nat :| Sole(w, client, i, s, f);
      BadDispatch(w, client, i, s, f);
    }
  }

  lemma MarksCause(client: ClientLinks)
    requires client != [] && client[0].payload.detail.ClientStart?
    ensures Marks(client, |client|).0 != 1 ==> exists k :: 0 < k < |client| && client[k].payload.detail.ClientStart?
    ensures Marks(client, |client|).1 > 1 ==>
      exists j, k ::
        0 <= j < k < |client| && client[j].payload.detail.ClientStop? && client[k].payload.detail.ClientStop?
  {
    StartMarks(client, |client|);
    if Marks(client, |client|).1 > 1 {
      var k := LastStop(client, |client|);
      StopMarks(client, k);
    }
  }

  lemma {:induction false} LastStop(client: ClientLinks, n: nat) returns (k: nat)
    requires n <= |client| && Marks(client, n).1 > 0
    ensures k < n && client[k].payload.detail.ClientStop? && Marks(client, k).1 == Marks(client, n).1 - 1
  {
    if client[n - 1].payload.detail.ClientStop? {
      k := n - 1;
    } else {
      k := LastStop(client, n - 1);
    }
  }

  lemma ClientCause(w: Window, client: ClientLinks)
    ensures CheckClient(w, client) == Some(Unknown) ==> Unfinished(w, client)
    ensures CheckClient(w, client) == Some(Refused) ==> ForeignClient(w, client) || SomeAltered(w, client)
  {
    hide SendNames, FinishNames, Expected, CheckSchedules, Marks, SomeOffTime, SomeAltered, SomeUnreadable, Straddles,
      AcrossFault, OneEach;
    StraddlesTell(w, client);
    if client != [] && client[0].payload.detail.ClientStart? {
      MarksCause(client);
      if Complement(w, client) {
        FullListsOnce(client);
        ListsGiveOneEach(w, client);
        ScheduleCause(w, client);
      } else if OneEach(w, client) {
        OneEachGivesLists(w, client);
      }
    }
  }

  // ---------------------------------------------------------------------
  // The authority's side

  lemma AuthorityCause(w: Window, links: Links)
    requires links != [] && links[0].payload.detail.AuthorityStart?
    ensures CheckAuthority(w, links) == Some(Unknown) ==> w.spec.authority.None?
    ensures CheckAuthority(w, links) == Some(Refused) ==>
      RestartedIn(links) || (w.spec.authority.Some? && !Journalled(w, links))
  {
    JournalledExactly(w, links);
    AuthorityMarks(links, |links|);
    hide Journalled, Starts;
  }

  lemma {:induction false} FirstHalt(w: Window, client: ClientLinks, links: Links, n: nat) returns (i: nat)
    requires Tallied(w, client, links, n).Err?
    ensures i < n && Judged(w, client, links, i) == Halt(Tallied(w, client, links, n).error)
  {
    hide Judged;
    if Tallied(w, client, links, n - 1).Err? {
      i := FirstHalt(w, client, links, n - 1);
    } else {
      i := n - 1;
    }
  }

  lemma HaltCause(w: Window, client: ClientLinks, links: Links, i: nat, s: nat, f: nat)
    requires Sole(w, client, i, s, f)
    ensures Judged(w, client, links, i) == Halt(Unknown) ==>
      InTimeAt(client, s, f) && w.spec.judge(client[f].payload.detail.body).Unreadable?
    ensures Judged(w, client, links, i) == Halt(Refused) ==> Unsettled(w, client, links, i, s, f)
  {
    SoleFound(w, client, i, s, f);
    if Consistent(w, client, s, f) {
      VouchedTells(w, client, links, i, s, f);
    }
    hide RequestName, Matching, DecisionsOf, CompletionsOf, BorneOut, SendOf, FinishOf, Vouched, Sole;
  }

  lemma TallyCause(w: Window, client: ClientLinks, links: Links)
    requires OneEach(w, client)
    ensures var tally := Tallied(w, client, links, w.spec.count);
      && (tally == Err(Unknown) ==> SomeUnreadable(w, client))
      && (tally == Err(Refused) ==> SomeUnsettled(w, client, links))
  {
    if Tallied(w, client, links, w.spec.count).Err? {
      var i := FirstHalt(w, client, links, w.spec.count);
      hide Judged, Tallied, Named, RequestName, Sole, Unsettled;
      assert HasBoth(w, client, i);
      var s: nat, f: nat :| Sole(w, client, i, s, f);
      HaltCause(w, client, links, i, s, f);
    }
  }

  // A window that is not covered lacks something; a rejected one has something
  // broken.
  lemma OutcomeHasCause(w: Window, clientFile: Option<Bytes>, authorityFile: Option<Bytes>)
    ensures Verified(w, clientFile, authorityFile).Unknown? ==> Missing(w, clientFile, authorityFile)
    ensures Verified(w, clientFile, authorityFile).Refused? ==> Broken(w, clientFile, authorityFile)
  {
    hide Unfinished, ForeignClient, SomeAltered, SomeUnsettled, RestartedIn, CheckClient, CheckAuthority, AllNew,
      Tallied, SplitLines, Journalled, DecidedApart, Reused, Duplicates, OneEach;
    if Lines(clientFile) && Lines(authorityFile) && ReadClient(w.cf, clientFile.value).Some? {
      var client := ReadClient(w.cf, clientFile.value).value;
      ClientCause(w, client);
      if CheckClient(w, client).None? && ReadTraffic(w.tf, authorityFile.value).Some? {
        var links := ReadTraffic(w.tf, authorityFile.value).value;
        FirstLineReads(w, authorityFile.value);
        AuthorityCause(w, links);
        DecidedExactly(w, links);
        TracedExactly(w, client);
        ScheduledGivesSole(w, client);
        TallyCause(w, client, links);
        UnreadableIsUnfinished(w, client);
      }
    }
  }

  lemma UnreadableIsUnfinished(w: Window, client: ClientLinks)
    ensures SomeUnreadable(w, client) ==> Unfinished(w, client)
  {
    hide SomeUnreadable, OneEach, AcrossFault;
  }
}
