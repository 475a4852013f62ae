/**
 How an open appears in the journal. An applied open should carry its own
 intent's generation and fence, one above the route recorded with the intent.
 Every run keeps part of this; the whole of it, exactly those runs in which no
 late shut falls just before an open reads the route for a record.
 */
module LoopbackOpens {
  import opened Wrappers
  import opened JournalBytes
  import opened HashChain
  import opened LoopbackAuthority
  import opened LoopbackScripts
  import opened LoopbackJournal

  // ---------------------------------------------------------------------
  // Open discipline

  // This is the intent of an open that leads to `shown`, one generation above
  // the route recorded with it.
  predicate IntentFor(p: Record, shown: Shown) {
    && p.detail.OpenIntent? && shown.generation == Some(p.detail.candidate) && shown.fence == Some(p.detail.fence)
    && p.route.generation.Some? && Follows(p.route.generation.value, p.detail.candidate)
  }

  predicate OnlyCompletions(links: Links, from: nat, to: nat)
    requires to <= |links|
  {
    forall k :: from <= k < to ==> links[k].payload.detail.Complete?
  }

  // The last record before position n, completions aside, is an intent, at j.
  predicate LastIntent(links: Links, n: nat, j: nat)
    requires n <= |links|
  {
    j < n && links[j].payload.detail.OpenIntent? && OnlyCompletions(links, j + 1, n)
  }

  ghost predicate IntentBefore(links: Links, n: nat, shown: Shown)
    requires n <= |links|
  {
    exists j: nat :: LastIntent(links, n, j) && IntentFor(links[j].payload, shown)
  }

  ghost predicate Disciplined(links: Links) {
    forall k :: 0 <= k < |links| && links[k].payload.detail.OpenApplied? ==>
      IntentBefore(links, k, links[k].payload.route)
  }

  // What is left of IntentFor where one of the two routes is shown closed.
  predicate MeantFor(p: Record, shown: Shown) {
    && p.detail.OpenIntent?
    && (shown.generation.Some? ==>
          shown.generation == Some(p.detail.candidate) && shown.fence == Some(p.detail.fence))
    && (p.route.generation.Some? ==> Follows(p.route.generation.value, p.detail.candidate))
  }

  ghost predicate Announced(links: Links, n: nat, shown: Shown)
    requires n <= |links|
  {
    exists j: nat :: LastIntent(links, n, j) && MeantFor(links[j].payload, shown)
  }

  // That intent is recorded with a closed route.
  ghost predicate ClosedIntent(links: Links, n: nat)
    requires n <= |links|
  {
    exists j: nat :: LastIntent(links, n, j) && links[j].payload.route.generation.None?
  }

  ghost predicate AllAnnounced(links: Links) {
    forall k :: 0 <= k < |links| && links[k].payload.detail.OpenApplied? ==>
      Announced(links, k, links[k].payload.route)
  }

  lemma OneLastIntent(links: Links, n: nat, i: nat, j: nat)
    requires n <= |links| && LastIntent(links, n, i) && LastIntent(links, n, j)
    ensures i == j
  {
  }

  // What an announced open still needs: both routes shown open.
  lemma BothShownOpen(links: Links, n: nat, shown: Shown)
    requires n <= |links| && Announced(links, n, shown)
    ensures IntentBefore(links, n, shown) <==> shown.generation.Some? && !ClosedIntent(links, n)
  {
    hide OnlyCompletions, Follows;
    var j: nat :| LastIntent(links, n, j) && MeantFor(links[j].payload, shown);
    forall i: nat | LastIntent(links, n, i) ensures i == j {
      OneLastIntent(links, n, i, j);
    }
  }

  lemma LastIntentStays(links: Links, link: Link<Record>, n: nat, j: nat)
    requires n <= |links|
    ensures LastIntent(links + [link], n, j) <==> LastIntent(links, n, j)
  {
    var longer := links + [link];
    assert forall k :: 0 <= k < n ==> longer[k] == links[k];
  }

  // A later record changes nothing about an intent.
  lemma IntentsStay(links: Links, link: Link<Record>, n: nat, shown: Shown)
    requires n <= |links|
    ensures IntentBefore(links + [link], n, shown) <==> IntentBefore(links, n, shown)
    ensures Announced(links + [link], n, shown) <==> Announced(links, n, shown)
  {
    hide IntentFor, MeantFor, OnlyCompletions;
    var longer := links + [link];
    forall j: nat ensures LastIntent(longer, n, j) <==> LastIntent(links, n, j) {
      LastIntentStays(links, link, n, j);
    }
    assert forall j: nat :: j < n ==> longer[j] == links[j];
  }

  lemma DisciplineGrows(links: Links, link: Link<Record>)
    ensures Disciplined(links + [link]) <==>
      Disciplined(links) && (link.payload.detail.OpenApplied? ==> IntentBefore(links, |links|, link.payload.route))
  {
    hide IntentBefore;
    var longer := links + [link];
    forall k: nat | k <= |links|
      ensures IntentBefore(longer, k, longer[k].payload.route) <==> IntentBefore(links, k, longer[k].payload.route)
    {
      IntentsStay(links, link, k, longer[k].payload.route);
    }
    assert forall k :: 0 <= k < |links| ==> longer[k] == links[k];
    assert longer[|links|] == link;
  }

  lemma AnnouncedGrows(links: Links, link: Link<Record>)
    requires AllAnnounced(links)
    requires link.payload.detail.OpenApplied? ==> Announced(links, |links|, link.payload.route)
    ensures AllAnnounced(links + [link])
  {
    hide Announced;
    var longer := links + [link];
    forall k | 0 <= k < |longer| && longer[k].payload.detail.OpenApplied?
      ensures Announced(longer, k, longer[k].payload.route)
    {
      IntentsStay(links, link, k, longer[k].payload.route);
    }
  }

  // A completion journalled meanwhile does not separate an open from its intent.
  lemma CompletionKeepsIntent(links: Links, link: Link<Record>, shown: Shown)
    requires link.payload.detail.Complete?
    ensures Announced(links + [link], |links| + 1, shown) <==> Announced(links, |links|, shown)
    ensures ClosedIntent(links + [link], |links| + 1) <==> ClosedIntent(links, |links|)
  {
    var longer := links + [link];
    forall j: nat ensures LastIntent(longer, |longer|, j) <==> LastIntent(links, |links|, j) {
      LastIntentStays(links, link, |links|, j);
      assert OnlyCompletions(longer, |longer| - 1, |longer|);
    }
    hide LastIntent;
    assert forall j: nat :: j < |links| ==> longer[j] == links[j];
  }

  lemma JustAnnounced(links: Links, link: Link<Record>, shown: Shown)
    requires MeantFor(link.payload, shown)
    ensures Announced(links + [link], |links| + 1, shown)
    ensures ClosedIntent(links + [link], |links| + 1) <==> link.payload.route.generation.None?
  {
    var longer := links + [link];
    assert LastIntent(longer, |longer|, |links|);
    forall j: nat | LastIntent(longer, |longer|, j) ensures j == |links| {
      OneLastIntent(longer, |longer|, j, |links|);
    }
  }

  // ---------------------------------------------------------------------
  // Where an open stands

  const RECORDING: Script := Put(OpenApplied, Idle)
  const CONFIRMING: Script := Fetch(RECORDING)

  // The candidate is about to be installed.
  predicate Installing(script: Script) {
    script.Assign? && script.route.Live? && script.rest == CONFIRMING
  }

  // The intent is about to be recorded on the route in the local variable.
  predicate Announcing(script: Script) {
    && script.Put? && script.detail.OpenIntent? && Installing(script.rest)
    && script.rest.route.generation == script.detail.candidate && script.rest.route.fence == script.detail.fence
  }

  // The open was granted, and the route is about to be read for the intent.
  predicate Asked(script: Script) {
    script.Fetch? && Announcing(script.rest)
  }

  predicate Opens(script: Script) {
    Asked(script) || Announcing(script) || Installing(script) || script == CONFIRMING || script == RECORDING
  }

  ghost predicate OpensNothing(script: Script) {
    OpenApplied !in Details(script) && forall d :: d in Details(script) ==> !d.OpenIntent?
  }

  predicate Above(r: Route, intent: Detail)
    requires intent.OpenIntent?
  {
    r.Live? ==> Follows(r.generation, intent.candidate)
  }

  // What the rest of an open may rely on, late shuts or not; any other stretch
  // has nothing to do with opens.
  ghost predicate Promised(cfg: Config, s: System) {
    var links := s.log.links;
    if Asked(s.script) then Above(s.route, s.script.rest.detail)
    else if Announcing(s.script) then Above(s.local, s.script.detail)
    else if Installing(s.script) then Announced(links, |links|, Show(cfg, s.script.route))
    else if s.script == CONFIRMING then Announced(links, |links|, Show(cfg, s.route))
    else if s.script == RECORDING then Announced(links, |links|, Show(cfg, s.local))
    else OpensNothing(s.script)
  }

  // The open's next or last record shows a closed route.
  ghost predicate Marred(s: System) {
    var links := s.log.links;
    if Asked(s.script) then s.route.Shut?
    else if Announcing(s.script) then s.local.Shut?
    else if Installing(s.script) then ClosedIntent(links, |links|)
    else if s.script == CONFIRMING then s.route.Shut? || ClosedIntent(links, |links|)
    else s.local.Shut? || ClosedIntent(links, |links|)
  }

  // A failed append's late shut falls just before an open reads the route for
  // its next record.
  predicate Strikes(s: System, act: Action) {
    act.Sink? && At(s, act.id, Failing) && (Asked(s.script) || s.script == CONFIRMING)
  }

  // Such a shut has hit the current stretch.
  predicate Struck(cfg: Config, io: Io, actions: seq<Action>) {
    if actions == [] then false else
    var front, act := actions[..|actions| - 1], actions[|actions| - 1];
    var s := Run(cfg, io, front);
    !s.script.Idle? && (Struck(cfg, io, front) || Strikes(s, act))
  }

  // This action journals an applied open.
  predicate Applies(cfg: Config, s: System, act: Action) {
    && act.Tick? && s.script.Put? && s.script.detail.OpenApplied?
    && |Next(cfg, s, act).log.links| > |s.log.links|
  }

  // Some stretch that was hit has journalled its applied open.
  predicate Spoilt(cfg: Config, io: Io, actions: seq<Action>) {
    if actions == [] then false else
    var front, act := actions[..|actions| - 1], actions[|actions| - 1];
    Spoilt(cfg, io, front) || (Struck(cfg, io, front) && Applies(cfg, Run(cfg, io, front), act))
  }

  // ---------------------------------------------------------------------
  // What every step keeps

  lemma OpensOrNothing(script: Script)
    ensures Opens(script) ==> !OpensNothing(script)
  {
    assert OpenApplied in Details(RECORDING);
    assert OpenApplied in Details(CONFIRMING);
    assert Announcing(script) ==> script.detail in Details(script);
    assert Asked(script) ==> script.rest.detail in Details(script.rest);
  }

  ghost predicate Orderly(cfg: Config, s: System) {
    AllAnnounced(s.log.links) && Promised(cfg, s)
  }

  // A step that leaves journal and stretch alone, and the route but for a
  // late shut.
  lemma AsideKeeps(cfg: Config, s: System, t: System)
    requires Promised(cfg, s) && t.log.links == s.log.links && t.script == s.script && t.local == s.local
    requires t.route == s.route || t.route.Shut?
    ensures Promised(cfg, t)
    ensures Marred(t) <==> if t.route == s.route then Marred(s) else
      Marred(s) || Asked(s.script) || s.script == CONFIRMING
  {
    if s.script == CONFIRMING && t.route.Shut? {
      ShutIsAnnounced(s.log.links, Show(cfg, s.route), Show(cfg, t.route));
    }
  }

  lemma ShutIsAnnounced(links: Links, shown: Shown, closed: Shown)
    requires Announced(links, |links|, shown) && closed.generation.None?
    ensures Announced(links, |links|, closed)
  {
    var j: nat :| LastIntent(links, |links|, j) && MeantFor(links[j].payload, shown);
    assert MeantFor(links[j].payload, closed);
  }

  // A tick that reads or sets the route.
  lemma TickKeeps(cfg: Config, s: System, io: Io)
    requires Promised(cfg, s) && (s.script.Assign? || s.script.Fetch?)
    ensures var t := Moved(cfg, s, Tick(io));
      Promised(cfg, t) && (Opens(t.script) ==> Opens(s.script) && (Marred(t) <==> Marred(s)))
  {
    OpensOrNothing(s.script);
    OpensOrNothing(s.script.rest);
    RestHolds(s.script);
    hide Details, Follows, Announced, ClosedIntent;
  }

  lemma IdleOpensNothing(script: Script)
    requires script.Idle?
    ensures OpensNothing(script) && !Opens(script)
  {
  }

  // A fresh stretch.
  lemma LoadKeeps(cfg: Config, s: System, act: Action)
    requires s.script.Idle?
    ensures var t := Moved(cfg, s, act);
      Promised(cfg, t) && (Opens(t.script) ==> !Marred(t))
  {
    var t := Moved(cfg, s, act);
    if act.Open? && Granted(cfg, s, act).Some? {
      hide Follows;
      assert Asked(t.script);
    } else {
      MovedReach(cfg, s, act);
      assert OpensNothing(t.script);
      OpensOrNothing(t.script);
    }
  }

  lemma MovedOpens(cfg: Config, s: System, act: Action)
    requires Promised(cfg, s)
    ensures var t := Moved(cfg, s, act);
      && Promised(cfg, t)
      && (Opens(t.script) ==> if s.script.Idle? then !Marred(t) else
            Opens(s.script) && (Marred(t) <==> Marred(s) || Strikes(s, act)))
  {
    if s.script.Idle? {
      LoadKeeps(cfg, s, act);
    } else if act.Tick? && (s.script.Assign? || s.script.Fetch?) {
      TickKeeps(cfg, s, act.io);
    } else if act.Interrupt? && s.control {
      IdleOpensNothing(Moved(cfg, s, act).script);
    } else {
      AsideKeeps(cfg, s, Moved(cfg, s, act));
    }
  }

  // An unlocked completion, journalled or not.
  lemma ReplyKeeps(cfg: Config, s: System, t: System, link: Link<Record>)
    requires Promised(cfg, s) && t.script == s.script && t.route == s.route && t.local == s.local
    requires t.log.links == s.log.links || (t.log.links == s.log.links + [link] && link.payload.detail.Complete?)
    ensures Promised(cfg, t) && (Marred(t) <==> Marred(s))
  {
    if t.log.links == s.log.links + [link] {
      CompletionKeepsIntent(s.log.links, link, Show(cfg, s.route));
      CompletionKeepsIntent(s.log.links, link, Show(cfg, s.local));
      if s.script.Assign? {
        CompletionKeepsIntent(s.log.links, link, Show(cfg, s.script.route));
      }
    }
    hide Announced, ClosedIntent, Follows, Details;
  }

  // A record written under the lock.
  lemma PutKeeps(cfg: Config, s: System, t: System, link: Link<Record>)
    requires Promised(cfg, s) && s.script.Put? && t.script == s.script.rest && t.route == s.route && t.local == s.local
    requires t.log.links == s.log.links + [link]
    requires link.payload.detail == s.script.detail && link.payload.route == Show(cfg, s.local)
    ensures Promised(cfg, t) && (Opens(t.script) ==> Opens(s.script) && (Marred(t) <==> Marred(s)))
  {
    if Announcing(s.script) {
      JustAnnounced(s.log.links, link, Show(cfg, s.script.rest.route));
    } else if s.script == RECORDING {
      IdleOpensNothing(t.script);
    } else {
      RestHolds(s.script);
      OpensOrNothing(t.script);
    }
    hide Announced, ClosedIntent, Follows, Details;
  }

  // The stretch after any step, and whether a closed route shows in it.
  lemma NextOpens(cfg: Config, s: System, act: Action)
    requires Promised(cfg, s)
    ensures var t := Next(cfg, s, act);
      && Promised(cfg, t)
      && (Opens(t.script) ==> if s.script.Idle? then !Marred(t) else
            Opens(s.script) && (Marred(t) <==> Marred(s) || Strikes(s, act)))
  {
    var ok := NextLinks(cfg, s, act);
    var t, attempt := Next(cfg, s, act), Attempted(cfg, s, act);
    hide Next;
    if attempt.None? {
      hide Moved, Promised, Marred, Strikes, Opens;
      MovedOpens(cfg, s, act);
    } else if act.Reply? {
      hide Promised, Marred, Opens;
      if s.script.Idle? {
        IdleOpensNothing(s.script);
      }
      ReplyKeeps(cfg, s, t, Extension(cfg, s, attempt.value));
    } else if ok && s.script.Put? {
      hide Promised, Marred, Opens;
      PutKeeps(cfg, s, t, Extension(cfg, s, attempt.value));
    } else {
      IdleOpensNothing(t.script);
      hide Marred, Opens;
    }
  }

  // The journal after any step.
  lemma NextAnnounced(cfg: Config, s: System, act: Action)
    requires Orderly(cfg, s) && NoLooseAdmission(s.script)
    ensures var t := Next(cfg, s, act);
      && AllAnnounced(t.log.links)
      && (Disciplined(t.log.links) <==> Disciplined(s.log.links) && !(Applies(cfg, s, act) && Marred(s)))
      && (Applies(cfg, s, act) ==> Opens(s.script))
  {
    var ok := NextLinks(cfg, s, act);
    hide Next;
    if ok {
      var a := Attempted(cfg, s, act).value;
      var link := Extension(cfg, s, a);
      AppliedIsAnnounced(cfg, s, act, link);
      assert Applies(cfg, s, act) <==> link.payload.detail.OpenApplied?;
      hide Attempted, Promised, Marred, AllAnnounced, Disciplined, IntentBefore, Announced, Opens;
      DisciplineGrows(s.log.links, link);
      AnnouncedGrows(s.log.links, link);
    }
  }

  lemma AppliedIsAnnounced(cfg: Config, s: System, act: Action, link: Link<Record>)
    requires Promised(cfg, s) && NoLooseAdmission(s.script) && Attempted(cfg, s, act).Some?
    requires link == Extension(cfg, s, Attempted(cfg, s, act).value)
    ensures link.payload.detail.OpenApplied? <==> act.Tick? && s.script.Put? && s.script.detail.OpenApplied?
    ensures link.payload.detail.OpenApplied? ==>
      s.script == RECORDING && Announced(s.log.links, |s.log.links|, link.payload.route)
    ensures link.payload.detail.OpenApplied? ==>
      (IntentBefore(s.log.links, |s.log.links|, link.payload.route) <==> !Marred(s))
  {
    hide IntentBefore, Announced, ClosedIntent, Follows;
    if link.payload.detail.OpenApplied? {
      assert s.script.Put? && s.script.detail in Details(s.script);
      BothShownOpen(s.log.links, |s.log.links|, link.payload.route);
    }
  }

  // ---------------------------------------------------------------------
  // Runs

  lemma {:induction false} RunOpens(cfg: Config, io: Io, actions: seq<Action>)
    requires Begun(cfg, io).1 == Done
    ensures var s := Run(cfg, io, actions);
      && Orderly(cfg, s) && NoLooseAdmission(s.script)
      && (Opens(s.script) ==> (Marred(s) <==> Struck(cfg, io, actions)))
      && (Disciplined(s.log.links) <==> !Spoilt(cfg, io, actions))
  {
    if actions == [] {
      WriteLinks(cfg, Log([], [], Intact), cfg.origin, AuthorityStart(cfg.authorization, cfg.backends), io);
      IdleOpensNothing(Run(cfg, io, actions).script);
    } else {
      var front, act := actions[..|actions| - 1], actions[|actions| - 1];
      var s := Run(cfg, io, front);
      RunOpens(cfg, io, front);
      hide Next, Promised, AllAnnounced, Disciplined, NoLooseAdmission, Opens, Marred, Strikes, Applies;
      NextOpens(cfg, s, act);
      NextAnnounced(cfg, s, act);
      NextScript(cfg, s, act);
    }
  }

  // Every applied open of every run comes right behind its intent, completions
  // aside, and agrees with it as far as the two routes are shown open. So the
  // discipline holds exactly when both are shown open every time.
  lemma OpenDisciplineExactly(cfg: Config, io: Io, actions: seq<Action>)
    requires Begun(cfg, io).1 == Done
    ensures var links := Run(cfg, io, actions).log.links;
      && AllAnnounced(links)
      && (Disciplined(links) <==> forall k :: 0 <= k < |links| && links[k].payload.detail.OpenApplied? ==>
            links[k].payload.route.generation.Some? && !ClosedIntent(links, k))
  {
    RunOpens(cfg, io, actions);
    var links := Run(cfg, io, actions).log.links;
    hide Run, Spoilt, Struck, Announced, IntentBefore, ClosedIntent;
    forall k | 0 <= k < |links| && links[k].payload.detail.OpenApplied?
      ensures IntentBefore(links, k, links[k].payload.route)
        <==> links[k].payload.route.generation.Some? && !ClosedIntent(links, k)
    {
      BothShownOpen(links, k, links[k].payload.route);
    }
  }

  // And that is exactly when no late shut fell into one of the two windows of
  // an open that then went through: between its grant and the reading of the
  // route for its intent, or between installing the candidate and reading the
  // route for the applied record.
  lemma LateShutsSpoilExactly(cfg: Config, io: Io, actions: seq<Action>)
    requires Begun(cfg, io).1 == Done
    ensures Disciplined(Run(cfg, io, actions).log.links) <==> !Spoilt(cfg, io, actions)
  {
    RunOpens(cfg, io, actions);
  }

  // No late shut without a failed append: then the discipline holds.
  lemma {:induction false} NoFailureNoShut(cfg: Config, io: Io, actions: seq<Action>)
    requires !Run(cfg, io, actions).refused
    ensures forall id :: id in Run(cfg, io, actions).handlers ==> !Run(cfg, io, actions).handlers[id].stage.Failing?
    ensures !Struck(cfg, io, actions) && !Spoilt(cfg, io, actions)
  {
    if actions == [] {
    } else {
      var front, act := actions[..|actions| - 1], actions[|actions| - 1];
      var s := Run(cfg, io, front);
      var ok := NextLinks(cfg, s, act);
      hide Next;
      NoFailureNoShut(cfg, io, front);
      MovedNeverFails(cfg, s, act);
    }
  }

  lemma MovedNeverFails(cfg: Config, s: System, act: Action)
    requires forall id :: id in s.handlers ==> !s.handlers[id].stage.Failing?
    ensures forall id :: id in Moved(cfg, s, act).handlers ==> !Moved(cfg, s, act).handlers[id].stage.Failing?
  {
    hide Candidacy, Observation, Refreshed, Opening, Restoring, Follows;
  }

  // The append this action makes in this state does not succeed.
  predicate Refuses(cfg: Config, s: System, act: Action) {
    var attempt := Attempted(cfg, s, act);
    attempt.Some? && Write(cfg, s.log, attempt.value.route, attempt.value.detail, attempt.value.io).1 != Done
  }

  ghost predicate NothingRefused(cfg: Config, io: Io, actions: seq<Action>) {
    forall i: nat :: i < |actions| ==> !Refuses(cfg, Run(cfg, io, actions[..i]), actions[i])
  }

  lemma NothingRefusedYet(cfg: Config, io: Io, actions: seq<Action>)
    requires actions != []
    ensures var front := actions[..|actions| - 1];
      NothingRefused(cfg, io, actions)
      <==> NothingRefused(cfg, io, front) && !Refuses(cfg, Run(cfg, io, front), actions[|actions| - 1])
  {
    hide Run, Refuses;
    var front := actions[..|actions| - 1];
    forall i: nat | i < |front|
      ensures Refuses(cfg, Run(cfg, io, front[..i]), front[i]) <==> Refuses(cfg, Run(cfg, io, actions[..i]), actions[i])
    {
      assert front[..i] == actions[..i];
    }
  }

  lemma {:induction false} RefusedExactly(cfg: Config, io: Io, actions: seq<Action>)
    ensures Run(cfg, io, actions).refused <==> !NothingRefused(cfg, io, actions)
  {
    hide Next, Refuses;
    if actions == [] {
    } else {
      hide NothingRefused;
      var n := |actions| - 1;
      RefusedExactly(cfg, io, actions[..n]);
      RefusedGrows(cfg, Run(cfg, io, actions[..n]), actions[n]);
      NothingRefusedYet(cfg, io, actions);
    }
  }

  lemma RefusedGrows(cfg: Config, s: System, act: Action)
    ensures Next(cfg, s, act).refused <==> s.refused || Refuses(cfg, s, act)
  {
    var ok := NextLinks(cfg, s, act);
    hide Moved, Settled, Attempted;
  }

  lemma OpenDiscipline(cfg: Config, io: Io, actions: seq<Action>)
    requires Begun(cfg, io).1 == Done && NothingRefused(cfg, io, actions)
    ensures Disciplined(Run(cfg, io, actions).log.links)
  {
    RunOpens(cfg, io, actions);
    RefusedExactly(cfg, io, actions);
    NoFailureNoShut(cfg, io, actions);
  }
}
