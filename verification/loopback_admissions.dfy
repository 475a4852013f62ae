/**
 One admission decision per request identity: whatever the interleaving of
 handlers and control operations, a non-empty request id is admitted or
 rejected at most once in a journal.
 */
module LoopbackAdmissions {
  import opened JournalBytes
  import opened HashChain
  import opened LoopbackAuthority
  import opened LoopbackScripts

  type Links = seq<Link<Record>>

  // The request a record decides about; requests without an identity are not
  // deduplicated.
  function DecidedId(links: Links, i: nat): string
    requires i < |links|
  {
    if links[i].payload.detail.Admission? then links[i].payload.detail.requestId else ""
  }

  ghost predicate DecidedOnce(links: Links) {
    forall i, k :: 0 <= i < k < |links| && DecidedId(links, i) != "" ==> DecidedId(links, i) != DecidedId(links, k)
  }

  ghost predicate DecidedAreSeen(s: System) {
    forall i :: 0 <= i < |s.log.links| && DecidedId(s.log.links, i) != "" ==> DecidedId(s.log.links, i) in s.seen
  }

  // A handler that has passed the duplicate check and has no decision yet.
  predicate Undecided(s: System, id: nat) {
    id in s.handlers && (s.handlers[id].stage.Cleared? || s.handlers[id].stage.Waiting?)
    && s.handlers[id].ask.requestId != ""
  }

  ghost predicate UndecidedAreNew(s: System) {
    forall id :: Undecided(s, id) ==>
      s.handlers[id].ask.requestId in s.seen && NotDecided(s.log.links, s.handlers[id].ask.requestId)
  }

  ghost predicate NotDecided(links: Links, requestId: string) {
    forall i :: 0 <= i < |links| ==> DecidedId(links, i) != requestId
  }

  ghost predicate UndecidedDiffer(s: System) {
    forall id, other :: Undecided(s, id) && Undecided(s, other) && id != other ==>
      s.handlers[id].ask.requestId != s.handlers[other].ask.requestId
  }

  ghost predicate TargetWaits(s: System) {
    && (forall d :: d in Details(s.script) ==> !d.Admission?)
    && (Target(s.script).Some? ==>
          var (id, ask) := Target(s.script).value;
          id in s.handlers && s.handlers[id] == Handler(ask, Waiting))
  }

  ghost predicate Unique(s: System) {
    DecidedOnce(s.log.links) && DecidedAreSeen(s) && UndecidedAreNew(s) && UndecidedDiffer(s) && TargetWaits(s)
  }

  lemma MovedHandlers(cfg: Config, s: System, act: Action)
    ensures s.seen <= Moved(cfg, s, act).seen && Moved(cfg, s, act).log == s.log
    ensures forall id :: At(s, id, Waiting) ==>
      At(Moved(cfg, s, act), id, Waiting) && Moved(cfg, s, act).handlers[id].ask == s.handlers[id].ask
    ensures act.Admit? && At(s, act.id, Cleared) ==>
      act.id in Moved(cfg, s, act).handlers && Moved(cfg, s, act).handlers[act.id].ask == s.handlers[act.id].ask
  {
    hide Candidacy, Observation, Refreshed, Follows, Opening, Restoring;
  }

  // Only a fresh arrival makes a handler undecided.
  lemma MovedUndecided(cfg: Config, s: System, act: Action, id: nat)
    requires Undecided(Moved(cfg, s, act), id)
    ensures Moved(cfg, s, act).handlers[id].ask.requestId in Moved(cfg, s, act).seen || Undecided(s, id)
    ensures
      || (Undecided(s, id) && s.handlers[id].ask == Moved(cfg, s, act).handlers[id].ask)
      || (act.Arrive? && act.id == id && Moved(cfg, s, act).handlers[id].ask.requestId !in s.seen)
  {
    hide Candidacy, Observation, Refreshed, Follows, Opening, Restoring;
  }

  lemma MovedUnique(cfg: Config, s: System, act: Action)
    requires Unique(s)
    ensures Unique(Moved(cfg, s, act))
  {
    var t := Moved(cfg, s, act);
    MovedReach(cfg, s, act);
    MovedHandlers(cfg, s, act);
    TargetStillWaits(cfg, s, act);
    forall id | Undecided(t, id)
      ensures t.handlers[id].ask.requestId in t.seen && NotDecided(t.log.links, t.handlers[id].ask.requestId)
    {
      MovedUndecided(cfg, s, act, id);
    }
    forall id, other | Undecided(t, id) && Undecided(t, other) && id != other
      ensures t.handlers[id].ask.requestId != t.handlers[other].ask.requestId
    {
      MovedUndecided(cfg, s, act, id);
      MovedUndecided(cfg, s, act, other);
    }
  }

  lemma TargetStillWaits(cfg: Config, s: System, act: Action)
    requires TargetWaits(s)
    ensures TargetWaits(Moved(cfg, s, act))
  {
    MovedReach(cfg, s, act);
    MovedHandlers(cfg, s, act);
    if act.Admit? && At(s, act.id, Cleared) && s.script.Idle? {
      assert Moved(cfg, s, act).handlers[act.id].stage.Waiting?;
    }
  }

  // Extending the journal by a record that decides nothing new.
  lemma LinksGrow(s: System, links: Links)
    requires Unique(s) && |s.log.links| <= |links| <= |s.log.links| + 1 && s.log.links <= links
    requires |links| > |s.log.links| ==> DecidedId(links, |s.log.links|) == ""
    ensures Unique(s.(log := s.log.(links := links)))
  {
    var t := s.(log := s.log.(links := links));
    assert forall i :: 0 <= i < |s.log.links| ==> DecidedId(links, i) == DecidedId(s.log.links, i);
    assert forall id :: Undecided(t, id) == Undecided(s, id);
  }

  // Extending it by the decision of a handler that was waiting for one.
  lemma DecisionRecorded(s: System, links: Links, id: nat, stage: Stage)
    requires Unique(s) && |links| == |s.log.links| + 1 && s.log.links <= links
    requires id in s.handlers && s.handlers[id].stage.Waiting? && !stage.Cleared? && !stage.Waiting?
    requires DecidedId(links, |s.log.links|) == s.handlers[id].ask.requestId
    ensures Unique(s.(log := s.log.(links := links), handlers := Move(s, id, stage), script := Idle))
  {
    var n := |s.log.links|;
    var t := s.(log := s.log.(links := links), handlers := Move(s, id, stage), script := Idle);
    assert forall i :: 0 <= i < n ==> DecidedId(links, i) == DecidedId(s.log.links, i);
    assert DecidedId(links, n) != "" ==> Undecided(s, id);
    assert forall other :: Undecided(t, other) ==> other != id && Undecided(s, other);
  }

  // A handler leaving a stage that is no longer undecided; a stretch ending.
  lemma HandlerLeaves(s: System, id: nat, stage: Stage, script: Script)
    requires Unique(s) && !stage.Cleared? && !stage.Waiting?
    requires script.Idle? || (script == s.script && IsForwarding(s, id))
    ensures Unique(s.(handlers := Move(s, id, stage), script := script))
  {
    var t := s.(handlers := Move(s, id, stage), script := script);
    assert forall other :: Undecided(t, other) ==> Undecided(s, other) && t.handlers[other] == s.handlers[other];
  }

  lemma ScriptShrinks(s: System, script: Script)
    requires Unique(s) && (script.Idle? || (s.script.Put? && script == s.script.rest))
    ensures Unique(s.(script := script))
  {
    var t := s.(script := script);
    assert forall other :: Undecided(t, other) == Undecided(s, other);
  }

  lemma RouteIsFree(s: System, r: Route)
    requires Unique(s)
    ensures Unique(s.(route := r))
  {
    var t := s.(route := r);
    assert forall other :: Undecided(t, other) == Undecided(s, other);
  }

  lemma DecideWaits(s: System)
    requires Unique(s) && s.script.Decide?
    ensures s.script.id in s.handlers && s.handlers[s.script.id] == Handler(s.script.ask, Waiting)
  {
  }

  lemma DecidedByDetail(links: Links)
    ensures forall i :: 0 <= i < |links| ==>
      DecidedId(links, i) == if links[i].payload.detail.Admission? then links[i].payload.detail.requestId else ""
  {
  }

  lemma SettledUnique(s: System, act: Action, ok: bool, links: Links, d: Detail)
    requires Unique(s)
    requires |links| == |s.log.links| + (if ok then 1 else 0) && s.log.links <= links
    requires ok ==> links[|s.log.links|].payload.detail == d
    requires act.Tick? || (act.Reply? && IsForwarding(s, act.id))
    requires act.Tick? && s.script.Decide? ==> d.Admission? && d.requestId == s.script.ask.requestId
    requires !(act.Tick? && s.script.Decide?) ==> !d.Admission?
    ensures var t := Settled(s, act, ok);
      Unique(t.(log := t.log.(links := links)))
  {
    hide Unique, Undecided, DecidedId;
    var grown := s.(log := s.log.(links := links));
    DecidedByDetail(links);
    if act.Tick? && s.script.Decide? {
      var id := s.script.id;
      DecideWaits(s);
      if ok {
        DecisionRecorded(s, links, id, if s.local.Live? then Forwarding(s.local) else Gone);
      } else {
        assert links == s.log.links && grown == s;
        HandlerLeaves(s, id, Gone, Idle);
        RouteIsFree(s.(handlers := Move(s, id, Gone), script := Idle), Shut);
      }
    } else {
      LinksGrow(s, links);
      if act.Reply? {
        HandlerLeaves(grown, act.id, if ok then Gone else Failing, s.script);
      } else if s.script.Put? {
        ScriptShrinks(grown, if ok then s.script.rest else Idle);
        if !ok {
          RouteIsFree(grown.(script := Idle), Shut);
        }
      }
    }
  }

  lemma NextUnique(cfg: Config, s: System, act: Action)
    requires Unique(s)
    ensures Unique(Next(cfg, s, act))
  {
    hide Unique, Write;
    var attempt := Attempted(cfg, s, act);
    if attempt.None? {
      hide Moved;
      MovedUnique(cfg, s, act);
    } else {
      AttemptIsDecision(cfg, s, act);
      hide Settled, Attempted;
      var a := attempt.value;
      var (log, outcome) := Write(cfg, s.log, a.route, a.detail, a.io);
      WriteLinks(cfg, s.log, a.route, a.detail, a.io);
      SettledUnique(s, act, outcome == Done, log.links, a.detail);
      UniqueIgnoresFile(Settled(s, act, outcome == Done), log, s.refused || outcome != Done);
    }
  }

  lemma AttemptIsDecision(cfg: Config, s: System, act: Action)
    requires Unique(s) && Attempted(cfg, s, act).Some?
    ensures var d := Attempted(cfg, s, act).value.detail;
      && (act.Tick? || (act.Reply? && IsForwarding(s, act.id)))
      && (act.Tick? && s.script.Decide? ==> d.Admission? && d.requestId == s.script.ask.requestId)
      && (!(act.Tick? && s.script.Decide?) ==> !d.Admission?)
  {
  }

  lemma UniqueIgnoresFile(s: System, log: Log<Record>, refused: bool)
    requires Unique(s.(log := s.log.(links := log.links)))
    ensures Unique(s.(log := log, refused := refused))
  {
    var t, u := s.(log := s.log.(links := log.links)), s.(log := log, refused := refused);
    assert forall id :: Undecided(t, id) == Undecided(u, id);
  }

  lemma {:induction false} RunUnique(cfg: Config, io: Io, actions: seq<Action>)
    ensures Unique(Run(cfg, io, actions))
  {
    if actions == [] {
      WriteLinks(cfg, Log([], [], Intact), cfg.origin, AuthorityStart(cfg.authorization, cfg.backends), io);
    } else {
      hide Unique, Next;
      RunUnique(cfg, io, actions[..|actions| - 1]);
      NextUnique(cfg, Run(cfg, io, actions[..|actions| - 1]), actions[|actions| - 1]);
    }
  }

  // Nor does a line that was not acknowledged decide a request again.
  ghost predicate ExtraIsNew(log: Log<Record>) {
    log.disk.Unsynced? && log.disk.extra.payload.detail.Admission? && log.disk.extra.payload.detail.requestId != "" ==>
      NotDecided(log.links, log.disk.extra.payload.detail.requestId)
  }

  lemma WriteKeepsExtra(cfg: Config, log: Log<Record>, r: Route, d: Detail, io: Io)
    requires ExtraIsNew(log)
    requires d.Admission? && d.requestId != "" ==> NotDecided(log.links, d.requestId)
    ensures ExtraIsNew(Write(cfg, log, r, d, io).0)
  {
    hide NotDecided, Landed;
  }

  lemma AttemptIsNew(cfg: Config, s: System, act: Action)
    requires Unique(s) && Attempted(cfg, s, act).Some?
    ensures var d := Attempted(cfg, s, act).value.detail;
      d.Admission? && d.requestId != "" ==> NotDecided(s.log.links, d.requestId)
  {
    AttemptIsDecision(cfg, s, act);
    hide NotDecided, DecidedOnce, DecidedAreSeen, UndecidedDiffer;
    if s.script.Decide? {
      assert s.script.ask.requestId != "" ==> Undecided(s, s.script.id);
    }
  }

  lemma {:induction false} RunExtraIsNew(cfg: Config, io: Io, actions: seq<Action>)
    ensures ExtraIsNew(Run(cfg, io, actions).log)
  {
    if actions == [] {
      WriteKeepsExtra(cfg, Log([], [], Intact), cfg.origin, AuthorityStart(cfg.authorization, cfg.backends), io);
    } else {
      var front, act := actions[..|actions| - 1], actions[|actions| - 1];
      var s := Run(cfg, io, front);
      hide ExtraIsNew, Unique, Moved, Write, Attempted, Settled;
      RunExtraIsNew(cfg, io, front);
      RunUnique(cfg, io, front);
      MovedKeepsLog(cfg, s, act);
      var attempt := Attempted(cfg, s, act);
      if attempt.Some? {
        AttemptIsNew(cfg, s, act);
        WriteKeepsExtra(cfg, s.log, attempt.value.route, attempt.value.detail, attempt.value.io);
      }
    }
  }

  lemma OneMoreDecision(links: Links, extra: Link<Record>)
    requires DecidedOnce(links)
    requires extra.payload.detail.Admission? && extra.payload.detail.requestId != "" ==>
      NotDecided(links, extra.payload.detail.requestId)
    ensures DecidedOnce(links + [extra])
  {
    var longer := links + [extra];
    assert forall i :: 0 <= i < |links| ==> DecidedId(longer, i) == DecidedId(links, i);
  }

  // The theorem: no request identity is decided twice, among the records and
  // among the whole lines of the file.
  lemma AdmittedOnce(cfg: Config, io: Io, actions: seq<Action>)
    ensures var log := Run(cfg, io, actions).log;
      DecidedOnce(log.links) && (log.OnDisk().Some? ==> DecidedOnce(log.OnDisk().value))
  {
    hide Run, DecidedOnce, NotDecided;
    RunUnique(cfg, io, actions);
    RunExtraIsNew(cfg, io, actions);
    var log := Run(cfg, io, actions).log;
    if log.disk.Unsynced? {
      OneMoreDecision(log.links, log.disk.extra);
    }
  }

  // ---------------------------------------------------------------------
  // Failed requests

  ghost predicate NoErrors(s: System) {
    && RequestError !in Details(s.script)
    && forall i :: 0 <= i < |s.log.links| ==> !s.log.links[i].payload.detail.RequestError?
  }

  lemma NextNoErrors(cfg: Config, s: System, act: Action)
    requires NoErrors(s)
    ensures NoErrors(Next(cfg, s, act))
  {
    NextReach(cfg, s, act);
    assert RequestError !in Topics(cfg, s, act);
    var ok := NextLinks(cfg, s, act);
    assert s.script.Put? ==> s.script.detail in Details(s.script);
    hide Next, Topics, Details;
  }

  // The reader knows request errors, and the handler means to write one when
  // its backend fails, but no run ever does: a request that fails leaves its
  // admission without any later record, and the route as it was.
  lemma {:induction false} FailedRequestsLeaveNoTrace(cfg: Config, io: Io, actions: seq<Action>, id: nat)
    ensures var s := Run(cfg, io, actions);
      && NoErrors(s)
      && Next(cfg, s, Drop(id)).log == s.log && Next(cfg, s, Drop(id)).route == s.route
      && !IsForwarding(Next(cfg, s, Drop(id)), id)
  {
    if actions == [] {
      WriteLinks(cfg, Log([], [], Intact), cfg.origin, AuthorityStart(cfg.authorization, cfg.backends), io);
    } else {
      var n := |actions| - 1;
      hide NoErrors, Write;
      FailedRequestsLeaveNoTrace(cfg, io, actions[..n], id);
      NextNoErrors(cfg, Run(cfg, io, actions[..n]), actions[n]);
    }
  }
}
