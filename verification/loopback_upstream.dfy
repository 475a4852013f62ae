/** Where the answers recorded in the traffic journal come from. */
module LoopbackUpstream {
  import opened JournalBytes
  import opened HashChain
  import opened LoopbackAuthority
  import opened LoopbackScripts

  type Links = seq<Link<Record>>

  // A completion recorded on a gate route was answered by the candidate, one on
  // the predecessor's route by the predecessor; its digest is that of its bytes.
  ghost predicate FromItsBackend(cfg: Config, p: Record)
    requires p.detail.Complete?
  {
    && p.route.generation.Some? && p.route.fence.Some?
    && (p.route.fence.value.Gate? ==>
          p.detail.upstream.host == cfg.candidate.host && p.detail.upstream.port == cfg.candidate.port)
    && (p.route.fence.value.Predecessor? ==>
          p.detail.upstream.host == cfg.predecessor.host && p.detail.upstream.port == cfg.predecessor.port)
    && p.detail.payloadSha == cfg.format.sha(p.detail.payload)
  }

  // The admission of the same request, under the same ids, for the same body
  // and on the same route.
  predicate AdmissionFor(admission: Record, completion: Record) {
    && admission.detail.Admission? && completion.detail.Complete?
    && admission.detail.admitted && admission.route == completion.route
    && admission.detail.requestId == completion.detail.requestId
    && admission.detail.admissionId == completion.detail.admissionId
    && admission.detail.body == completion.detail.body
  }

  ghost predicate Answers(cfg: Config, links: Links, n: nat, p: Record)
    requires n <= |links|
  {
    p.detail.Complete? ==> FromItsBackend(cfg, p) && exists i: nat :: i < n && AdmissionFor(links[i].payload, p)
  }

  ghost predicate AllAnswer(cfg: Config, links: Links) {
    forall k :: 0 <= k < |links| ==> Answers(cfg, links, k, links[k].payload)
  }

  // A request in flight was admitted, with its own ids and body, on its route.
  predicate AdmittedAs(cfg: Config, p: Record, h: Handler) {
    && h.stage.Forwarding? && h.stage.route.Live?
    && p.detail.Admission? && p.detail.admitted && p.route == Show(cfg, h.stage.route)
    && p.detail.requestId == h.ask.requestId && p.detail.admissionId == h.ask.admissionId
    && p.detail.body == cfg.format.sha(h.ask.body)
  }

  ghost predicate InFlight(cfg: Config, links: Links, h: Handler) {
    h.stage.Forwarding? ==> exists i: nat :: i < |links| && AdmittedAs(cfg, links[i].payload, h)
  }

  ghost predicate ExtraAnswers(cfg: Config, log: Log<Record>) {
    log.disk.Unsynced? ==> Answers(cfg, log.links, |log.links|, log.disk.extra.payload)
  }

  ghost predicate Traced(cfg: Config, s: System) {
    && AllAnswer(cfg, s.log.links) && ExtraAnswers(cfg, s.log)
    && (forall id :: id in s.handlers ==> InFlight(cfg, s.log.links, s.handlers[id]))
    && (forall d :: d in Details(s.script) ==> !d.Admission? && !d.Complete?)
    && (Target(s.script).Some? ==>
          var (id, ask) := Target(s.script).value;
          id in s.handlers && s.handlers[id].ask == ask)
  }

  lemma AnswersStay(cfg: Config, links: Links, link: Link<Record>, n: nat, p: Record)
    requires n <= |links|
    ensures Answers(cfg, links + [link], n, p) <==> Answers(cfg, links, n, p)
  {
    assert forall i :: 0 <= i < n ==> (links + [link])[i] == links[i];
  }

  lemma AnswersLater(cfg: Config, links: Links, link: Link<Record>, h: Handler)
    requires InFlight(cfg, links, h)
    ensures InFlight(cfg, links + [link], h)
  {
    if h.stage.Forwarding? {
      var i: nat :| i < |links| && AdmittedAs(cfg, links[i].payload, h);
      assert (links + [link])[i] == links[i];
    }
  }

  lemma AllAnswerGrows(cfg: Config, links: Links, link: Link<Record>)
    requires AllAnswer(cfg, links) && Answers(cfg, links, |links|, link.payload)
    ensures AllAnswer(cfg, links + [link])
  {
    hide Answers;
    var longer := links + [link];
    forall k | 0 <= k < |longer| ensures Answers(cfg, longer, k, longer[k].payload) {
      AnswersStay(cfg, links, link, k, longer[k].payload);
    }
  }

  // What a completion about to be recorded says.
  lemma AttemptAnswers(cfg: Config, s: System, act: Action)
    requires Traced(cfg, s) && Attempted(cfg, s, act).Some?
    ensures var a := Attempted(cfg, s, act).value;
      Answers(cfg, s.log.links, |s.log.links|, RecordOf(cfg, a.route, a.detail, a.io))
  {
    hide AllAnswer;
    var a := Attempted(cfg, s, act).value;
    var p := RecordOf(cfg, a.route, a.detail, a.io);
    if act.Reply? {
      var h := s.handlers[act.id];
      assert InFlight(cfg, s.log.links, h);
      var i: nat :| i < |s.log.links| && AdmittedAs(cfg, s.log.links[i].payload, h);
      assert AdmissionFor(s.log.links[i].payload, p);
    } else {
      assert s.script.Put? ==> s.script.detail in Details(s.script);
    }
  }

  lemma WriteAnswers(cfg: Config, log: Log<Record>, r: Route, d: Detail, io: Io)
    requires AllAnswer(cfg, log.links) && ExtraAnswers(cfg, log)
    requires Answers(cfg, log.links, |log.links|, RecordOf(cfg, r, d, io))
    ensures AllAnswer(cfg, Write(cfg, log, r, d, io).0.links) && ExtraAnswers(cfg, Write(cfg, log, r, d, io).0)
  {
    AllAnswerGrows(cfg, log.links, NextLink(cfg.format, log.links, RecordOf(cfg, r, d, io)));
    hide Answers, AllAnswer, Landed, Show;
  }

  // The handler whose decision has just been recorded.
  lemma DecisionPutsInFlight(cfg: Config, s: System, act: Action, id: nat)
    requires Traced(cfg, s) && Attempted(cfg, s, act).Some?
    requires var a := Attempted(cfg, s, act).value;
      Next(cfg, s, act).log.links
      == s.log.links + [NextLink(cfg.format, s.log.links, RecordOf(cfg, a.route, a.detail, a.io))]
    requires id in Next(cfg, s, act).handlers
    ensures InFlight(cfg, Next(cfg, s, act).log.links, Next(cfg, s, act).handlers[id])
  {
    hide AllAnswer, Write;
    var a := Attempted(cfg, s, act).value;
    var link := NextLink(cfg.format, s.log.links, RecordOf(cfg, a.route, a.detail, a.io));
    var t := Next(cfg, s, act);
    if id in s.handlers && t.handlers[id] == s.handlers[id] {
      AnswersLater(cfg, s.log.links, link, s.handlers[id]);
    } else if act.Tick? && s.script.Decide? {
      assert t.log.links[|s.log.links|] == link;
      assert t.handlers[id].stage.Forwarding? ==> AdmittedAs(cfg, link.payload, t.handlers[id]);
    }
  }

  lemma MovedHandlersStay(cfg: Config, s: System, act: Action, id: nat)
    requires id in Moved(cfg, s, act).handlers && Moved(cfg, s, act).handlers[id].stage.Forwarding?
    ensures id in s.handlers && s.handlers[id] == Moved(cfg, s, act).handlers[id]
  {
    hide Candidacy, Observation, Refreshed, Opening, Restoring, Follows;
  }

  lemma TargetStays(cfg: Config, s: System, act: Action)
    requires Traced(cfg, s)
    ensures var t := Next(cfg, s, act);
      && (forall d :: d in Details(t.script) ==> !d.Admission? && !d.Complete?)
      && (Target(t.script).Some? ==>
            var (id, ask) := Target(t.script).value;
            id in t.handlers && t.handlers[id].ask == ask)
  {
    NextReach(cfg, s, act);
    assert forall d :: d in Topics(cfg, s, act) ==> !d.Admission? && !d.Complete?;
    AsksStay(cfg, s, act);
    hide Next, Topics, Details, Target, Destinations;
  }

  // A handler keeps what it asks.
  lemma AsksStay(cfg: Config, s: System, act: Action)
    ensures forall id :: id in s.handlers ==>
      id in Next(cfg, s, act).handlers && Next(cfg, s, act).handlers[id].ask == s.handlers[id].ask
  {
    hide Candidacy, Observation, Refreshed, Opening, Restoring, Follows, Write;
  }

  lemma NextTraced(cfg: Config, s: System, act: Action)
    requires Traced(cfg, s)
    ensures Traced(cfg, Next(cfg, s, act))
  {
    TargetStays(cfg, s, act);
    var t, attempt := Next(cfg, s, act), Attempted(cfg, s, act);
    var ok := NextLinks(cfg, s, act);
    if attempt.Some? {
      var a := attempt.value;
      AttemptAnswers(cfg, s, act);
      WriteAnswers(cfg, s.log, a.route, a.detail, a.io);
      assert t.log == Write(cfg, s.log, a.route, a.detail, a.io).0;
    }
    forall id | id in t.handlers ensures InFlight(cfg, t.log.links, t.handlers[id]) {
      if attempt.None? {
        if t.handlers[id].stage.Forwarding? {
          MovedHandlersStay(cfg, s, act, id);
          assert InFlight(cfg, s.log.links, s.handlers[id]);
        }
      } else if ok {
        DecisionPutsInFlight(cfg, s, act, id);
      } else {
        assert t.handlers[id].stage.Forwarding? ==> InFlight(cfg, s.log.links, s.handlers[id]);
      }
    }
    hide Next, AllAnswer, ExtraAnswers, InFlight, Write, Attempted;
  }

  lemma {:induction false} RunTraced(cfg: Config, io: Io, actions: seq<Action>)
    ensures Traced(cfg, Run(cfg, io, actions))
  {
    if actions == [] {
      WriteAnswers(cfg, Log([], [], Intact), cfg.origin, AuthorityStart(cfg.authorization, cfg.backends), io);
    } else {
      hide Traced, Next;
      RunTraced(cfg, io, actions[..|actions| - 1]);
      NextTraced(cfg, Run(cfg, io, actions[..|actions| - 1]), actions[|actions| - 1]);
    }
  }

  // In every run, every completion was answered by the backend its route shows
  // and was admitted before, as the same request on the same route; a line that
  // was not acknowledged included.
  lemma CompletionsAreServed(cfg: Config, io: Io, actions: seq<Action>)
    ensures var log := Run(cfg, io, actions).log;
      AllAnswer(cfg, log.links) && (log.OnDisk().Some? ==> AllAnswer(cfg, log.OnDisk().value))
  {
    RunTraced(cfg, io, actions);
    var log := Run(cfg, io, actions).log;
    hide Run, Answers, AllAnswer;
    if log.disk.Unsynced? {
      AllAnswerGrows(cfg, log.links, log.disk.extra);
    }
  }
}
