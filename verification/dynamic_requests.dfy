/** How often a request shows in the dynamic authority's journal. */
module DynamicRequests {
  import opened HashChain
  import opened JournalBytes
  import opened DynamicAuthority
  import opened DynamicSafety

  predicate ForRequest(d: Detail) {
    d.Admit? || d.PeerBound? || d.Complete?
  }

  // The same thing is said of the same request.
  predicate Repeats(a: Detail, b: Detail) {
    && ((a.Admit? && b.Admit?) || (a.PeerBound? && b.PeerBound?) || (a.Complete? && b.Complete?))
    && a.requestId == b.requestId
  }

  ghost predicate EachOnce(links: Links) {
    forall i, k :: 0 <= i < k < |links| ==> !Repeats(DetailAt(links, i), DetailAt(links, k))
  }

  ghost predicate NotYet(links: Links, d: Detail) {
    forall i :: 0 <= i < |links| ==> !Repeats(DetailAt(links, i), d)
  }

  // What the journal may not say of a handler's request yet.
  ghost predicate StillToCome(links: Links, h: Handler) {
    && (h.stage == Admitted ==> NotYet(links, PeerBound(h.requestId, "", "")))
    && (h.stage == Admitted || h.stage == Bound ==> h.enrollment.Some? && NotYet(links, Complete(h.requestId, "", "")))
  }

  ghost predicate OnlySeen(links: Links, seen: set<string>) {
    forall i :: 0 <= i < |links| && ForRequest(DetailAt(links, i)) ==> DetailAt(links, i).requestId in seen
  }

  // The handler got as far as trying to journal its admission.
  predicate Tried(handlers: map<nat, Handler>, id: nat) {
    id in handlers && handlers[id].enrollment.Some?
  }

  ghost predicate Apart(handlers: map<nat, Handler>, seen: set<string>) {
    && (forall id :: Tried(handlers, id) ==> handlers[id].requestId in seen)
    && (forall id, other :: Tried(handlers, id) && Tried(handlers, other) && id != other ==>
          handlers[id].requestId != handlers[other].requestId)
  }

  ghost predicate Tracked(links: Links, seen: set<string>, handlers: map<nat, Handler>) {
    && EachOnce(links) && OnlySeen(links, seen) && Apart(handlers, seen)
    && (forall id :: id in handlers ==> StillToCome(links, handlers[id]))
  }

  // A record that is new to the journal; the handlers it is not about do not
  // notice.
  lemma OneMoreRecord(before: Links, after: Links, d: Detail, seen: set<string>)
    requires EachOnce(before) && OnlySeen(before, seen) && Grew(before, after, d)
    requires ForRequest(d) ==> NotYet(before, d) && d.requestId in seen
    ensures EachOnce(after) && OnlySeen(after, seen)
    ensures forall x: Detail :: NotYet(before, x) && !Repeats(d, x) ==> NotYet(after, x)
  {
  }

  lemma OthersUnmoved(before: Links, after: Links, d: Detail, h: Handler)
    requires Grew(before, after, d) && StillToCome(before, h)
    requires ForRequest(d) ==> h.enrollment.None? || h.requestId != d.requestId
    ensures StillToCome(after, h)
  {
  }

  // The journal, and handlers other than `id`, after a record.
  lemma RecordedTracked(cfg: Config, a: Auth, route: Route, d: Detail, io: Io, handlers: map<nat, Handler>, id: nat)
    requires Tracked(a.log.links, a.seen, handlers)
    requires ForRequest(d) ==> NotYet(a.log.links, d) && d.requestId in a.seen
    requires ForRequest(d) ==> forall k :: Tried(handlers, k) && k != id ==>
      handlers[k].requestId != d.requestId
    ensures var (after, ok) := Recorded(cfg, a, route, d, io);
      && after.seen == a.seen && EachOnce(after.log.links) && OnlySeen(after.log.links, a.seen)
      && (forall k :: k in handlers && (!ForRequest(d) || k != id) ==> StillToCome(after.log.links, handlers[k]))
      && (forall x: Detail :: NotYet(a.log.links, x) && !Repeats(d, x) ==> NotYet(after.log.links, x))
  {
    RecordedShape(cfg, a, route, d, io);
    var after := Recorded(cfg, a, route, d, io).0.log.links;
    hide Recorded, EachOnce, OnlySeen, NotYet, Apart, StillToCome;
    if after != a.log.links {
      OneMoreRecord(a.log.links, after, d, a.seen);
      forall k | k in handlers && (!ForRequest(d) || k != id) ensures StillToCome(after, handlers[k]) {
        OthersUnmoved(a.log.links, after, d, handlers[k]);
      }
    }
  }

  lemma QuietTracked(cfg: Config, a: Auth, route: Route, d: Detail, io: Io, handlers: map<nat, Handler>)
    requires Tracked(a.log.links, a.seen, handlers) && !ForRequest(d)
    ensures var after := Recorded(cfg, a, route, d, io).0;
      after.seen == a.seen && Tracked(after.log.links, after.seen, handlers)
  {
    RecordedTracked(cfg, a, route, d, io, handlers, 0);
    hide Recorded, EachOnce, OnlySeen, NotYet, Apart, StillToCome;
  }

  lemma CloseTracked(cfg: Config, a: Auth, io: Io, handlers: map<nat, Handler>)
    requires Tracked(a.log.links, a.seen, handlers)
    ensures var after := Close(cfg, a, io).0;
      after.seen == a.seen && Tracked(after.log.links, after.seen, handlers)
  {
    QuietTracked(cfg, Revoke(a), Closed, RouteClosed(ShaOf(a.enrollment)), io, handlers);
    hide Tracked, Recorded;
  }

  lemma EnrollTracked(cfg: Config, a: Auth, lease: bool, expected: int, c: Candidate, io: Io, io': Io,
                      handlers: map<nat, Handler>)
    requires Tracked(a.log.links, a.seen, handlers)
    ensures var after := Enroll(cfg, a, lease, expected, c, io, io').0;
      Tracked(after.log.links, after.seen, handlers)
  {
    CloseTracked(cfg, a, io, handlers);
    hide Tracked, Recorded, Close;
    var closed := Close(cfg, a, io).0;
    var installed := Installed(closed, c);
    QuietTracked(cfg, installed, closed.route, Enrolled(installed.enrollment.value), io', handlers);
  }

  lemma AdmitTracked(cfg: Config, a: Auth, lease: bool, generation: int, membership: Digest, ev: Evidence, io: Io,
                     handlers: map<nat, Handler>)
    requires Tracked(a.log.links, a.seen, handlers)
    ensures var after := AdmitGeneration(cfg, a, lease, generation, membership, ev, io).0;
      Tracked(after.log.links, after.seen, handlers)
  {
    CloseTracked(cfg, a, io, handlers);
    hide Tracked, Recorded, Close;
    if a.enrollment.Some? && Recheck(a, ev).Some? {
      var admitted := a.(route := RouteFor(a.enrollment.value, a.generation));
      QuietTracked(cfg, admitted, admitted.route, Opened(a.enrollment.value.sha, Recheck(a, ev).value), io, handlers);
    }
  }

  lemma MarkedTracked(links: Links, seen: set<string>, rid: string, handlers: map<nat, Handler>)
    requires Tracked(links, seen, handlers)
    ensures Tracked(links, seen + {rid}, handlers)
  {
  }

  lemma NewHandlerTracked(links: Links, seen: set<string>, handlers: map<nat, Handler>, id: nat, h: Handler)
    requires Tracked(links, seen, handlers) && id !in handlers && h.stage != Bound
    requires h.enrollment.Some? ==>
      h.requestId in seen && forall k :: Tried(handlers, k) ==> handlers[k].requestId != h.requestId
    requires h.stage == Admitted ==> StillToCome(links, h)
    ensures Tracked(links, seen, handlers[id := h])
  {
    hide EachOnce, OnlySeen, NotYet;
  }

  lemma ArriveTracked(cfg: Config, s: System, id: nat, rid: string, aid: string, ev: Evidence, io: Io)
    requires Tracked(s.auth.log.links, s.auth.seen, s.handlers) && id !in s.handlers
    ensures var (after, h) := Arrive(cfg, s.auth, rid, aid, ev, io);
      Tracked(after.log.links, after.seen, s.handlers[id := h])
  {
    var a := s.auth;
    var (after, h) := Arrive(cfg, a, rid, aid, ev, io);
    if rid != "" && |rid| <= 200 && rid !in a.seen {
      var marked := a.(seen := a.seen + {rid});
      MarkedTracked(a.log.links, a.seen, rid, s.handlers);
      CloseTracked(cfg, marked, io, s.handlers);
      UnseenThroughRefresh(cfg, marked, a.seen, rid, ev, io, s.handlers);
      var renewed := Refresh(cfg, marked, ev, io).0;
      if h.enrollment.Some? {
        RecordedTracked(cfg, renewed, renewed.route, Admit(rid, aid, h.enrollment.value.sha), io, s.handlers, id);
        hide Recorded, Refresh, EachOnce, OnlySeen, Close, NotYet;
      }
    }
    hide Recorded, Refresh, Close, Tracked, NotYet;
    NewHandlerTracked(after.log.links, after.seen, s.handlers, id, h);
  }

  lemma UnseenThroughRefresh(cfg: Config, marked: Auth, seen: set<string>, rid: string, ev: Evidence, io: Io,
                             handlers: map<nat, Handler>)
    requires rid !in seen && marked.seen == seen + {rid} && Tracked(marked.log.links, seen, handlers)
    ensures var renewed := Refresh(cfg, marked, ev, io).0;
      && renewed.seen == marked.seen
      && (forall d: Detail :: ForRequest(d) && d.requestId == rid ==> NotYet(renewed.log.links, d))
      && (forall k :: Tried(handlers, k) ==> handlers[k].requestId != rid)
  {
    MarkedTracked(marked.log.links, seen, rid, handlers);
    RecordedTracked(cfg, Revoke(marked), Closed, RouteClosed(ShaOf(marked.enrollment)), io, handlers, 0);
    hide Recorded, EachOnce, OnlySeen;
  }

  // A handler goes on to its next stage, with its record or to a failure.
  lemma StageTracked(cfg: Config, s: System, id: nat, d: Detail, io: Io, stage: Stage)
    requires Tracked(s.auth.log.links, s.auth.seen, s.handlers) && id in s.handlers
    requires var h := s.handlers[id];
      && h.enrollment.Some? && ForRequest(d) && d.requestId == h.requestId && NotYet(s.auth.log.links, d)
      && (|| (h.stage == Admitted && d.PeerBound? && stage == Bound)
          || (h.stage == Bound && d.Complete? && stage == Completed))
    ensures var h := s.handlers[id];
      var (after, ok) := Recorded(cfg, s.auth, h.route, d, io);
      Tracked(after.log.links, after.seen, s.handlers[id := h.(stage := if ok then stage else Raised)])
  {
    var h := s.handlers[id];
    RecordedTracked(cfg, s.auth, h.route, d, io, s.handlers, id);
    hide Recorded, EachOnce, OnlySeen, NotYet;
    assert d.PeerBound? ==> !Repeats(d, Complete(h.requestId, "", ""));
  }

  lemma RaisedTracked(links: Links, seen: set<string>, handlers: map<nat, Handler>, id: nat, stage: Stage)
    requires Tracked(links, seen, handlers) && id in handlers && stage != Admitted && stage != Bound
    ensures Tracked(links, seen, handlers[id := handlers[id].(stage := stage)])
  {
    hide EachOnce, OnlySeen, NotYet;
  }

  lemma BindTracked(cfg: Config, s: System, id: nat, ev: Evidence, peer: bool, ev': Evidence, io: Io)
    requires Tracked(s.auth.log.links, s.auth.seen, s.handlers) && id in s.handlers && s.handlers[id].stage == Admitted
    ensures var (after, h) := Bind(cfg, s.auth, s.handlers[id], ev, peer, ev', io);
      Tracked(after.log.links, after.seen, s.handlers[id := h])
  {
    var h := s.handlers[id];
    assert StillToCome(s.auth.log.links, h);
    RaisedTracked(s.auth.log.links, s.auth.seen, s.handlers, id, Raised);
    StageTracked(cfg, s, id, PeerBound(h.requestId, h.admissionId, h.enrollment.value.sha), io, Bound);
    hide Tracked, Recorded;
  }

  lemma FinishTracked(cfg: Config, s: System, id: nat, ev: Evidence, backend: bool, io: Io)
    requires Tracked(s.auth.log.links, s.auth.seen, s.handlers) && id in s.handlers && s.handlers[id].stage == Bound
    ensures var (after, h) := Finish(cfg, s.auth, s.handlers[id], ev, backend, io);
      Tracked(after.log.links, after.seen, s.handlers[id := h])
  {
    var h := s.handlers[id];
    assert StillToCome(s.auth.log.links, h);
    RaisedTracked(s.auth.log.links, s.auth.seen, s.handlers, id, Raised);
    StageTracked(cfg, s, id, Complete(h.requestId, h.admissionId, h.enrollment.value.sha), io, Completed);
    hide Tracked, Recorded;
  }

  lemma NextTracked(cfg: Config, s: System, act: Action)
    requires Tracked(s.auth.log.links, s.auth.seen, s.handlers)
    ensures var t := Next(cfg, s, act);
      Tracked(t.auth.log.links, t.auth.seen, t.handlers)
  {
    var a := s.auth;
    hide Tracked, Recorded, Close, Install, Recheck;
    match act
    case DoQuery(writer, ev, io) => CloseTracked(cfg, a, io, s.handlers);
    case DoClose(lease, expected, io) => CloseTracked(cfg, a, io, s.handlers);
    case DoEnroll(lease, expected, c, io, io') => EnrollTracked(cfg, a, lease, expected, c, io, io', s.handlers);
    case DoAdmit(lease, g, m, ev, io) => AdmitTracked(cfg, a, lease, g, m, ev, io, s.handlers);
    case DoArrive(id, rid, aid, ev, io) =>
      if id !in s.handlers {
        ArriveTracked(cfg, s, id, rid, aid, ev, io);
      }
    case DoBind(id, ev, peer, ev', io) =>
      if id in s.handlers && s.handlers[id].stage == Admitted {
        BindTracked(cfg, s, id, ev, peer, ev', io);
      }
    case DoFinish(id, ev, backend, io) =>
      if id in s.handlers && s.handlers[id].stage == Bound {
        FinishTracked(cfg, s, id, ev, backend, io);
      }
    case DoRaise(id) =>
      if id in s.handlers {
        RaisedTracked(a.log.links, a.seen, s.handlers, id, Raised);
      }
    case DoHandle(id, io) =>
      CloseTracked(cfg, a, io, s.handlers);
      if id in s.handlers {
        RaisedTracked(Handle(cfg, a, s.handlers[id], io).log.links, a.seen, s.handlers, id, Finished);
      }
    case OwnerGone(io) => CloseTracked(cfg, a, io, s.handlers);
  }

  lemma {:induction false} RunTracked(cfg: Config, io: Io, actions: seq<Action>)
    requires Begun(cfg, io).1 == Done
    ensures var s := Run(cfg, io, actions);
      Tracked(s.auth.log.links, s.auth.seen, s.handlers)
  {
    if actions == [] {
    } else {
      hide Tracked, Next;
      RunTracked(cfg, io, actions[..|actions| - 1]);
      NextTracked(cfg, Run(cfg, io, actions[..|actions| - 1]), actions[|actions| - 1]);
    }
  }

  // In every interleaving a request id is admitted at most once, bound at most
  // once and completed at most once, and only if the authority has marked it as
  // seen.
  lemma EachRequestOnce(cfg: Config, io: Io, actions: seq<Action>)
    requires Begun(cfg, io).1 == Done
    ensures var a := Run(cfg, io, actions).auth;
      EachOnce(a.log.links) && OnlySeen(a.log.links, a.seen)
  {
    RunTracked(cfg, io, actions);
    hide Run, EachOnce, OnlySeen;
  }
}
