/**
 The dynamic authority as the object it is: fields changed under one lock, a
 journal object beside them. Each method is one locked stretch of the program
 and does what the state machine's step says, to every field.
 */
module DynamicService {
  import opened Wrappers
  import opened JournalBytes
  import opened HashChain
  import opened DynamicAuthority

  class Service {
    const cfg: Config
    const journal: ChainedJournal<Record>
    var lastNs: int
    var route: Route
    var generation: int
    var enrollment: Option<Enrollment>
    var revokedEnrollments: set<Digest>
    var usedLaunches: set<string>
    var usedApiKernels: set<Api>
    var seenRequestIds: set<string>

    ghost predicate Valid()
      reads this, journal
    {
      && journal.Valid()
      && journal.format == cfg.format && journal.limit == Some(CAPACITY)
      && lastNs == LastNs(journal.links)
    }

    ghost function View(): Auth
      reads this, journal
    {
      Auth(route, generation, enrollment, revokedEnrollments, usedLaunches, usedApiKernels, seenRequestIds,
           journal.View())
    }

    // The authority exists once its start record is on disk.
    constructor (cfg: Config, io: Io)
      requires Begun(cfg, io).1 == Done
      ensures Valid() && this.cfg == cfg && fresh(journal)
      ensures View() == Begun(cfg, io).0.auth
    {
      this.cfg := cfg;
      journal := new ChainedJournal(cfg.format, Some(CAPACITY));
      lastNs, route, generation, enrollment := 0, Closed, 0, None;
      revokedEnrollments, usedLaunches, usedApiKernels, seenRequestIds := {}, {}, {}, {};
      new;
      var _ := Append(Closed, AuthorityStart, io);
    }

    method Append(at: Route, detail: Detail, io: Io) returns (outcome: Appended)
      requires Valid()
      modifies this`lastNs, journal
      ensures Valid()
      ensures (View(), outcome) == (old(View()).(log := Write(cfg, old(View()).log, at, detail, io).0),
                                    Write(cfg, old(View()).log, at, detail, io).1)
    {
      var now := if io.now > lastNs then io.now else lastNs + 1;
      outcome := journal.Record(DynamicAuthority.Record(now, cfg.owner, cfg.policy, at, detail), io);
      if outcome == Done {
        lastNs := now;
      }
    }

    method Record(at: Route, detail: Detail, io: Io) returns (ok: bool)
      requires Valid()
      modifies this`lastNs, this`route, journal
      ensures Valid()
      ensures (View(), ok) == Recorded(cfg, old(View()), at, detail, io)
    {
      var outcome := Append(at, detail, io);
      if outcome == Failed {
        route := Closed;
      }
      return outcome == Done;
    }

    method CloseRoute(io: Io) returns (ok: bool)
      requires Valid()
      modifies this`lastNs, this`route, this`revokedEnrollments, journal
      ensures Valid()
      ensures (View(), ok) == Close(cfg, old(View()), io)
    {
      route := Closed;
      if enrollment.Some? {
        revokedEnrollments := revokedEnrollments + {enrollment.value.sha};
      }
      assert View() == Revoke(old(View()));
      ok := Record(Closed, RouteClosed(ShaOf(enrollment)), io);
    }

    function Check(ev: Evidence): (r: Option<Digest>)
      reads this, journal
      ensures r == Recheck(View(), ev)
    {
      if ev.lease && ev.source && enrollment.Some? && enrollment.value.sha !in revokedEnrollments
         && ev.members && ev.backend
      then ev.plan else None
    }

    method RefreshCandidate(ev: Evidence, io: Io) returns (ok: bool)
      requires Valid()
      modifies this`lastNs, this`route, this`revokedEnrollments, journal
      ensures Valid()
      ensures (View(), ok) == Refresh(cfg, old(View()), ev, io)
    {
      if route.Closed? {
        return true;
      }
      if Check(ev).Some? {
        return true;
      }
      ok := CloseRoute(io);
    }

    method ApplyClose(lease: bool, expected: int, io: Io) returns (ok: bool)
      requires Valid()
      modifies this, journal
      ensures Valid()
      ensures (View(), ok) == CloseGeneration(cfg, old(View()), lease, expected, io)
    {
      if !lease || expected != generation {
        return false;
      }
      ok := CloseRoute(io);
    }

    method ApplyEnroll(lease: bool, expected: int, c: Candidate, io: Io, io': Io) returns (ok: bool)
      requires Valid()
      modifies this, journal
      ensures Valid()
      ensures (View(), ok) == Enroll(cfg, old(View()), lease, expected, c, io, io')
    {
      if !lease || expected != generation {
        return false;
      }
      ok := CloseRoute(io);
      if ok {
        ok := InstallEnrollment(c, io');
      }
    }

    method InstallEnrollment(c: Candidate, io: Io) returns (ok: bool)
      requires Valid()
      modifies this, journal
      ensures Valid()
      ensures (View(), ok) == Install(cfg, old(View()), c, io)
    {
      if !c.source || (enrollment.Some? && !c.previousGone) || !c.members {
        return false;
      }
      if c.launch in usedLaunches || c.api in usedApiKernels || !c.claims || !c.backend {
        return false;
      }
      var e := Enrollment(c.sha, generation + 1, c.epoch, c.launch, c.api);
      generation, enrollment := e.generation, Some(e);
      usedLaunches, usedApiKernels := usedLaunches + {c.launch}, usedApiKernels + {c.api};
      ok := Record(route, Enrolled(e), io);
    }

    method ApplyAdmit(lease: bool, expected: int, membership: Digest, ev: Evidence, io: Io) returns (ok: bool)
      requires Valid()
      modifies this, journal
      ensures Valid()
      ensures (View(), ok) == AdmitGeneration(cfg, old(View()), lease, expected, membership, ev, io)
    {
      if !lease || enrollment.None? || expected != generation || membership != enrollment.value.sha {
        return false;
      }
      var observed := Check(ev);
      if observed.None? {
        var _ := CloseRoute(io);
        return false;
      }
      route := RouteFor(enrollment.value, generation);
      ok := Record(route, Opened(enrollment.value.sha, observed.value), io);
    }

    // The first locked stretch of a request handler.
    method AdmitRequest(requestId: string, admissionId: string, ev: Evidence, io: Io) returns (h: Handler)
      requires Valid()
      modifies this, journal
      ensures Valid()
      ensures (View(), h) == Arrive(cfg, old(View()), requestId, admissionId, ev, io)
    {
      h := Handler(requestId, admissionId, Raised, Closed, None);
      if requestId == "" || |requestId| > 200 || requestId in seenRequestIds {
        return;
      }
      seenRequestIds := seenRequestIds + {requestId};
      var ok := RefreshCandidate(ev, io);
      if !ok || route.Closed? || enrollment.None? {
        return;
      }
      var admittedRoute, e := route, enrollment.value;
      var recorded := Record(admittedRoute, Admit(requestId, admissionId, e.sha), io);
      h := Handler(requestId, admissionId, if recorded then Admitted else Raised, admittedRoute, Some(e));
    }

    // The stretch around the write of the request bytes.
    method BindPeer(h: Handler, ev: Evidence, peer: bool, ev': Evidence, io: Io) returns (after: Handler)
      requires Valid()
      modifies this`lastNs, this`route, journal
      ensures Valid()
      ensures (View(), after) == Bind(cfg, old(View()), h, ev, peer, ev', io)
    {
      after := h.(stage := Raised);
      if enrollment.None? || h.enrollment.None? || enrollment.value.sha != h.enrollment.value.sha {
        return;
      }
      if route.Closed? || route.generation != h.enrollment.value.generation {
        return;
      }
      if Check(ev).None? || !peer || Check(ev').None? {
        return;
      }
      var ok := Record(h.route, PeerBound(h.requestId, h.admissionId, h.enrollment.value.sha), io);
      after := h.(stage := if ok then Bound else Raised);
    }

    method CompleteRequest(h: Handler, ev: Evidence, backend: bool, io: Io) returns (after: Handler)
      requires Valid()
      modifies this`lastNs, this`route, journal
      ensures Valid()
      ensures (View(), after) == Finish(cfg, old(View()), h, ev, backend, io)
    {
      after := h.(stage := Raised);
      if enrollment.None? || h.enrollment.None? || enrollment.value.sha != h.enrollment.value.sha {
        return;
      }
      if Check(ev).None? || !backend {
        return;
      }
      var ok := Record(h.route, Complete(h.requestId, h.admissionId, h.enrollment.value.sha), io);
      after := h.(stage := if ok then Completed else Raised);
    }

    method FailRequest(h: Handler, io: Io)
      requires Valid()
      modifies this, journal
      ensures Valid()
      ensures View() == Handle(cfg, old(View()), h, io)
    {
      if h.enrollment.Some? && enrollment.Some? && enrollment.value.sha == h.enrollment.value.sha {
        var _ := CloseRoute(io);
      }
    }
  }
}
