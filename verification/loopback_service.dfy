/**
 The authority as the object it is. A method here is a locked stretch nobody
 disturbs: it does to the fields exactly what draining the state machine's
 script does. What may fall in between is the state machine's concern.
 */
module LoopbackService {
  import opened Wrappers
  import opened JournalBytes
  import opened HashChain
  import opened LoopbackAuthority

  // The fields other threads can see.
  datatype Core = Core(route: Route, seen: set<string>, log: Log<Record>)

  function CoreOf(s: System): Core {
    Core(s.route, s.seen, s.log)
  }

  // The state machine's state when nobody holds the lock.
  function Resting(c: Core, handlers: map<nat, Handler>): System {
    System(c.route, c.seen, c.log, Idle, true, Shut, handlers, false)
  }

  // The rest of a locked stretch, undisturbed; `ios` feeds its appends.
  function Drained(cfg: Config, s: System, ios: seq<Io>): System
    decreases s.script
  {
    match s.script
    case Idle => s
    case Assign(r, rest) => Drained(cfg, s.(route := r, script := rest), ios)
    case Fetch(rest) => Drained(cfg, s.(local := s.route, script := rest), ios)
    case Put(d, rest) =>
      if ios == [] then s else
      var (log, outcome) := Write(cfg, s.log, s.local, d, ios[0]);
      if outcome == Done then Drained(cfg, s.(log := log, script := rest), ios[1..])
      else s.(log := log, refused := true, route := Shut, script := Idle)
    case Decide(_, _, _) => if ios == [] then s else Next(cfg, s, Tick(ios[0]))
  }

  // Draining is ticking.
  lemma {:induction false} DrainedIsTicks(cfg: Config, s: System, ios: seq<Io>) returns (ticks: seq<Action>)
    ensures forall i :: 0 <= i < |ticks| ==> ticks[i].Tick?
    ensures Drained(cfg, s, ios) == Ticked(cfg, s, ticks)
    decreases s.script
  {
    ticks := [];
    if s.script.Assign? || s.script.Fetch? {
      var tick := Tick(Io(0, [], true));
      var t := Next(cfg, s, tick);
      var rest := DrainedIsTicks(cfg, t, ios);
      ticks := [tick] + rest;
    } else if s.script.Put? && ios != [] {
      var tick := Tick(ios[0]);
      var t := Next(cfg, s, tick);
      var rest := [];
      if !t.script.Idle? {
        rest := DrainedIsTicks(cfg, t, ios[1..]);
      }
      ticks := [tick] + rest;
      assert ticks[1..] == rest;
      assert t.script.Idle? ==> Drained(cfg, t, ios[1..]) == t && Ticked(cfg, t, []) == t;
    } else if s.script.Decide? && ios != [] {
      ticks := [Tick(ios[0])];
      assert ticks[1..] == [];
      assert Ticked(cfg, Next(cfg, s, ticks[0]), []) == Next(cfg, s, ticks[0]);
    }
  }

  function Ticked(cfg: Config, s: System, ticks: seq<Action>): System
    decreases |ticks|
  {
    if ticks == [] then s else Ticked(cfg, Next(cfg, s, ticks[0]), ticks[1..])
  }

  function Recorded(cfg: Config, c: Core, r: Route, d: Detail, io: Io): (Core, bool) {
    var (log, outcome) := Write(cfg, c.log, r, d, io);
    if outcome == Done then (c.(log := log), true) else (Core(Shut, c.seen, log), false)
  }

  lemma DrainPut(cfg: Config, s: System, ios: seq<Io>)
    requires s.script.Put? && ios != []
    ensures var (after, ok) := Recorded(cfg, CoreOf(s), s.local, s.script.detail, ios[0]);
      && (!ok ==> CoreOf(Drained(cfg, s, ios)) == after && Drained(cfg, s, ios).handlers == s.handlers)
      && (ok ==> Drained(cfg, s, ios) == Drained(cfg, s.(log := after.log, script := s.script.rest), ios[1..]))
  {
    hide Write;
  }

  lemma DrainFetchPut(cfg: Config, s: System, d: Detail, rest: Script, ios: seq<Io>)
    requires s.script == Fetch(Put(d, rest)) && ios != []
    ensures var (after, ok) := Recorded(cfg, CoreOf(s), s.route, d, ios[0]);
      && (!ok ==> CoreOf(Drained(cfg, s, ios)) == after && Drained(cfg, s, ios).handlers == s.handlers)
      && (ok ==> Drained(cfg, s, ios)
                 == Drained(cfg, s.(local := s.route, log := after.log, script := rest), ios[1..]))
  {
    hide Write;
    var t := s.(local := s.route, script := Put(d, rest));
    assert Drained(cfg, s, ios) == Drained(cfg, t, ios);
    DrainPut(cfg, t, ios);
  }

  lemma DrainFetchDecide(cfg: Config, s: System, id: nat, ask: Ask, observation: Option<Digest>, ios: seq<Io>)
    requires s.script == Fetch(LoopbackAuthority.Decide(id, ask, observation)) && ios != []
    requires s.handlers == map[id := Handler(ask, Waiting)]
    ensures var (after, ok) := Recorded(cfg, CoreOf(s), s.route, AdmissionOf(cfg, ask, s.route, observation), ios[0]);
      && CoreOf(Drained(cfg, s, ios)) == after
      && Drained(cfg, s, ios).handlers
         == map[id := Handler(ask, if !ok || s.route.Shut? then Gone else Forwarding(s.route))]
  {
    hide Write;
    var t := s.(local := s.route, script := s.script.rest);
    assert Drained(cfg, s, ios) == Next(cfg, t, Tick(ios[0]));
  }

  lemma DrainAssign(cfg: Config, s: System, ios: seq<Io>)
    requires s.script.Assign?
    ensures Drained(cfg, s, ios) == Drained(cfg, s.(route := s.script.route, script := s.script.rest), ios)
  {
  }

  // An unlocked completion, with its late shutting when the append failed.
  lemma ReplyThenSink(cfg: Config, c: Core, id: nat, h: Handler, act: Action)
    requires h.stage.Forwarding? && act.Reply? && act.id == id
    ensures var s, b := Resting(c, map[id := h]), BackendOf(cfg, h.stage.route);
      var t := Next(cfg, s, act);
      var d := Complete(h.ask.requestId, h.ask.admissionId, cfg.format.sha(h.ask.body),
                        Upstream(b.host, b.port, act.identity, act.listener),
                        act.status, act.payload, cfg.format.sha(act.payload));
      var (after, ok) := Recorded(cfg, c, h.stage.route, d, act.io);
      after == CoreOf(if ok then t else Next(cfg, t, Sink(id)))
  {
    hide Write;
    var s := Resting(c, map[id := h]);
    var t := Next(cfg, s, act);
    assert t.handlers == map[id := h.(stage := if t.refused then Failing else Gone)];
  }

  class Authority {
    const cfg: Config
    const journal: ChainedJournal<Record>
    var route: Route
    var seenRequestIds: set<string>

    ghost predicate Valid()
      reads this, journal
    {
      journal.Valid() && journal.format == cfg.format && journal.limit == Some(CAPACITY)
    }

    ghost function View(): Core
      reads this, journal
    {
      Core(route, seenRequestIds, journal.View())
    }

    constructor (cfg: Config, io: Io)
      requires Begun(cfg, io).1 == Done
      ensures Valid() && this.cfg == cfg && fresh(journal)
      ensures View() == CoreOf(Begun(cfg, io).0)
    {
      this.cfg := cfg;
      journal := new ChainedJournal(cfg.format, Some(CAPACITY));
      route, seenRequestIds := cfg.origin, {};
      new;
      var _ := journal.Record(RecordOf(cfg, route, AuthorityStart(cfg.authorization, cfg.backends), io), io);
    }

    method Record(at: Route, detail: Detail, io: Io) returns (ok: bool)
      requires Valid()
      modifies this`route, journal
      ensures Valid()
      ensures (View(), ok) == Recorded(cfg, old(View()), at, detail, io)
    {
      var outcome := journal.Record(RecordOf(cfg, at, detail, io), io);
      if outcome != Done {
        route := Shut;
      }
      return outcome == Done;
    }

    // False when the close could not be journalled.
    method RefreshCandidate(ev: Evidence, io: Io) returns (ok: bool, observation: Option<Digest>)
      requires Valid()
      modifies this`route, journal
      ensures Valid()
      ensures old(!Watched(cfg, route) || Renewal(cfg, route, ev).Some?) ==>
        View() == old(View()) && ok && observation == old(Observation(cfg, route, ev))
      ensures old(Watched(cfg, route) && Renewal(cfg, route, ev).None?) ==>
        (View(), ok) == Recorded(cfg, old(View()).(route := Shut), Shut, CloseAll(true), io) && observation.None?
    {
      if cfg.observer.None? || route.Shut? || !route.fence.Gate? {
        return true, None;
      }
      var observed := if ev.lease then Authorized(cfg.observer.value, route.snapshot, ev.observed) else None;
      if observed.Some? {
        return true, Some(cfg.format.sha(observed.value));
      }
      route := Shut;
      ok := Record(route, CloseAll(true), io);
      observation := None;
    }

    method ApplyQuery(ev: Evidence, io: Io)
      requires Valid()
      modifies this, journal
      ensures Valid()
      ensures View() == CoreOf(Drained(cfg, Moved(cfg, Resting(old(View()), map[]), Query(ev)), [io]))
    {
      ghost var s := Moved(cfg, Resting(View(), map[]), Query(ev));
      var _, _ := RefreshCandidate(ev, io);
      if s.script.Assign? {
        DrainAssign(cfg, s, [io]);
        DrainFetchPut(cfg, s.(route := Shut, script := s.script.rest), CloseAll(true), Idle, [io]);
      }
    }

    method ApplyClose(generation: Scalar, io: Io)
      requires Valid()
      modifies this, journal
      ensures Valid()
      ensures View() == CoreOf(Drained(cfg, Moved(cfg, Resting(old(View()), map[]), Close(generation)), [io]))
    {
      ghost var s := Moved(cfg, Resting(View(), map[]), Close(generation));
      if route.Shut? || !Follows(route.generation, generation) {
        return;
      }
      DrainFetchPut(cfg, s, CloseChecked(generation), Idle, [io]);
      var _ := Record(route, CloseChecked(generation), io);
    }

    method ApplyCloseAll(io: Io)
      requires Valid()
      modifies this, journal
      ensures Valid()
      ensures View() == CoreOf(Drained(cfg, Moved(cfg, Resting(old(View()), map[]), ShutAll), [io]))
    {
      ghost var s := Moved(cfg, Resting(View(), map[]), ShutAll);
      DrainAssign(cfg, s, [io]);
      DrainFetchPut(cfg, s.(route := Shut, script := s.script.rest), CloseAll(false), Idle, [io]);
      route := Shut;
      var _ := Record(route, CloseAll(false), io);
    }

    // Journal the intent, install the route, journal that it is in place.
    method Replace(intent: Detail, c: Route, applied: Detail, io: Io, io': Io)
      requires Valid()
      modifies this, journal
      ensures Valid()
      ensures View() == CoreOf(Drained(cfg, Resting(old(View()), map[]).(
        script := Fetch(Put(intent, Assign(c, Fetch(Put(applied, Idle)))))), [io, io']))
    {
      ghost var s := Resting(View(), map[]).(script := Fetch(Put(intent, Assign(c, Fetch(Put(applied, Idle))))));
      ghost var ios := [io, io'];
      DrainFetchPut(cfg, s, intent, s.script.rest.rest, ios);
      var ok := Record(route, intent, io);
      if !ok {
        return;
      }
      ghost var t := s.(local := s.route, log := journal.View(), script := s.script.rest.rest);
      assert ios[1..] == [io'];
      DrainAssign(cfg, t, [io']);
      DrainFetchPut(cfg, t.(route := c, script := t.script.rest), applied, Idle, [io']);
      route := c;
      ok := Record(route, applied, io');
    }

    method ApplyOpen(lease: bool, generation: Scalar, fence: Option<Fence>, snapshot: Option<Snapshot>,
                     observed: Option<Bytes>, io: Io, io': Io)
      requires Valid()
      modifies this, journal
      ensures Valid()
      ensures View() == CoreOf(Drained(cfg, Moved(cfg, Resting(old(View()), map[]),
                                                  Open(lease, generation, fence, snapshot, observed)), [io, io']))
    {
      if !lease || route.Shut? || !Follows(route.generation, generation)
         || fence.None? || !fence.value.Gate? || snapshot.None? {
        return;
      }
      var permit := Candidacy(cfg, generation, snapshot.value, observed);
      if permit.Denied? {
        return;
      }
      var authorization := if cfg.observer.Some? then Some(cfg.observer.value.binding) else None;
      Replace(OpenIntent(generation, fence.value, permit.observation, authorization),
              Live(generation, fence.value, snapshot.value), OpenApplied, io, io');
    }

    method ApplyRestore(generation: Option<Scalar>, matching: bool, snapshot: Option<Snapshot>, io: Io, io': Io)
      requires Valid()
      modifies this, journal
      ensures Valid()
      ensures View() == CoreOf(Drained(cfg, Moved(cfg, Resting(old(View()), map[]),
                                                  Restore(generation, matching, snapshot)), [io, io']))
    {
      if generation.None? || !matching || snapshot.None? {
        return;
      }
      Replace(RestoreIntent(generation.value), Live(generation.value, Predecessor, snapshot.value), RestoreApplied,
              io, io');
    }

    // The duplicate check; true lets the request go on.
    method Screen(id: nat, ask: Ask, io: Io) returns (proceed: bool)
      requires Valid()
      modifies this, journal
      ensures Valid()
      ensures var s := Drained(cfg, Moved(cfg, Resting(old(View()), map[]), Arrive(id, ask)), [io]);
        View() == CoreOf(s) && s.handlers == map[id := Handler(ask, if proceed then Cleared else Gone)]
    {
      ghost var s := Moved(cfg, Resting(View(), map[]), Arrive(id, ask));
      if ask.requestId != "" && ask.requestId in seenRequestIds {
        var d := Duplicate(ask.requestId, ask.admissionId, cfg.format.sha(ask.body));
        DrainFetchPut(cfg, s, d, Idle, [io]);
        var _ := Record(route, d, io);
        return false;
      }
      if ask.requestId != "" {
        seenRequestIds := seenRequestIds + {ask.requestId};
      }
      return true;
    }

    // The second stretch: refresh, then admit or reject by the route as it is.
    method Decide(id: nat, ask: Ask, ev: Evidence, io: Io, io': Io) returns (stage: Stage)
      requires Valid()
      modifies this, journal
      ensures Valid()
      ensures var before := Resting(old(View()), map[id := Handler(ask, Cleared)]);
        var s := Drained(cfg, Moved(cfg, before, Admit(id, ev)), [io, io']);
        View() == CoreOf(s) && s.handlers == map[id := Handler(ask, stage)]
    {
      hide Write, Renewal, Drained;
      ghost var s := Moved(cfg, Resting(View(), map[id := Handler(ask, Cleared)]), Admit(id, ev));
      ghost var ios := [io, io'];
      var before := route;
      var ok, observation := RefreshCandidate(ev, io);
      var second := io;
      if before.Live? && route.Shut? {
        DrainAssign(cfg, s, ios);
        DrainFetchPut(cfg, s.(route := Shut, script := s.script.rest), CloseAll(true), s.script.rest.rest.rest, ios);
        if !ok {
          return Waiting;
        }
        second := io';
        s, ios := s.(route := Shut, local := Shut, log := journal.View(), script := s.script.rest.rest.rest), ios[1..];
      }
      DrainFetchDecide(cfg, s, id, ask, observation, ios);
      var admittedRoute := route;
      ok := Record(admittedRoute, AdmissionOf(cfg, ask, admittedRoute, observation), second);
      stage := if !ok || admittedRoute.Shut? then Gone else Forwarding(admittedRoute);
    }

    // Outside the lock: a completion, and on failure the late shutting.
    method Complete(id: nat, h: Handler, identity: Option<Registered>, listener: string, status: int,
                    payload: Bytes, io: Io) returns (ok: bool)
      requires Valid() && h.stage.Forwarding?
      modifies this`route, journal
      ensures Valid()
      ensures var s := Resting(old(View()), map[id := h]);
        var t := Next(cfg, s, Reply(id, identity, listener, status, payload, io));
        View() == CoreOf(if ok then t else Next(cfg, t, Sink(id)))
    {
      ReplyThenSink(cfg, View(), id, h, Reply(id, identity, listener, status, payload, io));
      hide *;
      var b := BackendOf(cfg, h.stage.route);
      var d := LoopbackAuthority.Complete(h.ask.requestId, h.ask.admissionId, cfg.format.sha(h.ask.body),
                                          Upstream(b.host, b.port, identity, listener),
                                          status, payload, cfg.format.sha(payload));
      ok := Record(h.stage.route, d, io);
    }
  }
}
