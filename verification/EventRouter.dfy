// core/event_router.hpp: process events merged per pid into batches, and the classification of a
// batch when it is flushed.
module EventRouter {
  datatype Event = Event(pid: nat, create: bool)

  datatype PendingEvent = PendingEvent(isCreate: bool, sawDelete: bool)

  const MAX_PENDING := 4096

  // ---- Event by event ----------------------------------------------------------------------------------

  // The processes alive after the events, one at a time.
  function Replay(tracked: set<nat>, events: seq<Event>): set<nat> {
    if events == [] then tracked else
    var e := events[|events| - 1];
    var before := Replay(tracked, events[..|events| - 1]);
    if e.create then before + {e.pid} else before - {e.pid}
  }

  predicate Named(events: seq<Event>, pid: nat) { exists i :: 0 <= i < |events| && events[i].pid == pid }

  predicate Exited(events: seq<Event>, pid: nat) { exists i :: 0 <= i < |events| && events[i] == Event(pid, false) }

  // The last event of `pid` is its i-th.
  predicate LastAt(events: seq<Event>, pid: nat, i: int) {
    0 <= i < |events| && events[i].pid == pid && forall j :: i < j < |events| ==> events[j].pid != pid
  }

  ghost predicate EndsCreated(events: seq<Event>, pid: nat) { exists i :: LastAt(events, pid, i) && events[i].create }

  ghost predicate EndsExited(events: seq<Event>, pid: nat) { exists i :: LastAt(events, pid, i) && !events[i].create }

  lemma {:induction false} ReplayConcat(tracked: set<nat>, a: seq<Event>, b: seq<Event>)
    ensures Replay(tracked, a + b) == Replay(Replay(tracked, a), b)
  {
    if b == [] {
      assert a + b == a;
    } else {
      ReplayConcat(tracked, a, b[..|b| - 1]);
      assert (a + b)[..|a + b| - 1] == a + b[..|b| - 1];
    }
  }

  // The last event of a pid decides; without one nothing changes.
  lemma {:induction false} ReplayByLast(tracked: set<nat>, events: seq<Event>, pid: nat)
    ensures pid in Replay(tracked, events) <==> EndsCreated(events, pid) || (pid in tracked && !EndsExited(events, pid))
    ensures Named(events, pid) <==> EndsCreated(events, pid) || EndsExited(events, pid)
  {
    if events != [] {
      var n := |events| - 1;
      var before := events[..n];
      ReplayByLast(tracked, before, pid);
      if events[n].pid == pid {
        assert LastAt(events, pid, n);
        assert forall i :: LastAt(events, pid, i) ==> i == n;
      } else {
        assert forall i :: LastAt(events, pid, i) <==> LastAt(before, pid, i);
        assert Named(events, pid) <==> Named(before, pid);
      }
    }
  }

  // ---- Merging --------------------------------------------------------------------------------------------

  // What is kept of a batch for one pid.
  ghost predicate Summarises(p: PendingEvent, events: seq<Event>, pid: nat) {
    && (p.isCreate ==> EndsCreated(events, pid)) && (!p.isCreate ==> EndsExited(events, pid))
    && (p.sawDelete <==> Exited(events, pid))
  }

  lemma AddedOwn(events: seq<Event>, e: Event)
    ensures var more := events + [e];
      && (if e.create then EndsCreated(more, e.pid) else EndsExited(more, e.pid)) && Named(more, e.pid)
      && (Exited(more, e.pid) <==> !e.create || Exited(events, e.pid))
  {
    var more := events + [e];
    assert LastAt(more, e.pid, |events|);
    assert forall i :: 0 <= i < |events| ==> more[i] == events[i];
    assert more[|events|] == e;
  }

  lemma AddedOther(events: seq<Event>, e: Event, pid: nat)
    requires pid != e.pid
    ensures var more := events + [e];
      && (Named(more, pid) <==> Named(events, pid)) && (Exited(more, pid) <==> Exited(events, pid))
      && (EndsCreated(more, pid) <==> EndsCreated(events, pid)) && (EndsExited(more, pid) <==> EndsExited(events, pid))
  {
    var more := events + [e];
    assert forall i :: 0 <= i < |events| ==> more[i] == events[i];
    assert forall i :: LastAt(more, pid, i) <==> LastAt(events, pid, i);
  }

  datatype Report = Report(created: set<nat>, dead: set<nat>, recycled: set<nat>, dropped: bool)

  // What the handler must be told of a batch: see it as new, dead or recycled.
  ghost predicate Reports(r: Report, tracked: set<nat>, events: seq<Event>) {
    && (forall p {:trigger p in r.dead} :: p in r.dead <==> EndsExited(events, p))
    && (forall p {:trigger p in r.recycled} :: p in r.recycled <==> EndsCreated(events, p) && Exited(events, p))
    && (forall p {:trigger p in r.created} :: p in r.created <==>
          EndsCreated(events, p) && (Exited(events, p) || p !in tracked))
  }

  // New and dead exclude each other, a recycled pid is new, and every exit of the batch shows.
  lemma ReportsAreDisjoint(r: Report, tracked: set<nat>, events: seq<Event>)
    requires Reports(r, tracked, events)
    ensures r.recycled <= r.created && r.created !! r.dead
    ensures forall p :: Exited(events, p) ==> p in r.dead || p in r.recycled
  {
    forall p: nat
      ensures p in r.recycled ==> p in r.created
      ensures !(p in r.created && p in r.dead)
      ensures Exited(events, p) ==> p in r.dead || p in r.recycled
    {
      assert forall i, j :: LastAt(events, p, i) && LastAt(events, p, j) ==> i == j;
      ReplayByLast({}, events, p);
      if Exited(events, p) { assert Named(events, p); }
    }
  }

  // ---- The router -----------------------------------------------------------------------------------------

  class EventRouter {
    var running: bool
    var pending: map<nat, PendingEvent>
    var dropped: bool
    var tracked: set<nat>
    ghost var batch: seq<Event>      // the events accepted since the last flush
    ghost var flushed: seq<Event>    // those accepted before

    constructor ()
      ensures Valid() && running && batch == [] && flushed == [] && !dropped && tracked == {}
    {
      running, pending, dropped, tracked, batch, flushed := true, map[], false, {}, [], [];
    }

    ghost predicate Valid()
      reads this
    {
      && |pending| <= MAX_PENDING && tracked == Replay({}, flushed)
      && (forall p :: p in pending <==> Named(batch, p))
      && (forall p :: p in pending ==> Summarises(pending[p], batch, p))
    }

    // add_event: an event of a pid already pending is always accepted; one that is not is lost, and
    // the loss noted, only when the limit is reached.
    method AddEvent(pid: int, isCreate: bool) returns (accepted: bool)
      requires Valid()
      modifies `pending, `dropped, `batch
      ensures Valid()
      ensures accepted ==> pid > 0 && batch == old(batch) + [Event(pid, isCreate)]
      ensures !accepted ==> batch == old(batch)
      ensures !accepted ==> pid <= 0 || !running || dropped
      ensures dropped <==> old(dropped) || (pid > 0 && running && !accepted)
      ensures pid > 0 && running && (Named(old(batch), pid) || |old(pending)| < MAX_PENDING) ==> accepted
    {
      hide EndsCreated, EndsExited, Named, Exited, Replay;
      if pid <= 0 || !running { return false; }
      if pid !in pending {
        if |pending| >= MAX_PENDING {
          dropped := true;
          return false;
        }
        pending := pending[pid := PendingEvent(false, false)];
      }
      var p := pending[pid].(isCreate := isCreate);
      if !isCreate { p := p.(sawDelete := true); }
      pending := pending[pid := p];
      ghost var e := Event(pid, isCreate);
      AddedOwn(batch, e);
      NotExited(batch, pid);
      forall other | other != pid { AddedOther(batch, e, other); }
      batch := batch + [e];
      return true;
    }

    lemma NotExited(events: seq<Event>, pid: nat)
      ensures !Named(events, pid) ==> !Exited(events, pid)
    {
    }

    // One round of router_loop: classify the batch and start the next one.
    method Flush() returns (r: Report)
      requires Valid()
      modifies `pending, `dropped, `tracked, `batch, `flushed
      ensures Valid() && batch == [] && !dropped && flushed == old(flushed) + old(batch)
      ensures Reports(r, old(tracked), old(batch)) && r.dropped == old(dropped)
      ensures tracked == Replay(old(tracked), old(batch))
    {
      hide EndsCreated, EndsExited, Named, Exited, Replay, LastAt;
      var events := pending;
      pending := map[];
      r := Report({}, {}, {}, dropped);
      dropped := false;
      ghost var was := tracked;
      var left := events.Keys;
      while left != {}
        invariant left <= events.Keys && r.dropped == old(dropped)
        invariant !dropped && pending == map[] && batch == old(batch) && flushed == old(flushed)
        invariant forall p {:trigger p in r.dead} :: p in r.dead <==> p in events && p !in left && !events[p].isCreate
        invariant forall p {:trigger p in r.recycled} :: p in r.recycled <==>
          p in events && p !in left && events[p].isCreate && events[p].sawDelete
        invariant forall p {:trigger p in r.created} :: p in r.created <==>
          p in events && p !in left && events[p].isCreate && (events[p].sawDelete || p !in was)
        invariant forall p {:trigger p in tracked} :: p in tracked <==>
          if p in events && p !in left then events[p].isCreate else p in was
        decreases |left|
      {
        var p :| p in left;
        left := left - {p};
        if events[p].isCreate {
          var newly := p !in tracked;
          tracked := tracked + {p};
          if events[p].sawDelete {
            r := r.(recycled := r.recycled + {p}, created := r.created + {p});
          } else if newly {
            r := r.(created := r.created + {p});
          }
        } else {
          tracked := tracked - {p};
          r := r.(dead := r.dead + {p});
        }
      }
      Classified(r, was, tracked, events, batch);
      ReplayConcat({}, flushed, batch);
      flushed, batch := flushed + batch, [];
      NothingNamed();
    }

    lemma NothingNamed()
      ensures forall p :: !Named([], p)
    {
    }

    lemma {:induction false} Classified(r: Report, was: set<nat>, now: set<nat>, events: map<nat, PendingEvent>, accepted: seq<Event>)
      requires (forall p :: p in events <==> Named(accepted, p)) && (forall p :: p in events ==> Summarises(events[p], accepted, p))
      requires forall p {:trigger p in r.dead} :: p in r.dead <==> p in events && !events[p].isCreate
      requires forall p {:trigger p in r.recycled} :: p in r.recycled <==> p in events && events[p].isCreate && events[p].sawDelete
      requires forall p {:trigger p in r.created} :: p in r.created <==>
        p in events && events[p].isCreate && (events[p].sawDelete || p !in was)
      requires forall p {:trigger p in now} :: p in now <==> if p in events then events[p].isCreate else p in was
      ensures Reports(r, was, accepted) && now == Replay(was, accepted)
    {
      hide EndsCreated, EndsExited, Named, Exited, Replay;
      forall p: nat
        ensures p in r.dead <==> EndsExited(accepted, p)
        ensures p in r.recycled <==> EndsCreated(accepted, p) && Exited(accepted, p)
        ensures p in r.created <==> EndsCreated(accepted, p) && (Exited(accepted, p) || p !in was)
        ensures p in now <==> p in Replay(was, accepted)
      {
        ReplayByLast(was, accepted, p);
        OneEnd(accepted, p);
      }
      assert now == Replay(was, accepted);
    }

    lemma OneEnd(events: seq<Event>, pid: nat)
      ensures !(EndsCreated(events, pid) && EndsExited(events, pid))
    {
      assert forall i, j :: LastAt(events, pid, i) && LastAt(events, pid, j) ==> i == j;
    }

    // stop
    method Stop()
      requires Valid()
      modifies this
      ensures Valid() && !running && pending == map[] && tracked == {} && batch == [] && flushed == []
    {
      running := false;
      pending, tracked, batch, flushed := map[], {}, [], [];
    }

    // A whole stream in any batches. If no batch reports a drop, the tracked set is what replaying
    // the stream event by event gives, and every report is exact for its own batch.
    method RunBatches(batches: seq<seq<Event>>) returns (reports: seq<Report>, ghost starts: seq<set<nat>>)
      requires Valid() && running && batch == [] && !dropped
      requires forall b, k :: 0 <= b < |batches| && 0 <= k < |batches[b]| ==> batches[b][k].pid > 0
      modifies this
      ensures Valid() && |reports| == |starts| == |batches|
      ensures NoDrops(reports) ==>
        tracked == Replay(old(tracked), Flatten(batches)) && Faithful(old(tracked), batches, reports, starts)
    {
      hide Valid, Reports, Replay, Flatten, NoDrops, Faithful;
      reports, starts := [], [];
      ghost var first := tracked;
      FlattenNone(tracked, reports, starts);
      for i := 0 to |batches|
        invariant Valid() && running && batch == [] && !dropped && |reports| == |starts| == i
        invariant NoDrops(reports) ==>
          tracked == Replay(first, Flatten(batches[..i])) && Faithful(first, batches[..i], reports, starts)
      {
        AddBatch(batches[i]);
        ghost var was := tracked;
        var r := Flush();
        assert batches[..i + 1] == batches[..i] + [batches[i]];
        OneMore(first, batches[..i], batches[i], reports, starts, r, was);
        reports, starts := reports + [r], starts + [was];
      }
      assert batches[..|batches|] == batches;
    }

    lemma {:induction false} FlattenNone(first: set<nat>, reports: seq<Report>, starts: seq<set<nat>>)
      ensures Replay(first, []) == first && Flatten([]) == []
      ensures reports == [] && starts == [] ==> Faithful(first, [], reports, starts)
    {
    }

    lemma {:induction false} OneMore(first: set<nat>, batches: seq<seq<Event>>, events: seq<Event>, reports: seq<Report>,
                  starts: seq<set<nat>>, r: Report, was: set<nat>)
      requires |reports| == |starts| == |batches|
      requires NoDrops(reports) ==> was == Replay(first, Flatten(batches)) && Faithful(first, batches, reports, starts)
      requires !r.dropped ==> Reports(r, was, events)
      ensures Replay(was, events) == Replay(first, Flatten(batches + [events])) || !NoDrops(reports)
      ensures NoDrops(reports + [r]) ==> NoDrops(reports) && !r.dropped
      ensures NoDrops(reports + [r]) ==> Faithful(first, batches + [events], reports + [r], starts + [was])
    {
      hide Reports, Replay;
      var more := batches + [events];
      assert more[..|batches|] == batches;
      ReplayConcat(first, Flatten(batches), events);
      if NoDrops(reports + [r]) {
        assert (reports + [r])[|reports|] == r;
        assert NoDrops(reports) by {
          assert forall b :: 0 <= b < |reports| ==> (reports + [r])[b] == reports[b];
        }
        forall b | 0 <= b < |more|
          ensures (starts + [was])[b] == Replay(first, Flatten(more[..b])) && Reports((reports + [r])[b], (starts + [was])[b], more[b])
        {
          if b < |batches| { assert more[..b] == batches[..b]; }
        }
      }
    }

    method AddBatch(events: seq<Event>)
      requires Valid() && running && batch == [] && !dropped && forall k :: 0 <= k < |events| ==> events[k].pid > 0
      modifies `pending, `dropped, `batch
      ensures Valid() && (!dropped ==> batch == events)
    {
      hide Valid;
      for k := 0 to |events|
        invariant Valid() && (!dropped ==> batch == events[..k])
      {
        var accepted := AddEvent(events[k].pid, events[k].create);
        assert events[..k + 1] == events[..k] + [events[k]];
      }
    }
  }

  predicate NoDrops(reports: seq<Report>) { forall b :: 0 <= b < |reports| ==> !reports[b].dropped }

  // Each batch is reported exactly, against the set its predecessors left.
  ghost predicate Faithful(first: set<nat>, batches: seq<seq<Event>>, reports: seq<Report>, starts: seq<set<nat>>) {
    && |reports| == |starts| == |batches|
    && forall b :: 0 <= b < |batches| ==>
         starts[b] == Replay(first, Flatten(batches[..b])) && Reports(reports[b], starts[b], batches[b])
  }

  function Flatten(batches: seq<seq<Event>>): seq<Event> {
    if batches == [] then [] else Flatten(batches[..|batches| - 1]) + batches[|batches| - 1]
  }
}
