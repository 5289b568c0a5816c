/** The tablet health cache of vtctld (go/cmd/vtctld/tablet_data.go).

    A `TabletHealth` record holds the latest health response streamed from one
    tablet. `TabletHealthCache` maps tablet aliases to records; `Get` creates a
    record and its stream on a miss, and the stream removes its entry when it ends.

    Goroutines, channels and locks are replaced by one sequential interleaving:
    the two channels become the booleans `ready` and `done`, each locked section
    is the body of one method, and what the stream receives, together with the
    readers that run between its iterations, is a sequence of `Event`s. Clock
    readings are integers in nanoseconds, the unit of Go's time.Duration. */
module TabletData {
  import opened Wrappers
  import opened Errors

  /** Default of the tablet_health_keep_alive flag: 5 minutes. */
  const KeepAlive: int := 5 * 60 * 1000 * 1000 * 1000

  datatype TabletAlias = TabletAlias(cell: string, uid: nat)

  /** A StreamHealthResponse; the model never looks inside. */
  datatype HealthResponse = HealthResponse(payload: string)

  /** The state of a caller's context: still live, or done with ctx.Err() == err. */
  datatype Context = Live | Done(err: Error)

  /** Outcomes of the four calls `stream` makes before its loop: GetTablet,
      EndPoint, the dial and StreamHealth. None is success. */
  datatype Setup = Setup(getTablet: Option<Error>, endPoint: Option<Error>,
                         dial: Option<Error>, streamHealth: Option<Error>)

  /** The case one `select` of the stream loop takes. */
  datatype Received =
    | CtxDone(ctxErr: Error)              // <-ctx.Done(), with ctx.Err()
    | Response(response: HealthResponse)  // a result from the stream channel
    | Closed(closeErr: Option<Error>)     // the stream channel was closed; errFunc()

  /** One step of the interleaving seen by a record while its stream runs. */
  datatype Event =
    | Access(now: int)                    // a reader calls lastResult with a live context at `now`
    | Iterate(now: int, received: Received)  // the loop head reads the clock at `now`, then selects

  /** Whether the stream is still running or has returned with its error. */
  datatype Status = Running | Ended(err: Option<Error>)

  /** The fields of a record. */
  datatype Health = Health(result: Option<HealthResponse>, accessed: int,
                           err: Option<Error>, ready: bool, done: bool)

  /** A record as newTabletHealth builds it at time `now`. */
  function Initial(now: int): (h: Health)
    ensures Consistent(h) && h.accessed == now
    // no reader with a live context gets past the select of a new record
    ensures Await(h, Live, false) == Blocked && Await(h, Live, true) == Blocked
  {
    Health(None, now, None, false, false)
  }

  /** The record invariant: `ready` is closed only after a result was stored, and
      `err` is written only by the deferred exit of `stream`, just before `done`. */
  predicate Consistent(h: Health) {
    (h.ready ==> h.result.Some?) && (!h.done ==> h.err.None?)
  }

  /** What lastResult returns: it may still be blocked in its select, it may have
      been cancelled, or it returns the stored result and error. */
  datatype Wait = Blocked | Cancelled(ctxErr: Error)
                | Snapshot(result: Option<HealthResponse>, err: Option<Error>)

  /** The select of lastResult. When the context is done and a signal has also
      fired, Go picks one case at random; `preferCtx` is that choice. */
  function Await(h: Health, ctx: Context, preferCtx: bool): (w: Wait)
    ensures w.Blocked? <==> ctx.Live? && !h.ready && !h.done
    ensures w.Cancelled? ==> ctx.Done? && w.ctxErr == ctx.err
    ensures ctx.Done? && !h.ready && !h.done ==> w == Cancelled(ctx.err)
    ensures ctx.Live? && (h.ready || h.done) ==> w == Snapshot(h.result, h.err)
    ensures w.Snapshot? ==> (h.ready || h.done) && w.result == h.result && w.err == h.err
    // readiness gives a value with a nil error while the stream is alive
    ensures Consistent(h) && w.Snapshot? && !h.done ==> w.result.Some? && w.err.None?
  {
    var signalled := h.ready || h.done;
    if ctx.Done? && (!signalled || preferCtx) then Cancelled(ctx.err)
    else if signalled then Snapshot(h.result, h.err)
    else Blocked
  }

  /** The record after lastResult: only a returned snapshot writes `accessed`. */
  function AfterAwait(h: Health, w: Wait, now: int): (h': Health)
    ensures h'.(accessed := h.accessed) == h
    ensures Consistent(h) ==> Consistent(h')
    // a reader that got past the select keeps the stream from being idle at that moment
    ensures w.Snapshot? ==> !Idle(h', now)
    ensures !w.Snapshot? ==> h' == h
  {
    if w.Snapshot? then h.(accessed := now) else h
  }

  /** The loop condition: the stream goes on only while it was accessed less
      than KeepAlive ago. */
  predicate Idle(h: Health, now: int)
    // an access at or after `now` keeps the record alive
    ensures Idle(h, now) ==> h.accessed < now
  {
    !(now - h.accessed < KeepAlive)
  }

  /** The deferred function of `stream`: store the error, then close `done`. */
  function Finish(h: Health, e: Option<Error>): (h': Health)
    ensures h'.done && h'.err == e && h'.ready == h.ready && h'.result == h.result
    ensures h'.accessed == h.accessed
    ensures (h.ready ==> h.result.Some?) ==> Consistent(h')
    // every reader with a live context now returns the stored result with `e`
    ensures Await(h', Live, false) == Snapshot(h.result, e)
  {
    h.(err := e, done := true)
  }

  /** The error `stream` returns when the select takes `r` and the loop ends. */
  function ExitError(r: Received): (e: Option<Error>)
    // a cancelled context always ends the stream with an error; a closed stream
    // ends with what errFunc reports
    ensures r.CtxDone? ==> e == Some(r.ctxErr)
    ensures r.Closed? ==> e == r.closeErr
  {
    match r
    case CtxDone(e) => Some(e)
    case Closed(e) => e
    case Response(_) => None
  }

  /** The responses received by Iterate events, in order: an independent
      description of what the loop stores. */
  function Receipts(events: seq<Event>): (rs: seq<HealthResponse>)
    ensures |rs| <= |events|
  {
    if events == [] then []
    else (if events[0].Iterate? && events[0].received.Response?
          then [events[0].received.response] else [])
         + Receipts(events[1..])
  }

  /** The outcome of running the loop over a prefix of the events. */
  datatype Run = Run(health: Health, status: Status, consumed: nat)

  /** How many events a run handled as loop bodies or reader accesses: all
      consumed ones except the one that ended the loop. */
  function Handled(r: Run): nat {
    if r.status.Ended? && r.consumed > 0 then r.consumed - 1 else r.consumed
  }

  /** The `for` loop of `stream` (lines 100-122) over `events`. */
  function Loop(h: Health, events: seq<Event>): (r: Run)
    requires !h.done
    decreases |events|
    ensures r.consumed <= |events|
    ensures r.status.Running? <==> !r.health.done
    ensures r.status.Running? ==> r.consumed == |events| && r.health.err == h.err
    ensures r.status.Ended? ==> r.consumed >= 1 && r.health.err == r.status.err
  {
    if events == [] then Run(h, Running, 0)
    else
      match events[0]
      case Access(now) =>
        var r := Loop(AfterAwait(h, Await(h, Live, false), now), events[1..]);
        Run(r.health, r.status, r.consumed + 1)
      case Iterate(now, received) =>
        if Idle(h, now) then Run(Finish(h, None), Ended(None), 1)
        else if !received.Response? then
          var e := ExitError(received);
          Run(Finish(h, e), Ended(e), 1)
        else
          var r := Loop(h.(result := Some(received.response), ready := true), events[1..]);
          Run(r.health, r.status, r.consumed + 1)
  }

  /** The loop keeps the record invariant. */
  lemma {:induction false} LoopConsistent(h: Health, events: seq<Event>)
    requires !h.done && Consistent(h)
    decreases |events|
    ensures Consistent(Loop(h, events).health)
  {
    if events != [] {
      match events[0]
      case Access(now) =>
        LoopConsistent(AfterAwait(h, Await(h, Live, false), now), events[1..]);
      case Iterate(now, received) =>
        if !Idle(h, now) && received.Response? {
          LoopConsistent(h.(result := Some(received.response), ready := true), events[1..]);
        }
    }
  }

  /** The loop ends only at an Iterate event: on an idle record with a nil error,
      otherwise on a cancellation or a closed stream, with that case's error. */
  lemma {:induction false} LoopExit(h: Health, events: seq<Event>)
    requires !h.done
    decreases |events|
    ensures var r := Loop(h, events);
      r.status.Ended? ==>
        var last := events[r.consumed - 1];
        && last.Iterate?
        && (Idle(r.health, last.now) ==> r.status.err.None?)
        && (!Idle(r.health, last.now) ==>
              !last.received.Response? && r.status.err == ExitError(last.received))
  {
    if events != [] {
      var r := Loop(h, events);
      match events[0]
      case Access(now) =>
        var h1 := AfterAwait(h, Await(h, Live, false), now);
        LoopExit(h1, events[1..]);
        assert r.consumed == Loop(h1, events[1..]).consumed + 1;
      case Iterate(now, received) =>
        if !Idle(h, now) && received.Response? {
          var h1 := h.(result := Some(received.response), ready := true);
          LoopExit(h1, events[1..]);
          assert r.consumed == Loop(h1, events[1..]).consumed + 1;
        }
    }
  }

  /** Each received response overwrites the stored one, and `ready` is closed
      exactly when there has been one: after the events the loop handled, the
      record holds the latest response among them. */
  lemma {:induction false} LoopStoresLatest(h: Health, events: seq<Event>)
    requires !h.done
    decreases |events|
    ensures var r := Loop(h, events);
      var got := Receipts(events[..Handled(r)]);
      && r.health.ready == (h.ready || |got| > 0)
      && r.health.result == (if |got| > 0 then Some(got[|got| - 1]) else h.result)
  {
    var r := Loop(h, events);
    if events == [] {
      assert events[..Handled(r)] == [];
    } else {
      match events[0]
      case Access(now) =>
        var h1 := AfterAwait(h, Await(h, Live, false), now);
        var r1 := Loop(h1, events[1..]);
        LoopStoresLatest(h1, events[1..]);
        assert Handled(r) == Handled(r1) + 1;
        assert events[..Handled(r)] == [events[0]] + events[1..][..Handled(r1)];
      case Iterate(now, received) =>
        if Idle(h, now) || !received.Response? {
          assert events[..Handled(r)] == [];
        } else {
          var h1 := h.(result := Some(received.response), ready := true);
          var r1 := Loop(h1, events[1..]);
          LoopStoresLatest(h1, events[1..]);
          assert Handled(r) == Handled(r1) + 1;
          assert events[..Handled(r)] == [events[0]] + events[1..][..Handled(r1)];
        }
    }
  }

  /** The first failing call before the loop, if any. */
  function SetupError(s: Setup): (e: Option<Error>)
    ensures e.None? <==> s.getTablet.None? && s.endPoint.None? && s.dial.None? && s.streamHealth.None?
    ensures s.getTablet.Some? ==> e == s.getTablet
    ensures s.getTablet.None? && s.endPoint.Some? ==> e == s.endPoint
    ensures s.getTablet.None? && s.endPoint.None? && s.dial.Some? ==> e == s.dial
    ensures s.getTablet.None? && s.endPoint.None? && s.dial.None? ==> e == s.streamHealth
    ensures e.Some? ==> e in {s.getTablet, s.endPoint, s.dial, s.streamHealth}
  {
    if s.getTablet.Some? then s.getTablet
    else if s.endPoint.Some? then s.endPoint
    else if s.dial.Some? then s.dial
    else s.streamHealth
  }

  /** The whole of `stream` (lines 71-123): the setup calls, then the loop. */
  function StreamRun(h: Health, setup: Setup, events: seq<Event>): (r: Run)
    requires !h.done
    ensures SetupError(setup).Some? ==>
      r == Run(Finish(h, SetupError(setup)), Ended(SetupError(setup)), 0)
    ensures SetupError(setup).None? ==> r == Loop(h, events)
  {
    var e := SetupError(setup);
    if e.Some? then Run(Finish(h, e), Ended(e), 0) else Loop(h, events)
  }

  /** A failed setup ends the stream before any result: `ready` is never
      closed and every reader sees that error. */
  lemma SetupFailureEndsUnready(now: int, setup: Setup, events: seq<Event>, ctx: Context, preferCtx: bool)
    requires SetupError(setup).Some?
    ensures var r := StreamRun(Initial(now), setup, events);
      && r.status == Ended(SetupError(setup))
      && !r.health.ready && r.health.done
      && (ctx.Live? ==> Await(r.health, ctx, preferCtx) == Snapshot(None, SetupError(setup)))
  {
  }

  /** Readers that come while the stream is running and after a response get
      the latest response with a nil error. */
  lemma ReaderSeesLatest(h: Health, events: seq<Event>)
    requires Consistent(h) && !h.done
    requires Loop(h, events).status.Running? && Receipts(events) != []
    ensures var got := Receipts(events);
      Await(Loop(h, events).health, Live, false) == Snapshot(Some(got[|got| - 1]), None)
  {
    var r := Loop(h, events);
    assert events[..Handled(r)] == events;
    LoopConsistent(h, events);
    LoopStoresLatest(h, events);
  }

  /** The loop head runs before every receive: an idle record ends its stream
      with a nil error, whatever the select would have delivered. */
  lemma IdleExitIsClean(h: Health, now: int, received: Received, rest: seq<Event>)
    requires !h.done && Idle(h, now)
    ensures Loop(h, [Iterate(now, received)] + rest) == Run(Finish(h, None), Ended(None), 1)
  {
    assert ([Iterate(now, received)] + rest)[0] == Iterate(now, received);
  }

  /** A reader access resets the idle clock once the record is ready: the next
      loop head within KeepAlive of it does not end the stream. */
  lemma {:induction false} AccessKeepsStreamAlive(h: Health, t: int, now: int, x: HealthResponse, rest: seq<Event>)
    requires !h.done && h.ready && now - t < KeepAlive
    ensures var r := Loop(h, [Access(t), Iterate(now, Response(x))] + rest);
      r.consumed >= 2 && (r.status.Ended? ==> r.consumed > 2)
  {
    var events := [Access(t), Iterate(now, Response(x))] + rest;
    assert events[1..] == [Iterate(now, Response(x))] + rest;
    assert events[1..][1..] == rest;
    var h1 := AfterAwait(h, Await(h, Live, false), t);
    assert h1.accessed == t;
    assert !Idle(h1, now);
  }

  /** One tablet's health record. */
  class TabletHealth {
    var result: Option<HealthResponse>
    var accessed: int
    var err: Option<Error>
    var ready: bool
    var done: bool
    /** Whether the stream for this record has been started. */
    ghost var started: bool
    /** The alias the record was created for (the goroutine's tabletAlias). */
    ghost const key: TabletAlias

    ghost function State(): Health
      reads this
    {
      Health(result, accessed, err, ready, done)
    }

    ghost predicate Valid()
      reads this
    {
      Consistent(State()) && (!started ==> State() == Initial(accessed))
    }

    /** newTabletHealth, at time `now`, for the alias `key`. */
    constructor (now: int, ghost key: TabletAlias)
      ensures Valid() && !started && State() == Initial(now) && this.key == key
    {
      result, accessed, err, ready, done := None, now, None, false, false;
      started := false;
      this.key := key;
    }

    /** lastResult: wait for `ready`, `done` or the caller's context; on a
        signal, note the access time and return the stored result and error. */
    method LastResult(ctx: Context, preferCtx: bool, now: int) returns (w: Wait)
      requires Valid()
      modifies this
      ensures Valid() && started == old(started)
      ensures w == Await(old(State()), ctx, preferCtx)
      ensures State() == AfterAwait(old(State()), w, now)
    {
      var signalled := ready || done;
      if ctx.Done? && (!signalled || preferCtx) {
        return Cancelled(ctx.err);
      }
      if !signalled {
        return Blocked;
      }
      accessed := now;
      w := Snapshot(result, err);
    }

    /** lastAccessed. */
    function LastAccessed(): (t: int)
      reads this
      ensures t == State().accessed
    {
      accessed
    }

    /** close(th.ready): closing a closed channel panics, hence the precondition. */
    method SignalReady()
      requires !ready
      modifies this`ready
      ensures ready
    {
      ready := true;
    }

    /** The deferred function of `stream`: store `e`, then close `done`. */
    method Finish(e: Option<Error>)
      requires !done
      modifies this`err, this`done
      ensures err == e && done
    {
      err := e;
      done := true;
    }

    /** stream: the setup calls, then the loop over `events`. Returns Running when
        the events run out before the stream ends. */
    method Stream(setup: Setup, events: seq<Event>) returns (status: Status)
      requires Valid() && !started
      modifies this
      ensures Valid() && started
      ensures var r := StreamRun(old(State()), setup, events);
        State() == r.health && status == r.status
    {
      started := true;
      var e := SetupError(setup);
      if e.Some? {
        Finish(e);
        return Ended(e);
      }
      status := Pump(events);
    }

    /** The loop of `stream` (lines 100-122), from a record whose stream is open. */
    method Pump(events: seq<Event>) returns (status: Status)
      requires Valid() && started && !done
      modifies this
      ensures Valid() && started
      ensures var r := Loop(old(State()), events);
        State() == r.health && status == r.status
    {
      var first := !ready;
      var i := 0;
      while i < |events|
        invariant 0 <= i <= |events|
        invariant Valid() && started && !done
        invariant first == !ready
        invariant Loop(State(), events[i..]).health == Loop(old(State()), events).health
        invariant Loop(State(), events[i..]).status == Loop(old(State()), events).status
      {
        assert events[i..][1..] == events[i + 1..];
        match events[i] {
          case Access(now) =>
            var _ := LastResult(Live, false, now);
          case Iterate(now, received) =>
            if !(now - LastAccessed() < KeepAlive) {
              Finish(None);
              return Ended(None);
            }
            match received {
              case CtxDone(e) =>
                Finish(Some(e));
                return Ended(Some(e));
              case Closed(e) =>
                Finish(e);
                return Ended(e);
              case Response(x) =>
                result := Some(x);
                if first {
                  SignalReady();
                  first := false;
                }
            }
        }
        i := i + 1;
      }
      status := Running;
    }
  }

  /** The cache: one record per alias, created by Get on a miss. */
  class TabletHealthCache {
    var tabletMap: map<TabletAlias, TabletHealth>
    /** Every record this cache has created, removed or not. */
    ghost var Repr: set<TabletHealth>

    /** Each alias maps to a record created for it, and every record whose
        stream has not ended is the one mapped under its own alias: there is
        never more than one live stream for an alias. */
    ghost predicate Valid()
      reads this, Repr
    {
      && (forall a | a in tabletMap :: tabletMap[a] in Repr && tabletMap[a].key == a)
      && (forall th | th in Repr :: th.Valid())
      && (forall th | th in Repr && !th.done :: th.key in tabletMap && tabletMap[th.key] == th)
    }

    /** Distinct aliases hold distinct records. */
    lemma MapIsInjective(a: TabletAlias, b: TabletAlias)
      requires Valid() && a in tabletMap && b in tabletMap && a != b
      ensures tabletMap[a] != tabletMap[b]
    {
    }

    /** newTabletHealthCache. */
    constructor ()
      ensures Valid() && tabletMap == map[] && Repr == {}
    {
      tabletMap := map[];
      Repr := {};
    }

    /** Get: on a miss create and insert a record (whose stream StreamTask then
        runs); in both cases wait on the record for the caller. */
    method Get(ctx: Context, preferCtx: bool, now: int, alias: TabletAlias) returns (spawned: bool, w: Wait)
      requires Valid()
      modifies this, if alias in tabletMap then {tabletMap[alias]} else {}
      ensures Valid()
      ensures spawned <==> alias !in old(tabletMap)
      ensures alias in tabletMap && tabletMap.Keys == old(tabletMap).Keys + {alias}
      ensures forall a | a in old(tabletMap) :: tabletMap[a] == old(tabletMap[a])
      ensures Repr == old(Repr) + (if spawned then {tabletMap[alias]} else {})
      // on a miss: a fresh record for this alias, not yet streaming, read once
      ensures spawned ==> fresh(tabletMap[alias]) && tabletMap[alias].key == alias
      ensures spawned ==> !tabletMap[alias].started
      ensures spawned ==> w == Await(Initial(now), ctx, preferCtx)
      ensures spawned ==> tabletMap[alias].State() == AfterAwait(Initial(now), w, now)
      // on a hit: the existing record, read once
      ensures !spawned ==> w == Await(old(tabletMap[alias].State()), ctx, preferCtx)
      ensures !spawned ==> tabletMap[alias].State() == AfterAwait(old(tabletMap[alias].State()), w, now)
      ensures !spawned ==> tabletMap[alias].started == old(tabletMap[alias].started)
      // every other record is left alone
      ensures forall t | t in old(Repr) && (spawned || t != old(tabletMap[alias])) ::
        t.State() == old(t.State()) && t.started == old(t.started)
    {
      spawned := alias !in tabletMap;
      var th: TabletHealth;
      if spawned {
        th := new TabletHealth(now, alias);
        tabletMap := tabletMap[alias := th];
        Repr := Repr + {th};
      } else {
        th := tabletMap[alias];
      }
      w := th.LastResult(ctx, preferCtx, now);
    }

    /** The goroutine Get spawns (lines 148-153): run the record's stream and,
        when it returns, delete the alias. */
    method StreamTask(alias: TabletAlias, setup: Setup, events: seq<Event>) returns (status: Status)
      requires Valid() && alias in tabletMap && !tabletMap[alias].started
      modifies this, tabletMap[alias]
      ensures Valid() && Repr == old(Repr)
      ensures var r := StreamRun(old(tabletMap[alias].State()), setup, events);
        old(tabletMap[alias]).State() == r.health && status == r.status
      ensures old(tabletMap[alias]).started
      ensures status.Ended? ==> tabletMap == old(tabletMap) - {alias}
      ensures status.Running? ==> tabletMap == old(tabletMap)
    {
      var th := tabletMap[alias];
      status := th.Stream(setup, events);
      if status.Ended? {
        Delete(alias);
      }
    }

    /** More events for a stream that is still running. */
    method ResumeStream(alias: TabletAlias, events: seq<Event>) returns (status: Status)
      requires Valid() && alias in tabletMap
      requires tabletMap[alias].started && !tabletMap[alias].done
      modifies this, tabletMap[alias]
      ensures Valid() && Repr == old(Repr)
      ensures var r := Loop(old(tabletMap[alias].State()), events);
        old(tabletMap[alias]).State() == r.health && status == r.status
      ensures old(tabletMap[alias]).started
      ensures status.Ended? ==> tabletMap == old(tabletMap) - {alias}
      ensures status.Running? ==> tabletMap == old(tabletMap)
    {
      var th := tabletMap[alias];
      status := th.Pump(events);
      if status.Ended? {
        Delete(alias);
      }
    }

    /** delete: remove exactly that alias. Its only caller is the stream task
        after its stream has ended, which the precondition records. */
    method Delete(alias: TabletAlias)
      requires Valid()
      requires alias in tabletMap ==> tabletMap[alias].done
      modifies this
      ensures Valid() && Repr == old(Repr)
      ensures tabletMap == old(tabletMap) - {alias}
    {
      tabletMap := tabletMap - {alias};
    }
  }
}
