/**
  One stream: a data source whose items are broadcast to the subscriber
  registry and optionally saved, a health check on a time gate, and a retry
  (sleep, then reconnect the source) after any error.

  The source, the storage, the clock, the subscribers' sockets and the health
  probe are outside the model; what they do is given as input. A `Tick` is one
  item the source yields together with what the outside world does while that
  item is handled; a `Session` is one pass of the run loop's body, from opening
  the source's stream until the stream ends or raises.
 */
module Streams {
  import opened Sequences
  import opened Connections

  /** A payload as the source yields it; the model never looks inside. */
  type Json = string

  datatype Option<T> = None | Some(value: T)

  /** The class of the stream's data source, as the run loop's `isinstance`
      dispatch sees it. */
  datatype SourceKind = RestSource | WebSocketSource | OtherSource

  /** The class of the configured storage, as `save_data` sees it. */
  datatype StorageKind = LocalStorage | CloudStorage | OtherStorage

  /** What a stream does to the outside world, in order. */
  datatype Effect =
    | PollingOpened(interval: Option<int>)      // data_stream(interval) of a REST source
    | PushOpened                                // data_stream() of a WebSocket source
    | DispatchFailed                            // NotImplementedError for any other source
    | Broadcast(data: Json, sentTo: seq<Socket>)
    | FileSaved(name: string, data: Json)
    | HealthChecked(healthy: bool)
    | HealthProbeRaised                         // check_health raised instead of answering
    | Slept(seconds: int)
    | Reconnect(connected: bool)                // false: connect raised or does not exist

  /** What the source's `check_health` does when the health gate calls it:
      it answers healthy or not, or it raises (an error the source does not
      catch, such as a timeout). */
  datatype Probe = Answered(healthy: bool) | ProbeFailed

  /** One item from the source, with the outside world's answers while it is
      handled: each socket's send outcome, whether the file write succeeds,
      the event-loop clock, the health probe's behaviour and whether a
      reconnect done by the health gate succeeds. */
  datatype Tick = Tick(data: Json, outcome: Socket -> SendOutcome, saveOk: bool,
                       now: int, probe: Probe, connectOk: bool)

  /** How the source's stream ends after its last item: it is exhausted, or
      it raises. */
  datatype Ending = Closed | Raised

  /** One pass of the run loop: the items, how the stream ends, whether the
      reconnect of the retry after an error succeeds, and whether `stop()` is
      called (by another task) before the loop condition is next tested. */
  datatype Session = Session(ticks: seq<Tick>, ending: Ending, connectOk: bool, stopRequested: bool)

  /** The parts of a stream that never change after construction. */
  datatype Config = Config(source: SourceKind, storage: Option<StorageKind>, interval: Option<int>,
                           healthCheckInterval: int, retryDelay: int)

  /** The parts of a stream and its registry that change. */
  datatype State = State(running: bool, lastHealthCheck: int, connections: seq<Socket>, log: seq<Effect>)

  /** A new state, and whether an exception is on its way out. */
  datatype Outcome = Outcome(state: State, raised: bool)

  const DataFile: string := "data.json"
  const DefaultHealthCheckInterval: int := 60
  const DefaultRetryDelay: int := 5

  /** Only the WebSocket source class defines `connect`; on the REST source
      class and on every other source class of the repository the attribute
      lookup raises. */
  predicate HasConnect(kind: SourceKind)
  {
    kind == WebSocketSource
  }

  /** `save_data` writes for local and cloud storage and does nothing for any
      other storage class. */
  predicate SavesTo(storage: Option<StorageKind>)
  {
    storage == Some(LocalStorage) || storage == Some(CloudStorage)
  }

  /** `retry`: sleep for the retry delay, then reconnect the source; the
      exception of a failed or missing `connect` is passed on. */
  function Retried(cfg: Config, st: State, connectOk: bool): (r: Outcome)
    ensures r.state == st.(log := st.log + [Slept(cfg.retryDelay), Reconnect(!r.raised)])
    ensures r.raised <==> !(HasConnect(cfg.source) && connectOk)
    // the corollary the lemmas about sources without `connect` rely on
    ensures !HasConnect(cfg.source) ==> r.raised
  {
    var connected := HasConnect(cfg.source) && connectOk;
    Outcome(st.(log := st.log + [Slept(cfg.retryDelay), Reconnect(connected)]), !connected)
  }

  /** `check_health_periodically` at clock reading `now`. */
  function HealthGate(cfg: Config, st: State, now: int, probe: Probe, connectOk: bool): (r: Outcome)
    ensures r.state.running == st.running && r.state.connections == st.connections
    // within the interval (or exactly at its end) nothing happens
    ensures now - st.lastHealthCheck <= cfg.healthCheckInterval ==> r == Outcome(st, false)
    // after it a probe that raises passes its exception on, and the check time is not recorded
    ensures now - st.lastHealthCheck > cfg.healthCheckInterval && probe == ProbeFailed ==>
      r == Outcome(st.(log := st.log + [HealthProbeRaised]), true)
    // a probe that answers is retried exactly when it says unhealthy
    ensures now - st.lastHealthCheck > cfg.healthCheckInterval && probe.Answered? ==>
      && r.state.log == st.log + [HealthChecked(probe.healthy)]
                      + (if probe.healthy then [] else [Slept(cfg.retryDelay), Reconnect(!r.raised)])
      && (r.raised <==> !probe.healthy && !(HasConnect(cfg.source) && connectOk))
      // the check time is recorded unless the retry raised
      && r.state.lastHealthCheck == (if r.raised then st.lastHealthCheck else now)
  {
    if now - st.lastHealthCheck > cfg.healthCheckInterval then
      match probe
      case ProbeFailed => Outcome(st.(log := st.log + [HealthProbeRaised]), true)
      case Answered(healthy) =>
        var probed := st.(log := st.log + [HealthChecked(healthy)]);
        if healthy then
          Outcome(probed.(lastHealthCheck := now), false)
        else
          var retried := Retried(cfg, probed, connectOk);
          if retried.raised then retried
          else Outcome(retried.state.(lastHealthCheck := now), false)
    else
      Outcome(st, false)
  }

  /** The later `save_data`: a write of the payload to `data.json` for local
      or cloud storage, nothing otherwise. */
  function Saved(cfg: Config, st: State, data: Json, saveOk: bool): (r: Outcome)
    ensures SavesTo(cfg.storage) ==>
      r == Outcome(st.(log := st.log + [FileSaved(DataFile, data)]), !saveOk)
    ensures !SavesTo(cfg.storage) ==> r == Outcome(st, false)
  {
    match cfg.storage
    case Some(LocalStorage) => Outcome(st.(log := st.log + [FileSaved(DataFile, data)]), !saveOk)
    case Some(CloudStorage) => Outcome(st.(log := st.log + [FileSaved(DataFile, data)]), !saveOk)
    case _ => Outcome(st, false)
  }

  /** `process_data`: broadcast first, then save when storage is configured. */
  function Processed(cfg: Config, st: State, data: Json, outcome: Socket -> SendOutcome, saveOk: bool): (r: Outcome)
    ensures r.state.running == st.running && r.state.lastHealthCheck == st.lastHealthCheck
    ensures r.state.connections == Sweep(st.connections, 0, outcome).remaining
    // the broadcast is the first thing that happens
    ensures |r.state.log| > |st.log| && r.state.log[..|st.log|] == st.log
    ensures r.state.log[|st.log|] == Broadcast(data, Sweep(st.connections, 0, outcome).sentTo)
    // one write, after it, exactly for local and cloud storage
    ensures |r.state.log| == |st.log| + (if SavesTo(cfg.storage) then 2 else 1)
    ensures SavesTo(cfg.storage) ==> r.state.log[|st.log| + 1] == FileSaved(DataFile, data)
    // only a failed write raises; a failed send never does
    ensures r.raised <==> SavesTo(cfg.storage) && !saveOk
  {
    var pass := Sweep(st.connections, 0, outcome);
    var sent := st.(connections := pass.remaining, log := st.log + [Broadcast(data, pass.sentTo)]);
    if cfg.storage.Some? then Saved(cfg, sent, data, saveOk) else Outcome(sent, false)
  }

  /** The inner `async for` of the run loop: each item is processed, then the
      health gate runs; the first exception ends the loop. */
  function TicksRun(cfg: Config, st: State, ticks: seq<Tick>): (r: Outcome)
    ensures r.state.running == st.running
    ensures st.log <= r.state.log
    // without an exception the log grows by at least one entry per item
    // (which entries: `TicksBroadcastEachItem`)
    ensures !r.raised ==> |r.state.log| >= |st.log| + |ticks|
    decreases |ticks|
  {
    if ticks == [] then Outcome(st, false)
    else
      var t := ticks[0];
      var p := Processed(cfg, st, t.data, t.outcome, t.saveOk);
      if p.raised then p
      else
        var h := HealthGate(cfg, p.state, t.now, t.probe, t.connectOk);
        if h.raised then h else TicksRun(cfg, h.state, ticks[1..])
  }

  /** The stream a source kind opens, or the dispatch error. */
  function Opened(cfg: Config, st: State): (r: Outcome)
    ensures r.raised <==> cfg.source == OtherSource
    // only the log changes: it records the stream opened, or the dispatch error
    ensures cfg.source == RestSource ==> r.state == st.(log := st.log + [PollingOpened(cfg.interval)])
    ensures cfg.source == WebSocketSource ==> r.state == st.(log := st.log + [PushOpened])
    ensures cfg.source == OtherSource ==> r.state == st.(log := st.log + [DispatchFailed])
  {
    match cfg.source
    case RestSource => Outcome(st.(log := st.log + [PollingOpened(cfg.interval)]), false)
    case WebSocketSource => Outcome(st.(log := st.log + [PushOpened]), false)
    case OtherSource => Outcome(st.(log := st.log + [DispatchFailed]), true)
  }

  /** The `try` block of the run loop: open the source's stream, handle its
      items, and raise if the stream raises after its last item. */
  function SessionBody(cfg: Config, st: State, s: Session): (r: Outcome)
    ensures r.state.running == st.running
    // the dispatch comes first
    ensures |r.state.log| > |st.log| && r.state.log[..|st.log| + 1] == Opened(cfg, st).state.log
    // an unsupported source handles no item
    ensures cfg.source == OtherSource ==> r == Opened(cfg, st)
    // a stream that raises after its last item always reaches the handler
    ensures s.ending == Raised ==> r.raised
  {
    var entered := Opened(cfg, st);
    if entered.raised then entered
    else
      var t := TicksRun(cfg, entered.state, s.ticks);
      if t.raised then t else Outcome(t.state, s.ending == Raised)
  }

  /** One pass of the run loop's body: the `try` block, and `retry` in its
      handler. `raised` in the result is an exception that escapes the
      handler, and with it the whole run loop. */
  function SessionRun(cfg: Config, st: State, s: Session): (r: Outcome)
    ensures r.state.running == st.running
    ensures st.log <= r.state.log
    // every exception of the `try` block is caught and followed by `retry`
    ensures SessionBody(cfg, st, s).raised ==>
      r.state == SessionBody(cfg, st, s).state.(log := SessionBody(cfg, st, s).state.log
                                                         + [Slept(cfg.retryDelay), Reconnect(!r.raised)])
    // without one the pass ends quietly
    ensures !SessionBody(cfg, st, s).raised ==> r == SessionBody(cfg, st, s)
    // what escapes is always the failed reconnect of the handler's retry
    ensures r.raised ==> (|r.state.log| >= 2
                          && r.state.log[|r.state.log| - 2..] == [Slept(cfg.retryDelay), Reconnect(false)])
  {
    var body := SessionBody(cfg, st, s);
    if body.raised then Retried(cfg, body.state, s.connectOk) else body
  }

  /** The state after `stop()` when it was requested during the pass. */
  function StopIfRequested(st: State, s: Session): (r: State)
    ensures r.running == (st.running && !s.stopRequested)
    ensures r.(running := st.running) == st
  {
    if s.stopRequested then st.(running := false) else st
  }

  /** The run loop over the passes the environment provides: a pass starts
      only while `running` holds, and an exception out of the handler ends
      the loop. */
  function RunTrace(cfg: Config, st: State, sessions: seq<Session>): (r: Outcome)
    // a loop that is not running does nothing
    ensures !st.running ==> r == Outcome(st, false)
    ensures st.log <= r.state.log
    // the loop is only ever left by an exception through a failed reconnect
    ensures r.raised ==> (|r.state.log| >= 2
                          && r.state.log[|r.state.log| - 2..] == [Slept(cfg.retryDelay), Reconnect(false)])
    decreases |sessions|
  {
    if !st.running || sessions == [] then Outcome(st, false)
    else
      var o := SessionRun(cfg, st, sessions[0]);
      var next := StopIfRequested(o.state, sessions[0]);
      if o.raised then Outcome(next, true) else RunTrace(cfg, next, sessions[1..])
  }

  // ---------------------------------------------------------------------
  // Properties of the run loop

  /** Handling items only ever drops subscribers, never reorders or adds them. */
  lemma {:induction false} TicksKeepSubscriberOrder(cfg: Config, st: State, ticks: seq<Tick>)
    ensures IsSubsequence(TicksRun(cfg, st, ticks).state.connections, st.connections)
    decreases |ticks|
  {
    if ticks == [] {
      SubsequenceReflexive(st.connections);
    } else {
      var t := ticks[0];
      var p := Processed(cfg, st, t.data, t.outcome, t.saveOk);
      BroadcastFacts(st.connections, t.outcome);
      if !p.raised {
        var h := HealthGate(cfg, p.state, t.now, t.probe, t.connectOk);
        if !h.raised {
          TicksKeepSubscriberOrder(cfg, h.state, ticks[1..]);
          SubsequenceTransitive(TicksRun(cfg, h.state, ticks[1..]).state.connections,
                                p.state.connections, st.connections);
        }
      }
    }
  }

  /** A whole run only ever drops subscribers, never reorders or adds them. */
  lemma {:induction false} RunKeepsSubscriberOrder(cfg: Config, st: State, sessions: seq<Session>)
    ensures IsSubsequence(RunTrace(cfg, st, sessions).state.connections, st.connections)
    decreases |sessions|
  {
    if !st.running || sessions == [] {
      SubsequenceReflexive(st.connections);
    } else {
      var s := sessions[0];
      var entered := Opened(cfg, st);
      if !entered.raised {
        TicksKeepSubscriberOrder(cfg, entered.state, s.ticks);
      } else {
        SubsequenceReflexive(st.connections);
      }
      var o := SessionRun(cfg, st, s);
      var next := StopIfRequested(o.state, s);
      if !o.raised {
        RunKeepsSubscriberOrder(cfg, next, sessions[1..]);
        SubsequenceTransitive(RunTrace(cfg, next, sessions[1..]).state.connections,
                              next.connections, st.connections);
      }
    }
  }

  /** Reconnect attempts that failed, in a log. */
  function FailedReconnects(log: seq<Effect>): (n: nat)
  {
    multiset(log)[Reconnect(false)]
  }

  /** The payloads broadcast in a log, in order. */
  function Payloads(log: seq<Effect>): (d: seq<Json>)
    ensures |d| <= |log|
    decreases |log|
  {
    if log == [] then []
    else (if log[0].Broadcast? then [log[0].data] else []) + Payloads(log[1..])
  }

  /** The payloads of a sequence of items, in order. */
  function ItemData(ticks: seq<Tick>): (d: seq<Json>)
    ensures |d| == |ticks|
    decreases |ticks|
  {
    if ticks == [] then [] else [ticks[0].data] + ItemData(ticks[1..])
  }

  lemma {:induction false} PayloadsAppend(a: seq<Effect>, b: seq<Effect>)
    ensures Payloads(a + b) == Payloads(a) + Payloads(b)
    decreases |a|
  {
    if a != [] {
      assert (a + b)[1..] == a[1..] + b;
      PayloadsAppend(a[1..], b);
    } else {
      assert a + b == b;
    }
  }

  /** A log segment without broadcasts carries no payload. */
  lemma {:induction false} PayloadsNone(log: seq<Effect>)
    requires forall k :: 0 <= k < |log| ==> !log[k].Broadcast?
    ensures Payloads(log) == []
    decreases |log|
  {
    if log != [] {
      PayloadsNone(log[1..]);
    }
  }

  /** Processing an item broadcasts exactly that item. */
  lemma ProcessedPayloads(cfg: Config, st: State, t: Tick)
    ensures var p := Processed(cfg, st, t.data, t.outcome, t.saveOk);
      p.state.log == st.log + p.state.log[|st.log|..]
      && Payloads(p.state.log[|st.log|..]) == [t.data]
  {
    var p := Processed(cfg, st, t.data, t.outcome, t.saveOk);
    var added := p.state.log[|st.log|..];
    assert p.state.log == st.log + added;
    assert added[0].Broadcast? && added[0].data == t.data;
    PayloadsNone(added[1..]);
  }

  /** The health gate broadcasts nothing. */
  lemma HealthGatePayloads(cfg: Config, st: State, t: Tick)
    ensures var h := HealthGate(cfg, st, t.now, t.probe, t.connectOk);
      h.state.log == st.log + h.state.log[|st.log|..]
      && Payloads(h.state.log[|st.log|..]) == []
  {
    var h := HealthGate(cfg, st, t.now, t.probe, t.connectOk);
    var added := h.state.log[|st.log|..];
    assert h.state.log == st.log + added;
    PayloadsNone(added);
  }

  /** The payloads of three consecutive log segments. */
  lemma PayloadsOfSteps(pre: seq<Effect>, x: seq<Effect>, y: seq<Effect>, z: seq<Effect>)
    ensures Payloads((pre + x + y + z)[|pre|..]) == Payloads(x) + Payloads(y) + Payloads(z)
  {
    assert (pre + x + y + z)[|pre|..] == (x + y) + z;
    PayloadsAppend(x + y, z);
    PayloadsAppend(x, y);
  }

  /** What `TicksBroadcastEachItem` states, for one start state. */
  ghost predicate BroadcastsEach(cfg: Config, st: State, ticks: seq<Tick>)
  {
    var r := TicksRun(cfg, st, ticks);
    && Payloads(r.state.log[|st.log|..]) <= ItemData(ticks)
    && (!r.raised ==> Payloads(r.state.log[|st.log|..]) == ItemData(ticks))
    && (ticks != [] ==> Payloads(r.state.log[|st.log|..]) != [])
  }

  /** Every item the source yields is broadcast, in the order yielded, until
      an exception ends the item loop; the item whose processing raised was
      broadcast before the failed write, so at least one item is broadcast
      whenever there is one. */
  lemma {:induction false} TicksBroadcastEachItem(cfg: Config, st: State, ticks: seq<Tick>)
    ensures var r := TicksRun(cfg, st, ticks);
      && Payloads(r.state.log[|st.log|..]) <= ItemData(ticks)
      && (!r.raised ==> Payloads(r.state.log[|st.log|..]) == ItemData(ticks))
      // the first item is always broadcast, whatever raises after it
      && (ticks != [] ==> Payloads(r.state.log[|st.log|..]) != [])
    decreases |ticks|
  {
    if ticks == [] {
      assert TicksRun(cfg, st, ticks).state.log[|st.log|..] == [];
    } else {
      var t := ticks[0];
      var p := Processed(cfg, st, t.data, t.outcome, t.saveOk);
      var h := HealthGate(cfg, p.state, t.now, t.probe, t.connectOk);
      if !p.raised && !h.raised {
        TicksBroadcastEachItem(cfg, h.state, ticks[1..]);
      }
      BroadcastsEachStep(cfg, st, ticks);
    }
  }

  lemma BroadcastsEachStep(cfg: Config, st: State, ticks: seq<Tick>)
    requires ticks != []
    requires var t := ticks[0];
      var p := Processed(cfg, st, t.data, t.outcome, t.saveOk);
      var h := HealthGate(cfg, p.state, t.now, t.probe, t.connectOk);
      !p.raised && !h.raised ==> BroadcastsEach(cfg, h.state, ticks[1..])
    ensures BroadcastsEach(cfg, st, ticks)
  {
    var t := ticks[0];
    var p := Processed(cfg, st, t.data, t.outcome, t.saveOk);
    ProcessedPayloads(cfg, st, t);
    var pAdded := p.state.log[|st.log|..];
    assert ItemData(ticks) == [t.data] + ItemData(ticks[1..]);
    if !p.raised {
      var h := HealthGate(cfg, p.state, t.now, t.probe, t.connectOk);
      HealthGatePayloads(cfg, p.state, t);
      var hAdded := h.state.log[|p.state.log|..];
      var rAdded := if h.raised then [] else TicksRun(cfg, h.state, ticks[1..]).state.log[|h.state.log|..];
      var r := TicksRun(cfg, st, ticks);
      assert r.state.log == st.log + pAdded + hAdded + rAdded;
      PayloadsOfSteps(st.log, pAdded, hAdded, rAdded);
    }
  }

  lemma PrefixTransitive<T>(a: seq<T>, b: seq<T>, c: seq<T>)
    requires a <= b && b <= c
    ensures a <= c
  {
    assert a == c[..|a|];
  }

  /** A log that extends another holds at least its failed reconnects. */
  lemma FailedReconnectsGrow(a: seq<Effect>, b: seq<Effect>)
    requires a <= b
    ensures FailedReconnects(a) <= FailedReconnects(b)
  {
    assert b == a + b[|a|..];
  }

  /** Processing an item never reconnects. */
  lemma ProcessedKeepsReconnects(cfg: Config, st: State, t: Tick)
    ensures var p := Processed(cfg, st, t.data, t.outcome, t.saveOk);
      st.log <= p.state.log && FailedReconnects(p.state.log) == FailedReconnects(st.log)
  {
    var p := Processed(cfg, st, t.data, t.outcome, t.saveOk);
    var added := p.state.log[|st.log|..];
    assert p.state.log == st.log + added;
    assert Reconnect(false) !in added;
  }

  /** For a source without `connect`, the health gate raises exactly when it
      logs a failed reconnect or its probe raises. */
  lemma HealthGateWithoutConnect(cfg: Config, st: State, t: Tick)
    requires !HasConnect(cfg.source)
    ensures var h := HealthGate(cfg, st, t.now, t.probe, t.connectOk);
      st.log <= h.state.log
      && (h.raised <==> (FailedReconnects(h.state.log) > FailedReconnects(st.log)
                         || (t.now - st.lastHealthCheck > cfg.healthCheckInterval && t.probe == ProbeFailed)))
  {
    var h := HealthGate(cfg, st, t.now, t.probe, t.connectOk);
    var added := h.state.log[|st.log|..];
    assert h.state.log == st.log + added;
    if h.raised && t.probe.Answered? {
      assert added == [HealthChecked(t.probe.healthy), Slept(cfg.retryDelay), Reconnect(false)];
    } else {
      assert Reconnect(false) !in added;
    }
  }

  /** For a source without `connect`, items are handled without any failed
      reconnect as long as nothing raises. */
  lemma {:induction false} TicksWithoutConnect(cfg: Config, st: State, ticks: seq<Tick>)
    requires !HasConnect(cfg.source)
    ensures var r := TicksRun(cfg, st, ticks);
      st.log <= r.state.log
      && (!r.raised ==> FailedReconnects(r.state.log) == FailedReconnects(st.log))
    decreases |ticks|
  {
    if ticks != [] {
      var t := ticks[0];
      ProcessedKeepsReconnects(cfg, st, t);
      var p := Processed(cfg, st, t.data, t.outcome, t.saveOk);
      if !p.raised {
        HealthGateWithoutConnect(cfg, p.state, t);
        var h := HealthGate(cfg, p.state, t.now, t.probe, t.connectOk);
        if !h.raised {
          TicksWithoutConnect(cfg, h.state, ticks[1..]);
        }
      }
    }
  }

  /** For a source without `connect`, the `try` block logs no failed
      reconnect unless it raises. */
  lemma BodyWithoutConnect(cfg: Config, st: State, s: Session)
    requires !HasConnect(cfg.source)
    ensures var body := SessionBody(cfg, st, s);
      !body.raised ==> FailedReconnects(body.state.log) == FailedReconnects(st.log)
  {
    var entered := Opened(cfg, st);
    if !entered.raised {
      assert entered.state.log == st.log + entered.state.log[|st.log|..];
      TicksWithoutConnect(cfg, entered.state, s.ticks);
    }
  }

  /** For a source without `connect`, one pass of the loop ends the run
      exactly when it attempted a reconnect. */
  lemma SessionWithoutConnect(cfg: Config, st: State, s: Session)
    requires !HasConnect(cfg.source)
    ensures var r := SessionRun(cfg, st, s);
      st.log <= r.state.log
      && (r.raised <==> FailedReconnects(r.state.log) > FailedReconnects(st.log))
  {
    var body := SessionBody(cfg, st, s);
    BodyWithoutConnect(cfg, st, s);
    FailedReconnectsGrow(st.log, body.state.log);
    if body.raised {
      var r := Retried(cfg, body.state, s.connectOk);
      assert r.state.log == body.state.log + [Slept(cfg.retryDelay), Reconnect(false)];
    }
  }

  /** A REST source, or any source class that is neither REST nor WebSocket,
      has no `connect`: the first retry, whatever caused it, raises out of the
      run loop, and the loop ends exactly when a failed reconnect was logged. */
  lemma {:induction false} RunWithoutConnectEndsAtFirstRetry(cfg: Config, st: State, sessions: seq<Session>)
    requires !HasConnect(cfg.source)
    ensures var r := RunTrace(cfg, st, sessions);
      st.log <= r.state.log
      && (r.raised <==> FailedReconnects(r.state.log) > FailedReconnects(st.log))
    decreases |sessions|
  {
    if st.running && sessions != [] {
      var s := sessions[0];
      SessionWithoutConnect(cfg, st, s);
      var o := SessionRun(cfg, st, s);
      var next := StopIfRequested(o.state, s);
      if !o.raised {
        RunWithoutConnectEndsAtFirstRetry(cfg, next, sessions[1..]);
        FailedReconnectsGrow(st.log, o.state.log);
        assert FailedReconnects(next.log) == FailedReconnects(st.log);
        assert RunTrace(cfg, st, sessions) == RunTrace(cfg, next, sessions[1..]);
        PrefixTransitive(st.log, next.log, RunTrace(cfg, next, sessions[1..]).state.log);
      }
    }
  }

  /** A source class the dispatch does not know fails on the first pass,
      and the retry of its handler raises in turn: the run loop ends at once,
      with `running` still set. */
  lemma UnsupportedSourceEndsFirstPass(cfg: Config, st: State, sessions: seq<Session>)
    requires cfg.source == OtherSource && st.running && sessions != []
    ensures var r := RunTrace(cfg, st, sessions);
      && r.raised
      && r.state.log == st.log + [DispatchFailed, Slept(cfg.retryDelay), Reconnect(false)]
      && r.state.connections == st.connections
      && r.state.running == !sessions[0].stopRequested
  {
    var o := SessionRun(cfg, st, sessions[0]);
    assert o.state.log == st.log + [DispatchFailed] + [Slept(cfg.retryDelay), Reconnect(false)];
  }

  /** The loop ends with the first pass during which `stop()` was called:
      the passes after it never run. */
  lemma {:induction false} RunEndsAtStop(cfg: Config, st: State, sessions: seq<Session>, i: nat)
    requires i < |sessions| && sessions[i].stopRequested
    ensures RunTrace(cfg, st, sessions) == RunTrace(cfg, st, sessions[..i + 1])
    // it ends stopped, unless an exception ended it first
    ensures st.running ==> !RunTrace(cfg, st, sessions).state.running || RunTrace(cfg, st, sessions).raised
    decreases i
  {
    if st.running {
      var o := SessionRun(cfg, st, sessions[0]);
      var next := StopIfRequested(o.state, sessions[0]);
      if !o.raised {
        if i == 0 {
          assert !next.running;
          assert sessions[..1][1..] == [];
        } else {
          RunEndsAtStop(cfg, next, sessions[1..], i - 1);
          assert sessions[..i + 1][1..] == sessions[1..][..i];
        }
      } else {
        assert sessions[..i + 1][0] == sessions[0];
      }
    }
  }

  /** Every file write succeeds, every health probe answers and every
      reconnect done by the health gate succeeds. */
  predicate TicksReliable(ticks: seq<Tick>)
  {
    forall j :: 0 <= j < |ticks| ==> ticks[j].saveOk && ticks[j].probe.Answered? && ticks[j].connectOk
  }

  /** No stop is requested during any pass. */
  predicate NoStop(sessions: seq<Session>)
  {
    forall i :: 0 <= i < |sessions| ==> !sessions[i].stopRequested
  }

  lemma {:induction false} TicksReliableNeverRaise(cfg: Config, st: State, ticks: seq<Tick>)
    requires HasConnect(cfg.source) && TicksReliable(ticks)
    ensures !TicksRun(cfg, st, ticks).raised
    ensures TicksRun(cfg, st, ticks).state.running == st.running
    decreases |ticks|
  {
    if ticks != [] {
      var t := ticks[0];
      var p := Processed(cfg, st, t.data, t.outcome, t.saveOk);
      var h := HealthGate(cfg, p.state, t.now, t.probe, t.connectOk);
      assert TicksReliable(ticks[1..]) by {
        forall j | 0 <= j < |ticks[1..]|
          ensures ticks[1..][j].saveOk && ticks[1..][j].probe.Answered? && ticks[1..][j].connectOk
        {
          assert ticks[1..][j] == ticks[j + 1];
        }
      }
      TicksReliableNeverRaise(cfg, h.state, ticks[1..]);
    }
  }

  /** A WebSocket stream whose handler reconnects succeed never leaves its run
      loop by an exception: source errors, failed writes, unhealthy or raising
      probes and failed health-gate reconnects are all caught and retried
      without any limit, and the loop stops only because `stop()` was called. */
  lemma {:induction false} PushSourceRetriesWithoutLimit(cfg: Config, st: State, sessions: seq<Session>)
    requires cfg.source == WebSocketSource
    requires forall i :: 0 <= i < |sessions| ==> sessions[i].connectOk
    ensures !RunTrace(cfg, st, sessions).raised
    ensures RunTrace(cfg, st, sessions).state.running == (st.running && NoStop(sessions))
    decreases |sessions|
  {
    if st.running && sessions != [] {
      var s := sessions[0];
      var o := SessionRun(cfg, st, s);
      assert !o.raised && o.state.running;
      var next := StopIfRequested(o.state, s);
      assert forall i :: 0 <= i < |sessions[1..]| ==> sessions[1..][i] == sessions[i + 1];
      PushSourceRetriesWithoutLimit(cfg, next, sessions[1..]);
      if s.stopRequested {
        assert !NoStop(sessions);
      } else {
        assert NoStop(sessions) == NoStop(sessions[1..]);
      }
    } else if sessions == [] {
      assert NoStop(sessions);
    }
  }

  // ---------------------------------------------------------------------
  // The stream object

  class Stream {
    const source: SourceKind
    const manager: ConnectionManager
    const storage: Option<StorageKind>
    const interval: Option<int>
    const healthCheckInterval: int
    const retryDelay: int
    var running: bool
    var lastHealthCheck: int
    /** Everything the stream has done to the outside world, in order. */
    var log: seq<Effect>

    function Cfg(): (c: Config)
    {
      Config(source, storage, interval, healthCheckInterval, retryDelay)
    }

    function Snapshot(): (st: State)
      reads this, manager
    {
      State(running, lastHealthCheck, manager.activeConnections, log)
    }

    constructor (source: SourceKind, manager: ConnectionManager, storage: Option<StorageKind>, interval: Option<int>)
      ensures this.source == source && this.manager == manager
      ensures this.storage == storage && this.interval == interval
      ensures healthCheckInterval == DefaultHealthCheckInterval && retryDelay == DefaultRetryDelay
      ensures !running && lastHealthCheck == 0 && log == []
    {
      this.source := source;
      this.manager := manager;
      this.storage := storage;
      this.interval := interval;
      running := false;
      healthCheckInterval := DefaultHealthCheckInterval;
      lastHealthCheck := 0;
      retryDelay := DefaultRetryDelay;
      log := [];
    }

    /** Marks the stream running; the caller then drives `Run`. */
    method Start()
      modifies this
      ensures running
      ensures lastHealthCheck == old(lastHealthCheck) && log == old(log)
    {
      running := true;
    }

    method Stop()
      modifies this
      ensures !running
      ensures lastHealthCheck == old(lastHealthCheck) && log == old(log)
    {
      running := false;
    }

    method Retry(connectOk: bool) returns (raised: bool)
      modifies this
      ensures Outcome(Snapshot(), raised) == Retried(Cfg(), old(Snapshot()), connectOk)
    {
      log := log + [Slept(retryDelay)];
      if HasConnect(source) && connectOk {
        log := log + [Reconnect(true)];
        raised := false;
      } else {
        log := log + [Reconnect(false)];
        raised := true;
      }
    }

    method CheckHealthPeriodically(now: int, probe: Probe, connectOk: bool) returns (raised: bool)
      modifies this
      ensures Outcome(Snapshot(), raised) == HealthGate(Cfg(), old(Snapshot()), now, probe, connectOk)
    {
      raised := false;
      if now - lastHealthCheck > healthCheckInterval {
        if probe == ProbeFailed {
          log := log + [HealthProbeRaised];
          raised := true;
          return;
        }
        var healthy := probe.healthy;
        log := log + [HealthChecked(healthy)];
        if !healthy {
          raised := Retry(connectOk);
          if raised {
            return;
          }
        }
        lastHealthCheck := now;
      }
    }

    method SaveData(data: Json, saveOk: bool) returns (raised: bool)
      modifies this
      ensures Outcome(Snapshot(), raised) == Saved(Cfg(), old(Snapshot()), data, saveOk)
    {
      raised := false;
      match storage {
        case Some(LocalStorage) =>
          log := log + [FileSaved(DataFile, data)];
          raised := !saveOk;
        case Some(CloudStorage) =>
          log := log + [FileSaved(DataFile, data)];
          raised := !saveOk;
        case _ =>
      }
    }

    method ProcessData(data: Json, outcome: Socket -> SendOutcome, saveOk: bool) returns (raised: bool)
      modifies this, manager
      ensures Outcome(Snapshot(), raised) == Processed(Cfg(), old(Snapshot()), data, outcome, saveOk)
    {
      var sentTo := manager.SendData(outcome);
      log := log + [Broadcast(data, sentTo)];
      raised := false;
      if storage.Some? {
        raised := SaveData(data, saveOk);
      }
    }

    /** The inner `async for`: each item is processed, then the health gate
        runs, until the items run out or one of the two raises. */
    method HandleItems(ticks: seq<Tick>) returns (raised: bool)
      modifies this, manager
      ensures Outcome(Snapshot(), raised) == TicksRun(Cfg(), old(Snapshot()), ticks)
    {
      raised := false;
      var j := 0;
      while j < |ticks| && !raised
        invariant 0 <= j <= |ticks|
        invariant TicksRun(Cfg(), old(Snapshot()), ticks)
               == if raised then Outcome(Snapshot(), true) else TicksRun(Cfg(), Snapshot(), ticks[j..])
      {
        var t := ticks[j];
        assert ticks[j..][0] == t && ticks[j..][1..] == ticks[j + 1..];
        raised := ProcessData(t.data, t.outcome, t.saveOk);
        if !raised {
          raised := CheckHealthPeriodically(t.now, t.probe, t.connectOk);
        }
        j := j + 1;
      }
    }

    /** The `try` block of one pass of the run loop: open the source's stream
        and handle its items. */
    method RunBody(s: Session) returns (raised: bool)
      modifies this, manager
      ensures Outcome(Snapshot(), raised) == SessionBody(Cfg(), old(Snapshot()), s)
    {
      raised := false;
      match source {
        case RestSource => log := log + [PollingOpened(interval)];
        case WebSocketSource => log := log + [PushOpened];
        case OtherSource =>
          log := log + [DispatchFailed];
          raised := true;
      }
      if !raised {
        raised := HandleItems(s.ticks);
        if !raised && s.ending == Raised {
          raised := true;
        }
      }
    }

    /** One pass of the run loop's body: the `try` block and the `retry` of
        its handler; `crashed` is an exception out of the handler. */
    method RunSession(s: Session) returns (crashed: bool)
      modifies this, manager
      ensures Outcome(Snapshot(), crashed) == SessionRun(Cfg(), old(Snapshot()), s)
    {
      var raised := RunBody(s);
      crashed := false;
      if raised {
        crashed := Retry(s.connectOk);
      }
    }

    /** `run`, over the passes the environment provides. */
    method Run(sessions: seq<Session>) returns (crashed: bool)
      modifies this, manager
      ensures Outcome(Snapshot(), crashed) == RunTrace(Cfg(), old(Snapshot()), sessions)
    {
      var k := 0;
      crashed := false;
      while running && k < |sessions| && !crashed
        invariant 0 <= k <= |sessions|
        invariant RunTrace(Cfg(), old(Snapshot()), sessions)
               == if crashed then Outcome(Snapshot(), true) else RunTrace(Cfg(), Snapshot(), sessions[k..])
      {
        assert sessions[k..][0] == sessions[k] && sessions[k..][1..] == sessions[k + 1..];
        crashed := RunSession(sessions[k]);
        if sessions[k].stopRequested {
          Stop();
        }
        k := k + 1;
      }
    }
  }
}
