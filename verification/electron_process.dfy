/**
 * The client side: `ElectronProcess` keeps a table of pending runs keyed
 * by correlation id, routes the pool process's messages to them, decides
 * readiness from the first message, and rejects every pending run when it
 * kills or loses the child process.
 *
 * The child process is a flag (alive or cleared) and a count of the times
 * it was killed; what is sent to it is a list. Each run's promise is
 * represented by the settlement it receives, recorded in order.
 */
module ElectronProcesses {
  import opened Wrappers
  import opened JsValues
  import opened PlainErrors
  import opened Protocol
  import opened Sequences

  // ---------------------------------------------------------------------
  // Options.

  /** The options the pool process receives. */
  datatype Options = Options(debugMode: bool, preloadRequire: Option<string>, minConcurrency: int, maxConcurrency: int)

  const ConcurrencyOrderMessage: string := "\"minConcurrency\" must be less than or equal to \"maxConcurrency\""

  /**
   * The constructor's destructuring with defaults (`debugMode` false,
   * `minConcurrency` 0, `maxConcurrency` 1) and its one validation.
   */
  function ResolveOptions(debugMode: Option<bool>, preloadRequire: Option<string>,
                          minConcurrency: Option<int>, maxConcurrency: Option<int>): (r: Result<Options, string>)
    ensures r.Success? ==> r.value.minConcurrency <= r.value.maxConcurrency
    ensures r.Success? ==> r.value.preloadRequire == preloadRequire
    ensures r.Success? ==> (debugMode.Some? ==> r.value.debugMode == debugMode.value) && (debugMode.None? ==> !r.value.debugMode)
    ensures r.Success? ==> (minConcurrency.Some? ==> r.value.minConcurrency == minConcurrency.value)
                           && (minConcurrency.None? ==> r.value.minConcurrency == 0)
    ensures r.Success? ==> (maxConcurrency.Some? ==> r.value.maxConcurrency == maxConcurrency.value)
                           && (maxConcurrency.None? ==> r.value.maxConcurrency == 1)
    ensures r.Failure? ==> r.error == ConcurrencyOrderMessage
    ensures r.Failure? <==> (if minConcurrency.Some? then minConcurrency.value else 0)
                            > (if maxConcurrency.Some? then maxConcurrency.value else 1)
  {
    var min := if minConcurrency.Some? then minConcurrency.value else 0;
    var max := if maxConcurrency.Some? then maxConcurrency.value else 1;
    if min > max then Failure(ConcurrencyOrderMessage)
    else Success(Options(debugMode.Some? && debugMode.value, preloadRequire, min, max))
  }

  /** With no options at all the constructor succeeds, with no windows created up front and one at most. */
  lemma DefaultOptionsAreValid()
    ensures ResolveOptions(None, None, None, None) == Success(Options(false, None, 0, 1))
  {
  }

  // ---------------------------------------------------------------------
  // WrappedError.

  /** A `WrappedError`'s `name`, `message` and `stack` own properties. */
  datatype WrappedError = WrappedError(name: JsValue, message: string, stack: JsValue)

  /**
   * `new WrappedError(error)` for the `error` field of a `run-rejected`:
   * `None` when reading `error.message` throws (the field is absent); a
   * string has no `message`, `name` or `stack`; a record's `message` goes
   * through `Error`'s constructor (absent gives "", anything else its
   * `String`), and `name` and `stack` are copied as they are.
   */
  function WrapError(payload: ErrorPayload): (r: Option<WrappedError>)
    ensures r.None? <==> payload.Absent?
    ensures payload.Plain? ==> r.value.name == payload.error.name && r.value.stack == payload.error.stack
    ensures payload.Plain? && payload.error.message.Str? ==> r.value.message == payload.error.message.s
    ensures payload.Plain? && payload.error.message.Undefined? ==> r.value.message == ""
    ensures payload.Text? ==> r.value == WrappedError(Undefined, "", Undefined)
  {
    match payload
    case Absent => None
    case Text(_) => Some(WrappedError(Undefined, "", Undefined))
    case Plain(p) =>
      var message := if p.message.Undefined? then "" else JsString(p.message);
      Some(WrappedError(p.name, message, p.stack))
  }

  /** `Error.prototype.toString` of a wrapped error. */
  function ErrorToString(e: WrappedError): string
  {
    var name := if e.name.Undefined? then "Error" else JsString(e.name);
    if name == "" then e.message
    else if e.message == "" then name
    else name + ": " + e.message
  }

  /** The wrapped error as the JavaScript object a caller catches. */
  function ErrorObject(e: WrappedError): (v: JsValue)
    ensures v.Obj? && "message" in v.props && "name" in v.props && "stack" in v.props
  {
    Obj(map["name" := e.name, "message" := Str(e.message), "stack" := e.stack], ErrorToString(e))
  }

  /**
   * The error a caller catches carries the rejected run's record: turning
   * it back into a record with `makePlainError` gives the record sent,
   * whenever that record's message is a string.
   */
  lemma {:induction false} WrappedErrorKeepsRecord(p: PlainError)
    requires p.message.Str?
    ensures WrapError(Plain(p)).Some?
    ensures MakePlainError(ErrorObject(WrapError(Plain(p)).value)) == p
  {
    var w := WrapError(Plain(p)).value;
    var v := ErrorObject(w);
    assert IsErrorShaped(v);
    assert Get(v, "message") == Str(w.message) == p.message;
  }

  // ---------------------------------------------------------------------
  // Outcomes.

  const ScriptAbortedMessage: string := "script aborted"
  const ProcessLostMessage: string := "electron process lost"

  /** Why a run's promise was rejected: `new Error("script aborted")` or a `WrappedError`. */
  datatype Rejection = ScriptAborted | Wrapped(error: WrappedError)

  datatype Outcome = Resolved(value: JsValue) | Rejected(reason: Rejection)

  /** The run `id`'s promise settled with `outcome`. */
  datatype Settlement = Settlement(id: Id, outcome: Outcome)

  /** A registered `scriptHandlers` entry: whether the run has a status callback and an abort signal. */
  datatype Handler = Handler(hasStatusCallback: bool, hasSignal: bool)

  /** What one call of a run's handler does. */
  datatype HandlerEffect = HandlerEffect(
    keep: bool,                   // the entry stays in the table
    settlement: Option<Outcome>,  // the promise settles with this
    statusCall: Option<JsValue>,  // the status callback gets this
    threw: bool)                  // the handler threw a `TypeError`

  /**
   * The handler `runScript` registers, called with `event`: an aborted
   * signal turns every event into "script aborted"; a status goes to the
   * callback, if there is one; a result resolves; a rejection rejects with
   * a `WrappedError`, or throws when the error is absent.
   */
  function HandlerStep(handler: Handler, aborted: bool, event: RunResultEvent): (e: HandlerEffect)
    ensures e.keep <==> e.settlement.None?
    ensures e.threw ==> e.keep
    ensures e.statusCall.Some? ==> e.keep
    ensures aborted ==> e.settlement == Some(Rejected(ScriptAborted))
    ensures !aborted && event.RunResolved? ==> e.settlement == Some(Resolved(event.value))
    ensures !aborted && event.RunRejected? && !event.error.Absent? ==>
              e.settlement == Some(Rejected(Wrapped(WrapError(event.error).value)))
    ensures e.threw <==> !aborted && event.RunRejected? && event.error.Absent?
    ensures e.statusCall.Some? <==> !aborted && event.RunStatus? && handler.hasStatusCallback
    ensures e.statusCall.Some? ==> e.statusCall.value == event.status
  {
    if aborted then HandlerEffect(false, Some(Rejected(ScriptAborted)), None, false)
    else match event
      case RunStatus(_, status) => HandlerEffect(true, None, if handler.hasStatusCallback then Some(status) else None, false)
      case RunResolved(_, value) => HandlerEffect(false, Some(Resolved(value)), None, false)
      case RunRejected(_, error) =>
        match WrapError(error)
        case None => HandlerEffect(true, None, None, true)
        case Some(w) => HandlerEffect(false, Some(Rejected(Wrapped(w))), None, false)
  }

  // ---------------------------------------------------------------------
  // Kill.

  /** The default of `kill`'s parameter. */
  function KilledError(): (p: PlainError)
    ensures p.name == Str("Killed") && p.message == Str("closed") && p.stack.Undefined?
  {
    PlainError(Str("Killed"), Str("closed"), Undefined)
  }

  /** The error `kill` hands every pending run: its argument, or the default when that is absent. */
  function KillPayload(argument: ErrorPayload): (r: ErrorPayload)
    ensures !r.Absent?
    ensures argument.Absent? ==> r == Plain(KilledError())
    ensures !argument.Absent? ==> r == argument
  {
    if argument.Absent? then Plain(KilledError()) else argument
  }

  /** How `kill` settles one pending run. */
  function KillSettlement(id: Id, payload: ErrorPayload, aborted: set<Id>): Settlement
    requires !payload.Absent?
  {
    if id in aborted then Settlement(id, Rejected(ScriptAborted))
    else Settlement(id, Rejected(Wrapped(WrapError(payload).value)))
  }

  /** The handler step `kill` takes for each run settles it and never throws. */
  lemma KillSettlesEachRun(handler: Handler, aborted: set<Id>, id: Id, payload: ErrorPayload)
    requires !payload.Absent?
    ensures var e := HandlerStep(handler, id in aborted, RunRejected(id, payload));
            && !e.keep && !e.threw
            && Settlement(id, e.settlement.value) == KillSettlement(id, payload, aborted)
  {
  }

  /** The settlements `kill`'s loop appends when it visits the runs in `order`. */
  function KillSettlements(order: seq<Id>, payload: ErrorPayload, aborted: set<Id>): (r: seq<Settlement>)
    requires !payload.Absent?
    ensures |r| == |order|
    ensures forall i :: 0 <= i < |order| ==> r[i] == KillSettlement(order[i], payload, aborted)
  {
    if order == [] then []
    else KillSettlements(order[..|order| - 1], payload, aborted) + [KillSettlement(order[|order| - 1], payload, aborted)]
  }

  lemma AppendAssociates(a: seq<Settlement>, b: seq<Settlement>, c: Settlement)
    ensures (a + b) + [c] == a + (b + [c])
  {
  }

  /** One more visit appends one settlement. */
  lemma KillSettlementsAppend(order: seq<Id>, id: Id, payload: ErrorPayload, aborted: set<Id>)
    requires !payload.Absent?
    ensures KillSettlements(order + [id], payload, aborted) == KillSettlements(order, payload, aborted) + [KillSettlement(id, payload, aborted)]
    ensures Elements(order + [id]) == Elements(order) + {id}
  {
    assert (order + [id])[..|order|] == order;
  }

  /** Visiting every run of a table once settles each run of it, with nothing else. */
  lemma KillSettlementsCover(order: seq<Id>, keys: set<Id>, payload: ErrorPayload, aborted: set<Id>)
    requires !payload.Absent? && Elements(order) == keys
    ensures var added := KillSettlements(order, payload, aborted);
            && (forall i :: 0 <= i < |added| ==> added[i].id in keys && added[i] == KillSettlement(added[i].id, payload, aborted))
            && (forall id :: id in keys ==> exists i :: 0 <= i < |added| && added[i].id == id)
  {
    var added := KillSettlements(order, payload, aborted);
    forall id | id in keys ensures exists i :: 0 <= i < |added| && added[i].id == id {
      var k :| 0 <= k < |order| && order[k] == id;
      assert added[k].id == id;
    }
    forall i | 0 <= i < |added| ensures added[i].id in keys {
      assert order[i] in order;
    }
  }

  /**
   * `after` extends `before` with exactly the settlements `kill` gives the
   * runs in `keys`: each new entry is one of those runs, settled as
   * `KillSettlement` says, and each of those runs has a new entry.
   */
  ghost predicate SettlesEach(before: seq<Settlement>, after: seq<Settlement>, keys: set<Id>, payload: ErrorPayload, aborted: set<Id>)
    requires !payload.Absent?
  {
    && |after| >= |before| && after[..|before|] == before
    && (forall i :: |before| <= i < |after| ==>
          after[i].id in keys && after[i] == KillSettlement(after[i].id, payload, aborted))
    && (forall id :: id in keys ==> exists i :: |before| <= i < |after| && after[i].id == id)
  }

  /** Visiting every run of a table once, after any earlier settlements, settles each run of it once. */
  lemma KillSettlesEach(before: seq<Settlement>, order: seq<Id>, keys: set<Id>, payload: ErrorPayload, aborted: set<Id>)
    requires !payload.Absent? && Elements(order) == keys
    ensures SettlesEach(before, before + KillSettlements(order, payload, aborted), keys, payload, aborted)
  {
    var added := KillSettlements(order, payload, aborted);
    var after := before + added;
    KillSettlementsCover(order, keys, payload, aborted);
    assert after[..|before|] == before;
    forall i | |before| <= i < |after|
      ensures after[i].id in keys && after[i] == KillSettlement(after[i].id, payload, aborted)
    {
      assert after[i] == added[i - |before|];
    }
    forall id | id in keys ensures exists i :: |before| <= i < |after| && after[i].id == id {
      var j :| 0 <= j < |added| && added[j].id == id;
      assert after[|before| + j] == added[j];
    }
  }

  /** The error a "close" event kills with. */
  function ClosedError(code: JsValue): (p: PlainError)
    ensures p.name == Str("ProcessClosed") && p.stack.Undefined?
    ensures p.message == Str("exited (" + JsString(code) + ")")
  {
    PlainError(Str("ProcessClosed"), Str("exited (" + JsString(code) + ")"), Undefined)
  }

  // ---------------------------------------------------------------------
  // Readiness.

  /** Why `readyPromise` rejected: an `Error` with this message, or the spawn error itself. */
  datatype HandshakeError = ErrorWithMessage(message: string) | SpawnError(error: JsValue)

  /** The state of `readyPromise`. */
  datatype Handshake = Waiting | Ready | Failed(reason: HandshakeError)

  /** `String(message.error)` inside the "fatal error" template. */
  function PayloadString(payload: ErrorPayload): string
  {
    match payload
    case Text(s) => s
    case Plain(_) => "[object Object]"
    case Absent => "undefined"
  }

  /** The once-listener's verdict on the first message it sees. */
  function FirstMessageVerdict(message: OutputMessage): (h: Handshake)
    ensures h.Ready? <==> message.ElectronReady?
    ensures !h.Waiting?
    ensures message.RunResult? ==> h == Failed(ErrorWithMessage("unexpected " + message.event.TypeTag() + " message"))
    ensures message.Fatal? ==> h == Failed(ErrorWithMessage("fatal error " + PayloadString(message.error)))
  {
    match message
    case ElectronReady => Ready
    case RunResult(event) => Failed(ErrorWithMessage("unexpected " + event.TypeTag() + " message"))
    case Fatal(error) => Failed(ErrorWithMessage("fatal error " + PayloadString(error)))
  }

  /** The whole mutable state of the client, for stating what a step changes. */
  datatype ClientState = ClientState(
    process: bool,
    processKills: nat,
    ready: bool,
    handshake: Handshake,
    handshakeListening: bool,
    handlers: map<Id, Handler>,
    awaitingReady: map<Id, RunScriptEvent>,
    signalled: set<Id>,
    aborted: set<Id>,
    abortListening: set<Id>,
    outbox: seq<InputMessage>,
    settlements: seq<Settlement>,
    statusCalls: seq<(Id, JsValue)>,
    nextId: Id)

  /**
   * The client's invariant: ids come from the counter; each run settles at
   * most once, and a settled run has left the table; the child is killed
   * at most once, and only after it was cleared.
   */
  ghost predicate ClientInv(s: ClientState)
  {
    && (forall id :: id in s.handlers ==> id < s.nextId)
    && (forall id :: id in s.awaitingReady ==> id < s.nextId && s.awaitingReady[id].id == id)
    && (forall id :: id in s.awaitingReady && s.awaitingReady[id].hasAbortSignal ==> id in s.signalled)
    && (forall id :: id in s.signalled ==> id < s.nextId)
    && s.aborted <= s.signalled && s.abortListening <= s.signalled
    && (forall i :: 0 <= i < |s.settlements| ==> s.settlements[i].id < s.nextId && s.settlements[i].id !in s.handlers)
    && (forall i, j :: 0 <= i < j < |s.settlements| ==> s.settlements[i].id != s.settlements[j].id)
    && s.processKills <= 1 && (s.process ==> s.processKills == 0)
    && (s.handshake.Ready? ==> s.ready)
    && (s.handshakeListening ==> !s.ready)
  }

  /**
   * The readiness once-listener on `message`: it leaves, marks the child
   * ready on `electron-ready`, and settles a still-waiting handshake with
   * its verdict; once it has left, nothing happens.
   */
  ghost function HeardFirst(s: ClientState, message: OutputMessage): ClientState
  {
    if !s.handshakeListening then s
    else s.(handshakeListening := false, ready := s.ready || message.ElectronReady?,
            handshake := if s.handshake.Waiting? then FirstMessageVerdict(message) else s.handshake)
  }

  /** The once-listener keeps the invariant: the handshake is ready only with the child ready. */
  lemma HeardFirstKeepsInv(s: ClientState, message: OutputMessage)
    requires ClientInv(s)
    ensures ClientInv(HeardFirst(s, message))
    ensures s.handshakeListening ==> HeardFirst(s, message).ready == message.ElectronReady?
  {
  }

  /** The run `id` has settled. */
  ghost predicate Settled(s: ClientState, id: Id)
  {
    exists i :: 0 <= i < |s.settlements| && s.settlements[i].id == id
  }

  /** The client after `runScript` registered `handler` and the pending `event` under the next id. */
  ghost function Registered(s: ClientState, event: RunScriptEvent, handler: Handler): ClientState
  {
    s.(handlers := s.handlers[event.id := handler], awaitingReady := s.awaitingReady[event.id := event],
       signalled := if handler.hasSignal then s.signalled + {event.id} else s.signalled,
       nextId := s.nextId + 1)
  }

  /** Registering a run under the next id keeps the invariant; the id is new and has not settled. */
  lemma RegisterKeepsInv(s: ClientState, event: RunScriptEvent, handler: Handler)
    requires ClientInv(s) && event.id == s.nextId && event.hasAbortSignal == handler.hasSignal
    ensures ClientInv(Registered(s, event, handler))
    ensures event.id !in s.handlers && !Settled(s, event.id)
  {
  }

  /** The client after the handler of `event.id` ran on `event`. */
  ghost function Handled(s: ClientState, event: RunResultEvent): ClientState
    requires event.id in s.handlers
  {
    var e := HandlerStep(s.handlers[event.id], event.id in s.aborted, event);
    s.(handlers := if e.keep then s.handlers else s.handlers - {event.id},
       settlements := if e.settlement.Some? then s.settlements + [Settlement(event.id, e.settlement.value)] else s.settlements,
       statusCalls := if e.statusCall.Some? then s.statusCalls + [(event.id, e.statusCall.value)] else s.statusCalls)
  }

  /** The "message" listener's routing of a run event: the handler registered for its id, if any, is called. */
  ghost function Routed(s: ClientState, event: RunResultEvent): ClientState
  {
    if event.id in s.handlers then Handled(s, event) else s
  }

  /** The client after a sequence of `run-status` events for `id` was routed, in order. */
  ghost function RoutedStatuses(s: ClientState, id: Id, statuses: seq<JsValue>): ClientState
    decreases |statuses|
  {
    if |statuses| == 0 then s else RoutedStatuses(Routed(s, RunStatus(id, statuses[0])), id, statuses[1..])
  }

  /** The status-callback calls a run with `hasCallback` makes for `statuses`, in order. */
  function StatusCalls(id: Id, statuses: seq<JsValue>, hasCallback: bool): (r: seq<(Id, JsValue)>)
    ensures |r| == (if hasCallback then |statuses| else 0)
    ensures hasCallback ==> forall i :: 0 <= i < |statuses| ==> r[i] == (id, statuses[i])
    decreases |statuses|
  {
    if !hasCallback || |statuses| == 0 then [] else [(id, statuses[0])] + StatusCalls(id, statuses[1..], true)
  }

  /**
   * A pending run that is not aborted stays pending through any number of
   * status events: nothing settles and the table is unchanged; each status
   * reaches the callback, in order, exactly when there is one.
   */
  lemma {:induction false} StatusEventsKeepRun(s: ClientState, id: Id, statuses: seq<JsValue>)
    requires id in s.handlers && id !in s.aborted
    ensures RoutedStatuses(s, id, statuses)
            == s.(statusCalls := s.statusCalls + StatusCalls(id, statuses, s.handlers[id].hasStatusCallback))
    decreases |statuses|
  {
    var cb := s.handlers[id].hasStatusCallback;
    if |statuses| == 0 {
      assert s.statusCalls + StatusCalls(id, statuses, cb) == s.statusCalls;
    } else {
      var first := if cb then [(id, statuses[0])] else [];
      var rest := StatusCalls(id, statuses[1..], cb);
      var s1 := Routed(s, RunStatus(id, statuses[0]));
      RoutedStatus(s, id, statuses[0]);
      assert s1.statusCalls == s.statusCalls + first && s1.handlers == s.handlers && s1.aborted == s.aborted;
      StatusEventsKeepRun(s1, id, statuses[1..]);
      calc {
        RoutedStatuses(s, id, statuses);
        RoutedStatuses(s1, id, statuses[1..]);
        s1.(statusCalls := (s.statusCalls + first) + rest);
        { StatusCallsUnfold(s.statusCalls, id, statuses, cb); }
        s.(statusCalls := s.statusCalls + StatusCalls(id, statuses, cb));
      }
    }
  }

  /** The calls for `statuses` are the call for the first one, if any, then those for the rest. */
  lemma StatusCallsUnfold(before: seq<(Id, JsValue)>, id: Id, statuses: seq<JsValue>, hasCallback: bool)
    requires |statuses| > 0
    ensures (before + (if hasCallback then [(id, statuses[0])] else [])) + StatusCalls(id, statuses[1..], hasCallback)
            == before + StatusCalls(id, statuses, hasCallback)
  {
    var first := if hasCallback then [(id, statuses[0])] else [];
    assert StatusCalls(id, statuses, hasCallback) == first + StatusCalls(id, statuses[1..], hasCallback);
  }

  /** One status event of a pending run that is not aborted only reaches the callback, if there is one. */
  lemma RoutedStatus(s: ClientState, id: Id, status: JsValue)
    requires id in s.handlers && id !in s.aborted
    ensures Routed(s, RunStatus(id, status))
            == s.(statusCalls := s.statusCalls + if s.handlers[id].hasStatusCallback then [(id, status)] else [])
  {
    var e := HandlerStep(s.handlers[id], false, RunStatus(id, status));
    assert e.keep && e.settlement.None?;
  }

  /** A handler call keeps the invariant: a run settles at most once, as it leaves the table when it settles. */
  lemma HandledKeepsInv(s: ClientState, event: RunResultEvent)
    requires ClientInv(s) && event.id in s.handlers
    ensures ClientInv(Handled(s, event))
  {
  }

  /** The handler step `kill` takes for one run. */
  lemma KillHandled(s: ClientState, id: Id, payload: ErrorPayload)
    requires id in s.handlers && !payload.Absent?
    ensures Handled(s, RunRejected(id, payload))
            == s.(handlers := s.handlers - {id}, settlements := s.settlements + [KillSettlement(id, payload, s.aborted)])
  {
  }

  /**
   * Settling every pending run once and emptying the table keeps the
   * client's invariant: each run still settles at most once.
   */
  lemma {:induction false} KillKeepsInv(s: ClientState, order: seq<Id>, payload: ErrorPayload)
    requires ClientInv(s) && !payload.Absent? && Elements(order) == s.handlers.Keys && Distinct(order)
    ensures ClientInv(s.(handlers := map[], settlements := s.settlements + KillSettlements(order, payload, s.aborted)))
  {
    var added := KillSettlements(order, payload, s.aborted);
    var after := s.settlements + added;
    forall i | 0 <= i < |after| ensures after[i].id < s.nextId {
      if i >= |s.settlements| {
        assert after[i] == added[i - |s.settlements|];
        assert order[i - |s.settlements|] in Elements(order);
      }
    }
    forall i, j | 0 <= i < j < |after| ensures after[i].id != after[j].id {
      if j >= |s.settlements| {
        assert after[j] == added[j - |s.settlements|];
        assert order[j - |s.settlements|] in order;
        if i >= |s.settlements| {
          assert after[i] == added[i - |s.settlements|];
        }
      }
    }
  }

  /**
   * `kill`'s loop over the table: each run's handler settles it (as
   * `KillSettlesEachRun` shows) and removes it, so every run is visited
   * once, in the table's iteration order.
   */
  method SettleAll(table: map<Id, Handler>, settlements: seq<Settlement>, payload: ErrorPayload, aborted: set<Id>)
    returns (settled: seq<Settlement>, ghost order: seq<Id>)
    requires !payload.Absent?
    ensures Elements(order) == table.Keys && Distinct(order)
    ensures settled == settlements + KillSettlements(order, payload, aborted)
    ensures SettlesEach(settlements, settled, table.Keys, payload, aborted)
  {
    var pending := table;
    settled := settlements;
    order := [];
    while pending != map[]
      invariant pending.Keys <= table.Keys && Elements(order) == table.Keys - pending.Keys && Distinct(order)
      invariant settled == settlements + KillSettlements(order, payload, aborted)
      decreases |pending|
    {
      var id :| id in pending;
      var effect := HandlerStep(pending[id], id in aborted, RunRejected(id, payload));
      KillSettlesEachRun(pending[id], aborted, id, payload);
      SettleStep(order, id, pending.Keys, table.Keys, settlements, payload, aborted);
      settled := settled + [Settlement(id, effect.settlement.value)];
      order := order + [id];
      pending := pending - {id};
    }
    KillSettlesEach(settlements, order, table.Keys, payload, aborted);
  }

  /** One iteration of `kill`'s loop keeps the loop's account of what it has visited and settled. */
  lemma SettleStep(order: seq<Id>, id: Id, pending: set<Id>, keys: set<Id>, settlements: seq<Settlement>,
                   payload: ErrorPayload, aborted: set<Id>)
    requires !payload.Absent? && pending <= keys && id in pending
    requires Elements(order) == keys - pending && Distinct(order)
    ensures Elements(order + [id]) == keys - (pending - {id}) && Distinct(order + [id])
    ensures settlements + KillSettlements(order + [id], payload, aborted)
            == (settlements + KillSettlements(order, payload, aborted)) + [KillSettlement(id, payload, aborted)]
  {
    KillSettlementsAppend(order, id, payload, aborted);
    AppendAssociates(settlements, KillSettlements(order, payload, aborted), KillSettlement(id, payload, aborted));
    assert id !in Elements(order);
  }

  class ElectronProcess {
    const options: Options
    /** Whether `process` still refers to the child. */
    var process: bool
    /** How many times the child was killed. */
    var processKills: nat
    var ready: bool
    var handshake: Handshake
    /** The once-listener on "message" has not fired yet. */
    var handshakeListening: bool
    /** `scriptHandlers`. */
    var handlers: map<Id, Handler>
    /** Runs whose handler is registered and that wait for `readyPromise` before sending. */
    var awaitingReady: map<Id, RunScriptEvent>
    /** Runs given an abort signal. */
    var signalled: set<Id>
    /** Runs whose signal has been aborted. */
    var aborted: set<Id>
    /** Runs whose "abort" listener is registered. */
    var abortListening: set<Id>
    /** The messages sent to the child, in order. */
    var outbox: seq<InputMessage>
    var settlements: seq<Settlement>
    /** The status callbacks' calls, in order. */
    var statusCalls: seq<(Id, JsValue)>
    /** The id the next run gets. */
    var nextId: Id

    ghost function State(): ClientState
      reads this
    {
      ClientState(process, processKills, ready, handshake, handshakeListening, handlers, awaitingReady,
                  signalled, aborted, abortListening, outbox, settlements, statusCalls, nextId)
    }

    ghost predicate Valid()
      reads this
    {
      ClientInv(State()) && options.minConcurrency <= options.maxConcurrency
    }

    /** The constructor after validation: spawns the child and starts waiting for readiness. */
    constructor(options: Options)
      requires options.minConcurrency <= options.maxConcurrency
      ensures Valid() && this.options == options
      ensures State() == ClientState(true, 0, false, Waiting, true, map[], map[], {}, {}, {}, [], [], [], 0)
    {
      this.options := options;
      process, processKills, ready, handshake, handshakeListening := true, 0, false, Waiting, true;
      handlers, awaitingReady, signalled, aborted, abortListening := map[], map[], {}, {}, {};
      outbox, settlements, statusCalls, nextId := [], [], [], 0;
    }

    /** `send`: throws "electron process lost" (here `ok` false) once the child is cleared. */
    method Send(message: InputMessage) returns (ok: bool)
      modifies this
      ensures ok == old(process)
      ensures State() == old(State()).(outbox := if ok then old(outbox) + [message] else old(outbox))
    {
      if !process {
        return false;
      }
      outbox := outbox + [message];
      return true;
    }

    /**
     * `runScript`: with the child cleared, rejects with "electron process
     * lost"; otherwise registers the run's handler under a fresh id, with
     * `functionName` "default" and `args` [] when not given, and waits for
     * readiness.
     */
    method RunScript(pathname: string, functionName: Option<string>, args: Option<seq<JsValue>>,
                     hasStatusCallback: bool, hasSignal: bool) returns (r: Result<Id, string>)
      requires Valid()
      modifies this
      ensures Valid()
      ensures !old(process) <==> r.Failure?
      ensures r.Failure? ==> r.error == ProcessLostMessage && State() == old(State())
      ensures r.Success? ==>
                && r.value == old(nextId)
                && r.value !in old(handlers) && !Settled(old(State()), r.value)
                && State() == Registered(old(State()),
                     RunScriptEvent(r.value, pathname, if functionName.Some? then functionName.value else "default",
                                    if args.Some? then args.value else [], hasStatusCallback, hasSignal),
                     Handler(hasStatusCallback, hasSignal))
    {
      if !process {
        return Failure(ProcessLostMessage);
      }
      ghost var s0 := State();
      var id := nextId;
      var handler := Handler(hasStatusCallback, hasSignal);
      var event := RunScriptEvent(id, pathname, if functionName.Some? then functionName.value else "default",
                                  if args.Some? then args.value else [], hasStatusCallback, hasSignal);
      nextId := nextId + 1;
      handlers := handlers[id := handler];
      awaitingReady := awaitingReady[id := event];
      if hasSignal {
        signalled := signalled + {id};
      }
      assert State() == Registered(s0, event, handler);
      assert Valid() by { RegisterKeepsInv(s0, event, handler); }
      r := Success(id);
    }

    /**
     * A run's wait for `readyPromise` ends: when it resolved, the run's
     * `run-script` goes to the child and, for a run with a signal, the
     * "abort" listener is added; when it rejected, or the send throws, the
     * run does nothing more.
     */
    method Dispatch(id: Id)
      requires Valid() && id in awaitingReady && !handshake.Waiting?
      modifies this
      ensures Valid()
      ensures var sends := old(handshake).Ready? && old(process);
              State() == old(State()).(
                awaitingReady := old(awaitingReady) - {id},
                outbox := if sends then old(outbox) + [InputMessage.RunScript(old(awaitingReady)[id])] else old(outbox),
                abortListening := if sends && old(awaitingReady)[id].hasAbortSignal
                                  then old(abortListening) + {id} else old(abortListening))
    {
      var event := awaitingReady[id];
      awaitingReady := awaitingReady - {id};
      if handshake.Ready? {
        var ok := Send(InputMessage.RunScript(event));
        if ok && event.hasAbortSignal {
          assert id in signalled;
          abortListening := abortListening + {id};
        }
      }
    }

    /**
     * The run's signal aborts: an "abort" listener, if added, sends
     * `abort-script`; when the child is cleared, `send` throws "electron
     * process lost" out of the listener (`threw`).
     */
    method Abort(id: Id) returns (threw: bool)
      requires Valid() && id in signalled && id !in aborted
      modifies this
      ensures Valid()
      ensures threw <==> id in old(abortListening) && !old(process)
      ensures State() == old(State()).(
                aborted := old(aborted) + {id},
                outbox := if id in old(abortListening) && old(process) then old(outbox) + [AbortScript(id)] else old(outbox))
    {
      aborted := aborted + {id};
      threw := false;
      if id in abortListening {
        var ok := Send(AbortScript(id));
        threw := !ok;
      }
    }

    /** Calls the handler registered for `event.id`. */
    method HandleEvent(event: RunResultEvent) returns (threw: bool)
      requires event.id in handlers
      modifies this
      ensures threw == HandlerStep(old(handlers)[event.id], event.id in old(aborted), event).threw
      ensures State() == Handled(old(State()), event)
    {
      var id := event.id;
      if id in aborted {
        handlers := handlers - {id};
        settlements := settlements + [Settlement(id, Rejected(ScriptAborted))];
        return false;
      }
      threw := false;
      match event {
        case RunStatus(_, status) =>
          if handlers[id].hasStatusCallback {
            statusCalls := statusCalls + [(id, status)];
          }
        case RunResolved(_, value) =>
          settlements := settlements + [Settlement(id, Resolved(value))];
          handlers := handlers - {id};
        case RunRejected(_, error) =>
          var wrapped := WrapError(error);
          if wrapped.None? {
            return true;
          }
          settlements := settlements + [Settlement(id, Rejected(Wrapped(wrapped.value)))];
          handlers := handlers - {id};
      }
    }

    /**
     * `kill`'s loop: every pending run's handler gets a `run-rejected`
     * carrying `payload`, which settles the run and removes it (as
     * `KillSettlesEachRun` shows of the handler), so the table ends empty
     * with exactly one new settlement per pending run.
     */
    method RejectPending(payload: ErrorPayload)
      requires Valid() && !payload.Absent?
      modifies this
      ensures Valid()
      ensures handlers == map[]
      ensures exists order: seq<Id> :: Elements(order) == old(handlers).Keys
                && settlements == old(settlements) + KillSettlements(order, payload, aborted)
      ensures SettlesEach(old(settlements), settlements, old(handlers).Keys, payload, aborted)
      ensures State() == old(State()).(handlers := map[], settlements := settlements)
    {
      ghost var s0 := State();
      var settled, order := SettleAll(handlers, settlements, payload, aborted);
      KillKeepsInv(s0, order, payload);
      handlers, settlements := map[], settled;
    }

    /**
     * `kill(argument)`: every pending run is rejected with the argument
     * (the default when absent), or with "script aborted" if its signal
     * aborted; then the child, if still there, is killed and cleared.
     */
    method Kill(argument: ErrorPayload)
      requires Valid()
      modifies this
      ensures Valid()
      ensures handlers == map[] && !process
      ensures processKills == old(processKills) + (if old(process) then 1 else 0)
      ensures SettlesEach(old(settlements), settlements, old(handlers).Keys, KillPayload(argument), aborted)
      ensures State() == old(State()).(handlers := map[], settlements := settlements, process := false,
                                       processKills := processKills)
    {
      RejectPending(KillPayload(argument));
      if process {
        processKills := processKills + 1;
        process := false;
      }
    }

    /**
     * A message from the child: run events go to their run's handler (none
     * registered: ignored), `fatal` kills with its error; then, unless the
     * handler threw, the readiness listener takes its first message.
     */
    method OnMessage(message: OutputMessage) returns (threw: bool)
      requires Valid()
      modifies this
      ensures Valid()
      ensures threw <==> message.RunResult? && message.event.id in old(handlers)
                         && HandlerStep(old(handlers)[message.event.id], message.event.id in old(aborted), message.event).threw
      ensures message.ElectronReady? ==> State() == HeardFirst(old(State()), message)
      ensures message.RunResult? ==>
                var routed := Routed(old(State()), message.event);
                State() == if threw then routed else HeardFirst(routed, message)
      ensures message.Fatal? ==> handlers == map[] && !process
      ensures message.Fatal? ==> SettlesEach(old(settlements), settlements, old(handlers).Keys, KillPayload(message.error), aborted)
      ensures message.Fatal? ==>
                State() == HeardFirst(old(State()).(handlers := map[], settlements := settlements, process := false,
                                                    processKills := old(processKills) + (if old(process) then 1 else 0)),
                                      message)
      ensures message.Fatal? && old(handshakeListening) ==>
                !handshakeListening && !ready
                && handshake == (if old(handshake).Waiting? then FirstMessageVerdict(message) else old(handshake))
    {
      threw := false;
      match message {
        case RunResult(event) =>
          if event.id in handlers {
            HandledKeepsInv(State(), event);
            threw := HandleEvent(event);
          }
        case Fatal(error) =>
          Kill(error);
        case ElectronReady =>
      }
      ghost var s1 := State();
      if !threw {
        HearFirst(message);
      }
      assert Valid() by { HeardFirstKeepsInv(s1, message); }
    }

    /** The readiness once-listener, on each message until it has heard one. */
    method HearFirst(message: OutputMessage)
      modifies this
      ensures State() == HeardFirst(old(State()), message)
    {
      if handshakeListening {
        handshakeListening := false;
        if message.ElectronReady? {
          ready := true;
        }
        if handshake.Waiting? {
          handshake := FirstMessageVerdict(message);
        }
      }
    }

    /** The child's "close" event. */
    method OnClose(code: JsValue)
      requires Valid()
      modifies this
      ensures Valid() && handlers == map[] && !process
      ensures SettlesEach(old(settlements), settlements, old(handlers).Keys, Plain(ClosedError(code)), aborted)
      ensures State() == old(State()).(handlers := map[], settlements := settlements, process := false,
                                       processKills := processKills)
    {
      Kill(Plain(ClosedError(code)));
    }

    /** The child's "error" event: kill with the error as a plain record, then reject readiness if still waiting. */
    method OnError(error: JsValue)
      requires Valid()
      modifies this
      ensures Valid() && handlers == map[] && !process
      ensures SettlesEach(old(settlements), settlements, old(handlers).Keys, Plain(MakePlainError(error)), aborted)
      ensures State() == old(State()).(handlers := map[], settlements := settlements, process := false,
                                       processKills := processKills,
                                       handshake := if old(handshake).Waiting? then Failed(SpawnError(error)) else old(handshake))
    {
      Kill(Plain(MakePlainError(error)));
      if handshake.Waiting? {
        handshake := Failed(SpawnError(error));
      }
    }
  }

  /**
   * `new ElectronProcess(options)`: throws when `minConcurrency` exceeds
   * `maxConcurrency`, otherwise spawns the child with the resolved options.
   */
  method NewElectronProcess(debugMode: Option<bool>, preloadRequire: Option<string>,
                            minConcurrency: Option<int>, maxConcurrency: Option<int>)
    returns (r: Result<ElectronProcess, string>)
    ensures r.Failure? <==> ResolveOptions(debugMode, preloadRequire, minConcurrency, maxConcurrency).Failure?
    ensures r.Failure? ==> r.error == ConcurrencyOrderMessage
    ensures r.Success? ==> fresh(r.value)
    ensures r.Success? ==>
              && r.value.Valid() && r.value.process && r.value.handlers == map[]
              && r.value.handshake == Waiting && r.value.handshakeListening && !r.value.ready
              && r.value.State() == ClientState(true, 0, false, Waiting, true, map[], map[], {}, {}, {}, [], [], [], 0)
              && r.value.options == ResolveOptions(debugMode, preloadRequire, minConcurrency, maxConcurrency).value
  {
    var options := ResolveOptions(debugMode, preloadRequire, minConcurrency, maxConcurrency);
    if options.Failure? {
      return Failure(options.error);
    }
    var p := new ElectronProcess(options.value);
    return Success(p);
  }
}
