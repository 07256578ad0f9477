/**
 * The window pool of the pool process: renderer windows are either idle
 * or active for one run id; a run acquires a window (taking an idle one,
 * waiting while the pool is full, or creating one), forwards the window's
 * events to the client, and gives the window back on a terminal event or
 * gives it up when its render process crashes.
 *
 * Windows are opaque handles. The renderer's messages, a crash, a "closed"
 * event and the end of an eager creation are one step each. One attempt of
 * `runScript` is one step too: the lock check, `getAsync`, the creation of
 * a window (its outcome is a parameter), the continuation after it and
 * `runScriptOnWindow` or the rejection. A retry after `delay()` is another
 * call of `AttemptRunScript` for the same acquisition, and `handle` only
 * records the request.
 */
module WindowPools {
  import opened JsValues
  import opened PlainErrors
  import opened Protocol
  import opened Wrappers
  import opened Sequences

  /** A `BrowserWindow`, by identity. */
  type Window = nat

  /** How an asynchronous `create()` ends. */
  datatype CreateOutcome =
    | FinishedLoad                                           // did-finish-load
    | FailedLoad(errorCode: int, errorDescription: string)  // did-fail-load
    | ClosedBeforeLoad                                      // "closed" before the page loaded

  /** Why `create()` rejected: an `Error` from did-fail-load, or the bare string "window closed". */
  datatype CreateError =
    | LoadError(message: string)
    | WindowClosedString

  /** One attempt at getting a window: a window, a wait-and-retry, or a rejection. */
  datatype Attempt =
    | Got(window: Window)
    | Wait
    | Threw(error: CreateError)

  /** A `getIdleWindow` call in progress for a `run-script` request; `holdsLock` once it set `locked`. */
  datatype Acquisition = Acquisition(event: RunScriptEvent, holdsLock: bool)

  /** A `webContents.send("message", ...)` to a window's renderer. */
  datatype Delivery = Delivery(window: Window, message: InputMessage)

  /** The whole mutable state of a pool, for stating what a step changes. */
  datatype PoolState = PoolState(
    idlePool: seq<Window>,
    activePool: map<Id, Window>,
    locked: bool,
    pendingCreations: nat,
    nextWindow: Window,
    acquiring: seq<Acquisition>,
    listeners: map<Id, Window>,
    crashed: set<Window>,
    closing: set<Window>,
    destroyed: set<Window>,
    sent: seq<OutputMessage>,
    toRenderer: seq<Delivery>)

  /** No window is active under two ids. */
  ghost predicate Injective(m: map<Id, Window>)
  {
    forall a, b :: a in m && b in m && a != b ==> m[a] != m[b]
  }

  /** `Set.prototype.delete`: the set without `w`, order otherwise kept. */
  function SetDelete(s: seq<Window>, w: Window): (r: seq<Window>)
    ensures forall x :: x in r <==> x in s && x != w
    ensures Distinct(s) ==> Distinct(r)
    ensures Distinct(s) && w in s ==> |r| == |s| - 1
    ensures w !in s ==> r == s
    ensures Distinct(s) && |s| > 0 && s[0] == w ==> r == s[1..]
  {
    if s == [] then []
    else
      DistinctTail(s);
      if s[0] == w then SetDelete(s[1..], w)
      else
        var rest := SetDelete(s[1..], w);
        DistinctCons(s[0], rest);
        [s[0]] + rest
  }

  lemma DistinctTail(s: seq<Window>)
    requires |s| > 0
    ensures Distinct(s) ==> Distinct(s[1..]) && s[0] !in s[1..]
  {
    if Distinct(s) {
      forall i, j | 0 <= i < j < |s[1..]| ensures s[1..][i] != s[1..][j] {
        assert s[1..][i] == s[i + 1] && s[1..][j] == s[j + 1];
      }
    }
  }

  lemma DistinctCons(a: Window, r: seq<Window>)
    ensures a !in r && Distinct(r) ==> Distinct([a] + r)
  {
    if a !in r && Distinct(r) {
      forall i, j | 0 <= i < j < |[a] + r| ensures ([a] + r)[i] != ([a] + r)[j] {
        if i == 0 { assert ([a] + r)[j] == r[j - 1]; }
        else { assert ([a] + r)[i] == r[i - 1] && ([a] + r)[j] == r[j - 1]; }
      }
    }
  }

  /** `Set.prototype.add`: appended unless already present. */
  function SetAdd(s: seq<Window>, w: Window): (r: seq<Window>)
    ensures forall x :: x in r <==> x in s || x == w
    ensures Distinct(s) ==> Distinct(r)
    ensures w !in s ==> r == s + [w]
  {
    if w in s then s else s + [w]
  }

  /** The list of acquisitions without the `k`-th. */
  function RemoveAt(s: seq<Acquisition>, k: nat): (r: seq<Acquisition>)
    requires k < |s|
    ensures |r| == |s| - 1
    ensures forall i :: 0 <= i < k ==> r[i] == s[i]
    ensures forall i :: k <= i < |r| ==> r[i] == s[i + 1]
  {
    s[..k] + s[k + 1..]
  }

  lemma {:induction false} DistinctCardinality(s: seq<Window>)
    requires Distinct(s)
    ensures |Elements(s)| == |s|
  {
    if s != [] {
      DistinctTail(s);
      DistinctCardinality(s[1..]);
      assert Elements(s) == Elements(s[1..]) + {s[0]};
    }
  }

  lemma {:induction false} InjectiveCardinality(m: map<Id, Window>)
    requires Injective(m)
    ensures |m.Values| == |m|
    decreases |m|
  {
    if |m| > 0 {
      var k :| k in m;
      var rest := m - {k};
      assert rest.Keys == m.Keys - {k};
      InjectiveCardinality(rest);
      assert m.Values == rest.Values + {m[k]} by {
        forall v | v in m.Values ensures v in rest.Values + {m[k]} {
          var a :| a in m && m[a] == v;
          if a != k { assert rest[a] == v; }
        }
      }
      assert m[k] !in rest.Values;
    }
  }

  /**
   * When no window is in both pools or twice in one, the pool size
   * `|idle| + |active|` is the number of distinct windows the pool holds.
   */
  lemma {:induction false} PartitionCardinality(idle: seq<Window>, active: map<Id, Window>)
    ensures Distinct(idle) && Injective(active) && (forall id :: id in active ==> active[id] !in idle)
            ==> |idle| + |active| == |Elements(idle) + active.Values|
  {
    if Distinct(idle) && Injective(active) && (forall id :: id in active ==> active[id] !in idle) {
      DistinctCardinality(idle);
      InjectiveCardinality(active);
      assert Elements(idle) * active.Values == {};
    }
  }

  /** The `message` of a `create()` rejection, as `runScript`'s catch reads it with `e.message`. */
  function RejectionPayload(e: CreateError): (r: ErrorPayload)
    ensures e.LoadError? ==> r == Text(e.message)
    ensures e.WindowClosedString? ==> r.Absent?
  {
    match e
    case LoadError(m) => Text(m)
    case WindowClosedString => Absent
  }

  /** The `Error` message of a did-fail-load; the source leaves the parenthesis open. */
  function LoadFailureMessage(errorCode: int, errorDescription: string): (r: string)
    ensures |r| > |"did-fail-load ("| + |errorDescription| && r[..|"did-fail-load ("|] == "did-fail-load ("
    ensures r[|r| - |errorDescription|..] == errorDescription
  {
    "did-fail-load (" + IntToString(errorCode) + ": " + errorDescription
  }

  /** The record the crash handler sends: `RenderProcessGone`, `"<reason> (<exitCode>)"`. */
  function CrashError(reason: string, exitCode: int): (e: PlainError)
    ensures e.name == Str("RenderProcessGone") && e.stack.Undefined?
    ensures e.message.Str? && |e.message.s| > |reason| && e.message.s[..|reason|] == reason
    ensures e.message.s[|e.message.s| - 1] == ')'
  {
    PlainError(Str("RenderProcessGone"), Str(reason + " (" + IntToString(exitCode) + ")"), Undefined)
  }

  // ---------------------------------------------------------------------
  // The pool's invariant, over a snapshot of its state.

  function SizeOf(s: PoolState): nat
  {
    |s.idlePool| + |s.activePool|
  }

  /** A window whose renderer can still send messages or crash. */
  ghost predicate Responsive(s: PoolState, w: Window)
  {
    w !in s.crashed && w !in s.destroyed
  }

  /** Every window is idle, active under one id, or neither. */
  ghost predicate Partitioned(s: PoolState)
  {
    && Distinct(s.idlePool)
    && Injective(s.activePool)
    && (forall id :: id in s.activePool ==> s.activePool[id] !in s.idlePool)
  }

  /** An active entry always has its listeners; a responsive window's listeners are its active entry. */
  ghost predicate ListenersAgree(s: PoolState)
  {
    && (forall id :: id in s.activePool ==> id in s.listeners && s.listeners[id] == s.activePool[id])
    && (forall id :: id in s.listeners && Responsive(s, s.listeners[id]) ==> id in s.activePool)
  }

  /** Every window mentioned has been created. */
  ghost predicate Allocated(s: PoolState)
  {
    && (forall w :: w in s.idlePool ==> w < s.nextWindow)
    && (forall id :: id in s.listeners ==> s.listeners[id] < s.nextWindow)
    && (forall w :: w in s.crashed ==> w < s.nextWindow)
    && (forall w :: w in s.destroyed ==> w < s.nextWindow)
  }

  /** Only crashed windows are closed, and a destroyed window is in no pool. */
  ghost predicate GoneWindowsOut(s: PoolState)
  {
    && s.closing <= s.crashed
    && s.closing !! s.destroyed
    && (forall w :: w in s.destroyed ==> w !in s.idlePool)
    && (forall id :: id in s.activePool ==> s.activePool[id] !in s.destroyed)
  }

  /** At most one acquisition holds the lock, and while one does `locked` is set. */
  ghost predicate LockDiscipline(s: PoolState)
  {
    && (forall i :: 0 <= i < |s.acquiring| && s.acquiring[i].holdsLock ==> s.locked)
    && (forall i, j :: 0 <= i < j < |s.acquiring| ==> !(s.acquiring[i].holdsLock && s.acquiring[j].holdsLock))
  }

  /** Pending requests carry ids that no registered run uses, and no two share one. */
  ghost predicate RunIdsFresh(s: PoolState)
  {
    && (forall i :: 0 <= i < |s.acquiring| ==> s.acquiring[i].event.id !in s.listeners)
    && (forall i, j :: 0 <= i < j < |s.acquiring| ==> s.acquiring[i].event.id != s.acquiring[j].event.id)
  }

  /** An id a new `run-script` request may carry: unused by every registered or pending run. */
  ghost predicate FreshRunId(s: PoolState, id: Id)
  {
    id !in s.listeners && forall i :: 0 <= i < |s.acquiring| ==> s.acquiring[i].event.id != id
  }

  /**
   * The bound on the number of windows that holds as written: the cap,
   * plus the windows the constructor started creating, since `isFull`
   * does not count creations still loading.
   */
  ghost function Cap(maxConcurrency: int, eager: nat): int
  {
    (if maxConcurrency > 0 then maxConcurrency else 0) + eager
  }

  ghost predicate Capped(s: PoolState, maxConcurrency: int, eager: nat)
  {
    s.pendingCreations <= eager && SizeOf(s) + s.pendingCreations <= Cap(maxConcurrency, eager)
  }

  ghost predicate Inv(s: PoolState, maxConcurrency: int, eager: nat)
  {
    && Partitioned(s) && ListenersAgree(s) && Allocated(s) && GoneWindowsOut(s)
    && LockDiscipline(s) && RunIdsFresh(s) && Capped(s, maxConcurrency, eager)
  }

  // ---------------------------------------------------------------------
  // The pool's steps, as changes of its state.

  /** `handle` of `run-script`: a `getIdleWindow` call starts for the request, not yet holding the lock. */
  ghost function Enqueue(s: PoolState, event: RunScriptEvent): PoolState
  {
    s.(acquiring := s.acquiring + [Acquisition(event, false)])
  }

  /** `handle` of `abort-script`: forwarded to the window active under the id, if there is one. */
  ghost function ForwardAbort(s: PoolState, id: Id): PoolState
  {
    if id in s.activePool then s.(toRenderer := s.toRenderer + [Delivery(s.activePool[id], AbortScript(id))]) else s
  }

  /** A window created for the pool: loaded and idle, loaded never, or closed before loading. */
  ghost function Created(s: PoolState, outcome: CreateOutcome): PoolState
  {
    match outcome
    case FinishedLoad => s.(idlePool := s.idlePool + [s.nextWindow], nextWindow := s.nextWindow + 1)
    case FailedLoad(_, _) => s.(nextWindow := s.nextWindow + 1)
    case ClosedBeforeLoad => s.(nextWindow := s.nextWindow + 1, destroyed := s.destroyed + {s.nextWindow})
  }

  /** Request `k` got window `w`: the lock is cleared and `runScriptOnWindow` retains `w` for it. */
  ghost function StartRun(s: PoolState, k: nat, w: Window): PoolState
    requires k < |s.acquiring|
  {
    var event := s.acquiring[k].event;
    s.(idlePool := SetDelete(s.idlePool, w), activePool := s.activePool[event.id := w], locked := false,
       acquiring := RemoveAt(s.acquiring, k), listeners := s.listeners[event.id := w],
       toRenderer := s.toRenderer + [Delivery(w, RunScript(event))])
  }

  /** Request `k` found the pool full: it keeps the lock and retries `getAsync` later. */
  ghost function HoldAndWait(s: PoolState, k: nat): PoolState
    requires k < |s.acquiring|
  {
    s.(locked := true, acquiring := s.acquiring[k := s.acquiring[k].(holdsLock := true)])
  }

  /** Request `k`'s `getAsync` rejected: one `run-rejected` goes out, and the lock stays set. */
  ghost function RejectRun(s: PoolState, k: nat, error: ErrorPayload): PoolState
    requires k < |s.acquiring|
  {
    s.(locked := true, acquiring := RemoveAt(s.acquiring, k),
       sent := s.sent + [RunResult(RunRejected(s.acquiring[k].event.id, error))])
  }

  /** `cleanup` of run `id`: its listeners go, and its window is released. */
  ghost function Cleanup(s: PoolState, id: Id): PoolState
    requires id in s.listeners
  {
    s.(listeners := s.listeners - {id}, activePool := s.activePool - {id},
       idlePool := SetAdd(s.idlePool, s.listeners[id]))
  }

  /** `onResult` for a message on channel `id`: forwarded, and a terminal one cleans up. */
  ghost function Deliver(s: PoolState, id: Id, msg: RunResultEvent): PoolState
  {
    if id !in s.listeners then s
    else
      var forwarded := s.(sent := s.sent + [RunResult(msg)]);
      if msg.IsTerminal() then Cleanup(forwarded, id) else forwarded
  }

  /** The run, if any, whose listeners are on window `w`. */
  ghost predicate RunOn(s: PoolState, id: Id, w: Window)
  {
    id in s.listeners && s.listeners[id] == w
  }

  /**
   * "render-process-gone" on `w`: the window is crashed; the run on it, if
   * any, gets a synthesised `run-rejected`, is cleaned up (which releases
   * the window), and the window is asked to close.
   */
  ghost function Crash(s: PoolState, w: Window, reason: string, exitCode: int): PoolState
  {
    var gone := s.(crashed := s.crashed + {w});
    if exists id :: RunOn(s, id, w) then
      var id :| RunOn(s, id, w);
      var rejected := gone.(sent := s.sent + [RunResult(RunRejected(id, Plain(CrashError(reason, exitCode))))]);
      Cleanup(rejected, id).(closing := s.closing + {w})
    else
      gone
  }

  /** The active map without the entries whose window is `w`. */
  ghost function WithoutWindow(m: map<Id, Window>, w: Window): (r: map<Id, Window>)
    ensures w !in r.Values && r.Keys <= m.Keys
  {
    map id | id in m && m[id] != w :: m[id]
  }

  /** The "closed" event of a window asked to close: `removeWin` drops and destroys it. */
  ghost function Closed(s: PoolState, w: Window): PoolState
  {
    s.(closing := s.closing - {w}, idlePool := SetDelete(s.idlePool, w),
       activePool := WithoutWindow(s.activePool, w), destroyed := s.destroyed + {w})
  }

  // ---------------------------------------------------------------------
  // Each step keeps the invariant.

  lemma EnqueueKeepsInv(s: PoolState, maxConcurrency: int, eager: nat, event: RunScriptEvent)
    requires Inv(s, maxConcurrency, eager) && FreshRunId(s, event.id)
    ensures Inv(Enqueue(s, event), maxConcurrency, eager)
  {
  }

  lemma {:induction false} StartRunKeepsInv(s: PoolState, maxConcurrency: int, eager: nat, k: nat, w: Window)
    requires Partitioned(s) && ListenersAgree(s) && Allocated(s) && GoneWindowsOut(s) && RunIdsFresh(s)
    requires k < |s.acquiring| && (s.acquiring[k].holdsLock || !s.locked)
    requires forall i :: 0 <= i < |s.acquiring| && i != k ==> !s.acquiring[i].holdsLock
    requires w in s.idlePool && w !in s.destroyed
    requires Capped(s, maxConcurrency, eager)
    ensures Inv(StartRun(s, k, w), maxConcurrency, eager)
    ensures SizeOf(StartRun(s, k, w)) == SizeOf(s)
  {
    var t := StartRun(s, k, w);
    var id := s.acquiring[k].event.id;
    assert id !in s.activePool;
    assert |t.activePool| == |s.activePool| + 1;
    forall i, j | 0 <= i < j < |t.acquiring| ensures t.acquiring[i].event.id != t.acquiring[j].event.id {
      var i' := if i < k then i else i + 1;
      var j' := if j < k then j else j + 1;
      assert t.acquiring[i] == s.acquiring[i'] && t.acquiring[j] == s.acquiring[j'];
    }
    forall i | 0 <= i < |t.acquiring| ensures t.acquiring[i].event.id !in t.listeners {
      var i' := if i < k then i else i + 1;
      assert t.acquiring[i] == s.acquiring[i'];
    }
  }

  lemma {:induction false} HoldAndWaitKeepsInv(s: PoolState, maxConcurrency: int, eager: nat, k: nat)
    requires Inv(s, maxConcurrency, eager)
    requires k < |s.acquiring| && (s.acquiring[k].holdsLock || !s.locked)
    ensures Inv(HoldAndWait(s, k), maxConcurrency, eager)
  {
    var t := HoldAndWait(s, k);
    forall i, j | 0 <= i < j < |t.acquiring| ensures !(t.acquiring[i].holdsLock && t.acquiring[j].holdsLock) {
      if i != k && j != k {
        assert t.acquiring[i] == s.acquiring[i] && t.acquiring[j] == s.acquiring[j];
      } else if i == k {
        assert t.acquiring[j] == s.acquiring[j];
      } else {
        assert t.acquiring[i] == s.acquiring[i];
      }
    }
  }

  lemma {:induction false} RejectRunKeepsInv(s: PoolState, maxConcurrency: int, eager: nat, k: nat, error: ErrorPayload)
    requires Partitioned(s) && ListenersAgree(s) && Allocated(s) && GoneWindowsOut(s)
    requires RunIdsFresh(s) && Capped(s, maxConcurrency, eager)
    requires k < |s.acquiring|
    requires forall i :: 0 <= i < |s.acquiring| && i != k ==> !s.acquiring[i].holdsLock
    ensures Inv(RejectRun(s, k, error), maxConcurrency, eager)
  {
    var t := RejectRun(s, k, error);
    forall i, j | 0 <= i < j < |t.acquiring| ensures t.acquiring[i].event.id != t.acquiring[j].event.id {
      var i' := if i < k then i else i + 1;
      var j' := if j < k then j else j + 1;
      assert t.acquiring[i] == s.acquiring[i'] && t.acquiring[j] == s.acquiring[j'];
    }
    forall i | 0 <= i < |t.acquiring| ensures !t.acquiring[i].holdsLock && t.acquiring[i].event.id !in t.listeners {
      var i' := if i < k then i else i + 1;
      assert t.acquiring[i] == s.acquiring[i'];
    }
  }

  /** The requests other than `k` do not hold the lock, when `k` holds it or the lock is free. */
  lemma OthersWithoutLock(s: PoolState, k: nat)
    requires LockDiscipline(s) && k < |s.acquiring| && (s.acquiring[k].holdsLock || !s.locked)
    ensures forall i :: 0 <= i < |s.acquiring| && i != k ==> !s.acquiring[i].holdsLock
  {
  }

  /**
   * A creation that `getAsync` triggers (the pool not full) keeps the
   * invariant, and leaves at most `maxConcurrency` windows in the pool.
   */
  lemma {:induction false} CreateForRunKeepsInv(s: PoolState, maxConcurrency: int, eager: nat, k: nat, outcome: CreateOutcome)
    requires Inv(s, maxConcurrency, eager)
    requires k < |s.acquiring| && (s.acquiring[k].holdsLock || !s.locked)
    requires |s.idlePool| == 0 && SizeOf(s) < maxConcurrency
    ensures outcome.FinishedLoad? ==>
              && Inv(StartRun(Created(s, outcome), k, s.nextWindow), maxConcurrency, eager)
              && SizeOf(StartRun(Created(s, outcome), k, s.nextWindow)) == SizeOf(s) + 1 <= maxConcurrency
    ensures outcome.FailedLoad? ==>
              Inv(RejectRun(Created(s, outcome), k, Text(LoadFailureMessage(outcome.errorCode, outcome.errorDescription))), maxConcurrency, eager)
    ensures outcome.ClosedBeforeLoad? ==> Inv(RejectRun(Created(s, outcome), k, Absent), maxConcurrency, eager)
  {
    if outcome.FinishedLoad? {
      CreatedWindowKeepsInv(s, maxConcurrency, eager, k);
    } else {
      CreationFailureKeepsInv(s, maxConcurrency, eager, k, outcome);
    }
  }

  /** `CreateForRunKeepsInv` when the new window finished loading and the request takes it. */
  lemma CreatedWindowKeepsInv(s: PoolState, maxConcurrency: int, eager: nat, k: nat)
    requires Inv(s, maxConcurrency, eager)
    requires k < |s.acquiring| && (s.acquiring[k].holdsLock || !s.locked)
    requires |s.idlePool| == 0 && SizeOf(s) < maxConcurrency
    ensures Inv(StartRun(Created(s, FinishedLoad), k, s.nextWindow), maxConcurrency, eager)
    ensures SizeOf(StartRun(Created(s, FinishedLoad), k, s.nextWindow)) == SizeOf(s) + 1 <= maxConcurrency
  {
    OthersWithoutLock(s, k);
    var c := Created(s, FinishedLoad);
    assert Distinct(c.idlePool);
    assert SizeOf(c) == SizeOf(s) + 1;
    assert Capped(c, maxConcurrency, eager);
    StartRunKeepsInv(c, maxConcurrency, eager, k, s.nextWindow);
  }

  /** `CreateForRunKeepsInv` when the new window failed to load or closed first: the request is rejected. */
  lemma CreationFailureKeepsInv(s: PoolState, maxConcurrency: int, eager: nat, k: nat, outcome: CreateOutcome)
    requires Inv(s, maxConcurrency, eager) && !outcome.FinishedLoad?
    requires k < |s.acquiring| && (s.acquiring[k].holdsLock || !s.locked)
    ensures outcome.FailedLoad? ==>
              Inv(RejectRun(Created(s, outcome), k, Text(LoadFailureMessage(outcome.errorCode, outcome.errorDescription))), maxConcurrency, eager)
    ensures outcome.ClosedBeforeLoad? ==> Inv(RejectRun(Created(s, outcome), k, Absent), maxConcurrency, eager)
  {
    OthersWithoutLock(s, k);
    var c := Created(s, outcome);
    assert c.acquiring == s.acquiring && c.listeners == s.listeners && c.activePool == s.activePool;
    if outcome.FailedLoad? {
      RejectRunKeepsInv(c, maxConcurrency, eager, k, Text(LoadFailureMessage(outcome.errorCode, outcome.errorDescription)));
    } else {
      RejectRunKeepsInv(c, maxConcurrency, eager, k, Absent);
    }
  }

  lemma {:induction false} TakeIdleKeepsInv(s: PoolState, maxConcurrency: int, eager: nat, k: nat)
    requires Inv(s, maxConcurrency, eager)
    requires k < |s.acquiring| && (s.acquiring[k].holdsLock || !s.locked) && |s.idlePool| > 0
    ensures Inv(StartRun(s, k, s.idlePool[0]), maxConcurrency, eager)
    ensures SizeOf(StartRun(s, k, s.idlePool[0])) == SizeOf(s)
  {
    OthersWithoutLock(s, k);
    StartRunKeepsInv(s, maxConcurrency, eager, k, s.idlePool[0]);
  }

  /** `cleanup` of an active run keeps the invariant and moves its window from active to idle. */
  lemma {:induction false} CleanupKeepsInv(s: PoolState, maxConcurrency: int, eager: nat, id: Id)
    requires Inv(s, maxConcurrency, eager) && id in s.activePool
    ensures Inv(Cleanup(s, id), maxConcurrency, eager)
    ensures SizeOf(Cleanup(s, id)) == SizeOf(s)
    ensures id !in Cleanup(s, id).activePool && s.activePool[id] in Cleanup(s, id).idlePool
  {
    var w := s.listeners[id];
    var t := Cleanup(s, id);
    assert s.activePool[id] == w && w !in s.idlePool;
    assert t.idlePool == s.idlePool + [w];
    assert |t.activePool| == |s.activePool| - 1;
    forall a, b | a in t.activePool && b in t.activePool && a != b ensures t.activePool[a] != t.activePool[b] {
      assert t.activePool[a] == s.activePool[a] && t.activePool[b] == s.activePool[b];
    }
    assert Distinct(t.idlePool) by { DistinctCons(w, []); assert Distinct(s.idlePool); }
    forall x | x in t.activePool ensures t.activePool[x] !in t.idlePool {
      assert t.activePool[x] == s.activePool[x];
    }
  }

  /**
   * A message from a responsive run's renderer keeps the invariant; a
   * terminal one moves the run's window from active back to idle, so the
   * pool size does not change.
   */
  lemma {:induction false} DeliverKeepsInv(s: PoolState, maxConcurrency: int, eager: nat, id: Id, msg: RunResultEvent)
    requires Inv(s, maxConcurrency, eager)
    requires id in s.listeners ==> Responsive(s, s.listeners[id])
    ensures Inv(Deliver(s, id, msg), maxConcurrency, eager)
    ensures SizeOf(Deliver(s, id, msg)) == SizeOf(s)
    ensures id in s.listeners && msg.IsTerminal() ==>
              && id in s.activePool && id !in Deliver(s, id, msg).activePool
              && s.activePool[id] in Deliver(s, id, msg).idlePool
    ensures id in s.listeners && !msg.IsTerminal() ==>
              && id in Deliver(s, id, msg).activePool && Deliver(s, id, msg).activePool == s.activePool
              && Deliver(s, id, msg).idlePool == s.idlePool
    ensures id in s.listeners ==> Deliver(s, id, msg).sent == s.sent + [RunResult(msg)]
    ensures id !in s.listeners ==> Deliver(s, id, msg) == s
  {
    if id in s.listeners && msg.IsTerminal() {
      CleanupKeepsInv(s.(sent := s.sent + [RunResult(msg)]), maxConcurrency, eager, id);
    }
  }

  /** The window an eager creation of the constructor produced, with one creation fewer pending. */
  ghost function EagerCreated(s: PoolState, outcome: CreateOutcome): PoolState
    requires s.pendingCreations > 0
  {
    Created(s, outcome).(pendingCreations := s.pendingCreations - 1)
  }

  /**
   * One attempt of `getIdleWindow` for request `k`, with `outcome` the way
   * a creation it starts ends: while another request holds the lock it
   * only waits; otherwise it takes the first idle window, waits holding
   * the lock if the pool is full, or creates a window and runs on it or
   * rejects the request.
   */
  ghost function Attempted(s: PoolState, maxConcurrency: int, k: nat, outcome: CreateOutcome): PoolState
    requires k < |s.acquiring|
  {
    if !s.acquiring[k].holdsLock && s.locked then s
    else if |s.idlePool| > 0 then StartRun(s, k, s.idlePool[0])
    else if SizeOf(s) >= maxConcurrency then HoldAndWait(s, k)
    else match outcome
      case FinishedLoad => StartRun(Created(s, outcome), k, s.nextWindow)
      case FailedLoad(code, description) => RejectRun(Created(s, outcome), k, Text(LoadFailureMessage(code, description)))
      case ClosedBeforeLoad => RejectRun(Created(s, outcome), k, Absent)
  }

  /**
   * What `getIdleWindow()` for request `k` does to the pool state `s`,
   * leaving `t` and answering `a`: it waits while another request holds
   * the lock; otherwise it takes the lock and runs `getAsync`, which gives
   * the first idle window, waits when the pool is full, or creates a
   * window; the lock is released only when a window is given.
   */
  ghost predicate Acquired(s: PoolState, t: PoolState, a: Attempt, maxConcurrency: int, k: nat, outcome: CreateOutcome)
    requires k < |s.acquiring|
  {
    && (!s.acquiring[k].holdsLock && s.locked ==> a == Wait && t == s)
    && (s.acquiring[k].holdsLock || !s.locked ==>
          var held := HoldAndWait(s, k);
          && (|s.idlePool| > 0 ==> a == Got(s.idlePool[0]) && t == held.(locked := false))
          && (|s.idlePool| == 0 && SizeOf(s) >= maxConcurrency ==> a == Wait && t == held)
          && (|s.idlePool| == 0 && SizeOf(s) < maxConcurrency ==>
                && t == Created(held, outcome).(locked := !a.Got?)
                && (a.Got? <==> outcome.FinishedLoad?)
                && (a.Got? ==> a.window == s.nextWindow)
                && (outcome.FailedLoad? ==> a == Threw(LoadError(LoadFailureMessage(outcome.errorCode, outcome.errorDescription))))
                && (outcome.ClosedBeforeLoad? ==> a == Threw(WindowClosedString))))
  }

  /**
   * The rest of `runScript()` once `getIdleWindow()` answered `a` for
   * request `k`: on a window the run starts on it, on an error the request
   * is rejected with the error's `message`, and a wait changes nothing.
   */
  ghost function Finished(s: PoolState, k: nat, event: RunScriptEvent, a: Attempt): PoolState
    requires k < |s.acquiring|
  {
    match a
    case Got(w) =>
      s.(acquiring := RemoveAt(s.acquiring, k), idlePool := SetDelete(s.idlePool, w),
         activePool := s.activePool[event.id := w], listeners := s.listeners[event.id := w],
         toRenderer := s.toRenderer + [Delivery(w, RunScript(event))])
    case Threw(e) =>
      s.(acquiring := RemoveAt(s.acquiring, k), sent := s.sent + [RunResult(RunRejected(event.id, RejectionPayload(e)))])
    case Wait => s
  }

  /** `getIdleWindow()` followed by the rest of `runScript()` is one `Attempted` step. */
  lemma AcquiredThenFinished(s: PoolState, t: PoolState, a: Attempt, maxConcurrency: int, k: nat, outcome: CreateOutcome)
    requires k < |s.acquiring| && Acquired(s, t, a, maxConcurrency, k, outcome)
    ensures k < |t.acquiring| && t.acquiring[k].event == s.acquiring[k].event
    ensures Finished(t, k, s.acquiring[k].event, a) == Attempted(s, maxConcurrency, k, outcome)
  {
    RemoveAtAfterHold(s.acquiring, k, s.acquiring[k].(holdsLock := true));
  }

  lemma {:induction false} AttemptKeepsInv(s: PoolState, maxConcurrency: int, eager: nat, k: nat, outcome: CreateOutcome)
    requires Inv(s, maxConcurrency, eager) && k < |s.acquiring|
    ensures Inv(Attempted(s, maxConcurrency, k, outcome), maxConcurrency, eager)
  {
    if !s.acquiring[k].holdsLock && s.locked {
    } else if |s.idlePool| > 0 {
      TakeIdleKeepsInv(s, maxConcurrency, eager, k);
    } else if SizeOf(s) >= maxConcurrency {
      HoldAndWaitKeepsInv(s, maxConcurrency, eager, k);
    } else {
      CreateForRunKeepsInv(s, maxConcurrency, eager, k, outcome);
    }
  }

  /**
   * A window `getAsync` creates for a request leaves at most
   * `maxConcurrency` windows in the pool, one more than before.
   */
  lemma CreatedForRunWithinCap(s: PoolState, maxConcurrency: int, eager: nat, k: nat)
    requires Inv(s, maxConcurrency, eager) && k < |s.acquiring|
    requires s.acquiring[k].holdsLock || !s.locked
    requires |s.idlePool| == 0 && SizeOf(s) < maxConcurrency
    ensures SizeOf(Attempted(s, maxConcurrency, k, FinishedLoad)) == SizeOf(s) + 1 <= maxConcurrency
  {
    CreateForRunKeepsInv(s, maxConcurrency, eager, k, FinishedLoad);
  }

  lemma {:induction false} EagerKeepsInv(s: PoolState, maxConcurrency: int, eager: nat, outcome: CreateOutcome)
    requires Inv(s, maxConcurrency, eager) && s.pendingCreations > 0
    ensures Inv(EagerCreated(s, outcome), maxConcurrency, eager)
  {
    var t := EagerCreated(s, outcome);
    if outcome.FinishedLoad? {
      assert s.nextWindow !in s.idlePool;
      DistinctCons(s.nextWindow, []);
      assert Distinct(t.idlePool);
    }
  }

  lemma ForwardAbortKeepsInv(s: PoolState, maxConcurrency: int, eager: nat, id: Id)
    requires Inv(s, maxConcurrency, eager)
    ensures Inv(ForwardAbort(s, id), maxConcurrency, eager)
    ensures id in s.activePool ==> ForwardAbort(s, id).toRenderer == s.toRenderer + [Delivery(s.activePool[id], AbortScript(id))]
    ensures id !in s.activePool ==> ForwardAbort(s, id) == s
  {
  }

  /** On a responsive window at most one run has listeners: the one active on it. */
  lemma RunOnUnique(s: PoolState, maxConcurrency: int, eager: nat, w: Window, a: Id, b: Id)
    requires Inv(s, maxConcurrency, eager) && Responsive(s, w)
    requires RunOn(s, a, w) && RunOn(s, b, w)
    ensures a == b && a in s.activePool && s.activePool[a] == w
  {
  }

  /** A crash of a responsive window keeps the invariant and the pool size. */
  lemma {:induction false} CrashKeepsInv(s: PoolState, maxConcurrency: int, eager: nat, w: Window, reason: string, exitCode: int)
    requires Inv(s, maxConcurrency, eager) && w < s.nextWindow && Responsive(s, w)
    ensures Inv(Crash(s, w, reason, exitCode), maxConcurrency, eager)
    ensures SizeOf(Crash(s, w, reason, exitCode)) == SizeOf(s)
  {
    CrashEffects(s, maxConcurrency, eager, w, reason, exitCode);
  }

  /**
   * What a crash does. The run on the window, if any, gets exactly one
   * `run-rejected` for `RenderProcessGone`, and its window goes back to the
   * idle pool, crashed, until its "closed" event; a crash of a window no
   * run holds only marks it crashed.
   */
  lemma {:induction false} CrashEffects(s: PoolState, maxConcurrency: int, eager: nat, w: Window, reason: string, exitCode: int)
    requires Inv(s, maxConcurrency, eager) && w < s.nextWindow && Responsive(s, w)
    ensures Inv(Crash(s, w, reason, exitCode), maxConcurrency, eager)
    ensures SizeOf(Crash(s, w, reason, exitCode)) == SizeOf(s)
    ensures forall id :: id in s.activePool && s.activePool[id] == w ==>
              && Crash(s, w, reason, exitCode).sent == s.sent + [RunResult(RunRejected(id, Plain(CrashError(reason, exitCode))))]
              && id !in Crash(s, w, reason, exitCode).activePool
              && w in Crash(s, w, reason, exitCode).idlePool
              && w in Crash(s, w, reason, exitCode).closing
    ensures (forall id :: id in s.activePool ==> s.activePool[id] != w) ==>
              Crash(s, w, reason, exitCode) == s.(crashed := s.crashed + {w})
  {
    if exists id :: RunOn(s, id, w) {
      var id :| RunOn(s, id, w);
      CrashOfHeldWindow(s, maxConcurrency, eager, w, reason, exitCode, id);
    } else {
      CrashOfFreeWindow(s, maxConcurrency, eager, w, reason, exitCode);
    }
  }

  /** Asking a crashed window that is not yet destroyed to close keeps the invariant. */
  lemma MarkClosingKeepsInv(s: PoolState, maxConcurrency: int, eager: nat, w: Window)
    requires Inv(s, maxConcurrency, eager) && w in s.crashed && w !in s.destroyed
    ensures Inv(s.(closing := s.closing + {w}), maxConcurrency, eager)
    ensures SizeOf(s.(closing := s.closing + {w})) == SizeOf(s)
  {
  }

  /** `CrashEffects` when run `id` listens on the crashed window. */
  lemma CrashOfHeldWindow(s: PoolState, maxConcurrency: int, eager: nat, w: Window, reason: string, exitCode: int, id: Id)
    requires Inv(s, maxConcurrency, eager) && w < s.nextWindow && Responsive(s, w) && RunOn(s, id, w)
    ensures Inv(Crash(s, w, reason, exitCode), maxConcurrency, eager)
    ensures SizeOf(Crash(s, w, reason, exitCode)) == SizeOf(s)
    ensures forall other :: other in s.activePool && s.activePool[other] == w ==>
              && Crash(s, w, reason, exitCode).sent == s.sent + [RunResult(RunRejected(other, Plain(CrashError(reason, exitCode))))]
              && other !in Crash(s, w, reason, exitCode).activePool
              && w in Crash(s, w, reason, exitCode).idlePool
              && w in Crash(s, w, reason, exitCode).closing
  {
    var r := CrashUnfold(s, maxConcurrency, eager, w, reason, exitCode, id);
    CleanupKeepsInv(r, maxConcurrency, eager, id);
    MarkClosingKeepsInv(Cleanup(r, id), maxConcurrency, eager, w);
    forall other | other in s.activePool && s.activePool[other] == w ensures other == id {
      RunOnUnique(s, maxConcurrency, eager, w, other, id);
    }
  }

  /** `CrashEffects` when no run listens on the crashed window. */
  lemma CrashOfFreeWindow(s: PoolState, maxConcurrency: int, eager: nat, w: Window, reason: string, exitCode: int)
    requires Inv(s, maxConcurrency, eager) && w < s.nextWindow && Responsive(s, w) && !exists id :: RunOn(s, id, w)
    ensures Inv(Crash(s, w, reason, exitCode), maxConcurrency, eager)
    ensures SizeOf(Crash(s, w, reason, exitCode)) == SizeOf(s)
    ensures forall id :: id in s.activePool ==> s.activePool[id] != w
    ensures Crash(s, w, reason, exitCode) == s.(crashed := s.crashed + {w})
  {
    forall id | id in s.activePool ensures s.activePool[id] != w {
      assert !RunOn(s, id, w);
    }
  }

  /** The crash of the window run `id` is on: the rejection is sent before `cleanup`. */
  lemma CrashUnfold(s: PoolState, maxConcurrency: int, eager: nat, w: Window, reason: string, exitCode: int, id: Id)
    returns (r: PoolState)
    requires Inv(s, maxConcurrency, eager) && w < s.nextWindow && Responsive(s, w) && RunOn(s, id, w)
    ensures r == s.(crashed := s.crashed + {w}, sent := s.sent + [RunResult(RunRejected(id, Plain(CrashError(reason, exitCode))))])
    ensures Inv(r, maxConcurrency, eager) && id in r.activePool && r.activePool[id] == w
    ensures Crash(s, w, reason, exitCode) == Cleanup(r, id).(closing := s.closing + {w})
  {
    r := s.(crashed := s.crashed + {w}, sent := s.sent + [RunResult(RunRejected(id, Plain(CrashError(reason, exitCode))))]);
    forall other | RunOn(s, other, w) ensures other == id {
      RunOnUnique(s, maxConcurrency, eager, w, other, id);
    }
  }

  /**
   * A window's "closed" event keeps the invariant: the window leaves both
   * pools for good, is destroyed, and the pool does not grow.
   */
  lemma {:induction false} ClosedKeepsInv(s: PoolState, maxConcurrency: int, eager: nat, w: Window)
    requires Inv(s, maxConcurrency, eager) && w < s.nextWindow && w !in s.destroyed
    ensures Inv(Closed(s, w), maxConcurrency, eager)
    ensures SizeOf(Closed(s, w)) <= SizeOf(s)
    ensures w !in Closed(s, w).idlePool && w !in Closed(s, w).activePool.Values && w in Closed(s, w).destroyed
  {
    var t := Closed(s, w);
    assert |t.activePool| <= |s.activePool| by {
      assert t.activePool.Keys <= s.activePool.Keys;
      SubsetCardinality(t.activePool.Keys, s.activePool.Keys);
    }
    assert |t.idlePool| <= |s.idlePool|;
    forall a, b | a in t.activePool && b in t.activePool && a != b ensures t.activePool[a] != t.activePool[b] {
      assert t.activePool[a] == s.activePool[a] && t.activePool[b] == s.activePool[b];
    }
    forall id | id in t.listeners && Responsive(t, t.listeners[id]) ensures id in t.activePool {
      assert id in s.activePool && s.activePool[id] == s.listeners[id];
    }
  }

  lemma SubsetCardinality(a: set<Id>, b: set<Id>)
    requires a <= b
    ensures |a| <= |b|
  {
    assert b == a + (b - a);
  }

  lemma WithoutAbsentWindow(m: map<Id, Window>, w: Window)
    requires forall id :: id in m ==> m[id] != w
    ensures WithoutWindow(m, w) == m
  {
  }

  /** `retainWin` after a window came from the idle pool, and the request's acquisition ends. */
  lemma RemoveAtAfterHold(s: seq<Acquisition>, k: nat, x: Acquisition)
    requires k < |s|
    ensures RemoveAt(s[k := x], k) == RemoveAt(s, k)
  {
    assert s[k := x][..k] == s[..k];
    assert s[k := x][k + 1..] == s[k + 1..];
  }

  // ---------------------------------------------------------------------
  // The pool object.

  class WindowPool {
    const debugMode: bool
    const maxConcurrency: int
    /** How many creations the constructor started. */
    ghost const eager: nat

    var idlePool: seq<Window>
    var activePool: map<Id, Window>
    /** Set while a `getIdleWindow` call is inside `getAsync`. */
    var locked: bool
    /** Creations the constructor started that have not ended yet. */
    var pendingCreations: nat
    /** The handle the next `new BrowserWindow` gets. */
    var nextWindow: Window
    /** The `run-script` requests waiting for a window, oldest first. */
    var acquiring: seq<Acquisition>
    /** The run id of each `ipcMain` and "render-process-gone" listener pair, with its window. */
    var listeners: map<Id, Window>
    /** Windows whose render process is gone. */
    var crashed: set<Window>
    /** Windows asked to close and not closed yet. */
    var closing: set<Window>
    /** Windows `removeWin` destroyed. */
    var destroyed: set<Window>
    /** The messages sent to the client process, in order. */
    var sent: seq<OutputMessage>
    /** The messages sent to renderers, in order. */
    var toRenderer: seq<Delivery>

    ghost function State(): PoolState
      reads this
    {
      PoolState(idlePool, activePool, locked, pendingCreations, nextWindow, acquiring,
                listeners, crashed, closing, destroyed, sent, toRenderer)
    }

    ghost predicate Valid()
      reads this
    {
      Inv(State(), maxConcurrency, eager)
    }

    /** Starts `minConcurrency` window creations without waiting for any of them. */
    constructor(debugMode: bool, minConcurrency: int, maxConcurrency: int)
      ensures Valid()
      ensures this.debugMode == debugMode && this.maxConcurrency == maxConcurrency
      ensures idlePool == [] && activePool == map[] && !locked && acquiring == [] && listeners == map[]
      ensures crashed == {} && closing == {} && destroyed == {} && sent == [] && toRenderer == []
      ensures pendingCreations == eager == (if minConcurrency > 0 then minConcurrency else 0)
    {
      this.debugMode := debugMode;
      this.maxConcurrency := maxConcurrency;
      eager := if minConcurrency > 0 then minConcurrency else 0;
      idlePool, activePool, locked := [], map[], false;
      pendingCreations, nextWindow, acquiring, listeners := 0, 0, [], map[];
      crashed, closing, destroyed, sent, toRenderer := {}, {}, {}, [], [];
      new;
      var i := 0;
      while i < minConcurrency
        invariant 0 <= i && pendingCreations == i
        invariant i <= (if minConcurrency > 0 then minConcurrency else 0) == eager
        invariant idlePool == [] && activePool == map[] && !locked && acquiring == [] && listeners == map[]
        invariant nextWindow == 0 && crashed == {} && closing == {} && destroyed == {} && sent == [] && toRenderer == []
      {
        pendingCreations := pendingCreations + 1;
        i := i + 1;
      }
    }

    /** `size()`: under the invariant, the number of distinct windows in the two pools. */
    function Size(): (n: nat)
      reads this
      ensures Partitioned(State()) ==> n == |Elements(idlePool) + activePool.Values|
    {
      PartitionCardinality(idlePool, activePool);
      |idlePool| + |activePool|
    }

    /** `isFull()`: the pool holds `maxConcurrency` windows or more. */
    function IsFull(): (full: bool)
      reads this
      ensures Partitioned(State()) ==> (full <==> |Elements(idlePool) + activePool.Values| >= maxConcurrency)
    {
      Size() >= maxConcurrency
    }

    method RetainWin(id: Id, w: Window)
      modifies this
      ensures State() == old(State()).(idlePool := SetDelete(old(idlePool), w), activePool := old(activePool)[id := w])
    {
      idlePool := SetDelete(idlePool, w);
      activePool := activePool[id := w];
    }

    method ReleaseWin(id: Id, w: Window)
      modifies this
      ensures State() == old(State()).(activePool := old(activePool) - {id}, idlePool := SetAdd(old(idlePool), w))
    {
      activePool := activePool - {id};
      idlePool := SetAdd(idlePool, w);
    }

    /**
     * `removeWin`: drops the first active entry on `w`, if any (the only
     * one when no window is active twice), drops `w` from the idle pool and
     * destroys it.
     */
    method RemoveWin(w: Window)
      modifies this
      ensures State() == old(State()).(activePool := activePool, idlePool := SetDelete(old(idlePool), w),
                                       destroyed := old(destroyed) + {w})
      ensures w !in idlePool && w in destroyed
      ensures (forall id :: id in old(activePool) ==> old(activePool)[id] != w) ==> activePool == old(activePool)
      ensures (exists id :: id in old(activePool) && old(activePool)[id] == w) ==>
                exists id :: id in old(activePool) && old(activePool)[id] == w && activePool == old(activePool) - {id}
      ensures Injective(old(activePool)) ==> activePool == WithoutWindow(old(activePool), w)
    {
      var found := false;
      var keys := activePool.Keys;
      while keys != {}
        invariant keys <= old(activePool).Keys && !found
        invariant State() == old(State())
        invariant forall id :: id in old(activePool) && id !in keys ==> old(activePool)[id] != w
        decreases |keys|
      {
        var id :| id in keys;
        if activePool[id] == w {
          activePool := activePool - {id};
          found := true;
          if Injective(old(activePool)) {
            forall other | other in old(activePool) && other != id ensures old(activePool)[other] != w {
              assert old(activePool)[other] != old(activePool)[id];
            }
            assert activePool == WithoutWindow(old(activePool), w);
          }
          break;
        }
        keys := keys - {id};
      }
      if !found {
        WithoutAbsentWindow(activePool, w);
      }
      idlePool := SetDelete(idlePool, w);
      destroyed := destroyed + {w};
    }

    /**
     * `create()`, ended by `outcome`: a loaded window joins the idle pool
     * and resolves; did-fail-load rejects with an `Error`; a "closed" event
     * first runs `removeWin` on the window and rejects with a string.
     */
    method Create(outcome: CreateOutcome) returns (r: Result<Window, CreateError>)
      requires Valid()
      modifies this
      ensures State() == Created(old(State()), outcome)
      ensures outcome.FinishedLoad? ==> r == Success(old(nextWindow))
      ensures outcome.FailedLoad? ==> r == Failure(LoadError(LoadFailureMessage(outcome.errorCode, outcome.errorDescription)))
      ensures outcome.ClosedBeforeLoad? ==> r == Failure(WindowClosedString)
    {
      var win := nextWindow;
      nextWindow := nextWindow + 1;
      assert win !in idlePool;
      match outcome {
        case FinishedLoad =>
          idlePool := SetAdd(idlePool, win);
          r := Success(win);
        case FailedLoad(errorCode, errorDescription) =>
          r := Failure(LoadError(LoadFailureMessage(errorCode, errorDescription)));
        case ClosedBeforeLoad =>
          WithoutAbsentWindow(activePool, win);
          RemoveWin(win);
          r := Failure(WindowClosedString);
      }
    }

    /**
     * `getAsync()`: the first idle window; a wait when the pool is full; or
     * the window a creation resolves with, or its rejection.
     */
    method GetAsync(outcome: CreateOutcome) returns (a: Attempt)
      requires Valid()
      modifies this
      ensures |old(idlePool)| > 0 ==> a == Got(old(idlePool)[0]) && State() == old(State())
      ensures |old(idlePool)| == 0 && old(Size()) >= maxConcurrency ==> a == Wait && State() == old(State())
      ensures |old(idlePool)| == 0 && old(Size()) < maxConcurrency ==>
                && State() == Created(old(State()), outcome)
                && (a.Got? <==> outcome.FinishedLoad?)
                && (a.Got? ==> a.window == old(nextWindow))
                && (outcome.FailedLoad? ==> a == Threw(LoadError(LoadFailureMessage(outcome.errorCode, outcome.errorDescription))))
                && (outcome.ClosedBeforeLoad? ==> a == Threw(WindowClosedString))
    {
      if |idlePool| > 0 {
        return Got(idlePool[0]);
      }
      if IsFull() {
        return Wait;
      }
      var r := Create(outcome);
      a := if r.Success? then Got(r.value) else Threw(r.error);
    }

    /**
     * `getIdleWindow()` for request `k`: waits while another request holds
     * the lock; otherwise takes the lock and runs `getAsync`, releasing the
     * lock only when that gives a window.
     */
    method GetIdleWindow(k: nat, outcome: CreateOutcome) returns (a: Attempt)
      requires Valid() && k < |acquiring|
      modifies this
      ensures Acquired(old(State()), State(), a, maxConcurrency, k, outcome)
    {
      if locked && !acquiring[k].holdsLock {
        return Wait;
      }
      ghost var s0 := State();
      locked := true;
      acquiring := acquiring[k := acquiring[k].(holdsLock := true)];
      HoldAndWaitKeepsInv(s0, maxConcurrency, eager, k);
      a := GetAsync(outcome);
      if a.Got? {
        locked := false;
      }
    }

    /**
     * `runScriptOnWindow()`: retains the window for the run, registers the
     * run's listeners and sends the request to the window's renderer.
     */
    method RunScriptOnWindow(event: RunScriptEvent, w: Window)
      modifies this
      ensures State() == old(State()).(idlePool := SetDelete(old(idlePool), w), activePool := old(activePool)[event.id := w],
                                       listeners := old(listeners)[event.id := w],
                                       toRenderer := old(toRenderer) + [Delivery(w, RunScript(event))])
    {
      RetainWin(event.id, w);
      listeners := listeners[event.id := w];
      toRenderer := toRenderer + [Delivery(w, RunScript(event))];
    }

    /**
     * One attempt of `runScript()` for the `k`-th waiting request: the
     * request starts on a window, keeps waiting, or is answered with a
     * `run-rejected` carrying the creation error's `message`.
     */
    method AttemptRunScript(k: nat, outcome: CreateOutcome)
      requires Valid() && k < |acquiring|
      modifies this
      ensures Valid()
      ensures State() == Attempted(old(State()), maxConcurrency, k, outcome)
    {
      ghost var s0 := State();
      var event := acquiring[k].event;
      var a := GetIdleWindow(k, outcome);
      ghost var s1 := State();
      AcquiredThenFinished(s0, s1, a, maxConcurrency, k, outcome);
      match a {
        case Got(w) =>
          acquiring := RemoveAt(acquiring, k);
          RunScriptOnWindow(event, w);
        case Threw(e) =>
          acquiring := RemoveAt(acquiring, k);
          sent := sent + [RunResult(RunRejected(event.id, RejectionPayload(e)))];
        case Wait =>
      }
      assert State() == Finished(s1, k, event, a);
      assert Valid() by { AttemptKeepsInv(s0, maxConcurrency, eager, k, outcome); }
    }

    /**
     * `handle()`: a `run-script` request starts acquiring a window; an
     * `abort-script` request goes to the window active under its id, if any.
     */
    method Handle(message: InputMessage)
      requires Valid()
      requires message.RunScript? ==> FreshRunId(State(), message.event.id)
      modifies this
      ensures Valid()
      ensures message.RunScript? ==> State() == Enqueue(old(State()), message.event)
      ensures message.AbortScript? ==> State() == ForwardAbort(old(State()), message.id)
    {
      match message {
        case RunScript(event) =>
          EnqueueKeepsInv(State(), maxConcurrency, eager, event);
          acquiring := acquiring + [Acquisition(event, false)];
        case AbortScript(id) =>
          ForwardAbortKeepsInv(State(), maxConcurrency, eager, id);
          if id in activePool {
            toRenderer := toRenderer + [Delivery(activePool[id], message)];
          }
      }
    }

    /** The run's `cleanup`: its two listeners are removed and its window released. */
    method CleanupRun(id: Id)
      requires id in listeners
      modifies this
      ensures State() == Cleanup(old(State()), id)
    {
      var w := listeners[id];
      listeners := listeners - {id};
      ReleaseWin(id, w);
    }

    /**
     * The `ipcMain` listener of run `id`: the message goes to the client,
     * and a `run-resolved` or `run-rejected` ends the run.
     */
    method OnRendererMessage(id: Id, message: RunResultEvent)
      requires Valid()
      requires id in listeners ==> Responsive(State(), listeners[id])
      modifies this
      ensures Valid()
      ensures State() == Deliver(old(State()), id, message)
    {
      DeliverKeepsInv(State(), maxConcurrency, eager, id, message);
      if id in listeners {
        sent := sent + [RunResult(message)];
        if message.IsTerminal() {
          CleanupRun(id);
        }
      }
    }

    /**
     * "render-process-gone" on `w`: the run on it, if any, is rejected with
     * `RenderProcessGone`, cleaned up, and the window asked to close.
     */
    method OnRenderProcessGone(w: Window, reason: string, exitCode: int)
      requires Valid() && w < nextWindow && Responsive(State(), w)
      modifies this
      ensures Valid()
      ensures State() == Crash(old(State()), w, reason, exitCode)
    {
      ghost var s0 := State();
      if id :| id in listeners && listeners[id] == w {
        ghost var r := CrashUnfold(s0, maxConcurrency, eager, w, reason, exitCode, id);
        RejectCrashedRun(id, w, reason, exitCode);
      } else {
        crashed := crashed + {w};
        CrashOfFreeWindow(s0, maxConcurrency, eager, w, reason, exitCode);
      }
      assert State() == Crash(s0, w, reason, exitCode);
      assert Valid() by {
        CrashKeepsInv(s0, maxConcurrency, eager, w, reason, exitCode);
      }
    }

    /** The crash of the window run `id` is on: the run is rejected and cleaned up, and the window asked to close. */
    method RejectCrashedRun(id: Id, w: Window, reason: string, exitCode: int)
      requires id in listeners
      modifies this
      ensures State() == Cleanup(old(State()).(crashed := old(crashed) + {w},
                                                sent := old(sent) + [RunResult(RunRejected(id, Plain(CrashError(reason, exitCode))))]), id)
                           .(closing := old(closing) + {w})
    {
      crashed := crashed + {w};
      sent := sent + [RunResult(RunRejected(id, Plain(CrashError(reason, exitCode))))];
      CleanupRun(id);
      closing := closing + {w};
    }

    /** A window's "closed" event: `removeWin`; the creation it came from has already settled. */
    method OnClosed(w: Window)
      requires Valid() && w < nextWindow && w !in destroyed
      modifies this
      ensures Valid()
      ensures State() == Closed(old(State()), w)
    {
      ClosedKeepsInv(State(), maxConcurrency, eager, w);
      RemoveWin(w);
      closing := closing - {w};
    }

    /** One of the constructor's creations ends; nothing waits for it. */
    method OnEagerCreation(outcome: CreateOutcome)
      requires Valid() && pendingCreations > 0
      modifies this
      ensures Valid()
      ensures State() == EagerCreated(old(State()), outcome)
    {
      EagerKeepsInv(State(), maxConcurrency, eager, outcome);
      var _ := Create(outcome);
      pendingCreations := pendingCreations - 1;
    }
  }

  /**
   * With `minConcurrency == maxConcurrency == 1`, a request that arrives
   * before the constructor's window has loaded finds the pool empty and not
   * full and creates a second window; once the first loads too, the pool
   * holds two windows, above `maxConcurrency`.
   */
  method OvershootScenario() returns (pool: WindowPool)
    ensures pool.maxConcurrency == 1 && pool.Size() == 2
  {
    pool := new WindowPool(false, 1, 1);
    pool.Handle(RunScript(RunScriptEvent(0, "/tmp/script.js", "default", [], false, false)));
    pool.AttemptRunScript(0, FinishedLoad);
    pool.OnEagerCreation(FinishedLoad);
  }

  /**
   * A crash releases the crashed window back to the idle pool before its
   * "closed" event arrives, so the next request is given that window: the
   * second run is active on a window whose render process is gone.
   */
  method CrashedWindowReusedScenario() returns (pool: WindowPool, w: Window)
    ensures 1 in pool.activePool && pool.activePool[1] == w && w in pool.crashed && w !in pool.destroyed
  {
    pool := new WindowPool(false, 0, 1);
    w := pool.nextWindow;
    pool.Handle(RunScript(RunScriptEvent(0, "/tmp/first.js", "default", [], false, false)));
    assert |pool.acquiring| == 1 && !pool.acquiring[0].holdsLock && !pool.locked;
    assert pool.idlePool == [] && pool.activePool == map[];
    pool.AttemptRunScript(0, FinishedLoad);
    assert pool.listeners == map[0 := w] && pool.idlePool == [] && pool.acquiring == [] && !pool.locked;
    assert w < pool.nextWindow && pool.crashed == {} && w !in pool.destroyed;
    ghost var r := CrashUnfold(pool.State(), pool.maxConcurrency, pool.eager, w, "crashed", 1, 0);
    assert SetAdd(r.idlePool, w) == [w];
    pool.OnRenderProcessGone(w, "crashed", 1);
    assert pool.idlePool == [w] && w in pool.crashed && w !in pool.destroyed;
    assert pool.acquiring == [] && !pool.locked;
    pool.Handle(RunScript(RunScriptEvent(1, "/tmp/second.js", "default", [], false, false)));
    pool.AttemptRunScript(0, FinishedLoad);
  }

  /**
   * A run given a crashed window is stranded by the window's "closed"
   * event: its listener stays registered on a destroyed window, which
   * sends no more messages and cannot crash again, and the run is no
   * longer active, so no step settles it.
   */
  lemma ClosedStrandsRun(s: PoolState, maxConcurrency: int, eager: nat, w: Window, id: Id)
    requires Inv(s, maxConcurrency, eager) && RunOn(s, id, w)
    ensures RunOn(Closed(s, w), id, w) && !Responsive(Closed(s, w), w)
    ensures id !in Closed(s, w).activePool
  {
  }

  /** Locked with no request holding the lock: no request can take it again. */
  ghost predicate Stuck(s: PoolState)
  {
    s.locked && forall i :: 0 <= i < |s.acquiring| ==> !s.acquiring[i].holdsLock
  }

  /**
   * A creation that rejects inside `getAsync` answers the request with one
   * `run-rejected` and touches neither pool, but leaves `locked` set with
   * no request holding it, as `getIdleWindow` never reaches its reset.
   */
  lemma FailedCreationLeavesLock(s: PoolState, maxConcurrency: int, eager: nat, k: nat, outcome: CreateOutcome)
    requires Inv(s, maxConcurrency, eager) && k < |s.acquiring|
    requires s.acquiring[k].holdsLock || !s.locked
    requires |s.idlePool| == 0 && SizeOf(s) < maxConcurrency && !outcome.FinishedLoad?
    ensures var t := Attempted(s, maxConcurrency, k, outcome);
            && t.idlePool == s.idlePool && t.activePool == s.activePool && t.listeners == s.listeners
            && t.sent == s.sent + [RunResult(RunRejected(s.acquiring[k].event.id,
                 if outcome.FailedLoad? then Text(LoadFailureMessage(outcome.errorCode, outcome.errorDescription)) else Absent))]
            && t.acquiring == RemoveAt(s.acquiring, k)
    ensures Stuck(Attempted(s, maxConcurrency, k, outcome))
  {
    var t := Attempted(s, maxConcurrency, k, outcome);
    forall i | 0 <= i < |t.acquiring| ensures !t.acquiring[i].holdsLock {
      var i' := if i < k then i else i + 1;
      assert t.acquiring[i] == s.acquiring[i'];
    }
  }

  /** Once stuck, every attempt of every waiting request only waits, and new requests change nothing. */
  lemma StuckStaysStuck(s: PoolState, maxConcurrency: int, k: nat, outcome: CreateOutcome, event: RunScriptEvent)
    requires Stuck(s) && k < |s.acquiring|
    ensures Attempted(s, maxConcurrency, k, outcome) == s
    ensures Stuck(Enqueue(s, event))
  {
  }
}
