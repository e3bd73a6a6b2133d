/** The out-of-process COM server: its lock count, the registration of its class
    factory and the start / message loop / clean-up sequence of `Run`.
    The native Win32 and COM calls are not executed: their results are passed in,
    and the calls the server makes are recorded in ghost logs. */
module OutOfProcCom {
  import opened ComTypes
  import ClassIdAttribute

  /** The factory type `Run` registers: the generic factory that `Run(Type, Type)`
      builds for a COM class and its interface, or any type given to `Run(string, Type)`. */
  datatype FactoryType =
    | GenericFactoryOf(comClass: ClassIdAttribute.TypeDescriptor, comInterface: string)
    | OtherFactory(name: string)

  /** `_gcTimer`: null, a running timer, or a timer that has been disposed. */
  datatype GcTimer = NoTimer | Active | Disposed

  /** A message in the main thread's queue, as `GetMessage` retrieves it. */
  datatype Msg = WmQuit | OtherMessage(id: nat)

  /** The id of an existing thread: Windows never gives a thread the id 0, so a
      `PostThreadMessage` to 0 reaches no queue. */
  type ThreadId = x: UInt32 | x != 0 witness 1

  /** What the native layer answers during `PreMessageLoop`: the HRESULT and the
      cookie of `CoRegisterClassObject`, the HRESULT of `CoResumeClassObjects`,
      the value of `GetCurrentThreadId`, and the messages other parties posted to that
      thread other than through `PostToMainThread` (placed after the messages the
      server knows are waiting there). */
  datatype NativeResults = NativeResults(
    registerResult: Int32,
    cookie: UInt32,
    resumeResult: Int32,
    currentThreadId: ThreadId,
    pendingMessages: seq<Msg>)

  /** The queue the message loop starts on, given the messages `left` that the server
      put in the queue of `lastThread`, the thread recorded before: they are still
      there when the loop runs on that same thread again, and the messages posted by
      others follow them. */
  function StartQueue(left: seq<Msg>, lastThread: UInt32, native: NativeResults): (q: seq<Msg>) {
    (if native.currentThreadId == lastThread then left else []) + native.pendingMessages
  }

  /** One `CoRegisterClassObject` call: the CLSID parsed from the class id string and
      a new instance of the factory type. */
  datatype Registration = Registration(clsid: Guid, factoryType: FactoryType)

  /** The cookies `CoRevokeClassObject` is called with: only a nonzero cookie is revoked. */
  function Revocation(cookie: UInt32): (r: seq<UInt32>) {
    if cookie != 0 then [cookie] else []
  }

  // ---------------------------------------------------------------------------
  // The lock count as a function of the Lock/Unlock calls made since a reset.

  /** `Interlocked.Increment` on an `int`: wraps from `int.MaxValue` to `int.MinValue`. */
  function Increment(x: Int32): (r: Int32)
    ensures x < MaxInt32 ==> r == x + 1
    ensures x == MaxInt32 ==> r == MinInt32
  {
    if x == MaxInt32 then MinInt32 else x + 1
  }

  /** `Interlocked.Decrement` on an `int`: no lower clamp, wraps only at `int.MinValue`. */
  function Decrement(x: Int32): (r: Int32)
    ensures x > MinInt32 ==> r == x - 1
    ensures x == MinInt32 ==> r == MaxInt32
  {
    if x == MinInt32 then MaxInt32 else x - 1
  }

  datatype CounterOp = LockOp | UnlockOp

  function Step(count: Int32, op: CounterOp): (r: Int32) {
    match op
    case LockOp => Increment(count)
    case UnlockOp => Decrement(count)
  }

  /** The count after applying `ops`, in order, to `start`. */
  function Replay(start: Int32, ops: seq<CounterOp>): (r: Int32)
    decreases |ops|
  {
    if ops == [] then start else Step(Replay(start, ops[..|ops| - 1]), ops[|ops| - 1])
  }

  /** How many of `ops` are an `Unlock` whose new count is 0, i.e. post `WM_QUIT`. */
  function QuitCount(start: Int32, ops: seq<CounterOp>): (n: nat)
    decreases |ops|
  {
    if ops == [] then 0
    else QuitCount(start, ops[..|ops| - 1]) +
         (if ops[|ops| - 1] == UnlockOp && Replay(start, ops) == 0 then 1 else 0)
  }

  function Delta(op: CounterOp): (d: int) {
    if op == LockOp then 1 else -1
  }

  /** Each step is a 32-bit truncated addition of +1 or -1. */
  lemma StepIsWrapped(count: Int32, op: CounterOp)
    ensures Step(count, op) == Wrap32(count + Delta(op))
  {
    if count == MaxInt32 && op == LockOp {
      assert Wrap32(MaxInt32 + 1) == MinInt32;
    } else if count == MinInt32 && op == UnlockOp {
      assert Wrap32(MinInt32 - 1) == MaxInt32;
    }
  }

  lemma ReplayAppend(start: Int32, ops: seq<CounterOp>, op: CounterOp)
    ensures Replay(start, ops + [op]) == Step(Replay(start, ops), op)
    ensures QuitCount(start, ops + [op]) ==
            QuitCount(start, ops) + (if op == UnlockOp && Step(Replay(start, ops), op) == 0 then 1 else 0)
  {
    assert (ops + [op])[..|ops|] == ops;
  }

  /** The count is the start plus the number of Locks minus the number of Unlocks,
      truncated to 32 bits, whatever their order. */
  lemma {:induction false} ReplayIsNetCount(start: Int32, ops: seq<CounterOp>)
    ensures Replay(start, ops) == Wrap32(start + multiset(ops)[LockOp] - multiset(ops)[UnlockOp])
    decreases |ops|
  {
    if ops != [] {
      var init, last := ops[..|ops| - 1], ops[|ops| - 1];
      assert ops == init + [last];
      var net := start + multiset(init)[LockOp] - multiset(init)[UnlockOp];
      assert start + multiset(ops)[LockOp] - multiset(ops)[UnlockOp] == net + Delta(last) by {
        assert multiset(ops) == multiset(init) + multiset{last};
      }
      ReplayIsNetCount(start, init);
      ReplayAppend(start, init, last);
      StepIsWrapped(Replay(start, init), last);
      WrapShift(net, Delta(last));
    }
  }

  /** From 0, after n Locks and m <= n Unlocks in any order, the count is n - m. */
  lemma CountFromZero(ops: seq<CounterOp>)
    requires multiset(ops)[UnlockOp] <= multiset(ops)[LockOp] <= MaxInt32
    ensures Replay(0, ops) == multiset(ops)[LockOp] - multiset(ops)[UnlockOp]
  {
    ReplayIsNetCount(0, ops);
  }

  /** A Lock directly followed by an Unlock restores the count, and posts `WM_QUIT`
      exactly when the count it restores is 0. */
  lemma LockUnlockRestores(start: Int32, ops: seq<CounterOp>)
    ensures Replay(start, ops + [LockOp, UnlockOp]) == Replay(start, ops)
    ensures QuitCount(start, ops + [LockOp, UnlockOp]) ==
            QuitCount(start, ops) + (if Replay(start, ops) == 0 then 1 else 0)
  {
    ReplayAppend(start, ops, LockOp);
    assert ops + [LockOp, UnlockOp] == (ops + [LockOp]) + [UnlockOp];
    ReplayAppend(start, ops + [LockOp], UnlockOp);
  }

  /** `n` copies of `x`. */
  function Repeat<T>(x: T, n: nat): (s: seq<T>) {
    if n == 0 then [] else Repeat(x, n - 1) + [x]
  }

  lemma {:induction false} LocksOnly(n: nat)
    requires n <= MaxInt32
    ensures Replay(0, Repeat(LockOp, n)) == n
    ensures QuitCount(0, Repeat(LockOp, n)) == 0
  {
    if n > 0 {
      var before := Repeat(LockOp, n - 1);
      assert Repeat(LockOp, n) == before + [LockOp];
      LocksOnly(n - 1);
      ReplayAppend(0, before, LockOp);
    }
  }

  /** Starting from 0, n objects created and then k <= n of them released: the count
      is n - k, and `WM_QUIT` has been posted once if the last one went (k == n > 0)
      and never otherwise. */
  lemma {:induction false} LocksThenUnlocks(n: nat, k: nat)
    requires k <= n <= MaxInt32
    ensures Replay(0, Repeat(LockOp, n) + Repeat(UnlockOp, k)) == n - k
    ensures QuitCount(0, Repeat(LockOp, n) + Repeat(UnlockOp, k)) == if k == n && n > 0 then 1 else 0
  {
    if k == 0 {
      assert Repeat(LockOp, n) + Repeat(UnlockOp, 0) == Repeat(LockOp, n);
      LocksOnly(n);
    } else {
      var before := Repeat(LockOp, n) + Repeat(UnlockOp, k - 1);
      assert Repeat(UnlockOp, k) == Repeat(UnlockOp, k - 1) + [UnlockOp];
      assert Repeat(LockOp, n) + Repeat(UnlockOp, k) == before + [UnlockOp];
      LocksThenUnlocks(n, k - 1);
      ReplayAppend(0, before, UnlockOp);
    }
  }

  // ---------------------------------------------------------------------------
  // The message loop as a function of what happens while it runs.

  /** One thing that happens while the main thread is in its message loop: another
      party posts a message to the main thread, another thread creates an object
      (`Lock`) or releases one (`Unlock`), or the main thread's `GetMessage` takes the
      head of its queue; on an empty queue `GetMessage` keeps waiting. */
  datatype Event = Incoming(msg: Msg) | ObjectCreated | ObjectReleased | Pump

  /** The Lock/Unlock call an event makes, if any. */
  function CallOf(e: Event): (ops: seq<CounterOp>) {
    match e
    case ObjectCreated => [LockOp]
    case ObjectReleased => [UnlockOp]
    case _ => []
  }

  /** The Lock/Unlock calls among `events`, in order. */
  function Calls(events: seq<Event>): (ops: seq<CounterOp>)
    decreases |events|
  {
    if events == [] then [] else Calls(events[..|events| - 1]) + CallOf(events[|events| - 1])
  }

  /** What the last of `events` puts in the main thread's queue: the message posted,
      or the `WM_QUIT` of an `Unlock` that brought the count from `start` to 0. */
  function ArrivalOf(start: Int32, events: seq<Event>): (m: seq<Msg>)
    requires events != []
  {
    match events[|events| - 1]
    case Incoming(msg) => [msg]
    case ObjectReleased => if Replay(start, Calls(events)) == 0 then [WmQuit] else []
    case _ => []
  }

  /** Every message `events` add to the main thread's queue, in order, when the count
      is `start` before the first of them. */
  function Arrivals(start: Int32, events: seq<Event>): (ms: seq<Msg>)
    decreases |events|
  {
    if events == [] then [] else Arrivals(start, events[..|events| - 1]) + ArrivalOf(start, events)
  }

  /** What the message loop has seen so far: the messages `GetMessage` retrieved, the
      messages still waiting, the lock count and how many `WM_QUIT` the count posted. */
  datatype LoopState = LoopState(retrieved: seq<Msg>, waiting: seq<Msg>, count: Int32, posts: nat)

  /** One event: a posted message joins the back of the queue, a creation increments the
      count, a release decrements it and posts `WM_QUIT` when it reaches 0, and a
      `GetMessage` takes the oldest waiting message, if any. */
  function LoopStep(s: LoopState, e: Event): (t: LoopState) {
    match e
    case Incoming(msg) => s.(waiting := s.waiting + [msg])
    case ObjectCreated => s.(count := Increment(s.count))
    case ObjectReleased =>
      var c := Decrement(s.count);
      if c == 0 then s.(count := c, waiting := s.waiting + [WmQuit], posts := s.posts + 1)
      else s.(count := c)
    case Pump =>
      if s.waiting == [] then s
      else s.(retrieved := s.retrieved + [s.waiting[0]], waiting := s.waiting[1..])
  }

  /** The loop state after `events`, one `LoopStep` each, in order. */
  function RunLoop(s: LoopState, events: seq<Event>): (t: LoopState)
    decreases |events|
  {
    if events == [] then s else LoopStep(RunLoop(s, events[..|events| - 1]), events[|events| - 1])
  }

  /** The loop state at the start of the loop: nothing retrieved, `queue` waiting. */
  function LoopStart(queue: seq<Msg>, count: Int32): (s: LoopState) {
    LoopState([], queue, count, 0)
  }

  /** Whether the loop, started on `queue` with the count at `count`, has retrieved a
      `WM_QUIT` once `events` have happened. */
  predicate QuitsAfter(queue: seq<Msg>, count: Int32, events: seq<Event>) {
    WmQuit in RunLoop(LoopStart(queue, count), events).retrieved
  }

  lemma RunLoopStep(s: LoopState, events: seq<Event>, i: nat)
    requires i < |events|
    ensures RunLoop(s, events[..i + 1]) == LoopStep(RunLoop(s, events[..i]), events[i])
  {
    assert events[..i + 1][..i] == events[..i];
  }

  /** The loop's count is the replay of the Lock/Unlock calls among the events, and it
      posts one `WM_QUIT` per Unlock that reaches 0. */
  lemma {:induction false} RunLoopIsReplay(s: LoopState, events: seq<Event>)
    ensures RunLoop(s, events).count == Replay(s.count, Calls(events))
    ensures RunLoop(s, events).posts == s.posts + QuitCount(s.count, Calls(events))
    decreases |events|
  {
    if events != [] {
      var before, last := events[..|events| - 1], events[|events| - 1];
      RunLoopIsReplay(s, before);
      assert Calls(events) == Calls(before) + CallOf(last);
      match last {
        case ObjectCreated =>
          ReplayAppend(s.count, Calls(before), LockOp);
        case ObjectReleased =>
          ReplayAppend(s.count, Calls(before), UnlockOp);
        case _ =>
          assert Calls(events) == Calls(before);
      }
    }
  }

  /** What one event adds to the queue, seen from the loop state before it: the
      arrival `ArrivalOf` gives for the last event, computed from the loop's count
      instead of from the replay of the events before it (`RunLoopIsFifo` uses that
      the two agree). */
  function StepArrival(t: LoopState, e: Event): (m: seq<Msg>) {
    match e
    case Incoming(msg) => [msg]
    case ObjectReleased => if Decrement(t.count) == 0 then [WmQuit] else []
    case _ => []
  }

  /** One step keeps the retrieved messages followed by the waiting ones as they were,
      with the step's arrival appended. */
  lemma LoopStepIsFifo(t: LoopState, e: Event)
    ensures LoopStep(t, e).retrieved + LoopStep(t, e).waiting ==
            t.retrieved + t.waiting + StepArrival(t, e)
  {
    match e {
      case Incoming(msg) =>
        assert t.retrieved + (t.waiting + [msg]) == (t.retrieved + t.waiting) + [msg];
      case ObjectCreated =>
      case ObjectReleased =>
        assert t.retrieved + (t.waiting + [WmQuit]) == (t.retrieved + t.waiting) + [WmQuit];
      case Pump =>
        if t.waiting != [] {
          assert (t.retrieved + [t.waiting[0]]) + t.waiting[1..] == t.retrieved + t.waiting;
        }
    }
  }

  /** Messages leave the queue in the order they arrived: what has been retrieved,
      followed by what is waiting, is the initial queue followed by the arrivals. */
  lemma {:induction false} RunLoopIsFifo(s: LoopState, events: seq<Event>)
    ensures RunLoop(s, events).retrieved + RunLoop(s, events).waiting ==
            s.retrieved + s.waiting + Arrivals(s.count, events)
    decreases |events|
  {
    if events != [] {
      var before, last := events[..|events| - 1], events[|events| - 1];
      var t := RunLoop(s, before);
      RunLoopIsFifo(s, before);
      RunLoopIsReplay(s, before);
      LoopStepIsFifo(t, last);
      if last.ObjectReleased? {
        assert Calls(events) == Calls(before) + [UnlockOp];
        ReplayAppend(s.count, Calls(before), UnlockOp);
      }
      assert ArrivalOf(s.count, events) == StepArrival(t, last);
      assert s.retrieved + s.waiting + Arrivals(s.count, events) ==
             (s.retrieved + s.waiting + Arrivals(s.count, before)) + StepArrival(t, last);
    }
  }

  /** The `WM_QUIT` messages reaching the queue are the ones other parties post plus one
      per `Unlock` that brings the count to 0. */
  lemma {:induction false} QuitArrivals(start: Int32, events: seq<Event>)
    ensures multiset(Arrivals(start, events))[WmQuit] ==
            multiset(events)[Incoming(WmQuit)] + QuitCount(start, Calls(events))
    decreases |events|
  {
    if events != [] {
      var before, last := events[..|events| - 1], events[|events| - 1];
      assert events == before + [last];
      assert multiset(events) == multiset(before) + multiset{last};
      QuitArrivals(start, before);
      ReplayAppend(start, Calls(before), UnlockOp);
      ReplayAppend(start, Calls(before), LockOp);
      assert Calls(events) == Calls(before) + CallOf(last);
      if last.ObjectReleased? {
        assert Calls(events) == Calls(before) + [UnlockOp];
      } else if last.ObjectCreated? {
        assert Calls(events) == Calls(before) + [LockOp];
      } else {
        assert Calls(events) == Calls(before);
      }
    }
  }

  /** When nobody else posts `WM_QUIT`, the loop can only retrieve one after an
      `Unlock` has brought the count to 0 and posted it. */
  lemma QuitNeedsLastRelease(queue: seq<Msg>, count: Int32, events: seq<Event>)
    requires WmQuit !in queue && Incoming(WmQuit) !in events
    requires QuitsAfter(queue, count, events)
    ensures RunLoop(LoopStart(queue, count), events).posts > 0
  {
    var t := RunLoop(LoopStart(queue, count), events);
    RunLoopIsReplay(LoopStart(queue, count), events);
    RunLoopIsFifo(LoopStart(queue, count), events);
    assert WmQuit in t.retrieved + t.waiting;
    assert WmQuit in Arrivals(count, events);
    QuitArrivals(count, events);
  }

  /** Living through `a` and then `b` is living through `a + b`. */
  lemma {:induction false} RunLoopAppend(s: LoopState, a: seq<Event>, b: seq<Event>)
    ensures RunLoop(s, a + b) == RunLoop(RunLoop(s, a), b)
    decreases |b|
  {
    if b == [] {
      assert a + b == a;
    } else {
      var init := b[..|b| - 1];
      assert (a + b)[..|a + b| - 1] == a + init;
      RunLoopAppend(s, a, init);
    }
  }

  /** `n` calls of `GetMessage` on a queue of at least `n` messages retrieve its first `n`. */
  lemma {:induction false} PumpsRetrieve(t: LoopState, n: nat)
    requires n <= |t.waiting|
    ensures RunLoop(t, Repeat(Pump, n)) ==
            t.(retrieved := t.retrieved + t.waiting[..n], waiting := t.waiting[n..])
  {
    if n == 0 {
      assert t.retrieved + t.waiting[..0] == t.retrieved;
    } else {
      var pumps := Repeat(Pump, n);
      assert pumps[..|pumps| - 1] == Repeat(Pump, n - 1);
      PumpsRetrieve(t, n - 1);
      assert t.waiting[n - 1..][1..] == t.waiting[n..];
      assert t.waiting[..n] == t.waiting[..n - 1] + [t.waiting[n - 1]];
    }
  }

  /** Once an `Unlock` has brought the count to 0 and posted `WM_QUIT`, the loop has
      retrieved a `WM_QUIT` after one more `GetMessage` per waiting message. */
  lemma PostedQuitEndsLoop(queue: seq<Msg>, count: Int32, events: seq<Event>)
    requires RunLoop(LoopStart(queue, count), events).posts > 0
    ensures QuitsAfter(queue, count,
                       events + Repeat(Pump, |RunLoop(LoopStart(queue, count), events).waiting|))
  {
    var s0 := LoopStart(queue, count);
    var t := RunLoop(s0, events);
    var n := |t.waiting|;
    RunLoopIsReplay(s0, events);
    QuitArrivals(count, events);
    assert WmQuit in Arrivals(count, events);
    RunLoopIsFifo(s0, events);
    assert WmQuit in t.retrieved + t.waiting;
    RunLoopAppend(s0, events, Repeat(Pump, n));
    PumpsRetrieve(t, n);
    assert t.waiting[..n] == t.waiting;
  }

  /** From a fresh loop on `q`, `n` calls of `GetMessage` retrieve the first `n` messages. */
  lemma PumpsTakePrefix(q: seq<Msg>, n: nat)
    requires n <= |q|
    ensures RunLoop(LoopStart(q, 0), Repeat(Pump, n)).retrieved == q[..n]
  {
    PumpsRetrieve(LoopStart(q, 0), n);
  }

  /** A `WM_QUIT` posted between runs to the recorded thread, by an object that outlived
      the previous loop, behind the messages `left` in that thread's queue, ends the next
      loop on that thread once `GetMessage` has taken the messages ahead of it and then
      the `WM_QUIT` itself; if none of `left` is a `WM_QUIT`, not before. */
  lemma LeftoverQuitEndsNextLoop(left: seq<Msg>, thread: ThreadId, native: NativeResults)
    requires native.currentThreadId == thread
    ensures QuitsAfter(StartQueue(left + [WmQuit], thread, native), 0, Repeat(Pump, |left| + 1))
    ensures WmQuit !in left ==>
              !QuitsAfter(StartQueue(left + [WmQuit], thread, native), 0, Repeat(Pump, |left|))
  {
    var q := StartQueue(left + [WmQuit], thread, native);
    assert q == (left + [WmQuit]) + native.pendingMessages;
    PumpsTakePrefix(q, |left| + 1);
    assert q[..|left| + 1] == left + [WmQuit];
    PumpsTakePrefix(q, |left|);
    assert q[..|left|] == left;
  }

  /** The `WM_QUIT` posted when the count last reached 0 is not taken back by a later
      `Lock`: an object created after the post but before `GetMessage` retrieves it
      does not keep the loop running, which ends with the count at 1. */
  lemma StaleQuit()
    ensures var events := [ObjectCreated, ObjectReleased, ObjectCreated, Pump];
            && QuitsAfter([], 0, events)
            && RunLoop(LoopStart([], 0), events).count == 1
            && RunLoop(LoopStart([], 0), events).posts == 1
  {
    var events := [ObjectCreated, ObjectReleased, ObjectCreated, Pump];
    var s0 := LoopStart([], 0);
    assert events[..0] == [] && events[..4] == events;
    RunLoopStep(s0, events, 0);
    RunLoopStep(s0, events, 1);
    RunLoopStep(s0, events, 2);
    RunLoopStep(s0, events, 3);
    assert RunLoop(s0, events[..2]) == LoopState([], [WmQuit], 0, 1);
  }

  /** What the message loop knows after living through the first `i` of `events`,
      started on `queue0` with the count at `count0`: `t` is the loop state then, no
      shorter prefix had retrieved `WM_QUIT`, and `dispatched` is every message
      retrieved, followed by the `WM_QUIT` once `quit` is set. */
  ghost predicate LoopInvariant(queue0: seq<Msg>, count0: Int32, events: seq<Event>, i: nat,
                                t: LoopState, quit: bool, dispatched: seq<Msg>)
  {
    && i <= |events|
    && t == RunLoop(LoopStart(queue0, count0), events[..i])
    && (forall j :: 0 <= j < i ==> !QuitsAfter(queue0, count0, events[..j]))
    && t.retrieved == (if quit then dispatched + [WmQuit] else dispatched)
    && WmQuit !in dispatched
  }

  /** One more event, after which `GetMessage` has retrieved `taken` if anything: the
      loop knows the same about one more event, and it has quit iff `taken` is `WM_QUIT`.
      When `events` lead to a retrieved `WM_QUIT`, the loop does not run out of them
      before it quits. */
  lemma LoopAdvance(queue0: seq<Msg>, count0: Int32, events: seq<Event>, i: nat,
                    t: LoopState, dispatched: seq<Msg>, taken: Option<Msg>)
    requires LoopInvariant(queue0, count0, events, i, t, false, dispatched) && i < |events|
    requires LoopStep(t, events[i]).retrieved == t.retrieved + (if taken.Some? then [taken.value] else [])
    requires QuitsAfter(queue0, count0, events)
    ensures taken != Some(WmQuit) ==> i + 1 < |events|
    ensures LoopInvariant(queue0, count0, events, i + 1, LoopStep(t, events[i]), taken == Some(WmQuit),
                          if taken.Some? && taken != Some(WmQuit) then dispatched + [taken.value] else dispatched)
  {
    RunLoopStep(LoopStart(queue0, count0), events, i);
    assert !QuitsAfter(queue0, count0, events[..i]);
    assert events[..|events|] == events;
  }

  // ---------------------------------------------------------------------------
  // The effect of `Run` on the server, stated on snapshots of its fields.

  /** The server's fields that `Run` changes, and its ghost logs. */
  datatype ServerState = ServerState(
    registrations: seq<Registration>, revoked: seq<UInt32>, quitPosts: seq<UInt32>,
    cookie: UInt32, mainThreadId: UInt32, lockCnt: Int32, gcTimer: GcTimer, queue: seq<Msg>)

  /** The register / loop / clean-up sequence of `Run`, from `s` to `s'`, for the CLSID
      `clsid`. The class factory is always registered and the cookie stored. A failed
      registration throws and changes nothing else; a failed resume revokes a nonzero
      cookie and throws. Otherwise the loop runs on the messages already waiting, is
      left at the first of `handled` events after which `WM_QUIT` has been retrieved,
      the count and the posts are those `RunLoop` gives, the cookie is revoked if
      nonzero and the timer disposed. */
  predicate Served(s: ServerState, s': ServerState, clsid: Guid, factoryType: FactoryType,
                   native: NativeResults, events: seq<Event>, error: Option<Exception>, handled: nat)
  {
    && s'.registrations == s.registrations + [Registration(clsid, factoryType)]
    && s'.cookie == native.cookie
    && (native.registerResult != 0 ==>
          && error == Some(ApplicationException(CoRegisterClassObject, native.registerResult))
          && s' == s.(registrations := s'.registrations, cookie := s'.cookie))
    && (native.registerResult == 0 && native.resumeResult != 0 ==>
          && error == Some(ApplicationException(CoResumeClassObjects, native.resumeResult))
          && s' == s.(registrations := s'.registrations, cookie := s'.cookie,
                      revoked := s.revoked + Revocation(native.cookie)))
    && (native.registerResult == 0 && native.resumeResult == 0 ==>
          && error == None
          && handled <= |events|
          && var pending := StartQueue(s.queue, s.mainThreadId, native);
          var t := RunLoop(LoopStart(pending, 0), events[..handled]);
          && QuitsAfter(pending, 0, events[..handled])
          && (forall j :: 0 <= j < handled ==> !QuitsAfter(pending, 0, events[..j]))
          && s'.lockCnt == t.count && s'.queue == t.waiting
          && s'.quitPosts == s.quitPosts + Repeat<UInt32>(native.currentThreadId, t.posts)
          && s'.revoked == s.revoked + Revocation(native.cookie)
          && s'.mainThreadId == native.currentThreadId && s'.gcTimer == Disposed)
  }

  // ---------------------------------------------------------------------------

  class OutOfProcServer {
    /** `new Guid(string)`, which `PreMessageLoop` and the class factory apply to a ClassId. */
    const parseGuid: string -> Guid
    var classFactoryType: Option<FactoryType>
    var classId: Option<string>
    /** `_bRunning` */
    var running: bool
    /** `_nMainThreadID`: the thread that runs the message loop. */
    var mainThreadId: UInt32
    /** `_nLockCnt`: the number of live COM objects. */
    var lockCnt: Int32
    /** `_gcTimer` */
    var gcTimer: GcTimer
    /** `_cookieSimpleObj`: the registration cookie. */
    var cookie: UInt32
    /** The messages waiting in the queue of the thread `mainThreadId`, oldest first, as
        far as the server has seen them: the `WM_QUIT` messages it posted there and, from
        the start of each loop, the messages others posted. Empty while no thread is
        recorded. */
    var queue: seq<Msg>

    /** Every `CoRegisterClassObject` call, in order. */
    ghost var registrations: seq<Registration>
    /** Every cookie passed to `CoRevokeClassObject`, in order. */
    ghost var revoked: seq<UInt32>
    /** The target thread of every `WM_QUIT` posted with `PostThreadMessage`, in order. */
    ghost var quitPosts: seq<UInt32>
    /** The count at the last reset, the Lock/Unlock calls since, and the posts made before it. */
    ghost var counterBase: Int32
    ghost var counterOps: seq<CounterOp>
    ghost var postsAtReset: seq<UInt32>

    /** The count is the replay of the Lock/Unlock calls since the last reset, and every
        `WM_QUIT` posted since then went to the main thread, one per Unlock that reached 0. */
    ghost predicate Valid()
      reads this
    {
      && lockCnt == Replay(counterBase, counterOps)
      && quitPosts == postsAtReset + Repeat(mainThreadId, QuitCount(counterBase, counterOps))
    }

    ghost function Snapshot(): (s: ServerState)
      reads this`registrations, this`revoked, this`quitPosts, this`cookie, this`mainThreadId,
            this`lockCnt, this`gcTimer, this`queue
    {
      ServerState(registrations, revoked, quitPosts, cookie, mainThreadId, lockCnt, gcTimer, queue)
    }

    constructor (parseGuid: string -> Guid)
      ensures Valid()
      ensures this.parseGuid == parseGuid
      ensures classFactoryType == None && classId == None && !running
      ensures mainThreadId == 0 && lockCnt == 0 && gcTimer == NoTimer && cookie == 0 && queue == []
      ensures registrations == [] && revoked == [] && quitPosts == []
    {
      this.parseGuid := parseGuid;
      classFactoryType, classId, running := None, None, false;
      mainThreadId, lockCnt, gcTimer, cookie, queue := 0, 0, NoTimer, 0, [];
      registrations, revoked, quitPosts := [], [], [];
      counterBase, counterOps, postsAtReset := 0, [], [];
    }

    /** Increases the lock count and returns the new count. */
    method Lock() returns (r: Int32)
      requires Valid()
      modifies this`lockCnt, this`counterOps
      ensures Valid()
      ensures r == lockCnt == Increment(old(lockCnt))
      ensures counterOps == old(counterOps) + [LockOp]
    {
      ReplayAppend(counterBase, counterOps, LockOp);
      lockCnt := Increment(lockCnt);
      counterOps := counterOps + [LockOp];
      r := lockCnt;
    }

    /** Decreases the lock count and returns the new count; when the new count is
        exactly 0, posts `WM_QUIT` to the main thread's queue. */
    method Unlock() returns (r: Int32)
      requires Valid()
      modifies this`lockCnt, this`counterOps, this`quitPosts, this`queue
      ensures Valid()
      ensures r == lockCnt == Decrement(old(lockCnt))
      ensures quitPosts == old(quitPosts) + (if r == 0 then [mainThreadId] else [])
      ensures queue == old(queue) + (if r == 0 && mainThreadId != 0 then [WmQuit] else [])
      ensures counterOps == old(counterOps) + [UnlockOp]
    {
      ReplayAppend(counterBase, counterOps, UnlockOp);
      lockCnt := Decrement(lockCnt);
      counterOps := counterOps + [UnlockOp];
      r := lockCnt;
      if r == 0 {
        assert postsAtReset + Repeat(mainThreadId, QuitCount(counterBase, counterOps)) ==
               quitPosts + [mainThreadId];
        quitPosts := quitPosts + [mainThreadId];
        if mainThreadId != 0 {
          queue := queue + [WmQuit];
        }
      }
    }

    method GetLockCount() returns (r: Int32)
      ensures r == lockCnt
    {
      r := lockCnt;
    }

    /** Registers the class factory and resumes activation; on success records the main
        thread, zeroes the count and starts the GC timer. A failed registration throws
        before anything else is touched; a failed resume revokes the registration first. */
    method PreMessageLoop(native: NativeResults) returns (error: Option<Exception>)
      requires Valid()
      requires classId.Some? && classFactoryType.Some?
      modifies this`cookie, this`mainThreadId, this`lockCnt, this`gcTimer, this`queue,
               this`registrations, this`revoked, this`counterBase, this`counterOps, this`postsAtReset
      ensures Valid()
      ensures registrations ==
              old(registrations) + [Registration(parseGuid(classId.value), classFactoryType.value)]
      ensures cookie == native.cookie
      ensures native.registerResult != 0 ==>
                && error == Some(ApplicationException(CoRegisterClassObject, native.registerResult))
                && revoked == old(revoked)
      ensures native.registerResult == 0 && native.resumeResult != 0 ==>
                && error == Some(ApplicationException(CoResumeClassObjects, native.resumeResult))
                && revoked == old(revoked) + Revocation(native.cookie)
      ensures error.Some? ==>
                unchanged(this`mainThreadId, this`lockCnt, this`gcTimer, this`queue,
                          this`counterBase, this`counterOps, this`postsAtReset)
      ensures native.registerResult == 0 && native.resumeResult == 0 ==>
                && error == None
                && revoked == old(revoked)
                && mainThreadId == native.currentThreadId
                && queue == StartQueue(old(queue), old(mainThreadId), native)
                && lockCnt == 0 && gcTimer == Active
                && counterBase == 0 && counterOps == [] && postsAtReset == quitPosts
    {
      var clsid := parseGuid(classId.value);
      registrations := registrations + [Registration(clsid, classFactoryType.value)];
      cookie := native.cookie;
      if native.registerResult != 0 {
        return Some(ApplicationException(CoRegisterClassObject, native.registerResult));
      }
      if native.resumeResult != 0 {
        if cookie != 0 {
          revoked := revoked + [cookie];
        }
        return Some(ApplicationException(CoResumeClassObjects, native.resumeResult));
      }
      InitializeMembers(native);
      error := None;
    }

    /** The initialization after a successful registration: records the thread that
        will run the loop and the queue it starts on, zeroes the count and starts the
        GC timer. */
    method InitializeMembers(native: NativeResults)
      modifies this`mainThreadId, this`queue, this`lockCnt, this`gcTimer,
               this`counterBase, this`counterOps, this`postsAtReset
      ensures Valid()
      ensures mainThreadId == native.currentThreadId
      ensures queue == StartQueue(old(queue), old(mainThreadId), native)
      ensures lockCnt == 0 && gcTimer == Active
      ensures counterBase == 0 && counterOps == [] && postsAtReset == quitPosts
    {
      mainThreadId, queue := native.currentThreadId, StartQueue(queue, mainThreadId, native);
      lockCnt := 0;
      counterBase, counterOps, postsAtReset := 0, [], quitPosts;
      gcTimer := Active;
    }

    /** The server's queue, lock count and `WM_QUIT` posts are those of the loop state
        `t`, the posts counted from `posts0`. */
    ghost predicate Tracks(t: LoopState, posts0: seq<UInt32>)
      reads this
    {
      && Valid() && mainThreadId != 0
      && queue == t.waiting && lockCnt == t.count
      && quitPosts == posts0 + Repeat(mainThreadId, t.posts)
    }

    /** A finalizer running while the loop runs: one `Unlock`, as `LoopStep` describes it. */
    method Release(ghost t: LoopState, ghost posts0: seq<UInt32>)
      requires Tracks(t, posts0)
      modifies this`lockCnt, this`counterOps, this`quitPosts, this`queue
      ensures Tracks(LoopStep(t, ObjectReleased), posts0)
    {
      var r := Unlock();
      if r == 0 {
        assert posts0 + Repeat(mainThreadId, t.posts + 1) == old(quitPosts) + [mainThreadId];
      }
    }

    /** Another party's `PostThreadMessage` to the recorded main thread: the message joins
        the back of that thread's queue; while no thread is recorded it reaches none. */
    method PostToMainThread(msg: Msg)
      modifies this`queue
      ensures queue == old(queue) + (if mainThreadId != 0 then [msg] else [])
    {
      if mainThreadId != 0 {
        queue := queue + [msg];
      }
    }

    /** One event while the loop runs, as `LoopStep` describes it: a message posted to
        the main thread, a `Lock`, an `Unlock`, or a `GetMessage` that takes the oldest
        waiting message (`taken`) when there is one. */
    method HandleEvent(e: Event, ghost t: LoopState, ghost posts0: seq<UInt32>) returns (taken: Option<Msg>)
      requires Tracks(t, posts0)
      modifies this`lockCnt, this`counterOps, this`quitPosts, this`queue
      ensures Tracks(LoopStep(t, e), posts0)
      ensures taken == if e == Pump && t.waiting != [] then Some(t.waiting[0]) else None
      ensures LoopStep(t, e).retrieved == t.retrieved + (if taken.Some? then [taken.value] else [])
    {
      taken := None;
      match e {
        case Incoming(msg) =>
          PostToMainThread(msg);
        case ObjectCreated =>
          var _ := Lock();
        case ObjectReleased =>
          Release(t, posts0);
        case Pump =>
          if queue != [] {
            taken := Some(queue[0]);
            queue := queue[1..];
          }
      }
    }

    /** Retrieves and dispatches messages until `GetMessage` retrieves `WM_QUIT`, while
        `events` happen; `handled` is how many of them the loop lived through. The loop
        ends at the first event after which `WM_QUIT` has been retrieved, having
        dispatched every message retrieved before it, and the queue, the count and the
        posts are those `RunLoop` gives. */
    method RunMessageLoop(events: seq<Event>) returns (handled: nat, dispatched: seq<Msg>)
      requires Valid() && mainThreadId != 0
      requires QuitsAfter(queue, lockCnt, events)
      modifies this`lockCnt, this`counterOps, this`quitPosts, this`queue
      ensures Valid()
      ensures handled <= |events|
      ensures QuitsAfter(old(queue), old(lockCnt), events[..handled])
      ensures forall j :: 0 <= j < handled ==> !QuitsAfter(old(queue), old(lockCnt), events[..j])
      ensures var t := RunLoop(LoopStart(old(queue), old(lockCnt)), events[..handled]);
              && t.retrieved == dispatched + [WmQuit]
              && queue == t.waiting && lockCnt == t.count
              && quitPosts == old(quitPosts) + Repeat(mainThreadId, t.posts)
      ensures WmQuit !in dispatched
    {
      ghost var queue0, count0, posts0 := queue, lockCnt, quitPosts;
      ghost var t := LoopStart(queue0, count0);
      var i, quit := 0, false;
      dispatched := [];
      assert events[..0] == [];
      while !quit
        invariant LoopInvariant(queue0, count0, events, i, t, quit, dispatched)
        invariant !quit ==> i < |events|
        invariant Tracks(t, posts0)
        decreases |events| - i
      {
        var taken := HandleEvent(events[i], t, posts0);
        LoopAdvance(queue0, count0, events, i, t, dispatched, taken);
        if taken == Some(WmQuit) {
          quit := true;
        } else if taken.Some? {
          dispatched := dispatched + [taken.value];
        }
        t := LoopStep(t, events[i]);
        i := i + 1;
      }
      handled := i;
    }

    /** Revokes the registration if the cookie is nonzero and disposes the GC timer if
        there is one. */
    method PostMessageLoop()
      requires Valid()
      modifies this`revoked, this`gcTimer
      ensures Valid()
      ensures revoked == old(revoked) + Revocation(cookie)
      ensures gcTimer == if old(gcTimer) == NoTimer then NoTimer else Disposed
    {
      if cookie != 0 {
        revoked := revoked + [cookie];
      }
      if gcTimer != NoTimer {
        gcTimer := Disposed;
      }
    }

    /** The body of `Run`'s `try` block: `PreMessageLoop`, then, if it succeeded, the
        message loop and `PostMessageLoop`. */
    method Serve(native: NativeResults, events: seq<Event>)
      returns (error: Option<Exception>, ghost handled: nat)
      requires Valid() && classId.Some? && classFactoryType.Some?
      requires native.registerResult == 0 && native.resumeResult == 0 ==>
                 QuitsAfter(StartQueue(queue, mainThreadId, native), 0, events)
      modifies this`cookie, this`mainThreadId, this`lockCnt, this`gcTimer, this`queue,
               this`registrations, this`revoked, this`quitPosts,
               this`counterBase, this`counterOps, this`postsAtReset
      ensures Valid()
      ensures Served(old(Snapshot()), Snapshot(), parseGuid(classId.value), classFactoryType.value,
                     native, events, error, handled)
    {
      handled := 0;
      error := PreMessageLoop(native);
      if error == None {
        var loopHandled, _ := RunMessageLoop(events);
        handled := loopHandled;
        PostMessageLoop();
      }
    }

    /** The effect of one `Run(id, factoryType)` call that completed with `error` after
        its message loop lived through the first `handled` of `events`. */
    twostate predicate RanWith(id: string, factoryType: FactoryType, native: NativeResults,
                               events: seq<Event>, new error: Option<Exception>, handled: nat)
      reads this
    {
      && classId == Some(id) && classFactoryType == Some(factoryType)
      && running == old(running)
      // already running: nothing is registered, looped or cleaned up
      && (old(running) ==> error == None && Snapshot() == old(Snapshot()))
      && (!old(running) ==>
            Served(old(Snapshot()), Snapshot(), parseGuid(id), factoryType, native, events, error, handled))
    }

    /** Runs the server unless it is already running: registers, loops until `WM_QUIT`
        is retrieved while `events` happen, cleans up, and clears the running flag on
        every exit path. A loop that never retrieves `WM_QUIT` never returns, so the
        events must lead to one when the registration succeeds. */
    method Run(id: string, factoryType: FactoryType, native: NativeResults, events: seq<Event>)
      returns (error: Option<Exception>, ghost handled: nat)
      requires Valid()
      requires !running && native.registerResult == 0 && native.resumeResult == 0 ==>
                 QuitsAfter(StartQueue(queue, mainThreadId, native), 0, events)
      modifies this
      ensures Valid()
      ensures RanWith(id, factoryType, native, events, error, handled)
    {
      handled := 0;
      classId := Some(id);
      classFactoryType := Some(factoryType);
      if running {
        return None, handled;
      }
      running := true;
      error, handled := Serve(native, events);
      running := false;
    }

    /** Looks up the ClassId of `comClassType` and runs the server with the generic
        class factory for it; a type without a ClassId member throws before any state
        is touched. */
    method RunComClass(comClassType: ClassIdAttribute.TypeDescriptor, comClassInterface: string,
                       native: NativeResults, events: seq<Event>)
      returns (error: Option<Exception>, ghost handled: nat)
      requires Valid()
      requires !running && native.registerResult == 0 && native.resumeResult == 0 ==>
                 QuitsAfter(StartQueue(queue, mainThreadId, native), 0, events)
      modifies this
      ensures Valid()
      ensures var lookup := ClassIdAttribute.GetClassIdValue(comClassType);
              && (lookup.Err? ==> error == Some(lookup.error) && unchanged(this))
              && (lookup.Ok? ==>
                    RanWith(lookup.value, GenericFactoryOf(comClassType, comClassInterface),
                            native, events, error, handled))
    {
      handled := 0;
      var lookup := ClassIdAttribute.GetClassIdValue(comClassType);
      if lookup.Err? {
        return Some(lookup.error), handled;
      }
      error, handled := Run(lookup.value, GenericFactoryOf(comClassType, comClassInterface), native, events);
    }
  }

  /** Between runs, a message another party posts to the recorded thread before the last
      object is released stays ahead of the `WM_QUIT` that release posts. */
  method PostThenLastRelease(server: OutOfProcServer, msg: Msg)
    requires server.Valid() && server.mainThreadId != 0 && server.lockCnt == 1
    modifies server`queue, server`lockCnt, server`counterOps, server`quitPosts
    ensures server.lockCnt == 0
    ensures server.queue == old(server.queue) + [msg, WmQuit]
  {
    server.PostToMainThread(msg);
    var _ := server.Unlock();
  }
}
