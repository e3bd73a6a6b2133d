# OutOfProcComServerTools: a verified model of the server core

OutOfProcComServerTools hosts .NET classes as an out-of-process COM server. The
process registers a class factory with COM and runs a Win32 message loop. Every
exposed object derives from `ReferenceCountedObject`, which locks the server when the
object is built and unlocks it when the object is finalized. When the lock count
drops to exactly 0, the server posts `WM_QUIT` to its own main thread, leaves the
message loop, revokes its registration and returns.

The project models four parts, one module each, plus one module of shared value types:

- `OutOfProcCom`: the server as a class, `OutOfProcServer`. Its fields are:
  the running flag, the lock count, the registration cookie, the main thread id,
  the GC timer, the class id, the class factory type, and the queue of the recorded
  main thread as far as the server sees it. Ghost logs record what the server asks of the native layer:
  - every `CoRegisterClassObject` call, with the CLSID parsed from the class id;
  - every cookie passed to `CoRevokeClassObject`;
  - the target thread of every `WM_QUIT` it posts.

  The invariant `Valid()` ties the lock count and the `WM_QUIT` log to `Replay` and
  `QuitCount`. These two pure functions replay the Lock/Unlock calls made since
  `PreMessageLoop` last reset the count. The lemmas about them give the arithmetic of
  the count: n Locks and m Unlocks give n - m, reduced to 32 bits.

  What happens while the message loop runs is a sequence of events:
  - a message posted to the main thread by another party;
  - an object created, which calls `Lock`;
  - an object released, which calls `Unlock` and, at 0, queues `WM_QUIT`;
  - a `GetMessage` that takes the oldest waiting message.

  `RunLoop` is the pure meaning of such a sequence. `RunMessageLoop` handles the
  events one by one and is proved to stop at the first event after which `WM_QUIT`
  has been retrieved. Lemmas tie `RunLoop` to the separate definitions `Replay`,
  `QuitCount` and `Arrivals`: the count, the posts, the first-in first-out queue, and
  where every retrieved `WM_QUIT` comes from. Conversely, once an `Unlock` has reached
  0, enough `GetMessage` calls end the loop.
- `ClassIdAttribute`: a type is the sequence of its declared members, in enumeration
  order. `GetDecoratedMember` returns the first static field or property, of any
  visibility, that carries `[ClassId]`. `GetClassIdValue` returns that member's value,
  or `NotImplementedException` when there is no such member.
- `ReferenceCounting`: `ReferenceCountedObject`. Its constructor calls `Lock` and its
  finalizer, an explicit `Finalize` call, calls `Unlock`.
- `ClassFactory`: `ActivationFor` is the pure decision behind `CreateInstance`.
  `GenericClassFactory.CreateInstance` is proved against it. The decision rejects, in
  this order:
  1. aggregation, with `CLASS_E_NOAGGREGATION`;
  2. a class without a ClassId member, with `NotImplementedException`;
  3. an interface id other than the ClassId, IDispatch or IUnknown, with `E_NOINTERFACE`.

  Otherwise it builds exactly one object.

How the native layer is stood in for:
- The HRESULTs of `CoRegisterClassObject` and `CoResumeClassObjects`, the cookie that
  registration writes, and `GetCurrentThreadId` are parameters of `Run`, grouped as
  `NativeResults`. A thread id is never 0 (`ThreadId`).
- `PostThreadMessage` and `CoRevokeClassObject` become entries in the ghost logs.
- `new Guid(string)` is the server's constant `parseGuid`. Both `PreMessageLoop` and
  the class factory apply it to the ClassId.
- The singleton `OutOfProcServer.Instance` is the server object handed to every object
  and factory.
- `PostThreadMessage` to thread 0, which is what `Unlock` does before any thread is
  recorded, reaches no queue. A `WM_QUIT` posted to the recorded thread between runs
  stays in its queue, and a later loop on that same thread starts on it.
- Another party's post to the recorded thread is `PostToMainThread`. The messages
  others posted to the loop thread in some other way before the loop starts are
  `NativeResults.pendingMessages`. What happens while it runs is the parameter `events`
  of `Run`.

Behaviour of the code worth noting:
- On every zero crossing, `Unlock` posts `WM_QUIT`, not only on the first one
  (OutOfProcCom.cs:246-254).
- The count is not clamped at 0: `Unlock` at 0 gives -1 and posts nothing
  (OutOfProcCom.cs:246-254).
- A `WM_QUIT` already posted is not withdrawn when a new object is created before the
  loop retrieves it. The loop then ends with a live object (OutOfProcCom.cs:233-254).
  `StaleQuit` shows this.
- The server's state is a single running flag (OutOfProcCom.cs:203-207).
- Only one class is registered, so rollback after a failed resume revokes one cookie
  (OutOfProcCom.cs:88-95).
- A request for the business interface's IID is answered with `E_NOINTERFACE`
  (GenericClassFactory.cs:44-46). `ActivationScenario` shows this for the sample class.

## Model

| member | source | states |
|---|---|---|
| `OutOfProcCom.StepIsWrapped` | OutOfProcComServerTools/Classes/OutOfProcCom.cs:233-246 | `Interlocked.Increment` and `Interlocked.Decrement` are 32-bit truncated additions of +1 and -1: `int.MaxValue` + 1 wraps to `int.MinValue`, `int.MinValue` - 1 to `int.MaxValue`, and there is no clamp at 0 |
| `OutOfProcCom.ReplayIsNetCount` | OutOfProcComServerTools/Classes/OutOfProcCom.cs:233-257 | whatever their order, the Lock/Unlock calls leave the count at start + #Lock - #Unlock, reduced to 32 bits |
| `OutOfProcCom.CountFromZero` | OutOfProcComServerTools/Classes/ReferenceCountedObject.cs:17-27 | from 0, n constructions and m <= n finalizations in any order leave the count at n - m |
| `OutOfProcCom.LockUnlockRestores` | OutOfProcComServerTools/Classes/ReferenceCountedObject.cs:17-27 | a Lock followed by an Unlock restores the count, and posts one `WM_QUIT` exactly when that count is 0 |
| `OutOfProcCom.LocksThenUnlocks` | OutOfProcComServerTools/Classes/OutOfProcCom.cs:244-256 | from 0, n Locks then k <= n Unlocks leave n - k; `WM_QUIT` is posted once if k == n > 0 and never otherwise |
| `OutOfProcCom.RunLoopIsReplay` | OutOfProcComServerTools/Classes/OutOfProcCom.cs:127-135 | while the loop runs, the count is the replay of the Lock/Unlock calls the events make, and the number of `WM_QUIT` posts is the number of those calls that bring the count to 0 |
| `OutOfProcCom.RunLoopIsFifo` | OutOfProcComServerTools/Classes/OutOfProcCom.cs:127-135 | the retrieved messages followed by the waiting ones are the starting queue followed by every arrival, in order: messages others post and the `WM_QUIT` of each `Unlock` reaching 0 |
| `OutOfProcCom.QuitArrivals` | OutOfProcComServerTools/Classes/OutOfProcCom.cs:244-256 | the `WM_QUIT` messages reaching the queue are those other parties post plus one per `Unlock` that brings the count to 0 |
| `OutOfProcCom.QuitNeedsLastRelease` | OutOfProcComServerTools/Classes/OutOfProcCom.cs:124-135 | when no other party posts `WM_QUIT`, the loop retrieves one only after an `Unlock` has brought the count to 0 |
| `OutOfProcCom.PostedQuitEndsLoop` | OutOfProcComServerTools/Classes/OutOfProcCom.cs:124-135 | once an `Unlock` has brought the count to 0 and posted `WM_QUIT`, the loop has retrieved a `WM_QUIT` after one more `GetMessage` per waiting message |
| `OutOfProcCom.LeftoverQuitEndsNextLoop` | OutOfProcComServerTools/Classes/OutOfProcCom.cs:244-254 | a `WM_QUIT` posted between runs to the recorded thread, behind the messages left ahead of it, ends the next loop on that thread after one `GetMessage` per message left ahead of it, plus one; with no other `WM_QUIT` among them, not earlier |
| `OutOfProcCom.StaleQuit` | OutOfProcComServerTools/Classes/OutOfProcCom.cs:233-254 | a `WM_QUIT` posted at 0 still ends the loop after a later `Lock`, so the loop is left with the count at 1 |
| `OutOfProcCom.OutOfProcServer.constructor` | OutOfProcComServerTools/Classes/OutOfProcCom.cs:11-49 | initial state: not running, count 0, thread id 0, cookie 0, no timer, no class id or factory type, empty logs |
| `OutOfProcCom.OutOfProcServer.Lock` | OutOfProcComServerTools/Classes/OutOfProcCom.cs:233-236 | the count is incremented, the new count is returned, and nothing else changes |
| `OutOfProcCom.OutOfProcServer.Unlock` | OutOfProcComServerTools/Classes/OutOfProcCom.cs:244-257 | the count is decremented and the new count is returned. Exactly when the new count is 0, each time, `WM_QUIT` is posted to the recorded main thread; it joins that thread's queue unless no thread is recorded yet (thread 0) |
| `OutOfProcCom.OutOfProcServer.GetLockCount` | OutOfProcComServerTools/Classes/OutOfProcCom.cs:263-266 | returns the current lock count |
| `OutOfProcCom.OutOfProcServer.PreMessageLoop` | OutOfProcComServerTools/Classes/OutOfProcCom.cs:57-121 | registers the CLSID parsed from the class id, with the factory type, and stores the cookie. A failed register throws and changes nothing else. A failed resume revokes a nonzero cookie, then throws. Success records the thread id, zeroes the count and starts the timer; the loop will start on what the server left in that thread's queue, if it is the thread recorded before, followed by the messages others posted that the model has not seen |
| `OutOfProcCom.OutOfProcServer.InitializeMembers` | OutOfProcComServerTools/Classes/OutOfProcCom.cs:105-120 | records the current thread and its queue, zeroes the count, starts the GC timer and restarts the count's replay from 0 |
| `OutOfProcCom.OutOfProcServer.PostToMainThread` | OutOfProcComServerTools/Classes/OutOfProcCom.cs:109-112 | another party's post to the recorded main thread joins the back of its queue, in posting order; with no thread recorded it reaches no queue |
| `OutOfProcCom.OutOfProcServer.Release` | OutOfProcComServerTools/Classes/OutOfProcCom.cs:244-257 | an object released while the loop runs: the count, the queue and the posts step as `RunLoop` says |
| `OutOfProcCom.OutOfProcServer.HandleEvent` | OutOfProcComServerTools/Classes/OutOfProcCom.cs:127-135 | one event while the loop runs moves the server as `RunLoop` does; `GetMessage` takes the oldest waiting message, if any |
| `OutOfProcCom.OutOfProcServer.RunMessageLoop` | OutOfProcComServerTools/Classes/OutOfProcCom.cs:127-135 | returns at the first event after which `WM_QUIT` has been retrieved. It dispatches every message retrieved before that, and none of them is `WM_QUIT`. The queue, the count and the posts are those `RunLoop` gives |
| `OutOfProcCom.OutOfProcServer.PostMessageLoop` | OutOfProcComServerTools/Classes/OutOfProcCom.cs:141-169 | revokes the cookie iff it is nonzero and disposes the timer iff there is one |
| `OutOfProcCom.OutOfProcServer.Serve` | OutOfProcComServerTools/Classes/OutOfProcCom.cs:210-221 | `PreMessageLoop`, then on success `RunMessageLoop` and `PostMessageLoop`: the whole register / loop / clean-up effect stated by `Served` |
| `OutOfProcCom.OutOfProcServer.Run` | OutOfProcComServerTools/Classes/OutOfProcCom.cs:195-226 | always stores the class id and the factory type. If already running, it changes nothing else. Otherwise it registers, loops until the first retrieved `WM_QUIT` and cleans up, or fails as `PreMessageLoop` does. The running flag is false on every exit path |
| `OutOfProcCom.OutOfProcServer.RunComClass` | OutOfProcComServerTools/Classes/OutOfProcCom.cs:176-188 | a type without a ClassId member throws before any state changes; otherwise it runs with that ClassId and the generic factory of the class and interface |
| `OutOfProcCom.PostThenLastRelease` | OutOfProcComServerTools/Classes/OutOfProcCom.cs:244-254 | between runs, a message posted to the recorded thread before the last object is released stays ahead of the `WM_QUIT` that release posts |
| `ClassIdAttribute.FindMembers` | OutOfProcComServerTools/Classes/ClassIdAttribute.cs:13-21 | holds exactly the members that are static fields or properties carrying `[ClassId]` |
| `ClassIdAttribute.FindMembersHead` | OutOfProcComServerTools/Classes/ClassIdAttribute.cs:21 | the filtered list is empty iff no member qualifies; otherwise its head is the first qualifying member in enumeration order |
| `ClassIdAttribute.GetDecoratedMember` | OutOfProcComServerTools/Classes/ClassIdAttribute.cs:10-24 | returns the first static field or property, public or not, carrying `[ClassId]`, or none iff there is none; never an instance member or a method |
| `ClassIdAttribute.GetClassIdValue` | OutOfProcComServerTools/Classes/ClassIdAttribute.cs:26-36 | `NotImplementedException` naming the type iff no decorated member exists; otherwise the static value of the first decorated member |
| `ReferenceCounting.ReferenceCountedObject.constructor` | OutOfProcComServerTools/Classes/ReferenceCountedObject.cs:17-21 | building an object increments the server's lock count once |
| `ReferenceCounting.ReferenceCountedObject.Finalize` | OutOfProcComServerTools/Classes/ReferenceCountedObject.cs:23-27 | finalizing decrements the lock count once and, when the count reaches 0, posts `WM_QUIT`, which joins the recorded main thread's queue if a thread is recorded |
| `ReferenceCounting.CreateThenFinalize` | OutOfProcComServerTools/Classes/ReferenceCountedObject.cs:17-27 | building and then finalizing one object restores the count; finalizing the last object, from 1 to 0, posts `WM_QUIT` |
| `ClassFactory.ActivationFor` | OutOfProcComServerTools/Classes/GenericClassFactory.cs:19-61 | aggregation is refused before any lookup. Next, a missing ClassId member is reported, with the same member choice as `GetClassIdValue`. Then exactly the ClassId, IDispatch and IUnknown ids lead to construction, and any other id to `E_NOINTERFACE` |
| `ClassFactory.GenericClassFactory.constructor` | OutOfProcComServerTools/Classes/GenericClassFactory.cs:13-14 | the factory holds the class and interface it was made for |
| `ClassFactory.GenericClassFactory.CreateInstance` | OutOfProcComServerTools/Classes/GenericClassFactory.cs:16-64 | on construction it returns 0 and the interface of one fresh object, and the count rises by one; on every failure `ppvObject` is zero, nothing is built and the server is unchanged |
| `ClassFactory.GenericClassFactory.LockServer` | OutOfProcComServerTools/Classes/GenericClassFactory.cs:66-69 | returns 0 for both arguments and changes nothing |
| `ClassFactory.SampleActivations` | OutOfProcComServerTools/Classes/GenericClassFactory.cs:44-61 | for a class shaped like the sample, IUnknown is accepted and the business interface id is refused |
| `ClassFactory.ActivationScenario` | OutOfProcComServerTools/Classes/GenericClassFactory.cs:16-64 | client run from count 0: `S_OK` for IUnknown, `E_NOINTERFACE` for the business interface id and `CLASS_E_NOAGGREGATION` for aggregation, the count is 1 while the object lives, and releasing the object returns it to 0 and posts `WM_QUIT` |

## Left out

- Native Win32/COM calls are not executed. Their results are parameters and the calls
  the server makes are ghost logs. `COMNative` and `NativeMethod` are not part of this
  model; `IID_IUnknown` and `IID_IDispatch` take their standard Windows values.
- Concurrency is not modelled: `Interlocked` atomicity, `lock (syncRoot)` and threads.
  What other threads do while the loop runs is a sequence of events, each one
  sequential step. Lock/Unlock calls outside `Run` are separate calls.
- OutOfProcCom.OutOfProcServer.RunMessageLoop: a loop that never retrieves `WM_QUIT`
  never returns. So the model requires that the events lead to a retrieved `WM_QUIT`,
  and `Run` requires it when registration succeeds. An error return (-1) from
  `GetMessage` is not modelled, and neither is what `TranslateMessage` and
  `DispatchMessage` do. A `GetMessage` on an empty queue is a `Pump` event that
  changes nothing.
- GC and timing: `GC.Collect`, the 5-second timer callback and `Thread.Sleep(1000)`.
  Only the timer's state (none, running, disposed) is kept.
- Reflection and marshalling are not modelled: `GetConstructor`/`Invoke`,
  `MakeGenericType`, the `dynamic` `GetValue`, `GetComInterfaceForObject` and
  `ThrowExceptionForHR`. Construction in `PreMessageLoop` is recorded as the factory type
  in the registration log. An HRESULT throw becomes an `Exception` value.
- These failures are not modelled: a missing default constructor, and a ClassId member
  whose value is not a string. A null ClassId value is returned by `GetClassIdValue`
  (ClassIdAttribute.cs:33-35), and the failure comes later, at `new Guid(null)`
  (OutOfProcCom.cs:63, GenericClassFactory.cs:44). The model's ClassId values are
  strings, so there is no null.
- GUID parsing: `new Guid(string)` is the server's constant `parseGuid`. A
  `FormatException` for a malformed ClassId is not modelled.
- Exception messages are not modelled. Only the call name and the HRESULT of
  `ApplicationException` are kept, and the type name of `NotImplementedException`.
- Member enumeration: a type is modelled as the members it declares, in the order
  reflection returns them. Inherited static members are not among the candidates.
- The factory's own copy of the ClassId search (GenericClassFactory.cs:29-37) has the
  same text as the one in ClassIdAttribute.cs. The model defines the filter once;
  `ActivationFor`'s contract proves that the factory picks the same member as
  `GetClassIdValue`.
- The server's `queue` is the queue of the thread in `mainThreadId`, and only the
  messages the model knows of: the server's own `WM_QUIT` posts, the posts made
  through `PostToMainThread`, and the messages given as `pendingMessages` when a
  loop starts. Between runs, the model
  assumes nothing else retrieves messages on that thread. The queue of a thread that
  is no longer recorded is forgotten.
- OutOfProcCom.OutOfProcServer.PreMessageLoop: when a loop starts on the thread
  recorded before, the model places `pendingMessages` after every message it knows is
  waiting in that thread's queue, whatever the real posting order. Posts whose order
  matters go through `PostToMainThread`, which keeps it.
- Finalizer scheduling: finalization is an explicit `Finalize` call, at most once per
  object.
- The sample COM class and its interface declaration are not modelled. Its ClassId is
  the test data of `ActivationScenario`.
