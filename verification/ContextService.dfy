/**
 The context service: the shared-locks protocol of the lock class, and the lock table, hold timers and
 read-modify-write of the context manager on top of it, as one transition system.

 Every ZooKeeper call is split in two steps, so that any other step can come in between: a `Serve...`
 step, in which the server answers, and an `On...` step, in which the JavaScript callback runs.  A step
 named `...Fails` delivers an error code instead.  The callbacks are atomic, and so are the promise
 continuations they trigger.  `LockRequest`, `SaveRequest` and `UnlockRequest` are client messages.
 */
module ContextService {
  import opened Options
  import opened LockNames
  import opened LockScan

  /** One lock attempt: the closure that a lock request leaves behind in the event loop. */
  type Handle = nat

  /** What `a_get` returned.  `cold` records whether a node with number 0 was alive at that moment. */
  datatype Snapshot = Snapshot(text: string, cold: bool)

  /** A write that was served.  `held` records whether the lock node of the attempt was alive at that moment. */
  datatype Commit = Commit(handle: Handle, number: nat, got: Snapshot, text: string, held: bool)

  /** A data path in ZooKeeper.  `history` is a history variable: the writes served so far. */
  datatype Znode = Znode(content: string, counter: nat, locks: set<LockNode>, history: seq<Commit>)

  /** Why a lock is released, which decides the reply. */
  datatype Purpose = AfterSave | AfterUnlock | AfterSingleShot(text: string) | AfterHoldTimeout

  datatype Phase =
    | Creating                                                // a_create in flight
    | Created                                                 // node made, callback pending
    | Scanning(view: Option<set<LockNode>>, late: bool)       // a_get_children; late: issued after the timeout delete
    | Checking(pred: LockNode)                                // aw_exists in flight
    | Missing(pred: LockNode)                                 // aw_exists answered "no node"
    | Watching(pred: LockNode)                                // watch armed at the server
    | Notified(pred: LockNode)                                // watch event in flight
    | Abandoned                                               // rejected after an error, wait timer left alone
    | Reading(got: Option<Snapshot>)                          // lock acquired, a_get in flight
    | Held(held: Snapshot)                                    // table entry made, hold timer armed
    | Writing(base: Snapshot, text: string, served: bool)     // a_set in flight
    | Deleting(purpose: Purpose, found: Option<bool>)         // a_delete_ in flight
    | Leaked                                                  // a call failed after the grant: nothing unlocks
    | Done

  datatype WaitTimer = Unset | Armed | Cleared | DeleteSent | DeleteServed | Fired | FireFailed

  datatype Request = Request(key: string, path: string, mode: Mode, singleShot: bool,
                             node: Option<LockNode>, phase: Phase, wait: WaitTimer)

  datatype Reply = Granted(key: string, text: string) | Okay(key: string) | Refused(key: string)

  /** `base` is the sequence number that ZooKeeper gives to the first lock node of a new data path. */
  datatype State = State(base: nat, store: map<string, Znode>, requests: map<Handle, Request>,
                         controlMap: map<string, Handle>, outbox: multiset<Reply>)

  /** The steps of an attempt up to the grant, and those of its wait timer. */
  datatype AcquireStep =
    | ServeCreate | CreateFails | OnCreated
    | ServeChildren | OnChildren(found: Option<LockNode>) | ChildrenFails
    | ServeExists | OnMissing | OnWatchEvent | WatchFails
    | WaitTimerFires | ServeTimeoutDelete | OnTimeoutDelete | TimeoutDeleteFails

  /** The steps of a granted lock. */
  datatype HolderStep =
    | ServeGet | OnGet | GetFails
    | ServeSet | OnSet | SetFails
    | HoldTimerFires
    | ServeDelete | OnDelete | DeleteFails

  datatype Event =
    | LockRequest(h: Handle, key: string, path: string, mode: Mode, singleShot: bool)
    | SaveRequest(key: string, text: string)
    | UnlockRequest(key: string)
    | Acquire(h: Handle, acquire: AcquireStep)
    | Hold(h: Handle, hold: HolderStep)

  function Init(base: nat): State
  {
    State(base, map[], map[], map[], multiset{})
  }

  /** The phases in which the attempt still runs the lock protocol. */
  predicate Waiting(phase: Phase)
  {
    phase.Scanning? || phase.Checking? || phase.Missing? || phase.Watching? || phase.Notified?
  }

  /** The phases between the grant and the end of the release call. */
  predicate LockGranted(phase: Phase)
  {
    phase.Reading? || phase.Held? || phase.Writing? || phase.Deleting? || phase.Leaked?
  }

  function Locks(s: State, path: string): set<LockNode>
  {
    if path in s.store then s.store[path].locks else {}
  }

  predicate Live(s: State, r: Request)
  {
    r.node.Some? && r.node.value in Locks(s, r.path)
  }

  predicate TimeoutDeletePending(wait: WaitTimer)
  {
    wait == DeleteSent || wait == DeleteServed
  }

  /** The outer promise of the attempt was rejected by the wait timer. */
  predicate TimedOut(wait: WaitTimer)
  {
    wait == Fired || wait == FireFailed
  }

  predicate Enabled(s: State, e: Event)
  {
    match e
    case LockRequest(h, _, _, _, _) => h !in s.requests
    case SaveRequest(_, _) => true
    case UnlockRequest(_) => true
    case Acquire(h, step) => h in s.requests && AcquireEnabled(s.requests[h], step)
    case Hold(h, step) => h in s.requests && HoldEnabled(s.requests[h].phase, step)
  }

  predicate AcquireEnabled(r: Request, step: AcquireStep)
  {
    match step
    case ServeCreate => r.phase.Creating?
    case CreateFails => r.phase.Creating?
    case OnCreated => r.phase.Created?
    case ServeChildren => r.phase.Scanning? && r.phase.view.None?
    case OnChildren(found) =>
      && r.phase.Scanning? && r.phase.view.Some? && r.node.Some?
      && ScanResult(r.phase.view.value, r.node.value, found)
      && (r.phase.late ==> !TimeoutDeletePending(r.wait))   // one session: replies come in call order
    case ChildrenFails => r.phase.Scanning?
    case ServeExists => r.phase.Checking?
    case OnMissing => r.phase.Missing?
    case OnWatchEvent => r.phase.Notified?
    case WatchFails => r.phase.Checking? || r.phase.Watching?
    case WaitTimerFires => r.wait.Armed?
    case ServeTimeoutDelete => r.wait.DeleteSent? && r.node.Some?
    case OnTimeoutDelete => r.wait.DeleteServed?
    case TimeoutDeleteFails => r.wait.DeleteSent?
  }

  predicate HoldEnabled(phase: Phase, step: HolderStep)
  {
    match step
    case ServeGet => phase.Reading? && phase.got.None?
    case OnGet => phase.Reading? && phase.got.Some?
    case GetFails => phase.Reading?
    case ServeSet => phase.Writing? && !phase.served
    case OnSet => phase.Writing? && phase.served
    case SetFails => phase.Writing? && !phase.served
    case HoldTimerFires => phase.Held?
    case ServeDelete => phase.Deleting? && phase.found.None?
    case OnDelete => phase.Deleting? && phase.found.Some?
    case DeleteFails => phase.Deleting? && phase.found.None?
  }

  /** `IsScanResult` in executable form. */
  predicate ScanResult(view: set<LockNode>, mine: LockNode, found: Option<LockNode>)
    ensures ScanResult(view, mine, found) <==> IsScanResult(view, mine, found)
  {
    match found
    case None => forall n | n in view :: !Seen(n, mine)
    case Some(p) => p in view && Seen(p, mine) && forall n | n in view :: Seen(n, mine) ==> n.number <= p.number
  }

  function With(s: State, h: Handle, r: Request): State
  {
    s.(requests := s.requests[h := r])
  }

  function InPhase(s: State, h: Handle, phase: Phase): State
    requires h in s.requests
  {
    With(s, h, s.requests[h].(phase := phase))
  }

  function Send(s: State, reply: Reply): State
  {
    s.(outbox := s.outbox + multiset{reply})
  }

  function ZnodeAt(s: State, path: string): Znode
  {
    if path in s.store then s.store[path] else Znode("", s.base, {}, [])
  }

  /** The server deletes a node and fires the watches on it. */
  function RemoveNode(s: State, path: string, node: LockNode): State
  {
    if node !in Locks(s, path) then s
    else
      s.(store := s.store[path := s.store[path].(locks := s.store[path].locks - {node})],
         requests := map h | h in s.requests :: NotifyWatcher(s.requests[h], path, node))
  }

  function NotifyWatcher(r: Request, path: string, node: LockNode): Request
  {
    if r.path == path && r.phase == Watching(node) then r.(phase := Notified(node)) else r
  }

  function ZeroAlive(locks: set<LockNode>): bool
  {
    LockNode(Read, 0) in locks || LockNode(Write, 0) in locks
  }

  /** Takes the table entry of a held lock out and starts the release. */
  function Release(s: State, key: string, h: Handle, purpose: Purpose): State
    requires h in s.requests
  {
    InPhase(s, h, Deleting(purpose, None)).(controlMap := s.controlMap - {key})
  }

  function Next(s: State, e: Event): State
    requires Enabled(s, e)
  {
    match e
    case LockRequest(h, key, path, mode, singleShot) =>
      With(s, h, Request(key, path, mode, singleShot, None, Creating, Unset))
    case SaveRequest(key, text) => NextSave(s, key, text)
    case UnlockRequest(key) => NextUnlock(s, key)
    case Acquire(h, step) => NextAcquire(s, h, step)
    case Hold(h, step) => NextHold(s, h, step)
  }

  /** `save_and_unlock`; an empty content counts as a missing field, and gets no reply. */
  function NextSave(s: State, key: string, text: string): State
  {
    if text == "" then s
    else if key !in s.controlMap || s.controlMap[key] !in s.requests then Send(s, Refused(key))
    else
      var h := s.controlMap[key];
      var r := s.requests[h];
      if r.mode == Read || !r.phase.Held? then Send(s, Refused(key))
      else InPhase(s, h, Writing(r.phase.held, text, false)).(controlMap := s.controlMap - {key})
  }

  /** `unlock`. */
  function NextUnlock(s: State, key: string): State
  {
    if key !in s.controlMap || s.controlMap[key] !in s.requests then Send(s, Refused(key))
    else Release(s, key, s.controlMap[key], AfterUnlock)
  }

  /** The lock protocol up to the grant, and the wait timer: the attempt, then the effects around it. */
  function NextAcquire(s: State, h: Handle, step: AcquireStep): State
    requires h in s.requests && AcquireEnabled(s.requests[h], step)
  {
    var r := s.requests[h];
    var z := ZnodeAt(s, r.path);
    var s' := With(s, h, Advance(r, z, step)).(outbox := s.outbox + AcquireReply(r, step));
    match step
    case ServeCreate =>
      var node := LockNode(r.mode, z.counter);
      s'.(store := s.store[r.path := z.(counter := z.counter + 1, locks := z.locks + {node})])
    case ServeTimeoutDelete => RemoveNode(s', r.path, r.node.value)
    case _ => s'
  }

  function Advance(r: Request, z: Znode, step: AcquireStep): Request
    requires AcquireEnabled(r, step)
  {
    match step
    case ServeCreate => r.(node := Some(LockNode(r.mode, z.counter)), phase := Created)
    case CreateFails => r.(phase := Done)
    case OnCreated => r.(phase := Scanning(None, false), wait := Armed)
    case ServeChildren => r.(phase := Scanning(Some(z.locks), r.phase.late))
    case OnChildren(found) =>
      if found.Some? then r.(phase := Checking(found.value))
      else if TimedOut(r.wait) then r.(phase := Done)
      else r.(phase := Reading(None), wait := if r.wait.Armed? then Cleared else r.wait)
    case ChildrenFails => r.(phase := Abandoned)
    case ServeExists => r.(phase := if r.phase.pred in z.locks then Watching(r.phase.pred) else Missing(r.phase.pred))
    case OnMissing => r.(phase := Scanning(None, TimeoutDeletePending(r.wait)))
    case OnWatchEvent => r.(phase := Scanning(None, TimeoutDeletePending(r.wait)))
    case WatchFails => r.(phase := Abandoned)
    case WaitTimerFires => r.(wait := DeleteSent)
    case ServeTimeoutDelete => r.(wait := DeleteServed)
    case OnTimeoutDelete => r.(wait := Fired)
    case TimeoutDeleteFails => r.(wait := FireFailed)
  }

  /** Rejections of the lock attempt; a promise that the timer has rejected ignores later ones. */
  function AcquireReply(r: Request, step: AcquireStep): multiset<Reply>
  {
    var refused := multiset{Refused(r.key)};
    match step
    case CreateFails => refused
    case ChildrenFails => if TimedOut(r.wait) then multiset{} else refused
    case WatchFails => if TimedOut(r.wait) then multiset{} else refused
    case OnTimeoutDelete => if Waiting(r.phase) then refused else multiset{}
    case TimeoutDeleteFails => if Waiting(r.phase) then refused else multiset{}
    case _ => multiset{}
  }

  /** The life of a granted lock: the attempt, then the effects around it. */
  function NextHold(s: State, h: Handle, step: HolderStep): State
    requires h in s.requests && HoldEnabled(s.requests[h].phase, step)
  {
    var r := s.requests[h];
    var z := ZnodeAt(s, r.path);
    var s' := With(s, h, AdvanceHolder(r, z, step)).(outbox := s.outbox + HoldReply(r, step));
    match step
    case OnGet => s'.(controlMap := if r.singleShot then s.controlMap - {r.key} else s.controlMap[r.key := h])
    case HoldTimerFires => s'.(controlMap := s.controlMap - {r.key})
    case ServeSet =>
      var number := if r.node.Some? then r.node.value.number else 0;
      s'.(store := s.store[r.path := z.(content := r.phase.text,
                                        history := z.history + [Commit(h, number, r.phase.base, r.phase.text,
                                                                       Live(s, r))])])
    case ServeDelete => if r.node.Some? then RemoveNode(s', r.path, r.node.value) else s'
    case _ => s'
  }

  function AdvanceHolder(r: Request, z: Znode, step: HolderStep): Request
    requires HoldEnabled(r.phase, step)
  {
    match step
    case ServeGet => r.(phase := Reading(Some(Snapshot(z.content, ZeroAlive(z.locks)))))
    case OnGet =>
      r.(phase := if r.singleShot then Deleting(AfterSingleShot(r.phase.got.value.text), None)
                  else Held(r.phase.got.value))
    case GetFails => r.(phase := Leaked)
    case ServeSet => r.(phase := r.phase.(served := true))
    case OnSet => r.(phase := Deleting(AfterSave, None))
    case SetFails => r.(phase := Leaked)
    case HoldTimerFires => r.(phase := Deleting(AfterHoldTimeout, None))
    case ServeDelete => r.(phase := Deleting(r.phase.purpose, Some(r.node.Some? && r.node.value in z.locks)))
    case OnDelete => r.(phase := Done)
    case DeleteFails => r.(phase := Leaked)
  }

  /** The answer to `..._and_get`, and the answer to the client that waits for the release, if any does. */
  function HoldReply(r: Request, step: HolderStep): multiset<Reply>
    requires HoldEnabled(r.phase, step)
  {
    match step
    case OnGet => if r.singleShot then multiset{} else multiset{Granted(r.key, r.phase.got.value.text)}
    case GetFails => multiset{Refused(r.key)}
    case SetFails => multiset{Refused(r.key)}
    case OnDelete => ReleaseReply(r.key, r.phase.purpose, r.phase.found.value)
    case DeleteFails => ReleaseReply(r.key, r.phase.purpose, false)
    case _ => multiset{}
  }

  function ReleaseReply(key: string, purpose: Purpose, success: bool): multiset<Reply>
  {
    match purpose
    case AfterHoldTimeout => multiset{}
    case AfterSingleShot(text) => multiset{if success then Granted(key, text) else Refused(key)}
    case _ => multiset{if success then Okay(key) else Refused(key)}
  }

  /** Every event of a run is possible when it happens. */
  ghost predicate Legal(s: State, run: seq<Event>)
    decreases run
  {
    run == [] || (Enabled(s, run[0]) && Legal(Next(s, run[0]), run[1..]))
  }

  ghost function After(s: State, run: seq<Event>): State
    requires Legal(s, run)
    decreases run
  {
    if run == [] then s else After(Next(s, run[0]), run[1..])
  }

  /** The race between the wait timer and a pending a_get_children: the timer deletes the node, and the
      callback that is still to come may grant it all the same. */
  predicate IsTimerScanRace(s: State, e: Event)
  {
    e.Acquire? && e.acquire.WaitTimerFires? && e.h in s.requests && s.requests[e.h].phase.Scanning?
  }

  ghost predicate RaceFree(s: State, run: seq<Event>)
    requires Legal(s, run)
    decreases run
  {
    run == [] || (!IsTimerScanRace(s, run[0]) && RaceFree(Next(s, run[0]), run[1..]))
  }
}
