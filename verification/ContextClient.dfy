/**
 The client of the context manager: a table of requests, each with a state, a response timer and the promise
 of its caller.
 */
module ContextClient {
  import opened Options
  import opened ContextService

  datatype LockMode = RLock | WLock | LockUnlock

  datatype RequestState = WaitingLock | WaitingUnlock | WaitingLockUnlock | Processing

  /** Timers and promises are known by number. */
  datatype Entry = Entry(timer: nat, lockMode: LockMode, state: RequestState, promise: nat)

  datatype Purpose = ForLock | ForRead | ForSave(text: string) | ForUnlock

  datatype Settlement = Unsettled | Resolved | Rejected

  datatype Promise = Promise(id: string, purpose: Purpose, settlement: Settlement)

  datatype Command =
    | LockCommand(id: string, path: string, mode: LockMode)
    | UnlockCommand(id: string)
    | SaveCommand(id: string, text: string)

  datatype Client = Client(contextMap: map<string, Entry>, timers: map<nat, string>, promises: map<nat, Promise>,
                           sent: multiset<Command>, next: nat)

  const NEW_CLIENT := Client(map[], map[], map[], multiset{}, 0)

  predicate Waits(state: RequestState)
  {
    state != Processing
  }

  /** resolve() or reject() on a promise; a settled promise ignores both. */
  function Settle(promises: map<nat, Promise>, p: nat, settlement: Settlement): map<nat, Promise>
  {
    if p in promises && promises[p].settlement == Unsettled
    then promises[p := promises[p].(settlement := settlement)]
    else promises
  }

  function Key(reply: Reply): string
  {
    reply.key
  }

  /** The reply carries a context that JSON.parse accepts. */
  predicate Readable(reply: Reply, parses: string -> bool)
  {
    reply.Granted? && (reply.text == "" || parses(reply.text))
  }

  function AfterLock(c: Client, id: string, path: string, mode: LockMode): Client
  {
    var state := if mode == LockUnlock then WaitingLockUnlock else WaitingLock;
    var purpose := if mode == LockUnlock then ForRead else ForLock;
    Client(c.contextMap[id := Entry(c.next, mode, state, c.next)],
           c.timers[c.next := id],
           c.promises[c.next := Promise(id, purpose, Unsettled)],
           c.sent + multiset{LockCommand(id, path, mode)},
           c.next + 1)
  }

  /** A call of unlockContext passes its checks. */
  predicate MayRelease(c: Client, id: string, text: Option<string>)
  {
    && id != "" && id in c.contextMap && c.contextMap[id].state == Processing
    && !(c.contextMap[id].lockMode == RLock && text.Some?)
  }

  /** unlockContext, with the text to save if there is one.  The promise of a refused call is rejected at once. */
  function AfterRelease(c: Client, id: string, text: Option<string>): Client
  {
    var purpose := if text.Some? then ForSave(text.value) else ForUnlock;
    if !MayRelease(c, id, text) then
      c.(promises := c.promises[c.next := Promise(id, purpose, Rejected)], next := c.next + 1)
    else
      Client(c.contextMap[id := c.contextMap[id].(timer := c.next, state := WaitingUnlock, promise := c.next)],
             c.timers[c.next := id],
             c.promises[c.next := Promise(id, purpose, Unsettled)],
             c.sent + multiset{if text.Some? then SaveCommand(id, text.value) else UnlockCommand(id)},
             c.next + 1)
  }

  /** The reply handler. */
  function AfterReply(c: Client, reply: Reply, parses: string -> bool): Client
  {
    var id := reply.key;
    if id !in c.contextMap then c
    else
      var entry := c.contextMap[id];
      var c' := c.(timers := c.timers - {entry.timer});
      var removed := c'.(contextMap := c.contextMap - {id});
      match entry.state
      case WaitingLock =>
        if reply.Refused? then removed.(promises := Settle(c.promises, entry.promise, Rejected))
        else
          var moved := c'.(contextMap := c.contextMap[id := entry.(state := Processing)]);
          if Readable(reply, parses) then moved.(promises := Settle(c.promises, entry.promise, Resolved))
          else moved   // the handler throws
      case WaitingUnlock =>
        removed.(promises := Settle(c.promises, entry.promise, if reply.Refused? then Rejected else Resolved))
      case WaitingLockUnlock =>
        if reply.Refused? then removed.(promises := Settle(c.promises, entry.promise, Rejected))
        else if Readable(reply, parses) then removed.(promises := Settle(c.promises, entry.promise, Resolved))
        else removed   // the handler throws
      case Processing =>
        removed.(promises := Settle(c.promises, entry.promise, Rejected))
  }

  /** timeoutRequest. */
  function AfterTimeout(c: Client, timer: nat): Client
    requires timer in c.timers
  {
    var id := c.timers[timer];
    var c' := c.(timers := c.timers - {timer});
    if id in c.contextMap then
      c'.(contextMap := c.contextMap - {id},
          promises := Settle(c.promises, c.contextMap[id].promise, Rejected))
    else c'
  }

  class ContextManagerClient {
    var contextMap: map<string, Entry>
    var timers: map<nat, string>
    var promises: map<nat, Promise>
    var sent: multiset<Command>
    var next: nat

    function View(): Client
      reads this
    {
      Client(contextMap, timers, promises, sent, next)
    }

    constructor ()
      ensures View() == NEW_CLIENT
    {
      contextMap, timers, promises, sent, next := map[], map[], map[], multiset{}, 0;
    }

    method SettlePromise(p: nat, settlement: Settlement)
      modifies this`promises
      ensures promises == Settle(old(promises), p, settlement)
    {
      if p in promises && promises[p].settlement == Unsettled {
        promises := promises[p := promises[p].(settlement := settlement)];
      }
    }

    method LockAndGetContext(requestId: string, contextName: string, lockMode: LockMode)
      modifies this
      ensures View() == AfterLock(old(View()), requestId, contextName, lockMode)
    {
      var timer := next;
      var contextObj := Entry(timer, lockMode, WaitingLock, next);
      var purpose := ForLock;
      if lockMode == LockUnlock {
        contextObj := contextObj.(state := WaitingLockUnlock);
        purpose := ForRead;
      }
      timers := timers[timer := requestId];
      promises := promises[next := Promise(requestId, purpose, Unsettled)];
      contextMap := contextMap[requestId := contextObj];
      sent := sent + multiset{LockCommand(requestId, contextName, lockMode)};
      next := next + 1;
    }

    method UnlockContext(contextId: string, shouldSave: bool, contextContent: string)
      modifies this
      ensures View() == AfterRelease(old(View()), contextId, if shouldSave then Some(contextContent) else None)
    {
      ghost var text := if shouldSave then Some(contextContent) else None;
      var purpose, request := ForUnlock, UnlockCommand(contextId);
      if shouldSave {
        purpose, request := ForSave(contextContent), SaveCommand(contextId, contextContent);
      }
      if contextId == "" || contextId !in contextMap || contextMap[contextId].state != Processing
         || (contextMap[contextId].lockMode == RLock && shouldSave) {
        assert !MayRelease(View(), contextId, text);
        promises := promises[next := Promise(contextId, purpose, Rejected)];
        next := next + 1;
        return;
      }
      assert MayRelease(View(), contextId, text);
      sent := sent + multiset{request};
      Await(contextId, purpose);
    }

    /** Arms a response timer and hands the entry over to a new promise. */
    method Await(contextId: string, purpose: Purpose)
      requires contextId in contextMap
      modifies this`contextMap, this`timers, this`promises, this`next
      ensures contextMap == old(contextMap)[contextId :=
        old(contextMap)[contextId].(timer := old(next), state := WaitingUnlock, promise := old(next))]
      ensures timers == old(timers)[old(next) := contextId]
      ensures promises == old(promises)[old(next) := Promise(contextId, purpose, Unsettled)]
      ensures next == old(next) + 1
    {
      timers := timers[next := contextId];
      promises := promises[next := Promise(contextId, purpose, Unsettled)];
      contextMap := contextMap[contextId :=
        contextMap[contextId].(timer := next, promise := next, state := WaitingUnlock)];
      next := next + 1;
    }

    method OnMessage(reply: Reply, parses: string -> bool)
      modifies this
      ensures View() == AfterReply(old(View()), reply, parses)
    {
      var id := reply.key;
      if id !in contextMap {
        return;
      }
      var contextEntry := contextMap[id];
      timers := timers - {contextEntry.timer};
      match contextEntry.state
      case WaitingLock =>
        if !reply.Refused? {
          contextMap := contextMap[id := contextEntry.(state := Processing)];
          if Readable(reply, parses) {
            SettlePromise(contextEntry.promise, Resolved);
          }
        } else {
          contextMap := contextMap - {id};
          SettlePromise(contextEntry.promise, Rejected);
        }
      case WaitingUnlock =>
        contextMap := contextMap - {id};
        SettlePromise(contextEntry.promise, if reply.Refused? then Rejected else Resolved);
      case WaitingLockUnlock =>
        contextMap := contextMap - {id};
        if reply.Refused? {
          SettlePromise(contextEntry.promise, Rejected);
        } else if Readable(reply, parses) {
          SettlePromise(contextEntry.promise, Resolved);
        }
      case Processing =>
        contextMap := contextMap - {id};
        SettlePromise(contextEntry.promise, Rejected);
    }

    method TimeoutRequest(timer: nat)
      requires timer in timers
      modifies this
      ensures View() == AfterTimeout(old(View()), timer)
    {
      var id := timers[timer];
      timers := timers - {timer};
      if id in contextMap {
        var contextEntry := contextMap[id];
        contextMap := contextMap - {id};
        SettlePromise(contextEntry.promise, Rejected);
      }
    }
  }

  // ---------- what calls, replies and timeouts do ----------

  /** A reply settles the promise of its entry: a refusal rejects it, a confirmation resolves a release, and a grant
      resolves a lock or a single-shot read if its content can be read; a content that cannot be read settles
      nothing.  The entry stays for a granted lock only. */
  lemma ReplySettles(c: Client, reply: Reply, parses: string -> bool, p: nat)
    requires reply.key in c.contextMap && c.contextMap[reply.key].promise in c.promises && p in c.promises
    ensures var c', entry := AfterReply(c, reply, parses), c.contextMap[reply.key];
            && p in c'.promises
            && c'.promises[p].settlement
               == (if p != entry.promise || c.promises[p].settlement != Unsettled then c.promises[p].settlement
                   else if reply.Refused? || entry.state == Processing then Rejected
                   else if entry.state == WaitingUnlock then Resolved
                   else if reply.Granted? && (reply.text == "" || parses(reply.text)) then Resolved
                   else Unsettled)
            && (reply.key in c'.contextMap <==> entry.state == WaitingLock && !reply.Refused?)
            && (reply.key in c'.contextMap ==> c'.contextMap[reply.key].state == Processing)
            && entry.timer !in c'.timers && c'.sent == c.sent
  {
  }

  /** A timeout rejects the promise of its entry and takes the entry out; a reply or a timeout for a request that is
      not in the table changes no entry and no promise. */
  lemma TimeoutRejects(c: Client, timer: nat, p: nat)
    requires timer in c.timers && p in c.promises
    requires c.timers[timer] in c.contextMap ==> c.contextMap[c.timers[timer]].promise in c.promises
    ensures var c', id := AfterTimeout(c, timer), c.timers[timer];
            && p in c'.promises && id !in c'.contextMap && timer !in c'.timers && c'.sent == c.sent
            && c'.promises[p].settlement
               == if id in c.contextMap && p == c.contextMap[id].promise && c.promises[p].settlement == Unsettled
                  then Rejected else c.promises[p].settlement
  {
  }

  /** The commands that calls send, and the calls that are rejected in place. */
  lemma CallsSend(c: Client, id: string, path: string, mode: LockMode, text: Option<string>)
    ensures AfterLock(c, id, path, mode).sent == c.sent + multiset{LockCommand(id, path, mode)}
    ensures AfterLock(c, id, path, mode).promises[c.next].settlement == Unsettled
    ensures var mayRelease := id != "" && id in c.contextMap && c.contextMap[id].state == Processing
                              && (text.None? || c.contextMap[id].lockMode != RLock);
            && AfterRelease(c, id, text).sent
               == (if !mayRelease then c.sent
                   else if text.Some? then c.sent + multiset{SaveCommand(id, text.value)}
                   else c.sent + multiset{UnlockCommand(id)})
            && AfterRelease(c, id, text).promises[c.next].settlement == if mayRelease then Unsettled else Rejected
  {
  }

  // ---------- the table over all orders of calls, replies and timeouts ----------

  datatype Step =
    | Lock(id: string, path: string, mode: LockMode)
    | Release(id: string, text: Option<string>)
    | Receive(reply: Reply)
    | Expire(timer: nat)

  /** Request ids are fresh uuids, and only an armed timer fires. */
  predicate Possible(c: Client, used: set<string>, step: Step)
  {
    match step
    case Lock(id, _, _) => id !in used
    case Release(_, _) => true
    case Receive(_) => true
    case Expire(timer) => timer in c.timers
  }

  function Moved(c: Client, step: Step, parses: string -> bool): Client
    requires step.Expire? ==> step.timer in c.timers
  {
    match step
    case Lock(id, path, mode) => AfterLock(c, id, path, mode)
    case Release(id, text) => AfterRelease(c, id, text)
    case Receive(reply) => AfterReply(c, reply, parses)
    case Expire(timer) => AfterTimeout(c, timer)
  }

  function Used(used: set<string>, step: Step): set<string>
  {
    if step.Lock? then used + {step.id} else used
  }

  /** A positive reply to a request that waits for a content carries one that parses. */
  predicate WellFormed(c: Client, step: Step, parses: string -> bool)
  {
    step.Receive? && !step.reply.Refused? && step.reply.key in c.contextMap
    && (c.contextMap[step.reply.key].state == WaitingLock || c.contextMap[step.reply.key].state == WaitingLockUnlock)
    ==> Readable(step.reply, parses)
  }

  ghost predicate EntryInv(c: Client, id: string)
    requires id in c.contextMap
  {
    var e := c.contextMap[id];
    && e.promise in c.promises && c.promises[e.promise].id == id && e.promise < c.next && e.timer < c.next
    && (Waits(e.state) ==> e.timer in c.timers && c.timers[e.timer] == id
                           && c.promises[e.promise].settlement == Unsettled)
    && (e.state == Processing ==> e.timer !in c.timers && c.promises[e.promise] == Promise(id, ForLock, Resolved))
    && (e.lockMode == LockUnlock <==> e.state == WaitingLockUnlock)
    && (match e.state
        case WaitingLock => c.promises[e.promise].purpose == ForLock
        case WaitingLockUnlock => c.promises[e.promise].purpose == ForRead
        case WaitingUnlock => c.promises[e.promise].purpose == ForUnlock || c.promises[e.promise].purpose.ForSave?
        case Processing => true)
  }

  ghost predicate TimerInv(c: Client, t: nat)
    requires t in c.timers
  {
    && t < c.next && c.timers[t] in c.contextMap
    && c.contextMap[c.timers[t]].timer == t && Waits(c.contextMap[c.timers[t]].state)
  }

  ghost predicate PromiseInv(c: Client, p: nat)
    requires p in c.promises
  {
    && p < c.next
    && (c.promises[p].settlement == Unsettled ==>
          && c.promises[p].id in c.contextMap
          && c.contextMap[c.promises[p].id].promise == p && Waits(c.contextMap[c.promises[p].id].state))
  }

  /** Waiting entries, armed timers and unsettled promises are in one-to-one correspondence. */
  ghost predicate ClientInv(c: Client)
  {
    && (forall id :: id in c.contextMap ==> EntryInv(c, id))
    && (forall t :: t in c.timers ==> TimerInv(c, t))
    && (forall p :: p in c.promises ==> PromiseInv(c, p))
  }

  /** Settled promises stay as they are. */
  ghost predicate SettledOnce(c: Client, c': Client)
  {
    forall p :: p in c.promises ==>
      p in c'.promises && (c.promises[p].settlement != Unsettled ==> c'.promises[p] == c.promises[p])
  }

  /** The entry goes, with its timer, and its promise is settled unless it was. */
  function Dropped(c: Client, id: string, settlement: Settlement): Client
    requires id in c.contextMap
  {
    c.(contextMap := c.contextMap - {id}, timers := c.timers - {c.contextMap[id].timer},
       promises := Settle(c.promises, c.contextMap[id].promise, settlement))
  }

  lemma DropKeepsInv(c: Client, id: string, settlement: Settlement)
    requires ClientInv(c) && id in c.contextMap && settlement != Unsettled
    ensures ClientInv(Dropped(c, id, settlement)) && SettledOnce(c, Dropped(c, id, settlement))
  {
    var c' := Dropped(c, id, settlement);
    assert EntryInv(c, id);
    forall k | k in c'.contextMap
      ensures EntryInv(c', k)
    {
      assert EntryInv(c, k);
    }
    forall t | t in c'.timers
      ensures TimerInv(c', t)
    {
      assert TimerInv(c, t);
    }
    forall p | p in c'.promises
      ensures PromiseInv(c', p)
    {
      assert PromiseInv(c, p);
    }
  }

  lemma LockKeepsInv(c: Client, id: string, path: string, mode: LockMode)
    requires ClientInv(c) && id !in c.contextMap
    ensures ClientInv(AfterLock(c, id, path, mode)) && SettledOnce(c, AfterLock(c, id, path, mode))
  {
    var c' := AfterLock(c, id, path, mode);
    FreshNumber(c);
    forall k | k in c'.contextMap
      ensures EntryInv(c', k)
    {
      if k != id {
        assert EntryInv(c, k);
      }
    }
    forall t | t in c'.timers
      ensures TimerInv(c', t)
    {
      if t != c.next {
        assert TimerInv(c, t);
      }
    }
    forall p | p in c'.promises
      ensures PromiseInv(c', p)
    {
      if p != c.next {
        assert PromiseInv(c, p);
      }
    }
  }

  lemma FreshNumber(c: Client)
    requires ClientInv(c)
    ensures c.next !in c.promises && c.next !in c.timers
  {
  }

  lemma ReleaseKeepsInv(c: Client, id: string, text: Option<string>)
    requires ClientInv(c)
    ensures ClientInv(AfterRelease(c, id, text)) && SettledOnce(c, AfterRelease(c, id, text))
  {
    FreshNumber(c);
    if MayRelease(c, id, text) {
      AcceptedReleaseKeepsInv(c, id, text);
    } else {
      RejectedPromiseKeepsInv(c, Promise(id, if text.Some? then ForSave(text.value) else ForUnlock, Rejected));
    }
  }

  lemma RejectedPromiseKeepsInv(c: Client, q: Promise)
    requires ClientInv(c) && c.next !in c.promises && q.settlement == Rejected
    ensures var c' := c.(promises := c.promises[c.next := q], next := c.next + 1); ClientInv(c') && SettledOnce(c, c')
  {
    var c' := c.(promises := c.promises[c.next := q], next := c.next + 1);
    assert forall k :: k in c.contextMap ==> EntryInv(c, k) && EntryInv(c', k);
    assert forall t :: t in c.timers ==> TimerInv(c, t) && TimerInv(c', t);
    assert forall p :: p in c.promises ==> PromiseInv(c, p) && PromiseInv(c', p);
  }

  lemma AcceptedReleaseKeepsInv(c: Client, id: string, text: Option<string>)
    requires ClientInv(c) && MayRelease(c, id, text) && c.next !in c.promises && c.next !in c.timers
    ensures ClientInv(AfterRelease(c, id, text)) && SettledOnce(c, AfterRelease(c, id, text))
  {
    var c' := AfterRelease(c, id, text);
    ReleaseKeepsEntries(c, id, text);
    assert EntryInv(c, id);
    forall t | t in c'.timers && t != c.next
      ensures TimerInv(c', t)
    {
      assert TimerInv(c, t);
    }
    forall p | p in c'.promises && p != c.next
      ensures PromiseInv(c', p)
    {
      assert PromiseInv(c, p);
    }
  }

  lemma ReleaseKeepsEntries(c: Client, id: string, text: Option<string>)
    requires MayRelease(c, id, text) && c.next !in c.promises && c.next !in c.timers
    requires forall k :: k in c.contextMap ==> EntryInv(c, k)
    ensures var c' := AfterRelease(c, id, text); forall k :: k in c'.contextMap ==> EntryInv(c', k)
  {
    var c' := AfterRelease(c, id, text);
    forall k | k in c'.contextMap
      ensures EntryInv(c', k)
    {
      assert EntryInv(c, k);
    }
  }

  /** A readable grant: the entry is kept, without a timer, and the promise is resolved. */
  lemma GrantKeepsInv(c: Client, id: string)
    requires ClientInv(c) && id in c.contextMap && c.contextMap[id].state == WaitingLock
    ensures var c' := c.(timers := c.timers - {c.contextMap[id].timer},
                         contextMap := c.contextMap[id := c.contextMap[id].(state := Processing)],
                         promises := Settle(c.promises, c.contextMap[id].promise, Resolved));
            ClientInv(c') && SettledOnce(c, c')
  {
    var c' := c.(timers := c.timers - {c.contextMap[id].timer},
                 contextMap := c.contextMap[id := c.contextMap[id].(state := Processing)],
                 promises := Settle(c.promises, c.contextMap[id].promise, Resolved));
    assert EntryInv(c, id);
    forall k | k in c'.contextMap
      ensures EntryInv(c', k)
    {
      assert EntryInv(c, k);
    }
    forall t | t in c'.timers
      ensures TimerInv(c', t)
    {
      assert TimerInv(c, t);
    }
    forall p | p in c'.promises
      ensures PromiseInv(c', p)
    {
      assert PromiseInv(c, p);
    }
  }

  lemma ReplyKeepsInv(c: Client, reply: Reply, parses: string -> bool)
    requires ClientInv(c) && WellFormed(c, Receive(reply), parses)
    ensures ClientInv(AfterReply(c, reply, parses)) && SettledOnce(c, AfterReply(c, reply, parses))
    ensures AfterReply(c, reply, parses).contextMap.Keys <= c.contextMap.Keys
  {
    var id := reply.key;
    if id in c.contextMap {
      var entry := c.contextMap[id];
      if entry.state == WaitingLock && !reply.Refused? {
        GrantKeepsInv(c, id);
      } else {
        var settlement := if reply.Refused? || entry.state == Processing then Rejected else Resolved;
        DropKeepsInv(c, id, settlement);
        assert AfterReply(c, reply, parses) == Dropped(c, id, settlement);
      }
    }
  }

  lemma TimeoutKeepsInv(c: Client, timer: nat)
    requires ClientInv(c) && timer in c.timers
    ensures ClientInv(AfterTimeout(c, timer)) && SettledOnce(c, AfterTimeout(c, timer))
    ensures AfterTimeout(c, timer) == Dropped(c, c.timers[timer], Rejected)
  {
    assert TimerInv(c, timer);
    DropKeepsInv(c, c.timers[timer], Rejected);
  }

  /** Over all orders of calls, replies and timeouts: every waiting entry has one live timer and an unsettled
      promise, every processing entry has none and a resolved lock promise, single-shot reads never get to
      processing, and a promise that has been settled is never settled otherwise. */
  lemma StepKeepsClientInv(c: Client, used: set<string>, step: Step, parses: string -> bool)
    requires ClientInv(c) && c.contextMap.Keys <= used && Possible(c, used, step) && WellFormed(c, step, parses)
    ensures ClientInv(Moved(c, step, parses)) && SettledOnce(c, Moved(c, step, parses))
    ensures Moved(c, step, parses).contextMap.Keys <= Used(used, step)
  {
    match step
    case Lock(id, path, mode) => LockKeepsInv(c, id, path, mode);
    case Release(id, text) => ReleaseKeepsInv(c, id, text);
    case Receive(reply) => ReplyKeepsInv(c, reply, parses);
    case Expire(timer) => TimeoutKeepsInv(c, timer);
  }

  ghost predicate PossibleRun(c: Client, used: set<string>, run: seq<Step>, parses: string -> bool)
    decreases |run|
  {
    run == [] || (Possible(c, used, run[0]) && WellFormed(c, run[0], parses)
                  && PossibleRun(Moved(c, run[0], parses), Used(used, run[0]), run[1..], parses))
  }

  ghost function AfterRun(c: Client, used: set<string>, run: seq<Step>, parses: string -> bool): Client
    requires PossibleRun(c, used, run, parses)
    decreases |run|
  {
    if run == [] then c else AfterRun(Moved(c, run[0], parses), Used(used, run[0]), run[1..], parses)
  }

  lemma {:induction false} RunKeepsClientInv(c: Client, used: set<string>, run: seq<Step>, parses: string -> bool)
    requires ClientInv(c) && c.contextMap.Keys <= used && PossibleRun(c, used, run, parses)
    ensures ClientInv(AfterRun(c, used, run, parses)) && SettledOnce(c, AfterRun(c, used, run, parses))
    decreases |run|
  {
    if run != [] {
      StepKeepsClientInv(c, used, run[0], parses);
      RunKeepsClientInv(Moved(c, run[0], parses), Used(used, run[0]), run[1..], parses);
    }
  }

  /** In every state that a new client reaches: waiting entries, armed timers and unsettled promises are in
      one-to-one correspondence, so a promise without an answer has a timer that will settle it. */
  lemma NoCallerIsForgotten(run: seq<Step>, parses: string -> bool, p: nat)
    requires PossibleRun(NEW_CLIENT, {}, run, parses)
    requires p in AfterRun(NEW_CLIENT, {}, run, parses).promises
    requires AfterRun(NEW_CLIENT, {}, run, parses).promises[p].settlement == Unsettled
    ensures var c := AfterRun(NEW_CLIENT, {}, run, parses);
            exists t :: t in c.timers && c.timers[t] == c.promises[p].id
                        && AfterTimeout(c, t).promises[p].settlement == Rejected
  {
    RunKeepsClientInv(NEW_CLIENT, {}, run, parses);
    var c := AfterRun(NEW_CLIENT, {}, run, parses);
    assert PromiseInv(c, p);
    assert EntryInv(c, c.promises[p].id);
  }

  /** Exactly when a step keeps the table in order: a positive answer that does not parse makes the handler
      throw between the change of state and the settlement, and leaves a caller waiting for good. */
  lemma UnreadableReplyExactly(c: Client, used: set<string>, step: Step, parses: string -> bool)
    requires ClientInv(c) && c.contextMap.Keys <= used && Possible(c, used, step)
    ensures ClientInv(Moved(c, step, parses)) <==> WellFormed(c, step, parses)
  {
    if WellFormed(c, step, parses) {
      StepKeepsClientInv(c, used, step, parses);
    } else {
      var id := step.reply.key;
      var c' := Moved(c, step, parses);
      assert EntryInv(c, id);
      var p := c.contextMap[id].promise;
      assert c'.promises[p].settlement == Unsettled && !PromiseInv(c', p);
    }
  }

  /** A request that has left the table never comes back, for its id is not used again. */
  lemma {:induction false} GoneStays(c: Client, used: set<string>, run: seq<Step>, parses: string -> bool, id: string)
    requires PossibleRun(c, used, run, parses) && id in used && id !in c.contextMap
    ensures id !in AfterRun(c, used, run, parses).contextMap
    decreases |run|
  {
    if run != [] {
      GoneStays(Moved(c, run[0], parses), Used(used, run[0]), run[1..], parses, id);
    }
  }

  /** Once the client has given a request up, a reply to it changes nothing, whatever has happened since. */
  lemma LateReplyIsIgnored(c: Client, used: set<string>, timer: nat, run: seq<Step>, reply: Reply,
                           parses: string -> bool)
    requires ClientInv(c) && c.contextMap.Keys <= used && timer in c.timers && reply.key == c.timers[timer]
    requires PossibleRun(AfterTimeout(c, timer), used, run, parses)
    ensures var c' := AfterRun(AfterTimeout(c, timer), used, run, parses); AfterReply(c', reply, parses) == c'
  {
    TimeoutKeepsInv(c, timer);
    assert TimerInv(c, timer);
    GoneStays(AfterTimeout(c, timer), used, run, parses, reply.key);
  }
}
