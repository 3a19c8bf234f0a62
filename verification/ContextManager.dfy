/**
 The context manager process: the lock table and the callbacks of the lock class and the context handler,
 each of which updates the process's own state in place.  Every callback is tied to the step of the
 transition system that it is.  ZooKeeper itself is the ghost field `store`, which no callback writes.
 */
module ContextManager {
  import opened Options
  import opened LockNames
  import opened LockScan
  import opened ContextService

  datatype ResultCode = ZOk | ZNoNode | ZError

  /** The step at the end of the timeout delete, spelled out. */
  lemma TimeoutDeleteEnds(s: State, h: Handle, fails: bool)
    requires h in s.requests && if fails then s.requests[h].wait.DeleteSent? else s.requests[h].wait.DeleteServed?
    ensures var r, step := s.requests[h], if fails then TimeoutDeleteFails else OnTimeoutDelete;
            Next(s, Acquire(h, step))
            == s.(requests := s.requests[h := r.(wait := if fails then FireFailed else Fired)],
                  outbox := if Waiting(r.phase) then s.outbox + multiset{Refused(r.key)} else s.outbox)
  {
  }

  /** Who is told what when a release ends: the client of a save or an unlock whether it went well, that of a
      single-shot read its content if it did, and nobody after the hold timeout. */
  ghost function Answer(key: string, purpose: Purpose, deleted: bool): multiset<Reply>
  {
    if purpose == AfterHoldTimeout then multiset{}
    else if !deleted then multiset{Refused(key)}
    else if purpose.AfterSingleShot? then multiset{Granted(key, purpose.text)}
    else multiset{Okay(key)}
  }

  lemma ReleaseIsAnswered(key: string, purpose: Purpose, deleted: bool)
    ensures ReleaseReply(key, purpose, deleted) == Answer(key, purpose, deleted)
  {
  }

  class ContextHandler {
    var requests: map<Handle, Request>   // the closures of the pending calls, timers and watches
    var controlMap: map<string, Handle>  // the locks that clients hold, by connection and request id
    var outbox: multiset<Reply>          // the replies handed to the socket
    ghost var store: map<string, Znode>
    ghost const base: nat

    ghost function View(): State
      reads this
    {
      State(base, store, requests, controlMap, outbox)
    }

    constructor (ghost base: nat)
      ensures View() == Init(base)
    {
      this.base := base;
      requests, controlMap, outbox, store := map[], map[], multiset{}, map[];
    }

    method Reply(reply: Reply)
      modifies this`outbox
      ensures outbox == old(outbox) + multiset{reply}
    {
      outbox := outbox + multiset{reply};
    }

    method LockAndGet(h: Handle, key: string, path: string, mode: Mode, singleShot: bool)
      requires Enabled(View(), LockRequest(h, key, path, mode, singleShot))
      modifies this`requests
      ensures View() == Next(old(View()), LockRequest(h, key, path, mode, singleShot))
    {
      requests := requests[h := Request(key, path, mode, singleShot, None, Creating, Unset)];
    }

    method OnCreate(h: Handle, rc: ResultCode)
      requires Enabled(View(), Acquire(h, if rc == ZOk then OnCreated else CreateFails))
      modifies this`requests, this`outbox
      ensures View() == Next(old(View()), Acquire(h, if rc == ZOk then OnCreated else CreateFails))
    {
      if rc != ZOk {
        requests := requests[h := requests[h].(phase := Done)];
        Reply(Refused(requests[h].key));
        return;
      }
      requests := requests[h := requests[h].(wait := Armed)];
      TryLock(h);
    }

    method TryLock(h: Handle)
      requires h in requests
      modifies this`requests
      ensures requests == old(requests)[h :=
        old(requests)[h].(phase := Scanning(None, TimeoutDeletePending(old(requests)[h].wait)))]
    {
      var late := TimeoutDeletePending(requests[h].wait);
      requests := requests[h := requests[h].(phase := Scanning(None, late))];
    }

    /** The callback of a_get_children, with the scan over the names that ZooKeeper returned, in any order. */
    method OnChildren(h: Handle, rc: ResultCode, children: seq<string>)
      requires h in requests && requests[h].phase.Scanning?
      requires rc == ZOk ==>
        && requests[h].phase.view == Some(Nodes(children)) && AllLockNames(children)
        && requests[h].node.Some? && requests[h].node.value.number < SEQUENCE_LIMIT
        && requests[h].node.value.mode == requests[h].mode
        && (requests[h].phase.late ==> !TimeoutDeletePending(requests[h].wait))
      modifies this`requests, this`outbox
      ensures rc != ZOk ==> View() == Next(old(View()), Acquire(h, ChildrenFails))
      ensures rc == ZOk ==> exists found ::
        Enabled(old(View()), Acquire(h, ContextService.OnChildren(found)))
        && View() == Next(old(View()), Acquire(h, ContextService.OnChildren(found)))
    {
      var r := requests[h];
      if rc != ZOk {
        requests := requests[h := r.(phase := Abandoned)];
        if !TimedOut(r.wait) {
          Reply(Refused(r.key));
        }
        return;
      }
      var found := NodeToBeWatched(children, r.node.value);
      Decide(h, found);
    }

    /** The scan that fits the lock mode, over names. */
    static method NodeToBeWatched(children: seq<string>, node: LockNode) returns (found: Option<LockNode>)
      requires AllLockNames(children) && node.number < SEQUENCE_LIMIT
      ensures ScanResult(Nodes(children), node, found)
    {
      var lockNode := Name(node);
      NameRoundTrip(node);
      var nodeToBeWatched;
      if node.mode == Read {
        nodeToBeWatched := FindNextElemToBeWatchedReadCase(children, lockNode);
      } else {
        nodeToBeWatched := FindNextElemToBeWatchedWriteCase(children, lockNode);
      }
      found := if nodeToBeWatched.Some? then Some(Parse(nodeToBeWatched.value)) else None;
    }

    /** Acquires the lock if there is nothing to watch, else asks for the watch. */
    method Decide(h: Handle, nodeToBeWatched: Option<LockNode>)
      requires Enabled(View(), Acquire(h, ContextService.OnChildren(nodeToBeWatched)))
      modifies this`requests
      ensures View() == Next(old(View()), Acquire(h, ContextService.OnChildren(nodeToBeWatched)))
    {
      var r := requests[h];
      if nodeToBeWatched.None? {
        if TimedOut(r.wait) {
          requests := requests[h := r.(phase := Done)];   // the promise was rejected long ago
        } else {
          var wait := if r.wait.Armed? then Cleared else r.wait;   // clearTimeout
          requests := requests[h := r.(phase := Reading(None), wait := wait)];
        }
      } else {
        requests := requests[h := r.(phase := Checking(nodeToBeWatched.value))];
      }
    }

    /** The completion callback of aw_exists. */
    method OnExists(h: Handle, rc: ResultCode)
      requires h in requests
      requires match rc
               case ZOk => requests[h].phase.Watching?
               case ZNoNode => requests[h].phase.Missing?
               case ZError => requests[h].phase.Checking?
      modifies this`requests, this`outbox
      ensures View() == match rc
                        case ZOk => old(View())
                        case ZNoNode => Next(old(View()), Acquire(h, OnMissing))
                        case ZError => Next(old(View()), Acquire(h, WatchFails))
    {
      if rc == ZNoNode {
        TryLock(h);
      } else if rc == ZError {
        AbandonWait(h);
      }
    }

    /** The watcher callback of aw_exists. */
    method OnWatch(h: Handle, connected: bool)
      requires h in requests && if connected then requests[h].phase.Notified? else requests[h].phase.Watching?
      modifies this`requests, this`outbox
      ensures View() == Next(old(View()), Acquire(h, if connected then OnWatchEvent else WatchFails))
    {
      if connected {
        TryLock(h);
      } else {
        AbandonWait(h);
      }
    }

    method AbandonWait(h: Handle)
      requires h in requests && (requests[h].phase.Checking? || requests[h].phase.Watching?)
      modifies this`requests, this`outbox
      ensures View() == Next(old(View()), Acquire(h, WatchFails))
    {
      var r := requests[h];
      requests := requests[h := r.(phase := Abandoned)];
      if !TimedOut(r.wait) {
        Reply(Refused(r.key));
      }
    }

    method LockWaitTimeout(h: Handle)
      requires Enabled(View(), Acquire(h, WaitTimerFires))
      modifies this`requests
      ensures View() == Next(old(View()), Acquire(h, WaitTimerFires))
    {
      requests := requests[h := requests[h].(wait := DeleteSent)];
    }

    method OnTimeoutDelete(h: Handle, rc: ResultCode)
      requires h in requests && if rc == ZError then requests[h].wait.DeleteSent? else requests[h].wait.DeleteServed?
      modifies this`requests, this`outbox
      ensures rc == ZError ==> View() == Next(old(View()), Acquire(h, TimeoutDeleteFails))
      ensures rc != ZError ==> View() == Next(old(View()), Acquire(h, ContextService.OnTimeoutDelete))
    {
      var r := requests[h];
      TimeoutDeleteEnds(View(), h, rc == ZError);
      if rc == ZError {
        requests := requests[h := r.(wait := FireFailed)];
      } else {
        requests := requests[h := r.(wait := Fired)];
      }
      if Waiting(r.phase) {
        Reply(Refused(r.key));
      }
    }

    /** The callback of a_get: the table entry and the hold timer, or for a single-shot read the release. */
    method OnGet(h: Handle, rc: ResultCode, protectedData: string)
      requires h in requests && requests[h].phase.Reading?
      requires rc == ZOk ==> requests[h].phase.got.Some? && requests[h].phase.got.value.text == protectedData
      modifies this`requests, this`controlMap, this`outbox
      ensures rc == ZOk ==> View() == Next(old(View()), Hold(h, ContextService.OnGet))
      ensures rc != ZOk ==> View() == Next(old(View()), Hold(h, GetFails))
      ensures outbox == if rc != ZOk then old(outbox) + multiset{Refused(old(requests)[h].key)}
                        else if old(requests)[h].singleShot then old(outbox)
                        else old(outbox) + multiset{Granted(old(requests)[h].key, protectedData)}
    {
      var r := requests[h];
      if rc != ZOk {
        requests := requests[h := r.(phase := Leaked)];
        Reply(Refused(r.key));
        return;
      }
      Register(h);
      if r.singleShot {
        ReleaseSingleShot(h, protectedData);
        assert requests == old(requests)[h := r.(phase := Deleting(AfterSingleShot(protectedData), None))];
        assert controlMap == old(controlMap) - {r.key};
      } else {
        Reply(Granted(r.key, protectedData));
      }
    }

    /** Arms the hold timer and enters the lock into the table. */
    method Register(h: Handle)
      requires h in requests && requests[h].phase.Reading? && requests[h].phase.got.Some?
      modifies this`requests, this`controlMap
      ensures requests == old(requests)[h :=
        old(requests)[h].(phase := Held(old(requests)[h].phase.got.value))]
      ensures controlMap == old(controlMap)[old(requests)[h].key := h]
    {
      controlMap := controlMap[requests[h].key := h];
      requests := requests[h := requests[h].(phase := Held(requests[h].phase.got.value))];
    }

    /** `lock_get_and_unlock`: the read is followed by the unlock at once. */
    method ReleaseSingleShot(h: Handle, protectedData: string)
      requires h in requests
      modifies this`requests, this`controlMap
      ensures controlMap == old(controlMap) - {old(requests)[h].key}
      ensures requests == old(requests)[h :=
        old(requests)[h].(phase := Deleting(AfterSingleShot(protectedData), None))]
    {
      controlMap := controlMap - {requests[h].key};
      requests := requests[h := requests[h].(phase := Deleting(AfterSingleShot(protectedData), None))];
    }

    method SaveAndUnlock(key: string, contextContent: string)
      requires forall k :: k in controlMap ==> controlMap[k] in requests && requests[controlMap[k]].phase.Held?
      modifies this`requests, this`controlMap, this`outbox
      ensures View() == Next(old(View()), SaveRequest(key, contextContent))
      ensures outbox == if contextContent != ""
                           && (key !in old(controlMap) || old(requests)[old(controlMap)[key]].mode == Read)
                        then old(outbox) + multiset{Refused(key)} else old(outbox)
    {
      if contextContent == "" {
        return;
      }
      if key !in controlMap {
        Reply(Refused(key));
        return;
      }
      var controlEntry := controlMap[key];
      if requests[controlEntry].mode == Read {
        Reply(Refused(key));
        return;
      }
      controlMap := controlMap - {key};
      var r := requests[controlEntry];
      requests := requests[controlEntry := r.(phase := Writing(r.phase.held, contextContent, false))];
    }

    method OnSet(h: Handle, rc: ResultCode)
      requires Enabled(View(), Hold(h, if rc == ZOk then ContextService.OnSet else SetFails))
      modifies this`requests, this`outbox
      ensures View() == Next(old(View()), Hold(h, if rc == ZOk then ContextService.OnSet else SetFails))
    {
      if rc != ZOk {
        requests := requests[h := requests[h].(phase := Leaked)];
        Reply(Refused(requests[h].key));
        return;
      }
      requests := requests[h := requests[h].(phase := Deleting(AfterSave, None))];
    }

    method Unlock(key: string)
      requires forall k :: k in controlMap ==> controlMap[k] in requests
      modifies this`requests, this`controlMap, this`outbox
      ensures View() == Next(old(View()), UnlockRequest(key))
      ensures outbox == if key in old(controlMap) then old(outbox) else old(outbox) + multiset{Refused(key)}
    {
      if key !in controlMap {
        Reply(Refused(key));
        return;
      }
      var controlEntry := controlMap[key];
      controlMap := controlMap - {key};
      requests := requests[controlEntry := requests[controlEntry].(phase := Deleting(AfterUnlock, None))];
    }

    method Timeout(h: Handle)
      requires Enabled(View(), Hold(h, HoldTimerFires))
      modifies this`requests, this`controlMap
      ensures View() == Next(old(View()), Hold(h, HoldTimerFires))
    {
      controlMap := controlMap - {requests[h].key};
      requests := requests[h := requests[h].(phase := Deleting(AfterHoldTimeout, None))];
    }

    /** The callback of a_delete_: for a save or an unlock it answers the client. */
    method OnDelete(h: Handle, rc: ResultCode)
      requires h in requests && requests[h].phase.Deleting?
      requires requests[h].phase.found
            == match rc case ZOk => Some(true) case ZNoNode => Some(false) case ZError => None
      modifies this`requests, this`outbox
      ensures rc == ZError ==> View() == Next(old(View()), Hold(h, DeleteFails))
      ensures rc != ZError ==> View() == Next(old(View()), Hold(h, ContextService.OnDelete))
      ensures outbox == old(outbox) + Answer(old(requests)[h].key, old(requests)[h].phase.purpose, rc == ZOk)
    {
      var r := requests[h];
      ReleaseIsAnswered(r.key, r.phase.purpose, rc == ZOk);
      if rc == ZError {
        requests := requests[h := r.(phase := Leaked)];
      } else {
        requests := requests[h := r.(phase := Done)];
      }
      AnswerRelease(r.key, r.phase.purpose, rc == ZOk);
    }

    method AnswerRelease(key: string, purpose: Purpose, success: bool)
      modifies this`outbox
      ensures outbox == old(outbox) + Answer(key, purpose, success)
    {
      match purpose
      case AfterHoldTimeout =>
      case AfterSingleShot(text) =>
        if success {
          Reply(Granted(key, text));
        } else {
          Reply(Refused(key));
        }
      case _ =>
        if success {
          Reply(Okay(key));
        } else {
          Reply(Refused(key));
        }
    }
  }
}
