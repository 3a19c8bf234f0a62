/**
 From the caller to the lock service and back: an accepted release, with a save or without, whose messages arrive,
 whose calls succeed and whose timers do not fire, ends with its promise resolved.
 */
module ReleaseComesThrough {
  import opened Options
  import opened LockNames
  import opened ContextService
  import opened ContextInvariant
  import opened ContextSafety
  import opened ContextWrites
  import opened ContextAnswers
  import ClientCluster
  import C = ContextClient
  import E = EndToEnd

  // ---------- what has been refused ----------

  /** The attempt will not be granted any more, or its lock has been given up. */
  predicate Hopeless(r: Request)
  {
    r.phase.Abandoned? || r.phase.Leaked? || r.phase.Done? || (Waiting(r.phase) && TimedOut(r.wait))
  }

  /** No refusal of a request is on its way to a client that has got the lock or still may. */
  ghost predicate Unrefused(s: State, id: string, life: E.Life)
  {
    match life
    case Asked(_, _) => Refused(id) !in s.outbox
    case Serving(_, _, h) =>
      h in s.requests && !s.requests[h].singleShot && Refused(id) in s.outbox ==>
        Hopeless(s.requests[h]) && E.NoGrant(s.outbox, id)
    case Given(_, _, _, _) => Refused(id) !in s.outbox
    case Released(_, _, _, _, _) => true
  }

  /** A held lock of a request is in the table. */
  ghost predicate InTable(s: State, id: string, life: E.Life)
  {
    !life.Asked? && life.h in s.requests && s.requests[life.h].phase.Held? ==>
      id in s.controlMap && s.controlMap[id] == life.h
  }

  ghost predicate AllUnrefused(s: State, lives: map<string, E.Life>)
  {
    forall id :: id in lives ==> Unrefused(s, id, lives[id]) && InTable(s, id, lives[id])
  }

  lemma MessageOfOthersSparesTable(s: State, e: Event, id: string)
    requires Enabled(s, e) && TableInv(s) && E.KeyOf(s, e) != id
    ensures id in s.controlMap <==> id in Next(s, e).controlMap
    ensures id in s.controlMap ==> Next(s, e).controlMap[id] == s.controlMap[id]
  {
    match e
    case Acquire(h, step) => AcquireSparesTable(s, h, step);
    case Hold(h, step) => HoldSparesTable(s, h, step, id);
    case _ =>
  }

  lemma AcquireSparesTable(s: State, h: Handle, step: AcquireStep)
    requires h in s.requests && AcquireEnabled(s.requests[h], step)
    ensures NextAcquire(s, h, step).controlMap == s.controlMap
  {
  }

  lemma HoldSparesTable(s: State, h: Handle, step: HolderStep, id: string)
    requires h in s.requests && HoldEnabled(s.requests[h].phase, step) && s.requests[h].key != id
    ensures id in s.controlMap <==> id in NextHold(s, h, step).controlMap
    ensures id in s.controlMap ==> NextHold(s, h, step).controlMap[id] == s.controlMap[id]
  {
  }

  /** Events about other keys. */
  lemma OthersKeepUnrefused(s: State, e: Event, id: string, life: E.Life)
    requires Enabled(s, e) && TableInv(s) && E.KeyOf(s, e) != id && E.ServiceInv(s, id, life)
    requires Unrefused(s, id, life) && InTable(s, id, life)
    ensures Unrefused(Next(s, e), id, life) && InTable(Next(s, e), id, life)
  {
    E.EventReplies(s, e);
    E.RepliesToOthers(s.outbox, E.Replies(s, e), id);
    assert (s.outbox + E.Replies(s, e))[Refused(id)] == s.outbox[Refused(id)];
    MessageOfOthersSparesTable(s, e, id);
    if !life.Asked? {
      if !e.LockRequest? && Subject(s, e).Some? {
        E.SubjectHasKey(s, e);
      }
      Bystander(s, e, life.h);
    }
  }

  lemma OwnAcquireKeepsUnrefused(s: State, h: Handle, step: AcquireStep, id: string, life: E.Life)
    requires h in s.requests && AcquireEnabled(s.requests[h], step) && PhaseInv(s.requests[h])
    requires E.ServiceInv(s, id, life) && !life.Asked? && life.h == h
    requires Unrefused(s, id, life) && InTable(s, id, life)
    ensures Unrefused(NextAcquire(s, h, step), id, life) && InTable(NextAcquire(s, h, step), id, life)
  {
    var r := s.requests[h];
    ProtocolAnswers(s, h, step);
    AcquireResult(s, h, step);
    ProtocolIsUnanswered(r, ZnodeAt(s, r.path), step);
    AcquireSparesTable(s, h, step);
    E.MoreRefusals(s.outbox, AcquireReply(r, step), r.key, id);
  }

  lemma OwnHoldKeepsTable(s: State, h: Handle, step: HolderStep, id: string, life: E.Life)
    requires h in s.requests && HoldEnabled(s.requests[h].phase, step) && s.requests[h].key == id
    requires !life.Asked? && life.h == h && InTable(s, id, life)
    ensures InTable(NextHold(s, h, step), id, life)
  {
    HoldResult(s, h, step);
  }

  lemma OwnHoldKeepsUnrefused(s: State, h: Handle, step: HolderStep, id: string, life: E.Life)
    requires h in s.requests && HoldEnabled(s.requests[h].phase, step)
    requires E.ServiceInv(s, id, life) && !life.Asked? && life.h == h && Unrefused(s, id, life)
    ensures Unrefused(NextHold(s, h, step), id, life)
  {
    HoldResult(s, h, step);
    if step == OnDelete || step == DeleteFails {
      ReleaseAnswers(s, h);
    } else {
      HolderAnswers(s, h, step);
    }
  }

  /** A step inside the service. */
  lemma ServeKeepsUnrefused(s: State, e: Event, id: string, life: E.Life)
    requires LockInv(s) && Enabled(s, e) && !E.IsMessage(e) && E.ServiceInv(s, id, life)
    requires E.KeyOf(s, e) == id ==> !life.Asked? && life.h == e.h
    requires Unrefused(s, id, life) && InTable(s, id, life)
    ensures Unrefused(Next(s, e), id, life) && InTable(Next(s, e), id, life)
  {
    if E.KeyOf(s, e) != id {
      OthersKeepUnrefused(s, e, id, life);
    } else {
      assert RequestInv(s, e.h);
      match e
      case Acquire(h, step) => OwnAcquireKeepsUnrefused(s, h, step, id, life);
      case Hold(h, step) =>
        OwnHoldKeepsTable(s, h, step, id, life);
        OwnHoldKeepsUnrefused(s, h, step, id, life);
    }
  }

  lemma TakenKeepsUnrefused(s: State, lives: map<string, E.Life>, reply: Reply)
    requires AllUnrefused(s, lives) && reply in s.outbox
    ensures AllUnrefused(s.(outbox := s.outbox - multiset{reply}), lives)
  {
    var s' := s.(outbox := s.outbox - multiset{reply});
    assert forall r :: r in s'.outbox ==> r in s.outbox;
    forall id | id in lives
      ensures Unrefused(s', id, lives[id]) && InTable(s', id, lives[id])
    {
      assert Unrefused(s, id, lives[id]) && InTable(s, id, lives[id]);
    }
  }

  /** An event of the service that changes no life. */
  lemma EventKeepsUnrefused(s: State, e: Event, lives: map<string, E.Life>, foreign: set<string>)
    requires LockInv(s) && E.LivesSide(s, lives, foreign) && AllUnrefused(s, lives) && Enabled(s, e)
    requires E.IsMessage(e) ==> E.KeyOf(s, e) !in lives
    ensures AllUnrefused(Next(s, e), lives)
  {
    forall id | id in lives
      ensures Unrefused(Next(s, e), id, lives[id]) && InTable(Next(s, e), id, lives[id])
    {
      assert E.ServiceInv(s, id, lives[id]) && Unrefused(s, id, lives[id]) && InTable(s, id, lives[id]);
      if E.IsMessage(e) {
        OthersKeepUnrefused(s, e, id, lives[id]);
      } else {
        ServeKeepsUnrefused(s, e, id, lives[id]);
      }
    }
  }

  lemma DeliverKeepsUnrefused(w: E.World, command: C.Command, h: Handle, parses: string -> bool)
    requires E.WorldInv(w) && AllUnrefused(w.service, w.lives) && E.Enabled(w, E.Deliver(command, h))
    ensures AllUnrefused(E.Next(w, E.Deliver(command, h), parses).service,
                         E.Next(w, E.Deliver(command, h), parses).lives)
  {
    var s, e, w' := w.service, E.EventOf(command, h), E.Next(w, E.Deliver(command, h), parses);
    assert E.CommandInv(w.client.sent, w.lives, command);
    forall id | id in w'.lives
      ensures Unrefused(w'.service, id, w'.lives[id]) && InTable(w'.service, id, w'.lives[id])
    {
      assert E.ServiceInv(s, id, w.lives[id]) && Unrefused(s, id, w.lives[id]) && InTable(s, id, w.lives[id]);
      if id != command.id {
        OthersKeepUnrefused(s, e, id, w.lives[id]);
      } else if command.LockCommand? {
        LockIsUnrefused(s, command, h);
      } else {
        ReleaseKeepsTable(s, e, id, w.lives[id]);
      }
    }
  }

  lemma LockIsUnrefused(s: State, command: C.Command, h: Handle)
    requires command.LockCommand? && Enabled(s, E.EventOf(command, h)) && Refused(command.id) !in s.outbox
    ensures var s', life := Next(s, E.EventOf(command, h)), E.Serving(command.mode, command.path, h);
            Unrefused(s', command.id, life) && InTable(s', command.id, life)
  {
  }

  /** A release command takes the table entry with the lock. */
  lemma ReleaseKeepsTable(s: State, e: Event, id: string, life: E.Life)
    requires TableInv(s) && (e.SaveRequest? || e.UnlockRequest?) && e.key == id && life.Released?
    requires InTable(s, id, life)
    ensures Unrefused(Next(s, e), id, life) && InTable(Next(s, e), id, life)
  {
  }

  lemma AnswerKeepsUnrefused(w: E.World, reply: Reply, parses: string -> bool)
    requires E.WorldInv(w) && AllUnrefused(w.service, w.lives) && E.Enabled(w, E.Answer(reply))
    ensures AllUnrefused(E.Next(w, E.Answer(reply), parses).service, E.Next(w, E.Answer(reply), parses).lives)
  {
    var w', id := E.Next(w, E.Answer(reply), parses), reply.key;
    TakenKeepsUnrefused(w.service, w.lives, reply);
    if w'.lives != w.lives {
      GivenIsUnrefused(w, reply, w'.lives[id]);
    }
  }

  /** A request that gets its grant has not been refused. */
  lemma GivenIsUnrefused(w: E.World, reply: Reply, life: E.Life)
    requires E.WorldInv(w) && AllUnrefused(w.service, w.lives) && reply in w.service.outbox && reply.Granted?
    requires reply.key in w.lives && w.lives[reply.key].Serving? && reply.key in w.client.contextMap
    requires w.client.contextMap[reply.key].state == C.WaitingLock && life == E.GivenTo(w.lives[reply.key], reply.text)
    ensures var s' := w.service.(outbox := w.service.outbox - multiset{reply});
            Unrefused(s', reply.key, life) && InTable(s', reply.key, life)
  {
    var id := reply.key;
    assert E.EntryInv(w.client, id, w.lives[id]) && E.ServiceInv(w.service, id, w.lives[id]);
    assert Unrefused(w.service, id, w.lives[id]) && InTable(w.service, id, w.lives[id]);
    assert Granted(id, reply.text) in w.service.outbox;
  }

  lemma StepKeepsUnrefused(w: E.World, step: E.Step, parses: string -> bool)
    requires E.WorldInv(w) && AllUnrefused(w.service, w.lives) && E.Enabled(w, step)
    ensures AllUnrefused(E.Next(w, step, parses).service, E.Next(w, step, parses).lives)
  {
    match step
    case Lock(id, _, _) => assert Refused(id) !in w.service.outbox;
    case Release(id, text) => ReleaseKeepsUnrefused(w, id, text, parses);
    case Expire(_) =>
    case Deliver(command, h) => DeliverKeepsUnrefused(w, command, h, parses);
    case Answer(reply) => AnswerKeepsUnrefused(w, reply, parses);
    case Serve(e) => EventKeepsUnrefused(w.service, e, w.lives, w.foreign);
    case Foreign(e) => EventKeepsUnrefused(w.service, e, w.lives, w.foreign);
    case LoseCommand(_) =>
    case LoseReply(reply) => TakenKeepsUnrefused(w.service, w.lives, reply);
  }

  lemma ReleaseKeepsUnrefused(w: E.World, id: string, text: Option<string>, parses: string -> bool)
    requires AllUnrefused(w.service, w.lives)
    ensures AllUnrefused(E.Next(w, E.Release(id, text), parses).service, E.Next(w, E.Release(id, text), parses).lives)
  {
  }

  // ---------- a release on its way ----------

  function ReleaseCommand(id: string, text: Option<string>): C.Command
  {
    if text.Some? then C.SaveCommand(id, text.value) else C.UnlockCommand(id)
  }

  /** The caller waits for the end of the release. */
  ghost predicate CallerWaits(c: C.Client, id: string, p: nat)
  {
    && p in c.promises && c.promises[p].settlement == C.Unsettled && c.promises[p].id == id && p < c.next
    && id in c.contextMap && c.contextMap[id].state == C.WaitingUnlock && c.contextMap[id].promise == p
  }

  /** The release is under way: its command, then its calls, and then its confirmation. */
  ghost predicate UnderWay(s: State, sent: multiset<C.Command>, id: string, life: E.Life)
  {
    && life.Released? && life.text != Some("") && life.h in s.requests && s.requests[life.h].key == id
    && Refused(id) !in s.outbox
    && var r, left := s.requests[life.h], sent[ReleaseCommand(id, life.text)];
    && if Okay(id) in s.outbox then r.phase.Done? && left == 0
       else
         match r.phase
         case Held(_) =>
           && left == 1 && (life.text.Some? ==> r.mode == Write)
           && id in s.controlMap && s.controlMap[id] == life.h
         case Writing(_, _, _) => left == 0
         case Deleting(purpose, _) => left == 0 && (purpose == AfterSave || purpose == AfterUnlock)
         case _ => false
  }

  /** The steps that the release still has before it. */
  function StepsLeft(s: State, id: string, life: E.Life): nat
    requires life.Released? && life.h in s.requests
  {
    if Okay(id) in s.outbox then 1
    else
      match s.requests[life.h].phase
      case Held(_) => if life.text.Some? then 6 else 4
      case Writing(_, _, served) => if served then 4 else 5
      case Deleting(_, found) => if found.None? then 3 else 2
      case _ => 0
  }

  /** A step in which no message of the request is lost, no call of its release fails and no timer of it fires. */
  predicate Steady(w: E.World, step: E.Step, id: string)
    requires id in w.lives && w.lives[id].Released?
  {
    match step
    case Expire(timer) => timer in w.client.timers ==> w.client.timers[timer] != id
    case LoseCommand(command) => command.id != id
    case LoseReply(reply) => reply.key != id
    case Serve(Hold(h, hold)) => h == w.lives[id].h ==> hold !in {HoldTimerFires, SetFails, DeleteFails}
    case _ => true
  }

  /** A step of the release itself. */
  predicate IsOwn(w: E.World, step: E.Step, id: string)
    requires id in w.lives && w.lives[id].Released?
  {
    match step
    case Deliver(command, _) => command.id == id
    case Serve(Hold(h, _)) => h == w.lives[id].h
    case Answer(reply) => reply.key == id
    case _ => false
  }

  // ---------- at the client ----------

  /** The promise of an entry is that of its own caller. */
  ghost predicate OwnPromise(c: C.Client, k: string)
  {
    k in c.contextMap ==> c.contextMap[k].promise in c.promises && c.promises[c.contextMap[k].promise].id == k
  }

  lemma LockLeavesCaller(c: C.Client, k: string, path: string, mode: C.LockMode, id: string, p: nat)
    requires CallerWaits(c, id, p) && k != id
    ensures CallerWaits(C.AfterLock(c, k, path, mode), id, p)
  {
  }

  lemma ReleaseLeavesCaller(c: C.Client, k: string, text: Option<string>, id: string, p: nat)
    requires CallerWaits(c, id, p)
    ensures CallerWaits(C.AfterRelease(c, k, text), id, p)
  {
  }

  lemma TimeoutLeavesCaller(c: C.Client, timer: nat, id: string, p: nat)
    requires CallerWaits(c, id, p) && timer in c.timers && c.timers[timer] != id && OwnPromise(c, c.timers[timer])
    ensures CallerWaits(C.AfterTimeout(c, timer), id, p)
  {
  }

  lemma ReplyLeavesCaller(c: C.Client, reply: Reply, parses: string -> bool, id: string, p: nat)
    requires CallerWaits(c, id, p) && reply.key != id && OwnPromise(c, reply.key)
    ensures CallerWaits(C.AfterReply(c, reply, parses), id, p)
  {
  }

  lemma ClientOfStep(w: E.World, step: E.Step, parses: string -> bool)
    requires E.Enabled(w, step)
    ensures E.Next(w, step, parses).client
         == match step
            case Lock(id, path, mode) => C.AfterLock(w.client, id, path, mode)
            case Release(id, text) => C.AfterRelease(w.client, id, text)
            case Expire(timer) => C.AfterTimeout(w.client, timer)
            case Deliver(command, _) => E.Without(w.client, command)
            case Answer(reply) => C.AfterReply(w.client, reply, parses)
            case LoseCommand(command) => E.Without(w.client, command)
            case _ => w.client
  {
  }

  lemma PromisesAreOwn(w: E.World, k: string)
    requires E.WorldInv(w)
    ensures OwnPromise(w.client, k)
  {
    if k in w.client.contextMap {
      assert E.EntryInv(w.client, k, w.lives[k]);
    }
  }

  /** Other calls and timeouts, and replies to other requests, leave the caller waiting. */
  lemma OthersLeaveCaller(w: E.World, step: E.Step, parses: string -> bool, id: string, p: nat)
    requires E.WorldInv(w) && E.Enabled(w, step) && id in w.lives && w.lives[id].Released?
    requires CallerWaits(w.client, id, p) && Steady(w, step, id) && !(step.Answer? && step.reply.key == id)
    ensures CallerWaits(E.Next(w, step, parses).client, id, p)
  {
    ClientOfStep(w, step, parses);
    match step
    case Lock(k, path, mode) => LockLeavesCaller(w.client, k, path, mode, id, p);
    case Release(k, text) => ReleaseLeavesCaller(w.client, k, text, id, p);
    case Expire(timer) =>
      PromisesAreOwn(w, w.client.timers[timer]);
      TimeoutLeavesCaller(w.client, timer, id, p);
    case Answer(reply) =>
      PromisesAreOwn(w, reply.key);
      ReplyLeavesCaller(w.client, reply, parses, id, p);
    case _ =>
  }

  // ---------- in the service ----------

  lemma OthersLeaveRelease(s: State, e: Event, sent: multiset<C.Command>, id: string, life: E.Life)
    requires TableInv(s) && Enabled(s, e) && E.KeyOf(s, e) != id && UnderWay(s, sent, id, life)
    ensures UnderWay(Next(s, e), sent, id, life) && StepsLeft(Next(s, e), id, life) == StepsLeft(s, id, life)
  {
    E.EventReplies(s, e);
    assert (s.outbox + E.Replies(s, e))[Refused(id)] == s.outbox[Refused(id)];
    assert (s.outbox + E.Replies(s, e))[Okay(id)] == s.outbox[Okay(id)];
    MessageOfOthersSparesTable(s, e, id);
    if !e.LockRequest? && Subject(s, e).Some? {
      E.SubjectHasKey(s, e);
    }
    Bystander(s, e, life.h);
  }

  /** The calls of the release. */
  lemma OwnHoldAdvances(s: State, step: HolderStep, sent: multiset<C.Command>, id: string, life: E.Life)
    requires UnderWay(s, sent, id, life) && HoldEnabled(s.requests[life.h].phase, step)
    requires PhaseInv(s.requests[life.h]) && step !in {HoldTimerFires, SetFails, DeleteFails}
    ensures UnderWay(NextHold(s, life.h, step), sent, id, life)
    ensures StepsLeft(NextHold(s, life.h, step), id, life) == StepsLeft(s, id, life) - 1
  {
    HoldResult(s, life.h, step);
    if step == OnDelete {
      ReleaseAnswers(s, life.h);
    } else {
      HolderAnswers(s, life.h, step);
    }
  }

  /** A granted attempt has no step of the lock protocol left. */
  lemma NoProtocolLeft(r: Request, step: AcquireStep)
    requires PhaseInv(r) && (LockGranted(r.phase) || (r.phase.Done? && r.wait.Cleared?))
    ensures !AcquireEnabled(r, step)
  {
  }

  /** The command arrives. */
  lemma CommandStarts(s: State, sent: multiset<C.Command>, id: string, life: E.Life, h: Handle)
    requires TableInv(s) && UnderWay(s, sent, id, life)
    requires ReleaseCommand(id, life.text) in sent
    ensures var command := ReleaseCommand(id, life.text);
            var s', sent' := Next(s, E.EventOf(command, h)), sent - multiset{command};
            UnderWay(s', sent', id, life) && StepsLeft(s', id, life) == StepsLeft(s, id, life) - 1
  {
    AcceptedInSilence(s, id, life.text);
    MessageStarts(s, id, if life.text.Some? then life.text.value else "");
  }

  lemma AcceptedInSilence(s: State, id: string, text: Option<string>)
    requires TableInv(s) && id in s.controlMap && text != Some("")
    requires text.Some? ==> s.requests[s.controlMap[id]].mode == Write
    ensures Next(s, E.EventOf(ReleaseCommand(id, text), 0)).outbox == s.outbox
  {
  }

  // ---------- the whole way ----------

  /** The promise is resolved, or its release is under way. */
  ghost predicate OnItsWay(w: E.World, id: string, p: nat)
  {
    && id in w.lives && w.lives[id].Released? && p in w.client.promises
    && (w.client.promises[p].settlement == C.Resolved
        || (CallerWaits(w.client, id, p) && UnderWay(w.service, w.client.sent, id, w.lives[id])))
  }

  /** How many steps of its own the release still has before it. */
  ghost function Left(w: E.World, id: string, p: nat): nat
    requires OnItsWay(w, id, p)
  {
    if w.client.promises[p].settlement == C.Resolved then 0 else StepsLeft(w.service, id, w.lives[id])
  }

  predicate IsResolved(c: C.Client, p: nat)
  {
    p in c.promises && c.promises[p].settlement == C.Resolved && p < c.next
  }

  lemma CallsKeepResolved(c: C.Client, id: string, path: string, mode: C.LockMode, text: Option<string>, p: nat)
    requires IsResolved(c, p)
    ensures IsResolved(C.AfterLock(c, id, path, mode), p) && IsResolved(C.AfterRelease(c, id, text), p)
  {
  }

  lemma TimeoutKeepsResolved(c: C.Client, timer: nat, p: nat)
    requires IsResolved(c, p) && timer in c.timers
    ensures IsResolved(C.AfterTimeout(c, timer), p)
  {
  }

  lemma ReplyKeepsResolved(c: C.Client, reply: Reply, parses: string -> bool, p: nat)
    requires IsResolved(c, p)
    ensures IsResolved(C.AfterReply(c, reply, parses), p)
  {
  }

  /** A resolved promise stays resolved. */
  lemma ResolvedStays(w: E.World, step: E.Step, parses: string -> bool, p: nat)
    requires E.Enabled(w, step) && IsResolved(w.client, p)
    ensures IsResolved(E.Next(w, step, parses).client, p)
  {
    ClientOfStep(w, step, parses);
    match step
    case Lock(id, path, mode) => CallsKeepResolved(w.client, id, path, mode, None, p);
    case Release(id, text) => CallsKeepResolved(w.client, id, "", C.RLock, text, p);
    case Expire(timer) => TimeoutKeepsResolved(w.client, timer, p);
    case Answer(reply) => ReplyKeepsResolved(w.client, reply, parses, p);
    case _ =>
  }

  /** Only the number of the release commands on their way matters, and the replies to the request. */
  lemma SameUnderWay(s: State, sent: multiset<C.Command>, sent': multiset<C.Command>, id: string, life: E.Life)
    requires UnderWay(s, sent, id, life) && sent'[ReleaseCommand(id, life.text)] == sent[ReleaseCommand(id, life.text)]
    ensures UnderWay(s, sent', id, life)
  {
  }

  lemma OtherReplyTaken(s: State, reply: Reply, sent: multiset<C.Command>, id: string, life: E.Life)
    requires UnderWay(s, sent, id, life) && reply.key != id
    ensures var s' := s.(outbox := s.outbox - multiset{reply});
            UnderWay(s', sent, id, life) && StepsLeft(s', id, life) == StepsLeft(s, id, life)
  {
    var outbox := s.outbox - multiset{reply};
    assert outbox[Okay(id)] == s.outbox[Okay(id)] && outbox[Refused(id)] == s.outbox[Refused(id)];
  }

  /** What the steps of the client and the network do to the commands. */
  lemma CommandsOfStep(w: E.World, step: E.Step, parses: string -> bool, id: string)
    requires E.WorldInv(w) && E.Enabled(w, step) && id in w.lives && w.lives[id].Released?
    requires Steady(w, step, id) && !IsOwn(w, step, id)
    ensures var command := ReleaseCommand(id, w.lives[id].text);
            E.Next(w, step, parses).client.sent[command] == w.client.sent[command]
  {
    ClientOfStep(w, step, parses);
    match step
    case Lock(k, path, mode) => assert ReleaseCommand(id, w.lives[id].text) != C.LockCommand(k, path, mode);
    case Release(k, text) => SameCommands(w, k, text, id);
    case Answer(reply) => ReplySendsNothing(w.client, reply, parses);
    case _ =>
  }

  lemma ReplySendsNothing(c: C.Client, reply: Reply, parses: string -> bool)
    ensures C.AfterReply(c, reply, parses).sent == c.sent
  {
  }

  /** What a step of somebody else does to the service and to the commands on their way. */
  lemma OthersLeaveUnderWay(w: E.World, step: E.Step, parses: string -> bool, id: string)
    requires E.WorldInv(w) && E.Enabled(w, step) && id in w.lives && w.lives[id].Released?
    requires UnderWay(w.service, w.client.sent, id, w.lives[id]) && Steady(w, step, id) && !IsOwn(w, step, id)
    ensures var w' := E.Next(w, step, parses);
            && UnderWay(w'.service, w'.client.sent, id, w.lives[id])
            && StepsLeft(w'.service, id, w.lives[id]) == StepsLeft(w.service, id, w.lives[id])
  {
    var s, life := w.service, w.lives[id];
    var sent' := E.Next(w, step, parses).client.sent;
    CommandsOfStep(w, step, parses, id);
    SameUnderWay(s, w.client.sent, sent', id, life);
    if step.Serve? {
      ServeLeavesUnderWay(w, step.event, sent', id);
    } else if step.Foreign? {
      OthersLeaveRelease(s, step.event, sent', id, life);
    } else {
      ClientCluster.ServiceOfStep(w, step, parses);
      if step.Deliver? {
        OthersLeaveRelease(s, E.EventOf(step.command, step.handle), sent', id, life);
      } else if step.Answer? || step.LoseReply? {
        OtherReplyTaken(s, step.reply, sent', id, life);
      }
    }
  }

  /** A call for the request that is being released is rejected in place. */
  lemma SameCommands(w: E.World, k: string, text: Option<string>, id: string)
    requires E.WorldInv(w) && id in w.lives && w.lives[id].Released?
    ensures C.AfterRelease(w.client, k, text).sent[ReleaseCommand(id, w.lives[id].text)]
         == w.client.sent[ReleaseCommand(id, w.lives[id].text)]
  {
    if C.MayRelease(w.client, k, text) {
      assert E.EntryInv(w.client, k, w.lives[k]);
      assert k != id;
    }
  }

  lemma ServeLeavesUnderWay(w: E.World, e: Event, sent: multiset<C.Command>, id: string)
    requires E.WorldInv(w) && E.Enabled(w, E.Serve(e)) && id in w.lives && w.lives[id].Released?
    requires UnderWay(w.service, sent, id, w.lives[id]) && !IsOwn(w, E.Serve(e), id)
    ensures UnderWay(Next(w.service, e), sent, id, w.lives[id])
    ensures StepsLeft(Next(w.service, e), id, w.lives[id]) == StepsLeft(w.service, id, w.lives[id])
  {
    var s := w.service;
    if E.KeyOf(s, e) != id {
      OthersLeaveRelease(s, e, sent, id, w.lives[id]);
    } else {
      assert E.OneAttempt(s, w.lives) && e.h == w.lives[id].h;
      assert RequestInv(s, e.h);
      NoProtocolLeft(s.requests[e.h], e.acquire);
    }
  }

  /** The steps of the release. */
  lemma OwnStepAdvances(w: E.World, step: E.Step, parses: string -> bool, id: string, p: nat)
    requires E.WorldInv(w) && E.Enabled(w, step) && OnItsWay(w, id, p) && Left(w, id, p) > 0
    requires Steady(w, step, id) && IsOwn(w, step, id)
    requires E.Next(w, step, parses).lives == w.lives
    ensures var w' := E.Next(w, step, parses); OnItsWay(w', id, p) && Left(w', id, p) == Left(w, id, p) - 1
  {
    match step
    case Deliver(command, h) =>
      OthersLeaveCaller(w, step, parses, id, p);
      assert E.CommandInv(w.client.sent, w.lives, command);
      CommandStarts(w.service, w.client.sent, id, w.lives[id], h);
    case Serve(e) =>
      OthersLeaveCaller(w, step, parses, id, p);
      assert RequestInv(w.service, e.h);
      OwnHoldAdvances(w.service, e.hold, w.client.sent, id, w.lives[id]);
    case Answer(reply) => ConfirmationResolves(w, reply, parses, id, p);
  }

  lemma ConfirmationResolves(w: E.World, reply: Reply, parses: string -> bool, id: string, p: nat)
    requires E.WorldInv(w) && reply in w.service.outbox && reply.key == id && id in w.lives && w.lives[id].Released?
    requires CallerWaits(w.client, id, p) && UnderWay(w.service, w.client.sent, id, w.lives[id])
    ensures reply == Okay(id)
    ensures C.AfterReply(w.client, reply, parses).promises == C.Settle(w.client.promises, p, C.Resolved)
  {
    assert E.ServiceInv(w.service, id, w.lives[id]);
    match reply
    case Granted(_, text) =>
    case Okay(_) =>
    case Refused(_) =>
  }

  /** A released life stays as it is. */
  lemma ReleasedStays(w: E.World, step: E.Step, parses: string -> bool, id: string)
    requires E.WorldInv(w) && E.Enabled(w, step) && id in w.lives && w.lives[id].Released?
    ensures id in E.Next(w, step, parses).lives && E.Next(w, step, parses).lives[id] == w.lives[id]
  {
  }

  lemma StepKeepsOnItsWay(w: E.World, step: E.Step, parses: string -> bool, id: string, p: nat)
    requires E.WorldInv(w) && E.Enabled(w, step) && OnItsWay(w, id, p) && Steady(w, step, id)
    ensures var w' := E.Next(w, step, parses);
            && OnItsWay(w', id, p)
            && Left(w', id, p) == Left(w, id, p) - if Left(w, id, p) > 0 && IsOwn(w, step, id) then 1 else 0
  {
    ReleasedStays(w, step, parses, id);
    if w.client.promises[p].settlement == C.Resolved {
      assert p < w.client.next;
      ResolvedStays(w, step, parses, p);
    } else if IsOwn(w, step, id) {
      OwnLives(w, step, parses, id);
      OwnStepAdvances(w, step, parses, id, p);
    } else {
      OthersLeaveCaller(w, step, parses, id, p);
      OthersLeaveUnderWay(w, step, parses, id);
    }
  }

  lemma OwnLives(w: E.World, step: E.Step, parses: string -> bool, id: string)
    requires E.WorldInv(w) && E.Enabled(w, step) && id in w.lives && w.lives[id].Released? && IsOwn(w, step, id)
    ensures E.Next(w, step, parses).lives == w.lives
  {
    if step.Deliver? {
      assert E.CommandInv(w.client.sent, w.lives, step.command);
    }
  }

  // ---------- the theorem ----------

  /** The call for the release passes its checks while the lock is held. */
  ghost predicate Accepted(w: E.World, id: string, text: Option<string>)
  {
    && C.MayRelease(w.client, id, text) && text != Some("")
    && id in w.lives && w.lives[id].Given? && w.lives[id].h in w.service.requests
    && w.service.requests[w.lives[id].h].phase.Held?
  }

  lemma ReleaseCommandsAreOfReleased(w: E.World, id: string, text: Option<string>)
    requires E.WorldInv(w) && ReleaseCommand(id, text) in w.client.sent
    ensures id in w.lives && w.lives[id].Released?
  {
    assert E.CommandInv(w.client.sent, w.lives, ReleaseCommand(id, text));
  }

  lemma NotYetSent(w: E.World, id: string, text: Option<string>)
    requires E.WorldInv(w) && id in w.lives && w.lives[id].Given?
    ensures w.client.sent[ReleaseCommand(id, text)] == 0
  {
    if ReleaseCommand(id, text) in w.client.sent {
      ReleaseCommandsAreOfReleased(w, id, text);
    }
  }

  lemma ReleaseStartsInService(s: State, sent: multiset<C.Command>, id: string, life: E.Life, text: Option<string>)
    requires E.ServiceInv(s, id, life) && Unrefused(s, id, life) && InTable(s, id, life) && life.Given?
    requires s.requests[life.h].phase.Held? && text != Some("") && (text.Some? ==> life.mode == C.WLock)
    requires sent[ReleaseCommand(id, text)] == 0
    ensures var life' := E.GivenUp(life, text);
            && UnderWay(s, sent + multiset{ReleaseCommand(id, text)}, id, life')
            && StepsLeft(s, id, life') == if text.Some? then 6 else 4
  {
  }

  /** A release that is accepted while its lock is held starts on its way. */
  lemma AcceptedStarts(w: E.World, id: string, text: Option<string>, parses: string -> bool)
    requires E.WorldInv(w) && AllUnrefused(w.service, w.lives) && Accepted(w, id, text)
    ensures var w', p := E.Next(w, E.Release(id, text), parses), w.client.next;
            OnItsWay(w', id, p) && Left(w', id, p) == if text.Some? then 6 else 4
  {
    var life := w.lives[id];
    assert E.ServiceInv(w.service, id, life) && E.EntryInv(w.client, id, life);
    assert Unrefused(w.service, id, life) && InTable(w.service, id, life);
    NotYetSent(w, id, text);
    ReleaseStartsInService(w.service, w.client.sent, id, life, text);
    AcceptedAtClient(w.client, id, text);
  }

  lemma AcceptedAtClient(c: C.Client, id: string, text: Option<string>)
    requires C.MayRelease(c, id, text)
    ensures CallerWaits(C.AfterRelease(c, id, text), id, c.next)
    ensures C.AfterRelease(c, id, text).sent == c.sent + multiset{ReleaseCommand(id, text)}
  {
  }

  /** What is to happen next to the release. */
  lemma NextOwnStep(w: E.World, id: string) returns (step: E.Step)
    requires id in w.lives && w.lives[id].Released? && UnderWay(w.service, w.client.sent, id, w.lives[id])
    ensures E.Enabled(w, step) && IsOwn(w, step, id) && Steady(w, step, id)
  {
    var life := w.lives[id];
    var r := w.service.requests[life.h];
    if Okay(id) in w.service.outbox {
      return E.Answer(Okay(id));
    }
    if r.phase.Held? {
      assert ReleaseCommand(id, life.text) in w.client.sent;
      return E.Deliver(ReleaseCommand(id, life.text), 0);
    }
    var hold := if r.phase.Writing? then (if r.phase.served then OnSet else ServeSet)
                else if r.phase.found.None? then ServeDelete else OnDelete;
    return E.Serve(Hold(life.h, hold));
  }

  ghost predicate SteadyRun(w: E.World, run: seq<E.Step>, parses: string -> bool, id: string)
    requires E.Legal(w, run, parses)
    decreases |run|
  {
    run == []
    || (id in w.lives && w.lives[id].Released? && Steady(w, run[0], id)
        && SteadyRun(E.Next(w, run[0], parses), run[1..], parses, id))
  }

  /** The steps of the release itself in a run. */
  ghost function OwnSteps(w: E.World, run: seq<E.Step>, parses: string -> bool, id: string): nat
    requires E.Legal(w, run, parses) && SteadyRun(w, run, parses, id)
    decreases |run|
  {
    if run == [] then 0
    else (if IsOwn(w, run[0], id) then 1 else 0) + OwnSteps(E.Next(w, run[0], parses), run[1..], parses, id)
  }

  lemma StepGoesOn(w: E.World, step: E.Step, parses: string -> bool, id: string, p: nat)
    requires E.WorldInv(w) && OnItsWay(w, id, p) && E.Enabled(w, step) && Steady(w, step, id)
    ensures var w' := E.Next(w, step, parses);
            && E.WorldInv(w') && OnItsWay(w', id, p)
            && Left(w', id, p) == Left(w, id, p) - if Left(w, id, p) > 0 && IsOwn(w, step, id) then 1 else 0
  {
    E.StepKeepsWorld(w, step, parses);
    StepKeepsOnItsWay(w, step, parses, id, p);
  }

  lemma {:induction false} RunGoesOn(w: E.World, run: seq<E.Step>, parses: string -> bool, id: string, p: nat)
    requires E.WorldInv(w) && OnItsWay(w, id, p) && E.Legal(w, run, parses) && SteadyRun(w, run, parses, id)
    ensures var t, own := E.After(w, run, parses), OwnSteps(w, run, parses, id);
            && E.WorldInv(t) && OnItsWay(t, id, p)
            && Left(t, id, p) == if own < Left(w, id, p) then Left(w, id, p) - own else 0
    decreases |run|
  {
    if run != [] {
      var w' := E.Next(w, run[0], parses);
      FirstStep(w, run, parses, id);
      StepGoesOn(w, run[0], parses, id, p);
      RunGoesOn(w', run[1..], parses, id, p);
    }
  }

  lemma FirstStep(w: E.World, run: seq<E.Step>, parses: string -> bool, id: string)
    requires run != [] && E.Legal(w, run, parses) && SteadyRun(w, run, parses, id)
    ensures E.Enabled(w, run[0]) && id in w.lives && w.lives[id].Released? && Steady(w, run[0], id)
    ensures var w' := E.Next(w, run[0], parses);
            && E.Legal(w', run[1..], parses) && SteadyRun(w', run[1..], parses, id)
            && E.After(w, run, parses) == E.After(w', run[1..], parses)
            && OwnSteps(w, run, parses, id)
               == (if IsOwn(w, run[0], id) then 1 else 0) + OwnSteps(w', run[1..], parses, id)
  {
  }

  lemma {:induction false} RunKeepsUnrefused(w: E.World, run: seq<E.Step>, parses: string -> bool)
    requires E.WorldInv(w) && AllUnrefused(w.service, w.lives) && E.Legal(w, run, parses)
    ensures E.WorldInv(E.After(w, run, parses))
    ensures AllUnrefused(E.After(w, run, parses).service, E.After(w, run, parses).lives)
    decreases |run|
  {
    if run != [] {
      E.StepKeepsWorld(w, run[0], parses);
      StepKeepsUnrefused(w, run[0], parses);
      RunKeepsUnrefused(E.Next(w, run[0], parses), run[1..], parses);
    }
  }

  /** How it stands with the promise, after some steps of the release: it is never rejected, resolved once all its
      steps are taken, and until then the next of them can be taken. */
  ghost predicate StandsWell(t: E.World, id: string, p: nat, own: nat, steps: nat)
  {
    && p in t.client.promises && t.client.promises[p].settlement != C.Rejected
    && (t.client.promises[p].settlement == C.Resolved <==> own >= steps)
    && (own < steps ==>
          id in t.lives && t.lives[id].Released?
          && exists step :: E.Enabled(t, step) && IsOwn(t, step, id) && Steady(t, step, id))
  }

  lemma OnItsWayStandsWell(t: E.World, id: string, p: nat, own: nat, steps: nat)
    requires OnItsWay(t, id, p) && Left(t, id, p) == if own < steps then steps - own else 0
    ensures StandsWell(t, id, p, own, steps)
  {
    if t.client.promises[p].settlement != C.Resolved {
      assert StepsLeft(t.service, id, t.lives[id]) > 0;
      var step := NextOwnStep(t, id);
    }
  }

  lemma RunStandsWell(w: E.World, run: seq<E.Step>, parses: string -> bool, id: string, p: nat, steps: nat)
    requires E.WorldInv(w) && OnItsWay(w, id, p) && Left(w, id, p) == steps
    requires E.Legal(w, run, parses) && SteadyRun(w, run, parses, id)
    ensures StandsWell(E.After(w, run, parses), id, p, OwnSteps(w, run, parses, id), steps)
  {
    RunGoesOn(w, run, parses, id, p);
    OnItsWayStandsWell(E.After(w, run, parses), id, p, OwnSteps(w, run, parses, id), steps);
  }

  lemma AcceptedGoesOn(w: E.World, id: string, text: Option<string>, run: seq<E.Step>, parses: string -> bool)
    requires E.WorldInv(w) && AllUnrefused(w.service, w.lives) && Accepted(w, id, text)
    requires E.Legal(E.Next(w, E.Release(id, text), parses), run, parses)
    requires SteadyRun(E.Next(w, E.Release(id, text), parses), run, parses, id)
    ensures var w' := E.Next(w, E.Release(id, text), parses);
            StandsWell(E.After(w', run, parses), id, w.client.next, OwnSteps(w', run, parses, id),
                       if text.Some? then 6 else 4)
  {
    var w', p := E.Next(w, E.Release(id, text), parses), w.client.next;
    AcceptedStarts(w, id, text, parses);
    E.StepKeepsWorld(w, E.Release(id, text), parses);
    RunStandsWell(w', run, parses, id, p, if text.Some? then 6 else 4);
  }

  lemma StartIsUnrefused(base: nat)
    ensures E.WorldInv(E.Start(base)) && AllUnrefused(E.Start(base).service, E.Start(base).lives)
  {
    LockInvInit(base);
    assert Inv(Init(base));
  }

  /** From any reachable state: a release, with a text to save or without, that is accepted while its lock is held.
      As long as none of its messages is lost, none of its calls fails and none of its timers fires, whatever else
      happens, its promise is never rejected; it is resolved after six steps of its own, or four without a save; and
      until then the next of them can be taken. */
  lemma AcceptedReleaseComesThrough(base: nat, before: seq<E.Step>, id: string, text: Option<string>,
                                    run: seq<E.Step>, parses: string -> bool)
    requires E.Legal(E.Start(base), before, parses) && Accepted(E.After(E.Start(base), before, parses), id, text)
    requires E.Legal(E.Next(E.After(E.Start(base), before, parses), E.Release(id, text), parses), run, parses)
    requires SteadyRun(E.Next(E.After(E.Start(base), before, parses), E.Release(id, text), parses), run, parses, id)
    ensures var w := E.After(E.Start(base), before, parses);
            var w' := E.Next(w, E.Release(id, text), parses);
            StandsWell(E.After(w', run, parses), id, w.client.next, OwnSteps(w', run, parses, id),
                       if text.Some? then 6 else 4)
  {
    StartIsUnrefused(base);
    RunKeepsUnrefused(E.Start(base), before, parses);
    AcceptedGoesOn(E.After(E.Start(base), before, parses), id, text, run, parses);
  }
}
