/**
 A client and the context service together: the commands on their way to the service, the replies on their way
 back, and the messages of other clients.
 */
module EndToEnd {
  import opened Options
  import opened LockNames
  import opened ContextService
  import opened ContextInvariant
  import opened ContextSafety
  import opened ContextWrites
  import C = ContextClient

  /** How far a request of the client has come, the content it was granted and the text it was released with.
      A history variable. */
  datatype Life =
    | Asked(mode: C.LockMode, path: string)
    | Serving(mode: C.LockMode, path: string, h: Handle)
    | Given(mode: C.LockMode, path: string, h: Handle, got: string)
    | Released(mode: C.LockMode, path: string, h: Handle, got: string, text: Option<string>)

  /** `client.sent` holds the commands on their way, `service.outbox` the replies.  Keys contain the identity of
      the connection, so that those of other clients, in `foreign`, are different. */
  datatype World = World(service: State, client: C.Client, lives: map<string, Life>, foreign: set<string>)

  datatype Step =
    | Lock(id: string, path: string, mode: C.LockMode)   // lockAndGetContext
    | Release(id: string, text: Option<string>)          // unlockContext or saveAndUnlockContext
    | Expire(timer: nat)                                 // a response timer fires
    | Deliver(command: C.Command, handle: Handle)        // the service gets a command
    | Answer(reply: Reply)                               // the client gets a reply
    | Serve(event: Event)                                // a step inside the service
    | Foreign(event: Event)                              // the service gets a command of another client
    | LoseCommand(command: C.Command)
    | LoseReply(reply: Reply)

  function Start(base: nat): World { World(Init(base), C.NEW_CLIENT, map[], {}) }

  function IsWriteLock(mode: C.LockMode): Mode { if mode == C.WLock then Write else Read }

  function EventOf(command: C.Command, h: Handle): Event
  {
    match command
    case LockCommand(id, path, mode) => LockRequest(h, id, path, IsWriteLock(mode), mode == C.LockUnlock)
    case UnlockCommand(id) => UnlockRequest(id)
    case SaveCommand(id, text) => SaveRequest(id, text)
  }

  /** The lock that a command asks for: to write, to read, or to read once; and what a release is about. */
  lemma CommandsMean(id: string, path: string, text: string, h: Handle)
    ensures EventOf(C.LockCommand(id, path, C.WLock), h) == LockRequest(h, id, path, Write, false)
    ensures EventOf(C.LockCommand(id, path, C.RLock), h) == LockRequest(h, id, path, Read, false)
    ensures EventOf(C.LockCommand(id, path, C.LockUnlock), h) == LockRequest(h, id, path, Read, true)
    ensures EventOf(C.SaveCommand(id, text), h) == SaveRequest(id, text)
    ensures EventOf(C.UnlockCommand(id), h) == UnlockRequest(id)
  {
  }

  predicate IsMessage(e: Event) { !e.Acquire? && !e.Hold? }

  predicate Enabled(w: World, step: Step)
  {
    match step
    case Lock(id, _, _) => id !in w.lives && id !in w.foreign
    case Release(_, _) => true
    case Expire(timer) => timer in w.client.timers
    case Deliver(command, h) => command in w.client.sent && ContextService.Enabled(w.service, EventOf(command, h))
    case Answer(reply) => reply in w.service.outbox
    case Serve(e) => !IsMessage(e) && ContextService.Enabled(w.service, e) && !IsTimerScanRace(w.service, e)
    case Foreign(e) => IsMessage(e) && ContextService.Enabled(w.service, e) && e.key !in w.lives
    case LoseCommand(command) => command in w.client.sent
    case LoseReply(reply) => reply in w.service.outbox
  }

  function Without(c: C.Client, command: C.Command): C.Client { c.(sent := c.sent - multiset{command}) }

  function Delivered(life: Life, h: Handle): Life
  {
    if life.Asked? then Serving(life.mode, life.path, h) else life
  }

  function GivenTo(life: Life, got: string): Life
    requires life.Serving?
  {
    Given(life.mode, life.path, life.h, got)
  }

  function GivenUp(life: Life, text: Option<string>): Life
    requires life.Given?
  {
    Released(life.mode, life.path, life.h, life.got, text)
  }

  function Next(w: World, step: Step, parses: string -> bool): World
    requires Enabled(w, step)
  {
    match step
    case Lock(id, path, mode) =>
      w.(client := C.AfterLock(w.client, id, path, mode), lives := w.lives[id := Asked(mode, path)])
    case Release(id, text) =>
      var lives := if C.MayRelease(w.client, id, text) && id in w.lives && w.lives[id].Given?
                   then w.lives[id := GivenUp(w.lives[id], text)] else w.lives;
      w.(client := C.AfterRelease(w.client, id, text), lives := lives)
    case Expire(timer) => w.(client := C.AfterTimeout(w.client, timer))
    case Deliver(command, h) =>
      var lives := if command.LockCommand? && command.id in w.lives
                   then w.lives[command.id := Delivered(w.lives[command.id], h)] else w.lives;
      w.(client := Without(w.client, command), service := ContextService.Next(w.service, EventOf(command, h)),
         lives := lives)
    case Answer(reply) =>
      var id := reply.key;
      var given := reply.Granted? && id in w.lives && w.lives[id].Serving? && id in w.client.contextMap
                   && w.client.contextMap[id].state == C.WaitingLock;
      w.(client := C.AfterReply(w.client, reply, parses),
         service := w.service.(outbox := w.service.outbox - multiset{reply}),
         lives := if given then w.lives[id := GivenTo(w.lives[id], reply.text)] else w.lives)
    case Serve(e) => w.(service := ContextService.Next(w.service, e))
    case Foreign(e) => w.(service := ContextService.Next(w.service, e), foreign := w.foreign + {e.key})
    case LoseCommand(command) => w.(client := Without(w.client, command))
    case LoseReply(reply) => w.(service := w.service.(outbox := w.service.outbox - multiset{reply}))
  }

  ghost predicate Legal(w: World, run: seq<Step>, parses: string -> bool)
    decreases |run|
  {
    run == [] || (Enabled(w, run[0]) && Legal(Next(w, run[0], parses), run[1..], parses))
  }

  ghost function After(w: World, run: seq<Step>, parses: string -> bool): World
    requires Legal(w, run, parses)
    decreases |run|
  {
    if run == [] then w else After(Next(w, run[0], parses), run[1..], parses)
  }

  // ---------- the invariant, request by request ----------

  ghost predicate NoGrant(outbox: multiset<Reply>, id: string) { forall t :: Granted(id, t) !in outbox }

  ghost predicate OneGrant(outbox: multiset<Reply>, id: string)
  {
    forall t, u :: Granted(id, t) in outbox && Granted(id, u) in outbox ==> t == u && outbox[Granted(id, t)] == 1
  }

  /** The attempt has written nothing but the text of the release, over the content that was granted. */
  ghost predicate WroteAsAsked(s: State, life: Life)
    requires !life.Asked?
  {
    forall path, i :: CommitAt(s, path, i, life.h) ==> IsAsked(life, s.store[path].history[i])
  }

  predicate IsAsked(life: Life, c: Commit)
  {
    life.Released? && life.text == Some(c.text) && life.got == c.got.text
  }

  ghost predicate ReleaseInv(s: State, h: Handle, phase: Phase, got: string, text: Option<string>)
  {
    && (phase.Held? ==> phase.held.text == got)
    && (phase.Writing? && !phase.served ==> phase.base.text == got)
    && (phase.Writing? ==> text == Some(phase.text) && (phase.served ==> Committed(s, h, phase.text)))
    && (phase.Deleting? && phase.purpose.AfterSave? ==> text.Some? && Committed(s, h, text.value))
    && (phase.Deleting? && phase.purpose.AfterUnlock? ==> text.None?)
    && (phase.Deleting? ==> !phase.purpose.AfterSingleShot?)
  }

  /** The life of a request, on the side of the service. */
  ghost predicate ServiceInv(s: State, id: string, life: Life)
  {
    if life.Asked? then NoGrant(s.outbox, id) && Okay(id) !in s.outbox
    else
      && life.h in s.requests
      && var r := s.requests[life.h];
      && r.key == id && r.path == life.path && r.mode == IsWriteLock(life.mode)
      && r.singleShot == (life.mode == C.LockUnlock) && WroteAsAsked(s, life)
      && match life
         case Serving(_, _, _) =>
           && NotReleased(r.phase) && Okay(id) !in s.outbox
           && (!r.singleShot ==> OneGrant(s.outbox, id) && (Answered(r.phase) || NoGrant(s.outbox, id)))
           && (!r.singleShot && r.phase.Deleting? ==> r.phase.purpose.AfterHoldTimeout?)
           && (!r.singleShot && r.phase.Held? ==> forall t :: Granted(id, t) in s.outbox ==> r.phase.held.text == t)
         case Given(_, _, _, got) =>
           && NotReleased(r.phase) && Answered(r.phase) && !r.singleShot
           && NoGrant(s.outbox, id) && Okay(id) !in s.outbox
           && (r.phase.Deleting? ==> r.phase.purpose.AfterHoldTimeout?)
           && (r.phase.Held? ==> r.phase.held.text == got)
         case Released(_, _, h, got, text) =>
           && Answered(r.phase) && !r.singleShot && NoGrant(s.outbox, id) && ReleaseInv(s, h, r.phase, got, text)
           && (Okay(id) in s.outbox && text.Some? ==> Committed(s, h, text.value))
  }

  /** Every attempt for a request of the client is the one its life names. */
  ghost predicate OneAttempt(s: State, lives: map<string, Life>)
  {
    forall k :: k in s.requests && s.requests[k].key in lives ==>
      !lives[s.requests[k].key].Asked? && lives[s.requests[k].key].h == k
  }

  function PurposeOf(text: Option<string>): C.Purpose { if text.Some? then C.ForSave(text.value) else C.ForUnlock }

  /** The life of a request, on the side of the client. */
  ghost predicate EntryInv(c: C.Client, id: string, life: Life)
    requires id in c.contextMap
  {
    var e := c.contextMap[id];
    && e.lockMode == life.mode && e.promise in c.promises && c.promises[e.promise].id == id
    && match life
       case Released(_, _, _, _, text) =>
         e.state == C.WaitingUnlock && c.promises[e.promise].purpose == PurposeOf(text)
       case Given(_, _, _, _) => e.state == C.Processing && !c.promises[e.promise].purpose.ForSave?
       case _ => (e.state == if life.mode == C.LockUnlock then C.WaitingLockUnlock else C.WaitingLock)
                 && !c.promises[e.promise].purpose.ForSave?
  }

  /** The commands on their way, and how many of each. */
  ghost predicate CommandInv(sent: multiset<C.Command>, lives: map<string, Life>, command: C.Command)
  {
    && command.id in lives
    && match command
       case LockCommand(id, path, mode) => lives[id] == Asked(mode, path) && sent[command] == 1
       case UnlockCommand(id) => lives[id].Released? && lives[id].text == None
       case SaveCommand(id, text) => lives[id].Released? && lives[id].text == Some(text)
  }

  ghost predicate LivesSide(s: State, lives: map<string, Life>, foreign: set<string>)
  {
    && (forall id :: id in lives ==> id !in foreign && ServiceInv(s, id, lives[id]))
    && OneAttempt(s, lives)
    && (forall k :: k in s.requests ==> s.requests[k].key in lives || s.requests[k].key in foreign)
    && (forall reply :: reply in s.outbox ==> reply.key in lives || reply.key in foreign)
  }

  ghost predicate ServiceSide(s: State, lives: map<string, Life>, foreign: set<string>)
  {
    Inv(s) && LivesSide(s, lives, foreign)
  }

  ghost predicate ClientSide(c: C.Client, lives: map<string, Life>)
  {
    && (forall id :: id in c.contextMap ==> id in lives && EntryInv(c, id, lives[id]))
    && (forall command :: command in c.sent ==> CommandInv(c.sent, lives, command))
    && (forall p :: p in c.promises ==> p < c.next)
  }

  /** The promise of a save, once resolved, stands for a write. */
  ghost predicate SaveHolds(s: State, lives: map<string, Life>, promise: C.Promise)
  {
    promise.purpose.ForSave? && promise.settlement == C.Resolved ==>
      && promise.id in lives && lives[promise.id].Released?
      && Committed(s, lives[promise.id].h, promise.purpose.text)
  }

  ghost predicate AllSavesHold(s: State, lives: map<string, Life>, c: C.Client)
  {
    forall p :: p in c.promises ==> SaveHolds(s, lives, c.promises[p])
  }

  /** Everything but the invariant of the service itself. */
  ghost predicate LinkInv(w: World)
  {
    LivesSide(w.service, w.lives, w.foreign) && ClientSide(w.client, w.lives)
    && AllSavesHold(w.service, w.lives, w.client)
  }

  ghost predicate WorldInv(w: World)
  {
    Inv(w.service) && LinkInv(w)
  }

  // ---------- steps inside the service ----------

  /** An event that serves no write of the attempt. */
  lemma WritesStay(s: State, e: Event, life: Life)
    requires ContextService.Enabled(s, e) && !life.Asked? && e != Hold(life.h, ServeSet) && WroteAsAsked(s, life)
    ensures WroteAsAsked(ContextService.Next(s, e), life)
  {
    var s' := ContextService.Next(s, e);
    EventGrows(s, e);
    forall path, i | CommitAt(s', path, i, life.h)
      ensures IsAsked(life, s'.store[path].history[i])
    {
      if path in s.store && i < |s.store[path].history| {
        assert CommitAt(s, path, i, life.h);
      } else {
        NewCommit(s, e, path, i);
      }
    }
  }

  /** The write of the attempt is served. */
  lemma SetIsAsked(s: State, h: Handle, life: Life)
    requires ContextService.Enabled(s, Hold(h, ServeSet)) && life.Released? && life.h == h && WroteAsAsked(s, life)
    requires s.requests[h].phase.base.text == life.got && Some(s.requests[h].phase.text) == life.text
    ensures WroteAsAsked(NextHold(s, h, ServeSet), life)
  {
    var s' := NextHold(s, h, ServeSet);
    forall path, i | CommitAt(s', path, i, h)
      ensures IsAsked(life, s'.store[path].history[i])
    {
      if path in s.store && i < |s.store[path].history| {
        assert CommitAt(s, path, i, h);
      }
    }
  }

  lemma AcquireOnLife(s: State, h: Handle, step: AcquireStep, id: string, life: Life)
    requires h in s.requests && AcquireEnabled(s.requests[h], step) && PhaseInv(s.requests[h])
    requires ServiceInv(s, id, life) && !life.Asked? && life.h == h
    ensures ServiceInv(NextAcquire(s, h, step), id, life)
  {
    var r := s.requests[h];
    ProtocolIsUnanswered(r, ZnodeAt(s, r.path), step);
    AcquireResult(s, h, step);
    WritesStay(s, Acquire(h, step), life);
    MoreRefusals(s.outbox, AcquireReply(r, step), r.key, id);
  }

  /** Refusals, of any request, are neither grants nor confirmations. */
  lemma MoreRefusals(outbox: multiset<Reply>, more: multiset<Reply>, key: string, id: string)
    requires more <= multiset{Refused(key)}
    ensures NoGrant(outbox, id) <==> NoGrant(outbox + more, id)
    ensures OneGrant(outbox, id) <==> OneGrant(outbox + more, id)
    ensures Okay(id) in outbox <==> Okay(id) in outbox + more
  {
    assert forall reply :: reply in more ==> reply == Refused(key);
    assert forall t :: (outbox + more)[Granted(id, t)] == outbox[Granted(id, t)];
    assert (outbox + more)[Okay(id)] == outbox[Okay(id)];
  }

  /** Replies to other requests change nothing here. */
  lemma RepliesToOthers(outbox: multiset<Reply>, more: multiset<Reply>, id: string)
    requires forall reply :: reply in more ==> reply.key != id
    ensures NoGrant(outbox, id) <==> NoGrant(outbox + more, id)
    ensures OneGrant(outbox, id) <==> OneGrant(outbox + more, id)
    ensures Okay(id) in outbox <==> Okay(id) in outbox + more
  {
    assert forall t :: (outbox + more)[Granted(id, t)] == outbox[Granted(id, t)];
    assert (outbox + more)[Okay(id)] == outbox[Okay(id)];
  }

  lemma HoldOnServing(s: State, h: Handle, step: HolderStep, id: string, life: Life)
    requires h in s.requests && HoldEnabled(s.requests[h].phase, step)
    requires ServiceInv(s, id, life) && life.Serving? && life.h == h
    ensures ServiceInv(NextHold(s, h, step), id, life)
  {
    var r := s.requests[h];
    HoldResult(s, h, step);
    WritesStay(s, Hold(h, step), life);
    var more := HoldReply(r, step);
    if !r.singleShot && step.OnGet? {
      assert forall t :: (s.outbox + more)[Granted(id, t)] == if t == r.phase.got.value.text then 1 else 0;
    } else if !r.singleShot {
      MoreRefusals(s.outbox, more, r.key, id);
    }
  }

  lemma HoldOnGiven(s: State, h: Handle, step: HolderStep, id: string, life: Life)
    requires h in s.requests && HoldEnabled(s.requests[h].phase, step)
    requires ServiceInv(s, id, life) && life.Given? && life.h == h
    ensures ServiceInv(NextHold(s, h, step), id, life)
  {
    HoldResult(s, h, step);
    WritesStay(s, Hold(h, step), life);
    MoreRefusals(s.outbox, HoldReply(s.requests[h], step), s.requests[h].key, id);
  }

  lemma HoldWritesAsAsked(s: State, h: Handle, step: HolderStep, life: Life)
    requires h in s.requests && HoldEnabled(s.requests[h].phase, step) && life.Released? && life.h == h
    requires WroteAsAsked(s, life) && ReleaseInv(s, h, s.requests[h].phase, life.got, life.text)
    ensures WroteAsAsked(NextHold(s, h, step), life)
    ensures step.ServeSet? ==> Committed(NextHold(s, h, step), h, s.requests[h].phase.text)
  {
    if step.ServeSet? {
      SetCommits(s, h);
      SetIsAsked(s, h, life);
    } else {
      WritesStay(s, Hold(h, step), life);
    }
  }

  lemma HoldOnReleased(s: State, h: Handle, step: HolderStep, id: string, life: Life)
    requires h in s.requests && HoldEnabled(s.requests[h].phase, step)
    requires ServiceInv(s, id, life) && life.Released? && life.h == h
    ensures ServiceInv(NextHold(s, h, step), id, life)
  {
    var s', r := NextHold(s, h, step), s.requests[h];
    HoldResult(s, h, step);
    HoldGrows(s, h, step);
    forall t | Committed(s, h, t) ensures Committed(s', h, t) { CommittedStays(s, s', h, t); }
    HoldWritesAsAsked(s, h, step, life);
    if step.OnDelete? && r.phase.found.value && !r.phase.purpose.AfterHoldTimeout? {
      assert s'.outbox == s.outbox + multiset{Okay(r.key)};
    } else {
      MoreRefusals(s.outbox, HoldReply(r, step), r.key, id);
    }
  }

  /** A step of another attempt. */
  lemma OtherAttempt(s: State, s': State, more: multiset<Reply>, id: string, life: Life)
    requires ServiceInv(s, id, life) && Grows(s, s')
    requires !life.Asked? ==> WroteAsAsked(s', life) && life.h in s'.requests
                              && Undisturbed(s.requests[life.h], s'.requests[life.h])
    requires s'.outbox == s.outbox + more && forall reply :: reply in more ==> reply.key != id
    ensures ServiceInv(s', id, life)
  {
    RepliesToOthers(s.outbox, more, id);
    if life.Released? {
      forall t | Committed(s, life.h, t) ensures Committed(s', life.h, t) { CommittedStays(s, s', life.h, t); }
    }
  }

  /** The key that an event is about. */
  function KeyOf(s: State, e: Event): string
    requires ContextService.Enabled(s, e)
  {
    match e
    case Acquire(h, _) => s.requests[h].key
    case Hold(h, _) => s.requests[h].key
    case _ => e.key
  }

  /** The replies that an event causes. */
  function Replies(s: State, e: Event): multiset<Reply>
    requires ContextService.Enabled(s, e)
  {
    match e
    case Acquire(h, step) => AcquireReply(s.requests[h], step)
    case Hold(h, step) => HoldReply(s.requests[h], step)
    case LockRequest(_, _, _, _, _) => multiset{}
    case SaveRequest(key, text) =>
      if text != "" && s.requests == NextSave(s, key, text).requests then multiset{Refused(key)} else multiset{}
    case UnlockRequest(key) =>
      if key !in s.controlMap || s.controlMap[key] !in s.requests then multiset{Refused(key)} else multiset{}
  }

  lemma EventReplies(s: State, e: Event)
    requires ContextService.Enabled(s, e) && TableInv(s)
    ensures ContextService.Next(s, e).outbox == s.outbox + Replies(s, e)
    ensures forall reply :: reply in Replies(s, e) ==> reply.key == KeyOf(s, e)
  {
    match e
    case Acquire(h, step) => AcquireResult(s, h, step);
    case Hold(h, step) => HoldResult(s, h, step);
    case SaveRequest(key, text) => SaveReplies(s, key, text);
    case _ =>
  }

  lemma SaveReplies(s: State, key: string, text: string)
    requires TableInv(s)
    ensures NextSave(s, key, text).outbox == s.outbox + Replies(s, SaveRequest(key, text))
  {
    var s' := NextSave(s, key, text);
    if text != "" && key in s.controlMap && s.requests[s.controlMap[key]].mode == Write {
      assert s'.requests[s.controlMap[key]].phase.Writing?;
    }
  }

  lemma SubjectHasKey(s: State, e: Event)
    requires ContextService.Enabled(s, e) && TableInv(s) && !e.LockRequest? && Subject(s, e).Some?
    ensures Subject(s, e).value in s.requests && s.requests[Subject(s, e).value].key == KeyOf(s, e)
  {
  }

  /** An event about another key. */
  lemma EventSparesOthers(s: State, e: Event, id: string, life: Life)
    requires ContextService.Enabled(s, e) && TableInv(s) && ServiceInv(s, id, life) && KeyOf(s, e) != id
    ensures ServiceInv(ContextService.Next(s, e), id, life)
  {
    EventReplies(s, e);
    EventGrows(s, e);
    if !life.Asked? {
      if !e.LockRequest? && Subject(s, e).Some? {
        SubjectHasKey(s, e);
      }
      Bystander(s, e, life.h);
      WritesStay(s, e, life);
    }
    OtherAttempt(s, ContextService.Next(s, e), Replies(s, e), id, life);
  }

  /** Attempts keep their keys, and only a lock request makes a new one. */
  lemma KeysStay(s: State, e: Event, k: Handle)
    requires ContextService.Enabled(s, e) && TableInv(s) && k in ContextService.Next(s, e).requests
    ensures k in s.requests ==> ContextService.Next(s, e).requests[k].key == s.requests[k].key
    ensures k !in s.requests ==> e.LockRequest? && k == e.h && ContextService.Next(s, e).requests[k].key == e.key
  {
    if k in s.requests && Subject(s, e) != Some(k) {
      Bystander(s, e, k);
    } else {
      match e
      case Acquire(h, step) => AcquireKeepsKeys(s, h, step);
      case Hold(h, step) => HoldKeepsKeys(s, h, step);
      case _ =>
    }
  }

  lemma AcquireKeepsKeys(s: State, h: Handle, step: AcquireStep)
    requires h in s.requests && AcquireEnabled(s.requests[h], step)
    ensures NextAcquire(s, h, step).requests.Keys == s.requests.Keys
    ensures NextAcquire(s, h, step).requests[h].key == s.requests[h].key
  {
  }

  lemma HoldKeepsKeys(s: State, h: Handle, step: HolderStep)
    requires h in s.requests && HoldEnabled(s.requests[h].phase, step)
    ensures NextHold(s, h, step).requests.Keys == s.requests.Keys
    ensures NextHold(s, h, step).requests[h].key == s.requests[h].key
  {
  }

  /** A step inside the service keeps every life. */
  lemma ServeKeepsLife(s: State, e: Event, id: string, life: Life)
    requires LockInv(s) && ContextService.Enabled(s, e) && !IsMessage(e) && ServiceInv(s, id, life)
    requires KeyOf(s, e) == id ==> !life.Asked? && life.h == e.h
    ensures ServiceInv(ContextService.Next(s, e), id, life)
  {
    if KeyOf(s, e) != id {
      EventSparesOthers(s, e, id, life);
    } else {
      assert RequestInv(s, e.h);
      match e
      case Acquire(h, step) => AcquireOnLife(s, h, step, id, life);
      case Hold(h, step) =>
        match life {
          case Serving(_, _, _) => HoldOnServing(s, h, step, id, life);
          case Given(_, _, _, _) => HoldOnGiven(s, h, step, id, life);
          case Released(_, _, _, _, _) => HoldOnReleased(s, h, step, id, life);
        }
    }
  }

  lemma MessageWritesNothing(s: State, e: Event, life: Life)
    requires ContextService.Enabled(s, e) && IsMessage(e) && !life.Asked? && WroteAsAsked(s, life)
    ensures WroteAsAsked(ContextService.Next(s, e), life)
    ensures forall t :: Committed(s, life.h, t) ==> Committed(ContextService.Next(s, e), life.h, t)
  {
    var s' := ContextService.Next(s, e);
    WritesStay(s, e, life);
    EventGrows(s, e);
    forall t | Committed(s, life.h, t) ensures Committed(s', life.h, t) { CommittedStays(s, s', life.h, t); }
  }

  /** A release command reaches its attempt, if the lock is still held, or is refused. */
  lemma ReleaseReaches(s: State, e: Event, id: string, life: Life)
    requires LockInv(s) && ServiceInv(s, id, life) && life.Released?
    requires (e == UnlockRequest(id) && life.text == None)
             || (e.SaveRequest? && e.key == id && life.text == Some(e.text))
    requires forall k :: k in s.requests && s.requests[k].key == id ==> k == life.h
    ensures ServiceInv(ContextService.Next(s, e), id, life)
  {
    var s' := ContextService.Next(s, e);
    EventReplies(s, e);
    MessageWritesNothing(s, e, life);
    MoreRefusals(s.outbox, Replies(s, e), id, id);
    if id in s.controlMap {
      assert s.controlMap[id] == life.h && s.requests[life.h].phase.Held?;
    }
  }

  // ---------- every step keeps the invariant ----------

  /** A life only moves forward, and a released one stays as it is. */
  ghost predicate LivesMove(lives: map<string, Life>, lives': map<string, Life>)
  {
    forall id :: id in lives ==> id in lives' && (lives[id].Released? ==> lives'[id] == lives[id])
  }

  lemma SavesStay(s: State, s': State, lives: map<string, Life>, lives': map<string, Life>, c: C.Client)
    requires AllSavesHold(s, lives, c) && Grows(s, s') && LivesMove(lives, lives')
    ensures AllSavesHold(s', lives', c)
  {
    forall p | p in c.promises
      ensures SaveHolds(s', lives', c.promises[p])
    {
      var q := c.promises[p];
      assert SaveHolds(s, lives, q);
      if q.purpose.ForSave? && q.settlement == C.Resolved {
        CommittedStays(s, s', lives[q.id].h, q.purpose.text);
      }
    }
  }

  lemma NewLife(s: State, lives: map<string, Life>, foreign: set<string>, id: string, path: string, mode: C.LockMode)
    requires LivesSide(s, lives, foreign) && id !in lives && id !in foreign
    ensures LivesSide(s, lives[id := Asked(mode, path)], foreign)
  {
    assert ServiceInv(s, id, Asked(mode, path));
  }

  lemma LockKeepsLink(w: World, id: string, path: string, mode: C.LockMode, parses: string -> bool)
    requires LinkInv(w) && Enabled(w, Lock(id, path, mode))
    ensures LinkInv(Next(w, Lock(id, path, mode), parses))
  {
    var w' := Next(w, Lock(id, path, mode), parses);
    NewLife(w.service, w.lives, w.foreign, id, path, mode);
    LockKeepsClientSide(w.client, w.lives, id, path, mode);
    var q := C.Promise(id, if mode == C.LockUnlock then C.ForRead else C.ForLock, C.Unsettled);
    SavesStay(w.service, w.service, w.lives, w'.lives, w.client);
    assert w'.client.promises == w.client.promises[w.client.next := q];
  }

  lemma LockKeepsClientSide(c: C.Client, lives: map<string, Life>, id: string, path: string, mode: C.LockMode)
    requires ClientSide(c, lives) && id !in lives
    ensures ClientSide(C.AfterLock(c, id, path, mode), lives[id := Asked(mode, path)])
  {
    var c', lives' := C.AfterLock(c, id, path, mode), lives[id := Asked(mode, path)];
    forall command | command in c'.sent
      ensures CommandInv(c'.sent, lives', command)
    {
      if command in c.sent {
        assert CommandInv(c.sent, lives, command);
      }
    }
    forall k | k in c'.contextMap
      ensures EntryInv(c', k, lives'[k])
    {
      if k != id {
        assert EntryInv(c, k, lives[k]);
      }
    }
  }

  lemma ReleaseKeepsLink(w: World, id: string, text: Option<string>, parses: string -> bool)
    requires LinkInv(w)
    ensures LinkInv(Next(w, Release(id, text), parses))
  {
    if C.MayRelease(w.client, id, text) {
      assert EntryInv(w.client, id, w.lives[id]);
      AcceptedReleaseKeepsLink(w, id, text, parses);
    } else {
      assert Next(w, Release(id, text), parses).lives == w.lives;
      NewPromise(w.client, w.lives, C.Promise(id, PurposeOf(text), C.Rejected));
    }
  }

  lemma GivenIsReleased(s: State, id: string, life: Life, text: Option<string>)
    requires ServiceInv(s, id, life) && life.Given?
    ensures ServiceInv(s, id, GivenUp(life, text))
  {
  }

  lemma LifeChanges(s: State, lives: map<string, Life>, foreign: set<string>, id: string, life: Life)
    requires LivesSide(s, lives, foreign) && id in lives && ServiceInv(s, id, life)
    requires !lives[id].Asked? && !life.Asked? && life.h == lives[id].h
    ensures LivesSide(s, lives[id := life], foreign)
  {
  }

  lemma AcceptedReleaseKeepsLink(w: World, id: string, text: Option<string>, parses: string -> bool)
    requires LinkInv(w) && C.MayRelease(w.client, id, text) && id in w.lives && w.lives[id].Given?
    ensures LinkInv(Next(w, Release(id, text), parses))
  {
    var life := w.lives[id];
    var lives' := w.lives[id := GivenUp(life, text)];
    GivenIsReleased(w.service, id, life, text);
    LifeChanges(w.service, w.lives, w.foreign, id, lives'[id]);
    SavesStay(w.service, w.service, w.lives, lives', w.client);
    ReleaseKeepsClientSide(w.client, w.lives, id, text);
  }

  lemma NewPromise(c: C.Client, lives: map<string, Life>, q: C.Promise)
    requires ClientSide(c, lives)
    ensures ClientSide(c.(promises := c.promises[c.next := q], next := c.next + 1), lives)
  {
    var c' := c.(promises := c.promises[c.next := q], next := c.next + 1);
    forall k | k in c'.contextMap
      ensures EntryInv(c', k, lives[k])
    {
      assert EntryInv(c, k, lives[k]);
    }
  }

  lemma ReleaseKeepsClientSide(c: C.Client, lives: map<string, Life>, id: string, text: Option<string>)
    requires ClientSide(c, lives) && C.MayRelease(c, id, text) && lives[id].Given?
    ensures ClientSide(C.AfterRelease(c, id, text), lives[id := GivenUp(lives[id], text)])
  {
    var c', lives' := C.AfterRelease(c, id, text), lives[id := GivenUp(lives[id], text)];
    assert EntryInv(c, id, lives[id]);
    forall command | command in c'.sent
      ensures CommandInv(c'.sent, lives', command)
    {
      if command in c.sent {
        assert CommandInv(c.sent, lives, command);
      }
    }
    forall k | k in c'.contextMap
      ensures EntryInv(c', k, lives'[k])
    {
      assert EntryInv(c, k, lives[k]);
    }
  }

  /** An entry goes, and a promise may be settled. */
  lemma DropKeepsClientSide(c: C.Client, c': C.Client, lives: map<string, Life>, id: string, p: nat,
                            settlement: C.Settlement)
    requires ClientSide(c, lives) && c'.contextMap == c.contextMap - {id} && c'.sent == c.sent && c'.next == c.next
    requires c'.promises == C.Settle(c.promises, p, settlement) || c'.promises == c.promises
    ensures ClientSide(c', lives)
  {
    forall k | k in c'.contextMap
      ensures EntryInv(c', k, lives[k])
    {
      assert EntryInv(c, k, lives[k]);
    }
  }

  /** A promise is settled otherwise than as a resolved save. */
  lemma SettleKeepsSaves(s: State, lives: map<string, Life>, c: C.Client, c': C.Client, p: nat,
                         settlement: C.Settlement)
    requires AllSavesHold(s, lives, c)
    requires c'.promises == C.Settle(c.promises, p, settlement) || c'.promises == c.promises
    requires settlement == C.Resolved && p in c.promises ==>
               SaveHolds(s, lives, c.promises[p].(settlement := C.Resolved))
    ensures AllSavesHold(s, lives, c')
  {
    forall q | q in c'.promises
      ensures SaveHolds(s, lives, c'.promises[q])
    {
      assert SaveHolds(s, lives, c.promises[q]);
    }
  }

  lemma ExpireKeepsLink(w: World, timer: nat, parses: string -> bool)
    requires LinkInv(w) && Enabled(w, Expire(timer))
    ensures LinkInv(Next(w, Expire(timer), parses))
  {
    var w', id := Next(w, Expire(timer), parses), w.client.timers[timer];
    if id in w.client.contextMap {
      var p := w.client.contextMap[id].promise;
      DropKeepsClientSide(w.client, w'.client, w.lives, id, p, C.Rejected);
      SettleKeepsSaves(w.service, w.lives, w.client, w'.client, p, C.Rejected);
    } else {
      assert w'.client.contextMap == w.client.contextMap;
      assert forall k :: k in w.client.contextMap ==>
          EntryInv(w.client, k, w.lives[k]) && EntryInv(w'.client, k, w.lives[k]);
    }
  }

  lemma InvIgnoresOutbox(s: State, outbox: multiset<Reply>)
    requires Inv(s)
    ensures Inv(s.(outbox := outbox))
  {
    LockInvIgnoresOutbox(s, outbox);
    QuietKeepsData(s, s.(outbox := outbox));
  }

  /** The service side after an event, once the lives are known to be right. */
  lemma EventKeepsServiceSide(s: State, e: Event, lives: map<string, Life>, lives': map<string, Life>,
                              foreign: set<string>, foreign': set<string>)
    requires ServiceSide(s, lives, foreign) && ContextService.Enabled(s, e) && !IsTimerScanRace(s, e)
    requires lives'.Keys == lives.Keys && foreign <= foreign' && forall id :: id in lives ==> id !in foreign'
    requires KeyOf(s, e) in lives || KeyOf(s, e) in foreign'
    requires forall id :: id in lives && id != KeyOf(s, e) ==> lives'[id] == lives[id]
    requires KeyOf(s, e) in lives ==> ServiceInv(ContextService.Next(s, e), KeyOf(s, e), lives'[KeyOf(s, e)])
    requires OneAttempt(ContextService.Next(s, e), lives')
    ensures ServiceSide(ContextService.Next(s, e), lives', foreign')
  {
    var s' := ContextService.Next(s, e);
    StepKeepsInv(s, e);
    EventReplies(s, e);
    forall id | id in lives' && id != KeyOf(s, e) ensures ServiceInv(s', id, lives'[id]) {
      EventSparesOthers(s, e, id, lives[id]);
    }
    forall k | k in s'.requests ensures s'.requests[k].key in lives' || s'.requests[k].key in foreign' {
      KeysStay(s, e, k);
    }
  }

  lemma AttemptsStay(s: State, e: Event, lives: map<string, Life>)
    requires OneAttempt(s, lives) && ContextService.Enabled(s, e) && TableInv(s)
    requires e.LockRequest? ==> e.key !in lives
    ensures OneAttempt(ContextService.Next(s, e), lives)
  {
    var s' := ContextService.Next(s, e);
    forall k | k in s'.requests && s'.requests[k].key in lives
      ensures !lives[s'.requests[k].key].Asked? && lives[s'.requests[k].key].h == k
    {
      KeysStay(s, e, k);
    }
  }

  lemma ServeKeepsWorld(w: World, e: Event, parses: string -> bool)
    requires WorldInv(w) && Enabled(w, Serve(e))
    ensures WorldInv(Next(w, Serve(e), parses))
  {
    var s := w.service;
    var id := KeyOf(s, e);
    AttemptsStay(s, e, w.lives);
    EventGrows(s, e);
    if id in w.lives {
      ServeKeepsLife(s, e, id, w.lives[id]);
    }
    EventKeepsServiceSide(s, e, w.lives, w.lives, w.foreign, w.foreign);
    SavesStay(s, ContextService.Next(s, e), w.lives, w.lives, w.client);
  }

  lemma ForeignKeepsWorld(w: World, e: Event, parses: string -> bool)
    requires WorldInv(w) && Enabled(w, Foreign(e))
    ensures WorldInv(Next(w, Foreign(e), parses))
  {
    var s := w.service;
    AttemptsStay(s, e, w.lives);
    EventGrows(s, e);
    EventKeepsServiceSide(s, e, w.lives, w.lives, w.foreign, w.foreign + {e.key});
    SavesStay(s, ContextService.Next(s, e), w.lives, w.lives, w.client);
  }

  lemma WithoutKeepsClientSide(c: C.Client, lives: map<string, Life>, command: C.Command)
    requires ClientSide(c, lives) && command in c.sent
    ensures ClientSide(Without(c, command), lives)
  {
    var c' := Without(c, command);
    forall other | other in c'.sent
      ensures CommandInv(c'.sent, lives, other)
    {
      assert other in c.sent && CommandInv(c.sent, lives, other);
    }
    assert forall k :: k in c.contextMap ==> EntryInv(c, k, lives[k]) && EntryInv(c', k, lives[k]);
  }

  /** The lock command of a request leaves the wire, and no other command about the request is on it. */
  lemma LockCommandLeaves(c: C.Client, lives: map<string, Life>, command: C.Command, h: Handle)
    requires ClientSide(c, lives) && command in c.sent && command.LockCommand?
    ensures command.id in lives && lives[command.id].Asked?
    ensures ClientSide(Without(c, command), lives[command.id := Serving(command.mode, command.path, h)])
  {
    var c', lives' := Without(c, command), lives[command.id := Serving(command.mode, command.path, h)];
    assert CommandInv(c.sent, lives, command);
    forall other | other in c'.sent
      ensures CommandInv(c'.sent, lives', other)
    {
      assert other in c.sent && CommandInv(c.sent, lives, other);
    }
    forall k | k in c'.contextMap
      ensures EntryInv(c', k, lives'[k])
    {
      assert EntryInv(c, k, lives[k]);
    }
  }

  lemma NewHandleNeverWrote(s: State, h: Handle)
    requires Inv(s) && h !in s.requests
    ensures NeverWrote(s, h)
  {
    forall path, i | CommitAt(s, path, i, h)
      ensures false
    {
      WriterMayHaveCommitted(s, path, i, h);
    }
  }

  /** The lock command of a request starts its attempt. */
  lemma AskedIsServed(s: State, command: C.Command, h: Handle)
    requires Inv(s) && command.LockCommand? && ContextService.Enabled(s, EventOf(command, h))
    requires ServiceInv(s, command.id, Asked(command.mode, command.path))
    ensures ServiceInv(ContextService.Next(s, EventOf(command, h)), command.id, Serving(command.mode, command.path, h))
  {
    NewHandleNeverWrote(s, h);
  }

  lemma LockArrives(s: State, lives: map<string, Life>, foreign: set<string>, command: C.Command, h: Handle)
    requires ServiceSide(s, lives, foreign) && command.LockCommand? && ContextService.Enabled(s, EventOf(command, h))
    requires command.id in lives && lives[command.id] == Asked(command.mode, command.path)
    ensures ServiceSide(ContextService.Next(s, EventOf(command, h)),
                        lives[command.id := Serving(command.mode, command.path, h)], foreign)
  {
    assert ServiceInv(s, command.id, lives[command.id]);
    AskedIsServed(s, command, h);
    EventKeepsServiceSide(s, EventOf(command, h), lives, lives[command.id := Serving(command.mode, command.path, h)],
                          foreign, foreign);
  }

  lemma DeliverLockKeepsWorld(w: World, command: C.Command, h: Handle, parses: string -> bool)
    requires WorldInv(w) && Enabled(w, Deliver(command, h)) && command.LockCommand?
    ensures WorldInv(Next(w, Deliver(command, h), parses))
  {
    var s, e := w.service, EventOf(command, h);
    var w' := Next(w, Deliver(command, h), parses);
    LockCommandLeaves(w.client, w.lives, command, h);
    assert CommandInv(w.client.sent, w.lives, command);
    LockArrives(s, w.lives, w.foreign, command, h);
    EventGrows(s, e);
    SavesStay(s, w'.service, w.lives, w'.lives, w.client);
  }

  lemma DeliverReleaseKeepsWorld(w: World, command: C.Command, h: Handle, parses: string -> bool)
    requires WorldInv(w) && Enabled(w, Deliver(command, h)) && !command.LockCommand?
    ensures WorldInv(Next(w, Deliver(command, h), parses))
  {
    var s, e := w.service, EventOf(command, h);
    var w' := Next(w, Deliver(command, h), parses);
    WithoutKeepsClientSide(w.client, w.lives, command);
    assert CommandInv(w.client.sent, w.lives, command);
    AttemptsStay(s, e, w.lives);
    EventGrows(s, e);
    ReleaseReaches(s, e, command.id, w.lives[command.id]);
    EventKeepsServiceSide(s, e, w.lives, w.lives, w.foreign, w.foreign);
    SavesStay(s, w'.service, w.lives, w.lives, w.client);
  }

  // ---------- replies ----------

  /** Taking a reply off the wire. */
  lemma FewerReplies(s: State, reply: Reply, id: string, life: Life)
    requires ServiceInv(s, id, life) && reply in s.outbox
    ensures ServiceInv(s.(outbox := s.outbox - multiset{reply}), id, life)
  {
    var s' := s.(outbox := s.outbox - multiset{reply});
    assert Grows(s, s');
    assert forall r :: r in s'.outbox ==> r in s.outbox;
    if life.Released? {
      forall t | Committed(s, life.h, t) ensures Committed(s', life.h, t) { CommittedStays(s, s', life.h, t); }
    }
  }

  /** The one grant of a request is taken off the wire. */
  lemma GrantIsTaken(s: State, reply: Reply, life: Life)
    requires ServiceInv(s, reply.key, life) && life.Serving? && life.mode != C.LockUnlock
    requires reply.Granted? && reply in s.outbox
    ensures ServiceInv(s.(outbox := s.outbox - multiset{reply}), reply.key, GivenTo(life, reply.text))
  {
    var s' := s.(outbox := s.outbox - multiset{reply});
    assert forall r :: r in s'.outbox ==> r in s.outbox;
    assert s.outbox[reply] == 1;
    assert forall t :: Granted(reply.key, t) in s.outbox ==> Granted(reply.key, t) == reply;
  }

  lemma TakeKeepsLives(s: State, lives: map<string, Life>, foreign: set<string>, reply: Reply)
    requires LivesSide(s, lives, foreign) && reply in s.outbox
    ensures LivesSide(s.(outbox := s.outbox - multiset{reply}), lives, foreign)
  {
    var s' := s.(outbox := s.outbox - multiset{reply});
    assert forall r :: r in s'.outbox ==> r in s.outbox;
    forall id | id in lives ensures ServiceInv(s', id, lives[id]) {
      FewerReplies(s, reply, id, lives[id]);
    }
  }

  lemma TakenGrantMovesLife(s: State, lives: map<string, Life>, foreign: set<string>, reply: Reply)
    requires LivesSide(s, lives, foreign) && reply in s.outbox && reply.Granted?
    requires reply.key in lives && lives[reply.key].Serving? && lives[reply.key].mode != C.LockUnlock
    ensures LivesSide(s.(outbox := s.outbox - multiset{reply}),
                      lives[reply.key := GivenTo(lives[reply.key], reply.text)], foreign)
  {
    TakeKeepsLives(s, lives, foreign, reply);
    GrantIsTaken(s, reply, lives[reply.key]);
    LifeChanges(s.(outbox := s.outbox - multiset{reply}), lives, foreign, reply.key,
                GivenTo(lives[reply.key], reply.text));
  }

  /** The entry of a granted lock is kept, for the caller to release. */
  lemma GrantKeepsClientSide(c: C.Client, c': C.Client, lives: map<string, Life>, id: string, got: string)
    requires ClientSide(c, lives) && id in c.contextMap && lives[id].Serving?
    requires c'.contextMap == c.contextMap[id := c.contextMap[id].(state := C.Processing)]
    requires c'.sent == c.sent && c'.next == c.next
    requires c'.promises == C.Settle(c.promises, c.contextMap[id].promise, C.Resolved) || c'.promises == c.promises
    ensures ClientSide(c', lives[id := GivenTo(lives[id], got)])
  {
    var lives' := lives[id := GivenTo(lives[id], got)];
    assert EntryInv(c, id, lives[id]);
    forall k | k in c'.contextMap
      ensures EntryInv(c', k, lives'[k])
    {
      assert EntryInv(c, k, lives[k]);
    }
    forall command | command in c'.sent
      ensures CommandInv(c'.sent, lives', command)
    {
      assert CommandInv(c.sent, lives, command);
    }
  }

  /** What the client does with the grant of a lock. */
  lemma GrantEffect(c: C.Client, reply: Reply, parses: string -> bool)
    requires reply.key in c.contextMap && c.contextMap[reply.key].state == C.WaitingLock && !reply.Refused?
    ensures var c', id := C.AfterReply(c, reply, parses), reply.key;
            && c'.contextMap == c.contextMap[id := c.contextMap[id].(state := C.Processing)]
            && c'.sent == c.sent && c'.next == c.next
            && (c'.promises == C.Settle(c.promises, c.contextMap[id].promise, C.Resolved) || c'.promises == c.promises)
  {
  }

  /** What the client does with any other reply to a request in its table. */
  lemma DropEffect(c: C.Client, reply: Reply, parses: string -> bool, settlement: C.Settlement)
    requires reply.key in c.contextMap && (reply.Refused? || c.contextMap[reply.key].state != C.WaitingLock)
    requires settlement == if reply.Refused? || c.contextMap[reply.key].state == C.Processing
                           then C.Rejected else C.Resolved
    ensures var c', id := C.AfterReply(c, reply, parses), reply.key;
            && c'.contextMap == c.contextMap - {id} && c'.sent == c.sent && c'.next == c.next
            && (c'.promises == C.Settle(c.promises, c.contextMap[id].promise, settlement) || c'.promises == c.promises)
  {
  }

  /** A positive reply says what has happened: the lock is granted, or the text of the release is written. */
  lemma ReplyMeans(s: State, lives: map<string, Life>, c: C.Client, reply: Reply)
    requires reply.key in c.contextMap && reply.key in lives && reply in s.outbox && !reply.Refused?
    requires EntryInv(c, reply.key, lives[reply.key]) && ServiceInv(s, reply.key, lives[reply.key])
    ensures var state, p := c.contextMap[reply.key].state, c.contextMap[reply.key].promise;
            && (state == C.WaitingLock ==> reply.Granted? && lives[reply.key].Serving?)
            && (state != C.Processing ==> SaveHolds(s, lives, c.promises[p].(settlement := C.Resolved)))
  {
    if c.contextMap[reply.key].state == C.WaitingUnlock {
      assert reply == Okay(reply.key);
    }
  }

  predicate WaitsForLock(w: World, reply: Reply)
  {
    Enabled(w, Answer(reply)) && !reply.Refused? && reply.key in w.client.contextMap
    && w.client.contextMap[reply.key].state == C.WaitingLock
  }

  lemma GrantMovesLife(w: World, reply: Reply, parses: string -> bool)
    requires LinkInv(w) && WaitsForLock(w, reply)
    ensures reply.Granted? && reply.key in w.lives
    ensures w.lives[reply.key].Serving? && w.lives[reply.key].mode != C.LockUnlock
    ensures AllSavesHold(w.service, w.lives, C.AfterReply(w.client, reply, parses))
  {
    assert EntryInv(w.client, reply.key, w.lives[reply.key]) && ServiceInv(w.service, reply.key, w.lives[reply.key]);
    ReplyMeans(w.service, w.lives, w.client, reply);
    GrantEffect(w.client, reply, parses);
    SettleKeepsSaves(w.service, w.lives, w.client, C.AfterReply(w.client, reply, parses),
                     w.client.contextMap[reply.key].promise, C.Resolved);
  }

  lemma GrantNext(w: World, reply: Reply, parses: string -> bool)
    requires WaitsForLock(w, reply) && reply.Granted? && reply.key in w.lives && w.lives[reply.key].Serving?
    ensures Next(w, Answer(reply), parses)
         == World(w.service.(outbox := w.service.outbox - multiset{reply}), C.AfterReply(w.client, reply, parses),
                  w.lives[reply.key := GivenTo(w.lives[reply.key], reply.text)], w.foreign)
  {
  }

  /** A positive reply to a request that waits for its lock is the grant. */
  lemma GrantAnswers(w: World, reply: Reply, parses: string -> bool)
    requires LinkInv(w) && WaitsForLock(w, reply)
    ensures LinkInv(Next(w, Answer(reply), parses))
  {
    GrantMovesLife(w, reply, parses);
    GrantNext(w, reply, parses);
    GrantEffect(w.client, reply, parses);
    GivenKeepsLink(w, reply, C.AfterReply(w.client, reply, parses));
  }

  lemma GivenKeepsLink(w: World, reply: Reply, c': C.Client)
    requires LinkInv(w) && reply in w.service.outbox && reply.Granted? && reply.key in w.client.contextMap
    requires reply.key in w.lives && w.lives[reply.key].Serving? && w.lives[reply.key].mode != C.LockUnlock
    requires AllSavesHold(w.service, w.lives, c') && c'.sent == w.client.sent && c'.next == w.client.next
    requires c'.contextMap == w.client.contextMap[reply.key := w.client.contextMap[reply.key].(state := C.Processing)]
    requires c'.promises == C.Settle(w.client.promises, w.client.contextMap[reply.key].promise, C.Resolved)
             || c'.promises == w.client.promises
    ensures LinkInv(World(w.service.(outbox := w.service.outbox - multiset{reply}), c',
                           w.lives[reply.key := GivenTo(w.lives[reply.key], reply.text)], w.foreign))
  {
    var lives' := w.lives[reply.key := GivenTo(w.lives[reply.key], reply.text)];
    TakenGrantMovesLife(w.service, w.lives, w.foreign, reply);
    GrantKeepsClientSide(w.client, c', w.lives, reply.key, reply.text);
    SavesStay(w.service, w.service.(outbox := w.service.outbox - multiset{reply}), w.lives, lives', c');
  }

  /** Any other reply to a request in the table takes its entry out. */
  lemma ReplyDrops(w: World, reply: Reply, parses: string -> bool)
    requires LinkInv(w) && Enabled(w, Answer(reply)) && reply.key in w.client.contextMap
    requires reply.Refused? || w.client.contextMap[reply.key].state != C.WaitingLock
    ensures LinkInv(Next(w, Answer(reply), parses))
  {
    var id, w' := reply.key, Next(w, Answer(reply), parses);
    var p, state := w.client.contextMap[id].promise, w.client.contextMap[id].state;
    var settlement := if reply.Refused? || state == C.Processing then C.Rejected else C.Resolved;
    if !reply.Refused? {
      ReplyMeans(w.service, w.lives, w.client, reply);
    }
    DropEffect(w.client, reply, parses, settlement);
    assert w'.lives == w.lives;
    TakeKeepsLives(w.service, w.lives, w.foreign, reply);
    DropKeepsClientSide(w.client, w'.client, w.lives, id, p, settlement);
    SettleKeepsSaves(w.service, w.lives, w.client, w'.client, p, settlement);
    SavesStay(w.service, w'.service, w.lives, w.lives, w'.client);
  }

  lemma AnswerKeepsWorld(w: World, reply: Reply, parses: string -> bool)
    requires WorldInv(w) && Enabled(w, Answer(reply))
    ensures WorldInv(Next(w, Answer(reply), parses))
  {
    InvIgnoresOutbox(w.service, w.service.outbox - multiset{reply});
    if reply.key !in w.client.contextMap {
      TakeKeepsLives(w.service, w.lives, w.foreign, reply);
      SavesStay(w.service, Next(w, Answer(reply), parses).service, w.lives, w.lives, w.client);
    } else if !reply.Refused? && w.client.contextMap[reply.key].state == C.WaitingLock {
      GrantAnswers(w, reply, parses);
    } else {
      ReplyDrops(w, reply, parses);
    }
  }

  lemma LossKeepsWorld(w: World, step: Step, parses: string -> bool)
    requires WorldInv(w) && Enabled(w, step) && (step.LoseCommand? || step.LoseReply?)
    ensures WorldInv(Next(w, step, parses))
  {
    if step.LoseCommand? {
      WithoutKeepsClientSide(w.client, w.lives, step.command);
    } else {
      InvIgnoresOutbox(w.service, w.service.outbox - multiset{step.reply});
      TakeKeepsLives(w.service, w.lives, w.foreign, step.reply);
      SavesStay(w.service, Next(w, step, parses).service, w.lives, w.lives, w.client);
    }
  }

  lemma StepKeepsWorld(w: World, step: Step, parses: string -> bool)
    requires WorldInv(w) && Enabled(w, step)
    ensures WorldInv(Next(w, step, parses))
  {
    match step
    case Lock(id, path, mode) => LockKeepsLink(w, id, path, mode, parses);
    case Release(id, text) => ReleaseKeepsLink(w, id, text, parses);
    case Expire(timer) => ExpireKeepsLink(w, timer, parses);
    case Deliver(command, h) =>
      if command.LockCommand? {
        DeliverLockKeepsWorld(w, command, h, parses);
      } else {
        DeliverReleaseKeepsWorld(w, command, h, parses);
      }
    case Answer(reply) => AnswerKeepsWorld(w, reply, parses);
    case Serve(e) => ServeKeepsWorld(w, e, parses);
    case Foreign(e) => ForeignKeepsWorld(w, e, parses);
    case LoseCommand(_) => LossKeepsWorld(w, step, parses);
    case LoseReply(_) => LossKeepsWorld(w, step, parses);
  }

  lemma {:induction false} RunKeepsWorld(w: World, run: seq<Step>, parses: string -> bool)
    requires WorldInv(w) && Legal(w, run, parses)
    ensures WorldInv(After(w, run, parses))
    decreases |run|
  {
    if run != [] {
      StepKeepsWorld(w, run[0], parses);
      RunKeepsWorld(Next(w, run[0], parses), run[1..], parses);
    }
  }

  // ---------- the theorem ----------

  /** Commit number i on the path was made by an attempt for this request. */
  ghost predicate WrittenFor(s: State, id: string, path: string, i: int)
  {
    && path in s.store && 0 <= i < |s.store[path].history|
    && s.store[path].history[i].handle in s.requests && s.requests[s.store[path].history[i].handle].key == id
  }

  /** The text has been written for the request, once, under its write lock, and nothing else ever was. */
  ghost predicate WrittenOnce(s: State, id: string, text: string)
  {
    exists path, i :: WrittenFor(s, id, path, i) && s.store[path].history[i].text == text
      && NothingElseFor(s, id, path, i) && UnderWriteLock(s, s.store[path].history[i])
  }

  ghost predicate NothingElseFor(s: State, id: string, path: string, i: int)
  {
    forall path2, j :: WrittenFor(s, id, path2, j) ==> path2 == path && j == i
  }

  /** The write was made by an attempt whose write node was alive at that moment. */
  predicate UnderWriteLock(s: State, c: Commit)
  {
    && c.held && c.handle in s.requests && s.requests[c.handle].mode == Write
    && s.requests[c.handle].node == Some(LockNode(Write, c.number))
  }

  lemma CommitsAreUnique(s: State, h: Handle, path: string, i: int, path2: string, j: int)
    requires Inv(s) && CommitAt(s, path, i, h) && CommitAt(s, path2, j, h)
    ensures path == path2 && i == j
  {
    var a, b := s.store[path].history[i], s.store[path2].history[j];
    assert PathData(s, path) && a in s.store[path].history && CommitInv(s, path, a);
    assert PathData(s, path2) && b in s.store[path2].history && CommitInv(s, path2, b);
  }

  /** End to end, for any run of the client, the service and other clients, with lost messages and timeouts: if
      the promise of a save is resolved, the service has written that text exactly once, under the write lock of
      that request, whose node was alive when it was written. */
  lemma ResolvedSaveIsWritten(base: nat, run: seq<Step>, parses: string -> bool, p: nat)
    requires Legal(Start(base), run, parses)
    requires var c := After(Start(base), run, parses).client;
             p in c.promises && c.promises[p].purpose.ForSave? && c.promises[p].settlement == C.Resolved
    ensures var w := After(Start(base), run, parses);
            WrittenOnce(w.service, w.client.promises[p].id, w.client.promises[p].purpose.text)
  {
    LockInvInit(base);
    assert Inv(Init(base));
    assert WorldInv(Start(base));
    RunKeepsWorld(Start(base), run, parses);
    ResolvedMeansWritten(After(Start(base), run, parses), p);
  }

  lemma ResolvedMeansWritten(w: World, p: nat)
    requires WorldInv(w) && p in w.client.promises
    requires w.client.promises[p].purpose.ForSave? && w.client.promises[p].settlement == C.Resolved
    ensures WrittenOnce(w.service, w.client.promises[p].id, w.client.promises[p].purpose.text)
  {
    assert SaveHolds(w.service, w.lives, w.client.promises[p]);
    var id := w.client.promises[p].id;
    assert ServiceInv(w.service, id, w.lives[id]) && OneAttempt(w.service, w.lives);
    CommittedIsWrittenOnce(w.service, id, w.lives[id].h, w.client.promises[p].purpose.text);
  }

  /** Conversely, what has been written for a request is the text it was released with, over the content that
      its grant carried. */
  lemma WrittenIsAsked(w: World, id: string, path: string, i: int)
    requires WorldInv(w) && id in w.lives && WrittenFor(w.service, id, path, i)
    ensures w.lives[id].Released? && w.lives[id].path == path
    ensures var c := w.service.store[path].history[i];
            w.lives[id].text == Some(c.text) && w.lives[id].got == c.got.text
  {
    var c := w.service.store[path].history[i];
    assert PathData(w.service, path) && c in w.service.store[path].history && CommitInv(w.service, path, c);
    assert ServiceInv(w.service, id, w.lives[id]) && OneAttempt(w.service, w.lives);
    assert CommitAt(w.service, path, i, w.lives[id].h);
  }

  lemma CommitHoldsWriteLock(s: State, path: string, i: int, h: Handle)
    requires Inv(s) && CommitAt(s, path, i, h)
    ensures UnderWriteLock(s, s.store[path].history[i])
  {
    var c := s.store[path].history[i];
    assert PathData(s, path) && c in s.store[path].history && CommitInv(s, path, c);
    assert RequestInv(s, h);
  }

  lemma OneAttemptWritesOnce(s: State, id: string, h: Handle, path: string, i: int)
    requires Inv(s) && CommitAt(s, path, i, h)
    requires forall k :: k in s.requests && s.requests[k].key == id ==> k == h
    ensures NothingElseFor(s, id, path, i)
  {
    forall path2, j | WrittenFor(s, id, path2, j)
      ensures path2 == path && j == i
    {
      assert CommitAt(s, path2, j, h);
      CommitsAreUnique(s, h, path, i, path2, j);
    }
  }

  lemma CommittedIsWrittenOnce(s: State, id: string, h: Handle, text: string)
    requires Inv(s) && h in s.requests && s.requests[h].key == id && Committed(s, h, text)
    requires forall k :: k in s.requests && s.requests[k].key == id ==> k == h
    ensures WrittenOnce(s, id, text)
  {
    var path, i :| CommitAt(s, path, i, h) && s.store[path].history[i].text == text;
    CommitHoldsWriteLock(s, path, i, h);
    OneAttemptWritesOnce(s, id, h, path, i);
    assert WrittenFor(s, id, path, i);
  }
}
