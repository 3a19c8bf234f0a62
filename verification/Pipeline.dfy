/**
 From the arrival of an event to its last task: every event queue has one consumer, which publishes the
 first tasks of an event and then acknowledges it; every task queue has one executor, which sends the child
 tasks with the higher priority and then acknowledges.
 */
module Pipeline {
  import opened Options
  import opened TaskQueue
  import opened Routing

  /** A task and the event it descends from.  What the task carries does not matter here. */
  datatype Job = Job(event: nat, body: string)

  /** Events are numbered as they arrive; `devices` holds the device of each.  `log` lists the tasks in the
      order the executors received them. */
  datatype State = State(devices: seq<string>, events: seq<Queue<nat>>, tasks: seq<Queue<Job>>, log: seq<Job>)

  datatype Step =
    | Enqueue(device: string)
    | TakeEvent(queue: nat)
    | Publish(queue: nat, body: string)
    | AckEvent(queue: nat)
    | TakeTask(queue: nat)
    | Send(queue: nat, body: string)
    | AckTask(queue: nat)

  predicate HasQueue(device: string, queues: nat)
  {
    queues > 0 && 0 <= CalculateQueue(device, queues) < queues
  }

  /** The event in the hands of the consumer of an event queue. */
  function InHand(s: State, queue: nat): Option<nat>
    requires queue < |s.events|
  {
    s.events[queue].unacked
  }

  predicate Enabled(s: State, step: Step)
  {
    match step
    case Enqueue(device) => HasQueue(device, |s.events|)
    case TakeEvent(q) => q < |s.events| && s.events[q].CanDeliver()
    case Publish(q, _) =>
      q < |s.events| && InHand(s, q).Some? && InHand(s, q).value < |s.devices|
      && HasQueue(s.devices[InHand(s, q).value], |s.tasks|)
    case AckEvent(q) => q < |s.events| && InHand(s, q).Some?
    case TakeTask(q) => q < |s.tasks| && s.tasks[q].CanDeliver()
    case Send(q, _) => q < |s.tasks| && s.tasks[q].unacked.Some?
    case AckTask(q) => q < |s.tasks| && s.tasks[q].unacked.Some?
  }

  function Next(s: State, step: Step): State
    requires Enabled(s, step)
  {
    match step
    case Enqueue(device) =>
      var q := CalculateQueue(device, |s.events|);
      s.(devices := s.devices + [device], events := s.events[q := s.events[q].Sent(|s.devices|, 0)])
    case TakeEvent(q) => s.(events := s.events[q := s.events[q].Delivered()])
    case Publish(q, body) =>
      var e := InHand(s, q).value;
      var t := CalculateQueue(s.devices[e], |s.tasks|);
      s.(tasks := s.tasks[t := s.tasks[t].Sent(Job(e, body), 0)])
    case AckEvent(q) => s.(events := s.events[q := s.events[q].Acked()])
    case TakeTask(q) =>
      var after := s.tasks[q].Delivered();
      s.(tasks := s.tasks[q := after], log := s.log + [after.unacked.value])
    case Send(q, body) =>
      s.(tasks := s.tasks[q := s.tasks[q].Sent(Job(s.tasks[q].unacked.value.event, body), 1)])
    case AckTask(q) => s.(tasks := s.tasks[q := s.tasks[q].Acked()])
  }

  ghost predicate Legal(s: State, run: seq<Step>)
    decreases |run|
  {
    run == [] || (Enabled(s, run[0]) && Legal(Next(s, run[0]), run[1..]))
  }

  ghost function After(s: State, run: seq<Step>): State
    requires Legal(s, run)
    decreases |run|
  {
    if run == [] then s else After(Next(s, run[0]), run[1..])
  }

  ghost predicate Initial(s: State)
  {
    && s.devices == [] && s.log == []
    && (forall q :: 0 <= q < |s.events| ==> s.events[q] == Queue([], [], None))
    && (forall q :: 0 <= q < |s.tasks| ==> s.tasks[q] == Queue([], [], None))
  }

  // ---------- what the order theorem is about ----------

  /** Where events go: the devices of the events so far, and how many queues of each kind there are. */
  datatype Layout = Layout(devices: seq<string>, eventQueues: nat, taskQueues: nat)
  {
    /** Two events whose devices share the event queue and the task queue; the same device always does. */
    predicate SameLane(a: nat, b: nat)
    {
      && a < |devices| && b < |devices| && eventQueues > 0 && taskQueues > 0
      && CalculateQueue(devices[a], eventQueues) == CalculateQueue(devices[b], eventQueues)
      && CalculateQueue(devices[a], taskQueues) == CalculateQueue(devices[b], taskQueues)
    }

    predicate EventGoesTo(event: nat, queue: nat)
    {
      event < |devices| && eventQueues > 0 && CalculateQueue(devices[event], eventQueues) == queue
    }

    predicate TaskGoesTo(event: nat, queue: nat)
    {
      event < |devices| && taskQueues > 0 && CalculateQueue(devices[event], taskQueues) == queue
    }

    function With(device: string): Layout { this.(devices := devices + [device]) }
  }

  function LayoutOf(s: State): Layout { Layout(s.devices, |s.events|, |s.tasks|) }

  /** Nothing of an event is left: it is acknowledged and so is every task that descends from it. */
  ghost predicate Settled(s: State, event: nat)
  {
    && (forall q :: 0 <= q < |s.events| ==> !s.events[q].Holds(event))
    && (forall q :: 0 <= q < |s.tasks| ==> NoTaskOf(s.tasks[q], event))
  }

  ghost predicate NoTaskOf(line: Queue<Job>, event: nat)
  {
    forall job: Job :: line.Holds(job) ==> job.event != event
  }

  // ---------- invariants ----------

  ghost predicate EventLineInv(c: Layout, line: Queue<nat>, q: nat)
  {
    && line.high == []
    && (forall i, j :: 0 <= i < j < |line.low| ==> line.low[i] < line.low[j])
    && (line.unacked.Some? ==> forall e :: e in line.low ==> line.unacked.value < e)
    && (forall e: nat :: line.Holds(e) ==> c.EventGoesTo(e, q))
  }

  ghost predicate Running(line: Queue<Job>, job: Job) { job in line.high || line.unacked == Some(job) }

  ghost predicate TaskLineInv(c: Layout, line: Queue<Job>, q: nat)
  {
    && (forall job: Job :: line.Holds(job) ==> c.TaskGoesTo(job.event, q))
    && LowIsOrdered(c, line) && RunningIsOneEvent(line) && RunningIsFirst(c, line)
  }

  ghost predicate LowIsOrdered(c: Layout, line: Queue<Job>)
  {
    forall i, j :: 0 <= i < j < |line.low| && c.SameLane(line.low[i].event, line.low[j].event) ==>
      line.low[i].event <= line.low[j].event
  }

  /** The tasks of higher priority and the one being executed all descend from one event. */
  ghost predicate RunningIsOneEvent(line: Queue<Job>)
  {
    forall x, y :: Running(line, x) && Running(line, y) ==> x.event == y.event
  }

  ghost predicate RunningIsFirst(c: Layout, line: Queue<Job>)
  {
    forall x, y :: Running(line, x) && y in line.low && c.SameLane(x.event, y.event) ==> x.event <= y.event
  }

  /** A task is never ahead of an event of its lane that is still to be published. */
  ghost predicate TasksFollowEvents(c: Layout, events: Queue<nat>, tasks: Queue<Job>)
  {
    forall e: nat, job: Job :: events.Holds(e) && tasks.Holds(job) && c.SameLane(job.event, e) ==> job.event <= e
  }

  ghost predicate QueueInv(s: State)
  {
    && (forall q :: 0 <= q < |s.events| ==> EventLineInv(LayoutOf(s), s.events[q], q))
    && (forall q :: 0 <= q < |s.tasks| ==> TaskLineInv(LayoutOf(s), s.tasks[q], q))
    && (forall p, q :: 0 <= p < |s.events| && 0 <= q < |s.tasks| ==>
          TasksFollowEvents(LayoutOf(s), s.events[p], s.tasks[q]))
  }

  /** What holds of a delivered task for ever: the earlier events of its lane are settled. */
  ghost predicate EarlierAreSettled(s: State, event: nat)
  {
    forall a: nat :: a < event && LayoutOf(s).SameLane(a, event) ==> Settled(s, a)
  }

  ghost predicate InOrder(c: Layout, log: seq<Job>)
  {
    forall i, j :: 0 <= i < j < |log| && c.SameLane(log[i].event, log[j].event) ==> log[i].event <= log[j].event
  }

  ghost predicate LogInv(s: State)
  {
    && (forall job: Job :: job in s.log ==> job.event < |s.devices| && EarlierAreSettled(s, job.event))
    && InOrder(LayoutOf(s), s.log)
  }

  // ---------- one queue at a time ----------

  lemma EventLineGrows(c: Layout, line: Queue<nat>, q: nat, device: string)
    requires EventLineInv(c, line, q)
    ensures EventLineInv(c.With(device), line, q)
  {
    assert forall e: nat :: c.EventGoesTo(e, q) ==> c.With(device).EventGoesTo(e, q);
  }

  lemma EventLineReceives(c: Layout, line: Queue<nat>, q: nat, e: nat)
    requires EventLineInv(c, line, q) && c.EventGoesTo(e, q)
    requires forall x: nat :: line.Holds(x) ==> x < e
    ensures EventLineInv(c, line.Sent(e, 0), q)
  {
    var after := line.Sent(e, 0);
    forall i, j | 0 <= i < j < |after.low|
      ensures after.low[i] < after.low[j]
    {
      assert line.Holds(line.low[i]);
    }
    assert line.unacked.Some? ==> line.Holds(line.unacked.value);
  }

  lemma EventLineMoves(c: Layout, line: Queue<nat>, q: nat)
    requires EventLineInv(c, line, q)
    ensures line.CanDeliver() ==> EventLineInv(c, line.Delivered(), q)
    ensures EventLineInv(c, line.Acked(), q)
  {
  }

  lemma TaskLineGrows(c: Layout, line: Queue<Job>, q: nat, device: string)
    requires TaskLineInv(c, line, q)
    ensures TaskLineInv(c.With(device), line, q)
  {
    var d := c.With(device);
    assert forall job: Job :: line.Holds(job) ==> c.TaskGoesTo(job.event, q) && d.TaskGoesTo(job.event, q);
    assert forall a: nat, b: nat :: a < |c.devices| && b < |c.devices| && d.SameLane(a, b) ==> c.SameLane(a, b);
    assert forall i :: 0 <= i < |line.low| ==> line.Holds(line.low[i]);
    assert forall job :: Running(line, job) ==> line.Holds(job);
  }

  lemma TaskLinePublishes(c: Layout, line: Queue<Job>, q: nat, job: Job)
    requires TaskLineInv(c, line, q) && c.TaskGoesTo(job.event, q)
    requires forall x: Job :: line.Holds(x) && c.SameLane(x.event, job.event) ==> x.event <= job.event
    ensures TaskLineInv(c, line.Sent(job, 0), q)
  {
    var after := line.Sent(job, 0);
    assert forall x: Job :: after.Holds(x) ==> line.Holds(x) || x == job;
    assert forall x :: Running(after, x) ==> Running(line, x) && line.Holds(x);
    assert forall i :: 0 <= i < |line.low| ==> line.Holds(line.low[i]);
  }

  lemma TaskLineDelivers(c: Layout, line: Queue<Job>, q: nat)
    requires TaskLineInv(c, line, q) && line.CanDeliver()
    ensures TaskLineInv(c, line.Delivered(), q)
  {
    var after := line.Delivered();
    assert forall x: Job :: after.Holds(x) ==> line.Holds(x);
    if line.high != [] {
      assert after.low == line.low;
      assert forall x :: Running(after, x) ==> Running(line, x);
    } else {
      assert after.low == line.low[1..];
      assert forall x :: Running(after, x) ==> x == line.low[0];
      assert forall x :: x in after.low ==> exists j :: 0 < j < |line.low| && line.low[j] == x;
    }
  }

  lemma TaskLineIsAcked(c: Layout, line: Queue<Job>, q: nat)
    requires TaskLineInv(c, line, q)
    ensures TaskLineInv(c, line.Acked(), q)
  {
    var acked := line.Acked();
    assert acked.low == line.low;
    assert forall x: Job :: acked.Holds(x) ==> line.Holds(x);
    assert forall x :: Running(acked, x) ==> Running(line, x);
  }

  lemma TaskLineSends(c: Layout, line: Queue<Job>, q: nat, job: Job)
    requires TaskLineInv(c, line, q) && line.unacked.Some? && job.event == line.unacked.value.event
    ensures TaskLineInv(c, line.Sent(job, 1), q)
  {
    var after, current := line.Sent(job, 1), line.unacked.value;
    assert Running(line, current) && line.Holds(current);
    assert forall x: Job :: after.Holds(x) ==> line.Holds(x) || x == job;
    assert forall x :: Running(after, x) ==> Running(line, x) || x == job;
  }

  // ---------- pairs of queues ----------

  lemma PairShrinks(c: Layout, e: Queue<nat>, t: Queue<Job>, e': Queue<nat>, t': Queue<Job>)
    requires TasksFollowEvents(c, e, t)
    requires forall x: nat :: e'.Holds(x) ==> e.Holds(x)
    requires forall x: Job :: t'.Holds(x) ==> exists y: Job :: t.Holds(y) && y.event == x.event
    ensures TasksFollowEvents(c, e', t')
  {
    forall x: nat, job: Job | e'.Holds(x) && t'.Holds(job) && c.SameLane(job.event, x)
      ensures job.event <= x
    {
      var y: Job :| t.Holds(y) && y.event == job.event;
    }
  }

  lemma PairGrows(c: Layout, e: Queue<nat>, p: nat, t: Queue<Job>, q: nat, device: string)
    requires TasksFollowEvents(c, e, t) && EventLineInv(c, e, p) && TaskLineInv(c, t, q)
    ensures TasksFollowEvents(c.With(device), e, t)
    ensures TasksFollowEvents(c.With(device), e.Sent(|c.devices|, 0), t)
  {
    var d := c.With(device);
    forall x: nat, job: Job | e.Sent(|c.devices|, 0).Holds(x) && t.Holds(job) && d.SameLane(job.event, x)
      ensures job.event <= x
    {
      assert c.TaskGoesTo(job.event, q);
      if x != |c.devices| {
        assert e.Holds(x) && c.EventGoesTo(x, p);
        assert c.SameLane(job.event, x);
      }
    }
    assert forall x: nat :: e.Holds(x) ==> e.Sent(|c.devices|, 0).Holds(x);
  }

  lemma PairPublishes(c: Layout, e: Queue<nat>, p: nat, t: Queue<Job>, from: Queue<nat>, q: nat, job: Job)
    requires TasksFollowEvents(c, e, t) && EventLineInv(c, e, p) && EventLineInv(c, from, q)
    requires from.unacked == Some(job.event) && (p == q ==> e == from)
    ensures TasksFollowEvents(c, e, t.Sent(job, 0))
  {
    assert from.Holds(job.event);
    forall x: nat, j: Job | e.Holds(x) && t.Sent(job, 0).Holds(j) && c.SameLane(j.event, x)
      ensures j.event <= x
    {
      if j == job {
        assert c.EventGoesTo(j.event, q) && c.EventGoesTo(x, p);
        assert p == q;
      } else {
        assert t.Holds(j);
      }
    }
  }

  // ---------- every step keeps the queues in order ----------

  lemma EnqueueKeepsQueues(s: State, device: string)
    requires QueueInv(s) && Enabled(s, Enqueue(device))
    ensures QueueInv(Next(s, Enqueue(device)))
  {
    var s', c := Next(s, Enqueue(device)), LayoutOf(s);
    assert LayoutOf(s') == c.With(device);
    forall q | 0 <= q < |s.events| ensures EventLineInv(c.With(device), s'.events[q], q) {
      EventLineGrows(c, s.events[q], q, device);
      if q == CalculateQueue(device, |s.events|) {
        assert forall x: nat :: s.events[q].Holds(x) ==> c.EventGoesTo(x, q);
        EventLineReceives(c.With(device), s.events[q], q, |c.devices|);
      }
    }
    forall q | 0 <= q < |s.tasks| ensures TaskLineInv(c.With(device), s'.tasks[q], q) {
      TaskLineGrows(c, s.tasks[q], q, device);
    }
    forall p, q | 0 <= p < |s.events| && 0 <= q < |s.tasks|
      ensures TasksFollowEvents(c.With(device), s'.events[p], s'.tasks[q])
    {
      PairGrows(c, s.events[p], p, s.tasks[q], q, device);
    }
  }

  lemma EventStepKeepsQueues(s: State, step: Step)
    requires QueueInv(s) && Enabled(s, step) && (step.TakeEvent? || step.AckEvent?)
    ensures QueueInv(Next(s, step))
  {
    var s', c, k := Next(s, step), LayoutOf(s), step.queue;
    EventLineMoves(c, s.events[k], k);
    forall p, q | 0 <= p < |s.events| && 0 <= q < |s.tasks|
      ensures TasksFollowEvents(c, s'.events[p], s'.tasks[q])
    {
      assert forall x: nat :: s'.events[p].Holds(x) ==> s.events[p].Holds(x);
      PairShrinks(c, s.events[p], s.tasks[q], s'.events[p], s.tasks[q]);
    }
  }

  lemma PublishKeepsQueues(s: State, step: Step)
    requires QueueInv(s) && Enabled(s, step) && step.Publish?
    ensures QueueInv(Next(s, step))
  {
    var s', c, k := Next(s, step), LayoutOf(s), step.queue;
    var e := InHand(s, k).value;
    var t, job := CalculateQueue(s.devices[e], |s.tasks|), Job(e, step.body);
    assert s.events[k].Holds(e);
    assert TasksFollowEvents(c, s.events[k], s.tasks[t]);
    TaskLinePublishes(c, s.tasks[t], t, job);
    forall p, q | 0 <= p < |s.events| && 0 <= q < |s.tasks|
      ensures TasksFollowEvents(c, s'.events[p], s'.tasks[q])
    {
      PairPublishes(c, s.events[p], p, s.tasks[q], s.events[k], k, job);
    }
  }

  lemma TaskStepKeepsQueues(s: State, step: Step)
    requires QueueInv(s) && Enabled(s, step) && (step.TakeTask? || step.AckTask? || step.Send?)
    ensures QueueInv(Next(s, step))
  {
    var s', c, k := Next(s, step), LayoutOf(s), step.queue;
    assert s'.events == s.events && s'.tasks == s.tasks[k := s'.tasks[k]] && LayoutOf(s') == c;
    TaskStepKeepsLine(s, step);
    EventsOfTasksAreKept(s, step);
    forall p | 0 <= p < |s.events|
      ensures TasksFollowEvents(c, s.events[p], s'.tasks[k])
    {
      PairShrinks(c, s.events[p], s.tasks[k], s.events[p], s'.tasks[k]);
    }
  }

  lemma TaskStepKeepsLine(s: State, step: Step)
    requires QueueInv(s) && Enabled(s, step) && (step.TakeTask? || step.AckTask? || step.Send?)
    ensures TaskLineInv(LayoutOf(s), Next(s, step).tasks[step.queue], step.queue)
  {
    var c, k := LayoutOf(s), step.queue;
    match step
    case TakeTask(_) => TaskLineDelivers(c, s.tasks[k], k);
    case AckTask(_) => TaskLineIsAcked(c, s.tasks[k], k);
    case Send(_, body) => TaskLineSends(c, s.tasks[k], k, Job(s.tasks[k].unacked.value.event, body));
  }

  /** An executor only makes tasks of the event it is working on. */
  lemma EventsOfTasksAreKept(s: State, step: Step)
    requires Enabled(s, step) && (step.TakeTask? || step.AckTask? || step.Send?)
    ensures forall x: Job :: Next(s, step).tasks[step.queue].Holds(x) ==>
              exists y: Job :: s.tasks[step.queue].Holds(y) && y.event == x.event
  {
    var line, after := s.tasks[step.queue], Next(s, step).tasks[step.queue];
    forall x: Job | after.Holds(x)
      ensures exists y: Job :: line.Holds(y) && y.event == x.event
    {
      if line.Holds(x) {
      } else {
        assert step.Send? && x.event == line.unacked.value.event && line.Holds(line.unacked.value);
      }
    }
  }

  lemma StepKeepsQueues(s: State, step: Step)
    requires QueueInv(s) && Enabled(s, step)
    ensures QueueInv(Next(s, step))
  {
    match step
    case Enqueue(device) => EnqueueKeepsQueues(s, device);
    case TakeEvent(_) => EventStepKeepsQueues(s, step);
    case AckEvent(_) => EventStepKeepsQueues(s, step);
    case Publish(_, _) => PublishKeepsQueues(s, step);
    case TakeTask(_) => TaskStepKeepsQueues(s, step);
    case Send(_, _) => TaskStepKeepsQueues(s, step);
    case AckTask(_) => TaskStepKeepsQueues(s, step);
  }

  // ---------- what has settled stays settled ----------

  lemma StepKeepsSettled(s: State, step: Step, event: nat)
    requires Enabled(s, step) && event < |s.devices| && Settled(s, event)
    ensures Settled(Next(s, step), event)
  {
    var s' := Next(s, step);
    forall q | 0 <= q < |s'.events| ensures !s'.events[q].Holds(event) {
      assert !s.events[q].Holds(event);
    }
    forall q | 0 <= q < |s'.tasks| ensures NoTaskOf(s'.tasks[q], event) {
      assert NoTaskOf(s.tasks[q], event);
      if s'.tasks[q] != s.tasks[q] {
        if step.Publish? {
          assert !s.events[step.queue].Holds(event);
          assert InHand(s, step.queue).value != event;
        } else {
          EventsOfTasksAreKept(s, step);
        }
      }
    }
  }

  /** The task an executor receives: nothing of an earlier event of its lane is left anywhere. */
  lemma DeliveredTaskIsNext(s: State, q: nat)
    requires QueueInv(s) && q < |s.tasks| && s.tasks[q].CanDeliver()
    ensures EarlierAreSettled(s, s.tasks[q].Waiting()[0].event)
  {
    var c, line := LayoutOf(s), s.tasks[q];
    var job := line.Waiting()[0];
    assert line.Holds(job);
    assert TaskLineInv(c, line, q);
    forall a: nat | a < job.event && c.SameLane(a, job.event)
      ensures Settled(s, a)
    {
      forall p | 0 <= p < |s.events| ensures !s.events[p].Holds(a) {
        assert TasksFollowEvents(c, s.events[p], line);
        assert c.SameLane(job.event, a);
      }
      forall t | 0 <= t < |s.tasks| ensures NoTaskOf(s.tasks[t], a) {
        NoTaskIsEarlier(s, q, t, a);
      }
    }
  }

  lemma NoTaskIsEarlier(s: State, q: nat, t: nat, a: nat)
    requires QueueInv(s) && q < |s.tasks| && s.tasks[q].CanDeliver() && t < |s.tasks|
    requires a < s.tasks[q].Waiting()[0].event && LayoutOf(s).SameLane(a, s.tasks[q].Waiting()[0].event)
    ensures NoTaskOf(s.tasks[t], a)
  {
    forall x: Job | s.tasks[t].Holds(x) ensures x.event != a {
      if x.event == a {
        NotEarlier(s, q, t, x);
      }
    }
  }

  lemma NotEarlier(s: State, q: nat, t: nat, x: Job)
    requires QueueInv(s) && q < |s.tasks| && s.tasks[q].CanDeliver() && t < |s.tasks| && s.tasks[t].Holds(x)
    requires LayoutOf(s).SameLane(x.event, s.tasks[q].Waiting()[0].event)
    ensures s.tasks[q].Waiting()[0].event <= x.event
  {
    var c, line := LayoutOf(s), s.tasks[q];
    var job := line.Waiting()[0];
    assert line.Holds(job) && TaskLineInv(c, line, q) && TaskLineInv(c, s.tasks[t], t);
    assert c.TaskGoesTo(job.event, q) && c.TaskGoesTo(x.event, t);
    assert c.SameLane(job.event, x.event);
    if line.high != [] {
      assert Running(line, job);
    } else if x in line.low {
      var j :| 0 <= j < |line.low| && line.low[j] == x;
    }
  }

  lemma StepKeepsEarlier(s: State, step: Step, event: nat)
    requires Enabled(s, step) && event < |s.devices| && EarlierAreSettled(s, event)
    ensures EarlierAreSettled(Next(s, step), event)
  {
    var s' := Next(s, step);
    forall a: nat | a < event && LayoutOf(s').SameLane(a, event)
      ensures Settled(s', a)
    {
      assert LayoutOf(s).SameLane(a, event);
      StepKeepsSettled(s, step, a);
    }
  }

  lemma StepKeepsLog(s: State, step: Step)
    requires QueueInv(s) && LogInv(s) && Enabled(s, step)
    ensures LogInv(Next(s, step))
  {
    var s' := Next(s, step);
    OldEntriesStay(s, step);
    if step.TakeTask? {
      TakeKeepsLog(s, step.queue);
    } else {
      assert s'.log == s.log;
      if step.Enqueue? {
        OrderOutlivesArrivals(LayoutOf(s), s.log, step.device);
        assert LayoutOf(s') == LayoutOf(s).With(step.device);
      } else {
        assert LayoutOf(s') == LayoutOf(s);
      }
    }
  }

  lemma OldEntriesStay(s: State, step: Step)
    requires LogInv(s) && Enabled(s, step)
    ensures forall job: Job :: job in s.log ==>
              job.event < |Next(s, step).devices| && EarlierAreSettled(Next(s, step), job.event)
  {
    var s' := Next(s, step);
    forall job: Job | job in s.log
      ensures job.event < |s'.devices| && EarlierAreSettled(s', job.event)
    {
      StepKeepsEarlier(s, step, job.event);
    }
  }

  lemma OrderOutlivesArrivals(c: Layout, log: seq<Job>, device: string)
    requires InOrder(c, log) && forall job: Job :: job in log ==> job.event < |c.devices|
    ensures InOrder(c.With(device), log)
  {
    forall i, j | 0 <= i < j < |log| && c.With(device).SameLane(log[i].event, log[j].event)
      ensures log[i].event <= log[j].event
    {
      assert log[i] in log && log[j] in log;
      assert c.SameLane(log[i].event, log[j].event);
    }
  }

  lemma TakeKeepsLog(s: State, q: nat)
    requires QueueInv(s) && LogInv(s) && q < |s.tasks| && s.tasks[q].CanDeliver()
    ensures LayoutOf(Next(s, TakeTask(q))) == LayoutOf(s) && InOrder(LayoutOf(s), Next(s, TakeTask(q)).log)
    ensures Next(s, TakeTask(q)).log == s.log + [s.tasks[q].Waiting()[0]]
    ensures s.tasks[q].Waiting()[0].event < |s.devices|
    ensures EarlierAreSettled(Next(s, TakeTask(q)), s.tasks[q].Waiting()[0].event)
  {
    var s', c, job := Next(s, TakeTask(q)), LayoutOf(s), s.tasks[q].Waiting()[0];
    DeliveryIsInOrder(s.tasks[q]);
    assert s.tasks[q].Holds(job) && TaskLineInv(c, s.tasks[q], q);
    DeliveredTaskIsNext(s, q);
    forall a: nat | a < job.event && c.SameLane(a, job.event)
      ensures Settled(s', a)
    {
      StepKeepsSettled(s, TakeTask(q), a);
    }
    forall i | 0 <= i < |s.log| && c.SameLane(s.log[i].event, job.event)
      ensures s.log[i].event <= job.event
    {
      assert s.log[i] in s.log && EarlierAreSettled(s, s.log[i].event);
      if job.event < s.log[i].event {
        assert c.SameLane(job.event, s.log[i].event);
        assert false;
      }
    }
  }

  lemma {:induction false} RunKeepsInv(s: State, run: seq<Step>)
    requires QueueInv(s) && LogInv(s) && Legal(s, run)
    ensures QueueInv(After(s, run)) && LogInv(After(s, run))
    decreases |run|
  {
    if run != [] {
      StepKeepsQueues(s, run[0]);
      StepKeepsLog(s, run[0]);
      RunKeepsInv(Next(s, run[0]), run[1..]);
    }
  }

  lemma InitialHolds(s: State)
    requires Initial(s)
    ensures QueueInv(s) && LogInv(s)
  {
  }

  // ---------- nothing is lost or made up ----------

  function Times<T(==)>(s: seq<T>, x: T): nat { multiset(s)[x] }

  /** How often a message waits, in all queues. */
  function Waits<T(==)>(lines: seq<Queue<T>>, x: T): nat
  {
    if lines == [] then 0 else Waits(lines[..|lines| - 1], x) + Times(lines[|lines| - 1].Waiting(), x)
  }

  lemma {:induction false} OneLineChanges<T>(lines: seq<Queue<T>>, q: nat, line: Queue<T>, x: T)
    requires q < |lines|
    ensures Waits(lines[q := line], x) + Times(lines[q].Waiting(), x) == Waits(lines, x) + Times(line.Waiting(), x)
    decreases |lines|
  {
    var init, init' := lines[..|lines| - 1], lines[q := line][..|lines| - 1];
    if q == |lines| - 1 {
      assert init' == init;
    } else {
      OneLineChanges(init, q, line, x);
      assert init' == init[q := line];
    }
  }

  lemma OneMoreWaits<T>(lines: seq<Queue<T>>, q: nat, item: T, priority: nat, x: T)
    requires q < |lines| && priority <= 1
    ensures Waits(lines[q := lines[q].Sent(item, priority)], x) == Waits(lines, x) + if x == item then 1 else 0
  {
    OneLineChanges(lines, q, lines[q].Sent(item, priority), x);
    SentWaitsInOrder(lines[q], item, priority);
  }

  lemma OneIsDelivered<T>(lines: seq<Queue<T>>, q: nat, x: T)
    requires q < |lines| && lines[q].CanDeliver()
    ensures lines[q].Delivered().unacked == Some(lines[q].Waiting()[0])
    ensures Waits(lines[q := lines[q].Delivered()], x) + (if x == lines[q].Waiting()[0] then 1 else 0)
         == Waits(lines, x)
  {
    var waiting := lines[q].Waiting();
    OneLineChanges(lines, q, lines[q].Delivered(), x);
    DeliveryIsInOrder(lines[q]);
    assert waiting == [waiting[0]] + waiting[1..];
  }

  lemma AckWaits<T>(lines: seq<Queue<T>>, q: nat, x: T)
    requires q < |lines|
    ensures Waits(lines[q := lines[q].Acked()], x) == Waits(lines, x)
  {
    OneLineChanges(lines, q, lines[q].Acked(), x);
  }

  /** A step puts the task into a queue: a first task of the event in hand, or a child of the running task. */
  predicate Makes(s: State, step: Step, job: Job)
    requires Enabled(s, step)
  {
    match step
    case Publish(q, body) => job == Job(s.events[q].unacked.value, body)
    case Send(q, body) => job == Job(s.tasks[q].unacked.value.event, body)
    case _ => false
  }

  /** A step takes the event from its queue. */
  predicate TakesUp(s: State, step: Step, event: nat)
    requires Enabled(s, step)
  {
    step.TakeEvent? && event == s.events[step.queue].Waiting()[0]
  }

  lemma TaskIsConserved(s: State, step: Step, x: Job)
    requires Enabled(s, step)
    ensures var s' := Next(s, step);
            Times(s'.log, x) + Waits(s'.tasks, x)
            == Times(s.log, x) + Waits(s.tasks, x) + if Makes(s, step, x) then 1 else 0
  {
    match step
    case Publish(q, body) =>
      var e := InHand(s, q).value;
      OneMoreWaits(s.tasks, CalculateQueue(s.devices[e], |s.tasks|), Job(e, body), 0, x);
    case Send(q, body) => OneMoreWaits(s.tasks, q, Job(s.tasks[q].unacked.value.event, body), 1, x);
    case TakeTask(q) => OneIsDelivered(s.tasks, q, x);
    case AckTask(q) => AckWaits(s.tasks, q, x);
    case _ =>
  }

  lemma EventIsConserved(s: State, step: Step, e: nat)
    requires Enabled(s, step)
    ensures var s' := Next(s, step);
            && |s'.devices| == |s.devices| + (if step.Enqueue? then 1 else 0)
            && Waits(s'.events, e) + (if TakesUp(s, step, e) then 1 else 0)
               == Waits(s.events, e) + if step.Enqueue? && e == |s.devices| then 1 else 0
  {
    match step
    case Enqueue(device) => OneMoreWaits(s.events, CalculateQueue(device, |s.events|), |s.devices|, 0, e);
    case TakeEvent(q) => OneIsDelivered(s.events, q, e);
    case AckEvent(q) => AckWaits(s.events, q, e);
    case _ =>
  }

  /** How often the steps of a run put a task into a queue. */
  ghost function TimesMade(s: State, run: seq<Step>, x: Job): nat
    requires Legal(s, run)
    decreases |run|
  {
    if run == [] then 0
    else (if Makes(s, run[0], x) then 1 else 0) + TimesMade(Next(s, run[0]), run[1..], x)
  }

  ghost function TimesTakenUp(s: State, run: seq<Step>, e: nat): nat
    requires Legal(s, run)
    decreases |run|
  {
    if run == [] then 0
    else (if TakesUp(s, run[0], e) then 1 else 0) + TimesTakenUp(Next(s, run[0]), run[1..], e)
  }

  lemma {:induction false} TasksAreConserved(s: State, run: seq<Step>, x: Job)
    requires Legal(s, run)
    ensures var t := After(s, run);
            Times(t.log, x) + Waits(t.tasks, x) == Times(s.log, x) + Waits(s.tasks, x) + TimesMade(s, run, x)
    decreases |run|
  {
    if run != [] {
      TaskIsConserved(s, run[0], x);
      TasksAreConserved(Next(s, run[0]), run[1..], x);
    }
  }

  lemma {:induction false} EventsAreConserved(s: State, run: seq<Step>, e: nat)
    requires Legal(s, run)
    ensures var t := After(s, run);
            && |t.devices| >= |s.devices|
            && Waits(t.events, e) + TimesTakenUp(s, run, e)
               == Waits(s.events, e) + if |s.devices| <= e < |t.devices| then 1 else 0
    decreases |run|
  {
    if run != [] {
      EventIsConserved(s, run[0], e);
      EventsAreConserved(Next(s, run[0]), run[1..], e);
    }
  }

  lemma {:induction false} NothingWaits<T>(lines: seq<Queue<T>>, x: T)
    requires forall q :: 0 <= q < |lines| ==> lines[q] == Queue([], [], None)
    ensures Waits(lines, x) == 0
    decreases |lines|
  {
    if lines != [] {
      NothingWaits(lines[..|lines| - 1], x);
    }
  }

  /** Conservation, over every run: a task has been received and waits as often, together, as it was made, with the
      event it descends from; and every event that arrived has been taken up once, or waits once. */
  lemma NothingIsLostOrMadeUp(s: State, run: seq<Step>, x: Job, e: nat)
    requires Initial(s) && Legal(s, run)
    ensures var t := After(s, run);
            && Times(t.log, x) + Waits(t.tasks, x) == TimesMade(s, run, x)
            && TimesTakenUp(s, run, e) + Waits(t.events, e) == if e < |t.devices| then 1 else 0
  {
    TasksAreConserved(s, run, x);
    EventsAreConserved(s, run, e);
    NothingWaits(s.tasks, x);
    NothingWaits(s.events, e);
  }

  // ---------- the theorem ----------

  /** Per-device order, over every run.  The tasks of one device reach the executors in the order of their
      events; and when a task of an event has been received, every earlier event of the device is settled. */
  lemma DevicesAreServedInOrder(s: State, run: seq<Step>, i: nat, j: nat)
    requires Initial(s) && Legal(s, run)
    requires i <= j < |After(s, run).log|
    ensures var t := After(s, run);
            var a, b := t.log[i].event, t.log[j].event;
            && a < |t.devices| && b < |t.devices|
            && (t.devices[a] == t.devices[b] ==> a <= b)
            && (forall e: nat :: e < b && t.devices[e] == t.devices[b] ==> Settled(t, e))
  {
    InitialHolds(s);
    RunKeepsInv(s, run);
    HasQueues(s, run);
    LogOrdersDevices(After(s, run), i, j);
  }

  lemma LogOrdersDevices(t: State, i: nat, j: nat)
    requires LogInv(t) && i <= j < |t.log| && |t.events| > 0 && |t.tasks| > 0
    ensures var a, b := t.log[i].event, t.log[j].event;
            && a < |t.devices| && b < |t.devices|
            && (t.devices[a] == t.devices[b] ==> a <= b)
            && (forall e: nat :: e < b && t.devices[e] == t.devices[b] ==> Settled(t, e))
  {
    var a, b := t.log[i].event, t.log[j].event;
    assert t.log[i] in t.log && t.log[j] in t.log;
    SameDeviceSameLane(LayoutOf(t), a, b);
    assert EarlierAreSettled(t, b);
    forall e: nat | e < b && t.devices[e] == t.devices[b]
      ensures Settled(t, e)
    {
      SameDeviceSameLane(LayoutOf(t), e, b);
    }
  }

  lemma SameDeviceSameLane(c: Layout, a: nat, b: nat)
    requires a < |c.devices| && b < |c.devices| && c.eventQueues > 0 && c.taskQueues > 0
    ensures c.devices[a] == c.devices[b] ==> c.SameLane(a, b)
  {
  }

  lemma {:induction false} HasQueues(s: State, run: seq<Step>)
    requires Legal(s, run) && (|s.events| == 0 ==> s.devices == []) && (|s.tasks| == 0 ==> s.log == [])
    ensures var t := After(s, run);
            && (|t.events| == 0 ==> t.devices == []) && (|t.tasks| == 0 ==> t.log == [])
            && |t.events| == |s.events| && |t.tasks| == |s.tasks|
    decreases |run|
  {
    if run != [] {
      HasQueues(Next(s, run[0]), run[1..]);
    }
  }
}
