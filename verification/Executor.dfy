/**
 The executor: one hop takes a task from the queue, runs the node's handler, sends a task for every wire of
 every output that got a message, and acknowledges.
 */
module Executor {
  import opened Options
  import opened DottedPath
  import opened Flows
  import opened TaskQueue

  /** What a message of the queue holds: text that is not JSON, or a task. */
  datatype Data = Garbage | Work(task: Task)

  function NodeOf(task: Task): Node
    requires task.hop in task.flow.nodeMap
  {
    task.flow.nodeMap[task.hop]
  }

  function OutcomeOf(task: Task, lib: Library): Outcome
    requires task.hop in task.flow.nodeMap
  {
    lib(NodeOf(task), task.message, task.flow.flowId, task.metadata)
  }

  function Wires(node: Node): seq<seq<string>>
  {
    if node.wires.Some? then node.wires.value else []
  }

  /** One task for every wire of one output. */
  function Sends(task: Task, message: Json, hops: seq<string>): (r: seq<Task>)
    ensures |r| == |hops|
    ensures forall i :: 0 <= i < |hops| ==> r[i] == Task(hops[i], message, task.flow, task.metadata)
  {
    seq(|hops|, i requires 0 <= i < |hops| => task.(hop := hops[i], message := message))
  }

  /** The tasks for the outputs from number `from` on. */
  function Fanned(task: Task, outputs: seq<Option<Json>>, wires: seq<seq<string>>, from: nat): seq<Task>
    requires from <= |wires|
    decreases |wires| - from
  {
    if from == |wires| then []
    else
      FromOutput(task, outputs, wires, from) + Fanned(task, outputs, wires, from + 1)
  }

  lemma {:induction false} FannedStep(task: Task, outputs: seq<Option<Json>>, wires: seq<seq<string>>, from: nat,
                                      sent: seq<Task>)
    requires from < |wires|
    ensures sent + FromOutput(task, outputs, wires, from) + Fanned(task, outputs, wires, from + 1)
         == sent + Fanned(task, outputs, wires, from)
  {
  }

  /** The tasks for one output. */
  function FromOutput(task: Task, outputs: seq<Option<Json>>, wires: seq<seq<string>>, output: nat): seq<Task>
    requires output < |wires|
  {
    if output < |outputs| && outputs[output].Some? then Sends(task, outputs[output].value, wires[output]) else []
  }

  /** Results with at most one message, at output k, send on that port only. */
  lemma {:induction false} OneMessageOnePort(task: Task, outputs: seq<Option<Json>>, wires: seq<seq<string>>,
                                             from: nat, k: nat)
    requires from <= |wires| && forall i :: 0 <= i < |outputs| && i != k ==> outputs[i].None?
    ensures Fanned(task, outputs, wires, from)
         == if from <= k < |wires| then FromOutput(task, outputs, wires, k) else []
    decreases |wires| - from
  {
    if from < |wires| {
      OneMessageOnePort(task, outputs, wires, from + 1, k);
    }
  }

  /** What the loops over a result take a text for: its characters are the messages. */
  function Characters(text: string): (outputs: seq<Option<Json>>)
    ensures |outputs| == |text| && forall i :: 0 <= i < |text| ==> outputs[i] == Some(Text([text[i]]))
  {
    seq(|text|, i requires 0 <= i < |text| => Some(Text([text[i]])))
  }

  /** The tasks that follow a task.  A node without a type, an unknown type, a rejected promise and a node
      without wires end the branch. */
  function Children(task: Task, lib: Library): seq<Task>
    requires task.hop in task.flow.nodeMap
  {
    var outcome := OutcomeOf(task, lib);
    if NodeOf(task).kind.None? || !outcome.Results? then []
    else Fanned(task, outcome.outputs, Wires(NodeOf(task)), 0)
  }

  // ---------- which tasks these are ----------

  predicate HasMessage(outputs: seq<Option<Json>>, output: nat)
  {
    output < |outputs| && outputs[output].Some?
  }

  /** How many wires belong to the outputs with a message before output number `output`. */
  function WiresBefore(outputs: seq<Option<Json>>, wires: seq<seq<string>>, output: nat): nat
    requires output <= |wires|
  {
    if output == 0 then 0
    else
      WiresBefore(outputs, wires, output - 1) + if HasMessage(outputs, output - 1) then |wires[output - 1]| else 0
  }

  /** The tasks are those of the wires of the outputs that have a message, output by output and wire by wire: each
      leads to where its wire does, with the message of its output, in the same flow and with the same metadata. */
  ghost predicate IsFanOut(tasks: seq<Task>, outputs: seq<Option<Json>>, wires: seq<seq<string>>, flow: Wiring,
                           metadata: Metadata)
  {
    && |tasks| == WiresBefore(outputs, wires, |wires|)
    && forall o, k :: 0 <= o < |wires| && HasMessage(outputs, o) && 0 <= k < |wires[o]| ==>
         IsTaskAt(tasks, WiresBefore(outputs, wires, o) + k, Task(wires[o][k], outputs[o].value, flow, metadata))
  }

  predicate IsTaskAt(tasks: seq<Task>, i: int, task: Task) { 0 <= i < |tasks| && tasks[i] == task }

  lemma {:induction false} LaterWires(outputs: seq<Option<Json>>, wires: seq<seq<string>>, from: nat, until: nat)
    requires from <= until <= |wires|
    ensures WiresBefore(outputs, wires, from) <= WiresBefore(outputs, wires, until)
    ensures from < until && HasMessage(outputs, from) ==>
              WiresBefore(outputs, wires, from) + |wires[from]| <= WiresBefore(outputs, wires, until)
    decreases until
  {
    if from < until {
      LaterWires(outputs, wires, from, until - 1);
    }
  }

  /** Every place belongs to a wire. */
  lemma {:induction false} WireAt(outputs: seq<Option<Json>>, wires: seq<seq<string>>, until: nat, i: nat)
    returns (o: nat, k: nat)
    requires until <= |wires| && i < WiresBefore(outputs, wires, until)
    ensures o < until && HasMessage(outputs, o) && k < |wires[o]| && i == WiresBefore(outputs, wires, o) + k
    decreases until
  {
    if i < WiresBefore(outputs, wires, until - 1) {
      o, k := WireAt(outputs, wires, until - 1, i);
    } else {
      o, k := until - 1, i - WiresBefore(outputs, wires, until - 1);
    }
  }

  /** So there are no other tasks, and no other order. */
  lemma FanOutLeavesNoChoice(a: seq<Task>, b: seq<Task>, outputs: seq<Option<Json>>, wires: seq<seq<string>>,
                             flow: Wiring, metadata: Metadata)
    requires IsFanOut(a, outputs, wires, flow, metadata) && IsFanOut(b, outputs, wires, flow, metadata)
    ensures a == b
  {
    forall i | 0 <= i < |a|
      ensures a[i] == b[i]
    {
      var o, k := WireAt(outputs, wires, |wires|, i);
      var task := Task(wires[o][k], outputs[o].value, flow, metadata);
      assert IsTaskAt(a, i, task) && IsTaskAt(b, i, task);
    }
  }

  lemma {:induction false} FannedLength(task: Task, outputs: seq<Option<Json>>, wires: seq<seq<string>>, from: nat)
    requires from <= |wires|
    ensures |Fanned(task, outputs, wires, from)|
         == WiresBefore(outputs, wires, |wires|) - WiresBefore(outputs, wires, from)
    decreases |wires| - from
  {
    if from < |wires| {
      FannedLength(task, outputs, wires, from + 1);
    }
  }

  lemma {:induction false} FannedAt(task: Task, outputs: seq<Option<Json>>, wires: seq<seq<string>>, from: nat,
                                    o: nat, k: nat)
    requires from <= o < |wires| && HasMessage(outputs, o) && k < |wires[o]|
    ensures IsTaskAt(Fanned(task, outputs, wires, from),
                     WiresBefore(outputs, wires, o) - WiresBefore(outputs, wires, from) + k,
                     Task(wires[o][k], outputs[o].value, task.flow, task.metadata))
    decreases |wires| - from
  {
    var first, rest := FromOutput(task, outputs, wires, from), Fanned(task, outputs, wires, from + 1);
    assert Fanned(task, outputs, wires, from) == first + rest;
    if o > from {
      assert WiresBefore(outputs, wires, from + 1) == WiresBefore(outputs, wires, from) + |first|;
      FannedAt(task, outputs, wires, from + 1, o, k);
      LaterWires(outputs, wires, from + 1, o);
      var i := WiresBefore(outputs, wires, o) - WiresBefore(outputs, wires, from + 1) + k;
      assert (first + rest)[|first| + i] == rest[i];
    } else {
      assert (first + rest)[k] == first[k];
    }
  }

  lemma FannedIsTheFanOut(task: Task, outputs: seq<Option<Json>>, wires: seq<seq<string>>)
    ensures IsFanOut(Fanned(task, outputs, wires, 0), outputs, wires, task.flow, task.metadata)
  {
    FannedLength(task, outputs, wires, 0);
    forall o, k | 0 <= o < |wires| && HasMessage(outputs, o) && 0 <= k < |wires[o]|
      ensures IsTaskAt(Fanned(task, outputs, wires, 0), WiresBefore(outputs, wires, o) + k,
                       Task(wires[o][k], outputs[o].value, task.flow, task.metadata))
    {
      FannedAt(task, outputs, wires, 0, o, k);
    }
  }

  /** The tasks that follow a task, exactly: a node of the flow, with a type and wires, whose handler resolves, sends
      its results on; nothing follows any other. */
  lemma ChildrenAreTheFanOut(task: Task, lib: Library)
    requires task.hop in task.flow.nodeMap
    ensures var node := task.flow.nodeMap[task.hop];
            match lib(node, task.message, task.flow.flowId, task.metadata)
            case Results(outputs) =>
              if node.kind.Some? && node.wires.Some?
              then IsFanOut(Children(task, lib), outputs, node.wires.value, task.flow, task.metadata)
              else Children(task, lib) == []
            case _ => Children(task, lib) == []
  {
    var node := task.flow.nodeMap[task.hop];
    var outcome := lib(node, task.message, task.flow.flowId, task.metadata);
    if outcome.Results? && node.wires.Some? {
      FannedIsTheFanOut(task, outcome.outputs, node.wires.value);
    }
  }

  /** The hop throws before anything is sent: the node is not in the flow, or its handler throws. */
  predicate Crashes(data: Data, lib: Library)
  {
    && data.Work?
    && (data.task.hop in data.task.flow.nodeMap ==>
          NodeOf(data.task).kind.Some? && OutcomeOf(data.task, lib).Throws?)
  }

  /** Which hops throw: those to a node that is not in the flow, and those whose handler does; text that is not JSON
      and a node without a type are acknowledged. */
  lemma CrashesExactly(task: Task, lib: Library)
    ensures !Crashes(Garbage, lib)
    ensures Crashes(Work(task), lib) <==>
            task.hop in task.flow.nodeMap ==>
              && task.flow.nodeMap[task.hop].kind.Some?
              && lib(task.flow.nodeMap[task.hop], task.message, task.flow.flowId, task.metadata) == Throws
  {
  }

  /** What is left of a list of sends when the producer refuses some of them. */
  function Kept(tasks: seq<Task>, refused: set<nat>, from: nat): seq<Task>
  {
    if tasks == [] then []
    else (if from in refused then [] else [tasks[0]]) + Kept(tasks[1..], refused, from + 1)
  }

  /** A send that is refused loses its task and no other. */
  lemma KeptOfOne(task: Task, refused: set<nat>, from: nat)
    ensures Kept([task], refused, from) == if from in refused then [] else [task]
  {
    assert [task][1..] == [];
  }

  function Packed(tasks: seq<Task>): (r: seq<Data>)
    ensures |r| == |tasks| && forall i :: 0 <= i < |tasks| ==> r[i] == Work(tasks[i])
  {
    seq(|tasks|, i requires 0 <= i < |tasks| => Work(tasks[i]))
  }

  lemma {:induction false} KeptOfTwo(a: seq<Task>, b: seq<Task>, refused: set<nat>, from: nat)
    ensures Kept(a + b, refused, from) == Kept(a, refused, from) + Kept(b, refused, from + |a|)
    decreases |a|
  {
    if a == [] {
      assert a + b == b;
    } else {
      var head := if from in refused then [] else [a[0]];
      var tail, rest := Kept(a[1..], refused, from + 1), Kept(b, refused, from + |a|);
      assert Kept((a + b)[1..], refused, from + 1) == tail + rest by {
        KeptOfTwo(a[1..], b, refused, from + 1);
        assert (a + b)[1..] == a[1..] + b;
      }
      assert (a + b)[0] == a[0];
      assert head + (tail + rest) == head + tail + rest;
    }
  }

  lemma {:induction false} PackedOfTwo(a: seq<Task>, b: seq<Task>)
    ensures Packed(a + b) == Packed(a) + Packed(b)
  {
  }

  /** What the sends of a hop have put behind `start` so far. */
  ghost predicate HasSent(high: seq<Data>, start: seq<Data>, sent: seq<Task>, refused: set<nat>)
  {
    high == start + Packed(Kept(sent, refused, 0))
  }

  lemma {:induction false} SentMore(high: seq<Data>, start: seq<Data>, sent: seq<Task>, more: seq<Task>,
                                    refused: set<nat>)
    requires HasSent(high, start, sent, refused)
    ensures HasSent(high + Packed(Kept(more, refused, |sent|)), start, sent + more, refused)
  {
    var a, b := Packed(Kept(sent, refused, 0)), Packed(Kept(more, refused, |sent|));
    assert Packed(Kept(sent + more, refused, 0)) == a + b by {
      KeptOfTwo(sent, more, refused, 0);
      PackedOfTwo(Kept(sent, refused, 0), Kept(more, refused, |sent|));
    }
    assert start + (a + b) == start + a + b;
  }

  lemma {:induction false} OneMoreSend(start: seq<Data>, all: seq<Task>, k: nat, refused: set<nat>, count: nat)
    requires k < |all|
    ensures start + Packed(Kept(all[..k + 1], refused, count))
         == start + Packed(Kept(all[..k], refused, count)) + if count + k in refused then [] else [Work(all[k])]
  {
    var before, last := Kept(all[..k], refused, count), Kept([all[k]], refused, count + k);
    assert all[..k + 1] == all[..k] + [all[k]];
    KeptOfTwo(all[..k], [all[k]], refused, count);
    PackedOfTwo(before, last);
    assert Packed(last) == if count + k in refused then [] else [Work(all[k])];
    assert start + (Packed(before) + Packed(last)) == start + Packed(before) + Packed(last);
  }

  /** What an executor does to its queue besides taking from it. */
  datatype Action = Sending(task: Task) | Acking

  /** Some sends, then one acknowledgement. */
  ghost predicate AcksLast(before: seq<Action>, after: seq<Action>)
  {
    before < after && after[|after| - 1] == Acking && OnlySends(before, after[..|after| - 1])
  }

  ghost predicate OnlySends(before: seq<Action>, after: seq<Action>)
  {
    before <= after && forall i :: |before| <= i < |after| ==> after[i].Sending?
  }

  /** The queue of one executor, with the number of acknowledgements sent.  `trace` is a history variable. */
  class TaskConsumer {
    var queue: Queue<Data>
    var acks: nat
    ghost var trace: seq<Action>

    constructor ()
      ensures queue == Queue([], [], None) && acks == 0 && trace == []
    {
      queue := Queue([], [], None);
      acks := 0;
      trace := [];
    }

    method SendMessage(task: Task, priority: nat, refused: bool)
      modifies this`queue, this`trace
      ensures queue == if refused then old(queue) else old(queue).Sent(Work(task), priority)
      ensures trace == old(trace) + [Sending(task)]
    {
      trace := trace + [Sending(task)];
      if !refused {
        queue := queue.Sent(Work(task), priority);
      }
    }

    method Deliver() returns (data: Data)
      requires queue.CanDeliver()
      modifies this`queue
      ensures queue == old(queue).Delivered() && queue.unacked == Some(data)
    {
      queue := queue.Delivered();
      data := queue.unacked.value;
    }

    method Ack()
      modifies this
      ensures queue == old(queue).Acked() && acks == old(acks) + 1 && trace == old(trace) + [Acking]
    {
      trace := trace + [Acking];
      queue := queue.Acked();
      acks := acks + 1;
    }

    /** `hop`.  `timedOut` says that the timer won the race against the handler; `refused` numbers the sends
        of this hop that the producer turns down.  Unless the hop throws, the delivery is acknowledged exactly
        once, after the children have been sent. */
    method Hop(data: Data, lib: Library, timedOut: bool, refused: set<nat>) returns (threw: bool)
      requires queue.unacked == Some(data)
      modifies this
      ensures threw <==> Crashes(data, lib)
      ensures threw ==> queue == old(queue) && acks == old(acks)
      ensures !threw ==> acks == old(acks) + 1 && queue.unacked == None && queue.low == old(queue.low)
      ensures !threw ==> AcksLast(old(trace), trace)
      ensures !threw && data.Garbage? ==> queue.high == old(queue.high)
      ensures !threw && data.Work? && data.task.hop in data.task.flow.nodeMap ==>
                var children := if timedOut then [] else Children(data.task, lib);
                queue.high == old(queue.high) + Packed(Kept(children, refused, 0))
    {
      if data.Garbage? {
        Ack();
        return false;
      }
      var event := data.task;
      if event.hop !in event.flow.nodeMap {
        return true;
      }
      var at := event.flow.nodeMap[event.hop];
      if at.kind.None? {
        Ack();
        return false;
      }
      var outcome := lib(at, event.message, event.flow.flowId, event.metadata);
      if outcome.Throws? {
        return true;
      }
      if outcome.Unknown? || outcome.Rejects? || timedOut || at.wires.None? {
        Ack();
        return false;
      }
      SendAll(event, outcome.outputs, at.wires.value, refused);
      Ack();
      return false;
    }

    /** The loop over the outputs. */
    method SendAll(event: Task, result: seq<Option<Json>>, wires: seq<seq<string>>, refused: set<nat>)
      modifies this`queue, this`trace
      ensures OnlySends(old(trace), trace)
      ensures queue.low == old(queue.low) && queue.unacked == old(queue.unacked)
      ensures queue.high == old(queue.high) + Packed(Kept(Fanned(event, result, wires, 0), refused, 0))
    {
      ghost var start, sent: seq<Task> := queue.high, [];
      var count := 0;
      var output := 0;
      while output < |wires|
        invariant 0 <= output <= |wires| && count == |sent| && OnlySends(old(trace), trace)
        invariant queue.low == old(queue.low) && queue.unacked == old(queue.unacked)
        invariant HasSent(queue.high, start, sent, refused)
        invariant sent + Fanned(event, result, wires, output) == Fanned(event, result, wires, 0)
      {
        ghost var more := FromOutput(event, result, wires, output);
        FannedStep(event, result, wires, output, sent);
        SentMore(queue.high, start, sent, more, refused);
        if output < |result| && result[output].Some? {
          SendOutput(event, result[output].value, wires[output], refused, count);
          count := count + |wires[output]|;
        } else {
          assert queue.high + Packed(Kept(more, refused, count)) == queue.high;
        }
        sent := sent + more;
        output := output + 1;
      }
      assert sent == Fanned(event, result, wires, 0);
    }

    /** The loop over the wires of one output; `count` sends of the hop come before it. */
    method SendOutput(event: Task, newEvent: Json, hops: seq<string>, refused: set<nat>, count: nat)
      modifies this`queue, this`trace
      ensures OnlySends(old(trace), trace)
      ensures queue.low == old(queue.low) && queue.unacked == old(queue.unacked)
      ensures queue.high == old(queue.high) + Packed(Kept(Sends(event, newEvent, hops), refused, count))
    {
      ghost var start, all := queue.high, Sends(event, newEvent, hops);
      var k := 0;
      while k < |hops|
        invariant 0 <= k <= |hops| && OnlySends(old(trace), trace)
        invariant queue.low == old(queue.low) && queue.unacked == old(queue.unacked)
        invariant queue.high == start + Packed(Kept(all[..k], refused, count))
      {
        var next := event.(hop := hops[k], message := newEvent);
        OneMoreSend(start, all, k, refused, count);
        SendMessage(next, 1, count + k in refused);
        k := k + 1;
      }
      assert all[..k] == all;
    }
  }
}
