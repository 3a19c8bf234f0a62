/**
 An event from dispatch to the last execution: the index picks the heads, the queue runs the flows.
 */
module EventRun {
  import opened Flows
  import opened Executor
  import opened FlowManager
  import opened Ingestor
  import opened Interpreter

  /** A firing of a node that stands for itself in the node map of an acyclic flow. */
  ghost predicate CanRun(firing: Firing)
  {
    var flow, node := WiringOf(firing.flow), firing.node;
    node.id in flow.nodeMap && flow.nodeMap[node.id] == node && Acyclic(flow)
  }

  lemma FirstTasksAreSound(firing: Firing, event: Event)
    requires CanRun(firing)
    ensures AllSound(FirstTasks(firing.node, WiringOf(firing.flow), event))
  {
    var flow, node := WiringOf(firing.flow), firing.node;
    var message := MessageFor(node, event);
    FannedFollowsWires(Task(node.id, message, flow, event.metadata), Copies(message, |Wires(node)|), Wires(node), 0);
    var rank := RankOf(flow);
    forall t | t in FirstTasks(node, flow, event)
      ensures Sound(t)
    {
      var output :| output in Wires(node) && t.hop in output;
      assert flow.nodeMap[node.id] == node;
    }
  }

  lemma {:induction false} EventTasksAreSound(firings: seq<Firing>, event: Event)
    requires forall f :: f in firings ==> CanRun(f)
    ensures AllSound(TasksOf(firings, event))
    decreases |firings|
  {
    if firings != [] {
      var init, last := firings[..|firings| - 1], firings[|firings| - 1];
      assert forall f :: f in init ==> f in firings;
      assert last in firings;
      EventTasksAreSound(init, event);
      FirstTasksAreSound(last, event);
    }
  }

  /** The event reaches only acyclic flows. */
  ghost predicate AllRunnable(flows: seq<StoredFlow>, event: Event)
  {
    DistinctIds(flows) && forall f :: f in flows && Reached(f, event) ==> Acyclic(WiringOf(f))
  }

  lemma DispatchedCanRun(flows: seq<StoredFlow>, event: Event)
    requires AllRunnable(flows, event)
    ensures forall f :: f in DispatchedFirings(flows, event) ==> CanRun(f)
  {
    forall f | f in DispatchedFirings(flows, event)
      ensures CanRun(f)
    {
      GatheredIsCounted(flows, FiredIfReached(event), f);
      assert f in multiset(DispatchedFirings(flows, event));
      var red := f.flow.index.red;
      assert f.node in FiredHeads(red, event);
      HeadsAreNodes(red);
      FiredIsMapped(HeadIds(red), NodeMap(red), event);
      NodeMapKeepsIds(red);
    }
  }

  lemma DispatchedTasksAreSound(flows: seq<StoredFlow>, event: Event, tasks: seq<Task>)
    requires AllRunnable(flows, event)
    requires multiset(tasks) == multiset(TasksOf(DispatchedFirings(flows, event), event))
    ensures AllSound(tasks) && AllSound(TasksOf(DispatchedFirings(flows, event), event))
  {
    var first := TasksOf(DispatchedFirings(flows, event), event);
    DispatchedCanRun(flows, event);
    EventTasksAreSound(DispatchedFirings(flows, event), event);
    forall t | t in tasks ensures Sound(t) {
      assert t in multiset(first);
    }
  }

  /** An event from end to end: once the tasks that its dispatch has sent, and all that follow from them, have
      been delivered, in any order, the executions are those of the evaluator from every head that the flows it
      reaches fire; and a run that has not got there can go on. */
  lemma EventRunsItsFlows(flows: seq<StoredFlow>, event: Event, tasks: seq<Task>, run: seq<Delivery>, lib: Library)
    requires AllRunnable(flows, event)
    requires multiset(tasks) == multiset(TasksOf(DispatchedFirings(flows, event), event))
    requires Run(Pool(tasks, []), run, lib) && Lossless(run)
    ensures AllSound(TasksOf(DispatchedFirings(flows, event), event))
    ensures var end, first := After(Pool(tasks, []), run, lib), TasksOf(DispatchedFirings(flows, event), event);
            if end.pending == [] then multiset(end.log) == multiset(EvaluateAll(first, lib))
            else |run| < |EvaluateAll(first, lib)| && exists d :: Possible(end, d)
  {
    var first := TasksOf(DispatchedFirings(flows, event), event);
    DispatchedTasksAreSound(flows, event, tasks);
    BagPermutes(tasks, first, lib);
    assert |multiset(EvaluateAll(tasks, lib))| == |multiset(EvaluateAll(first, lib))|;
    EveryRunDrains(tasks, run, lib);
    DeliveriesAreCounted(tasks, run, lib);
    QueueEvaluatesFlows(tasks, run, lib);
    var end := After(Pool(tasks, []), run, lib);
    if end.pending != [] {
      assert end.pending[0] in end.pending;
      assert Possible(end, Delivery(0, {}, 0));
    }
  }

  /** If no reached flow misfires, those heads are the ones that scanning every node of every flow fires. */
  lemma EventRunsWhatTheScanFires(flows: seq<StoredFlow>, event: Event, tasks: seq<Task>, run: seq<Delivery>,
                                  lib: Library)
    requires AllRunnable(flows, event) && NothingMisfires(flows, event)
    requires multiset(tasks) == multiset(TasksOf(DispatchedFirings(flows, event), event))
    requires Run(Pool(tasks, []), run, lib) && Lossless(run)
    ensures AllSound(TasksOf(ScannedFirings(flows, event), event))
    ensures var end, scanned := After(Pool(tasks, []), run, lib), TasksOf(ScannedFirings(flows, event), event);
            if end.pending == [] then multiset(end.log) == multiset(EvaluateAll(scanned, lib))
            else |run| < |EvaluateAll(scanned, lib)| && exists d :: Possible(end, d)
  {
    DispatchIsScanExactly(flows, event);
    EventRunsItsFlows(flows, event, tasks, run, lib);
  }
}
