/**
 * The node events generator (node.go): it lists the cluster's real nodes
 * and records every catalog entry against every node, catalog order
 * outermost, node order innermost, with the node's name put in place of
 * "%s" in messages that carry one. It never creates or deletes anything.
 *
 * Messages longer than a couple of dozen characters are written as
 * concatenations of shorter literals; the value is the same string.
 * Messages with a placeholder are written Template(before, after).
 */
module NodeGen {
  import opened Events
  import opened Cluster
  import opened NodeCatalog

  /** What the node generator records for one catalog entry against one node. */
  function NodeEmission(e: EventRecord, node: NodeObject): Emission
  {
    Emission(ObjectRef(Node, node.name), e.severity, e.reason, Render(e.message, node.name))
  }

  /** One catalog entry recorded against each node in turn. */
  function NodeRow(e: EventRecord, nodes: seq<NodeObject>): seq<Emission>
  {
    if |nodes| == 0 then [] else NodeRow(e, nodes[..|nodes| - 1]) + [NodeEmission(e, nodes[|nodes| - 1])]
  }

  /** The events of one listing cycle: a row per catalog entry, in catalog order. */
  function NodeLog(catalog: seq<EventRecord>, nodes: seq<NodeObject>): seq<Emission>
  {
    if |catalog| == 0 then []
    else NodeLog(catalog[..|catalog| - 1], nodes) + NodeRow(catalog[|catalog| - 1], nodes)
  }

  /** A row over one more node ends with the entry against that node. */
  lemma NodeRowSnoc(e: EventRecord, nodes: seq<NodeObject>, j: nat)
    requires j < |nodes|
    ensures NodeRow(e, nodes[..j + 1]) == NodeRow(e, nodes[..j]) + [NodeEmission(e, nodes[j])]
  {
    assert nodes[..j + 1][..j] == nodes[..j];
  }

  /** A log over one more catalog entry ends with that entry's row. */
  lemma NodeLogSnoc(catalog: seq<EventRecord>, nodes: seq<NodeObject>, i: nat)
    requires i < |catalog|
    ensures NodeLog(catalog[..i + 1], nodes) == NodeLog(catalog[..i], nodes) + NodeRow(catalog[i], nodes)
  {
    assert catalog[..i + 1][..i] == catalog[..i];
  }

  /** One row holds the entry against each node, in node order. */
  lemma {:induction false} NodeRowAt(e: EventRecord, nodes: seq<NodeObject>)
    ensures |NodeRow(e, nodes)| == |nodes|
    ensures forall j :: 0 <= j < |nodes| ==> NodeRow(e, nodes)[j] == NodeEmission(e, nodes[j])
  {
    if |nodes| > 0 {
      NodeRowAt(e, nodes[..|nodes| - 1]);
    }
  }

  lemma RowsBefore(k: nat, rows: nat, m: nat)
    requires k < rows
    ensures k * m + m <= rows * m
    decreases rows - k
  {
    NextRow(k, m);
    if k + 1 < rows {
      RowsBefore(k + 1, rows, m);
    }
  }

  /** A listing cycle records one row per catalog entry: |catalog| * |nodes| events. */
  lemma {:induction false} NodeLogLength(catalog: seq<EventRecord>, nodes: seq<NodeObject>)
    ensures |NodeLog(catalog, nodes)| == |catalog| * |nodes|
  {
    if |catalog| > 0 {
      var n := |catalog| - 1;
      NodeLogLength(catalog[..n], nodes);
      NodeRowAt(catalog[n], nodes);
      NextRow(n, |nodes|);
    }
  }

  /**
   * Catalog-major, node-minor order: event i * |nodes| + j of a listing
   * cycle is catalog entry i recorded against node j.
   */
  lemma {:induction false} NodeLogAt(catalog: seq<EventRecord>, nodes: seq<NodeObject>, i: nat, j: nat)
    requires i < |catalog| && j < |nodes|
    ensures i * |nodes| + j < |NodeLog(catalog, nodes)|
    ensures NodeLog(catalog, nodes)[i * |nodes| + j] == NodeEmission(catalog[i], nodes[j])
  {
    var n := |catalog| - 1;
    var m := |nodes|;
    NodeLogLength(catalog[..n], nodes);
    NodeRowAt(catalog[n], nodes);
    var before := NodeLog(catalog[..n], nodes);
    assert NodeLog(catalog, nodes) == before + NodeRow(catalog[n], nodes);
    if i < n {
      RowsBefore(i, n, m);
      NodeLogAt(catalog[..n], nodes, i, j);
      assert catalog[..n][i] == catalog[i];
    } else {
      assert i * m == |before|;
    }
  }

  /**
   * What a node sees of one catalog entry: the entry's type and reason
   * against that node, and its message with the node's name in place of
   * the single "%s" when it has one, byte for byte otherwise.
   */
  lemma NodeMessageRendering(e: EventRecord, node: NodeObject)
    requires e in NodeEvents
    ensures NodeEmission(e, node).subject == ObjectRef(Node, node.name)
    ensures NodeEmission(e, node).severity == e.severity && NodeEmission(e, node).reason == e.reason
    ensures PlaceholderCount(e.message) <= 1
    ensures !HasPlaceholder(e.message) ==> NodeEmission(e, node).message == e.message
    ensures HasPlaceholder(e.message) ==>
              exists p, q :: e.message == Template(p, q) && NoPercent(p) && NoPercent(q) &&
                             NodeEmission(e, node).message == p + node.name + q
  {
    NodeTemplatesWellFormed();
    WellFormedRender(e.message, node.name);
  }

  /**
   * The messages that look like log patterns (OOMKilling, TaskHung,
   * UnregisterNetDevice, CorruptDockerImage) carry no "%s" and are recorded
   * byte for byte, whatever the node is called.
   */
  lemma PatternMessagesVerbatim(name: string)
    ensures forall m :: m in [OOMKillingMessage, TaskHungMessage, UnregisterNetDeviceMessage, CorruptDockerImageMessage] ==>
              !HasPlaceholder(m) && Render(m, name) == m
  {
    OOMKillingMessageShape();
    NoPercentCount(OOMKillingMessage);
    TaskHungMessageShape();
    NoPercentCount(TaskHungMessage);
    UnregisterNetDeviceMessageShape();
    NoPercentCount(UnregisterNetDeviceMessage);
    CorruptDockerImageMessageShape();
    NoPercentCount(CorruptDockerImageMessage);
  }

  /**
   * The templated messages hold exactly one "%s", which the node's name
   * replaces: for example "Node %s has been rebooted, boot id" and
   * "Deleting all Pods from Node %s".
   */
  lemma TemplatedMessagesRender(name: string)
    ensures PlaceholderCount(NodeRebootedMessage) == 1
    ensures Render(NodeRebootedMessage, name) == "Node " + name + " has been" + " rebooted, boot" + " id"
    ensures PlaceholderCount(DeletingAllPodsMessage) == 1
    ensures Render(DeletingAllPodsMessage, name) == "Deleting all" + " Pods from Node " + name
  {
    SinglePlaceholder("Node ", " has been" + " rebooted, boot" + " id", name);
    SinglePlaceholder("Deleting all" + " Pods from Node ", "", name);
  }

  /** The node events generator; it owns no resources and has no settings. */
  datatype NodeGenerator = NodeGenerator
  {
    /** Name(): the generator's registry key, never empty. */
    function Name(): (n: string)
      ensures |n| > 0
    {
      NodeGeneratorName
    }

    /**
     * The events one Generate call records: none when listing fails,
     * otherwise every catalog entry against every node.
     */
    function CycleEmissions(o: Outcomes, nodes: seq<NodeObject>): seq<Emission>
    {
      if o.listed then NodeLog(NodeEvents, nodes) else []
    }

    /** The history of one Generate call: the listing, then every event it records. */
    function CycleSteps(o: Outcomes, nodes: seq<NodeObject>): seq<Step>
    {
      [Called(ListNodesCall)] + Records(CycleEmissions(o, nodes))
    }

    /**
     * initialize: list the nodes; on failure return at once; otherwise, for
     * each catalog entry and then for each node, record the entry with the
     * node's name substituted when the message contains "%s".
     */
    method Initialize(api: Api, rec: Recorder, listed: bool)
      requires rec.history == api.history
      modifies api, rec, api.history
      ensures api.calls == old(api.calls) + [ListNodesCall]
      ensures api.resources == old(api.resources) && api.nodes == old(api.nodes)
      ensures rec.log == old(rec.log) + (if listed then NodeLog(NodeEvents, old(api.nodes)) else [])
      ensures api.history.steps == old(api.history.steps) + [Called(ListNodesCall)] +
                Records(if listed then NodeLog(NodeEvents, old(api.nodes)) else [])
    {
      var nodeList := api.ListNodes(listed);
      if nodeList.None? {
        return;
      }
      RecordAll(rec, NodeEvents, nodeList.value);
    }

    /** The nested emission loops of initialize, over a catalog and the listed nodes. */
    static method RecordAll(rec: Recorder, catalog: seq<EventRecord>, items: seq<NodeObject>)
      modifies rec, rec.history
      ensures rec.log == old(rec.log) + NodeLog(catalog, items)
      ensures rec.history.steps == old(rec.history.steps) + Records(NodeLog(catalog, items))
    {
      for i := 0 to |catalog|
        invariant rec.log == old(rec.log) + NodeLog(catalog[..i], items)
        invariant rec.history.steps == old(rec.history.steps) + Records(NodeLog(catalog[..i], items))
      {
        var event := catalog[i];
        ghost var before := rec.log;
        ghost var stepsBefore := rec.history.steps;
        for j := 0 to |items|
          invariant rec.log == before + NodeRow(event, items[..j])
          invariant rec.history.steps == stepsBefore + Records(NodeRow(event, items[..j]))
        {
          var node := items[j];
          if HasPlaceholder(event.message) {
            rec.Event(ObjectRef(Node, node.name), event.severity, event.reason, Substitute(event.message, node.name));
          } else {
            rec.Event(ObjectRef(Node, node.name), event.severity, event.reason, event.message);
          }
          NodeRowSnoc(event, items, j);
          Associative(before, NodeRow(event, items[..j]), [NodeEmission(event, node)]);
          RecordsSnoc(NodeRow(event, items[..j]), NodeEmission(event, node));
          Associative(stepsBefore, Records(NodeRow(event, items[..j])), [Recorded(NodeEmission(event, node))]);
        }
        assert items[..|items|] == items;
        NodeLogSnoc(catalog, items, i);
        Associative(old(rec.log), NodeLog(catalog[..i], items), NodeRow(event, items));
        RecordsAppend(NodeLog(catalog[..i], items), NodeRow(event, items));
        Associative(old(rec.history.steps), Records(NodeLog(catalog[..i], items)), Records(NodeRow(event, items)));
      }
      assert catalog[..|catalog|] == catalog;
    }

    /** Generate: initialize only; nodes are real and are never cleaned up. */
    method Generate(api: Api, rec: Recorder, o: Outcomes)
      requires rec.history == api.history
      modifies api, rec, api.history
      ensures api.calls == old(api.calls) + [ListNodesCall]
      ensures api.resources == old(api.resources) && api.nodes == old(api.nodes)
      ensures rec.log == old(rec.log) + CycleEmissions(o, old(api.nodes))
      ensures api.history.steps == old(api.history.steps) + CycleSteps(o, old(api.nodes))
    {
      Initialize(api, rec, o.listed);
    }
  }

  /**
   * The size of one node cycle: the 45 catalog entries against every node
   * when listing succeeds, nothing when it fails or when there are no
   * nodes.
   */
  lemma NodeCycleLength(g: NodeGenerator, o: Outcomes, nodes: seq<NodeObject>)
    ensures |NodeEvents| == 45
    ensures |g.CycleEmissions(o, nodes)| == if o.listed then 45 * |nodes| else 0
    ensures |nodes| == 0 ==> g.CycleEmissions(o, nodes) == []
  {
    NodeLogLength(NodeEvents, nodes);
  }

  /**
   * The order of one node cycle: the listing comes first, every event after
   * it, and the history holds exactly that one call and the cycle's events.
   */
  lemma NodeCycleHistory(g: NodeGenerator, o: Outcomes, nodes: seq<NodeObject>)
    ensures g.CycleSteps(o, nodes)[0] == Called(ListNodesCall)
    ensures forall k :: 1 <= k < |g.CycleSteps(o, nodes)| ==> g.CycleSteps(o, nodes)[k].Recorded?
    ensures CallsOf(g.CycleSteps(o, nodes)) == [ListNodesCall]
    ensures EventsOf(g.CycleSteps(o, nodes)) == g.CycleEmissions(o, nodes)
  {
    var listing := [Called(ListNodesCall)];
    RecordsProject(g.CycleEmissions(o, nodes));
    ProjectionsAppend(listing, Records(g.CycleEmissions(o, nodes)));
    assert CallsOf(listing) == CallsOf([]) + [ListNodesCall];
    assert EventsOf(listing) == EventsOf([]);
  }

  /**
   * The listing call is neither a create nor a delete: a node cycle, whose
   * only call is that listing, leaves both counts of the call log as they
   * were.
   */
  lemma ListingCreatesNothing(calls: seq<Call>)
    ensures CreateCount(calls + [ListNodesCall]) == CreateCount(calls)
    ensures DeleteCount(calls + [ListNodesCall]) == DeleteCount(calls)
  {
    assert (calls + [ListNodesCall])[..|calls|] == calls;
  }
}
