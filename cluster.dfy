/**
 * The two collaborators every generator talks to, reduced to abstract
 * state: the cluster API over the "default" namespace (its resources, its
 * real nodes and the log of calls made to it) and the event recorder (the
 * append-only log of recorded events), sharing one history that keeps
 * the calls and the events in the order they happened. Whether a create, a
 * bulk delete or a node listing succeeds is decided by the cluster, not by
 * the generator, so each call takes its outcome as an input.
 */
module Cluster {
  import opened Events

  datatype Option<T> = None | Some(value: T)

  /** A label selector of the form key=value, as in "gen-by=<value>". */
  datatype Selector = Selector(key: string, value: string)

  /** Whether a selector selects an object carrying these labels. */
  predicate Selects(sel: Selector, labels: map<string, string>)
  {
    sel.key in labels && labels[sel.key] == sel.value
  }

  /** The parts of a resource's spec the generators set and that matter here. */
  datatype Spec =
    | PodSpec
    | DeploymentSpec(replicas: int, matchLabels: map<string, string>, templateLabels: map<string, string>)

  /** A namespaced resource: its kind, name, labels and spec. */
  datatype Resource = Resource(kind: Kind, name: string, labels: map<string, string>, spec: Spec)

  /** A real cluster node, only ever read. */
  datatype NodeObject = NodeObject(name: string)

  /** One call made to the cluster API. */
  datatype Call =
    | CreateCall(kind: Kind, name: string)
    | DeleteCollectionCall(kind: Kind, selector: Selector)
    | ListNodesCall

  /** The provenance label key every mock resource carries. */
  const ProvenanceKey: string := "gen-by"

  /**
   * The provenance label value, the process-wide constant
   * kubernetesEventsGenerator. Its text is defined outside this model and
   * no property depends on it: only that create and cleanup use the same one.
   */
  const ProvenanceValue: string

  /** The labels of a mock resource: gen-by=<ProvenanceValue>. */
  const ProvenanceLabels: map<string, string> := map[ProvenanceKey := ProvenanceValue]

  /** The selector of the cleanup call: "gen-by=" followed by the provenance value. */
  const ProvenanceSelector: Selector := Selector(ProvenanceKey, ProvenanceValue)

  /** The resources a successful DeleteCollection(kind, sel) leaves behind. */
  function Cleaned(res: set<Resource>, kind: Kind, sel: Selector): (r: set<Resource>)
    ensures r <= res
    ensures forall x :: x in res ==> (x in r <==> !(x.kind == kind && Selects(sel, x.labels)))
  {
    set x | x in res && !(x.kind == kind && Selects(sel, x.labels))
  }

  /** The number of create calls in a call log. */
  function CreateCount(calls: seq<Call>): nat
  {
    if |calls| == 0 then 0
    else CreateCount(calls[..|calls| - 1]) + (if calls[|calls| - 1].CreateCall? then 1 else 0)
  }

  /** The number of DeleteCollection calls in a call log. */
  function DeleteCount(calls: seq<Call>): nat
  {
    if |calls| == 0 then 0
    else DeleteCount(calls[..|calls| - 1]) + (if calls[|calls| - 1].DeleteCollectionCall? then 1 else 0)
  }

  /** Counting distributes over concatenation of call logs. */
  lemma {:induction false} CountsAppend(a: seq<Call>, b: seq<Call>)
    ensures CreateCount(a + b) == CreateCount(a) + CreateCount(b)
    ensures DeleteCount(a + b) == DeleteCount(a) + DeleteCount(b)
  {
    if |b| > 0 {
      var b' := b[..|b| - 1];
      assert (a + b)[..|a + b| - 1] == a + b';
      CountsAppend(a, b');
    } else {
      assert a + b == a;
    }
  }

  /** One step of a run as seen from outside: a call to the cluster API, or a recorded event. */
  datatype Step = Called(call: Call) | Recorded(emission: Emission)

  /** A stretch of the event log, as steps of the history. */
  function Records(log: seq<Emission>): (r: seq<Step>)
    ensures |r| == |log|
    ensures forall j :: 0 <= j < |log| ==> r[j] == Recorded(log[j])
  {
    if |log| == 0 then [] else Records(log[..|log| - 1]) + [Recorded(log[|log| - 1])]
  }

  /** The API calls of a history, in order. */
  function CallsOf(steps: seq<Step>): seq<Call>
  {
    if |steps| == 0 then []
    else CallsOf(steps[..|steps| - 1]) + (if steps[|steps| - 1].Called? then [steps[|steps| - 1].call] else [])
  }

  /** The recorded events of a history, in order. */
  function EventsOf(steps: seq<Step>): seq<Emission>
  {
    if |steps| == 0 then []
    else EventsOf(steps[..|steps| - 1]) + (if steps[|steps| - 1].Recorded? then [steps[|steps| - 1].emission] else [])
  }

  /** Records distributes over concatenation of event logs. */
  lemma {:induction false} RecordsAppend(a: seq<Emission>, b: seq<Emission>)
    ensures Records(a + b) == Records(a) + Records(b)
  {
    if |b| > 0 {
      var b' := b[..|b| - 1];
      assert (a + b)[..|a + b| - 1] == a + b';
      RecordsAppend(a, b');
    } else {
      assert a + b == a;
    }
  }

  /** Recording one more event adds one step. */
  lemma RecordsSnoc(log: seq<Emission>, e: Emission)
    ensures Records(log + [e]) == Records(log) + [Recorded(e)]
  {
    assert (log + [e])[..|log|] == log;
  }

  /** Both projections of a history distribute over concatenation. */
  lemma {:induction false} ProjectionsAppend(a: seq<Step>, b: seq<Step>)
    ensures CallsOf(a + b) == CallsOf(a) + CallsOf(b)
    ensures EventsOf(a + b) == EventsOf(a) + EventsOf(b)
  {
    if |b| > 0 {
      var b' := b[..|b| - 1];
      assert (a + b)[..|a + b| - 1] == a + b';
      ProjectionsAppend(a, b');
    } else {
      assert a + b == a;
    }
  }

  /** A stretch of recorded events holds no call, and its events are that stretch. */
  lemma {:induction false} RecordsProject(log: seq<Emission>)
    ensures CallsOf(Records(log)) == []
    ensures EventsOf(Records(log)) == log
  {
    if |log| > 0 {
      RecordsProject(log[..|log| - 1]);
      assert Records(log)[..|log| - 1] == Records(log[..|log| - 1]);
    }
  }

  /**
   * The order in which API calls and recorded events happened, shared by
   * the API and the recorder of one process. It exists only in the model:
   * projected to calls it is the API's call log, projected to events the
   * recorder's event log, and it also says how the two interleave.
   */
  class History {
    ghost var steps: seq<Step>

    constructor ()
      ensures steps == []
    {
      steps := [];
    }
  }

  /** The cluster API, restricted to the default namespace and the nodes. */
  class Api {
    var resources: set<Resource>
    var nodes: seq<NodeObject>
    var calls: seq<Call>
    ghost const history: History

    constructor (resources: set<Resource>, nodes: seq<NodeObject>, ghost history: History)
      ensures this.resources == resources && this.nodes == nodes && calls == [] && this.history == history
    {
      this.resources := resources;
      this.nodes := nodes;
      calls := [];
      this.history := history;
    }

    /** Create(obj): on success the object is stored and handed back; on failure nothing changes. */
    method Create(obj: Resource, ok: bool) returns (created: Option<Resource>)
      modifies this, history
      ensures calls == old(calls) + [CreateCall(obj.kind, obj.name)]
      ensures history.steps == old(history.steps) + [Called(CreateCall(obj.kind, obj.name))]
      ensures nodes == old(nodes)
      ensures resources == if ok then old(resources) + {obj} else old(resources)
      ensures created == if ok then Some(obj) else None
    {
      calls := calls + [CreateCall(obj.kind, obj.name)];
      history.steps := history.steps + [Called(CreateCall(obj.kind, obj.name))];
      if ok {
        resources := resources + {obj};
        created := Some(obj);
      } else {
        created := None;
      }
    }

    /** DeleteCollection(kind, selector): on success every selected resource of that kind is gone. */
    method DeleteCollection(kind: Kind, sel: Selector, ok: bool) returns (deleted: bool)
      modifies this, history
      ensures calls == old(calls) + [DeleteCollectionCall(kind, sel)]
      ensures history.steps == old(history.steps) + [Called(DeleteCollectionCall(kind, sel))]
      ensures nodes == old(nodes)
      ensures resources == if ok then Cleaned(old(resources), kind, sel) else old(resources)
      ensures deleted == ok
    {
      calls := calls + [DeleteCollectionCall(kind, sel)];
      history.steps := history.steps + [Called(DeleteCollectionCall(kind, sel))];
      if ok {
        resources := Cleaned(resources, kind, sel);
      }
      deleted := ok;
    }

    /** Nodes().List(): the current nodes, or nothing when listing fails. */
    method ListNodes(ok: bool) returns (items: Option<seq<NodeObject>>)
      modifies this, history
      ensures calls == old(calls) + [ListNodesCall]
      ensures history.steps == old(history.steps) + [Called(ListNodesCall)]
      ensures nodes == old(nodes) && resources == old(resources)
      ensures items == if ok then Some(nodes) else None
    {
      calls := calls + [ListNodesCall];
      history.steps := history.steps + [Called(ListNodesCall)];
      items := if ok then Some(nodes) else None;
    }
  }

  /** The event recorder: every Event call appends one record to the log. */
  class Recorder {
    var log: seq<Emission>
    ghost const history: History

    constructor (ghost history: History)
      ensures log == [] && this.history == history
    {
      log := [];
      this.history := history;
    }

    method Event(subject: ObjectRef, severity: Severity, reason: string, message: string)
      modifies this, history
      ensures log == old(log) + [Emission(subject, severity, reason, message)]
      ensures history.steps == old(history.steps) + [Recorded(Emission(subject, severity, reason, message))]
    {
      log := log + [Emission(subject, severity, reason, message)];
      history.steps := history.steps + [Recorded(Emission(subject, severity, reason, message))];
    }
  }

  /**
   * The inputs of one Generate call: the names drawn at random for the
   * create attempts, and the cluster's answers: whether each create
   * succeeds, whether the bulk delete succeeds and whether the node listing
   * succeeds.
   */
  datatype Outcomes = Outcomes(names: seq<string>, created: seq<bool>, deleted: bool, listed: bool)
}
