/**
 * The generator manager (main.go): a registry of generators keyed by
 * their names, and the rounds of its run loop, each of which calls
 * Generate once on every registered generator, in no particular order.
 */
module Manager {
  import opened Events
  import opened Cluster
  import opened CreateCycle
  import opened PodGen
  import opened DeployGen
  import opened NodeGen
  import DeployCatalog

  /**
   * A generator behind the Generator interface: one of the three this
   * program defines, or any other implementor, known here only by the name
   * it reports (which may be empty).
   */
  datatype Generator =
    | Pods(pods: PodGenerator)
    | Deployments(deployments: DeploymentGenerator)
    | Nodes(nodes: NodeGenerator)
    | Other(name: string)
  {
    /** Name(): the registry key the generator asks for, never empty for the program's own three. */
    function Name(): (n: string)
      ensures !Other? ==> |n| > 0
      ensures Other? ==> n == name
    {
      match this
      case Pods(g) => g.Name()
      case Deployments(g) => g.Name()
      case Nodes(g) => g.Name()
      case Other(name) => name
    }

    /** The cluster's answers fit the generator (always, for the node generator). */
    predicate Fits(o: Outcomes)
    {
      match this
      case Pods(g) => g.Fits(o)
      case Deployments(g) => g.Fits(o)
      case Nodes(_) => true
      case Other(_) => true
    }

    /** The API calls of one Generate call. */
    function CycleCalls(o: Outcomes): seq<Call>
      requires Fits(o)
    {
      match this
      case Pods(g) => g.CycleCalls(o)
      case Deployments(g) => g.CycleCalls(o)
      case Nodes(_) => [ListNodesCall]
      case Other(_) => []
    }

    /** The events one Generate call records, given the cluster's nodes. */
    function CycleEmissions(o: Outcomes, nodes: seq<NodeObject>): seq<Emission>
      requires Fits(o)
    {
      match this
      case Pods(g) => g.CycleEmissions(o)
      case Deployments(g) => g.CycleEmissions(o)
      case Nodes(g) => g.CycleEmissions(o, nodes)
      case Other(_) => []
    }

    /** The namespace after one Generate call, starting from `res`. */
    function CycleResources(res: set<Resource>, o: Outcomes): set<Resource>
      requires Fits(o)
    {
      match this
      case Pods(g) => g.CycleResources(res, o)
      case Deployments(g) => g.CycleResources(res, o)
      case Nodes(_) => res
      case Other(_) => res
    }

    /** The interleaved calls and events of one Generate call, given the cluster's nodes. */
    function CycleSteps(o: Outcomes, nodes: seq<NodeObject>): seq<Step>
      requires Fits(o)
    {
      match this
      case Pods(g) => g.CycleSteps(o)
      case Deployments(g) => g.CycleSteps(o)
      case Nodes(g) => g.CycleSteps(o, nodes)
      case Other(_) => []
    }

    /**
     * Generate(), dispatched to the generator behind the interface. The
     * Generate of an implementor outside this program is not part of the
     * model: it is taken to make no call and record nothing.
     */
    method Generate(api: Api, rec: Recorder, o: Outcomes)
      requires Fits(o)
      requires rec.history == api.history
      modifies api, rec, api.history
      ensures api.calls == old(api.calls) + CycleCalls(o)
      ensures api.resources == CycleResources(old(api.resources), o)
      ensures api.nodes == old(api.nodes)
      ensures rec.log == old(rec.log) + CycleEmissions(o, old(api.nodes))
      ensures api.history.steps == old(api.history.steps) + CycleSteps(o, old(api.nodes))
    {
      match this
      case Pods(g) => g.Generate(api, rec, o);
      case Deployments(g) => g.Generate(api, rec, o);
      case Nodes(g) => g.Generate(api, rec, o);
      case Other(_) =>
    }
  }

  /**
   * The counts of one Generate call: a create-capable generator makes
   * `seed` creates and exactly one bulk delete; the node generator (and
   * any other) makes neither.
   */
  lemma GenerateCounts(g: Generator, o: Outcomes)
    requires g.Fits(o)
    ensures CreateCount(g.CycleCalls(o)) ==
              match g
              case Pods(p) => Iterations(p.seed)
              case Deployments(d) => Iterations(d.seed)
              case Nodes(_) => 0
              case Other(_) => 0
    ensures DeleteCount(g.CycleCalls(o)) == if g.Pods? || g.Deployments? then 1 else 0
  {
    match g
    case Pods(p) => PodCycleCounts(p, o);
    case Deployments(d) => DeploymentCycleCounts(d, o);
    case Nodes(_) => ListingCreatesNothing([]);
    case Other(_) =>
  }

  /** Whichever generator is behind the interface, its history holds exactly its calls and its events. */
  lemma GenerateHistory(g: Generator, o: Outcomes, nodes: seq<NodeObject>)
    requires g.Fits(o)
    ensures CallsOf(g.CycleSteps(o, nodes)) == g.CycleCalls(o)
    ensures EventsOf(g.CycleSteps(o, nodes)) == g.CycleEmissions(o, nodes)
  {
    match g
    case Pods(p) => PodCycleHistory(p, o);
    case Deployments(d) => DeploymentCycleHistory(d, o);
    case Nodes(n) => NodeCycleHistory(n, o, nodes);
    case Other(_) =>
  }

  // ---------------------------------------------------------------------
  // The registry
  // ---------------------------------------------------------------------

  /** Every key is the name of the generator stored under it. */
  ghost predicate KeysAreNames(generators: map<string, Generator>)
  {
    forall name :: name in generators ==> name != "" && generators[name].Name() == name
  }

  /**
   * register(g) on a registry: a generator with an empty name is ignored;
   * otherwise it is stored under its name, replacing whatever was there,
   * and every other entry is kept.
   */
  function Registered(generators: map<string, Generator>, g: Generator): (r: map<string, Generator>)
    ensures g.Name() == "" ==> r == generators
    ensures g.Name() != "" ==> g.Name() in r && r[g.Name()] == g
    ensures forall name :: name != g.Name() ==> (name in r <==> name in generators)
    ensures forall name :: name != g.Name() && name in generators ==> r[name] == generators[name]
    ensures KeysAreNames(generators) ==> KeysAreNames(r)
  {
    if g.Name() != "" then generators[g.Name() := g] else generators
  }

  /** The three generators have distinct names, so registering all three keeps all three. */
  lemma DistinctNames(p: PodGenerator, d: DeploymentGenerator, n: NodeGenerator)
    ensures Pods(p).Name() != Deployments(d).Name()
    ensures Pods(p).Name() != Nodes(n).Name()
    ensures Deployments(d).Name() != Nodes(n).Name()
    ensures |Registered(Registered(Registered(map[], Pods(p)), Deployments(d)), Nodes(n))| == 3
  {
    var m := Registered(Registered(Registered(map[], Pods(p)), Deployments(d)), Nodes(n));
    assert m.Keys == {Pods(p).Name(), Deployments(d).Name(), Nodes(n).Name()};
  }

  // ---------------------------------------------------------------------
  // One round of run
  // ---------------------------------------------------------------------

  /** The outcomes of a round fit every generator it visits. */
  ghost predicate RoundFits(generators: map<string, Generator>, outcomes: map<string, Outcomes>, order: seq<string>)
  {
    forall k :: 0 <= k < |order| ==>
      order[k] in generators && order[k] in outcomes && generators[order[k]].Fits(outcomes[order[k]])
  }

  /** The API calls of a round that visits `order`. */
  function RoundCalls(generators: map<string, Generator>, outcomes: map<string, Outcomes>, order: seq<string>): seq<Call>
    requires RoundFits(generators, outcomes, order)
  {
    if |order| == 0 then []
    else
      var name := order[|order| - 1];
      RoundCalls(generators, outcomes, order[..|order| - 1]) + generators[name].CycleCalls(outcomes[name])
  }

  /** The events of a round that visits `order`. */
  function RoundEmissions(generators: map<string, Generator>, outcomes: map<string, Outcomes>, order: seq<string>, nodes: seq<NodeObject>): seq<Emission>
    requires RoundFits(generators, outcomes, order)
  {
    if |order| == 0 then []
    else
      var name := order[|order| - 1];
      RoundEmissions(generators, outcomes, order[..|order| - 1], nodes) + generators[name].CycleEmissions(outcomes[name], nodes)
  }

  /** The interleaved calls and events of a round that visits `order`: one cycle after another. */
  function RoundSteps(generators: map<string, Generator>, outcomes: map<string, Outcomes>, order: seq<string>, nodes: seq<NodeObject>): seq<Step>
    requires RoundFits(generators, outcomes, order)
  {
    if |order| == 0 then []
    else
      var name := order[|order| - 1];
      RoundSteps(generators, outcomes, order[..|order| - 1], nodes) + generators[name].CycleSteps(outcomes[name], nodes)
  }

  /** The namespace after a round that visits `order`, starting from `res`. */
  function RoundResources(generators: map<string, Generator>, outcomes: map<string, Outcomes>, order: seq<string>, res: set<Resource>): set<Resource>
    requires RoundFits(generators, outcomes, order)
  {
    if |order| == 0 then res
    else
      var name := order[|order| - 1];
      generators[name].CycleResources(RoundResources(generators, outcomes, order[..|order| - 1], res), outcomes[name])
  }

  /** How many of the generators a round visits clean up after themselves. */
  function Cleaners(generators: map<string, Generator>, order: seq<string>): nat
    requires forall k :: 0 <= k < |order| ==> order[k] in generators
  {
    if |order| == 0 then 0
    else Cleaners(generators, order[..|order| - 1]) + (if generators[order[|order| - 1]].Pods? || generators[order[|order| - 1]].Deployments? then 1 else 0)
  }

  /**
   * A round issues exactly one bulk delete per create-capable generator it
   * visits, whatever the create outcomes were.
   */
  lemma {:induction false} RoundDeletes(generators: map<string, Generator>, outcomes: map<string, Outcomes>, order: seq<string>)
    requires RoundFits(generators, outcomes, order)
    ensures DeleteCount(RoundCalls(generators, outcomes, order)) == Cleaners(generators, order)
  {
    if |order| > 0 {
      var n := |order| - 1;
      var name := order[n];
      assert RoundFits(generators, outcomes, order[..n]);
      RoundDeletes(generators, outcomes, order[..n]);
      CountsAppend(RoundCalls(generators, outcomes, order[..n]), generators[name].CycleCalls(outcomes[name]));
      GenerateCounts(generators[name], outcomes[name]);
    }
  }

  /** Visiting one more generator extends the round's calls, events and namespace by its cycle. */
  lemma RoundStep(generators: map<string, Generator>, outcomes: map<string, Outcomes>, order: seq<string>, name: string,
                  res: set<Resource>, nodes: seq<NodeObject>)
    requires RoundFits(generators, outcomes, order)
    requires name in generators && name in outcomes && generators[name].Fits(outcomes[name])
    ensures RoundFits(generators, outcomes, order + [name])
    ensures RoundCalls(generators, outcomes, order + [name]) ==
              RoundCalls(generators, outcomes, order) + generators[name].CycleCalls(outcomes[name])
    ensures RoundEmissions(generators, outcomes, order + [name], nodes) ==
              RoundEmissions(generators, outcomes, order, nodes) + generators[name].CycleEmissions(outcomes[name], nodes)
    ensures RoundResources(generators, outcomes, order + [name], res) ==
              generators[name].CycleResources(RoundResources(generators, outcomes, order, res), outcomes[name])
    ensures RoundSteps(generators, outcomes, order + [name], nodes) ==
              RoundSteps(generators, outcomes, order, nodes) + generators[name].CycleSteps(outcomes[name], nodes)
  {
    assert (order + [name])[..|order|] == order;
  }

  /**
   * A round's history holds exactly the round's calls and its events: no
   * generator's calls or events are lost, and each cycle's stay together,
   * in visiting order.
   */
  lemma {:induction false} RoundHistoryProjects(generators: map<string, Generator>, outcomes: map<string, Outcomes>, order: seq<string>, nodes: seq<NodeObject>)
    requires RoundFits(generators, outcomes, order)
    ensures CallsOf(RoundSteps(generators, outcomes, order, nodes)) == RoundCalls(generators, outcomes, order)
    ensures EventsOf(RoundSteps(generators, outcomes, order, nodes)) == RoundEmissions(generators, outcomes, order, nodes)
  {
    if |order| > 0 {
      var n := |order| - 1;
      var name := order[n];
      assert RoundFits(generators, outcomes, order[..n]);
      RoundHistoryProjects(generators, outcomes, order[..n], nodes);
      GenerateHistory(generators[name], outcomes[name], nodes);
      ProjectionsAppend(RoundSteps(generators, outcomes, order[..n], nodes), generators[name].CycleSteps(outcomes[name], nodes));
    }
  }

  /** A prefix one longer ends with the next element; the full prefix is the sequence. */
  lemma PrefixSnoc<T>(s: seq<T>, k: nat)
    requires k <= |s|
    ensures k < |s| ==> s[..k + 1] == s[..k] + [s[k]]
    ensures s[..|s|] == s
  {
  }

  /**
   * The order in which a round visits the registry's keys: each key exactly
   * once, in an order the model leaves open (Go's map iteration order).
   */
  method VisitOrder(keys: set<string>) returns (order: seq<string>)
    ensures forall name :: name in order <==> name in keys
    ensures |order| == |keys|
    ensures forall k, l :: 0 <= k < l < |order| ==> order[k] != order[l]
  {
    var remaining := keys;
    order := [];
    while remaining != {}
      invariant remaining <= keys
      invariant forall name :: name in order <==> name in keys && name !in remaining
      invariant |order| + |remaining| == |keys|
      invariant forall k, l :: 0 <= k < l < |order| ==> order[k] != order[l]
      decreases |remaining|
    {
      var name :| name in remaining;
      order := order + [name];
      remaining := remaining - {name};
    }
  }

  /**
   * The cluster and the event log after the generators of `order` have
   * run, starting from the call log `calls`, the namespace `res`, the
   * event log `log` and the nodes `nodes`.
   */
  ghost predicate AfterVisits(api: Api, rec: Recorder, generators: map<string, Generator>, outcomes: map<string, Outcomes>,
                              order: seq<string>, calls: seq<Call>, res: set<Resource>, log: seq<Emission>, nodes: seq<NodeObject>,
                              steps: seq<Step>)
    reads api, rec, api.history
  {
    RoundFits(generators, outcomes, order) &&
    api.calls == calls + RoundCalls(generators, outcomes, order) &&
    api.resources == RoundResources(generators, outcomes, order, res) &&
    api.nodes == nodes &&
    rec.log == log + RoundEmissions(generators, outcomes, order, nodes) &&
    rec.history == api.history &&
    api.history.steps == steps + RoundSteps(generators, outcomes, order, nodes)
  }

  /**
   * One step of a round: Generate on the generator registered under
   * `name`, extending the round's calls, namespace and events by its cycle.
   */
  method Visit(api: Api, rec: Recorder, generators: map<string, Generator>, outcomes: map<string, Outcomes>,
               order: seq<string>, name: string,
               ghost calls: seq<Call>, ghost res: set<Resource>, ghost log: seq<Emission>, ghost nodes: seq<NodeObject>,
               ghost steps: seq<Step>)
    requires AfterVisits(api, rec, generators, outcomes, order, calls, res, log, nodes, steps)
    requires name in generators && name in outcomes && generators[name].Fits(outcomes[name])
    modifies api, rec, api.history
    ensures AfterVisits(api, rec, generators, outcomes, order + [name], calls, res, log, nodes, steps)
  {
    var g, o := generators[name], outcomes[name];
    RoundStep(generators, outcomes, order, name, res, nodes);
    g.Generate(api, rec, o);
    Associative(calls, RoundCalls(generators, outcomes, order), g.CycleCalls(o));
    Associative(log, RoundEmissions(generators, outcomes, order, nodes), g.CycleEmissions(o, nodes));
    Associative(steps, RoundSteps(generators, outcomes, order, nodes), g.CycleSteps(o, nodes));
  }

  /** The run loop's owner: the registry of generators. */
  class GeneratorManager {
    var generators: map<string, Generator>

    /** Every key is the name of the generator stored under it. */
    ghost predicate Valid()
      reads this
    {
      KeysAreNames(generators)
    }

    /** The manager of init: an empty registry. */
    constructor ()
      ensures generators == map[] && Valid()
    {
      generators := map[];
    }

    /** register(generator). */
    method Register(g: Generator)
      modifies this
      ensures generators == Registered(old(generators), g)
      ensures old(Valid()) ==> Valid()
    {
      var name := g.Name();
      if name != "" {
        generators := generators[name := g];
      }
    }

    /**
     * One pass of run's inner loop: every registered generator is visited
     * exactly once, in an order the model leaves open (Go's map order),
     * and its Generate is called with the cluster's answers for it.
     */
    method RunRound(api: Api, rec: Recorder, outcomes: map<string, Outcomes>) returns (order: seq<string>)
      requires forall name :: name in generators ==> name in outcomes && generators[name].Fits(outcomes[name])
      requires rec.history == api.history
      modifies api, rec, api.history
      ensures forall name :: name in order <==> name in generators
      ensures |order| == |generators|
      ensures forall k, l :: 0 <= k < l < |order| ==> order[k] != order[l]
      ensures AfterVisits(api, rec, generators, outcomes, order, old(api.calls), old(api.resources), old(rec.log), old(api.nodes),
                          old(api.history.steps))
    {
      var gens := generators;
      order := VisitOrder(gens.Keys);
      for k := 0 to |order|
        invariant AfterVisits(api, rec, gens, outcomes, order[..k], old(api.calls), old(api.resources), old(rec.log), old(api.nodes),
                              old(api.history.steps))
      {
        assert order[k] in order;
        Visit(api, rec, gens, outcomes, order[..k], order[k], old(api.calls), old(api.resources), old(rec.log), old(api.nodes),
              old(api.history.steps));
        PrefixSnoc(order, k);
      }
      PrefixSnoc(order, |order|);
    }

    /**
     * init: the registry holds the deployment generator asked for with
     * seed 0, which is raised to minSeed.
     */
    static method Startup() returns (m: GeneratorManager)
      ensures fresh(m)
      ensures m.Valid()
      ensures m.generators == map[DeployCatalog.DeploymentGeneratorName := Deployments(DeploymentGenerator(DeployCatalog.MinSeed))]
    {
      m := new GeneratorManager();
      m.Register(Deployments(NewDeploymentGenerator(0)));
    }
  }

  /**
   * The registry init builds: only the deployment generator, with the
   * requested seed 0 raised to 5; so a round calls its Generate once,
   * making 5 creates and 1 delete.
   */
  lemma StartupRegistry(o: Outcomes)
    requires DeploymentGenerator(5).Fits(o)
    ensures NewDeploymentGenerator(0).seed == DeployCatalog.MinSeed == 5
    ensures Registered(map[], Deployments(NewDeploymentGenerator(0))) ==
              map[DeployCatalog.DeploymentGeneratorName := Deployments(DeploymentGenerator(5))]
    ensures var r := Registered(map[], Deployments(NewDeploymentGenerator(0)));
            var order := [DeployCatalog.DeploymentGeneratorName];
            RoundFits(r, map[DeployCatalog.DeploymentGeneratorName := o], order) &&
            CreateCount(RoundCalls(r, map[DeployCatalog.DeploymentGeneratorName := o], order)) == 5 &&
            DeleteCount(RoundCalls(r, map[DeployCatalog.DeploymentGeneratorName := o], order)) == 1
  {
    var g := Deployments(DeploymentGenerator(5));
    var r := Registered(map[], Deployments(NewDeploymentGenerator(0)));
    assert r == map[DeployCatalog.DeploymentGeneratorName := g];
    var outs := map[DeployCatalog.DeploymentGeneratorName := o];
    var order := [DeployCatalog.DeploymentGeneratorName];
    RoundStep(r, outs, [], DeployCatalog.DeploymentGeneratorName, {}, []);
    assert [] + order == order;
    assert RoundCalls(r, outs, order) == g.CycleCalls(o);
    GenerateCounts(g, o);
  }
}
