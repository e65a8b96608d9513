/**
 * The deployment events generator (deploy.go): each Generate call creates
 * `seed` mock deployments labelled gen-by=<provenance value>, each running
 * two replicas of a pod template whose labels its selector matches,
 * replays the whole deployment catalog verbatim against every deployment
 * whose create succeeded, then deletes every labelled deployment with one
 * bulk delete.
 */
module DeployGen {
  import opened Events
  import opened Cluster
  import opened CreateCycle
  import opened DeployCatalog

  /** The label key the selector and the pod template of a mock deployment share. */
  const AppKey: string := "app"

  /**
   * The mock deployment initialize creates under a drawn name: the
   * provenance label, two replicas, and a selector on app=<name> that
   * selects exactly the labels of its pod template (whose single nginx
   * container no property depends on).
   */
  function DeploymentObject(name: string): (r: Resource)
    ensures r.kind == Deployment && r.name == name
    ensures r.labels == ProvenanceLabels && Selects(ProvenanceSelector, r.labels)
    ensures r.spec.DeploymentSpec? && r.spec.replicas == 2
    ensures r.spec.matchLabels == r.spec.templateLabels == map[AppKey := name]
    ensures Selects(Selector(AppKey, name), r.spec.templateLabels)
  {
    Resource(Deployment, name, ProvenanceLabels, DeploymentSpec(2, map[AppKey := name], map[AppKey := name]))
  }

  /** The mock deployments for a sequence of drawn names, one per name. */
  function DeploymentObjects(names: seq<string>): (r: seq<Resource>)
    ensures |r| == |names|
    ensures forall i :: 0 <= i < |names| ==> r[i] == DeploymentObject(names[i])
  {
    if |names| == 0 then [] else DeploymentObjects(names[..|names| - 1]) + [DeploymentObject(names[|names| - 1])]
  }

  /**
   * NewDeploymentGenerator: the requested seed, raised to minSeed when it
   * is not above it, so every cycle attempts at least minSeed creates.
   */
  function NewDeploymentGenerator(seed: int): (g: DeploymentGenerator)
    ensures g.seed >= MinSeed && g.seed >= seed
    ensures g.seed == seed || g.seed == MinSeed
  {
    DeploymentGenerator(if seed <= MinSeed then MinSeed else seed)
  }

  /** The deployment events generator: how many deployments each cycle tries to create. */
  datatype DeploymentGenerator = DeploymentGenerator(seed: int)
  {
    /** Name(): the generator's registry key, never empty. */
    function Name(): (n: string)
      ensures |n| > 0
    {
      DeploymentGeneratorName
    }

    /** The cluster's answers fit this generator: one drawn name and one create outcome per iteration. */
    predicate Fits(o: Outcomes)
    {
      |o.names| == Iterations(seed) && |o.created| == Iterations(seed)
    }

    /** The deployments a cycle tries to create, in iteration order. */
    function Attempts(o: Outcomes): seq<Resource>
      requires Fits(o)
    {
      DeploymentObjects(o.names)
    }

    /** The API calls of one Generate call: the creates of initialize, then the delete of finalize. */
    function CycleCalls(o: Outcomes): seq<Call>
      requires Fits(o)
    {
      CreateCalls(Attempts(o)) + [DeleteCollectionCall(Deployment, ProvenanceSelector)]
    }

    /** The events one Generate call records. */
    function CycleEmissions(o: Outcomes): seq<Emission>
      requires Fits(o)
    {
      CycleLog(Attempts(o), o.created, DeploymentEvents)
    }

    /**
     * The history of one Generate call: the create loop, each create
     * followed by its replay, and then the deferred delete, after every
     * event.
     */
    function CycleSteps(o: Outcomes): seq<Step>
      requires Fits(o)
    {
      CycleHistory(Attempts(o), o.created, DeploymentEvents) + [Called(DeleteCollectionCall(Deployment, ProvenanceSelector))]
    }

    /** The namespace after one Generate call, starting from `res`. */
    function CycleResources(res: set<Resource>, o: Outcomes): set<Resource>
      requires Fits(o)
    {
      var after := res + CreatedSet(Attempts(o), o.created);
      if o.deleted then Cleaned(after, Deployment, ProvenanceSelector) else after
    }

    /**
     * initialize: `seed` iterations; each draws a name and creates a
     * labelled deployment; a failed create is skipped, a created
     * deployment gets every catalog entry recorded against it, in order,
     * messages verbatim.
     */
    method Initialize(api: Api, rec: Recorder, o: Outcomes)
      requires Fits(o)
      requires rec.history == api.history
      modifies api, rec, api.history
      ensures api.calls == old(api.calls) + CreateCalls(Attempts(o))
      ensures CreateCount(api.calls) == CreateCount(old(api.calls)) + Iterations(seed)
      ensures api.resources == old(api.resources) + CreatedSet(Attempts(o), o.created)
      ensures api.nodes == old(api.nodes)
      ensures rec.log == old(rec.log) + CycleEmissions(o)
      ensures api.history.steps == old(api.history.steps) + CycleHistory(Attempts(o), o.created, DeploymentEvents)
    {
      CreateEach(api, rec, seed, Attempts(o), o.created, DeploymentEvents);
    }

    /** finalize: one bulk delete of the labelled deployments, whatever initialize did. */
    method Finalize(api: Api, deleted: bool)
      modifies api, api.history
      ensures api.calls == old(api.calls) + [DeleteCollectionCall(Deployment, ProvenanceSelector)]
      ensures api.history.steps == old(api.history.steps) + [Called(DeleteCollectionCall(Deployment, ProvenanceSelector))]
      ensures api.resources == if deleted then Cleaned(old(api.resources), Deployment, ProvenanceSelector) else old(api.resources)
      ensures api.nodes == old(api.nodes)
    {
      var _ := api.DeleteCollection(Deployment, ProvenanceSelector, deleted);
    }

    /** Generate: initialize, then (deferred) finalize. */
    method Generate(api: Api, rec: Recorder, o: Outcomes)
      requires Fits(o)
      requires rec.history == api.history
      modifies api, rec, api.history
      ensures api.calls == old(api.calls) + CycleCalls(o)
      ensures api.resources == CycleResources(old(api.resources), o)
      ensures api.nodes == old(api.nodes)
      ensures rec.log == old(rec.log) + CycleEmissions(o)
      ensures api.history.steps == old(api.history.steps) + CycleSteps(o)
    {
      Initialize(api, rec, o);
      Finalize(api, o.deleted);
    }
  }

  // ---------------------------------------------------------------------
  // Properties of one deployment cycle
  // ---------------------------------------------------------------------

  /**
   * The order of one cycle: the history holds exactly the cycle's calls and
   * its events; its last step is the bulk delete, and every event comes
   * before it.
   */
  lemma DeploymentCycleHistory(g: DeploymentGenerator, o: Outcomes)
    requires g.Fits(o)
    ensures CallsOf(g.CycleSteps(o)) == g.CycleCalls(o)
    ensures EventsOf(g.CycleSteps(o)) == g.CycleEmissions(o)
    ensures g.CycleSteps(o)[|g.CycleSteps(o)| - 1] == Called(DeleteCollectionCall(Deployment, ProvenanceSelector))
    ensures EventsOf(g.CycleSteps(o)[..|g.CycleSteps(o)| - 1]) == g.CycleEmissions(o)
  {
    var delete := DeleteCollectionCall(Deployment, ProvenanceSelector);
    CycleHistoryProjects(g.Attempts(o), o.created, DeploymentEvents);
    ProjectionsAppend(CycleHistory(g.Attempts(o), o.created, DeploymentEvents), [Called(delete)]);
    assert CallsOf([Called(delete)]) == CallsOf([]) + [delete];
    assert EventsOf([Called(delete)]) == EventsOf([]);
    assert g.CycleSteps(o)[..|g.CycleSteps(o)| - 1] == CycleHistory(g.Attempts(o), o.created, DeploymentEvents);
  }

  /**
   * The counts of one cycle: `seed` creates, exactly one delete, which is
   * the last call, and the whole catalog once per successful create.
   */
  lemma DeploymentCycleCounts(g: DeploymentGenerator, o: Outcomes)
    requires g.Fits(o)
    ensures CreateCount(g.CycleCalls(o)) == Iterations(g.seed)
    ensures DeleteCount(g.CycleCalls(o)) == 1
    ensures g.CycleCalls(o)[|g.CycleCalls(o)| - 1] == DeleteCollectionCall(Deployment, ProvenanceSelector)
    ensures |DeploymentEvents| == 13
    ensures |g.CycleEmissions(o)| == Successes(o.created) * |DeploymentEvents|
  {
    var objs := g.Attempts(o);
    CreateCallsAt(objs);
    CountsAppend(CreateCalls(objs), [DeleteCollectionCall(Deployment, ProvenanceSelector)]);
    assert CreateCount([DeleteCollectionCall(Deployment, ProvenanceSelector)]) == 0;
    assert DeleteCount([DeleteCollectionCall(Deployment, ProvenanceSelector)]) == 1;
    CycleLogLength(objs, o.created, DeploymentEvents);
    SuccessfulMembers(objs, o.created);
  }

  /**
   * Subject-major order and verbatim replay: the events of a cycle are one
   * full copy of the catalog per created deployment, in creation order, and each
   * is a catalog entry, unchanged, against a deployment whose create succeeded.
   */
  lemma DeploymentCycleReplays(g: DeploymentGenerator, o: Outcomes)
    requires g.Fits(o)
    ensures g.CycleEmissions(o) == Blocks(Successful(g.Attempts(o), o.created), DeploymentEvents)
    ensures forall e :: e in g.CycleEmissions(o) ==>
              exists i, k :: 0 <= i < |o.names| && o.created[i] && 0 <= k < |DeploymentEvents| &&
                             e == Verbatim(ObjectRef(Deployment, o.names[i]), DeploymentEvents[k])
  {
    var objs := g.Attempts(o);
    CycleLogBlocks(objs, o.created, DeploymentEvents);
    CycleLogEntries(objs, o.created, DeploymentEvents);
  }

  /** A cycle in which every create fails records no event and leaves no deployment behind. */
  lemma AllCreatesFail(g: DeploymentGenerator, res: set<Resource>, o: Outcomes)
    requires g.Fits(o)
    requires forall i :: 0 <= i < |o.created| ==> !o.created[i]
    ensures g.CycleEmissions(o) == []
    ensures g.CycleResources(res, o) == if o.deleted then Cleaned(res, Deployment, ProvenanceSelector) else res
  {
    FailedCreatesRecordNothing(g.Attempts(o), o.created, DeploymentEvents);
  }

  /**
   * Cleanup: the deployments are created with the very label the bulk delete
   * selects, so after a successful delete no labelled deployment is left (neither
   * this cycle's nor an earlier one's) and every other resource is as it
   * was; after a failed delete the created deployments stay.
   */
  lemma DeploymentCleanup(g: DeploymentGenerator, res: set<Resource>, o: Outcomes)
    requires g.Fits(o)
    ensures o.deleted ==> g.CycleResources(res, o) == Cleaned(res, Deployment, ProvenanceSelector)
    ensures o.deleted ==> forall r :: r in g.CycleResources(res, o) ==> !(r.kind == Deployment && Selects(ProvenanceSelector, r.labels))
    ensures !o.deleted ==> g.CycleResources(res, o) == res + CreatedSet(g.Attempts(o), o.created)
  {
    CleanupAfterCycle(res, g.Attempts(o), o.created, Deployment, ProvenanceSelector);
  }

  /**
   * Every deployment a cycle leaves in the namespace before cleanup runs
   * two replicas, and its selector's labels and its pod template's labels
   * are both exactly {app: <its name>}.
   */
  lemma CreatedDeploymentsSelectTheirPods(g: DeploymentGenerator, o: Outcomes)
    requires g.Fits(o)
    ensures forall r :: r in CreatedSet(g.Attempts(o), o.created) ==>
              r.spec.DeploymentSpec? && r.spec.replicas == 2 &&
              r.spec.matchLabels == r.spec.templateLabels == map[AppKey := r.name] &&
              Selects(Selector(AppKey, r.name), r.spec.templateLabels)
  {
    SuccessfulMembers(g.Attempts(o), o.created);
    forall r | r in CreatedSet(g.Attempts(o), o.created)
      ensures r.spec.DeploymentSpec? && r.spec.replicas == 2
      ensures r.spec.matchLabels == r.spec.templateLabels == map[AppKey := r.name]
      ensures Selects(Selector(AppKey, r.name), r.spec.templateLabels)
    {
      var i :| 0 <= i < |o.names| && o.created[i] && g.Attempts(o)[i] == r;
      assert r == DeploymentObject(o.names[i]);
    }
  }
}
