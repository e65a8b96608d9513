/**
 * The pod events generator (pod.go): each Generate call creates `seed`
 * mock pods labelled gen-by=<provenance value>, replays the whole pod
 * catalog verbatim against every pod whose create succeeded, then deletes
 * every labelled pod with one bulk delete.
 */
module PodGen {
  import opened Events
  import opened Cluster
  import opened CreateCycle
  import opened PodCatalog
  import DeployCatalog

  /**
   * The mock pod initialize creates under a drawn name: the provenance
   * label, and a single nginx container that no property depends on.
   */
  function PodObject(name: string): (r: Resource)
    ensures r.kind == Pod && r.name == name
    ensures r.labels == ProvenanceLabels && Selects(ProvenanceSelector, r.labels)
  {
    Resource(Pod, name, ProvenanceLabels, PodSpec)
  }

  /** The mock pods for a sequence of drawn names, one per name. */
  function PodObjects(names: seq<string>): (r: seq<Resource>)
    ensures |r| == |names|
    ensures forall i :: 0 <= i < |names| ==> r[i] == PodObject(names[i])
    ensures forall i :: 0 <= i < |names| ==> r[i].kind == Pod && r[i].name == names[i] && Selects(ProvenanceSelector, r[i].labels)
  {
    if |names| == 0 then [] else PodObjects(names[..|names| - 1]) + [PodObject(names[|names| - 1])]
  }

  /**
   * NewPodGenerator: the requested seed, raised to minSeed when it is not
   * above it, so every cycle attempts at least minSeed creates.
   */
  function NewPodGenerator(seed: int): (g: PodGenerator)
    ensures g.seed >= DeployCatalog.MinSeed && g.seed >= seed
    ensures g.seed == seed || g.seed == DeployCatalog.MinSeed
  {
    PodGenerator(if seed <= DeployCatalog.MinSeed then DeployCatalog.MinSeed else seed)
  }

  /** The pod events generator: how many pods each cycle tries to create. */
  datatype PodGenerator = PodGenerator(seed: int)
  {
    /** Name(): the generator's registry key, never empty. */
    function Name(): (n: string)
      ensures |n| > 0
    {
      PodGeneratorName
    }

    /** The cluster's answers fit this generator: one drawn name and one create outcome per iteration. */
    predicate Fits(o: Outcomes)
    {
      |o.names| == Iterations(seed) && |o.created| == Iterations(seed)
    }

    /** The pods a cycle tries to create, in iteration order. */
    function Attempts(o: Outcomes): seq<Resource>
      requires Fits(o)
    {
      PodObjects(o.names)
    }

    /** The API calls of one Generate call: the creates of initialize, then the delete of finalize. */
    function CycleCalls(o: Outcomes): seq<Call>
      requires Fits(o)
    {
      CreateCalls(Attempts(o)) + [DeleteCollectionCall(Pod, ProvenanceSelector)]
    }

    /** The events one Generate call records. */
    function CycleEmissions(o: Outcomes): seq<Emission>
      requires Fits(o)
    {
      CycleLog(Attempts(o), o.created, PodEvents)
    }

    /**
     * The history of one Generate call: the create loop, each create
     * followed by its replay, and then the deferred delete, after every
     * event.
     */
    function CycleSteps(o: Outcomes): seq<Step>
      requires Fits(o)
    {
      CycleHistory(Attempts(o), o.created, PodEvents) + [Called(DeleteCollectionCall(Pod, ProvenanceSelector))]
    }

    /** The namespace after one Generate call, starting from `res`. */
    function CycleResources(res: set<Resource>, o: Outcomes): set<Resource>
      requires Fits(o)
    {
      var after := res + CreatedSet(Attempts(o), o.created);
      if o.deleted then Cleaned(after, Pod, ProvenanceSelector) else after
    }

    /**
     * initialize: `seed` iterations; each draws a name and creates a
     * labelled pod; a failed create is skipped, a created pod gets every
     * catalog entry recorded against it, in order, messages verbatim.
     */
    method Initialize(api: Api, rec: Recorder, o: Outcomes)
      requires Fits(o)
      requires rec.history == api.history
      modifies api, rec, api.history
      ensures api.calls == old(api.calls) + CreateCalls(Attempts(o))
      ensures CreateCount(api.calls) == CreateCount(old(api.calls)) + Iterations(seed)
      ensures api.resources == old(api.resources) + CreatedSet(Attempts(o), o.created)
      ensures api.nodes == old(api.nodes)
      ensures rec.log == old(rec.log) + CycleEmissions(o)
      ensures api.history.steps == old(api.history.steps) + CycleHistory(Attempts(o), o.created, PodEvents)
    {
      CreateEach(api, rec, seed, Attempts(o), o.created, PodEvents);
    }

    /** finalize: one bulk delete of the labelled pods, whatever initialize did. */
    method Finalize(api: Api, deleted: bool)
      modifies api, api.history
      ensures api.calls == old(api.calls) + [DeleteCollectionCall(Pod, ProvenanceSelector)]
      ensures api.history.steps == old(api.history.steps) + [Called(DeleteCollectionCall(Pod, ProvenanceSelector))]
      ensures api.resources == if deleted then Cleaned(old(api.resources), Pod, ProvenanceSelector) else old(api.resources)
      ensures api.nodes == old(api.nodes)
    {
      var _ := api.DeleteCollection(Pod, ProvenanceSelector, deleted);
    }

    /** Generate: initialize, then (deferred) finalize. */
    method Generate(api: Api, rec: Recorder, o: Outcomes)
      requires Fits(o)
      requires rec.history == api.history
      modifies api, rec, api.history
      ensures api.calls == old(api.calls) + CycleCalls(o)
      ensures api.resources == CycleResources(old(api.resources), o)
      ensures api.nodes == old(api.nodes)
      ensures rec.log == old(rec.log) + CycleEmissions(o)
      ensures api.history.steps == old(api.history.steps) + CycleSteps(o)
    {
      Initialize(api, rec, o);
      Finalize(api, o.deleted);
    }
  }

  // ---------------------------------------------------------------------
  // Properties of one pod cycle
  // ---------------------------------------------------------------------

  /**
   * The order of one cycle: the history holds exactly the cycle's calls and
   * its events; its last step is the bulk delete, and every event comes
   * before it.
   */
  lemma PodCycleHistory(g: PodGenerator, o: Outcomes)
    requires g.Fits(o)
    ensures CallsOf(g.CycleSteps(o)) == g.CycleCalls(o)
    ensures EventsOf(g.CycleSteps(o)) == g.CycleEmissions(o)
    ensures g.CycleSteps(o)[|g.CycleSteps(o)| - 1] == Called(DeleteCollectionCall(Pod, ProvenanceSelector))
    ensures EventsOf(g.CycleSteps(o)[..|g.CycleSteps(o)| - 1]) == g.CycleEmissions(o)
  {
    var delete := DeleteCollectionCall(Pod, ProvenanceSelector);
    CycleHistoryProjects(g.Attempts(o), o.created, PodEvents);
    ProjectionsAppend(CycleHistory(g.Attempts(o), o.created, PodEvents), [Called(delete)]);
    assert CallsOf([Called(delete)]) == CallsOf([]) + [delete];
    assert EventsOf([Called(delete)]) == EventsOf([]);
    assert g.CycleSteps(o)[..|g.CycleSteps(o)| - 1] == CycleHistory(g.Attempts(o), o.created, PodEvents);
  }

  /**
   * The counts of one cycle: `seed` creates, exactly one delete, which is
   * the last call, and the whole catalog once per successful create.
   */
  lemma PodCycleCounts(g: PodGenerator, o: Outcomes)
    requires g.Fits(o)
    ensures CreateCount(g.CycleCalls(o)) == Iterations(g.seed)
    ensures DeleteCount(g.CycleCalls(o)) == 1
    ensures g.CycleCalls(o)[|g.CycleCalls(o)| - 1] == DeleteCollectionCall(Pod, ProvenanceSelector)
    ensures |PodEvents| == 44
    ensures |g.CycleEmissions(o)| == Successes(o.created) * |PodEvents|
  {
    var objs := g.Attempts(o);
    CreateCallsAt(objs);
    CountsAppend(CreateCalls(objs), [DeleteCollectionCall(Pod, ProvenanceSelector)]);
    assert CreateCount([DeleteCollectionCall(Pod, ProvenanceSelector)]) == 0;
    assert DeleteCount([DeleteCollectionCall(Pod, ProvenanceSelector)]) == 1;
    CycleLogLength(objs, o.created, PodEvents);
    SuccessfulMembers(objs, o.created);
  }

  /**
   * Subject-major order and verbatim replay: the events of a cycle are one
   * full copy of the catalog per created pod, in creation order, and each
   * is a catalog entry, unchanged, against a pod whose create succeeded.
   */
  lemma PodCycleReplays(g: PodGenerator, o: Outcomes)
    requires g.Fits(o)
    ensures g.CycleEmissions(o) == Blocks(Successful(g.Attempts(o), o.created), PodEvents)
    ensures forall e :: e in g.CycleEmissions(o) ==>
              exists i, k :: 0 <= i < |o.names| && o.created[i] && 0 <= k < |PodEvents| &&
                             e == Verbatim(ObjectRef(Pod, o.names[i]), PodEvents[k])
  {
    var objs := g.Attempts(o);
    CycleLogBlocks(objs, o.created, PodEvents);
    CycleLogEntries(objs, o.created, PodEvents);
  }

  /** A cycle in which every create fails records no event and leaves no pod behind. */
  lemma AllCreatesFail(g: PodGenerator, res: set<Resource>, o: Outcomes)
    requires g.Fits(o)
    requires forall i :: 0 <= i < |o.created| ==> !o.created[i]
    ensures g.CycleEmissions(o) == []
    ensures g.CycleResources(res, o) == if o.deleted then Cleaned(res, Pod, ProvenanceSelector) else res
  {
    FailedCreatesRecordNothing(g.Attempts(o), o.created, PodEvents);
  }

  /**
   * Cleanup: the pods are created with the very label the bulk delete
   * selects, so after a successful delete no labelled pod is left (neither
   * this cycle's nor an earlier one's) and every other resource is as it
   * was; after a failed delete the created pods stay.
   */
  lemma PodCleanup(g: PodGenerator, res: set<Resource>, o: Outcomes)
    requires g.Fits(o)
    ensures o.deleted ==> g.CycleResources(res, o) == Cleaned(res, Pod, ProvenanceSelector)
    ensures o.deleted ==> forall r :: r in g.CycleResources(res, o) ==> !(r.kind == Pod && Selects(ProvenanceSelector, r.labels))
    ensures !o.deleted ==> g.CycleResources(res, o) == res + CreatedSet(g.Attempts(o), o.created)
  {
    CleanupAfterCycle(res, g.Attempts(o), o.created, Pod, ProvenanceSelector);
  }

  /** WarnAlreadyMountedVolume and FailedValidation carry "%s" (and "%d") verbs. */
  lemma FormattingVerbs()
    ensures HasPlaceholder(WarnAlreadyMountedVolumeMessage) && HasPlaceholder(FailedValidationMessage)
  {
    assert WarnAlreadyMountedVolumeMessage[44] == '%' && WarnAlreadyMountedVolumeMessage[45] == 's';
    assert PlaceholderAt(WarnAlreadyMountedVolumeMessage, 44);
    assert FailedValidationMessage[21] == '%' && FailedValidationMessage[22] == 's';
    assert PlaceholderAt(FailedValidationMessage, 21);
  }

  /**
   * Pod messages are never formatted: the catalog entries with "%s" and
   * "%d" verbs are recorded exactly as written, verbs included.
   */
  lemma PodMessagesNotFormatted(subject: ObjectRef)
    ensures HasPlaceholder(PodEvents[7].message) && HasPlaceholder(PodEvents[17].message)
    ensures |Replay(subject, PodEvents)| == |PodEvents|
    ensures Replay(subject, PodEvents)[7].message == PodEvents[7].message == WarnAlreadyMountedVolumeMessage
    ensures Replay(subject, PodEvents)[17].message == PodEvents[17].message == FailedValidationMessage
  {
    FormattingVerbs();
    PodEventsLayout();
    ReplayAt(subject, PodEvents);
  }

  /**
   * No deduplication: the catalog lists FailedScheduling / "AssumePod
   * failed" twice, and both copies are recorded against every created pod.
   */
  lemma DuplicateEntriesReplayed(subject: ObjectRef)
    ensures PodEvents[38] == PodEvents[42] == EventRecord(Warning, "FailedScheduling", FailedSchedulingMessage)
    ensures |Replay(subject, PodEvents)| == |PodEvents|
    ensures Replay(subject, PodEvents)[38] == Replay(subject, PodEvents)[42] == Verbatim(subject, PodEvents[38])
  {
    PodEventsLayout();
    ReplayAt(subject, PodEvents);
  }

  /**
   * A worked cycle: a generator asked for 3 pods makes 5 attempts; when
   * the second create fails, 4 pods get the 44-entry catalog (176 events),
   * the cluster sees 5 creates and 1 delete, and after the delete none of
   * the created pods remain.
   */
  lemma SecondCreateFails(res: set<Resource>)
    ensures var g := NewPodGenerator(3);
            var o := Outcomes(["p0", "p1", "p2", "p3", "p4"], [true, false, true, true, true], true, false);
            g.seed == 5 && g.Fits(o) &&
            CreateCount(g.CycleCalls(o)) == 5 && DeleteCount(g.CycleCalls(o)) == 1 &&
            |g.CycleEmissions(o)| == 176 &&
            g.CycleResources(res, o) == Cleaned(res, Pod, ProvenanceSelector)
  {
    var g := NewPodGenerator(3);
    var o := Outcomes(["p0", "p1", "p2", "p3", "p4"], [true, false, true, true, true], true, false);
    assert g.Fits(o);
    PodCycleCounts(g, o);
    var c := o.created;
    assert [true, false][..1] == [true];
    assert [true, false, true][..2] == [true, false];
    assert [true, false, true, true][..3] == [true, false, true];
    assert c[..4] == [true, false, true, true];
    assert Successes(c) == 4;
    PodCleanup(g, res, o);
  }
}
