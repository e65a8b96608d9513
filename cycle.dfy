/**
 * The create-and-replay protocol shared by the pod and deployment
 * generators, as specification functions over the objects a cycle tries
 * to create (one per loop iteration) and the outcome of each create:
 * every object whose create succeeds gets the whole catalog replayed
 * against it, in order, before the next create is attempted; an object
 * whose create fails is skipped.
 */
module CreateCycle {
  import opened Events
  import opened Cluster

  /** How many times `for i := 0; i < seed; i++` runs. */
  function Iterations(seed: int): nat
  {
    if seed < 0 then 0 else seed
  }

  /** The reference events are recorded against for a created resource. */
  function RefOf(r: Resource): ObjectRef
  {
    ObjectRef(r.kind, r.name)
  }

  /** The number of successful creates. */
  function Successes(created: seq<bool>): nat
  {
    if |created| == 0 then 0
    else Successes(created[..|created| - 1]) + (if created[|created| - 1] then 1 else 0)
  }

  /** The objects whose create succeeded, in attempt order. */
  function Successful(objs: seq<Resource>, created: seq<bool>): seq<Resource>
    requires |objs| == |created|
  {
    if |objs| == 0 then []
    else
      Successful(objs[..|objs| - 1], created[..|created| - 1])
      + (if created[|created| - 1] then [objs[|objs| - 1]] else [])
  }

  /** The events a cycle records: the catalog replayed against each successful object in turn. */
  function CycleLog(objs: seq<Resource>, created: seq<bool>, catalog: seq<EventRecord>): seq<Emission>
    requires |objs| == |created|
  {
    if |objs| == 0 then []
    else
      CycleLog(objs[..|objs| - 1], created[..|created| - 1], catalog)
      + (if created[|created| - 1] then Replay(RefOf(objs[|objs| - 1]), catalog) else [])
  }

  /** The create calls a cycle makes: one per iteration, successful or not. */
  function CreateCalls(objs: seq<Resource>): seq<Call>
  {
    if |objs| == 0 then []
    else CreateCalls(objs[..|objs| - 1]) + [CreateCall(objs[|objs| - 1].kind, objs[|objs| - 1].name)]
  }

  /**
   * One iteration as the history sees it: the create call, followed at once
   * by the whole replay against the object when the create succeeded.
   */
  function Attempt(obj: Resource, ok: bool, catalog: seq<EventRecord>): seq<Step>
  {
    [Called(CreateCall(obj.kind, obj.name))] + (if ok then Records(Replay(RefOf(obj), catalog)) else [])
  }

  /** The history of a cycle: its iterations, one after the other, in loop order. */
  function CycleHistory(objs: seq<Resource>, created: seq<bool>, catalog: seq<EventRecord>): seq<Step>
    requires |objs| == |created|
  {
    if |objs| == 0 then []
    else CycleHistory(objs[..|objs| - 1], created[..|created| - 1], catalog) + Attempt(objs[|objs| - 1], created[|created| - 1], catalog)
  }

  /** The resources a cycle adds to the namespace. */
  function CreatedSet(objs: seq<Resource>, created: seq<bool>): set<Resource>
    requires |objs| == |created|
  {
    if |objs| == 0 then {}
    else
      CreatedSet(objs[..|objs| - 1], created[..|created| - 1])
      + (if created[|created| - 1] then {objs[|objs| - 1]} else {})
  }

  // ---------------------------------------------------------------------
  // Properties of one cycle
  // ---------------------------------------------------------------------

  /**
   * The successful objects are exactly the objects of the iterations whose
   * create succeeded, and there are as many of them as successes.
   */
  lemma {:induction false} SuccessfulMembers(objs: seq<Resource>, created: seq<bool>)
    requires |objs| == |created|
    ensures |Successful(objs, created)| == Successes(created)
    ensures forall o :: o in Successful(objs, created) <==> exists i :: 0 <= i < |objs| && created[i] && objs[i] == o
    ensures CreatedSet(objs, created) == set o | o in Successful(objs, created)
  {
    if |objs| > 0 {
      var n := |objs| - 1;
      SuccessfulMembers(objs[..n], created[..n]);
      forall o | o in Successful(objs, created)
        ensures exists i :: 0 <= i < |objs| && created[i] && objs[i] == o
      {
        if o in Successful(objs[..n], created[..n]) {
          var i :| 0 <= i < n && created[..n][i] && objs[..n][i] == o;
          assert created[i] && objs[i] == o;
        } else {
          assert created[n] && objs[n] == o;
        }
      }
      forall o | exists i :: 0 <= i < |objs| && created[i] && objs[i] == o
        ensures o in Successful(objs, created)
      {
        var i :| 0 <= i < |objs| && created[i] && objs[i] == o;
        if i < n {
          assert created[..n][i] && objs[..n][i] == o;
        }
      }
    }
  }

  /** A cycle makes one create call per iteration, for that iteration's object. */
  lemma {:induction false} CreateCallsAt(objs: seq<Resource>)
    ensures |CreateCalls(objs)| == |objs|
    ensures forall i :: 0 <= i < |objs| ==> CreateCalls(objs)[i] == CreateCall(objs[i].kind, objs[i].name)
    ensures CreateCount(CreateCalls(objs)) == |objs| && DeleteCount(CreateCalls(objs)) == 0
  {
    if |objs| > 0 {
      var n := |objs| - 1;
      CreateCallsAt(objs[..n]);
      assert CreateCalls(objs)[..n] == CreateCalls(objs[..n]);
    }
  }

  /** One more iteration of the create loop extends the calls, the created set and the log by that iteration's. */
  lemma CycleStep(objs: seq<Resource>, created: seq<bool>, catalog: seq<EventRecord>, i: nat)
    requires |objs| == |created| && i < |objs|
    ensures CreateCalls(objs[..i + 1]) == CreateCalls(objs[..i]) + [CreateCall(objs[i].kind, objs[i].name)]
    ensures CreatedSet(objs[..i + 1], created[..i + 1]) ==
              CreatedSet(objs[..i], created[..i]) + (if created[i] then {objs[i]} else {})
    ensures CycleLog(objs[..i + 1], created[..i + 1], catalog) ==
              CycleLog(objs[..i], created[..i], catalog) + (if created[i] then Replay(RefOf(objs[i]), catalog) else [])
    ensures CycleHistory(objs[..i + 1], created[..i + 1], catalog) ==
              CycleHistory(objs[..i], created[..i], catalog) + Attempt(objs[i], created[i], catalog)
  {
    assert objs[..i + 1][..i] == objs[..i];
    assert created[..i + 1][..i] == created[..i];
  }

  /** Appending a cycle's creates to a call log adds one create per object and no delete. */
  lemma CreateCallsCount(calls: seq<Call>, objs: seq<Resource>)
    ensures CreateCount(calls + CreateCalls(objs)) == CreateCount(calls) + |objs|
    ensures DeleteCount(calls + CreateCalls(objs)) == DeleteCount(calls)
  {
    CreateCallsAt(objs);
    CountsAppend(calls, CreateCalls(objs));
  }

  /** A cycle records one full catalog per successful create. */
  lemma {:induction false} CycleLogLength(objs: seq<Resource>, created: seq<bool>, catalog: seq<EventRecord>)
    requires |objs| == |created|
    ensures |CycleLog(objs, created, catalog)| == |Successful(objs, created)| * |catalog|
  {
    if |objs| > 0 {
      var n := |objs| - 1;
      CycleLogLength(objs[..n], created[..n], catalog);
      ReplayAt(RefOf(objs[n]), catalog);
      NextRow(|Successful(objs[..n], created[..n])|, |catalog|);
    }
  }

  /**
   * The history of a cycle agrees with both logs: its calls are the
   * cycle's create calls and its events are the cycle's log. So the
   * history orders the same calls and events, and each replay sits between
   * its own create and the next one.
   */
  lemma {:induction false} CycleHistoryProjects(objs: seq<Resource>, created: seq<bool>, catalog: seq<EventRecord>)
    requires |objs| == |created|
    ensures CallsOf(CycleHistory(objs, created, catalog)) == CreateCalls(objs)
    ensures EventsOf(CycleHistory(objs, created, catalog)) == CycleLog(objs, created, catalog)
  {
    if |objs| > 0 {
      var n := |objs| - 1;
      CycleHistoryProjects(objs[..n], created[..n], catalog);
      AttemptProjects(objs[n], created[n], catalog);
      ProjectionsAppend(CycleHistory(objs[..n], created[..n], catalog), Attempt(objs[n], created[n], catalog));
    }
  }

  /** One iteration's history holds its create call and, when the create succeeded, the replay's events. */
  lemma AttemptProjects(obj: Resource, ok: bool, catalog: seq<EventRecord>)
    ensures CallsOf(Attempt(obj, ok, catalog)) == [CreateCall(obj.kind, obj.name)]
    ensures EventsOf(Attempt(obj, ok, catalog)) == if ok then Replay(RefOf(obj), catalog) else []
  {
    var call := [Called(CreateCall(obj.kind, obj.name))];
    var replay := if ok then Replay(RefOf(obj), catalog) else [];
    assert Attempt(obj, ok, catalog) == call + Records(replay);
    RecordsProject(replay);
    assert CallsOf(call) == CallsOf([]) + [CreateCall(obj.kind, obj.name)];
    assert EventsOf(call) == EventsOf([]);
    ProjectionsAppend(call, Records(replay));
  }

  /**
   * The full replays of a catalog against a list of subjects, one after
   * the other, defined from the front of the list.
   */
  function Blocks(subjects: seq<Resource>, catalog: seq<EventRecord>): seq<Emission>
  {
    if |subjects| == 0 then []
    else Replay(RefOf(subjects[0]), catalog) + Blocks(subjects[1..], catalog)
  }

  lemma {:induction false} BlocksSnoc(subjects: seq<Resource>, last: Resource, catalog: seq<EventRecord>)
    ensures Blocks(subjects + [last], catalog) == Blocks(subjects, catalog) + Replay(RefOf(last), catalog)
  {
    if |subjects| == 0 {
      assert [last][1..] == [];
    } else {
      assert (subjects + [last])[1..] == subjects[1..] + [last];
      BlocksSnoc(subjects[1..], last, catalog);
    }
  }

  /**
   * Subject-major order: the log of a cycle is one full catalog replay per
   * successful object, in attempt order, with nothing in between.
   */
  lemma {:induction false} CycleLogBlocks(objs: seq<Resource>, created: seq<bool>, catalog: seq<EventRecord>)
    requires |objs| == |created|
    ensures CycleLog(objs, created, catalog) == Blocks(Successful(objs, created), catalog)
  {
    if |objs| > 0 {
      var n := |objs| - 1;
      CycleLogBlocks(objs[..n], created[..n], catalog);
      if created[n] {
        BlocksSnoc(Successful(objs[..n], created[..n]), objs[n], catalog);
      } else {
        assert Successful(objs[..n], created[..n]) + [] == Successful(objs[..n], created[..n]);
        assert Successful(objs, created) == Successful(objs[..n], created[..n]);
        assert CycleLog(objs[..n], created[..n], catalog) + [] == CycleLog(objs[..n], created[..n], catalog);
      }
    }
  }

  /**
   * Every event of a cycle is a catalog entry, recorded verbatim against an
   * object whose create succeeded.
   */
  lemma {:induction false} CycleLogEntries(objs: seq<Resource>, created: seq<bool>, catalog: seq<EventRecord>)
    requires |objs| == |created|
    ensures forall e :: e in CycleLog(objs, created, catalog) ==>
              exists i, k :: 0 <= i < |objs| && created[i] && 0 <= k < |catalog| && e == Verbatim(RefOf(objs[i]), catalog[k])
  {
    if |objs| > 0 {
      var n := |objs| - 1;
      CycleLogEntries(objs[..n], created[..n], catalog);
      ReplayAt(RefOf(objs[n]), catalog);
      forall e | e in CycleLog(objs, created, catalog)
        ensures exists i, k :: 0 <= i < |objs| && created[i] && 0 <= k < |catalog| && e == Verbatim(RefOf(objs[i]), catalog[k])
      {
        if e in CycleLog(objs[..n], created[..n], catalog) {
          var i, k :| 0 <= i < n && created[..n][i] && 0 <= k < |catalog| && e == Verbatim(RefOf(objs[..n][i]), catalog[k]);
          assert created[i] && objs[i] == objs[..n][i];
        } else {
          assert created[n] && e in Replay(RefOf(objs[n]), catalog);
          var k :| 0 <= k < |catalog| && Replay(RefOf(objs[n]), catalog)[k] == e;
          assert e == Verbatim(RefOf(objs[n]), catalog[k]);
        }
      }
    }
  }

  /**
   * A failed create adds no events: appending a failed iteration leaves the
   * log as it was, and a cycle in which every create fails records nothing.
   */
  lemma {:induction false} FailedCreatesRecordNothing(objs: seq<Resource>, created: seq<bool>, catalog: seq<EventRecord>)
    requires |objs| == |created|
    requires forall i :: 0 <= i < |created| ==> !created[i]
    ensures CycleLog(objs, created, catalog) == []
    ensures CreatedSet(objs, created) == {}
  {
    if |objs| > 0 {
      var n := |objs| - 1;
      FailedCreatesRecordNothing(objs[..n], created[..n], catalog);
    }
  }

  /**
   * Cleanup is total: when every object a cycle tries to create has `kind`
   * and carries the label `sel` selects, a successful DeleteCollection(kind,
   * sel) after the cycle leaves exactly what the same delete would have left
   * before it, so none of the cycle's resources (and no other selected
   * resource of that kind) survive, and everything else is untouched.
   */
  lemma CleanupAfterCycle(res: set<Resource>, objs: seq<Resource>, created: seq<bool>, kind: Kind, sel: Selector)
    requires |objs| == |created|
    requires forall i :: 0 <= i < |objs| ==> objs[i].kind == kind && Selects(sel, objs[i].labels)
    ensures Cleaned(res + CreatedSet(objs, created), kind, sel) == Cleaned(res, kind, sel)
    ensures forall r :: r in Cleaned(res + CreatedSet(objs, created), kind, sel) ==> !(r.kind == kind && Selects(sel, r.labels))
  {
    SuccessfulMembers(objs, created);
    forall r | r in CreatedSet(objs, created)
      ensures r.kind == kind && Selects(sel, r.labels)
    {
      var i :| 0 <= i < |objs| && created[i] && objs[i] == r;
    }
  }

  // ---------------------------------------------------------------------
  // The create loop of initialize, shared by the pod and deployment
  // generators
  // ---------------------------------------------------------------------

  /** The inner loop: record every catalog entry, verbatim and in order, against one subject. */
  method ReplayAll(rec: Recorder, subject: ObjectRef, catalog: seq<EventRecord>)
    modifies rec, rec.history
    ensures rec.log == old(rec.log) + Replay(subject, catalog)
    ensures rec.history.steps == old(rec.history.steps) + Records(Replay(subject, catalog))
  {
    for k := 0 to |catalog|
      invariant rec.log == old(rec.log) + Replay(subject, catalog[..k])
      invariant rec.history.steps == old(rec.history.steps) + Records(Replay(subject, catalog[..k]))
    {
      var event := catalog[k];
      rec.Event(subject, event.severity, event.reason, event.message);
      assert catalog[..k + 1][..k] == catalog[..k];
      assert Replay(subject, catalog[..k + 1]) == Replay(subject, catalog[..k]) + [Verbatim(subject, event)];
      RecordsSnoc(Replay(subject, catalog[..k]), Verbatim(subject, event));
    }
    assert catalog[..|catalog|] == catalog;
  }

  /**
   * One iteration of the loop of initialize: create the object; when the
   * create fails, go on to the next iteration (continue); otherwise replay
   * the whole catalog against the object the API handed back.
   */
  method CreateAndReplay(api: Api, rec: Recorder, obj: Resource, ok: bool, catalog: seq<EventRecord>)
    requires rec.history == api.history
    modifies api, rec, api.history
    ensures api.calls == old(api.calls) + [CreateCall(obj.kind, obj.name)]
    ensures api.resources == if ok then old(api.resources) + {obj} else old(api.resources)
    ensures api.nodes == old(api.nodes)
    ensures rec.log == old(rec.log) + (if ok then Replay(RefOf(obj), catalog) else [])
    ensures api.history.steps == old(api.history.steps) + Attempt(obj, ok, catalog)
  {
    var created := api.Create(obj, ok);
    if created.None? {
      return;
    }
    ReplayAll(rec, RefOf(created.value), catalog);
    Associative(old(api.history.steps), [Called(CreateCall(obj.kind, obj.name))], Records(Replay(RefOf(obj), catalog)));
  }

  /**
   * The loop of initialize, `for i := 0; i < seed; i++`: iteration i
   * creates objs[i]; a failed create is skipped (continue), and the object
   * returned by a successful create has the whole catalog replayed against
   * it before the next create, as the history states. So the loop makes
   * exactly Iterations(seed) creates.
   */
  method CreateEach(api: Api, rec: Recorder, seed: int, objs: seq<Resource>, created: seq<bool>, catalog: seq<EventRecord>)
    requires |objs| == Iterations(seed) && |created| == Iterations(seed)
    requires rec.history == api.history
    modifies api, rec, api.history
    ensures api.calls == old(api.calls) + CreateCalls(objs)
    ensures CreateCount(api.calls) == CreateCount(old(api.calls)) + Iterations(seed)
    ensures DeleteCount(api.calls) == DeleteCount(old(api.calls))
    ensures api.resources == old(api.resources) + CreatedSet(objs, created)
    ensures api.nodes == old(api.nodes)
    ensures rec.log == old(rec.log) + CycleLog(objs, created, catalog)
    ensures api.history.steps == old(api.history.steps) + CycleHistory(objs, created, catalog)
  {
    for i := 0 to Iterations(seed)
      invariant api.calls == old(api.calls) + CreateCalls(objs[..i])
      invariant api.resources == old(api.resources) + CreatedSet(objs[..i], created[..i])
      invariant api.nodes == old(api.nodes)
      invariant rec.log == old(rec.log) + CycleLog(objs[..i], created[..i], catalog)
      invariant api.history.steps == old(api.history.steps) + CycleHistory(objs[..i], created[..i], catalog)
    {
      CycleStep(objs, created, catalog, i);
      Associative(old(api.calls), CreateCalls(objs[..i]), [CreateCall(objs[i].kind, objs[i].name)]);
      Associative(old(rec.log), CycleLog(objs[..i], created[..i], catalog), if created[i] then Replay(RefOf(objs[i]), catalog) else []);
      Associative(old(api.history.steps), CycleHistory(objs[..i], created[..i], catalog), Attempt(objs[i], created[i], catalog));
      CreateAndReplay(api, rec, objs[i], created[i], catalog);
    }
    assert objs[..|objs|] == objs;
    assert created[..|created|] == created;
    CreateCallsCount(old(api.calls), objs);
  }
}
