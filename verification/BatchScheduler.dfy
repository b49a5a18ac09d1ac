/** Running a batch of prepared tool calls with bounded concurrency
    (roboagent/tool/executor.py:216-341, 1253-1262). */
module BatchScheduler {
  import opened Basics
  import opened ExecutionFacts

  datatype ToolResult = ToolResult(callId: string, name: string, failed: bool)

  datatype RunError = RunError(code: string)

  /** How the task of a call settles: it returns, it raises one of the batch errors with the effects it
      collected, or it is cancelled before it could say anything. */
  datatype Settlement =
    | Returned(result: ToolResult, effects: seq<Effect>)
    | Aborts(reason: RunError, effects: seq<Effect>)
    | IsCancelled(effects: seq<Effect>)
    | Interrupted
  {
    function Effects(): seq<Effect> {
      if Interrupted? then [] else effects
    }

    /** What gathering the task after a failure still tells. The batch's own cancellation is a cancellation, so a
        task that raises it ends cancelled, and gathering puts a plain cancellation in its place: what it
        collected is gone (roboagent/tool/executor.py:121, 325-329). */
    function Kept(): seq<Effect> {
      if IsCancelled? || Interrupted? then [] else effects
    }
  }

  /** What preparing a call comes to. */
  datatype Preparation =
    | Ready
    | Refused(result: ToolResult)
    | PreparationAborts(reason: RunError)
    | PreparationCancelled

  datatype Exit =
    | Completed(results: seq<ToolResult>, effects: seq<Effect>)
    | BatchAborted(reason: RunError, effects: seq<Effect>)
    | BatchCancelled(effects: seq<Effect>)
    | BatchInterrupted

  /** Where the task of a call stands: not started, running, seen to return, seen to fail, or gathered
      after the batch gave up. */
  datatype Phase = Idle | Running | Finished | Failing | Gathered

  /** The effects of the calls in one phase, each as often as its task returned it. */
  function EffectsIn(settles: seq<Settlement>, phases: seq<Phase>, phase: Phase): multiset<Effect>
    requires |settles| == |phases|
    decreases |phases|
  {
    if phases == [] then multiset{}
    else
      var last := |phases| - 1;
      EffectsIn(settles[..last], phases[..last], phase)
      + (if phases[last] == phase then multiset(settles[last].Effects()) else multiset{})
  }

  /** The effects of all the calls that were started. */
  function EffectsOfStarted(settles: seq<Settlement>, phases: seq<Phase>): multiset<Effect>
    requires |settles| == |phases|
    decreases |phases|
  {
    if phases == [] then multiset{}
    else
      var last := |phases| - 1;
      EffectsOfStarted(settles[..last], phases[..last])
      + (if phases[last].Idle? then multiset{} else multiset(settles[last].Effects()))
  }

  lemma {:induction false} StartedByPhase(settles: seq<Settlement>, phases: seq<Phase>)
    requires |settles| == |phases|
    ensures EffectsOfStarted(settles, phases)
         == EffectsIn(settles, phases, Running) + EffectsIn(settles, phases, Finished)
          + EffectsIn(settles, phases, Failing) + EffectsIn(settles, phases, Gathered)
  {
    if phases != [] {
      StartedByPhase(settles[..|phases| - 1], phases[..|phases| - 1]);
    }
  }

  lemma {:induction false} NoneIn(settles: seq<Settlement>, phases: seq<Phase>, phase: Phase)
    requires |settles| == |phases| && forall i | 0 <= i < |phases| :: phases[i] != phase
    ensures EffectsIn(settles, phases, phase) == multiset{}
  {
    if phases != [] {
      NoneIn(settles[..|phases| - 1], phases[..|phases| - 1], phase);
    }
  }

  lemma {:induction false} OnlyOneIn(settles: seq<Settlement>, phases: seq<Phase>, phase: Phase, id: int)
    requires |settles| == |phases| && 0 <= id < |phases|
    requires forall i | 0 <= i < |phases| :: phases[i] == phase <==> i == id
    ensures EffectsIn(settles, phases, phase) == multiset(settles[id].Effects())
  {
    var last := |phases| - 1;
    if id < last {
      OnlyOneIn(settles[..last], phases[..last], phase, id);
    } else {
      NoneIn(settles[..last], phases[..last], phase);
    }
  }

  /** Of the effects of the calls in one phase, what gathering keeps, and what it drops. */
  function KeptIn(settles: seq<Settlement>, phases: seq<Phase>, phase: Phase): multiset<Effect>
    requires |settles| == |phases|
    decreases |phases|
  {
    if phases == [] then multiset{}
    else
      var last := |phases| - 1;
      KeptIn(settles[..last], phases[..last], phase)
      + (if phases[last] == phase then multiset(settles[last].Kept()) else multiset{})
  }

  function DroppedIn(settles: seq<Settlement>, phases: seq<Phase>, phase: Phase): multiset<Effect>
    requires |settles| == |phases|
    decreases |phases|
  {
    if phases == [] then multiset{}
    else
      var last := |phases| - 1;
      DroppedIn(settles[..last], phases[..last], phase)
      + (if phases[last] == phase && settles[last].IsCancelled? then multiset(settles[last].effects) else multiset{})
  }

  lemma {:induction false} KeptOrDropped(settles: seq<Settlement>, phases: seq<Phase>, phase: Phase)
    requires |settles| == |phases|
    ensures EffectsIn(settles, phases, phase) == KeptIn(settles, phases, phase) + DroppedIn(settles, phases, phase)
  {
    if phases != [] {
      KeptOrDropped(settles[..|phases| - 1], phases[..|phases| - 1], phase);
    }
  }

  /** Gathering drops something exactly when it meets a cancelled task with effects. */
  lemma {:induction false} GatheringDrops(settles: seq<Settlement>, phases: seq<Phase>, phase: Phase)
    requires |settles| == |phases|
    ensures DroppedIn(settles, phases, phase) == multiset{}
       <==> forall i | 0 <= i < |phases| && phases[i] == phase && settles[i].IsCancelled? :: settles[i].effects == []
  {
    if phases != [] {
      var last := |phases| - 1;
      GatheringDrops(settles[..last], phases[..last], phase);
      assert forall i | 0 <= i < last :: phases[..last][i] == phases[i] && settles[..last][i] == settles[i];
      if settles[last].IsCancelled? {
        assert |multiset(settles[last].effects)| == |settles[last].effects|;
      }
    }
  }

  lemma {:induction false} NoneKept(settles: seq<Settlement>, phases: seq<Phase>, phase: Phase)
    requires |settles| == |phases| && forall i | 0 <= i < |phases| :: phases[i] != phase
    ensures KeptIn(settles, phases, phase) == multiset{}
  {
    if phases != [] {
      NoneKept(settles[..|phases| - 1], phases[..|phases| - 1], phase);
    }
  }

  lemma Summed(a: seq<Effect>, b: seq<Effect>, c: seq<Effect>)
    ensures multiset(a + b + c) == multiset(a) + multiset(b) + multiset(c)
  {
  }

  lemma PartOf(whole: multiset<Effect>, carried: multiset<Effect>, lost: multiset<Effect>)
    requires whole == carried + lost
    ensures carried <= whole && (carried == whole <==> lost == multiset{})
  {
    assert |whole| == |carried| + |lost|;
  }

  lemma {:induction false} SameKept(settles: seq<Settlement>, before: seq<Phase>, later: seq<Phase>,
                                    was: Phase, now: Phase)
    requires |settles| == |before| == |later|
    requires forall i | 0 <= i < |before| :: before[i] == was <==> later[i] == now
    ensures KeptIn(settles, before, was) == KeptIn(settles, later, now)
  {
    if before != [] {
      var last := |before| - 1;
      SameKept(settles[..last], before[..last], later[..last], was, now);
    }
  }

  /** What gathering the running tasks yields, in the order of their calls. */
  function GatheredEffects(settles: seq<Settlement>, phases: seq<Phase>): (gathered: seq<Effect>)
    requires |settles| == |phases|
    ensures multiset(gathered) == KeptIn(settles, phases, Running)
    decreases |phases|
  {
    if phases == [] then []
    else
      var last := |phases| - 1;
      GatheredEffects(settles[..last], phases[..last]) + (if phases[last].Running? then settles[last].Kept() else [])
  }

  lemma GatherNext(settles: seq<Settlement>, phases: seq<Phase>, id: int)
    requires |settles| == |phases| && 0 <= id < |phases|
    ensures GatheredEffects(settles[..id + 1], phases[..id + 1]) ==
      GatheredEffects(settles[..id], phases[..id]) + (if phases[id].Running? then settles[id].Kept() else [])
  {
    assert settles[..id + 1][..id] == settles[..id] && phases[..id + 1][..id] == phases[..id];
  }

  /** The started effects depend on nothing but which calls were started. */
  lemma {:induction false} StartedStay(settles: seq<Settlement>, phases: seq<Phase>, later: seq<Phase>)
    requires |settles| == |phases| == |later|
    requires forall i | 0 <= i < |phases| :: phases[i].Idle? <==> later[i].Idle?
    ensures EffectsOfStarted(settles, phases) == EffectsOfStarted(settles, later)
  {
    if phases != [] {
      StartedStay(settles[..|phases| - 1], phases[..|phases| - 1], later[..|phases| - 1]);
    }
  }

  lemma {:induction false} SameIn(settles: seq<Settlement>, phases: seq<Phase>, later: seq<Phase>, phase: Phase)
    requires |settles| == |phases| == |later|
    requires forall i | 0 <= i < |phases| :: phases[i] == phase <==> later[i] == phase
    ensures EffectsIn(settles, phases, phase) == EffectsIn(settles, later, phase)
  {
    if phases != [] {
      SameIn(settles[..|phases| - 1], phases[..|phases| - 1], later[..|phases| - 1], phase);
    }
  }

  /** How many tasks are running. */
  function Live(phases: seq<Phase>): nat
    decreases |phases|
  {
    if phases == [] then 0
    else Live(phases[..|phases| - 1]) + (if phases[|phases| - 1].Running? then 1 else 0)
  }

  lemma {:induction false} LiveMoves(phases: seq<Phase>, id: int, to: Phase)
    requires 0 <= id < |phases|
    ensures Live(phases[id := to]) ==
      Live(phases) - (if phases[id].Running? then 1 else 0) + (if to.Running? then 1 else 0)
  {
    var last := |phases| - 1;
    if id < last {
      LiveMoves(phases[..last], id, to);
      assert phases[id := to][..last] == phases[..last][id := to];
    } else {
      assert phases[id := to][..last] == phases[..last];
    }
  }

  lemma {:induction false} SomeLive(phases: seq<Phase>) returns (id: int)
    requires Live(phases) > 0
    ensures 0 <= id < |phases| && phases[id].Running?
  {
    if phases[|phases| - 1].Running? {
      id := |phases| - 1;
    } else {
      id := SomeLive(phases[..|phases| - 1]);
    }
  }

  lemma {:induction false} RunningIsLive(phases: seq<Phase>, id: int)
    requires 0 <= id < |phases| && phases[id].Running?
    ensures Live(phases) > 0
  {
    if id < |phases| - 1 {
      RunningIsLive(phases[..|phases| - 1], id);
    }
  }

  lemma {:induction false} NoneLive(phases: seq<Phase>)
    requires forall i | 0 <= i < |phases| :: !phases[i].Running?
    ensures Live(phases) == 0
  {
    if phases != [] {
      NoneLive(phases[..|phases| - 1]);
    }
  }

  /** The effects lists, joined in call order; calls without a list add nothing. */
  function FlattenEffects(lists: seq<Option<seq<Effect>>>): seq<Effect>
    decreases |lists|
  {
    if lists == [] then []
    else
      var last := |lists| - 1;
      FlattenEffects(lists[..last]) + (if lists[last].Some? then lists[last].value else [])
  }

  /** Call order of the results that are there. */
  function PresentResults(results: seq<Option<ToolResult>>): seq<ToolResult>
    decreases |results|
  {
    if results == [] then []
    else
      var last := |results| - 1;
      PresentResults(results[..last]) + (if results[last].Some? then [results[last].value] else [])
  }

  function Listed(list: Option<seq<Effect>>): seq<Effect> {
    if list.Some? then list.value else []
  }

  /** Lists kept for the finished calls hold exactly what those calls returned. */
  lemma {:induction false} FlattenCounts(lists: seq<Option<seq<Effect>>>, settles: seq<Settlement>, phases: seq<Phase>)
    requires |lists| == |settles| == |phases|
    requires forall i | 0 <= i < |lists| :: Listed(lists[i]) == if phases[i].Finished? then settles[i].Effects() else []
    ensures multiset(FlattenEffects(lists)) == EffectsIn(settles, phases, Finished)
  {
    if lists != [] {
      FlattenCounts(lists[..|lists| - 1], settles[..|lists| - 1], phases[..|lists| - 1]);
    }
  }

  // ---- Which calls get a task.

  /** The calls whose preparation left something to run, in call order. */
  function ReadyCalls(preparations: seq<Preparation>): seq<int>
    decreases |preparations|
  {
    if preparations == [] then []
    else
      var last := |preparations| - 1;
      ReadyCalls(preparations[..last]) + (if preparations[last].Ready? then [last] else [])
  }

  predicate Ascending(s: seq<int>) {
    forall i, j | 0 <= i < j < |s| :: s[i] < s[j]
  }

  lemma {:induction false} ReadyCallsInOrder(preparations: seq<Preparation>)
    ensures var ready := ReadyCalls(preparations);
      && Ascending(ready)
      && (forall k | 0 <= k < |ready| :: 0 <= ready[k] < |preparations|)
      && (forall id: int :: id in ready <==> 0 <= id < |preparations| && preparations[id].Ready?)
  {
    if preparations != [] {
      var last := |preparations| - 1;
      var before := preparations[..last];
      ReadyCallsInOrder(before);
      forall id: int ensures id in ReadyCalls(preparations) <==> 0 <= id < |preparations| && preparations[id].Ready? {
        if 0 <= id < last {
          assert before[id] == preparations[id];
        }
      }
    }
  }

  /** The effects of all prepared calls, in call order. */
  function CallEffects(preparations: seq<Preparation>, settles: seq<Settlement>): seq<Effect>
    requires |preparations| == |settles|
    decreases |preparations|
  {
    if preparations == [] then []
    else
      var last := |preparations| - 1;
      CallEffects(preparations[..last], settles[..last])
      + (if preparations[last].Ready? then settles[last].Effects() else [])
  }

  lemma {:induction false} FlattenInOrder(lists: seq<Option<seq<Effect>>>, preparations: seq<Preparation>,
                                          settles: seq<Settlement>)
    requires |lists| == |preparations| == |settles|
    requires forall i | 0 <= i < |lists| ::
      Listed(lists[i]) == if preparations[i].Ready? then settles[i].Effects() else []
    ensures FlattenEffects(lists) == CallEffects(preparations, settles)
  {
    if lists != [] {
      FlattenInOrder(lists[..|lists| - 1], preparations[..|lists| - 1], settles[..|lists| - 1]);
    }
  }

  predicate CanRun(preparations: seq<Preparation>) {
    forall i | 0 <= i < |preparations| :: preparations[i].Ready? || preparations[i].Refused?
  }

  lemma {:induction false} AllPresent(results: seq<Option<ToolResult>>)
    requires forall i | 0 <= i < |results| :: results[i].Some?
    ensures |PresentResults(results)| == |results|
    ensures forall i | 0 <= i < |results| :: PresentResults(results)[i] == results[i].value
  {
    if results != [] {
      AllPresent(results[..|results| - 1]);
    }
  }

  // ---- Which batches can lose effects.

  predicate IsOutstanding(phase: Phase) {
    phase.Running? || phase.Failing? || phase.Gathered?
  }

  /** How many started tasks have not been seen to return. */
  function Outstanding(phases: seq<Phase>): nat
    decreases |phases|
  {
    if phases == [] then 0
    else Outstanding(phases[..|phases| - 1]) + (if IsOutstanding(phases[|phases| - 1]) then 1 else 0)
  }

  lemma {:induction false} LiveIsOutstanding(before: seq<Phase>, later: seq<Phase>)
    requires |before| == |later| && forall i | 0 <= i < |before| :: before[i].Running? <==> IsOutstanding(later[i])
    ensures Live(before) == Outstanding(later)
  {
    if before != [] {
      LiveIsOutstanding(before[..|before| - 1], later[..|later| - 1]);
    }
  }

  lemma {:induction false} OutstandingBelow(phases: seq<Phase>, n: nat)
    requires n < |phases| && IsOutstanding(phases[n])
    ensures Outstanding(phases[..n]) < Outstanding(phases)
  {
    var last := |phases| - 1;
    if n < last {
      OutstandingBelow(phases[..last], n);
      assert phases[..last][..n] == phases[..n];
    }
  }

  /** Of the first `n` calls, those that never return to the batch, and the calls `i` and `j`. */
  function Held(preparations: seq<Preparation>, settles: seq<Settlement>, i: int, j: int, n: nat): nat
    requires n <= |preparations| == |settles|
  {
    if n == 0 then 0
    else
      var k := n - 1;
      Held(preparations, settles, i, j, k)
      + (if preparations[k].Ready? && (k == i || k == j || !settles[k].Returned?) then 1 else 0)
  }

  function Later(i: int, j: int): int {
    if i <= j then j else i
  }

  /** Call `i` says it is cancelled while call `j`, perhaps itself, has effects the batch has not seen: both can be
      under way together, as the calls before them that never return leave room. */
  predicate Loses(preparations: seq<Preparation>, settles: seq<Settlement>, maxConcurrency: nat, i: int, j: int)
    requires |preparations| == |settles|
  {
    && 0 <= i < |settles| && 0 <= j < |settles| && preparations[i].Ready? && preparations[j].Ready?
    && settles[i].IsCancelled? && settles[j].Effects() != []
    && Held(preparations, settles, i, j, Later(i, j)) < maxConcurrency
  }

  predicate CanLose(preparations: seq<Preparation>, settles: seq<Settlement>, maxConcurrency: nat)
    requires |preparations| == |settles|
  {
    exists i, j | 0 <= i < |settles| && 0 <= j < |settles| :: Loses(preparations, settles, maxConcurrency, i, j)
  }

  /** No call starts before an earlier one that is ready to run. */
  predicate StartedInOrder(preparations: seq<Preparation>, phases: seq<Phase>)
    requires |preparations| == |phases|
  {
    forall a, b | 0 <= a < b < |phases| && preparations[a].Ready? && !phases[b].Idle? :: !phases[a].Idle?
  }

  /** Only calls that return are seen to return, and only ready ones start. */
  predicate Proper(preparations: seq<Preparation>, settles: seq<Settlement>, phases: seq<Phase>)
    requires |preparations| == |settles| == |phases|
  {
    forall k | 0 <= k < |phases| ::
      (phases[k].Finished? ==> settles[k].Returned?) && (!preparations[k].Ready? ==> phases[k].Idle?)
  }

  lemma {:induction false} HeldAreOutstanding(preparations: seq<Preparation>, settles: seq<Settlement>,
                                              phases: seq<Phase>, i: int, j: int, n: nat)
    requires n <= |preparations| == |settles| == |phases|
    requires forall k | 0 <= k < n && preparations[k].Ready? && (k == i || k == j || !settles[k].Returned?) ::
      IsOutstanding(phases[k])
    ensures Held(preparations, settles, i, j, n) <= Outstanding(phases[..n])
  {
    if n > 0 {
      HeldAreOutstanding(preparations, settles, phases, i, j, n - 1);
      assert phases[..n][..n - 1] == phases[..n - 1];
    }
  }

  /** Two outstanding calls, one of them cancelled, the other with effects: the batch can lose. */
  lemma OutstandingLoses(preparations: seq<Preparation>, settles: seq<Settlement>, phases: seq<Phase>,
                         maxConcurrency: nat, i: int, j: int)
    requires |preparations| == |settles| == |phases| && 0 <= i < |phases| && 0 <= j < |phases|
    requires Proper(preparations, settles, phases) && StartedInOrder(preparations, phases)
    requires Outstanding(phases) <= maxConcurrency && IsOutstanding(phases[i]) && IsOutstanding(phases[j])
    requires settles[i].IsCancelled? && settles[j].Effects() != []
    ensures Loses(preparations, settles, maxConcurrency, i, j)
  {
    HeldAreOutstanding(preparations, settles, phases, i, j, Later(i, j));
    OutstandingBelow(phases, Later(i, j));
  }

  /** What an exit carries of the calls that were started: what had returned; unless the failing task itself was
      cancelled, also what that task raised and what gathering kept. */
  function CarriedEffects(settles: seq<Settlement>, phases: seq<Phase>, failing: Option<int>): multiset<Effect>
    requires |settles| == |phases| && (failing.Some? ==> 0 <= failing.value < |settles|)
  {
    var returned := EffectsIn(settles, phases, Finished);
    if failing.None? then returned + KeptIn(settles, phases, Gathered)
    else if settles[failing.value].IsCancelled? then returned
    else returned + multiset(settles[failing.value].Effects()) + KeptIn(settles, phases, Gathered)
  }

  predicate WhollyCarried(settles: seq<Settlement>, phases: seq<Phase>, failing: Option<int>)
    requires |settles| == |phases| && (failing.Some? ==> 0 <= failing.value < |settles|)
  {
    if failing.Some? && settles[failing.value].IsCancelled? then
      forall i | 0 <= i < |phases| && (phases[i].Failing? || phases[i].Gathered?) :: settles[i].Effects() == []
    else
      forall i | 0 <= i < |phases| && phases[i].Gathered? && settles[i].IsCancelled? :: settles[i].effects == []
  }

  /** Only the task that ended the batch, if any, is seen to fail. */
  predicate FailingIs(phases: seq<Phase>, failing: Option<int>) {
    && (failing.Some? ==> 0 <= failing.value < |phases|)
    && forall i | 0 <= i < |phases| :: !phases[i].Running? && (phases[i].Failing? <==> failing == Some(i))
  }

  /** What an exit carries is never more than what the started tasks had, and it is all of it exactly when no
      gathered task was cancelled with effects; after a failing task's own cancellation, exactly when neither it
      nor any gathered task had effects. */
  lemma CarriedIsComplete(settles: seq<Settlement>, phases: seq<Phase>, failing: Option<int>)
    requires |settles| == |phases| && FailingIs(phases, failing)
    ensures CarriedEffects(settles, phases, failing) <= EffectsOfStarted(settles, phases)
    ensures CarriedEffects(settles, phases, failing) == EffectsOfStarted(settles, phases)
       <==> WhollyCarried(settles, phases, failing)
  {
    if failing.Some? && settles[failing.value].IsCancelled? {
      StartedByPhase(settles, phases);
      NoneIn(settles, phases, Running);
      CancelledBatchIsComplete(settles, phases);
    } else {
      CarriedOrDropped(settles, phases, failing);
      GatheringDrops(settles, phases, Gathered);
      PartOf(EffectsOfStarted(settles, phases), CarriedEffects(settles, phases, failing),
             DroppedIn(settles, phases, Gathered));
    }
  }

  lemma CarriedOrDropped(settles: seq<Settlement>, phases: seq<Phase>, failing: Option<int>)
    requires |settles| == |phases| && FailingIs(phases, failing)
    requires failing.Some? ==> !settles[failing.value].IsCancelled?
    ensures EffectsOfStarted(settles, phases) ==
      CarriedEffects(settles, phases, failing) + DroppedIn(settles, phases, Gathered)
  {
    StartedByPhase(settles, phases);
    NoneIn(settles, phases, Running);
    KeptOrDropped(settles, phases, Gathered);
    if failing.Some? {
      OnlyOneIn(settles, phases, Failing, failing.value);
    } else {
      NoneIn(settles, phases, Failing);
    }
  }

  /** A batch that cannot lose carries everything, whichever way it ends. */
  lemma NothingLost(preparations: seq<Preparation>, settles: seq<Settlement>, phases: seq<Phase>,
                    maxConcurrency: nat, failing: Option<int>)
    requires |preparations| == |settles| == |phases| && FailingIs(phases, failing)
    requires Proper(preparations, settles, phases) && StartedInOrder(preparations, phases)
    requires Outstanding(phases) <= maxConcurrency && !CanLose(preparations, settles, maxConcurrency)
    ensures CarriedEffects(settles, phases, failing) == EffectsOfStarted(settles, phases)
  {
    var own := failing.Some? && settles[failing.value].IsCancelled?;
    forall j | 0 <= j < |phases| && (phases[j].Failing? || phases[j].Gathered?) && (own || settles[j].IsCancelled?)
      ensures settles[j].Effects() == []
    {
      if settles[j].Effects() != [] {
        OutstandingLoses(preparations, settles, phases, maxConcurrency, if own then failing.value else j, j);
      }
    }
    CarriedIsComplete(settles, phases, failing);
  }

  // ---- The batch.

  /** What is noted about a call: nothing, its refusal, or what its task returned. */
  predicate Noted(preparation: Preparation, settlement: Settlement, result: Option<ToolResult>,
                  effects: Option<seq<Effect>>, phase: Phase) {
    && (!preparation.Ready? ==> phase.Idle?)
    && if preparation.Refused? then result == Some(preparation.result) && effects == Some([])
       else if phase.Finished? then
         settlement.Returned? && result == Some(settlement.result) && effects == Some(settlement.effects)
       else result == None && effects == None
  }

  /** Every running task has been gathered. */
  predicate GivenUp(phases: seq<Phase>, later: seq<Phase>) {
    && |phases| == |later|
    && forall i | 0 <= i < |phases| :: later[i] == if phases[i].Running? then Gathered else phases[i]
  }

  /** Tasks are started in call order, each once: the started calls are the first of the prepared ones. */
  predicate InOrder(prepared: seq<int>, nextIndex: nat, phases: seq<Phase>) {
    && nextIndex <= |prepared| && Ascending(prepared)
    && (forall k | 0 <= k < |prepared| :: 0 <= prepared[k] < |phases|)
    && (forall k | 0 <= k < |prepared| :: phases[prepared[k]].Idle? <==> nextIndex <= k)
  }

  /** Tasks that were not started may run now; nothing else changes. */
  predicate OnlyStarts(before: seq<Phase>, after: seq<Phase>) {
    |after| == |before| && forall k | 0 <= k < |before| ::
      after[k] == before[k] || (before[k].Idle? && after[k].Running?)
  }

  class Batch {
    const preparations: seq<Preparation>
    /** How the task of each call settles in this run, whenever it is let or made to. */
    const settles: seq<Settlement>
    const maxConcurrency: nat
    var results: seq<Option<ToolResult>>
    var effects: seq<Option<seq<Effect>>>
    var prepared: seq<int>
    var nextIndex: nat
    var phases: seq<Phase>
    var closed: set<int>
    /** The starts, in order, and the largest number of tasks that ran at a time. */
    ghost var started: seq<int>
    ghost var peak: nat

    constructor (preparations: seq<Preparation>, settles: seq<Settlement>, maxConcurrency: nat)
      requires |settles| == |preparations| && maxConcurrency > 0
      ensures this.preparations == preparations && this.settles == settles && this.maxConcurrency == maxConcurrency
      ensures Fresh()
    {
      this.preparations, this.settles, this.maxConcurrency := preparations, settles, maxConcurrency;
      results, effects := seq(|preparations|, _ => None), seq(|preparations|, _ => None);
      phases := seq(|preparations|, _ => Idle);
      prepared, nextIndex, closed, started, peak := [], 0, {}, [], 0;
    }

    ghost predicate Fresh()
      reads this
    {
      && maxConcurrency > 0 && |settles| == |results| == |effects| == |phases| == |preparations|
      && (forall i | 0 <= i < |results| :: results[i] == None && effects[i] == None && phases[i].Idle?)
      && prepared == [] && nextIndex == 0 && closed == {} && started == [] && peak == 0
    }

    /** Refusals and returned results are noted at the place of their call. */
    ghost predicate Slots()
      reads this`results, this`effects, this`phases
    {
      && |settles| == |results| == |effects| == |phases| == |preparations|
      && forall i | 0 <= i < |preparations| :: Noted(preparations[i], settles[i], results[i], effects[i], phases[i])
    }

    /** Never more tasks run at a time than allowed. */
    ghost predicate Schedule()
      reads this`prepared, this`nextIndex, this`phases, this`started, this`peak
    {
      && maxConcurrency > 0 && InOrder(prepared, nextIndex, phases)
      && started == prepared[..nextIndex] && Live(phases) <= peak <= maxConcurrency
    }

    /** No task has been seen to fail. */
    ghost predicate Sound()
      reads this`phases
    {
      forall i | 0 <= i < |phases| :: !phases[i].Failing? && !phases[i].Gathered?
    }

    ghost predicate Valid()
      reads this
    {
      && Slots() && Schedule() && Sound() && CanRun(preparations) && prepared == ReadyCalls(preparations)
      && forall i | 0 <= i < |preparations| && (preparations[i].Refused? || phases[i].Finished?) :: i in closed
    }

    ghost predicate AllClosed()
      reads this`closed
    {
      forall i | 0 <= i < |preparations| :: i in closed
    }

    /** What is left when the batch gave up: no more was outstanding than may run at a time, and the calls had
        been started in order. */
    ghost predicate Stopped()
      requires |preparations| == |phases|
      reads this`phases
    {
      Outstanding(phases) <= maxConcurrency && StartedInOrder(preparations, phases)
    }

    lemma SlotsAreProper()
      requires Slots()
      ensures Proper(preparations, settles, phases)
    {
      forall k | 0 <= k < |phases|
        ensures (phases[k].Finished? ==> settles[k].Returned?) && (!preparations[k].Ready? ==> phases[k].Idle?)
      {
        assert Noted(preparations[k], settles[k], results[k], effects[k], phases[k]);
      }
    }

    lemma StartsAreOrdered()
      requires Valid()
      ensures StartedInOrder(preparations, phases)
    {
      SlotsAreProper();
      ReadyCallsInOrder(preparations);
      forall a, b | 0 <= a < b < |phases| && preparations[a].Ready? && !phases[b].Idle? ensures !phases[a].Idle? {
        assert a in prepared && b in prepared;
        var ka :| 0 <= ka < |prepared| && prepared[ka] == a;
        var kb :| 0 <= kb < |prepared| && prepared[kb] == b;
        assert !phases[prepared[kb]].Idle?;
        if kb < ka {
          assert false;
        }
      }
    }

    /** Every call is prepared before any runs; a failing preparation closes every call scope. */
    method Prepare() returns (failure: Option<Exit>)
      requires Fresh()
      modifies this`results, this`effects, this`prepared, this`closed
      ensures failure.None? ==> Valid() && Live(phases) == 0
      ensures failure.None? <==> CanRun(preparations)
      ensures failure.Some? ==> AllClosed() && (failure.value.BatchAborted? || failure.value.BatchInterrupted?)
      ensures failure.Some? && failure.value.BatchAborted? ==> failure.value.effects == []
    {
      for i := 0 to |preparations|
        invariant RefusalsNoted(i) && prepared == ReadyCalls(preparations[..i]) && CanRun(preparations[..i])
      {
        assert preparations[..i + 1][..i] == preparations[..i];
        match preparations[i]
        case Ready =>
          prepared := prepared + [i];
        case Refused(result) =>
          results, effects := results[i := Some(result)], effects[i := Some([])];
          closed := closed + {i};
        case PreparationAborts(reason) =>
          CloseAll();
          return Some(BatchAborted(reason, []));
        case PreparationCancelled =>
          CloseAll();
          return Some(BatchInterrupted);
      }
      assert preparations[..|preparations|] == preparations;
      AllPrepared();
      return None;
    }

    /** Of the first `n` calls the refused ones are noted and closed. */
    ghost predicate RefusalsNoted(n: int)
      reads this`results, this`effects, this`closed
    {
      && |settles| == |results| == |effects| == |preparations|
      && forall k | 0 <= k < |preparations| ::
           if k < n && preparations[k].Refused?
           then results[k] == Some(preparations[k].result) && effects[k] == Some([]) && k in closed
           else results[k] == None && effects[k] == None
    }

    lemma AllPrepared()
      requires RefusalsNoted(|preparations|) && CanRun(preparations) && prepared == ReadyCalls(preparations)
      requires |phases| == |preparations| && forall i | 0 <= i < |phases| :: phases[i].Idle?
      requires maxConcurrency > 0 && nextIndex == 0 && started == [] && peak == 0
      ensures Valid() && Live(phases) == 0
    {
      ReadyCallsInOrder(preparations);
      NoneLive(phases);
    }

    /** _abort_unprocessed from the first call on: closing a scope that is closed already does nothing. */
    method CloseAll()
      modifies this`closed
      ensures AllClosed()
    {
      for i := 0 to |preparations|
        invariant forall k | 0 <= k < i :: k in closed
      {
        closed := closed + {i};
      }
    }

    /** Starts tasks in call order while there is room. */
    method Fill()
      requires Valid()
      modifies this`phases, this`nextIndex, this`started, this`peak
      ensures Valid()
      ensures nextIndex == |prepared| || Live(phases) == maxConcurrency
      ensures nextIndex >= old(nextIndex) && nextIndex - old(nextIndex) == Live(phases) - Live(old(phases))
      ensures OnlyStarts(old(phases), phases)
    {
      while nextIndex < |prepared| && Live(phases) < maxConcurrency
        invariant Valid()
        invariant nextIndex >= old(nextIndex) && nextIndex - old(nextIndex) == Live(phases) - Live(old(phases))
        invariant OnlyStarts(old(phases), phases)
        decreases |prepared| - nextIndex
      {
        StartNext();
      }
    }

    method StartNext()
      requires Valid() && nextIndex < |prepared| && Live(phases) < maxConcurrency
      modifies this`phases, this`nextIndex, this`started, this`peak
      ensures Valid() && nextIndex == old(nextIndex) + 1 && Live(phases) == Live(old(phases)) + 1
      ensures OnlyStarts(old(phases), phases)
      ensures peak == if Live(phases) > old(peak) then Live(phases) else old(peak)
    {
      var id := prepared[nextIndex];
      LiveMoves(phases, id, Running);
      StartedNext(prepared, nextIndex, phases);
      IsReady(preparations, id);
      phases := phases[id := Running];
      started := started + [id];
      peak := if Live(phases) > peak then Live(phases) else peak;
      nextIndex := nextIndex + 1;
    }

    /** Waits for the first completions; a cancellation of the batch itself ends the wait instead. */
    method AwaitAny() returns (done: seq<int>, interrupted: bool)
      requires Live(phases) > 0
      ensures !interrupted ==> done != []
      ensures forall k | 0 <= k < |done| :: 0 <= done[k] < |phases| && phases[done[k]].Running?
      ensures forall j, k | 0 <= j < k < |done| :: done[j] != done[k]
    {
      if * {
        return [], true;
      }
      ghost var some := SomeLive(phases);
      done := [];
      for id := 0 to |phases|
        invariant forall k | 0 <= k < |done| :: 0 <= done[k] < id && phases[done[k]].Running?
        invariant forall j, k | 0 <= j < k < |done| :: done[j] != done[k]
      {
        if phases[id].Running? {
          if * {
            done := done + [id];
          }
        }
      }
      if done == [] {
        var id :| 0 <= id < |phases| && phases[id].Running?;
        done := [id];
      }
      return done, false;
    }

    /** The lists kept so far hold exactly the effects of the finished calls. */
    lemma ListedEffects()
      requires Slots()
      ensures multiset(FlattenEffects(effects)) == EffectsIn(settles, phases, Finished)
    {
      forall i | 0 <= i < |effects|
        ensures Listed(effects[i]) == if phases[i].Finished? then settles[i].Effects() else []
      {
        assert Noted(preparations[i], settles[i], results[i], effects[i], phases[i]);
      }
      FlattenCounts(effects, settles, phases);
    }

    /** Cancels what still runs and gathers it: the effects of every task that returns or aborts all the same; a
        task that settles as cancelled says nothing any more. */
    method CancelTasks() returns (cancelled: seq<Effect>)
      requires Slots()
      modifies this`phases
      ensures Slots() && GivenUp(old(phases), phases)
      ensures cancelled == GatheredEffects(settles, old(phases))
    {
      cancelled := [];
      for id := 0 to |phases|
        invariant phases == old(phases) && cancelled == GatheredEffects(settles[..id], phases[..id])
      {
        GatherNext(settles, phases, id);
        if phases[id].Running? {
          cancelled := cancelled + settles[id].Kept();
        }
      }
      assert settles[..|settles|] == settles && phases[..|settles|] == phases;
      ClearRunning();
    }

    method ClearRunning()
      requires Slots()
      modifies this`phases
      ensures Slots() && GivenUp(old(phases), phases)
    {
      var before := phases;
      phases := seq(|before|, i requires 0 <= i < |before| => if before[i].Running? then Gathered else before[i]);
      forall i | 0 <= i < |preparations| ensures Noted(preparations[i], settles[i], results[i], effects[i], phases[i]) {
        assert Noted(preparations[i], settles[i], results[i], effects[i], before[i]);
      }
    }

    /** What an exit says and carries. */
    ghost predicate Carries(exit: Exit, failing: Option<int>)
      requires |settles| == |phases|
      reads this`phases
    {
      && FailingIs(phases, failing)
      && match exit
         case BatchAborted(reason, carried) =>
           && failing.Some? && settles[failing.value].Aborts? && settles[failing.value].reason == reason
           && multiset(carried) == CarriedEffects(settles, phases, failing)
         case BatchCancelled(carried) =>
           && (failing.Some? ==> settles[failing.value].IsCancelled? || settles[failing.value].Interrupted?)
           && multiset(carried) == CarriedEffects(settles, phases, failing)
         case _ => false
    }

    /** Nothing runs any more, and every call scope is closed. */
    ghost predicate Over()
      reads this
    {
      Slots() && AllClosed() && forall i | 0 <= i < |phases| :: !phases[i].Running?
    }

    /** The handler around the whole loop: whatever still runs is cancelled and gathered. */
    method HandleCancellation() returns (exit: Exit)
      requires Slots()
      modifies this`phases, this`closed
      ensures Over() && GivenUp(old(phases), phases)
      ensures exit.BatchCancelled? && multiset(exit.effects) ==
        EffectsIn(settles, old(phases), Finished) + KeptIn(settles, old(phases), Running)
    {
      ListedEffects();
      var cancelled := CancelTasks();
      CloseAll();
      return BatchCancelled(FlattenEffects(effects) + cancelled);
    }

    /** Notes the result of a task that returned. */
    method Record(id: int)
      requires Valid() && 0 <= id < |phases| && phases[id].Running? && settles[id].Returned?
      modifies this`results, this`effects, this`closed, this`phases
      ensures Valid() && phases == old(phases)[id := Finished] && Live(phases) == Live(old(phases)) - 1
    {
      assert Noted(preparations[id], settles[id], results[id], effects[id], phases[id]);
      LiveMoves(phases, id, Finished);
      results := results[id := Some(settles[id].result)];
      effects := effects[id := Some(settles[id].effects)];
      closed := closed + {id};
      phases := phases[id := Finished];
    }

    /** The task of `id` has failed and been taken off the running ones. */
    method EndBatch(id: int) returns (exit: Exit)
      requires Slots() && OneFailing(phases, id) && !settles[id].Returned?
      modifies this`closed, this`phases
      ensures Over() && Carries(exit, Some(id)) && GivenUp(old(phases), phases)
    {
      match settles[id]
      case Aborts(_, _) => exit := EndAborted(id);
      case IsCancelled(_) => exit := EndCancelled(id);
      case Interrupted =>
        exit := HandleCancellation();
        GivenUpKeeps(settles, old(phases), phases);
    }

    method EndAborted(id: int) returns (exit: Exit)
      requires Slots() && OneFailing(phases, id) && settles[id].Aborts?
      modifies this`closed, this`phases
      ensures Over() && Carries(exit, Some(id)) && GivenUp(old(phases), phases)
    {
      ListedEffects();
      var cancelled := CancelTasks();
      CloseAll();
      GivenUpKeeps(settles, old(phases), phases);
      Summed(FlattenEffects(effects), settles[id].effects, cancelled);
      return BatchAborted(settles[id].reason, FlattenEffects(effects) + settles[id].effects + cancelled);
    }

    /** The exception raised by the inner handler is itself a cancellation, so the handler around the loop
        catches it and builds its own from what is left: the lists, and the effects of no task at all. */
    method EndCancelled(id: int) returns (exit: Exit)
      requires Slots() && OneFailing(phases, id) && settles[id].IsCancelled?
      modifies this`closed, this`phases
      ensures Over() && Carries(exit, Some(id)) && GivenUp(old(phases), phases)
    {
      var lost := CancelTasks();
      CloseAll();
      label Inner:
      SameIn(settles, old(phases), phases, Finished);
      NoneKept(settles, phases, Running);
      exit := HandleCancellation();
      SameIn(settles, old@Inner(phases), phases, Finished);
    }

    /** One finished task: note its result, or end the batch. */
    method SettleTask(id: int) returns (exit: Option<Exit>)
      requires Valid() && 0 <= id < |phases| && phases[id].Running?
      modifies this`results, this`effects, this`closed, this`phases
      ensures exit.None? <==> settles[id].Returned?
      ensures exit.None? ==> Valid() && phases == old(phases)[id := Finished] && Live(phases) == Live(old(phases)) - 1
      ensures exit.Some? ==> Over() && Carries(exit.value, Some(id)) && GivenUp(old(phases)[id := Failing], phases)
      ensures exit.Some? ==> Stopped() && phases[id].Failing? && !settles[id].Returned?
    {
      if settles[id].Returned? {
        Record(id);
        return None;
      }
      assert Noted(preparations[id], settles[id], results[id], effects[id], phases[id]);
      StartsAreOrdered();
      phases := phases[id := Failing];
      var ended := EndBatch(id);
      LiveIsOutstanding(old(phases), phases);
      return Some(ended);
    }

    /** The tasks that finished together are settled one after the other. */
    method SettleAll(done: seq<int>) returns (exit: Option<Exit>, failing: Option<int>)
      requires Valid() && done != []
      requires forall k | 0 <= k < |done| :: 0 <= done[k] < |phases| && phases[done[k]].Running?
      requires forall j, k | 0 <= j < k < |done| :: done[j] != done[k]
      modifies this`results, this`effects, this`closed, this`phases
      ensures exit.None? ==> Valid() && Live(phases) < Live(old(phases))
      ensures exit.Some? ==> Over() && Carries(exit.value, failing) && failing.Some? && Stopped()
    {
      for i := 0 to |done|
        invariant Valid() && Live(phases) == Live(old(phases)) - i && |phases| == |old(phases)|
        invariant forall k | i <= k < |done| :: phases[done[k]].Running?
      {
        exit := SettleTask(done[i]);
        if exit.Some? {
          return exit, Some(done[i]);
        }
      }
      return None, None;
    }

    /** Runs the tasks to the end, or to the first failure. */
    method RunTasks() returns (exit: Exit, failing: Option<int>)
      requires Valid() && nextIndex == 0 && Live(phases) == 0
      modifies this`results, this`effects, this`closed, this`phases, this`nextIndex, this`started, this`peak
      ensures Over() && started <= prepared && peak <= maxConcurrency
      ensures exit.Completed? ==>
        && Valid() && nextIndex == |prepared| && Live(phases) == 0 && failing == None
        && exit == Completed(PresentResults(results), FlattenEffects(effects))
      ensures !exit.Completed? ==> Carries(exit, failing) && Stopped()
    {
      Fill();
      while Live(phases) > 0
        invariant Valid()
        invariant Live(phases) == 0 ==> nextIndex == |prepared|
        decreases |prepared| - nextIndex + Live(phases)
      {
        var ended;
        ended, failing := Round();
        if ended.Some? {
          return ended.value, failing;
        }
      }
      AllDone();
      return Completed(PresentResults(results), FlattenEffects(effects)), None;
    }

    /** One wait: the tasks that finished are settled and others take their places, or the batch ends. */
    method Round() returns (ended: Option<Exit>, failing: Option<int>)
      requires Valid() && Live(phases) > 0
      modifies this`results, this`effects, this`closed, this`phases, this`nextIndex, this`started, this`peak
      ensures ended.None? ==>
        && Valid() && (Live(phases) == 0 ==> nextIndex == |prepared|) && nextIndex >= old(nextIndex)
        && |prepared| - nextIndex + Live(phases) < |prepared| - old(nextIndex) + Live(old(phases))
      ensures ended.Some? ==>
        && Over() && started <= prepared && peak <= maxConcurrency && !ended.value.Completed?
        && Carries(ended.value, failing) && Stopped()
    {
      var done, interrupted := AwaitAny();
      if interrupted {
        var exit := Interrupt();
        return Some(exit), None;
      }
      ended, failing := SettleAll(done);
      if ended.None? {
        Fill();
      }
    }

    /** The batch itself is cancelled while it waits. */
    method Interrupt() returns (exit: Exit)
      requires Valid()
      modifies this`closed, this`phases
      ensures Over() && Carries(exit, None) && Stopped()
    {
      StartsAreOrdered();
      exit := HandleCancellation();
      LiveIsOutstanding(old(phases), phases);
      GivenUpKeeps(settles, old(phases), phases);
    }

    lemma AllDone()
      requires Valid() && Live(phases) == 0 && nextIndex == |prepared|
      ensures Over() && forall i | 0 <= i < |phases| && preparations[i].Ready? :: phases[i].Finished?
    {
      ReadyCallsInOrder(preparations);
      forall i | 0 <= i < |phases| ensures !phases[i].Running? {
        if phases[i].Running? {
          RunningIsLive(phases, i);
        }
      }
      forall i | 0 <= i < |phases| && preparations[i].Ready? ensures phases[i].Finished? {
        var k :| 0 <= k < |prepared| && prepared[k] == i;
        assert !phases[prepared[k]].Idle?;
      }
      forall i | 0 <= i < |preparations| ensures i in closed {
        assert preparations[i].Ready? || preparations[i].Refused?;
      }
    }

    /** A whole concurrent batch. However the tasks interleave and settle: the starts are the prepared calls
        in call order, each at most once; every call scope is closed and nothing runs any more at the end;
        a normal return gives the result and the effects of every call in call order; any other exit carries
        what had returned, what the failing task raised unless that was its own cancellation, and what gathering
        kept. That is everything exactly when no gathered task was cancelled with effects, and after a task's own
        cancellation when neither it nor a gathered task had any; and it is everything whatever the order of
        completion if the calls are such that the batch cannot lose. */
    method Execute() returns (exit: Exit, failing: Option<int>)
      requires Fresh()
      modifies this
      ensures AllClosed() && |phases| == |settles| == |preparations|
      ensures forall i | 0 <= i < |phases| :: !phases[i].Running?
      ensures started <= ReadyCalls(preparations) && peak <= maxConcurrency
      ensures !CanRun(preparations) ==> started == [] && !exit.Completed? && !exit.BatchCancelled?
      ensures exit.Completed? ==>
        && |exit.results| == |preparations|
        && (forall i | 0 <= i < |preparations| ::
              if preparations[i].Refused? then exit.results[i] == preparations[i].result
              else preparations[i].Ready? && settles[i].Returned? && exit.results[i] == settles[i].result)
        && exit.effects == CallEffects(preparations, settles) && started == ReadyCalls(preparations)
      ensures CanRun(preparations) && !exit.Completed? ==>
        && (exit.BatchAborted? || exit.BatchCancelled?) && Carries(exit, failing)
        && (failing.Some? ==> preparations[failing.value].Ready? && !settles[failing.value].Returned?)
        && Proper(preparations, settles, phases)
        && multiset(exit.effects) <= EffectsOfStarted(settles, phases)
        && (multiset(exit.effects) == EffectsOfStarted(settles, phases) <==> WhollyCarried(settles, phases, failing))
        && (!CanLose(preparations, settles, maxConcurrency) ==>
              multiset(exit.effects) == EffectsOfStarted(settles, phases))
        && (failing.Some? && settles[failing.value].IsCancelled? && settles[failing.value].Effects() != [] ==>
              multiset(exit.effects) < EffectsOfStarted(settles, phases))
    {
      var failure := Prepare();
      if failure.Some? {
        return failure.value, None;
      }
      exit, failing := RunTasks();
      if exit.Completed? {
        AllDone();
        assert prepared[..|prepared|] == prepared;
        AllPresent(results);
        forall i | 0 <= i < |preparations|
          ensures Noted(preparations[i], settles[i], results[i], effects[i], phases[i])
        {
        }
        FlattenInOrder(effects, preparations, settles);
      } else {
        SlotsAreProper();
        CarriedIsComplete(settles, phases, failing);
        if !CanLose(preparations, settles, maxConcurrency) {
          NothingLost(preparations, settles, phases, maxConcurrency, failing);
        }
      }
    }

    /** Whenever the calls are such that the batch can lose, it does lose in this run: tasks are seen to return
        until calls `i` and `j` are both under way, and then `i` is seen to be cancelled. */
    method Lose(i: int, j: int) returns (exit: Exit)
      requires Fresh() && CanRun(preparations) && Loses(preparations, settles, maxConcurrency, i, j)
      modifies this
      ensures |phases| == |settles|
      ensures exit.BatchCancelled? && multiset(exit.effects) < EffectsOfStarted(settles, phases)
    {
      var failure := Prepare();
      Fill();
      BothUnderWay(i, j);
      exit := LoseNow(i, j);
    }

    method BothUnderWay(i: int, j: int)
      requires Valid() && Loses(preparations, settles, maxConcurrency, i, j)
      requires nextIndex == |prepared| || Live(phases) == maxConcurrency
      requires !phases[i].Finished? && !phases[j].Finished?
      modifies this`results, this`effects, this`closed, this`phases, this`nextIndex, this`started, this`peak
      ensures Valid() && phases[i].Running? && phases[j].Running?
    {
      while phases[Later(i, j)].Idle?
        invariant Valid() && !phases[i].Finished? && !phases[j].Finished?
        invariant nextIndex == |prepared| || Live(phases) == maxConcurrency
        decreases |prepared| - nextIndex + Live(phases)
      {
        var id := Spare(i, j);
        var ended := SettleTask(id);
        Fill();
      }
      StartsAreOrdered();
    }

    /** Both calls are under way, and the first is seen to be cancelled. */
    method LoseNow(i: int, j: int) returns (exit: Exit)
      requires Valid() && 0 <= i < |phases| && 0 <= j < |phases| && phases[i].Running? && phases[j].Running?
      requires settles[i].IsCancelled? && settles[j].Effects() != []
      modifies this`results, this`effects, this`closed, this`phases
      ensures |phases| == |settles|
      ensures exit.BatchCancelled? && multiset(exit.effects) < EffectsOfStarted(settles, phases)
    {
      var ended := SettleTask(i);
      exit := ended.value;
      assert phases[j].Failing? || phases[j].Gathered?;
      CancelledBatchIsComplete(settles, phases);
      StartedByPhase(settles, phases);
    }

    /** While the later of the two calls waits for room, some other task can be seen to return. */
    method Spare(i: int, j: int) returns (id: int)
      requires Valid() && Loses(preparations, settles, maxConcurrency, i, j) && phases[Later(i, j)].Idle?
      requires nextIndex == |prepared| || Live(phases) == maxConcurrency
      ensures 0 <= id < |phases| && phases[id].Running? && settles[id].Returned? && id != i && id != j
    {
      SomeSpare(i, j);
      id :| 0 <= id < |phases| && phases[id].Running? && settles[id].Returned? && id != i && id != j;
    }

    lemma SomeSpare(i: int, j: int)
      requires Valid() && Loses(preparations, settles, maxConcurrency, i, j) && phases[Later(i, j)].Idle?
      requires nextIndex == |prepared| || Live(phases) == maxConcurrency
      ensures exists id | 0 <= id < |phases| :: phases[id].Running? && settles[id].Returned? && id != i && id != j
    {
      var last := Later(i, j);
      ReadyCallsInOrder(preparations);
      var k :| 0 <= k < |prepared| && prepared[k] == last;
      assert nextIndex <= k;
      StartsAreOrdered();
      SlotsAreProper();
      if forall id | 0 <= id < |phases| && phases[id].Running? :: !settles[id].Returned? || id == i || id == j {
        LiveAreHeld(preparations, settles, phases, i, j, last);
        LiveBelow(phases, last);
      }
    }
  }

  lemma {:induction false} LiveAreHeld(preparations: seq<Preparation>, settles: seq<Settlement>, phases: seq<Phase>,
                                       i: int, j: int, n: nat)
    requires n <= |preparations| == |settles| == |phases|
    requires forall k | 0 <= k < n && phases[k].Running? ::
      preparations[k].Ready? && (k == i || k == j || !settles[k].Returned?)
    ensures Live(phases[..n]) <= Held(preparations, settles, i, j, n)
  {
    if n > 0 {
      LiveAreHeld(preparations, settles, phases, i, j, n - 1);
      assert phases[..n][..n - 1] == phases[..n - 1];
    }
  }

  lemma {:induction false} LiveBelow(phases: seq<Phase>, n: nat)
    requires n <= |phases| && forall k | n <= k < |phases| :: !phases[k].Running?
    ensures Live(phases) == Live(phases[..n])
  {
    if n < |phases| {
      var last := |phases| - 1;
      LiveBelow(phases[..last], n);
      assert phases[..last][..n] == phases[..n];
    } else {
      assert phases[..n] == phases;
    }
  }

  predicate OneFailing(phases: seq<Phase>, id: int) {
    && 0 <= id < |phases|
    && forall i | 0 <= i < |phases| :: !phases[i].Gathered? && (phases[i].Failing? <==> i == id)
  }

  /** Giving up moves what gathering keeps from the running tasks to the gathered ones; nothing else moves. */
  lemma GivenUpKeeps(settles: seq<Settlement>, before: seq<Phase>, later: seq<Phase>)
    requires |settles| == |before| && GivenUp(before, later)
    requires forall i | 0 <= i < |before| :: !before[i].Gathered?
    ensures KeptIn(settles, later, Gathered) == KeptIn(settles, before, Running)
    ensures EffectsIn(settles, later, Finished) == EffectsIn(settles, before, Finished)
  {
    SameKept(settles, before, later, Running, Gathered);
    SameIn(settles, before, later, Finished);
  }

  lemma IsReady(preparations: seq<Preparation>, id: int)
    requires id in ReadyCalls(preparations)
    ensures 0 <= id < |preparations| && preparations[id].Ready?
  {
    ReadyCallsInOrder(preparations);
  }

  lemma StartedNext(prepared: seq<int>, nextIndex: nat, phases: seq<Phase>)
    requires InOrder(prepared, nextIndex, phases) && nextIndex < |prepared|
    ensures InOrder(prepared, nextIndex + 1, phases[prepared[nextIndex] := Running])
    ensures prepared[..nextIndex] + [prepared[nextIndex]] == prepared[..nextIndex + 1]
  {
  }

  // ---- When a cancelled batch carries everything.

  /** A batch ended by a task's own cancellation carries all started effects exactly when every started
      task other than those seen to return had none: the failing task, the gathered ones. */
  lemma CancelledBatchIsComplete(settles: seq<Settlement>, phases: seq<Phase>)
    requires |settles| == |phases| && forall i | 0 <= i < |phases| :: !phases[i].Running?
    ensures EffectsIn(settles, phases, Finished) == EffectsOfStarted(settles, phases)
       <==> forall i | 0 <= i < |phases| && (phases[i].Failing? || phases[i].Gathered?) :: settles[i].Effects() == []
  {
    StartedByPhase(settles, phases);
    NoneIn(settles, phases, Running);
    NothingIn(settles, phases, Failing);
    NothingIn(settles, phases, Gathered);
  }

  lemma {:induction false} NothingIn(settles: seq<Settlement>, phases: seq<Phase>, phase: Phase)
    requires |settles| == |phases|
    ensures EffectsIn(settles, phases, phase) == multiset{}
       <==> forall i | 0 <= i < |phases| && phases[i] == phase :: settles[i].Effects() == []
  {
    if phases != [] {
      var last := |phases| - 1;
      NothingIn(settles[..last], phases[..last], phase);
      assert forall i | 0 <= i < last :: phases[..last][i] == phases[i] && settles[..last][i] == settles[i];
      var own := settles[last].Effects();
      assert |multiset(own)| == |own|;
    }
  }

  /** One call whose task is cancelled and says so with an effect: the exit carries no effect at all, whether the
      task is seen first or the batch is cancelled from outside. */
  method LoneCancelledTask(effect: Effect) returns (exit: Exit, failing: Option<int>)
    ensures exit.BatchCancelled? && exit.effects == []
  {
    var batch := new Batch([Ready], [IsCancelled([effect])], 1);
    exit, failing := batch.Execute();
    assert batch.preparations == [Ready] && batch.settles == [IsCancelled([effect])];
    NothingCarried(batch.preparations, batch.settles, batch.phases, failing);
    EmptyMultiset(exit.effects);
  }

  /** One call aborts while another, cancelled because of it, says what it did: nobody learns of it. */
  method AbortForgetsGathered(reason: RunError, effect: Effect) returns (exit: Exit, failing: Option<int>)
    ensures (exit.BatchAborted? || exit.BatchCancelled?) && exit.effects == []
    ensures exit.BatchAborted? ==> exit.reason == reason
  {
    var batch := new Batch([Ready, Ready], [Aborts(reason, []), IsCancelled([effect])], 2);
    exit, failing := batch.Execute();
    assert batch.preparations == [Ready, Ready] && batch.settles == [Aborts(reason, []), IsCancelled([effect])];
    NothingCarried(batch.preparations, batch.settles, batch.phases, failing);
    EmptyMultiset(exit.effects);
  }

  /** When no task returns and none that aborts has effects, an exit carries none. */
  lemma NothingCarried(preparations: seq<Preparation>, settles: seq<Settlement>, phases: seq<Phase>,
                       failing: Option<int>)
    requires |preparations| == |settles| == |phases| && Proper(preparations, settles, phases)
    requires FailingIs(phases, failing)
    requires forall i | 0 <= i < |settles| :: !settles[i].Returned? && settles[i].Kept() == []
    ensures CarriedEffects(settles, phases, failing) == multiset{}
  {
    NoneIn(settles, phases, Finished);
    KeepsNothing(settles, phases, Gathered);
  }

  lemma {:induction false} KeepsNothing(settles: seq<Settlement>, phases: seq<Phase>, phase: Phase)
    requires |settles| == |phases| && forall i | 0 <= i < |settles| :: settles[i].Kept() == []
    ensures KeptIn(settles, phases, phase) == multiset{}
  {
    if phases != [] {
      KeepsNothing(settles[..|phases| - 1], phases[..|phases| - 1], phase);
    }
  }

  lemma EmptyMultiset(effects: seq<Effect>)
    requires multiset(effects) == multiset{}
    ensures effects == []
  {
    assert |multiset(effects)| == |effects|;
  }

  // ---- The sequential form.

  lemma NextCallEffects(preparations: seq<Preparation>, settles: seq<Settlement>, i: nat)
    requires i < |preparations| == |settles|
    ensures CallEffects(preparations[..i + 1], settles[..i + 1]) ==
      CallEffects(preparations[..i], settles[..i]) + (if preparations[i].Ready? then settles[i].Effects() else [])
  {
    assert preparations[..i + 1][..i] == preparations[..i] && settles[..i + 1][..i] == settles[..i];
  }

  /** Calls that may not overlap run one by one; here every ending, a task's own cancellation included,
      carries the effects of every task that ran, in call order, and closes every call scope. */
  method ExecuteInTurn(preparations: seq<Preparation>, settles: seq<Settlement>)
    returns (exit: Exit, stopped: nat, closed: seq<int>)
    requires |preparations| == |settles|
    ensures exit.Completed? || exit.BatchAborted? || exit.BatchCancelled?
    ensures exit.Completed? <==> stopped == |preparations|
    ensures exit.Completed? ==>
      && |exit.results| == |preparations| && exit.effects == CallEffects(preparations, settles)
      && forall i | 0 <= i < |preparations| ::
           if preparations[i].Refused? then exit.results[i] == preparations[i].result
           else preparations[i].Ready? && settles[i].Returned? && exit.results[i] == settles[i].result
    ensures !exit.Completed? ==>
      stopped < |preparations| && exit.effects == CallEffects(preparations[..stopped + 1], settles[..stopped + 1])
    ensures exit.BatchAborted? ==>
      preparations[stopped] == PreparationAborts(exit.reason)
      || (preparations[stopped].Ready? && settles[stopped].Aborts? && settles[stopped].reason == exit.reason)
    ensures |closed| == |preparations| && forall i | 0 <= i < |closed| :: closed[i] == i
  {
    var results: seq<ToolResult>, effects: seq<Effect> := [], [];
    closed := [];
    for i := 0 to |preparations|
      invariant |results| == i && effects == CallEffects(preparations[..i], settles[..i])
      invariant |closed| == i && forall k | 0 <= k < i :: closed[k] == k
      invariant forall k | 0 <= k < i ::
        if preparations[k].Refused? then results[k] == preparations[k].result
        else preparations[k].Ready? && settles[k].Returned? && results[k] == settles[k].result
    {
      NextCallEffects(preparations, settles, i);
      var ended, result, own := RunOne(preparations[i], settles[i], effects);
      closed := closed + [i];
      if ended.Some? {
        closed := CloseRest(closed, |preparations|);
        return ended.value, i, closed;
      }
      results := results + [result.value];
      effects := effects + own;
    }
    assert preparations[..|preparations|] == preparations && settles[..|preparations|] == settles;
    return Completed(results, effects), |preparations|, closed;
  }

  /** One call on its own: its result and effects, or the end of the batch with all effects so far. */
  method RunOne(preparation: Preparation, settlement: Settlement, effects: seq<Effect>)
    returns (ended: Option<Exit>, result: Option<ToolResult>, own: seq<Effect>)
    ensures own == if preparation.Ready? then settlement.Effects() else []
    ensures ended.None? <==> preparation.Refused? || (preparation.Ready? && settlement.Returned?)
    ensures ended.None? ==>
      result == Some(if preparation.Refused? then preparation.result else settlement.result)
    ensures ended.Some? ==>
      && (ended.value.BatchAborted? || ended.value.BatchCancelled?) && ended.value.effects == effects + own
      && (ended.value.BatchAborted? ==>
            || preparation == PreparationAborts(ended.value.reason)
            || (preparation.Ready? && settlement.Aborts? && settlement.reason == ended.value.reason))
  {
    match preparation
    case PreparationAborts(reason) => return Some(BatchAborted(reason, effects + [])), None, [];
    case PreparationCancelled => return Some(BatchCancelled(effects + [])), None, [];
    case Refused(refusal) => return None, Some(refusal), [];
    case Ready =>
      match settlement
      case Aborts(reason, raised) => return Some(BatchAborted(reason, effects + raised)), None, raised;
      case IsCancelled(raised) => return Some(BatchCancelled(effects + raised)), None, raised;
      case Interrupted => return Some(BatchCancelled(effects + [])), None, [];
      case Returned(answer, returned) => return None, Some(answer), returned;
  }

  /** _abort_unprocessed: the scopes of the calls that did not get their turn are closed too. */
  method CloseRest(done: seq<int>, count: nat) returns (closed: seq<int>)
    requires |done| <= count && forall k | 0 <= k < |done| :: done[k] == k
    ensures |closed| == count && forall k | 0 <= k < count :: closed[k] == k
  {
    closed := done;
    for i := |done| to count
      invariant |closed| == i && forall k | 0 <= k < i :: closed[k] == k
    {
      closed := closed + [i];
    }
  }
}
