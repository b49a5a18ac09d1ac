/** The turn loop of a root Run over its execution tree: every batch of tool calls ends with
    its effects marked committed (roboagent/agent/loop.py, roboagent/runtime/execution.py). */
module TurnLoop {
  import opened Basics
  import opened ExecutionFacts
  import opened ExecutionTree

  /** What the tools of one batch do to the tree, in the order the interpreter schedules it. */
  datatype BatchStep =
    | OpenCall(id: ScopeId, call: nat)
    | OpenNested(id: ScopeId, parent: ScopeId, toolCallId: string)
    | StartChildRun(id: ScopeId, parent: ScopeId, runId: string)
    | Contribute(contribution: Contribution, settlement: bool)
    | BeginClosing(id: ScopeId)
    | FreezeScope(id: ScopeId)
    | CloseCall(id: ScopeId)
    | NestedRunCommitted(runId: string, callIds: seq<string>)

  datatype BatchEnd = BatchReturned(commit: Commit) | BatchFailed | BatchWasCancelled

  datatype Commit = ExchangeCommitted | PersistenceFailed | ExchangeRejected

  /** One turn: the model answers, or asks for tools. */
  datatype Turn = Answer(inputsPending: bool) | Batch(calls: seq<string>, steps: seq<BatchStep>, end: BatchEnd)

  datatype Outcome = Finished | TurnsExhausted | PersistenceError | CommitError | RunFailed | RunCancelled

  /** Effects are identified by the scope that contributes them, and none is contributed at the root. */
  predicate Files(contribution: Contribution, root: ScopeId) {
    && (contribution.effects != [] ==> contribution.id.scope != root)
    && forall i | 0 <= i < |contribution.effects| ::
         contribution.effects[i].id.Some? ==> contribution.effects[i].id.value.scope == contribution.id.scope
  }

  /** Between batches nothing but the root can still be written to. */
  ghost predicate Quiet(scopes: Scopes, root: ScopeId) {
    forall id | id in scopes && id != root :: scopes[id].state.Frozen?
  }

  /** Within a batch only the subtrees of its own calls are alive, and only they hold unmarked effects. */
  ghost predicate BatchInvariant(scopes: Scopes, root: ScopeId, effects: Effects, tops: set<ScopeId>,
                                 calls: set<string>)
    requires WellFormed(scopes, root) && EffectsFiled(effects, scopes)
  {
    && (forall id | id in tops ::
          && id in scopes && scopes[id].parent == Some(root)
          && scopes[id].toolCallId.Some? && scopes[id].toolCallId.value in calls)
    && (forall id | id in scopes && id != root && !scopes[id].state.Frozen? :: TopLevel(scopes, root, id) in tops)
    && (forall id | id in effects :: effects[id].committed || TopLevel(scopes, root, id.scope) in tops)
  }

  lemma {:induction false} GrowthKeepsTopLevel(scopes: Scopes, root: ScopeId, added: ScopeId, scope: Scope, id: ScopeId)
    requires WellFormed(scopes, root) && added !in scopes && id in scopes
    requires WellFormed(scopes[added := scope], root)
    ensures TopLevel(scopes[added := scope], root, id) == TopLevel(scopes, root, id)
    decreases scopes[id].sequence
  {
    if id != root && scopes[id].parent != Some(root) {
      GrowthKeepsTopLevel(scopes, root, added, scope, Parent(scopes, root, id));
    }
  }

  lemma {:induction false} SameShapeSameTopLevel(a: Scopes, b: Scopes, root: ScopeId, id: ScopeId)
    requires WellFormed(a, root) && WellFormed(b, root) && SameShape(a, b) && id in a
    ensures TopLevel(a, root, id) == TopLevel(b, root, id)
    decreases a[id].sequence
  {
    if id != root && a[id].parent != Some(root) {
      SameShapeSameTopLevel(a, b, root, Parent(a, root, id));
    }
  }

  /** A scope made during the batch belongs to one of the batch's calls. */
  lemma GrowthKeepsBatch(scopes: Scopes, root: ScopeId, effects: Effects, tops: set<ScopeId>, calls: set<string>,
                         added: ScopeId, scope: Scope)
    requires WellFormed(scopes, root) && EffectsFiled(effects, scopes)
    requires BatchInvariant(scopes, root, effects, tops, calls)
    requires added !in scopes && WellFormed(scopes[added := scope], root)
    requires scope.parent.Some? && scope.parent.value in scopes && scopes[scope.parent.value].state.Open?
    requires scope.parent == Some(root) ==> scope.toolCallId.Some? && scope.toolCallId.value in calls
    ensures EffectsFiled(effects, scopes[added := scope])
    ensures BatchInvariant(scopes[added := scope], root, effects,
                           if scope.parent == Some(root) then tops + {added} else tops, calls)
  {
    var after := scopes[added := scope];
    var topsAfter := if scope.parent == Some(root) then tops + {added} else tops;
    forall id | id in after && id != root && !after[id].state.Frozen? ensures TopLevel(after, root, id) in topsAfter {
      if id == added {
        NewTopLevel(scopes, root, added, scope);
      } else {
        GrowthKeepsTopLevel(scopes, root, added, scope, id);
      }
    }
    forall id | id in effects ensures effects[id].committed || TopLevel(after, root, id.scope) in topsAfter {
      GrowthKeepsTopLevel(scopes, root, added, scope, id.scope);
    }
  }

  lemma NewTopLevel(scopes: Scopes, root: ScopeId, added: ScopeId, scope: Scope)
    requires WellFormed(scopes, root) && added !in scopes && WellFormed(scopes[added := scope], root)
    requires scope.parent.Some? && scope.parent.value in scopes
    ensures TopLevel(scopes[added := scope], root, added) ==
      if scope.parent == Some(root) then added else TopLevel(scopes, root, scope.parent.value)
  {
    if scope.parent != Some(root) {
      GrowthKeepsTopLevel(scopes, root, added, scope, scope.parent.value);
    }
  }

  /** Freezing a call's subtree retires exactly that call. */
  lemma FreezingKeepsBatch(scopes: Scopes, root: ScopeId, effects: Effects, tops: set<ScopeId>, calls: set<string>,
                           scope: ScopeId)
    requires WellFormed(scopes, root) && EffectsFiled(effects, scopes)
    requires BatchInvariant(scopes, root, effects, tops, calls)
    requires WellFormed(Freeze(scopes, root, scope), root) && SameShape(scopes, Freeze(scopes, root, scope))
    ensures EffectsFiled(effects, Freeze(scopes, root, scope))
    ensures BatchInvariant(Freeze(scopes, root, scope), root, effects, tops, calls)
  {
    var after := Freeze(scopes, root, scope);
    forall id | id in scopes ensures TopLevel(after, root, id) == TopLevel(scopes, root, id) {
      SameShapeSameTopLevel(scopes, after, root, id);
    }
  }

  /** The steps of a teardown, one scope at a time: a scope that is not frozen stays within its call. */
  lemma RestatingKeepsBatch(scopes: Scopes, root: ScopeId, effects: Effects, tops: set<ScopeId>, calls: set<string>,
                            next: nat, maxAgentDepth: nat, scope: ScopeId, state: ScopeState)
    requires TreeShape(scopes, root, next, maxAgentDepth) && EffectsFiled(effects, scopes)
    requires BatchInvariant(scopes, root, effects, tops, calls) && scope in scopes
    requires !scopes[scope].state.Frozen? || state.Frozen?
    ensures var after := scopes[scope := scopes[scope].(state := state)];
      && WellFormed(after, root) && EffectsFiled(effects, after) && BatchInvariant(after, root, effects, tops, calls)
  {
    RestatedShape(scopes, root, next, maxAgentDepth, scope, state);
    var after := scopes[scope := scopes[scope].(state := state)];
    forall id | id in scopes ensures TopLevel(after, root, id) == TopLevel(scopes, root, id) {
      SameShapeSameTopLevel(scopes, after, root, id);
    }
  }

  /** No effect is lost or rewritten; at most it becomes committed. */
  ghost predicate OnlyMarked(before: Effects, after: Effects) {
    forall id | id in before :: id in after && after[id].(committed := true) == before[id].(committed := true)
  }

  lemma {:induction false} StoringOnlyMarks(effects: Effects, added: seq<Effect>)
    ensures OnlyMarked(effects, StoreEffects(effects, added).0)
    decreases |added|
  {
    if added != [] && added[0].id.Some? {
      var id := added[0].id.value;
      if !(id in effects && effects[id] != added[0]) {
        StoringOnlyMarks(effects[id := added[0]], added[1..]);
      }
    }
  }

  /** Whatever a live scope contributes stays within the batch. */
  lemma {:induction false} StoringKeepsBatch(scopes: Scopes, root: ScopeId, effects: Effects, tops: set<ScopeId>,
                                             calls: set<string>, scope: ScopeId, added: seq<Effect>)
    requires WellFormed(scopes, root) && EffectsFiled(effects, scopes)
    requires BatchInvariant(scopes, root, effects, tops, calls)
    requires scope in scopes && (added != [] ==> scope != root && !scopes[scope].state.Frozen?)
    requires forall i | 0 <= i < |added| :: added[i].id.Some? ==> added[i].id.value.scope == scope
    ensures EffectsFiled(StoreEffects(effects, added).0, scopes)
    ensures BatchInvariant(scopes, root, StoreEffects(effects, added).0, tops, calls)
    decreases |added|
  {
    if added != [] && added[0].id.Some? {
      var id := added[0].id.value;
      if !(id in effects && effects[id] != added[0]) {
        StoringKeepsBatch(scopes, root, effects[id := added[0]], tops, calls, scope, added[1..]);
      }
    }
  }

  /** Marks only add commitment. */
  lemma MarkingKeepsBatch(scopes: Scopes, root: ScopeId, effects: Effects, tops: set<ScopeId>, calls: set<string>,
                          accepted: set<string>)
    requires WellFormed(scopes, root) && EffectsFiled(effects, scopes)
    requires BatchInvariant(scopes, root, effects, tops, calls)
    ensures EffectsFiled(MarkAccepted(effects, scopes, root, accepted), scopes)
    ensures BatchInvariant(scopes, root, MarkAccepted(effects, scopes, root, accepted), tops, calls)
    ensures calls <= accepted ==> AllCommitted(MarkAccepted(effects, scopes, root, accepted))
  {
  }

  /** A Run marks effects only when it is the root Run of its tree. */
  method MarkFor(tree: Tree, runId: string, callIds: seq<string>)
    requires tree.Valid() && ScopesKnown(tree.effects, tree.scopes)
    modifies tree`effects
    ensures tree.Valid()
    ensures tree.effects ==
      if runId == tree.scopes[tree.root].runId
      then MarkAccepted(old(tree.effects), tree.scopes, tree.root, Ids(callIds))
      else old(tree.effects)
  {
    if runId == tree.scopes[tree.root].runId {
      var _ := tree.MarkToolCallsCommitted(callIds);
    }
  }

  /** Steps that name scopes name known ones; new scopes get new ids; a call scope belongs to a requested call. */
  predicate CanTake(tree: Tree, step: BatchStep, calls: seq<string>)
    reads tree
  {
    match step
    case OpenCall(id, call) => id !in tree.scopes && call < |calls|
    case OpenNested(id, parent, _) => id !in tree.scopes && parent in tree.scopes && parent != tree.root
    case StartChildRun(id, parent, _) => id !in tree.scopes && parent in tree.scopes && parent != tree.root
    case Contribute(contribution, _) => contribution.id.scope in tree.scopes && Files(contribution, tree.root)
    case BeginClosing(id) => id in tree.scopes && id != tree.root
    case FreezeScope(id) => id in tree.scopes && id != tree.root
    case CloseCall(id) => id in tree.scopes && id != tree.root
    case NestedRunCommitted(_, _) => true
  }

  /** Between batches every effect is committed and no call scope is alive. */
  ghost predicate BetweenBatches(tree: Tree)
    reads tree
  {
    && tree.Valid() && ScopesKnown(tree.effects, tree.scopes)
    && AllCommitted(tree.effects) && Quiet(tree.scopes, tree.root)
  }

  ghost predicate InBatch(tree: Tree, tops: set<ScopeId>, calls: seq<string>)
    reads tree
  {
    && tree.Valid() && ScopesKnown(tree.effects, tree.scopes)
    && BatchInvariant(tree.scopes, tree.root, tree.effects, tops, Ids(calls))
  }

  /** One step of one of the batch's tools; a refused step changes nothing that matters here. */
  method TakeStep(tree: Tree, step: BatchStep, calls: seq<string>, tops: set<ScopeId>) returns (after: set<ScopeId>)
    requires InBatch(tree, tops, calls) && CanTake(tree, step, calls)
    modifies tree
    ensures InBatch(tree, after, calls) && OnlyMarked(old(tree.effects), tree.effects)
  {
    after := tops;
    match step
    case OpenCall(id, call) =>
      ghost var scopes := tree.scopes;
      var made := tree.NewToolScope(id, tree.root, calls[call]);
      if made.Ok? {
        after := tops + {id};
        GrowthKeepsBatch(scopes, tree.root, tree.effects, tops, Ids(calls), id, tree.scopes[id]);
      }
    case OpenNested(id, parent, toolCallId) =>
      ghost var scopes := tree.scopes;
      var made := tree.NewToolScope(id, parent, toolCallId);
      if made.Ok? {
        GrowthKeepsBatch(scopes, tree.root, tree.effects, tops, Ids(calls), id, tree.scopes[id]);
      }
    case StartChildRun(id, parent, runId) =>
      ghost var scopes := tree.scopes;
      var made := tree.NewChildRunScope(id, parent, runId);
      if made.Ok? {
        GrowthKeepsBatch(scopes, tree.root, tree.effects, tops, Ids(calls), id, tree.scopes[id]);
      }
    case Contribute(contribution, settlement) =>
      ghost var effects := tree.effects;
      var accepted := tree.Contribute(contribution, settlement);
      StoringOnlyMarks(effects, contribution.effects);
      if tree.effects != effects {
        StoringKeepsBatch(tree.scopes, tree.root, effects, tops, Ids(calls), contribution.id.scope,
                          contribution.effects);
      }
    case BeginClosing(id) =>
      if tree.scopes[id].state.Open? {
        RestatingKeepsBatch(tree.scopes, tree.root, tree.effects, tops, Ids(calls), tree.nextSequence,
                            tree.budget.maxAgentDepth, id, Closing);
      }
      tree.BeginClosing(id);
    case FreezeScope(id) =>
      RestatingKeepsBatch(tree.scopes, tree.root, tree.effects, tops, Ids(calls), tree.nextSequence,
                          tree.budget.maxAgentDepth, id, Frozen);
      tree.FreezeScope(id);
    case CloseCall(id) =>
      CloseCallScope(tree, id, calls, tops);
    case NestedRunCommitted(runId, callIds) =>
      MarkingKeepsBatch(tree.scopes, tree.root, tree.effects, tops, Ids(calls), Ids(callIds));
      MarkFor(tree, runId, callIds);
  }

  method CloseCallScope(tree: Tree, id: ScopeId, calls: seq<string>, ghost tops: set<ScopeId>)
    requires InBatch(tree, tops, calls) && id in tree.scopes
    modifies tree`scopes
    ensures InBatch(tree, tops, calls)
    ensures tree.scopes == Freeze(old(tree.scopes), tree.root, id)
  {
    FrozenShape(tree.scopes, tree.root, tree.nextSequence, tree.budget.maxAgentDepth, id);
    FreezingKeepsBatch(tree.scopes, tree.root, tree.effects, tops, Ids(calls), id);
    tree.FreezeSubtree(id);
  }

  /** How a run of turns ends. */
  function Ending(turns: seq<Turn>): Outcome {
    if turns == [] then TurnsExhausted
    else match turns[0]
      case Answer(inputsPending) => if inputsPending then Ending(turns[1..]) else Finished
      case Batch(_, _, end) =>
        match end
        case BatchFailed => RunFailed
        case BatchWasCancelled => RunCancelled
        case BatchReturned(commit) =>
          match commit
          case ExchangeCommitted => Ending(turns[1..])
          case PersistenceFailed => PersistenceError
          case ExchangeRejected => CommitError
  }

  /** A batch: the tools' steps in whatever order they come; a normal return closes every call scope. */
  method RunBatch(tree: Tree, calls: seq<string>, steps: seq<BatchStep>, closes: bool) returns (tops: set<ScopeId>)
    requires BetweenBatches(tree)
    modifies tree
    ensures InBatch(tree, tops, calls) && OnlyMarked(old(tree.effects), tree.effects)
    ensures closes ==> Quiet(tree.scopes, tree.root)
  {
    tops := {};
    for i := 0 to |steps|
      invariant InBatch(tree, tops, calls) && OnlyMarked(old(tree.effects), tree.effects)
    {
      if CanTake(tree, steps[i], calls) {
        tops := TakeStep(tree, steps[i], calls, tops);
      }
    }
    if closes {
      CloseCalls(tree, calls, tops);
    }
  }

  method CloseCalls(tree: Tree, calls: seq<string>, tops: set<ScopeId>)
    requires InBatch(tree, tops, calls)
    modifies tree`scopes
    ensures InBatch(tree, tops, calls) && Quiet(tree.scopes, tree.root)
  {
    var todo := tops;
    while todo != {}
      invariant todo <= tops && InBatch(tree, tops, calls)
      invariant forall id | id in tree.scopes && TopLevel(tree.scopes, tree.root, id) in tops - todo ::
        tree.scopes[id].state.Frozen?
      decreases |todo|
    {
      var top :| top in todo;
      ghost var before := tree.scopes;
      CloseCallScope(tree, top, calls, tops);
      ClosedTops(before, tree.root, tops - todo, top);
      todo := todo - {top};
    }
    assert tops - todo == tops;
  }

  lemma ClosedTops(scopes: Scopes, root: ScopeId, closed: set<ScopeId>, top: ScopeId)
    requires WellFormed(scopes, root) && top in scopes && scopes[top].parent == Some(root)
    requires WellFormed(Freeze(scopes, root, top), root)
    requires forall id | id in scopes && TopLevel(scopes, root, id) in closed :: scopes[id].state.Frozen?
    ensures var after := Freeze(scopes, root, top);
      forall id | id in after && TopLevel(after, root, id) in closed + {top} :: after[id].state.Frozen?
  {
    var after := Freeze(scopes, root, top);
    assert SameShape(scopes, after);
    forall id | id in after && TopLevel(after, root, id) in closed + {top} ensures after[id].state.Frozen? {
      SameShapeSameTopLevel(scopes, after, root, id);
      if id != root {
        TopLevelIsBelowRoot(scopes, root, id, top);
      }
    }
  }

  /** The accepted exchange marks everything its calls did. */
  method MarkBatch(tree: Tree, calls: seq<string>, ghost tops: set<ScopeId>)
    requires InBatch(tree, tops, calls)
    modifies tree`effects
    ensures tree.Valid() && ScopesKnown(tree.effects, tree.scopes)
    ensures AllCommitted(tree.effects) && OnlyMarked(old(tree.effects), tree.effects)
  {
    MarkingKeepsBatch(tree.scopes, tree.root, tree.effects, tops, Ids(calls), Ids(calls));
    MarkFor(tree, tree.scopes[tree.root].runId, calls);
  }

  /** The loop of the root Run. Before every batch all effects are committed and no call scope is alive,
      so when it ends with an answer, with its turns used up or with a persistence error, every effect of
      the tree is committed, those of nested calls and child Runs included. */
  method RunLoop(tree: Tree, turns: seq<Turn>) returns (outcome: Outcome)
    requires BetweenBatches(tree)
    modifies tree
    ensures tree.Valid() && outcome == Ending(turns)
    ensures OnlyMarked(old(tree.effects), tree.effects)
    ensures outcome in {Finished, TurnsExhausted, PersistenceError} ==>
      AllCommitted(tree.effects) && Quiet(tree.scopes, tree.root)
  {
    for i := 0 to |turns|
      invariant BetweenBatches(tree)
      invariant Ending(turns) == Ending(turns[i..])
      invariant OnlyMarked(old(tree.effects), tree.effects)
    {
      assert turns[i..][1..] == turns[i + 1..];
      match turns[i]
      case Answer(inputsPending) =>
        if !inputsPending {
          return Finished;
        }
      case Batch(calls, steps, end) =>
        var tops := RunBatch(tree, calls, steps, end.BatchReturned?);
        if end.BatchFailed? {
          return RunFailed;
        }
        if end.BatchWasCancelled? {
          return RunCancelled;
        }
        if end.commit.ExchangeRejected? {
          return CommitError;
        }
        MarkBatch(tree, calls, tops);
        if end.commit.PersistenceFailed? {
          return PersistenceError;
        }
    }
    assert turns[|turns|..] == [];
    return TurnsExhausted;
  }

  /** After such an ending a retry is safe exactly when nothing blocks it and no side effect is in doubt. */
  lemma RetryAfterNormalEnd(effects: Effects, listed: seq<Effect>)
    requires AllCommitted(effects)
    requires forall effect | effect in listed :: effect.Valid() && effect in effects.Values
    requires forall id | id in effects :: effects[id] in listed
    ensures (forall effect | effect in listed :: HarmlessToRepeat(effect))
       <==> forall id | id in effects :: effects[id].kind.ReadOnly? || effects[id].certainty != CertaintyUnknown
  {
    forall effect | effect in listed
      ensures HarmlessToRepeat(effect) <==> effect.kind.ReadOnly? || effect.certainty != CertaintyUnknown
    {
      assert effect in effects.Values;
    }
    forall effect | effect in listed ensures exists id | id in effects :: effects[id] == effect {
      assert effect in effects.Values;
    }
  }
}
