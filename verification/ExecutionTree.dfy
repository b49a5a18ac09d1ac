/** The tree of execution scopes as one mutable object: lifecycle, budgets, contributions,
    effect marks (roboagent/runtime/execution.py). */
module ExecutionTree {
  import opened Basics
  import opened ExecutionFacts

  datatype ExecutionError =
    | UnknownScope | ScopeNotOpen | ContributionRefused | ContributionReused
    | EffectWithoutIdentity | EffectReused
    | AgentDepthExceeded | ChildRunBudgetExceeded

  datatype BudgetConfig = BudgetConfig(maxAgentDepth: nat, maxChildRuns: nat, maxNestedTools: nat)

  type Effects = map<EffectId, Effect>

  /** A closing scope takes only what a settlement still has to say; a frozen one takes nothing. */
  predicate Accepts(state: ScopeState, settlement: bool) {
    state.Open? || (state.Closing? && settlement)
  }

  /** Effects are stored one by one until one of them is refused. */
  function StoreEffects(stored: Effects, effects: seq<Effect>): (Effects, Option<ExecutionError>)
    decreases |effects|
  {
    if effects == [] then (stored, None)
    else
      var effect := effects[0];
      if effect.id.None? then (stored, Some(EffectWithoutIdentity))
      else if effect.id.value in stored && stored[effect.id.value] != effect then (stored, Some(EffectReused))
      else StoreEffects(stored[effect.id.value := effect], effects[1..])
  }

  /** Every stored effect carries its own key. */
  ghost predicate EffectsKeyed(effects: Effects) {
    forall id | id in effects :: effects[id].id == Some(id)
  }

  /** Keys tell the scope an effect happened in. */
  predicate ScopesKnown(effects: Effects, scopes: Scopes) {
    forall id | id in effects :: id.scope in scopes
  }

  ghost predicate EffectsFiled(effects: Effects, scopes: Scopes) {
    EffectsKeyed(effects) && ScopesKnown(effects, scopes)
  }

  function Ids(callIds: seq<string>): set<string> {
    set c | c in callIds
  }

  /** Marks every effect below a top-level scope of an accepted call. */
  function MarkAccepted(effects: Effects, scopes: Scopes, root: ScopeId, accepted: set<string>): Effects
    requires WellFormed(scopes, root)
    requires ScopesKnown(effects, scopes)
  {
    map id | id in effects :: Mark(effects[id], scopes[TopLevel(scopes, root, id.scope)].toolCallId, accepted)
  }

  function Mark(effect: Effect, call: Option<string>, accepted: set<string>): Effect {
    if call.Some? && call.value in accepted then effect.(committed := true) else effect
  }

  /** A mark reaches exactly the subtrees of the top-level tool scopes whose call was accepted. */
  lemma MarkReachesExactly(effects: Effects, scopes: Scopes, root: ScopeId, accepted: set<string>, id: EffectId)
    requires WellFormed(scopes, root) && scopes[root].toolCallId.None?
    requires ScopesKnown(effects, scopes) && id in effects
    ensures MarkAccepted(effects, scopes, root, accepted)[id] == effects[id].(committed :=
      effects[id].committed || exists top | top in scopes ::
        && scopes[top].parent == Some(root) && IsDescendant(scopes, root, id.scope, top)
        && scopes[top].toolCallId.Some? && scopes[top].toolCallId.value in accepted)
  {
    var top := TopLevel(scopes, root, id.scope);
    if id.scope != root {
      TopLevelParent(scopes, root, id.scope);
      TopLevelIsBelowRoot(scopes, root, id.scope, top);
      forall t | t in scopes && scopes[t].parent == Some(root) && IsDescendant(scopes, root, id.scope, t)
        ensures t == top
      {
        TopLevelIsBelowRoot(scopes, root, id.scope, t);
      }
    } else {
      forall t | t in scopes && scopes[t].parent == Some(root) ensures !IsDescendant(scopes, root, root, t) {
      }
    }
  }

  ghost predicate AllCommitted(effects: Effects) {
    forall id | id in effects :: effects[id].committed
  }

  // ---- Retry safety.

  /** A retry blocker, or an effect whose outcome a retry could repeat, makes a retry unsafe. */
  method RetrySafe(effects: seq<Effect>, blockers: nat) returns (safe: bool)
    ensures safe <==> blockers == 0 && forall i | 0 <= i < |effects| :: HarmlessToRepeat(effects[i])
    ensures (forall i | 0 <= i < |effects| :: effects[i].Valid() && effects[i].committed) ==>
      (safe <==> blockers == 0 && forall i | 0 <= i < |effects| ::
        effects[i].kind.ReadOnly? || effects[i].certainty != CertaintyUnknown)
  {
    if blockers > 0 {
      return false;
    }
    for i := 0 to |effects|
      invariant forall k | 0 <= k < i :: HarmlessToRepeat(effects[k])
    {
      var effect := effects[i];
      if effect.kind.ReadOnly? {
        continue;
      }
      if effect.status.Succeeded? {
        if effect.certainty != Certain || !effect.committed {
          return false;
        }
      } else if effect.status.Failed? || effect.status.EffectCancelled? || effect.status.TimedOut? {
        if effect.certainty != CertainNoEffect {
          return false;
        }
      } else {
        return false;
      }
    }
    return true;
  }

  predicate HarmlessToRepeat(effect: Effect) {
    effect.kind.ReadOnly?
    || match effect.status
       case Succeeded => effect.certainty == Certain && effect.committed
       case StatusUnknown => false
       case _ => effect.certainty == CertainNoEffect
  }

  // ---- The tree object.

  /** The root belongs to no call, sequences come from the allocator, delegation stays within its depth. */
  ghost predicate TreeShape(scopes: Scopes, root: ScopeId, next: nat, maxAgentDepth: nat) {
    && WellFormed(scopes, root) && scopes[root].toolCallId.None?
    && (forall id | id in scopes :: scopes[id].sequence < next && scopes[id].agentDepth <= maxAgentDepth)
  }

  /** Every contribution is made in a known scope, under an identity of its own. */
  ghost predicate ContributionsFiled(contributions: seq<Contribution>, ids: set<ScopeId>) {
    && (forall i | 0 <= i < |contributions| :: contributions[i].id.scope in ids)
    && (forall i, j | 0 <= i < j < |contributions| :: contributions[i].id != contributions[j].id)
  }

  function ChildScope(scopes: Scopes, sequence: nat, parent: ScopeId, runId: string, agentDepth: nat,
                      toolCallId: Option<string>): Scope
    requires parent in scopes
  {
    Scope(sequence, Some(parent), runId, scopes[parent].depth + 1, agentDepth, toolCallId, Open)
  }

  lemma GrownShape(scopes: Scopes, root: ScopeId, next: nat, maxAgentDepth: nat, id: ScopeId, scope: Scope)
    requires TreeShape(scopes, root, next, maxAgentDepth) && id !in scopes
    requires scope.sequence == next && scope.parent.Some? && scope.parent.value in scopes
    requires scope.agentDepth <= maxAgentDepth
    ensures TreeShape(scopes[id := scope], root, next + 1, maxAgentDepth)
    ensures scopes[id := scope].Keys == scopes.Keys + {id}
  {
    var after := scopes[id := scope];
    forall other | other in after && other != root ensures MadeUnderParent(after, other) {
      assert other != id ==> MadeUnderParent(scopes, other);
    }
  }

  /** The state of one subtree is frozen, everything else as it was. */
  function Freeze(scopes: Scopes, root: ScopeId, scope: ScopeId): Scopes
    requires WellFormed(scopes, root)
  {
    map id | id in scopes ::
      if IsDescendant(scopes, root, id, scope) then scopes[id].(state := Frozen) else scopes[id]
  }

  lemma FrozenShape(scopes: Scopes, root: ScopeId, next: nat, maxAgentDepth: nat, scope: ScopeId)
    requires TreeShape(scopes, root, next, maxAgentDepth)
    ensures var after := Freeze(scopes, root, scope);
      && after.Keys == scopes.Keys && SameShape(scopes, after) && TreeShape(after, root, next, maxAgentDepth)
  {
    var after := Freeze(scopes, root, scope);
    assert after.Keys == scopes.Keys;
    assert forall id | id in scopes :: after[id] == scopes[id] || after[id] == scopes[id].(state := Frozen);
    forall id | id in after && id != root ensures MadeUnderParent(after, id) {
      assert MadeUnderParent(scopes, id);
    }
  }

  lemma RestatedShape(scopes: Scopes, root: ScopeId, next: nat, maxAgentDepth: nat, scope: ScopeId, state: ScopeState)
    requires TreeShape(scopes, root, next, maxAgentDepth) && scope in scopes
    ensures var after := scopes[scope := scopes[scope].(state := state)];
      && after.Keys == scopes.Keys && SameShape(scopes, after) && TreeShape(after, root, next, maxAgentDepth)
  {
    var after := scopes[scope := scopes[scope].(state := state)];
    forall id | id in after && id != root ensures MadeUnderParent(after, id) {
      assert MadeUnderParent(scopes, id);
    }
  }

  class Tree {
    const root: ScopeId
    const budget: BudgetConfig
    var scopes: Scopes
    var nextSequence: nat
    var childRunsUsed: nat
    var nestedToolsUsed: nat
    var contributions: seq<Contribution>
    var usage: Knowledge
    var effects: Effects

    ghost predicate Valid()
      reads this
    {
      && TreeShape(scopes, root, nextSequence, budget.maxAgentDepth)
      && childRunsUsed <= budget.maxChildRuns && nestedToolsUsed <= budget.maxNestedTools
      && ContributionsFiled(contributions, scopes.Keys)
      && usage == Total(contributions, scopes.Keys)
      && EffectsKeyed(effects)
    }

    constructor (root: ScopeId, runId: string, budget: BudgetConfig)
      ensures Valid() && this.root == root && this.budget == budget
      ensures scopes == map[root := Scope(0, None, runId, 0, 0, None, Open)]
      ensures contributions == [] && effects == map[] && usage == NoUsage
    {
      this.root, this.budget := root, budget;
      scopes := map[root := Scope(0, None, runId, 0, 0, None, Open)];
      nextSequence, childRunsUsed, nestedToolsUsed := 1, 0, 0;
      contributions, usage, effects := [], NoUsage, map[];
    }

    method AcceptNestedTool() returns (ok: bool)
      requires Valid()
      modifies this`nestedToolsUsed
      ensures Valid()
      ensures ok <==> old(nestedToolsUsed) < budget.maxNestedTools
      ensures nestedToolsUsed == old(nestedToolsUsed) + if ok then 1 else 0
    {
      if nestedToolsUsed >= budget.maxNestedTools {
        return false;
      }
      nestedToolsUsed := nestedToolsUsed + 1;
      return true;
    }

    /** A fresh scope under an open parent. */
    method AddScope(id: ScopeId, parent: ScopeId, runId: string, agentDepth: nat, toolCallId: Option<string>)
      requires Valid() && id !in scopes && parent in scopes && agentDepth <= budget.maxAgentDepth
      modifies this`scopes, this`nextSequence
      ensures Valid()
      ensures nextSequence == old(nextSequence) + 1
      ensures scopes ==
        old(scopes)[id := ChildScope(old(scopes), old(nextSequence), parent, runId, agentDepth, toolCallId)]
    {
      var scope := ChildScope(scopes, nextSequence, parent, runId, agentDepth, toolCallId);
      UnusedScope(contributions, scopes.Keys, id);
      GrownShape(scopes, root, nextSequence, budget.maxAgentDepth, id, scope);
      scopes := scopes[id := scope];
      nextSequence := nextSequence + 1;
    }

    method NewToolScope(id: ScopeId, parent: ScopeId, toolCallId: string) returns (r: Result<(), ExecutionError>)
      requires Valid() && id !in scopes && parent in scopes
      modifies this`scopes, this`nextSequence
      ensures Valid()
      ensures r == if old(scopes)[parent].state.Open? then Ok(()) else Err(ScopeNotOpen)
      ensures r.Err? ==> scopes == old(scopes)
      ensures r.Ok? ==> var p := old(scopes)[parent];
        scopes == old(scopes)[id := ChildScope(old(scopes), old(nextSequence), parent, p.runId, p.agentDepth,
                                               Some(toolCallId))]
    {
      if !scopes[parent].state.Open? {
        return Err(ScopeNotOpen);
      }
      AddScope(id, parent, scopes[parent].runId, scopes[parent].agentDepth, Some(toolCallId));
      return Ok(());
    }

    /** Delegation is bounded in depth and in number. */
    method NewChildRunScope(id: ScopeId, parent: ScopeId, runId: string) returns (r: Result<(), ExecutionError>)
      requires Valid() && id !in scopes && parent in scopes
      modifies this`scopes, this`nextSequence, this`childRunsUsed
      ensures Valid()
      ensures r == var p := old(scopes)[parent];
        if !p.state.Open? then Err(ScopeNotOpen)
        else if p.agentDepth + 1 > budget.maxAgentDepth then Err(AgentDepthExceeded)
        else if old(childRunsUsed) >= budget.maxChildRuns then Err(ChildRunBudgetExceeded)
        else Ok(())
      ensures r.Err? ==> scopes == old(scopes) && childRunsUsed == old(childRunsUsed)
      ensures r.Ok? ==> var p := old(scopes)[parent];
        && childRunsUsed == old(childRunsUsed) + 1
        && scopes ==
             old(scopes)[id := ChildScope(old(scopes), old(nextSequence), parent, runId, p.agentDepth + 1, None)]
    {
      var p := scopes[parent];
      if !p.state.Open? {
        return Err(ScopeNotOpen);
      }
      if p.agentDepth + 1 > budget.maxAgentDepth {
        return Err(AgentDepthExceeded);
      }
      if childRunsUsed >= budget.maxChildRuns {
        return Err(ChildRunBudgetExceeded);
      }
      childRunsUsed := childRunsUsed + 1;
      AddScope(id, parent, runId, p.agentDepth + 1, None);
      return Ok(());
    }

    /** Records a contribution once. Its usage counts even when one of its effects is then refused;
        a replay changes nothing; nothing is accepted in a frozen scope. */
    method Contribute(contribution: Contribution, settlement: bool) returns (r: Result<(), ExecutionError>)
      requires Valid()
      modifies this`contributions, this`usage, this`effects
      ensures Valid()
      ensures var id := contribution.id;
        && (id.scope !in scopes ==> r == Err(UnknownScope))
        && (id.scope in scopes && !Accepts(scopes[id.scope].state, settlement) ==> r == Err(ContributionRefused))
      ensures contributions == old(contributions) || contributions == old(contributions) + [contribution]
      ensures contributions == old(contributions) ==> usage == old(usage) && effects == old(effects)
      ensures contributions != old(contributions) ==>
        && (forall i | 0 <= i < |old(contributions)| :: old(contributions)[i].id != contribution.id)
        && contribution.id.scope in scopes && !scopes[contribution.id.scope].state.Frozen?
        && usage == Merge(old(usage), contribution.usage)
        && effects == StoreEffects(old(effects), contribution.effects).0
        && r == (match StoreEffects(old(effects), contribution.effects).1
                 case None => Ok(()) case Some(error) => Err(error))
      ensures r.Ok? ==> contribution in contributions
    {
      var id := contribution.id;
      if id.scope !in scopes {
        return Err(UnknownScope);
      }
      if !Accepts(scopes[id.scope].state, settlement) {
        return Err(ContributionRefused);
      }
      for i := 0 to |contributions|
        invariant forall k | 0 <= k < i :: contributions[k].id != id
      {
        if contributions[i].id == id {
          if contributions[i] == contribution {
            return Ok(());
          }
          return Err(ContributionReused);
        }
      }
      var longer := contributions + [contribution];
      assert longer[..|longer| - 1] == contributions;
      contributions := longer;
      usage := Merge(usage, contribution.usage);
      StoredStayKeyed(effects, contribution.effects);
      r := AddEffects(contribution.effects);
    }

    method AddEffects(added: seq<Effect>) returns (r: Result<(), ExecutionError>)
      modifies this`effects
      ensures effects == StoreEffects(old(effects), added).0
      ensures r == (match StoreEffects(old(effects), added).1 case None => Ok(()) case Some(error) => Err(error))
    {
      for i := 0 to |added|
        invariant StoreEffects(old(effects), added) == StoreEffects(effects, added[i..])
      {
        assert added[i..][1..] == added[i + 1..];
        var effect := added[i];
        if effect.id.None? {
          return Err(EffectWithoutIdentity);
        }
        if effect.id.value in effects && effects[effect.id.value] != effect {
          return Err(EffectReused);
        }
        effects := effects[effect.id.value := effect];
      }
      assert added[|added|..] == [];
      return Ok(());
    }

    /** Recomputes the usage of one scope's subtree from the contributions. */
    method UsageForScope(scope: ScopeId) returns (total: Knowledge)
      requires Valid() && scope in scopes
      ensures total == Total(contributions, Subtree(scopes, root, scope))
      ensures scope == root ==> total == usage
    {
      total := NoUsage;
      for i := 0 to |contributions|
        invariant total == Total(contributions[..i], Subtree(scopes, root, scope))
      {
        assert contributions[..i + 1][..i] == contributions[..i];
        var contribution := contributions[i];
        if IsDescendant(scopes, root, contribution.id.scope, scope) {
          total := Merge(total, contribution.usage);
        }
      }
      assert contributions[..|contributions|] == contributions;
      if scope == root {
        forall id | id in scopes ensures id in Subtree(scopes, root, root) {
          AllDescendFromRoot(scopes, root, id);
        }
        assert Subtree(scopes, root, root) == scopes.Keys;
      }
    }

    /** Marks all or, when an effect names a scope that is not there, stops at it with an error. */
    method MarkToolCallsCommitted(callIds: seq<string>) returns (r: Result<(), ExecutionError>)
      requires Valid()
      modifies this`effects
      ensures Valid() && (r.Ok? <==> ScopesKnown(old(effects), scopes))
      ensures r.Ok? ==> effects == MarkAccepted(old(effects), scopes, root, Ids(callIds))
      ensures effects.Keys == old(effects).Keys
      ensures forall id | id in old(effects) ::
        || effects[id] == old(effects)[id]
        || (id.scope in scopes && effects[id] == Marked(old(effects)[id], id, Ids(callIds)))
    {
      r := MarkEach(Ids(callIds));
    }

    ghost function Marked(effect: Effect, id: EffectId, accepted: set<string>): Effect
      requires WellFormed(scopes, root) && id.scope in scopes
      reads this`scopes
    {
      Mark(effect, scopes[TopLevel(scopes, root, id.scope)].toolCallId, accepted)
    }

    /** Marks the effects of the accepted calls, one effect at a time. */
    method MarkEach(accepted: set<string>) returns (r: Result<(), ExecutionError>)
      requires WellFormed(scopes, root)
      modifies this`effects
      ensures r.Ok? <==> ScopesKnown(old(effects), scopes)
      ensures r.Ok? ==> effects == MarkAccepted(old(effects), scopes, root, accepted)
      ensures effects.Keys == old(effects).Keys
      ensures forall id | id in old(effects) ::
        effects[id] == old(effects)[id] || (id.scope in scopes && effects[id] == Marked(old(effects)[id], id, accepted))
    {
      var todo := effects.Keys;
      ghost var before := effects;
      while todo != {}
        invariant todo <= before.Keys && effects.Keys == before.Keys
        invariant forall id | id in todo :: effects[id] == before[id]
        invariant forall id | id in before && id !in todo ::
          id.scope in scopes && effects[id] == Marked(before[id], id, accepted)
        decreases |todo|
      {
        var id :| id in todo;
        if id.scope !in scopes {
          return Err(UnknownScope);
        }
        var top := WalkToTop(id.scope);
        var call := scopes[top].toolCallId;
        if call.Some? && call.value in accepted {
          effects := effects[id := effects[id].(committed := true)];
        }
        todo := todo - {id};
      }
      assert effects == MarkAccepted(before, scopes, root, accepted);
      return Ok(());
    }

    method WalkToTop(start: ScopeId) returns (top: ScopeId)
      requires WellFormed(scopes, root) && start in scopes
      ensures top == TopLevel(scopes, root, start)
    {
      top := start;
      while scopes[top].parent.Some? && scopes[top].parent != Some(root)
        invariant top in scopes && TopLevel(scopes, root, start) == TopLevel(scopes, root, top)
        decreases scopes[top].sequence
      {
        top := scopes[top].parent.value;
      }
    }

    /** One scope of a teardown stops taking new work. */
    method BeginClosing(scope: ScopeId)
      requires Valid() && scope in scopes
      modifies this`scopes
      ensures Valid()
      ensures scopes == if old(scopes)[scope].state.Open?
                        then old(scopes)[scope := old(scopes)[scope].(state := Closing)] else old(scopes)
    {
      if scopes[scope].state.Open? {
        RestatedShape(scopes, root, nextSequence, budget.maxAgentDepth, scope, Closing);
        scopes := scopes[scope := scopes[scope].(state := Closing)];
      }
    }

    /** One scope of a teardown is done. */
    method FreezeScope(scope: ScopeId)
      requires Valid() && scope in scopes
      modifies this`scopes
      ensures Valid()
      ensures scopes == old(scopes)[scope := old(scopes)[scope].(state := Frozen)]
    {
      RestatedShape(scopes, root, nextSequence, budget.maxAgentDepth, scope, Frozen);
      scopes := scopes[scope := scopes[scope].(state := Frozen)];
    }

    /** What a finished teardown of one subtree leaves behind. */
    method FreezeSubtree(scope: ScopeId)
      requires Valid() && scope in scopes
      modifies this`scopes
      ensures Valid()
      ensures scopes == Freeze(old(scopes), root, scope)
    {
      FrozenShape(scopes, root, nextSequence, budget.maxAgentDepth, scope);
      scopes := Freeze(scopes, root, scope);
    }
  }

  /** A scope nobody contributed to adds nothing. */
  lemma {:induction false} UnusedScope(contributions: seq<Contribution>, ids: set<ScopeId>, id: ScopeId)
    requires forall i | 0 <= i < |contributions| :: contributions[i].id.scope != id
    ensures Total(contributions, ids + {id}) == Total(contributions, ids)
  {
    if contributions != [] {
      UnusedScope(contributions[..|contributions| - 1], ids, id);
    }
  }

  lemma {:induction false} StoredStayKeyed(stored: Effects, effects: seq<Effect>)
    requires EffectsKeyed(stored)
    ensures EffectsKeyed(StoreEffects(stored, effects).0)
    decreases |effects|
  {
    if effects != [] && effects[0].id.Some? {
      if !(effects[0].id.value in stored && stored[effects[0].id.value] != effects[0]) {
        StoredStayKeyed(stored[effects[0].id.value := effects[0]], effects[1..]);
      }
    }
  }
}
