/** Closing a subtree of scopes while others use it and close it too: the interleavings of
    close_scope and the scope operations (roboagent/runtime/execution.py:568-731). */
module ScopeTeardown {
  import opened Basics
  import opened ExecutionFacts
  import opened ExecutionTree

  type Resource = nat

  /** What one scope holds. `registered`, `closed` and `accepted` are its history: every resource ever
      registered, every one whose close was begun, every contribution it took. */
  datatype Cell = Cell(resources: seq<Resource>, settlements: nat, taker: Option<nat>,
                       registered: seq<Resource>, closed: seq<Resource>, accepted: seq<nat>)

  /** One call of close_scope: first it waits along `order`, then it cleans along `order`; `pending` is
      what it has taken from the scope it is cleaning and not begun to close yet. */
  datatype Phase = Waiting(done: nat) | Cleaning(done: nat, pending: Option<seq<Resource>>) | Abandoned

  datatype Closer = Closer(target: ScopeId, order: seq<ScopeId>, phase: Phase)

  datatype State = State(scopes: Scopes, root: ScopeId, next: nat, cells: map<ScopeId, Cell>, closers: seq<Closer>)

  datatype Step =
    | CreateChild(id: ScopeId, parent: ScopeId)
    | Register(scope: ScopeId, resource: Resource)
    | EnterSettlement(scope: ScopeId)
    | LeaveSettlement(scope: ScopeId)
    | Contribute(scope: ScopeId, settlement: bool, contribution: nat)
    | StartClose(target: ScopeId, order: seq<ScopeId>)
    | Wait(closer: nat)
    | Abandon(closer: nat)
    | Take(closer: nat)
    | CloseOne(closer: nat)
    | FreezeOne(closer: nat)

  function Reverse<T>(s: seq<T>): (r: seq<T>)
    ensures |r| == |s|
  {
    if s == [] then [] else Reverse(s[1..]) + [s[0]]
  }

  ghost predicate LaterFirst(scopes: Scopes, order: seq<ScopeId>)
    requires forall i | 0 <= i < |order| :: order[i] in scopes
  {
    forall i, j | 0 <= i < j < |order| :: scopes[order[i]].sequence > scopes[order[j]].sequence
  }

  lemma ComesBefore(scopes: Scopes, order: seq<ScopeId>, i: nat, j: nat)
    requires forall k | 0 <= k < |order| :: order[k] in scopes
    requires LaterFirst(scopes, order) && i < |order| && j < |order|
    requires scopes[order[i]].sequence > scopes[order[j]].sequence
    ensures i < j
  {
  }

  /** The subtree of the target, later scopes first. */
  ghost predicate IsClosingOrder(scopes: Scopes, root: ScopeId, target: ScopeId, order: seq<ScopeId>)
    requires WellFormed(scopes, root)
  {
    && (forall i | 0 <= i < |order| :: order[i] in scopes && IsDescendant(scopes, root, order[i], target))
    && LaterFirst(scopes, order)
    && (forall id | id in scopes && IsDescendant(scopes, root, id, target) :: id in order)
  }

  function CloseOpen(scopes: Scopes, root: ScopeId, target: ScopeId): Scopes
    requires WellFormed(scopes, root)
  {
    map id | id in scopes ::
      if IsDescendant(scopes, root, id, target) && scopes[id].state.Open? then scopes[id].(state := Closing)
      else scopes[id]
  }

  predicate Awaits(closer: Closer) {
    closer.phase.Waiting? && closer.phase.done < |closer.order|
  }

  /** The closer is at work on order[done]. */
  predicate Cleans(closer: Closer) {
    closer.phase.Cleaning? && closer.phase.done < |closer.order|
  }

  function PendingAt(closer: Closer, id: ScopeId): seq<Resource> {
    if Cleans(closer) && closer.order[closer.phase.done] == id && closer.phase.pending.Some?
    then closer.phase.pending.value else []
  }

  ghost predicate Enabled(s: State, step: Step)
    requires Shape(s)
  {
    match step
    case CreateChild(id, parent) => id !in s.scopes && parent in s.scopes && s.scopes[parent].state.Open?
    case Register(scope, _) => scope in s.scopes && s.scopes[scope].state.Open?
    case EnterSettlement(scope) => scope in s.scopes && s.scopes[scope].state.Open?
    case LeaveSettlement(scope) => scope in s.scopes && s.cells[scope].settlements > 0
    case Contribute(scope, settlement, _) => scope in s.scopes && Accepts(s.scopes[scope].state, settlement)
    case StartClose(target, order) => target in s.scopes && IsClosingOrder(s.scopes, s.root, target, order)
    case Wait(c) => c < |s.closers| && Awaits(s.closers[c])
                    && Current(s.closers[c]) in s.cells && s.cells[Current(s.closers[c])].settlements == 0
    case Abandon(c) => c < |s.closers| && Awaits(s.closers[c])
    case Take(c) => c < |s.closers| && Cleans(s.closers[c]) && s.closers[c].phase.pending.None?
                    && Current(s.closers[c]) in s.cells
    case CloseOne(c) => c < |s.closers| && Cleans(s.closers[c]) && s.closers[c].phase.pending.Some?
                        && s.closers[c].phase.pending.value != [] && Current(s.closers[c]) in s.cells
    case FreezeOne(c) => c < |s.closers| && Cleans(s.closers[c]) && s.closers[c].phase.pending == Some([])
                         && Current(s.closers[c]) in s.scopes
  }

  function Current(closer: Closer): ScopeId
    requires Awaits(closer) || Cleans(closer)
  {
    closer.order[closer.phase.done]
  }

  /** A closer that has waited for the last scope goes on to clean the first. */
  function AfterWait(closer: Closer): Closer
    requires Awaits(closer)
  {
    if closer.phase.done + 1 < |closer.order| then closer.(phase := Waiting(closer.phase.done + 1))
    else closer.(phase := Cleaning(0, None))
  }

  ghost function Next(s: State, step: Step): State
    requires Shape(s) && Enabled(s, step)
  {
    match step
    case CreateChild(id, parent) =>
      var above := s.scopes[parent];
      s.(scopes := s.scopes[id := ChildScope(s.scopes, s.next, parent, above.runId, above.agentDepth, None)],
         cells := s.cells[id := Cell([], 0, None, [], [], [])],
         next := s.next + 1)
    case Register(scope, resource) =>
      var cell := s.cells[scope];
      s.(cells := s.cells[scope := cell.(resources := cell.resources + [resource],
                                         registered := cell.registered + [resource])])
    case EnterSettlement(scope) =>
      s.(cells := s.cells[scope := s.cells[scope].(settlements := s.cells[scope].settlements + 1)])
    case LeaveSettlement(scope) =>
      s.(cells := s.cells[scope := s.cells[scope].(settlements := s.cells[scope].settlements - 1)])
    case Contribute(scope, _, contribution) =>
      s.(cells := s.cells[scope := s.cells[scope].(accepted := s.cells[scope].accepted + [contribution])])
    case StartClose(target, order) =>
      s.(scopes := CloseOpen(s.scopes, s.root, target), closers := s.closers + [Closer(target, order, Waiting(0))])
    case Wait(c) => s.(closers := s.closers[c := AfterWait(s.closers[c])])
    case Abandon(c) => s.(closers := s.closers[c := s.closers[c].(phase := Abandoned)])
    case Take(c) =>
      var closer, id := s.closers[c], Current(s.closers[c]);
      var cell := s.cells[id];
      s.(cells := s.cells[id := cell.(resources := [], taker := if cell.taker.None? then Some(c) else cell.taker)],
         closers := s.closers[c := closer.(phase := Cleaning(closer.phase.done, Some(Reverse(cell.resources))))])
    case CloseOne(c) =>
      var closer, id := s.closers[c], Current(s.closers[c]);
      var pending := closer.phase.pending.value;
      s.(cells := s.cells[id := s.cells[id].(closed := s.cells[id].closed + [pending[0]])],
         closers := s.closers[c := closer.(phase := Cleaning(closer.phase.done, Some(pending[1..])))])
    case FreezeOne(c) =>
      var closer, id := s.closers[c], Current(s.closers[c]);
      s.(scopes := s.scopes[id := s.scopes[id].(state := Frozen)],
         closers := s.closers[c := closer.(phase := Cleaning(closer.phase.done + 1, None))])
  }

  // ---- The invariant.

  ghost predicate Shape(s: State) {
    && WellFormed(s.scopes, s.root) && s.cells.Keys == s.scopes.Keys
    && (forall id | id in s.scopes :: s.scopes[id].sequence < s.next)
  }

  function Rank(state: ScopeState): nat {
    match state case Open => 0 case Closing => 1 case Frozen => 2
  }

  /** A scope is at least as far in its life as its parent. */
  ghost predicate Ordered(scopes: Scopes, id: ScopeId)
    requires id in scopes
  {
    scopes[id].parent.Some? && scopes[id].parent.value in scopes ==>
      Rank(scopes[scopes[id].parent.value].state) <= Rank(scopes[id].state)
  }

  ghost predicate LifecycleOrdered(scopes: Scopes) {
    forall id {:trigger Ordered(scopes, id)} | id in scopes :: Ordered(scopes, id)
  }

  predicate Shut(scopes: Scopes, id: ScopeId) {
    id in scopes && !scopes[id].state.Open?
  }

  predicate IsFrozen(scopes: Scopes, id: ScopeId) {
    id in scopes && scopes[id].state.Frozen?
  }

  predicate Settled(cells: map<ScopeId, Cell>, id: ScopeId) {
    id in cells && cells[id].settlements == 0
  }

  predicate Taken(cells: map<ScopeId, Cell>, id: ScopeId) {
    id in cells && cells[id].taker.Some?
  }

  /** What a closer has achieved so far. */
  ghost predicate Progress(scopes: Scopes, cells: map<ScopeId, Cell>, closer: Closer) {
    && Shut(scopes, closer.target) && (forall i | 0 <= i < |closer.order| :: Shut(scopes, closer.order[i]))
    && match closer.phase
       case Waiting(done) => done < |closer.order| && forall i | 0 <= i < done :: Settled(cells, closer.order[i])
       case Cleaning(done, pending) =>
         && done <= |closer.order| && (pending.Some? ==> done < |closer.order| && Taken(cells, closer.order[done]))
         && (forall i | 0 <= i < |closer.order| :: Settled(cells, closer.order[i]))
         && (forall i | 0 <= i < done :: IsFrozen(scopes, closer.order[i]))
       case Abandoned => true
  }

  ghost predicate ClosersOk(s: State)
    requires Shape(s)
  {
    forall c | 0 <= c < |s.closers| ::
      && IsClosingOrder(s.scopes, s.root, s.closers[c].target, s.closers[c].order)
      && Progress(s.scopes, s.cells, s.closers[c])
  }

  /** One closer takes all of a scope's resources, once, and begins their closes last in, first out. */
  ghost predicate CellOk(cell: Cell, state: ScopeState, closers: seq<Closer>, id: ScopeId) {
    && (state.Frozen? ==> cell.settlements == 0 && cell.taker.Some?)
    && match cell.taker
       case None => cell.closed == [] && cell.resources == cell.registered
       case Some(k) =>
         && !state.Open? && k < |closers| && cell.resources == []
         && cell.closed + PendingAt(closers[k], id) == Reverse(cell.registered)
         && (forall c | 0 <= c < |closers| && c != k :: PendingAt(closers[c], id) == [])
  }

  ghost predicate CellsOk(s: State)
    requires s.cells.Keys == s.scopes.Keys
  {
    forall id | id in s.scopes :: CellOk(s.cells[id], s.scopes[id].state, s.closers, id)
  }

  ghost predicate Invariant(s: State) {
    Shape(s) && LifecycleOrdered(s.scopes) && ClosersOk(s) && CellsOk(s)
  }

  /** Life only moves towards the leaves: a descendant is at least as far as its ancestor. */
  lemma {:induction false} DescendantsFollow(scopes: Scopes, root: ScopeId, id: ScopeId, ancestor: ScopeId)
    requires WellFormed(scopes, root) && LifecycleOrdered(scopes) && id in scopes && ancestor in scopes
    requires IsDescendant(scopes, root, id, ancestor)
    ensures Rank(scopes[ancestor].state) <= Rank(scopes[id].state)
    decreases scopes[id].sequence
  {
    if id != ancestor {
      DescendantsFollow(scopes, root, Parent(scopes, root, id), ancestor);
      assert Ordered(scopes, id);
    }
  }

  // ---- Shape and lifecycle order along a step.

  lemma CreatedShape(s: State, id: ScopeId, parent: ScopeId)
    requires Shape(s) && LifecycleOrdered(s.scopes) && Enabled(s, CreateChild(id, parent))
    ensures var after := Next(s, CreateChild(id, parent)); Shape(after) && LifecycleOrdered(after.scopes)
  {
    var after := Next(s, CreateChild(id, parent));
    forall other | other in after.scopes && other != s.root ensures MadeUnderParent(after.scopes, other) {
      assert other != id ==> MadeUnderParent(s.scopes, other);
    }
    forall other | other in after.scopes ensures Ordered(after.scopes, other) {
      if other != id {
        assert Ordered(s.scopes, other);
        assert other != s.root ==> MadeUnderParent(s.scopes, other);
      }
    }
  }

  /** Changing states alone keeps the shape and the ancestry. */
  lemma Restated(s: State, scopes: Scopes)
    requires Shape(s) && scopes.Keys == s.scopes.Keys
    requires forall id | id in scopes :: scopes[id] == s.scopes[id].(state := scopes[id].state)
    ensures WellFormed(scopes, s.root) && SameShape(s.scopes, scopes)
  {
    forall id | id in scopes && id != s.root ensures MadeUnderParent(scopes, id) {
      assert MadeUnderParent(s.scopes, id);
    }
  }

  lemma ClosingOrdered(scopes: Scopes, root: ScopeId, target: ScopeId)
    requires WellFormed(scopes, root) && LifecycleOrdered(scopes)
    ensures LifecycleOrdered(CloseOpen(scopes, root, target))
  {
    var after := CloseOpen(scopes, root, target);
    forall id | id in after ensures Ordered(after, id) {
      assert Ordered(scopes, id);
      if id != root {
        var parent := Parent(scopes, root, id);
        if IsDescendant(scopes, root, parent, target) {
          assert IsDescendant(scopes, root, id, target);
        }
      }
    }
  }

  /** Children come before their parents in the closing order, so they are frozen first. */
  lemma FreezingOrdered(scopes: Scopes, root: ScopeId, target: ScopeId, order: seq<ScopeId>, done: nat)
    requires WellFormed(scopes, root) && LifecycleOrdered(scopes) && IsClosingOrder(scopes, root, target, order)
    requires done < |order| && forall i | 0 <= i < done :: IsFrozen(scopes, order[i])
    ensures LifecycleOrdered(scopes[order[done] := scopes[order[done]].(state := Frozen)])
  {
    var frozen := order[done];
    var after := scopes[frozen := scopes[frozen].(state := Frozen)];
    forall id | id in after ensures Ordered(after, id) {
      assert Ordered(scopes, id);
      if id != root && id != frozen && Parent(scopes, root, id) == frozen {
        ChildComesFirst(scopes, root, target, order, done, id);
      }
    }
  }

  lemma ChildComesFirst(scopes: Scopes, root: ScopeId, target: ScopeId, order: seq<ScopeId>, done: nat, id: ScopeId)
    requires WellFormed(scopes, root) && IsClosingOrder(scopes, root, target, order) && done < |order|
    requires id in scopes && id != root && Parent(scopes, root, id) == order[done]
    ensures exists i | 0 <= i < done :: order[i] == id
  {
    assert IsDescendant(scopes, root, id, order[done]);
    DescendantTransitive(scopes, root, id, order[done], target);
    var i :| 0 <= i < |order| && order[i] == id;
    ComesBefore(scopes, order, i, done);
  }

  // ---- Closing orders stay complete.

  /** A closing subtree gets no new member: its parents are not open. */
  lemma OrderSurvivesCreation(scopes: Scopes, root: ScopeId, id: ScopeId, scope: Scope, target: ScopeId,
                              order: seq<ScopeId>)
    requires WellFormed(scopes, root) && id !in scopes && WellFormed(scopes[id := scope], root)
    requires scope.parent.Some? && scope.parent.value in scopes && scopes[scope.parent.value].state.Open?
    requires IsClosingOrder(scopes, root, target, order) && target in scopes
    requires forall i | 0 <= i < |order| :: Shut(scopes, order[i])
    ensures IsClosingOrder(scopes[id := scope], root, target, order)
  {
    var after := scopes[id := scope];
    forall other | other in after
      ensures IsDescendant(after, root, other, target) <==> other in scopes && IsDescendant(scopes, root, other, target)
    {
      if other == id {
        NewScopeIsOutside(scopes, root, id, scope, target, order);
      } else {
        GrowthKeepsAncestry(scopes, root, id, scope, other, target);
      }
    }
  }

  lemma NewScopeIsOutside(scopes: Scopes, root: ScopeId, id: ScopeId, scope: Scope, target: ScopeId,
                          order: seq<ScopeId>)
    requires WellFormed(scopes, root) && id !in scopes && WellFormed(scopes[id := scope], root)
    requires scope.parent.Some? && scope.parent.value in scopes && scopes[scope.parent.value].state.Open?
    requires IsClosingOrder(scopes, root, target, order) && target in scopes
    requires forall i | 0 <= i < |order| :: Shut(scopes, order[i])
    ensures !IsDescendant(scopes[id := scope], root, id, target)
  {
    var parent := scope.parent.value;
    assert !IsDescendant(scopes, root, parent, target);
    GrowthKeepsAncestry(scopes, root, id, scope, parent, target);
    assert Parent(scopes[id := scope], root, id) == parent;
  }

  lemma OrderSurvivesRestating(a: Scopes, b: Scopes, root: ScopeId, target: ScopeId, order: seq<ScopeId>)
    requires WellFormed(a, root) && WellFormed(b, root) && SameShape(a, b)
    requires IsClosingOrder(a, root, target, order)
    ensures IsClosingOrder(b, root, target, order)
  {
    forall id | id in a ensures IsDescendant(a, root, id, target) <==> IsDescendant(b, root, id, target) {
      SameShapeSameAncestry(a, b, root, id, target);
    }
  }

  // ---- What closers rely on is never undone.

  ghost predicate OnlyForward(scopes: Scopes, cells: map<ScopeId, Cell>, laterScopes: Scopes,
                              laterCells: map<ScopeId, Cell>) {
    && (forall id | Shut(scopes, id) :: Shut(laterScopes, id))
    && (forall id | IsFrozen(scopes, id) :: IsFrozen(laterScopes, id))
    && (forall id | Taken(cells, id) :: Taken(laterCells, id))
    && (forall id | Shut(scopes, id) && Settled(cells, id) :: Settled(laterCells, id))
  }

  lemma StepsGoForward(s: State, step: Step)
    requires Shape(s) && Enabled(s, step)
    ensures OnlyForward(s.scopes, s.cells, Next(s, step).scopes, Next(s, step).cells)
  {
    match step
    case CreateChild(_, _) =>
    case Register(_, _) =>
    case EnterSettlement(_) =>
    case LeaveSettlement(_) =>
    case Contribute(_, _, _) =>
    case StartClose(_, _) =>
    case Wait(_) =>
    case Abandon(_) =>
    case Take(_) =>
    case CloseOne(_) =>
    case FreezeOne(_) =>
  }

  lemma ProgressLasts(scopes: Scopes, cells: map<ScopeId, Cell>, laterScopes: Scopes, laterCells: map<ScopeId, Cell>,
                      closer: Closer)
    requires Progress(scopes, cells, closer) && OnlyForward(scopes, cells, laterScopes, laterCells)
    ensures Progress(laterScopes, laterCells, closer)
  {
  }

  // ---- Cells that a step does not touch.

  ghost predicate SamePending(closers: seq<Closer>, later: seq<Closer>, id: ScopeId) {
    && |closers| <= |later|
    && (forall c | 0 <= c < |closers| :: PendingAt(later[c], id) == PendingAt(closers[c], id))
    && (forall c | |closers| <= c < |later| :: PendingAt(later[c], id) == [])
  }

  lemma CellLasts(cell: Cell, state: ScopeState, later: ScopeState, closers: seq<Closer>, laterClosers: seq<Closer>,
                  id: ScopeId)
    requires CellOk(cell, state, closers, id) && SamePending(closers, laterClosers, id)
    requires state.Open? ==> !later.Frozen?
    requires later.Open? ==> state.Open?
    requires later.Frozen? ==> cell.settlements == 0 && cell.taker.Some?
    ensures CellOk(cell, later, laterClosers, id)
  {
  }

  // ---- Every step keeps the invariant.

  /** Steps that leave the scopes alone. */
  predicate ScopesUntouched(step: Step) {
    !step.CreateChild? && !step.StartClose? && !step.FreezeOne?
  }

  lemma StartedShape(s: State, target: ScopeId, order: seq<ScopeId>)
    requires Shape(s) && LifecycleOrdered(s.scopes) && Enabled(s, StartClose(target, order))
    ensures var after := Next(s, StartClose(target, order)); Shape(after) && LifecycleOrdered(after.scopes)
  {
    Restated(s, Next(s, StartClose(target, order)).scopes);
    ClosingOrdered(s.scopes, s.root, target);
  }

  lemma FrozenOneShape(s: State, c: nat)
    requires Shape(s) && LifecycleOrdered(s.scopes) && Enabled(s, FreezeOne(c))
    requires IsClosingOrder(s.scopes, s.root, s.closers[c].target, s.closers[c].order)
    requires Progress(s.scopes, s.cells, s.closers[c])
    ensures var after := Next(s, FreezeOne(c)); Shape(after) && LifecycleOrdered(after.scopes)
  {
    Restated(s, Next(s, FreezeOne(c)).scopes);
    FreezingOrdered(s.scopes, s.root, s.closers[c].target, s.closers[c].order, s.closers[c].phase.done);
  }

  lemma UntouchedShape(s: State, step: Step)
    requires Shape(s) && LifecycleOrdered(s.scopes) && Enabled(s, step) && ScopesUntouched(step)
    ensures Next(s, step).scopes == s.scopes && Shape(Next(s, step))
  {
    assert Next(s, step).cells.Keys == s.cells.Keys;
  }

  lemma ShapeKept(s: State, step: Step)
    requires Invariant(s) && Enabled(s, step)
    ensures Shape(Next(s, step)) && LifecycleOrdered(Next(s, step).scopes)
  {
    if step.CreateChild? {
      CreatedShape(s, step.id, step.parent);
    } else if step.StartClose? {
      StartedShape(s, step.target, step.order);
    } else if step.FreezeOne? {
      FrozenOneShape(s, step.closer);
    } else {
      UntouchedShape(s, step);
    }
  }

  lemma OrderKept(s: State, step: Step, target: ScopeId, order: seq<ScopeId>)
    requires Shape(s) && Enabled(s, step) && Shape(Next(s, step)) && target in s.scopes
    requires IsClosingOrder(s.scopes, s.root, target, order) && forall i | 0 <= i < |order| :: Shut(s.scopes, order[i])
    ensures IsClosingOrder(Next(s, step).scopes, s.root, target, order)
  {
    var after := Next(s, step);
    if step.CreateChild? {
      OrderSurvivesCreation(s.scopes, s.root, step.id, after.scopes[step.id], target, order);
    } else if !ScopesUntouched(step) {
      Restated(s, after.scopes);
      OrderSurvivesRestating(s.scopes, after.scopes, s.root, target, order);
    }
  }

  lemma WaitedOne(scopes: Scopes, cells: map<ScopeId, Cell>, closer: Closer)
    requires Progress(scopes, cells, closer) && Awaits(closer) && Settled(cells, Current(closer))
    ensures Progress(scopes, cells, AfterWait(closer))
  {
  }

  lemma TookAll(scopes: Scopes, cells: map<ScopeId, Cell>, closer: Closer, pending: seq<Resource>)
    requires Progress(scopes, cells, closer) && Cleans(closer) && Taken(cells, Current(closer))
    ensures Progress(scopes, cells, closer.(phase := Cleaning(closer.phase.done, Some(pending))))
  {
  }

  lemma FrozeOne(scopes: Scopes, cells: map<ScopeId, Cell>, closer: Closer)
    requires Progress(scopes, cells, closer) && Cleans(closer) && IsFrozen(scopes, Current(closer))
    ensures Progress(scopes, cells, closer.(phase := Cleaning(closer.phase.done + 1, None)))
  {
  }

  lemma AdvanceProgress(s: State, step: Step, c: nat)
    requires Shape(s) && Enabled(s, step) && c < |s.closers| && Next(s, step).closers[c] != s.closers[c]
    requires Progress(s.scopes, s.cells, s.closers[c])
    requires Progress(Next(s, step).scopes, Next(s, step).cells, s.closers[c])
    ensures Progress(Next(s, step).scopes, Next(s, step).cells, Next(s, step).closers[c])
  {
    var after, closer := Next(s, step), s.closers[c];
    match step
    case Wait(_) => WaitedOne(after.scopes, after.cells, closer);
    case Abandon(_) =>
    case Take(_) => TookAll(after.scopes, after.cells, closer, after.closers[c].phase.pending.value);
    case CloseOne(_) => TookAll(after.scopes, after.cells, closer, after.closers[c].phase.pending.value);
    case FreezeOne(_) => FrozeOne(after.scopes, after.cells, closer);
    case _ => assert false;
  }

  lemma NewCloser(s: State, target: ScopeId, order: seq<ScopeId>)
    requires Invariant(s) && Enabled(s, StartClose(target, order)) && Shape(Next(s, StartClose(target, order)))
    ensures var after := Next(s, StartClose(target, order));
      && IsClosingOrder(after.scopes, s.root, target, order)
      && Progress(after.scopes, after.cells, Closer(target, order, Waiting(0)))
  {
    var after := Next(s, StartClose(target, order));
    Restated(s, after.scopes);
    OrderSurvivesRestating(s.scopes, after.scopes, s.root, target, order);
    assert IsDescendant(s.scopes, s.root, target, target) && target in order;
  }

  lemma CloserKept(s: State, step: Step, c: nat)
    requires Shape(s) && Enabled(s, step) && Shape(Next(s, step)) && c < |s.closers|
    requires IsClosingOrder(s.scopes, s.root, s.closers[c].target, s.closers[c].order)
    requires Progress(s.scopes, s.cells, s.closers[c])
    ensures var after := Next(s, step);
      && c < |after.closers|
      && IsClosingOrder(after.scopes, after.root, after.closers[c].target, after.closers[c].order)
      && Progress(after.scopes, after.cells, after.closers[c])
  {
    var after, closer := Next(s, step), s.closers[c];
    StepsGoForward(s, step);
    ProgressLasts(s.scopes, s.cells, after.scopes, after.cells, closer);
    OrderKept(s, step, closer.target, closer.order);
    if after.closers[c] != closer {
      AdvanceProgress(s, step, c);
      SameOrder(s, step, c);
    }
  }

  lemma SameOrder(s: State, step: Step, c: nat)
    requires Shape(s) && Enabled(s, step) && c < |s.closers|
    ensures c < |Next(s, step).closers|
    ensures Next(s, step).closers[c] == s.closers[c].(phase := Next(s, step).closers[c].phase)
  {
  }

  lemma ClosersKept(s: State, step: Step)
    requires Invariant(s) && Enabled(s, step) && Shape(Next(s, step))
    ensures ClosersOk(Next(s, step))
  {
    var after := Next(s, step);
    forall c | 0 <= c < |after.closers|
      ensures IsClosingOrder(after.scopes, after.root, after.closers[c].target, after.closers[c].order)
      ensures Progress(after.scopes, after.cells, after.closers[c])
    {
      if c < |s.closers| {
        CloserKept(s, step, c);
      } else {
        NewCloser(s, step.target, step.order);
      }
    }
  }

  /** A closer takes the resources of a scope it cleans. */
  lemma TakenCell(cell: Cell, state: ScopeState, closers: seq<Closer>, c: nat, id: ScopeId)
    requires CellOk(cell, state, closers, id) && !state.Open?
    requires c < |closers| && Cleans(closers[c]) && Current(closers[c]) == id && closers[c].phase.pending.None?
    requires cell.taker.None? ==> forall k | 0 <= k < |closers| :: PendingAt(closers[k], id) == []
    ensures var after := closers[c].(phase := Cleaning(closers[c].phase.done, Some(Reverse(cell.resources))));
      CellOk(cell.(resources := [], taker := if cell.taker.None? then Some(c) else cell.taker), state,
             closers[c := after], id)
  {
    assert [] + Reverse(cell.resources) == Reverse(cell.resources);
  }

  /** The next resource of a taken batch begins to close. */
  lemma ClosedCell(cell: Cell, state: ScopeState, closers: seq<Closer>, c: nat, id: ScopeId)
    requires CellOk(cell, state, closers, id) && c < |closers| && Cleans(closers[c]) && Current(closers[c]) == id
    requires PendingAt(closers[c], id) != [] && cell.taker.Some?
    ensures var pending := PendingAt(closers[c], id);
      CellOk(cell.(closed := cell.closed + [pending[0]]), state,
             closers[c := closers[c].(phase := Cleaning(closers[c].phase.done, Some(pending[1..])))], id)
  {
    var pending := PendingAt(closers[c], id);
    assert (cell.closed + [pending[0]]) + pending[1..] == cell.closed + pending;
  }

  lemma NothingPending(scopes: Scopes, cells: map<ScopeId, Cell>, closer: Closer, id: ScopeId)
    requires Progress(scopes, cells, closer) && !Taken(cells, id)
    ensures PendingAt(closer, id) == []
  {
  }

  /** The cell a step works on. */
  lemma TouchedCell(s: State, step: Step, id: ScopeId)
    requires Invariant(s) && Enabled(s, step) && id in s.scopes && Next(s, step).cells[id] != s.cells[id]
    ensures var after := Next(s, step); CellOk(after.cells[id], after.scopes[id].state, after.closers, id)
  {
    assert CellOk(s.cells[id], s.scopes[id].state, s.closers, id);
    if step.Take? || step.CloseOne? {
      var c := step.closer;
      assert Progress(s.scopes, s.cells, s.closers[c]);
      assert Shut(s.scopes, id);
      if step.Take? {
        forall k | 0 <= k < |s.closers| && !Taken(s.cells, id) ensures PendingAt(s.closers[k], id) == [] {
          NothingPending(s.scopes, s.cells, s.closers[k], id);
        }
        TakenCell(s.cells[id], s.scopes[id].state, s.closers, c, id);
      } else {
        assert Taken(s.cells, id);
        ClosedCell(s.cells[id], s.scopes[id].state, s.closers, c, id);
      }
    } else {
      WrittenCell(s, step, id);
    }
  }

  lemma WrittenCell(s: State, step: Step, id: ScopeId)
    requires Shape(s) && Enabled(s, step) && id in s.scopes && CellOk(s.cells[id], s.scopes[id].state, s.closers, id)
    requires !step.Take? && !step.CloseOne? && Next(s, step).cells[id] != s.cells[id]
    ensures var after := Next(s, step); CellOk(after.cells[id], after.scopes[id].state, after.closers, id)
  {
  }

  lemma PendingKept(s: State, step: Step, id: ScopeId)
    requires Shape(s) && Enabled(s, step) && id in s.scopes && Next(s, step).cells[id] == s.cells[id]
    requires CellOk(s.cells[id], s.scopes[id].state, s.closers, id)
    ensures SamePending(s.closers, Next(s, step).closers, id)
  {
    forall c | 0 <= c < |s.closers| && Next(s, step).closers[c] != s.closers[c]
      ensures PendingAt(Next(s, step).closers[c], id) == PendingAt(s.closers[c], id)
    {
      OnePendingKept(s, step, id, c);
    }
  }

  lemma OnePendingKept(s: State, step: Step, id: ScopeId, c: nat)
    requires Shape(s) && Enabled(s, step) && id in s.scopes && Next(s, step).cells[id] == s.cells[id]
    requires s.cells[id].taker.Some? ==> s.cells[id].resources == []
    requires c < |s.closers| && Next(s, step).closers[c] != s.closers[c]
    ensures PendingAt(Next(s, step).closers[c], id) == PendingAt(s.closers[c], id)
  {
    match step
    case Take(_) =>
      if Current(s.closers[c]) == id {
        assert s.cells[id].taker.Some?;
      }
    case CloseOne(_) => assert Current(s.closers[c]) != id;
    case _ =>
  }

  lemma CellKept(s: State, step: Step, id: ScopeId)
    requires Invariant(s) && Enabled(s, step) && id in Next(s, step).scopes
    ensures var after := Next(s, step);
      id in after.cells && CellOk(after.cells[id], after.scopes[id].state, after.closers, id)
  {
    var after := Next(s, step);
    if id in s.scopes {
      assert CellOk(s.cells[id], s.scopes[id].state, s.closers, id);
      if after.cells[id] != s.cells[id] {
        TouchedCell(s, step, id);
      } else {
        PendingKept(s, step, id);
        if step.FreezeOne? {
          assert Progress(s.scopes, s.cells, s.closers[step.closer]);
        }
        CellLasts(s.cells[id], s.scopes[id].state, after.scopes[id].state, s.closers, after.closers, id);
      }
    }
  }

  /** No step of any actor, in any interleaving, breaks the lifecycle. */
  lemma StepKeepsInvariant(s: State, step: Step)
    requires Invariant(s) && Enabled(s, step)
    ensures Invariant(Next(s, step))
  {
    var after := Next(s, step);
    ShapeKept(s, step);
    ClosersKept(s, step);
    forall id | id in after.scopes ensures CellOk(after.cells[id], after.scopes[id].state, after.closers, id) {
      CellKept(s, step, id);
    }
  }

  // ---- Runs.

  function Initial(root: ScopeId, runId: string): State {
    State(map[root := Scope(0, None, runId, 0, 0, None, Open)], root, 1, map[root := Cell([], 0, None, [], [], [])], [])
  }

  ghost predicate IsRun(trace: seq<State>, steps: seq<Step>, root: ScopeId, runId: string) {
    && |trace| == |steps| + 1 && trace[0] == Initial(root, runId)
    && forall i | 0 <= i < |steps| :: Leads(trace[i], steps[i], trace[i + 1])
  }

  ghost predicate Leads(s: State, step: Step, after: State) {
    Shape(s) && Enabled(s, step) && after == Next(s, step)
  }

  lemma {:induction false} RunKeepsInvariant(trace: seq<State>, steps: seq<Step>, root: ScopeId, runId: string, i: nat)
    requires IsRun(trace, steps, root, runId) && i < |trace|
    ensures Invariant(trace[i]) && trace[i].root == root
  {
    if i > 0 {
      RunKeepsInvariant(trace, steps, root, runId, i - 1);
      assert Leads(trace[i - 1], steps[i - 1], trace[i]);
      StepKeepsInvariant(trace[i - 1], steps[i - 1]);
    }
  }

  ghost predicate DistinctSequences(scopes: Scopes) {
    forall a, b | a in scopes && b in scopes && a != b :: scopes[a].sequence != scopes[b].sequence
  }

  lemma {:induction false} RunKeepsDistinct(trace: seq<State>, steps: seq<Step>, root: ScopeId, runId: string, i: nat)
    requires IsRun(trace, steps, root, runId) && i < |trace|
    ensures DistinctSequences(trace[i].scopes)
  {
    if i > 0 {
      RunKeepsDistinct(trace, steps, root, runId, i - 1);
      assert Leads(trace[i - 1], steps[i - 1], trace[i]);
    }
  }

  /** Sorting the subtree by descending sequence: the order in which close_scope visits it. */
  method ClosingOrder(scopes: Scopes, root: ScopeId, target: ScopeId) returns (order: seq<ScopeId>)
    requires WellFormed(scopes, root) && DistinctSequences(scopes)
    ensures IsClosingOrder(scopes, root, target, order)
  {
    order := SortLaterFirst(scopes, Subtree(scopes, root, target));
  }

  /** At every point of a run a closer of any scope finds its order and can start. */
  method OrderAt(s: State, target: ScopeId, ghost trace: seq<State>, ghost steps: seq<Step>, ghost root: ScopeId,
                 ghost runId: string, ghost i: nat) returns (order: seq<ScopeId>)
    requires IsRun(trace, steps, root, runId) && i < |trace| && trace[i] == s && target in s.scopes
    ensures Shape(s) && Enabled(s, StartClose(target, order))
  {
    RunKeepsInvariant(trace, steps, root, runId, i);
    RunKeepsDistinct(trace, steps, root, runId, i);
    order := ClosingOrder(s.scopes, s.root, target);
  }

  method SortLaterFirst(scopes: Scopes, ids: set<ScopeId>) returns (order: seq<ScopeId>)
    requires ids <= scopes.Keys && DistinctSequences(scopes)
    ensures forall i | 0 <= i < |order| :: order[i] in ids
    ensures forall id | id in ids :: id in order
    ensures LaterFirst(scopes, order)
  {
    var todo := ids;
    order := [];
    while todo != {}
      invariant todo <= ids && forall i | 0 <= i < |order| :: order[i] in ids
      invariant LaterFirst(scopes, order)
      invariant forall i, id | 0 <= i < |order| && id in todo :: scopes[order[i]].sequence > scopes[id].sequence
      invariant forall id | id in ids :: id in todo || id in order
      decreases |todo|
    {
      var latest := Latest(scopes, todo);
      order := order + [latest];
      todo := todo - {latest};
    }
  }

  method Latest(scopes: Scopes, ids: set<ScopeId>) returns (latest: ScopeId)
    requires ids != {} && ids <= scopes.Keys && DistinctSequences(scopes)
    ensures latest in ids
    ensures forall id | id in ids && id != latest :: scopes[id].sequence < scopes[latest].sequence
  {
    latest :| latest in ids;
    var rest := ids - {latest};
    while rest != {}
      invariant rest <= ids && latest in ids - rest
      invariant forall id | id in ids - rest && id != latest :: scopes[id].sequence < scopes[latest].sequence
      decreases |rest|
    {
      var id :| id in rest;
      if scopes[id].sequence > scopes[latest].sequence {
        latest := id;
      }
      rest := rest - {id};
    }
  }

  /** A closing or frozen scope has no open descendant, a frozen one only frozen descendants. */
  lemma LifecycleNested(s: State, id: ScopeId, ancestor: ScopeId)
    requires Invariant(s) && id in s.scopes && ancestor in s.scopes
    requires IsDescendant(s.scopes, s.root, id, ancestor)
    ensures !s.scopes[ancestor].state.Open? ==> !s.scopes[id].state.Open?
    ensures s.scopes[ancestor].state.Frozen? ==> s.scopes[id].state.Frozen?
  {
    DescendantsFollow(s.scopes, s.root, id, ancestor);
  }

  /** No cleanup begins while a settlement is active anywhere in the closing subtree, and the scope
      about to be frozen is never an open one. */
  lemma CleanupWaits(s: State, c: nat, id: ScopeId)
    requires Invariant(s) && c < |s.closers| && Cleans(s.closers[c])
    requires id in s.scopes && IsDescendant(s.scopes, s.root, id, s.closers[c].target)
    ensures s.cells[id].settlements == 0 && !s.scopes[id].state.Open?
  {
    var closer := s.closers[c];
    assert id in closer.order;
    var i :| 0 <= i < |closer.order| && closer.order[i] == id;
    assert Settled(s.cells, closer.order[i]) && Shut(s.scopes, closer.order[i]);
  }

  /** Closes begin last in, first out, each at most once; after the take nothing is left behind. */
  lemma ClosedInOrder(s: State, id: ScopeId)
    requires Invariant(s) && id in s.scopes
    ensures s.cells[id].closed <= Reverse(s.cells[id].registered)
    ensures s.cells[id].taker.Some? ==> s.cells[id].resources == []
    ensures s.scopes[id].state.Frozen? ==>
      (s.cells[id].closed == Reverse(s.cells[id].registered)
       <==> forall c | 0 <= c < |s.closers| :: PendingAt(s.closers[c], id) == [])
  {
    assert CellOk(s.cells[id], s.scopes[id].state, s.closers, id);
    var cell := s.cells[id];
    if cell.taker.Some? {
      var pending := PendingAt(s.closers[cell.taker.value], id);
      assert cell.closed + pending == Reverse(cell.registered);
      if pending == [] {
        assert cell.closed + [] == cell.closed;
      }
    }
  }

  predicate IsFinished(closer: Closer) {
    closer.phase == Cleaning(|closer.order|, None)
  }

  /** What a finished teardown leaves of a scope: frozen, no settlement active, every resource ever registered has
      begun to close, last in, first out. */
  predicate TornDown(s: State, id: ScopeId) {
    && IsFrozen(s.scopes, id) && id in s.cells
    && s.cells[id].resources == [] && s.cells[id].settlements == 0
    && s.cells[id].closed == Reverse(s.cells[id].registered)
  }

  /** A frozen scope's resources were all taken by one closer, which holds those whose close has not begun;
      nobody else holds any. */
  lemma FrozenTakenOnce(s: State, id: ScopeId)
    requires Invariant(s) && IsFrozen(s.scopes, id)
    ensures id in s.cells && s.cells[id].taker.Some? && s.cells[id].taker.value < |s.closers|
    ensures s.cells[id].resources == []
    ensures s.cells[id].closed + PendingAt(s.closers[s.cells[id].taker.value], id) == Reverse(s.cells[id].registered)
    ensures forall c | 0 <= c < |s.closers| && c != s.cells[id].taker.value :: PendingAt(s.closers[c], id) == []
  {
    assert CellOk(s.cells[id], s.scopes[id].state, s.closers, id);
  }

  /** A closer that has finished while no other is at work on a scope of its subtree leaves that scope torn down. */
  lemma FinishedAt(s: State, c: nat, id: ScopeId)
    requires Invariant(s) && c < |s.closers| && IsFinished(s.closers[c])
    requires id in s.scopes && IsDescendant(s.scopes, s.root, id, s.closers[c].target)
    requires forall k | 0 <= k < |s.closers| && k != c :: PendingAt(s.closers[k], id) == []
    ensures TornDown(s, id)
  {
    var order := s.closers[c].order;
    assert Progress(s.scopes, s.cells, s.closers[c]);
    assert id in order;
    var i :| 0 <= i < |order| && order[i] == id;
    assert IsFrozen(s.scopes, order[i]);
    FrozenTakenOnce(s, id);
    ClosedInOrder(s, id);
    assert CellOk(s.cells[id], s.scopes[id].state, s.closers, id);
  }

  /** Neither of two targets lies below the other. */
  ghost predicate Apart(s: State, a: ScopeId, b: ScopeId)
    requires Shape(s)
  {
    && a in s.scopes && b in s.scopes
    && !IsDescendant(s.scopes, s.root, a, b) && !IsDescendant(s.scopes, s.root, b, a)
  }

  /** A closer that has finished leaves its whole subtree torn down, if no other closer was started above,
      at or below its target. */
  lemma FinishedAlone(s: State, c: nat)
    requires Invariant(s) && c < |s.closers| && IsFinished(s.closers[c])
    requires forall k | 0 <= k < |s.closers| && k != c :: Apart(s, s.closers[k].target, s.closers[c].target)
    ensures forall id | id in s.scopes && IsDescendant(s.scopes, s.root, id, s.closers[c].target) :: TornDown(s, id)
  {
    forall id | id in s.scopes && IsDescendant(s.scopes, s.root, id, s.closers[c].target) ensures TornDown(s, id) {
      forall k | 0 <= k < |s.closers| && k != c ensures PendingAt(s.closers[k], id) == [] {
        ElsewhereAtWork(s, c, k, id);
      }
      FinishedAt(s, c, id);
    }
  }

  lemma ElsewhereAtWork(s: State, c: nat, k: nat, id: ScopeId)
    requires Invariant(s) && c < |s.closers| && k < |s.closers|
    requires Apart(s, s.closers[k].target, s.closers[c].target)
    requires id in s.scopes && IsDescendant(s.scopes, s.root, id, s.closers[c].target)
    ensures PendingAt(s.closers[k], id) == []
  {
    var closer := s.closers[k];
    if PendingAt(closer, id) != [] {
      assert IsDescendant(s.scopes, s.root, closer.order[closer.phase.done], closer.target);
      AncestorsAreNested(s.scopes, s.root, id, closer.target, s.closers[c].target);
    }
  }

  /** The resources were taken once, and only begin to close. */
  predicate StaysTaken(before: map<ScopeId, Cell>, after: map<ScopeId, Cell>, id: ScopeId) {
    && Taken(before, id) && Taken(after, id)
    && after[id].taker == before[id].taker && after[id].registered == before[id].registered
    && before[id].closed <= after[id].closed
  }

  /** Who has taken a scope's resources is settled for the rest of the run: they are taken exactly once. */
  lemma {:induction false} TakenForGood(trace: seq<State>, steps: seq<Step>, root: ScopeId, runId: string,
      i: nat, j: nat, id: ScopeId)
    requires IsRun(trace, steps, root, runId) && i <= j < |trace| && Taken(trace[i].cells, id)
    ensures StaysTaken(trace[i].cells, trace[j].cells, id)
    decreases j
  {
    if i < j {
      TakenForGood(trace, steps, root, runId, i, j - 1, id);
      TakenStep(trace, steps, root, runId, j - 1, id);
      StaysTransitive(trace[i].cells, trace[j - 1].cells, trace[j].cells, id);
    }
  }

  lemma StaysTransitive(a: map<ScopeId, Cell>, b: map<ScopeId, Cell>, c: map<ScopeId, Cell>, id: ScopeId)
    requires StaysTaken(a, b, id) && StaysTaken(b, c, id)
    ensures StaysTaken(a, c, id)
  {
  }

  lemma TakenStep(trace: seq<State>, steps: seq<Step>, root: ScopeId, runId: string, j: nat, id: ScopeId)
    requires IsRun(trace, steps, root, runId) && j < |steps| && Taken(trace[j].cells, id)
    ensures StaysTaken(trace[j].cells, trace[j + 1].cells, id)
  {
    RunKeepsInvariant(trace, steps, root, runId, j);
    assert Leads(trace[j], steps[j], trace[j + 1]);
    assert CellOk(trace[j].cells[id], trace[j].scopes[id].state, trace[j].closers, id);
  }

  /** Once a scope is shut its subtree never grows. */
  lemma StepKeepsSubtree(s: State, step: Step, target: ScopeId)
    requires Invariant(s) && Enabled(s, step) && Shut(s.scopes, target)
    ensures Shape(Next(s, step))
    ensures Subtree(Next(s, step).scopes, s.root, target) == Subtree(s.scopes, s.root, target)
  {
    ShapeKept(s, step);
    if step.CreateChild? {
      CreationOutside(s.scopes, s.root, step.id, Next(s, step).scopes[step.id], target);
    } else if !ScopesUntouched(step) {
      Restated(s, Next(s, step).scopes);
      RestatingKeepsSubtree(s.scopes, Next(s, step).scopes, s.root, target);
    }
  }

  lemma CreationOutside(scopes: Scopes, root: ScopeId, id: ScopeId, scope: Scope, target: ScopeId)
    requires WellFormed(scopes, root) && LifecycleOrdered(scopes) && Shut(scopes, target)
    requires id !in scopes && WellFormed(scopes[id := scope], root)
    requires scope.parent.Some? && scope.parent.value in scopes && scopes[scope.parent.value].state.Open?
    ensures Subtree(scopes[id := scope], root, target) == Subtree(scopes, root, target)
  {
    var after, parent := scopes[id := scope], scope.parent.value;
    forall other | other in scopes
      ensures IsDescendant(after, root, other, target) <==> IsDescendant(scopes, root, other, target)
    {
      GrowthKeepsAncestry(scopes, root, id, scope, other, target);
    }
    assert Parent(after, root, id) == parent;
    if IsDescendant(scopes, root, parent, target) {
      DescendantsFollow(scopes, root, parent, target);
    }
  }

  lemma RestatingKeepsSubtree(a: Scopes, b: Scopes, root: ScopeId, target: ScopeId)
    requires WellFormed(a, root) && WellFormed(b, root) && SameShape(a, b)
    ensures Subtree(a, root, target) == Subtree(b, root, target)
  {
    forall id | id in a ensures IsDescendant(a, root, id, target) <==> IsDescendant(b, root, id, target) {
      SameShapeSameAncestry(a, b, root, id, target);
    }
  }

  lemma SubtreeStep(trace: seq<State>, steps: seq<Step>, root: ScopeId, runId: string, j: nat, target: ScopeId)
    requires IsRun(trace, steps, root, runId) && j < |steps| && Shut(trace[j].scopes, target)
    ensures Shape(trace[j]) && Shape(trace[j + 1]) && trace[j].root == root == trace[j + 1].root
    ensures Shut(trace[j + 1].scopes, target)
    ensures Subtree(trace[j + 1].scopes, root, target) == Subtree(trace[j].scopes, root, target)
  {
    RunKeepsInvariant(trace, steps, root, runId, j);
    assert Leads(trace[j], steps[j], trace[j + 1]);
    StepKeepsSubtree(trace[j], steps[j], target);
    StepsGoForward(trace[j], steps[j]);
  }

  /** From the moment a scope is shut on, no descendant of it is ever made. */
  lemma {:induction false} NoDescendantAfterClose(trace: seq<State>, steps: seq<Step>, root: ScopeId, runId: string,
                                                  i: nat, j: nat, target: ScopeId)
    requires IsRun(trace, steps, root, runId) && i <= j < |trace| && Shut(trace[i].scopes, target)
    ensures Shape(trace[i]) && Shape(trace[j]) && trace[i].root == root == trace[j].root
    ensures Shut(trace[j].scopes, target)
    ensures Subtree(trace[j].scopes, root, target) == Subtree(trace[i].scopes, root, target)
    decreases j
  {
    if i == j {
      RunKeepsInvariant(trace, steps, root, runId, i);
    } else {
      NoDescendantAfterClose(trace, steps, root, runId, i, j - 1, target);
      SubtreeStep(trace, steps, root, runId, j - 1, target);
    }
  }

  /** A frozen scope stays frozen and takes no contribution, no resource and no settlement any more. */
  lemma {:induction false} FrozenForGood(trace: seq<State>, steps: seq<Step>, root: ScopeId, runId: string,
      i: nat, j: nat, id: ScopeId)
    requires IsRun(trace, steps, root, runId) && i <= j < |trace|
    requires IsFrozen(trace[i].scopes, id) && id in trace[i].cells
    ensures IsFrozen(trace[j].scopes, id) && id in trace[j].cells
    ensures trace[j].cells[id].accepted == trace[i].cells[id].accepted
    ensures trace[j].cells[id].registered == trace[i].cells[id].registered
    ensures trace[j].cells[id].settlements == 0
    decreases j
  {
    if i == j {
      RunKeepsInvariant(trace, steps, root, runId, i);
      assert CellOk(trace[i].cells[id], trace[i].scopes[id].state, trace[i].closers, id);
    } else {
      FrozenForGood(trace, steps, root, runId, i, j - 1, id);
      RunKeepsInvariant(trace, steps, root, runId, j - 1);
      assert Leads(trace[j - 1], steps[j - 1], trace[j]);
      FrozenStep(trace[j - 1], steps[j - 1], id);
    }
  }

  lemma FrozenStep(s: State, step: Step, id: ScopeId)
    requires Shape(s) && Enabled(s, step) && IsFrozen(s.scopes, id) && s.cells[id].settlements == 0
    ensures var after := Next(s, step);
      && IsFrozen(after.scopes, id) && id in after.cells && after.cells[id].settlements == 0
      && after.cells[id].accepted == s.cells[id].accepted && after.cells[id].registered == s.cells[id].registered
  {
    StepsGoForward(s, step);
  }

  /** `frozen` does not mean every resource has begun to close: a second closer finds the resources taken,
      and freezes the scope while the first has one still to close. */
  lemma SecondCloserOvertakes() returns (trace: seq<State>, steps: seq<Step>)
    ensures IsRun(trace, steps, "root", "run")
    ensures var last := trace[|trace| - 1];
      && IsFrozen(last.scopes, "root") && "root" in last.cells
      && last.cells["root"].registered == [1, 2] && last.cells["root"].closed == [2]
  {
    var both, taken := Cell([1, 2], 0, None, [1, 2], [], []), Cell([], 0, Some(0), [1, 2], [], []);
    var half := taken.(closed := [2]);
    var ready := Closer("root", ["root"], Cleaning(0, None));
    var full, idle := ready.(phase := Cleaning(0, Some([2, 1]))), ready.(phase := Cleaning(0, Some([])));
    var atWork, done := ready.(phase := Cleaning(0, Some([1]))), ready.(phase := Cleaning(1, None));
    trace, steps := TwoClosersReady(both, ready);
    assert Reverse([1, 2]) == [2, 1];
    SingleTakes(both, [ready, ready], 0);
    trace, steps := Extend(trace, steps, Take(0), Single(Closing, taken, [full, ready]));
    assert [2, 1][1..] == [1] && [] + [2] == [2];
    SingleClosesOne(taken, [full, ready], 0);
    trace, steps := Extend(trace, steps, CloseOne(0), Single(Closing, half, [atWork, ready]));
    SingleTakes(half, [atWork, ready], 1);
    trace, steps := Extend(trace, steps, Take(1), Single(Closing, half, [atWork, idle]));
    SingleFreezes(half, [atWork, idle], 1);
    trace, steps := Extend(trace, steps, FreezeOne(1), Single(Frozen, half, [atWork, done]));
  }

  lemma TwoClosersReady(both: Cell, ready: Closer) returns (trace: seq<State>, steps: seq<Step>)
    requires both == Cell([1, 2], 0, None, [1, 2], [], []) && ready == Closer("root", ["root"], Cleaning(0, None))
    ensures IsRun(trace, steps, "root", "run") && trace[|trace| - 1] == Single(Closing, both, [ready, ready])
  {
    var one, waiting := Cell([1], 0, None, [1], [], []), Closer("root", ["root"], Waiting(0));
    trace, steps := [Single(Open, Cell([], 0, None, [], [], []), [])], [];
    assert [] + [1] == [1] && [1] + [2] == [1, 2];
    SingleRegisters(Cell([], 0, None, [], [], []), 1);
    trace, steps := Extend(trace, steps, Register("root", 1), Single(Open, one, []));
    SingleRegisters(one, 2);
    trace, steps := Extend(trace, steps, Register("root", 2), Single(Open, both, []));
    SingleCloses(both, Open, []);
    trace, steps := Extend(trace, steps, StartClose("root", ["root"]), Single(Closing, both, [waiting]));
    SingleCloses(both, Closing, [waiting]);
    trace, steps := Extend(trace, steps, StartClose("root", ["root"]), Single(Closing, both, [waiting, waiting]));
    SingleWaits(both, [waiting, waiting], 0);
    trace, steps := Extend(trace, steps, Wait(0), Single(Closing, both, [ready, waiting]));
    SingleWaits(both, [ready, waiting], 1);
    trace, steps := Extend(trace, steps, Wait(1), Single(Closing, both, [ready, ready]));
  }

  lemma Extend(trace: seq<State>, steps: seq<Step>, step: Step, after: State)
    returns (longer: seq<State>, moreSteps: seq<Step>)
    requires IsRun(trace, steps, "root", "run") && Leads(trace[|trace| - 1], step, after)
    ensures IsRun(longer, moreSteps, "root", "run") && longer[|longer| - 1] == after
  {
    longer, moreSteps := trace + [after], steps + [step];
    forall i | 0 <= i < |moreSteps| ensures Leads(longer[i], moreSteps[i], longer[i + 1]) {
      if i < |steps| {
        assert Leads(trace[i], steps[i], trace[i + 1]);
      }
    }
  }

  lemma SingleRegisters(cell: Cell, resource: Resource)
    ensures Leads(Single(Open, cell, []), Register("root", resource),
                  Single(Open, cell.(resources := cell.resources + [resource],
                                     registered := cell.registered + [resource]), []))
  {
  }

  lemma SingleWaits(cell: Cell, closers: seq<Closer>, c: nat)
    requires c < |closers| && closers[c] == Closer("root", ["root"], Waiting(0)) && cell.settlements == 0
    ensures Leads(Single(Closing, cell, closers), Wait(c),
                  Single(Closing, cell, closers[c := Closer("root", ["root"], Cleaning(0, None))]))
  {
  }

  lemma SingleTakes(cell: Cell, closers: seq<Closer>, c: nat)
    requires c < |closers| && closers[c] == Closer("root", ["root"], Cleaning(0, None))
    ensures Leads(Single(Closing, cell, closers), Take(c),
                  Single(Closing, cell.(resources := [], taker := if cell.taker.None? then Some(c) else cell.taker),
                         closers[c := Closer("root", ["root"], Cleaning(0, Some(Reverse(cell.resources))))]))
  {
  }

  lemma SingleClosesOne(cell: Cell, closers: seq<Closer>, c: nat)
    requires c < |closers| && closers[c].order == ["root"] && Cleans(closers[c]) && PendingAt(closers[c], "root") != []
    ensures var pending := PendingAt(closers[c], "root");
      Leads(Single(Closing, cell, closers), CloseOne(c),
            Single(Closing, cell.(closed := cell.closed + [pending[0]]),
                   closers[c := closers[c].(phase := Cleaning(0, Some(pending[1..])))]))
  {
  }

  lemma SingleFreezes(cell: Cell, closers: seq<Closer>, c: nat)
    requires c < |closers| && closers[c] == Closer("root", ["root"], Cleaning(0, Some([])))
    ensures Leads(Single(Closing, cell, closers), FreezeOne(c),
                  Single(Frozen, cell, closers[c := Closer("root", ["root"], Cleaning(1, None))]))
  {
  }

  function Single(state: ScopeState, cell: Cell, closers: seq<Closer>): State {
    State(map["root" := Scope(0, None, "run", 0, 0, None, state)], "root", 1, map["root" := cell], closers)
  }

  lemma SingleCloses(cell: Cell, state: ScopeState, closers: seq<Closer>)
    requires !state.Frozen?
    ensures Leads(Single(state, cell, closers), StartClose("root", ["root"]),
                  Single(Closing, cell, closers + [Closer("root", ["root"], Waiting(0))]))
  {
    var s := Single(state, cell, closers);
    assert IsClosingOrder(s.scopes, s.root, "root", ["root"]);
    assert CloseOpen(s.scopes, s.root, "root") == map["root" := s.scopes["root"].(state := Closing)];
  }
}
