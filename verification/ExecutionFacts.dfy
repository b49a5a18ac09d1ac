/** Nested execution scopes and what they add up to (roboagent/runtime/execution.py,
    roboagent/runtime/_execution/facts.py). */
module ExecutionFacts {
  import opened Basics

  type ScopeId = string

  // ---- Usage knowledge.

  datatype Usage = Usage(input: Option<nat>, output: Option<nat>, total: Option<nat>)

  /** Nothing contributed yet, known so far, or spoiled by one unknown contribution. */
  datatype Knowledge = NoUsage | KnownUsage(usage: Usage) | UnknownUsage

  function MergeCount(a: Option<nat>, b: Option<nat>): Option<nat> {
    if a.Some? && b.Some? then Some(a.value + b.value) else None
  }

  function MergeKnownUsage(a: Usage, b: Usage): Usage {
    Usage(MergeCount(a.input, b.input), MergeCount(a.output, b.output), MergeCount(a.total, b.total))
  }

  function Merge(a: Knowledge, b: Knowledge): Knowledge {
    if a.NoUsage? then b
    else if b.NoUsage? then a
    else if a.UnknownUsage? || b.UnknownUsage? then UnknownUsage
    else KnownUsage(MergeKnownUsage(a.usage, b.usage))
  }

  /** Merging is a commutative monoid with an absorbing element, so order cannot matter. */
  lemma MergeLaws(a: Knowledge, b: Knowledge, c: Knowledge)
    ensures Merge(a, b) == Merge(b, a)
    ensures Merge(Merge(a, b), c) == Merge(a, Merge(b, c))
    ensures Merge(NoUsage, a) == a && Merge(UnknownUsage, a) == UnknownUsage
  {
  }

  // ---- Facts.

  datatype EffectKind = ReadOnly | SideEffecting

  datatype EffectStatus = Succeeded | Failed | EffectCancelled | TimedOut | StatusUnknown

  datatype Certainty = Certain | CertainNoEffect | CertaintyUnknown

  datatype EffectId = EffectId(scope: ScopeId, sequence: nat)

  datatype Effect = Effect(id: Option<EffectId>, callId: string, kind: EffectKind, status: EffectStatus,
                           certainty: Certainty, committed: bool)
  {
    /** The combinations the record's constructor admits. */
    predicate Valid() {
      match status
      case Succeeded => certainty == Certain
      case StatusUnknown => certainty == CertaintyUnknown
      case _ => certainty == CertainNoEffect || certainty == CertaintyUnknown
    }
  }

  datatype ContributionId = ContributionId(scope: ScopeId, sequence: nat)

  /** `usage` is absent, known or unknown. */
  datatype Contribution = Contribution(id: ContributionId, usage: Knowledge, effects: seq<Effect>)

  datatype ScopeState = Open | Closing | Frozen

  datatype Scope = Scope(sequence: nat, parent: Option<ScopeId>, runId: string, depth: nat, agentDepth: nat,
                         toolCallId: Option<string>, state: ScopeState)

  type Scopes = map<ScopeId, Scope>

  // ---- The shape of the tree.

  /** A scope is made under an existing parent and after it. */
  predicate MadeUnderParent(scopes: Scopes, id: ScopeId)
    requires id in scopes
  {
    && scopes[id].parent.Some? && scopes[id].parent.value in scopes
    && scopes[scopes[id].parent.value].sequence < scopes[id].sequence
  }

  /** One root; every other scope was made after its parent. */
  predicate WellFormed(scopes: Scopes, root: ScopeId) {
    && root in scopes && scopes[root].parent.None?
    && forall id {:trigger MadeUnderParent(scopes, id)} | id in scopes && id != root :: MadeUnderParent(scopes, id)
  }

  function Parent(scopes: Scopes, root: ScopeId, id: ScopeId): (r: ScopeId)
    requires WellFormed(scopes, root) && id in scopes && id != root
    ensures scopes[id].parent == Some(r) && r in scopes && scopes[r].sequence < scopes[id].sequence
  {
    assert MadeUnderParent(scopes, id);
    scopes[id].parent.value
  }

  /** The walk to the root terminates because the scope sequence strictly decreases. */
  predicate IsDescendant(scopes: Scopes, root: ScopeId, id: ScopeId, ancestor: ScopeId)
    requires WellFormed(scopes, root) && id in scopes
    decreases scopes[id].sequence
  {
    id == ancestor
    || (id != root && IsDescendant(scopes, root, Parent(scopes, root, id), ancestor))
  }

  /** The ancestor just below the root; the root itself for the root. */
  function TopLevel(scopes: Scopes, root: ScopeId, id: ScopeId): (r: ScopeId)
    requires WellFormed(scopes, root) && id in scopes
    ensures r in scopes && (r == root <==> id == root)
    decreases scopes[id].sequence
  {
    if id == root || scopes[id].parent == Some(root) then id
    else TopLevel(scopes, root, Parent(scopes, root, id))
  }

  lemma {:induction false} TopLevelIsBelowRoot(scopes: Scopes, root: ScopeId, id: ScopeId, top: ScopeId)
    requires WellFormed(scopes, root) && id in scopes && id != root
    requires top in scopes && scopes[top].parent == Some(root)
    ensures TopLevel(scopes, root, id) == top <==> IsDescendant(scopes, root, id, top)
    decreases scopes[id].sequence
  {
    var parent := Parent(scopes, root, id);
    if parent == root {
      assert IsDescendant(scopes, root, id, top) <==> id == top || IsDescendant(scopes, root, root, top);
    } else {
      TopLevelIsBelowRoot(scopes, root, parent, top);
    }
  }

  lemma {:induction false} TopLevelParent(scopes: Scopes, root: ScopeId, id: ScopeId)
    requires WellFormed(scopes, root) && id in scopes && id != root
    ensures scopes[TopLevel(scopes, root, id)].parent == Some(root)
    decreases scopes[id].sequence
  {
    if Parent(scopes, root, id) != root {
      TopLevelParent(scopes, root, Parent(scopes, root, id));
    }
  }

  function Subtree(scopes: Scopes, root: ScopeId, ancestor: ScopeId): set<ScopeId>
    requires WellFormed(scopes, root)
  {
    set id | id in scopes && IsDescendant(scopes, root, id, ancestor)
  }

  lemma {:induction false} AllDescendFromRoot(scopes: Scopes, root: ScopeId, id: ScopeId)
    requires WellFormed(scopes, root) && id in scopes
    ensures IsDescendant(scopes, root, id, root)
    decreases scopes[id].sequence
  {
    if id != root {
      AllDescendFromRoot(scopes, root, Parent(scopes, root, id));
    }
  }

  lemma {:induction false} DescendantTransitive(scopes: Scopes, root: ScopeId, id: ScopeId, mid: ScopeId, top: ScopeId)
    requires WellFormed(scopes, root) && id in scopes && mid in scopes
    requires IsDescendant(scopes, root, id, mid) && IsDescendant(scopes, root, mid, top)
    ensures IsDescendant(scopes, root, id, top)
    decreases scopes[id].sequence
  {
    if id != mid {
      DescendantTransitive(scopes, root, Parent(scopes, root, id), mid, top);
    }
  }

  /** A descendant never has a smaller sequence than its ancestor. */
  lemma {:induction false} DescendantIsLater(scopes: Scopes, root: ScopeId, id: ScopeId, ancestor: ScopeId)
    requires WellFormed(scopes, root) && id in scopes && ancestor in scopes
    requires IsDescendant(scopes, root, id, ancestor)
    ensures scopes[ancestor].sequence <= scopes[id].sequence
    ensures id != ancestor ==> scopes[ancestor].sequence < scopes[id].sequence
    decreases scopes[id].sequence
  {
    if id != ancestor {
      DescendantIsLater(scopes, root, Parent(scopes, root, id), ancestor);
    }
  }

  /** Of two ancestors of one scope, one is an ancestor of the other. */
  lemma {:induction false} AncestorsAreNested(scopes: Scopes, root: ScopeId, id: ScopeId, a: ScopeId, b: ScopeId)
    requires WellFormed(scopes, root) && id in scopes && a in scopes && b in scopes
    requires IsDescendant(scopes, root, id, a) && IsDescendant(scopes, root, id, b)
    ensures IsDescendant(scopes, root, a, b) || IsDescendant(scopes, root, b, a)
    decreases scopes[id].sequence
  {
    if id != a && id != b {
      AncestorsAreNested(scopes, root, Parent(scopes, root, id), a, b);
    }
  }

  /** A new scope changes nothing about the ancestry of the others. */
  lemma {:induction false} GrowthKeepsAncestry(scopes: Scopes, root: ScopeId, added: ScopeId, scope: Scope,
                                               id: ScopeId, ancestor: ScopeId)
    requires WellFormed(scopes, root) && added !in scopes && id in scopes
    requires WellFormed(scopes[added := scope], root)
    ensures IsDescendant(scopes[added := scope], root, id, ancestor) <==> IsDescendant(scopes, root, id, ancestor)
    decreases scopes[id].sequence
  {
    if id != root && id != ancestor {
      GrowthKeepsAncestry(scopes, root, added, scope, Parent(scopes, root, id), ancestor);
    }
  }

  /** Same parents, same ancestry: state changes do not move scopes. */
  predicate SameShape(a: Scopes, b: Scopes) {
    && a.Keys == b.Keys
    && forall id | id in a ::
         && a[id].parent == b[id].parent && a[id].sequence == b[id].sequence
         && a[id].toolCallId == b[id].toolCallId
  }

  lemma {:induction false} SameShapeSameAncestry(a: Scopes, b: Scopes, root: ScopeId, id: ScopeId, ancestor: ScopeId)
    requires WellFormed(a, root) && WellFormed(b, root) && SameShape(a, b) && id in a
    ensures IsDescendant(a, root, id, ancestor) <==> IsDescendant(b, root, id, ancestor)
    decreases a[id].sequence
  {
    if id != root && id != ancestor {
      SameShapeSameAncestry(a, b, root, Parent(a, root, id), ancestor);
    }
  }

  // ---- Aggregation.

  /** The merge of all contributions made in one of the scopes `ids`. */
  function Total(contributions: seq<Contribution>, ids: set<ScopeId>): Knowledge {
    if contributions == [] then NoUsage
    else
      var last := contributions[|contributions| - 1];
      var before := Total(contributions[..|contributions| - 1], ids);
      if last.id.scope in ids then Merge(before, last.usage) else before
  }

  lemma {:induction false} TotalOfUnion(contributions: seq<Contribution>, a: set<ScopeId>, b: set<ScopeId>)
    requires a !! b
    ensures Total(contributions, a + b) == Merge(Total(contributions, a), Total(contributions, b))
  {
    if contributions != [] {
      var before := contributions[..|contributions| - 1];
      var last := contributions[|contributions| - 1];
      TotalOfUnion(before, a, b);
      var x, y := Total(before, a), Total(before, b);
      MergeLaws(x, y, last.usage);
      MergeLaws(y, last.usage, x);
      MergeLaws(x, last.usage, y);
      MergeLaws(x, y, y);
    }
  }

  lemma {:induction false} TotalConcat(a: seq<Contribution>, b: seq<Contribution>, ids: set<ScopeId>)
    ensures Total(a + b, ids) == Merge(Total(a, ids), Total(b, ids))
  {
    if b == [] {
      assert a + b == a;
      MergeLaws(Total(a, ids), NoUsage, NoUsage);
    } else {
      var before, last := b[..|b| - 1], b[|b| - 1];
      TotalConcat(a, before, ids);
      assert (a + b)[..|a + b| - 1] == a + before;
      MergeLaws(Total(a, ids), Total(before, ids), last.usage);
    }
  }

  /** Reordering the contributions does not change any total. */
  lemma {:induction false} TotalIgnoresOrder(a: seq<Contribution>, b: seq<Contribution>, ids: set<ScopeId>)
    requires multiset(a) == multiset(b)
    ensures Total(a, ids) == Total(b, ids)
    decreases |a|
  {
    if a == [] {
      assert |multiset(b)| == 0;
      assert b == [];
    } else {
      var last := a[|a| - 1];
      var before := a[..|a| - 1];
      assert a == before + [last];
      assert last in multiset(b);
      var i :| 0 <= i < |b| && b[i] == last;
      var left, right := b[..i], b[i + 1..];
      assert b == left + [last] + right;
      assert multiset(a) == multiset(before) + multiset([last]);
      assert multiset(b) == multiset(left) + multiset([last]) + multiset(right);
      assert multiset(before) == multiset(a) - multiset([last]);
      assert multiset(left) + multiset(right) == multiset(b) - multiset([last]);
      assert multiset(left + right) == multiset(left) + multiset(right);
      TotalIgnoresOrder(before, left + right, ids);
      TotalConcat(before, [last], ids);
      TotalConcat(left + [last], right, ids);
      TotalConcat(left, [last], ids);
      TotalConcat(left, right, ids);
      var x, y, z := Total(left, ids), Total([last], ids), Total(right, ids);
      MergeLaws(x, y, z);
      MergeLaws(y, z, x);
      MergeLaws(x, z, y);
    }
  }

  /** What the children of a scope add up to, child by child. */
  function TotalOfChildren(contributions: seq<Contribution>, scopes: Scopes, root: ScopeId, children: seq<ScopeId>)
    : Knowledge
    requires WellFormed(scopes, root)
  {
    if children == [] then NoUsage
    else Merge(Total(contributions, Subtree(scopes, root, children[0])),
               TotalOfChildren(contributions, scopes, root, children[1..]))
  }

  ghost predicate AreChildren(scopes: Scopes, parent: ScopeId, children: seq<ScopeId>) {
    && (forall i | 0 <= i < |children| :: children[i] in scopes && scopes[children[i]].parent == Some(parent))
    && (forall i, j | 0 <= i < j < |children| :: children[i] != children[j])
  }

  function UnionOfSubtrees(scopes: Scopes, root: ScopeId, tops: seq<ScopeId>): set<ScopeId>
    requires WellFormed(scopes, root)
  {
    if tops == [] then {} else Subtree(scopes, root, tops[0]) + UnionOfSubtrees(scopes, root, tops[1..])
  }

  lemma {:induction false} InUnion(scopes: Scopes, root: ScopeId, tops: seq<ScopeId>, id: ScopeId)
    requires WellFormed(scopes, root) && id in scopes
    ensures id in UnionOfSubtrees(scopes, root, tops) <==>
      exists i | 0 <= i < |tops| :: IsDescendant(scopes, root, id, tops[i])
  {
    if tops != [] {
      InUnion(scopes, root, tops[1..], id);
      if exists i | 0 <= i < |tops| :: IsDescendant(scopes, root, id, tops[i]) {
        var i :| 0 <= i < |tops| && IsDescendant(scopes, root, id, tops[i]);
        if i > 0 {
          assert IsDescendant(scopes, root, id, tops[1..][i - 1]);
        }
      }
      if id in UnionOfSubtrees(scopes, root, tops[1..]) {
        var i :| 0 <= i < |tops[1..]| && IsDescendant(scopes, root, id, tops[1..][i]);
        assert IsDescendant(scopes, root, id, tops[i + 1]);
      }
    }
  }

  /** Siblings have disjoint subtrees. */
  lemma SiblingsDisjoint(scopes: Scopes, root: ScopeId, parent: ScopeId, a: ScopeId, b: ScopeId)
    requires WellFormed(scopes, root) && a in scopes && b in scopes && a != b && parent in scopes
    requires scopes[a].parent == Some(parent) && scopes[b].parent == Some(parent)
    ensures Subtree(scopes, root, a) !! Subtree(scopes, root, b)
  {
    forall id | id in scopes && IsDescendant(scopes, root, id, a) && IsDescendant(scopes, root, id, b) ensures false {
      AncestorsAreNested(scopes, root, id, a, b);
      if IsDescendant(scopes, root, a, b) {
        SiblingNotBelow(scopes, root, parent, a, b);
      } else {
        SiblingNotBelow(scopes, root, parent, b, a);
      }
    }
  }

  lemma SiblingNotBelow(scopes: Scopes, root: ScopeId, parent: ScopeId, a: ScopeId, b: ScopeId)
    requires WellFormed(scopes, root) && a in scopes && b in scopes && a != b && parent in scopes
    requires scopes[a].parent == Some(parent) && scopes[b].parent == Some(parent)
    ensures !IsDescendant(scopes, root, a, b)
  {
    if IsDescendant(scopes, root, a, b) {
      assert Parent(scopes, root, b) == parent;
      DescendantIsLater(scopes, root, parent, b);
      assert false;
    }
  }

  lemma {:induction false} ChildrenTotal(contributions: seq<Contribution>, scopes: Scopes, root: ScopeId,
                                         parent: ScopeId, children: seq<ScopeId>)
    requires WellFormed(scopes, root) && parent in scopes && AreChildren(scopes, parent, children)
    ensures Total(contributions, UnionOfSubtrees(scopes, root, children))
         == TotalOfChildren(contributions, scopes, root, children)
  {
    if children == [] {
      NothingIncluded(contributions);
    } else {
      var head, rest := children[0], children[1..];
      ChildrenTotal(contributions, scopes, root, parent, rest);
      forall id | id in Subtree(scopes, root, head) ensures id !in UnionOfSubtrees(scopes, root, rest) {
        InUnion(scopes, root, rest, id);
        if id in UnionOfSubtrees(scopes, root, rest) {
          var i :| 0 <= i < |rest| && IsDescendant(scopes, root, id, rest[i]);
          SiblingsDisjoint(scopes, root, parent, head, rest[i]);
          assert false;
        }
      }
      TotalOfUnion(contributions, Subtree(scopes, root, head), UnionOfSubtrees(scopes, root, rest));
    }
  }

  lemma {:induction false} NothingIncluded(contributions: seq<Contribution>)
    ensures Total(contributions, {}) == NoUsage
  {
    if contributions != [] {
      NothingIncluded(contributions[..|contributions| - 1]);
    }
  }

  /** The usage of a scope is its own contributions merged with the usage of every child. */
  lemma UsageIsOwnPlusChildren(contributions: seq<Contribution>, scopes: Scopes, root: ScopeId, parent: ScopeId,
                               children: seq<ScopeId>)
    requires WellFormed(scopes, root) && parent in scopes && AreChildren(scopes, parent, children)
    requires forall id | id in scopes && scopes[id].parent == Some(parent) :: id in children
    ensures Total(contributions, Subtree(scopes, root, parent))
         == Merge(Total(contributions, {parent}), TotalOfChildren(contributions, scopes, root, children))
  {
    var below := UnionOfSubtrees(scopes, root, children);
    forall id | id in scopes ensures id in below <==> id != parent && IsDescendant(scopes, root, id, parent) {
      InUnion(scopes, root, children, id);
      BelowSomeChild(scopes, root, parent, children, id);
    }
    forall id | id in below ensures id in scopes {
      OnlyScopes(scopes, root, children, id);
    }
    assert Subtree(scopes, root, parent) == {parent} + below;
    TotalOfUnion(contributions, {parent}, below);
    ChildrenTotal(contributions, scopes, root, parent, children);
  }

  lemma {:induction false} OnlyScopes(scopes: Scopes, root: ScopeId, tops: seq<ScopeId>, id: ScopeId)
    requires WellFormed(scopes, root) && id in UnionOfSubtrees(scopes, root, tops)
    ensures id in scopes
  {
    if id !in Subtree(scopes, root, tops[0]) {
      OnlyScopes(scopes, root, tops[1..], id);
    }
  }

  lemma {:induction false} BelowSomeChild(scopes: Scopes, root: ScopeId, parent: ScopeId, children: seq<ScopeId>,
                                          id: ScopeId)
    requires WellFormed(scopes, root) && parent in scopes && id in scopes && AreChildren(scopes, parent, children)
    requires forall c | c in scopes && scopes[c].parent == Some(parent) :: c in children
    ensures (exists i | 0 <= i < |children| :: IsDescendant(scopes, root, id, children[i]))
       <==> id != parent && IsDescendant(scopes, root, id, parent)
    decreases scopes[id].sequence
  {
    if id != parent && IsDescendant(scopes, root, id, parent) {
      if Parent(scopes, root, id) == parent {
        var i :| 0 <= i < |children| && children[i] == id;
        assert IsDescendant(scopes, root, id, children[i]);
      } else {
        BelowSomeChild(scopes, root, parent, children, Parent(scopes, root, id));
        var i :| 0 <= i < |children| && IsDescendant(scopes, root, Parent(scopes, root, id), children[i]);
        assert IsDescendant(scopes, root, id, children[i]);
      }
    }
    if exists i | 0 <= i < |children| :: IsDescendant(scopes, root, id, children[i]) {
      var i :| 0 <= i < |children| && IsDescendant(scopes, root, id, children[i]);
      DescendantIsLater(scopes, root, id, children[i]);
      assert Parent(scopes, root, children[i]) == parent;
      assert IsDescendant(scopes, root, children[i], parent);
      DescendantTransitive(scopes, root, id, children[i], parent);
    }
  }
}
