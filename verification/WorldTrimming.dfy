/** Selection of world entries under a token budget (roboagent/context/world.py). */
module WorldTrimming {
  import opened Basics
  import opened Messages
  import opened EntityRefs

  datatype WorldStatus = Known | Unknown | Stale | Conflicted

  datatype WorldEntry = WorldEntry(key: string, entity: string, status: WorldStatus)

  const MAX_UNPROTECTED := 64

  /** Keys of the relevant entries whose status is uncertain. */
  function ProtectedKeys(ordered: seq<WorldEntry>, relevant: set<string>): set<string> {
    set e | e in ordered && e.entity in relevant && e.status != Known :: e.key
  }

  // ---- Ranking.

  /** Lower comes first: mentioned before depended upon before the rest, then later mentions, then uncertain
      relevant entries, then later entries. */
  datatype Rank = Rank(category: int, mention: int, certainty: int, recency: int)

  predicate Precedes(a: Rank, b: Rank) {
    a.category < b.category
    || (a.category == b.category
        && (a.mention < b.mention
            || (a.mention == b.mention
                && (a.certainty < b.certainty || (a.certainty == b.certainty && a.recency < b.recency)))))
  }

  /** The last message that mentions an entity, or -1; each message is given by the entities it mentions. */
  function LastMention(mentions: seq<set<string>>, entity: string): (last: int)
    ensures -1 <= last < |mentions| && (last >= 0 ==> entity in mentions[last])
    ensures forall i | last < i < |mentions| :: entity !in mentions[i]
  {
    if mentions == [] then -1
    else if entity in mentions[|mentions| - 1] then |mentions| - 1
    else LastMention(mentions[..|mentions| - 1], entity)
  }

  function RankOf(entry: WorldEntry, index: int, last: int, dependencies: set<string>): Rank {
    var category := if last >= 0 then 0 else if entry.entity in dependencies then 1 else 2;
    Rank(category, -last, if entry.status != Known && category < 2 then 0 else 1, -index)
  }

  function RankAt(entries: seq<WorldEntry>, k: int, mentions: seq<set<string>>, dependencies: set<string>): Rank
    requires 0 <= k < |entries|
  {
    RankOf(entries[k], k, LastMention(mentions, entries[k].entity), dependencies)
  }

  ghost predicate TableIs(table: map<string, int>, mentions: seq<set<string>>) {
    forall entity ::
      && (entity in table <==> LastMention(mentions, entity) >= 0)
      && (entity in table ==> table[entity] == LastMention(mentions, entity))
  }

  /** Where each entity was mentioned last. */
  method MentionTable(mentions: seq<set<string>>) returns (table: map<string, int>)
    ensures TableIs(table, mentions)
  {
    table := map[];
    for i := 0 to |mentions|
      invariant TableIs(table, mentions[..i])
    {
      assert mentions[..i + 1][..i] == mentions[..i];
      table := table + map entity | entity in mentions[i] :: i;
    }
    assert mentions[..|mentions|] == mentions;
  }

  ghost predicate RankedSoFar(entries: seq<WorldEntry>, order: seq<int>, n: int, mentions: seq<set<string>>,
                              dependencies: set<string>) {
    && |order| == n <= |entries| && (forall i | 0 <= i < |order| :: 0 <= order[i] < n)
    && (forall k | 0 <= k < n :: k in order)
    && forall i, j | 0 <= i < j < |order| ::
         Precedes(RankAt(entries, order[i], mentions, dependencies), RankAt(entries, order[j], mentions, dependencies))
  }

  /** Where the entry `k` belongs in an order, from position `at` on. */
  function Place(entries: seq<WorldEntry>, order: seq<int>, k: int, at: nat, mentions: seq<set<string>>,
                 dependencies: set<string>): (place: nat)
    requires at <= |order| && 0 <= k < |entries| && forall i | 0 <= i < |order| :: 0 <= order[i] < |entries|
    ensures at <= place <= |order|
    ensures forall i | at <= i < place ::
      Precedes(RankAt(entries, order[i], mentions, dependencies), RankAt(entries, k, mentions, dependencies))
    ensures place < |order| ==>
      !Precedes(RankAt(entries, order[place], mentions, dependencies), RankAt(entries, k, mentions, dependencies))
    decreases |order| - at
  {
    if at == |order|
       || !Precedes(RankAt(entries, order[at], mentions, dependencies), RankAt(entries, k, mentions, dependencies))
    then at
    else Place(entries, order, k, at + 1, mentions, dependencies)
  }

  /** The first `n` entries in rank order, by their positions. */
  function RankedOrder(entries: seq<WorldEntry>, n: nat, mentions: seq<set<string>>, dependencies: set<string>)
    : (order: seq<int>)
    requires n <= |entries|
    ensures RankedSoFar(entries, order, n, mentions, dependencies)
  {
    if n == 0 then []
    else
      var before := RankedOrder(entries, n - 1, mentions, dependencies);
      var at := Place(entries, before, n - 1, 0, mentions, dependencies);
      Inserted(entries, before, n - 1, at, mentions, dependencies);
      InsertAt(before, at, n - 1)
  }

  /** The positions of the entries in rank order: every entry once, lower ranks first. */
  method RankEntries(entries: seq<WorldEntry>, mentions: seq<set<string>>, dependencies: set<string>)
    returns (order: seq<int>)
    ensures order == RankedOrder(entries, |entries|, mentions, dependencies)
    ensures RankedSoFar(entries, order, |entries|, mentions, dependencies)
  {
    var table := MentionTable(mentions);
    order := [];
    for k := 0 to |entries|
      invariant order == RankedOrder(entries, k, mentions, dependencies)
    {
      var at := FindPlace(entries, order, k, table, mentions, dependencies);
      order := InsertAt(order, at, k);
    }
  }

  method FindPlace(entries: seq<WorldEntry>, order: seq<int>, k: int, table: map<string, int>,
                   ghost mentions: seq<set<string>>, dependencies: set<string>) returns (at: nat)
    requires 0 <= k < |entries| && forall i | 0 <= i < |order| :: 0 <= order[i] < |entries|
    requires TableIs(table, mentions)
    ensures at == Place(entries, order, k, 0, mentions, dependencies)
  {
    at := 0;
    while at < |order| && Precedes(TableRank(entries[order[at]], order[at], table, dependencies),
                                   TableRank(entries[k], k, table, dependencies))
      invariant at <= |order|
      invariant Place(entries, order, k, 0, mentions, dependencies)
             == Place(entries, order, k, at, mentions, dependencies)
    {
      at := at + 1;
    }
  }

  function InsertAt(order: seq<int>, at: nat, k: int): seq<int>
    requires at <= |order|
  {
    order[..at] + [k] + order[at..]
  }

  function TableRank(entry: WorldEntry, index: int, table: map<string, int>, dependencies: set<string>): Rank {
    RankOf(entry, index, if entry.entity in table then table[entry.entity] else -1, dependencies)
  }

  lemma Inserted(entries: seq<WorldEntry>, order: seq<int>, k: int, at: int, mentions: seq<set<string>>,
                 dependencies: set<string>)
    requires RankedSoFar(entries, order, k, mentions, dependencies) && 0 <= at <= |order| && k < |entries|
    requires forall i | 0 <= i < at ::
      Precedes(RankAt(entries, order[i], mentions, dependencies), RankAt(entries, k, mentions, dependencies))
    requires at < |order| ==>
      !Precedes(RankAt(entries, order[at], mentions, dependencies), RankAt(entries, k, mentions, dependencies))
    ensures RankedSoFar(entries, InsertAt(order, at, k), k + 1, mentions, dependencies)
  {
    var longer := InsertAt(order, at, k);
    forall x | 0 <= x < k + 1 ensures x in longer {
      if x == k {
        assert longer[at] == k;
      } else {
        assert x in order;
        var i :| 0 <= i < |order| && order[i] == x;
        assert longer[if i < at then i else i + 1] == x;
      }
    }
    forall i | at <= i < |order|
      ensures Precedes(RankAt(entries, k, mentions, dependencies), RankAt(entries, order[i], mentions, dependencies))
    {
      assert order[at] != k;
    }
  }

  function Relevant(mentions: seq<set<string>>, dependencies: set<string>): set<string> {
    if mentions == [] then dependencies
    else Relevant(mentions[..|mentions| - 1], dependencies) + mentions[|mentions| - 1]
  }

  lemma {:induction false} RelevantMeans(mentions: seq<set<string>>, dependencies: set<string>, entity: string)
    ensures entity in Relevant(mentions, dependencies) <==>
      LastMention(mentions, entity) >= 0 || entity in dependencies
  {
    if mentions != [] {
      RelevantMeans(mentions[..|mentions| - 1], dependencies, entity);
    }
  }

  /** In rank order every relevant entry, and so every protected one, comes before every irrelevant one. */
  lemma RelevantFirst(entries: seq<WorldEntry>, order: seq<int>, mentions: seq<set<string>>,
                      dependencies: set<string>, i: int, j: int)
    requires RankedSoFar(entries, order, |entries|, mentions, dependencies)
    requires 0 <= i < |order| && 0 <= j < |order|
    requires entries[order[i]].entity in Relevant(mentions, dependencies)
    requires entries[order[j]].entity !in Relevant(mentions, dependencies)
    ensures i < j
  {
    RelevantMeans(mentions, dependencies, entries[order[i]].entity);
    RelevantMeans(mentions, dependencies, entries[order[j]].entity);
  }

  // ---- What may be shown.

  /** Entries, in rank order, that may be shown at all. */
  function Bounded(ordered: seq<WorldEntry>, protected: set<string>): seq<WorldEntry> {
    if |ordered| <= MAX_UNPROTECTED then ordered
    else ordered[..MAX_UNPROTECTED] + Keep(ordered[MAX_UNPROTECTED..], protected, 0)
  }

  function CountUnprotected(entries: seq<WorldEntry>, protected: set<string>): nat {
    if entries == [] then 0
    else (if entries[0].key in protected then 0 else 1) + CountUnprotected(entries[1..], protected)
  }

  /** All protected entries and the first `k` others, in the order given. */
  function Keep(entries: seq<WorldEntry>, protected: set<string>, k: nat): seq<WorldEntry> {
    if entries == [] then []
    else if entries[0].key in protected then [entries[0]] + Keep(entries[1..], protected, k)
    else if k > 0 then [entries[0]] + Keep(entries[1..], protected, k - 1)
    else Keep(entries[1..], protected, 0)
  }

  lemma {:induction false} KeepAll(entries: seq<WorldEntry>, protected: set<string>)
    ensures Keep(entries, protected, CountUnprotected(entries, protected)) == entries
  {
    if entries != [] {
      KeepAll(entries[1..], protected);
    }
  }

  lemma {:induction false} KeptUnprotected(entries: seq<WorldEntry>, protected: set<string>, k: nat)
    requires k <= CountUnprotected(entries, protected)
    ensures CountUnprotected(Keep(entries, protected, k), protected) == k
    ensures k == 0 ==> forall i | 0 <= i < |Keep(entries, protected, 0)| ::
      Keep(entries, protected, 0)[i].key in protected
  {
    if entries != [] {
      var kept := Keep(entries, protected, k);
      if entries[0].key in protected {
        KeptUnprotected(entries[1..], protected, k);
        assert kept[1..] == Keep(entries[1..], protected, k);
      } else if k > 0 {
        KeptUnprotected(entries[1..], protected, k - 1);
        assert kept[1..] == Keep(entries[1..], protected, k - 1);
      } else {
        KeptUnprotected(entries[1..], protected, 0);
      }
    }
  }

  /** Every protected entry is kept, whatever `k`. */
  lemma {:induction false} KeepsProtected(entries: seq<WorldEntry>, protected: set<string>, k: nat, i: nat)
    requires i < |entries| && entries[i].key in protected
    ensures entries[i] in Keep(entries, protected, k)
  {
    if i > 0 {
      KeepsProtected(entries[1..], protected,
                     if entries[0].key in protected || k == 0 then k else k - 1, i - 1);
    }
  }

  /** Index of the last unprotected entry, or none. */
  method LastRemovable(entries: seq<WorldEntry>, protected: set<string>) returns (r: Option<nat>)
    ensures r.None? ==> forall i | 0 <= i < |entries| :: entries[i].key in protected
    ensures r.Some? ==> r.value < |entries| && entries[r.value].key !in protected
    ensures r.Some? ==> forall i | r.value < i < |entries| :: entries[i].key in protected
  {
    var index := |entries|;
    while index > 0
      invariant 0 <= index <= |entries|
      invariant forall i | index <= i < |entries| :: entries[i].key in protected
    {
      index := index - 1;
      if entries[index].key !in protected {
        return Some(index);
      }
    }
    return None;
  }

  function DropAt(entries: seq<WorldEntry>, at: nat): seq<WorldEntry>
    requires at < |entries|
  {
    entries[..at] + entries[at + 1..]
  }

  lemma DropAtCons(head: WorldEntry, tail: seq<WorldEntry>, at: nat)
    requires at < |tail|
    ensures DropAt([head] + tail, at + 1) == [head] + DropAt(tail, at)
  {
  }

  ghost predicate LastUnprotected(entries: seq<WorldEntry>, protected: set<string>, at: nat) {
    && at < |entries| && entries[at].key !in protected
    && forall i | at < i < |entries| :: entries[i].key in protected
  }

  lemma LastUnprotectedCons(head: WorldEntry, tail: seq<WorldEntry>, protected: set<string>, at: nat)
    requires LastUnprotected([head] + tail, protected, at)
    ensures at > 0 ==> LastUnprotected(tail, protected, at - 1)
    ensures at == 0 ==> head.key !in protected && forall i | 0 <= i < |tail| :: tail[i].key in protected
  {
    var entries := [head] + tail;
    assert forall i | 0 <= i < |tail| :: tail[i] == entries[i + 1];
  }

  /** Dropping the last unprotected entry takes one off the count that is kept. */
  lemma {:induction false} DropLastUnprotected(entries: seq<WorldEntry>, protected: set<string>, k: nat, at: nat)
    requires 0 < k <= CountUnprotected(entries, protected)
    requires LastUnprotected(Keep(entries, protected, k), protected, at)
    ensures DropAt(Keep(entries, protected, k), at) == Keep(entries, protected, k - 1)
  {
    var head, rest := entries[0], entries[1..];
    var left := if head.key in protected then k else k - 1;
    var tail := Keep(rest, protected, left);
    LastUnprotectedCons(head, tail, protected, at);
    KeptUnprotected(rest, protected, left);
    if at == 0 {
      NoneLeft(tail, protected);
      assert DropAt([head] + tail, 0) == tail;
    } else {
      if left == 0 {
        assert false;
      }
      DropLastUnprotected(rest, protected, left, at - 1);
      DropAtCons(head, tail, at - 1);
    }
  }

  lemma {:induction false} NoneLeft(entries: seq<WorldEntry>, protected: set<string>)
    requires forall i | 0 <= i < |entries| :: entries[i].key in protected
    ensures CountUnprotected(entries, protected) == 0
  {
    if entries != [] {
      NoneLeft(entries[1..], protected);
    }
  }

  /** The entries past the first 64 in rank order are shown only when protected. */
  lemma BoundedShape(ordered: seq<WorldEntry>, protected: set<string>, i: nat)
    requires i < |ordered|
    ensures i < MAX_UNPROTECTED || ordered[i].key in protected ==> ordered[i] in Bounded(ordered, protected)
    ensures CountUnprotected(Bounded(ordered, protected), protected) <= MAX_UNPROTECTED
  {
    var bounded := Bounded(ordered, protected);
    if |ordered| > MAX_UNPROTECTED {
      var head, tail := ordered[..MAX_UNPROTECTED], Keep(ordered[MAX_UNPROTECTED..], protected, 0);
      KeptUnprotected(ordered[MAX_UNPROTECTED..], protected, 0);
      CountConcat(head, tail, protected);
      CountAtMost(head, protected);
      if i >= MAX_UNPROTECTED && ordered[i].key in protected {
        KeepsProtected(ordered[MAX_UNPROTECTED..], protected, 0, i - MAX_UNPROTECTED);
      } else if i < MAX_UNPROTECTED {
        assert head[i] == ordered[i] && bounded[i] == head[i];
      }
    } else {
      CountAtMost(ordered, protected);
    }
  }

  lemma {:induction false} CountAtMost(entries: seq<WorldEntry>, protected: set<string>)
    ensures CountUnprotected(entries, protected) <= |entries|
  {
    if entries != [] {
      CountAtMost(entries[1..], protected);
    }
  }

  lemma {:induction false} CountConcat(a: seq<WorldEntry>, b: seq<WorldEntry>, protected: set<string>)
    ensures CountUnprotected(a + b, protected) == CountUnprotected(a, protected) + CountUnprotected(b, protected)
  {
    if a == [] {
      assert a + b == b;
    } else {
      CountConcat(a[1..], b, protected);
      assert (a + b)[1..] == a[1..] + b;
    }
  }

  method BoundedEntries(ordered: seq<WorldEntry>, protected: set<string>) returns (r: seq<WorldEntry>)
    ensures r == Bounded(ordered, protected)
  {
    r := [];
    for index := 0 to |ordered|
      invariant r == Bounded(ordered[..index], protected)
    {
      assert ordered[..index + 1] == ordered[..index] + [ordered[index]];
      if index >= MAX_UNPROTECTED {
        var late := ordered[..index][MAX_UNPROTECTED..];
        assert ordered[..index + 1][MAX_UNPROTECTED..] == late + [ordered[index]];
        assert ordered[..index + 1][..MAX_UNPROTECTED] == ordered[..index][..MAX_UNPROTECTED];
        KeepProtectedSnoc(late, protected, ordered[index]);
        assert index == MAX_UNPROTECTED ==> late == [];
      }
      if index < MAX_UNPROTECTED || ordered[index].key in protected {
        r := r + [ordered[index]];
      }
    }
    assert ordered[..|ordered|] == ordered;
  }

  lemma {:induction false} KeepProtectedSnoc(entries: seq<WorldEntry>, protected: set<string>, last: WorldEntry)
    ensures Keep(entries + [last], protected, 0)
         == Keep(entries, protected, 0) + if last.key in protected then [last] else []
  {
    if entries == [] {
      assert entries + [last] == [last];
    } else {
      KeepProtectedSnoc(entries[1..], protected, last);
      assert (entries + [last])[1..] == entries[1..] + [last];
    }
  }

  // ---- The trimming loop.

  datatype EstimationError = EstimationError

  /** Scanning down from `k`: the largest count whose selection fits, if any does. */
  function FitFrom(cost: seq<WorldEntry> -> Option<nat>, limit: nat, entries: seq<WorldEntry>,
                   protected: set<string>, k: nat): Result<Option<nat>, EstimationError>
    decreases k
  {
    match cost(Keep(entries, protected, k))
    case None => Err(EstimationError)
    case Some(tokens) =>
      if tokens <= limit then Ok(Some(k))
      else if k == 0 then Ok(None)
      else FitFrom(cost, limit, entries, protected, k - 1)
  }

  predicate Fits(cost: seq<WorldEntry> -> Option<nat>, limit: nat, entries: seq<WorldEntry>,
                 protected: set<string>, k: nat)
  {
    var tokens := cost(Keep(entries, protected, k));
    tokens.Some? && tokens.value <= limit
  }

  /** The answer of the scan is the largest `k` that fits; there is none exactly when the
      protected entries alone do not fit either. */
  lemma {:induction false} FitFromIsLargest(cost: seq<WorldEntry> -> Option<nat>, limit: nat,
                                            entries: seq<WorldEntry>, protected: set<string>, k: nat)
    requires FitFrom(cost, limit, entries, protected, k).Ok?
    ensures var best := FitFrom(cost, limit, entries, protected, k).value;
      && (best.Some? ==> best.value <= k && Fits(cost, limit, entries, protected, best.value))
      && (forall j | 0 <= j <= k && Fits(cost, limit, entries, protected, j) ::
            best.Some? && j <= best.value)
  {
    var tokens := cost(Keep(entries, protected, k));
    if tokens.value > limit && k > 0 {
      FitFromIsLargest(cost, limit, entries, protected, k - 1);
    }
  }

  /** Drops unprotected entries from the end of the ranking until the request fits.
      `k` counts the unprotected entries that survive. */
  method Trim(cost: seq<WorldEntry> -> Option<nat>, limit: nat, entries: seq<WorldEntry>, protected: set<string>)
    returns (r: Result<bool, EstimationError>, kept: seq<WorldEntry>, ghost k: nat)
    ensures k <= CountUnprotected(entries, protected) && kept == Keep(entries, protected, k)
    ensures r.Err? <==> FitFrom(cost, limit, entries, protected, CountUnprotected(entries, protected)).Err?
    ensures r == Ok(true) ==>
      FitFrom(cost, limit, entries, protected, CountUnprotected(entries, protected)) == Ok(Some(k))
    ensures r == Ok(false) ==>
      && k == 0
      && FitFrom(cost, limit, entries, protected, CountUnprotected(entries, protected)) == Ok(None)
  {
    kept, k := entries, CountUnprotected(entries, protected);
    KeepAll(entries, protected);
    while true
      invariant k <= CountUnprotected(entries, protected) && kept == Keep(entries, protected, k)
      invariant FitFrom(cost, limit, entries, protected, CountUnprotected(entries, protected))
             == FitFrom(cost, limit, entries, protected, k)
      decreases k
    {
      var tokens := cost(kept);
      if tokens.None? {
        return Err(EstimationError), kept, k;
      }
      if tokens.value <= limit {
        return Ok(true), kept, k;
      }
      KeptUnprotected(entries, protected, k);
      var removable := LastRemovable(kept, protected);
      if removable.None? {
        NoneLeft(kept, protected);
        return Ok(false), kept, k;
      }
      DropLastUnprotected(entries, protected, k, removable.value);
      kept := kept[..removable.value] + kept[removable.value + 1..];
      k := k - 1;
    }
  }

  function Arranged(entries: seq<WorldEntry>, order: seq<int>): seq<WorldEntry>
    requires forall i | 0 <= i < |order| :: 0 <= order[i] < |entries|
  {
    seq(|order|, i requires 0 <= i < |order| => entries[order[i]])
  }

  function Ordered(entries: seq<WorldEntry>, mentions: seq<set<string>>, dependencies: set<string>): seq<WorldEntry> {
    Arranged(entries, RankedOrder(entries, |entries|, mentions, dependencies))
  }

  /** Composition of a request around world entries. Without a limit everything bounded is kept;
      with one, the largest selection that fits, and failure exactly when the protected entries
      alone exceed it. */
  method PrepareWorld(cost: seq<WorldEntry> -> Option<nat>, limit: Option<nat>, entries: seq<WorldEntry>,
                      worldId: string, transcript: seq<AgentMessage>, tools: seq<Tool>)
    returns (r: Result<bool, EstimationError>, kept: seq<WorldEntry>)
    ensures var mentions := Mentions(transcript, tools, Some(worldId));
      var ordered := Ordered(entries, mentions, Dependencies(tools));
      var protected := ProtectedKeys(ordered, Relevant(mentions, Dependencies(tools)));
      var bounded, k := Bounded(ordered, protected), CountUnprotected(kept, protected);
      && k <= CountUnprotected(bounded, protected) <= MAX_UNPROTECTED && kept == Keep(bounded, protected, k)
      && (limit.None? ==> r == Ok(true) && kept == bounded)
      && (limit.Some? && r == Ok(true) ==>
            && cost(kept).Some? && cost(kept).value <= limit.value
            && forall j | k < j <= CountUnprotected(bounded, protected) ::
                 !Fits(cost, limit.value, bounded, protected, j))
      && (limit.Some? && r == Ok(false) ==>
            && k == 0
            && forall j | 0 <= j <= CountUnprotected(bounded, protected) ::
                 !Fits(cost, limit.value, bounded, protected, j))
  {
    var mentions := Mentions(transcript, tools, Some(worldId));
    var order := RankEntries(entries, mentions, Dependencies(tools));
    var ordered := Arranged(entries, order);
    var protected := ProtectedKeys(ordered, Relevant(mentions, Dependencies(tools)));
    var bounded := BoundedEntries(ordered, protected);
    if ordered != [] {
      BoundedShape(ordered, protected, 0);
    }
    if limit.None? {
      KeepAll(bounded, protected);
      return Ok(true), bounded;
    }
    ghost var k;
    r, kept, k := Trim(cost, limit.value, bounded, protected);
    KeptUnprotected(bounded, protected, k);
    if r.Ok? {
      FitFromIsLargest(cost, limit.value, bounded, protected, CountUnprotected(bounded, protected));
    }
  }
}
