/** Small vocabulary shared by every component. */
module Basics {

  datatype Option<+T> = None | Some(value: T)

  datatype Result<+T, +E> = Ok(value: T) | Err(error: E) {
    predicate IsFailure() {
      Err?
    }

    function PropagateFailure<U>(): Result<U, E>
      requires Err?
    {
      Err(error)
    }

    function Extract(): T
      requires Ok?
    {
      value
    }
  }

  /** Concatenation of a sequence of sequences, left to right. */
  function Flatten<T>(parts: seq<seq<T>>): (r: seq<T>) {
    if parts == [] then [] else parts[0] + Flatten(parts[1..])
  }

  lemma {:induction false} FlattenConcat<T>(a: seq<seq<T>>, b: seq<seq<T>>)
    ensures Flatten(a + b) == Flatten(a) + Flatten(b)
  {
    if a == [] {
      assert a + b == b;
    } else {
      assert (a + b)[1..] == a[1..] + b;
      FlattenConcat(a[1..], b);
      assert Flatten(a + b) == a[0] + (Flatten(a[1..]) + Flatten(b));
    }
  }

  lemma FlattenSnoc<T>(a: seq<seq<T>>, last: seq<T>)
    ensures Flatten(a + [last]) == Flatten(a) + last
  {
    FlattenConcat(a, [last]);
    assert Flatten([last]) == last + Flatten([last][1..]);
  }

  lemma Regroup<T>(a: seq<T>, b: seq<T>)
    requires b != []
    ensures a + [b[0]] + b[1..] == a + b
  {
  }

  lemma TailOfConcat<T>(a: seq<T>, b: seq<T>)
    requires a != []
    ensures (a + b)[0] == a[0] && (a + b)[1..] == a[1..] + b
  {
  }

  lemma SplitAt<T>(s: seq<T>, k: nat)
    requires k < |s|
    ensures s == s[..k] + [s[k]] + s[k + 1..]
  {
  }

  lemma Rejoin<T>(a: seq<T>, b: seq<T>, n: nat)
    requires n <= |b|
    ensures a + b[..n] + b[n..] == a + b
  {
  }

  lemma Reassociate<T>(a: seq<T>, b: seq<T>, c: seq<T>)
    ensures a + (b + c) == a + b + c
  {
  }

  lemma PrefixUnder<T>(a: seq<T>, b: seq<T>, c: seq<T>)
    requires b <= c
    ensures a + b <= a + c
  {
    assert c == b + c[|b|..];
    Reassociate(a, b, c[|b|..]);
  }

  lemma Inhabited(keys: set<int>)
    ensures keys == {} || exists k :: k in keys
  {
    if !exists k :: k in keys {
      assert keys == {};
    }
  }

  lemma MinExists(keys: set<int>) returns (m: int)
    requires keys != {}
    ensures m in keys && forall k | k in keys :: m <= k
    decreases |keys|
  {
    Inhabited(keys);
    var some :| some in keys;
    var rest := keys - {some};
    m := some;
    if rest != {} {
      var least := MinExists(rest);
      m := if least < some then least else some;
    }
    forall k | k in keys ensures m <= k {
      assert k == some || k in rest;
    }
  }

  lemma HasLeast(keys: set<int>)
    requires keys != {}
    ensures exists m :: m in keys && forall k | k in keys :: m <= k
  {
    var m := MinExists(keys);
  }

  function Least(keys: set<int>): (m: int)
    requires keys != {}
    ensures m in keys && forall k | k in keys :: m <= k
  {
    HasLeast(keys);
    var m :| m in keys && forall k | k in keys :: m <= k;
    m
  }

  /** The keys in ascending order. */
  function Sorted(keys: set<int>): (order: seq<int>)
    ensures |order| == |keys| && forall k :: k in order <==> k in keys
    decreases |keys|
  {
    if keys == {} then []
    else
      var m := Least(keys);
      [m] + Sorted(keys - {m})
  }

  lemma {:induction false} SortedAscends(keys: set<int>)
    ensures forall i, j | 0 <= i < j < |Sorted(keys)| :: Sorted(keys)[i] < Sorted(keys)[j]
    decreases |keys|
  {
    if keys != {} {
      SortedAscends(keys - {Least(keys)});
      var rest := Sorted(keys - {Least(keys)});
      assert forall j | 0 <= j < |rest| :: rest[j] in rest && rest[j] in keys - {Least(keys)};
    }
  }
}
