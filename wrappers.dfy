/** Option and Result values, and small facts about finite sets and maps, shared by the modules of this model. */
module Wrappers {

  datatype Option<+T> = None | Some(value: T)

  datatype Result<+T, +E> = Ok(value: T) | Err(error: E)

  function Max(a: int, b: int): int { if a < b then b else a }

  function MaxReal(a: real, b: real): real { if a < b then b else a }

  function MinInt(a: int, b: int): int { if a < b then a else b }

  /** Some element of a non-empty set (the order in which Python iterates a dict is not modelled). */
  method Pick<T>(s: set<T>) returns (x: T)
    requires s != {}
    ensures x in s
  {
    x :| x in s;
  }

  /** A subset is no larger than the set that contains it. */
  lemma {:induction false} SubsetCard<T>(a: set<T>, b: set<T>)
    requires a <= b
    ensures |a| <= |b|
    decreases |b|
  {
    if a != {} {
      var x :| x in a;
      SubsetCard(a - {x}, b - {x});
    }
  }

  lemma MapRemoveSize<K, V>(m: map<K, V>, k: K)
    requires k in m
    ensures |m - {k}| == |m| - 1
  {
    assert (m - {k}).Keys == m.Keys - {k};
    assert |m.Keys - {k}| == |m.Keys| - 1;
  }

  lemma MapUpdateSize<K, V>(m: map<K, V>, k: K, v: V)
    requires k !in m
    ensures |m[k := v]| == |m| + 1
  {
    assert m[k := v].Keys == m.Keys + {k};
  }

  /** A map whose keys are among another's is no larger. */
  lemma SubmapCard<K, V>(a: map<K, V>, b: map<K, V>)
    requires a.Keys <= b.Keys
    ensures |a| <= |b|
  {
    SubsetCard(a.Keys, b.Keys);
  }

  /** The last `cap` entries of `h`, or all of it when shorter: Python's `h[-cap:]`, and the contents of a `deque(maxlen=cap)` after appending. */
  function KeepLast<T>(h: seq<T>, cap: nat): (r: seq<T>)
    ensures |r| == if |h| <= cap then |h| else cap
    ensures r == h[|h| - (if |h| <= cap then |h| else cap)..]
  {
    if |h| <= cap then h else h[|h| - cap..]
  }

  /** The entry just appended is the newest one kept. */
  lemma KeepLastEndsWith<T>(h: seq<T>, x: T, cap: nat)
    requires cap >= 1
    ensures KeepLast(h + [x], cap) != [] && KeepLast(h + [x], cap)[|KeepLast(h + [x], cap)| - 1] == x
  {
  }

  /** One append to a history within its bound: kept whole, or its oldest entry dropped when full. */
  lemma KeepLastAppend<T>(h: seq<T>, x: T, cap: nat)
    requires 1 <= cap && |h| <= cap
    ensures KeepLast(h + [x], cap) == if |h| < cap then h + [x] else h[1..] + [x]
  {
  }

  /** A history that still fits keeps everything. */
  lemma KeepLastFits<T>(h: seq<T>, cap: nat)
    requires |h| <= cap
    ensures KeepLast(h, cap) == h
  {
  }

  /** A new element grows a set by one. */
  lemma AddOneCard<T>(done: set<T>, x: T)
    requires x !in done
    ensures |done + {x}| == |done| + 1
  {
  }

  /** Moving one element from a to-do set to a done set keeps their union and their disjointness. */
  lemma MoveOne<T>(todo: set<T>, done: set<T>, x: T)
    requires x in todo && todo !! done
    ensures (todo - {x}) + (done + {x}) == todo + done && (todo - {x}) !! (done + {x})
    ensures |done + {x}| == |done| + 1
  {
  }

  /** The elements of a finite set, each once, in some order. */
  method Enumerate<T>(s: set<T>) returns (r: seq<T>)
    ensures forall x :: x in r <==> x in s
    ensures forall i, j :: 0 <= i < j < |r| ==> r[i] != r[j]
    ensures |r| == |s|
  {
    r := [];
    var todo := s;
    while todo != {}
      invariant todo <= s
      invariant forall x :: x in r <==> x in s && x !in todo
      invariant forall i, j :: 0 <= i < j < |r| ==> r[i] != r[j]
      invariant |r| + |todo| == |s|
      decreases |todo|
    {
      var x := Pick(todo);
      r := r + [x];
      todo := todo - {x};
    }
  }
}
