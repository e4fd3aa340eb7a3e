/** Small helpers shared by the model: optional values, results with an error
    case, and sums and counts over sequences. */
module Base {

  datatype Option<T> = None | Some(value: T)

  datatype Result<T, E> = Ok(value: T) | Err(error: E)

  /** A natural number as a term of a sum. */
  function Id(x: nat): nat { x }

  /** The sum of f over the elements of s. */
  function SumOf<T>(s: seq<T>, f: T -> nat): nat
  {
    if s == [] then 0 else SumOf(s[..|s| - 1], f) + f(s[|s| - 1])
  }

  /** The number of elements of s that satisfy p. */
  function CountOf<T>(s: seq<T>, p: T -> bool): (r: nat)
    ensures r <= |s|
    ensures r == |s| <==> forall i :: 0 <= i < |s| ==> p(s[i])
    ensures r == 0 <==> forall i :: 0 <= i < |s| ==> !p(s[i])
  {
    if s == [] then 0
    else
      var k := CountOf(s[..|s| - 1], p);
      assert forall i :: 0 <= i < |s| - 1 ==> s[..|s| - 1][i] == s[i];
      k + if p(s[|s| - 1]) then 1 else 0
  }

  /** Taking one more element of s adds that element's f. */
  lemma SumOfStep<T>(s: seq<T>, i: nat, f: T -> nat)
    requires i < |s|
    ensures SumOf(s[..i + 1], f) == SumOf(s[..i], f) + f(s[i])
  {
    assert s[..i + 1][..i] == s[..i];
  }

  /** Taking one more element of s adds one to the count when it satisfies p. */
  lemma CountOfStep<T>(s: seq<T>, i: nat, p: T -> bool)
    requires i < |s|
    ensures CountOf(s[..i + 1], p) == CountOf(s[..i], p) + if p(s[i]) then 1 else 0
  {
    assert s[..i + 1][..i] == s[..i];
  }

  lemma {:induction false} SumOfAppend<T>(a: seq<T>, b: seq<T>, f: T -> nat)
    ensures SumOf(a + b, f) == SumOf(a, f) + SumOf(b, f)
    decreases |b|
  {
    if b != [] {
      var b' := b[..|b| - 1];
      assert (a + b)[..|a + b| - 1] == a + b';
      SumOfAppend(a, b', f);
    } else {
      assert a + b == a;
    }
  }

  /** A sum of terms each at most k is at most k times the number of terms. */
  lemma {:induction false} SumOfBound<T>(s: seq<T>, f: T -> nat, k: nat)
    requires forall i :: 0 <= i < |s| ==> f(s[i]) <= k
    ensures SumOf(s, f) <= k * |s|
  {
    if s != [] {
      var s' := s[..|s| - 1];
      assert forall i :: 0 <= i < |s'| ==> s'[i] == s[i];
      SumOfBound(s', f, k);
      assert k * |s| == k * |s'| + k;
    }
  }

  /** Pointwise smaller terms give a smaller sum. */
  lemma {:induction false} SumOfMono<T>(s: seq<T>, f: T -> nat, g: T -> nat)
    requires forall i :: 0 <= i < |s| ==> f(s[i]) <= g(s[i])
    ensures SumOf(s, f) <= SumOf(s, g)
  {
    if s != [] {
      var s' := s[..|s| - 1];
      assert forall i :: 0 <= i < |s'| ==> s'[i] == s[i];
      SumOfMono(s', f, g);
    }
  }

  /** A count is the number of positions whose element satisfies p. */
  lemma {:induction false} CountOfIsIndexCount<T>(s: seq<T>, p: T -> bool)
    ensures CountOf(s, p) == |set i | 0 <= i < |s| && p(s[i])|
  {
    if s != [] {
      var n := |s| - 1;
      var s' := s[..n];
      CountOfIsIndexCount(s', p);
      var before := set i | 0 <= i < n && p(s'[i]);
      var after := set i | 0 <= i < |s| && p(s[i]);
      if p(s[n]) {
        assert after == before + {n} && n !in before;
        assert CountOf(s, p) == CountOf(s', p) + 1;
      } else {
        assert after == before;
      }
    }
  }
}
