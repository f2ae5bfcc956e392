/** Small pieces of JavaScript semantics shared by every part of the model. */
module Common {

  /** A value or JavaScript's `null`/`undefined`. */
  datatype Option<T> = None | Some(value: T) {
    function GetOr(default: T): T {
      match this
      case Some(v) => v
      case None => default
    }
  }

  /** `s.slice(0, end)`: a negative `end` counts from the back, and the result
      is clamped to the sequence. */
  function SliceTo<T>(s: seq<T>, end: int): (r: seq<T>)
    ensures r <= s
    ensures 0 <= end ==> |r| == if end < |s| then end else |s|
    ensures end < 0 ==> |r| == if |s| + end < 0 then 0 else |s| + end
  {
    var stop := if end < 0 then |s| + end else end;
    if stop <= 0 then [] else if stop < |s| then s[..stop] else s
  }

  predicate Distinct<T(==)>(s: seq<T>) {
    forall i, j :: 0 <= i < j < |s| ==> s[i] != s[j]
  }

  /** The position of the first occurrence of `x` in `s`. */
  function FirstIndex<T(==)>(s: seq<T>, x: T): (k: nat)
    requires x in s
    ensures k < |s| && s[k] == x && x !in s[..k]
  {
    if s[0] == x then 0 else 1 + FirstIndex(s[1..], x)
  }

  lemma FirstIndexInPrefix<T>(s: seq<T>, k: nat, x: T)
    requires k <= |s| && x in s[..k]
    ensures x in s && FirstIndex(s, x) == FirstIndex(s[..k], x)
  {
    var j := FirstIndex(s[..k], x);
    assert s[..k][..j] == s[..j];
  }

  /** `[...new Set(s)]`: the distinct values of `s` in order of first occurrence. */
  function Dedup<T(==)>(s: seq<T>): (r: seq<T>)
    ensures Distinct(r)
    ensures forall i :: 0 <= i < |r| ==> r[i] in s
    ensures forall i :: 0 <= i < |s| ==> s[i] in r
    ensures forall i, j :: 0 <= i < j < |r| ==> FirstIndex(s, r[i]) < FirstIndex(s, r[j])
    ensures |r| <= |s|
  {
    if s == [] then []
    else
      var n := |s| - 1;
      var d := Dedup(s[..n]);
      assert s[..n] + [s[n]] == s;
      forall x | x in d ensures FirstIndex(s, x) == FirstIndex(s[..n], x) {
        FirstIndexInPrefix(s, n, x);
      }
      if s[n] in s[..n] then d
      else
        assert FirstIndex(s, s[n]) == n;
        d + [s[n]]
  }

  /** `m` maps each position of `r` to an increasing position of `s` holding the same value. */
  ghost predicate Embeds<T>(m: seq<nat>, r: seq<T>, s: seq<T>) {
    |m| == |r| &&
    (forall i :: 0 <= i < |m| ==> m[i] < |s| && s[m[i]] == r[i]) &&
    (forall i, j :: 0 <= i < j < |m| ==> m[i] < m[j])
  }

  /** `r` is `s` with some elements left out, in order. */
  ghost predicate Subsequence<T>(r: seq<T>, s: seq<T>) {
    exists m: seq<nat> :: Embeds(m, r, s)
  }

  lemma SubsequenceEmpty<T>(s: seq<T>)
    ensures Subsequence([], s)
  {
    var m: seq<nat> := [];
    assert Embeds(m, [], s);
  }

  lemma SubsequenceCons<T>(x: T, r: seq<T>, s: seq<T>, keep: bool)
    requires Subsequence(r, s)
    ensures Subsequence(if keep then [x] + r else r, [x] + s)
  {
    var m: seq<nat> :| Embeds(m, r, s);
    var shifted: seq<nat> := seq(|m|, i requires 0 <= i < |m| => m[i] + 1);
    var xs := [x] + s;
    forall i | 0 <= i < |shifted| ensures shifted[i] < |xs| && xs[shifted[i]] == r[i] {
      assert xs[m[i] + 1] == s[m[i]];
    }
    if keep {
      var m' := [0] + shifted;
      forall i | 0 <= i < |m'| ensures m'[i] < |xs| && xs[m'[i]] == ([x] + r)[i] {
        if i > 0 {
          assert m'[i] == shifted[i - 1];
        }
      }
      assert Embeds(m', [x] + r, xs);
    } else {
      assert Embeds(shifted, r, xs);
    }
  }

  /** `s.filter(y => y !== x)`: every occurrence of `x` dropped, the rest kept in order. */
  function Without<T(==)>(s: seq<T>, x: T): (r: seq<T>)
    ensures x !in r
    ensures Subsequence(r, s)
    ensures forall i :: 0 <= i < |s| && s[i] != x ==> s[i] in r
    ensures x !in s ==> r == s
  {
    if s == [] then
      SubsequenceEmpty<T>([]);
      []
    else
      var rest := Without(s[1..], x);
      assert s == [s[0]] + s[1..];
      SubsequenceCons(s[0], rest, s[1..], s[0] != x);
      if s[0] == x then rest else [s[0]] + rest
  }

  /** `Without` keeps every other value exactly as often as it occurs, and no
      copy of `x`; so its length is the input's less the copies of `x`. */
  lemma {:induction false} WithoutCounts<T>(s: seq<T>, x: T)
    ensures forall y :: multiset(Without(s, x))[y] == if y == x then 0 else multiset(s)[y]
    ensures |Without(s, x)| + multiset(s)[x] == |s|
  {
    if s != [] {
      WithoutCounts(s[1..], x);
      forall y ensures multiset(Without(s, x))[y] == if y == x then 0 else multiset(s)[y] {
        WithoutCountStep(s, x, y);
      }
      WithoutCountStep(s, x, x);
    }
  }

  /** One element of `WithoutCounts`: the count of `y` after putting `s[0]`
      back in front. */
  lemma WithoutCountStep<T>(s: seq<T>, x: T, y: T)
    requires s != []
    requires multiset(Without(s[1..], x))[y] == if y == x then 0 else multiset(s[1..])[y]
    requires |Without(s[1..], x)| + multiset(s[1..])[x] == |s[1..]|
    ensures multiset(Without(s, x))[y] == if y == x then 0 else multiset(s)[y]
    ensures |Without(s, x)| + multiset(s)[x] == |s|
  {
    var rest := Without(s[1..], x);
    assert s == [s[0]] + s[1..];
    assert multiset(s) == multiset([s[0]]) + multiset(s[1..]);
    if s[0] != x {
      assert Without(s, x) == [s[0]] + rest;
      assert multiset([s[0]] + rest) == multiset([s[0]]) + multiset(rest);
    } else {
      assert Without(s, x) == rest;
    }
  }

  /** Dropping a value that occurs shortens the sequence. */
  lemma {:induction false} WithoutShorter<T>(s: seq<T>, x: T)
    requires x in s
    ensures |Without(s, x)| < |s|
  {
    if s[0] != x {
      assert x in s[1..];
      WithoutShorter(s[1..], x);
    } else if x in s[1..] {
      WithoutShorter(s[1..], x);
    }
  }
}
