/** Order-preserving sequence operations the handlers use: JavaScript's
    `Array.prototype.filter` and `splice`-style removal at an index. */
module Sequences {

  /** `a` can be obtained from `b` by deleting elements: it keeps `b`'s order. */
  predicate Subsequence<T(==,!new)>(a: seq<T>, b: seq<T>)
  {
    if a == [] then true
    else if b == [] then false
    else if a[0] == b[0] then Subsequence(a[1..], b[1..])
    else Subsequence(a, b[1..])
  }

  /** `s.filter(keep)`: exactly the elements that pass, in their original order. */
  function Filter<T(==,!new)>(s: seq<T>, keep: T -> bool): (r: seq<T>)
    ensures forall x :: x in r <==> x in s && keep(x)
    ensures Subsequence(r, s)
  {
    if s == [] then []
    else
      var rest := Filter(s[1..], keep);
      if keep(s[0]) then
        assert ([s[0]] + rest)[1..] == rest;
        [s[0]] + rest
      else
        assert rest != [] ==> rest[0] in rest && rest[0] != s[0];
        rest
  }

  /** Filtering keeps at most every element. */
  lemma {:induction false} FilterLength<T(!new)>(s: seq<T>, keep: T -> bool)
    ensures |Filter(s, keep)| <= |s|
  {
    if s != [] {
      FilterLength(s[1..], keep);
    }
  }

  /** Nothing passes when no element does. */
  lemma {:induction false} FilterNone<T(!new)>(s: seq<T>, keep: T -> bool)
    requires forall x :: x in s ==> !keep(x)
    ensures Filter(s, keep) == []
  {
    if s != [] {
      FilterNone(s[1..], keep);
    }
  }

  /** Filtering a concatenation filters each part. */
  lemma {:induction false} FilterAppend<T(!new)>(a: seq<T>, b: seq<T>, keep: T -> bool)
    ensures Filter(a + b, keep) == Filter(a, keep) + Filter(b, keep)
  {
    if a == [] {
      assert a + b == b;
    } else {
      FilterAppend(a[1..], b, keep);
      assert (a + b)[1..] == a[1..] + b;
    }
  }

  /** `remove(index)` on a field array: the entry at `index` goes, the others
      keep their order. */
  function RemoveAt<T>(s: seq<T>, index: nat): (r: seq<T>)
    requires index < |s|
    ensures |r| == |s| - 1
    ensures forall j :: 0 <= j < index ==> r[j] == s[j]
    ensures forall j :: index <= j < |r| ==> r[j] == s[j + 1]
  {
    s[..index] + s[index + 1..]
  }

  // ----- Contiguous parts

  /** `part` occurs in `s` starting at index `k`. */
  predicate OccursAt<T(==)>(part: seq<T>, s: seq<T>, k: nat)
  {
    k + |part| <= |s| && s[k..k + |part|] == part
  }

  /** `part` occurs in `s` as a contiguous run (`s.includes(part)` on strings). */
  ghost predicate Infix<T>(part: seq<T>, s: seq<T>)
  {
    exists k: nat :: OccursAt(part, s, k)
  }

  lemma InfixOfItself<T>(s: seq<T>)
    ensures Infix(s, s)
  {
    assert OccursAt(s, s, 0);
  }

  /** A part of either half is a part of the whole. */
  lemma InfixAppend<T>(part: seq<T>, a: seq<T>, b: seq<T>)
    ensures Infix(part, a) ==> Infix(part, a + b)
    ensures Infix(part, b) ==> Infix(part, a + b)
  {
    if Infix(part, a) {
      var k: nat :| OccursAt(part, a, k);
      assert (a + b)[k..k + |part|] == a[k..k + |part|];
      assert OccursAt(part, a + b, k);
    }
    if Infix(part, b) {
      var k: nat :| OccursAt(part, b, k);
      assert (a + b)[|a| + k..|a| + k + |part|] == b[k..k + |part|];
      assert OccursAt(part, a + b, |a| + k);
    }
  }

  lemma InfixTransitive<T>(x: seq<T>, m: seq<T>, s: seq<T>)
    requires Infix(x, m) && Infix(m, s)
    ensures Infix(x, s)
  {
    var k: nat :| OccursAt(x, m, k);
    var j: nat :| OccursAt(m, s, j);
    assert m == s[j..j + |m|];
    forall i | 0 <= i < |x|
      ensures s[j + k..j + k + |x|][i] == x[i]
    {
      assert x[i] == m[k + i];
    }
    assert OccursAt(x, s, j + k);
  }

  /** The middle of a part is a part. */
  lemma InfixMiddle<T>(a: seq<T>, part: seq<T>, b: seq<T>, s: seq<T>)
    requires Infix(a + part + b, s)
    ensures Infix(part, s)
  {
    InfixOfItself(part);
    InfixAppend(part, a, part);
    InfixAppend(part, a + part, b);
    InfixTransitive(part, a + part + b, s);
  }

  /** `parts.join('')` */
  function Concat<T>(parts: seq<seq<T>>): seq<T>
  {
    if parts == [] then [] else parts[0] + Concat(parts[1..])
  }

  /** Every joined part occurs in the result. */
  lemma {:induction false} ConcatHasParts<T>(parts: seq<seq<T>>)
    ensures forall i :: 0 <= i < |parts| ==> Infix(parts[i], Concat(parts))
  {
    if parts != [] {
      var rest := Concat(parts[1..]);
      ConcatHasParts(parts[1..]);
      InfixOfItself(parts[0]);
      InfixAppend(parts[0], parts[0], rest);
      forall i | 1 <= i < |parts|
        ensures Infix(parts[i], parts[0] + rest)
      {
        assert parts[i] == parts[1..][i - 1];
        InfixAppend(parts[i], parts[0], rest);
      }
    }
  }
}
