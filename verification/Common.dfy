/** Small types shared by the component models. */
module Common {
  newtype byte = x: int | 0 <= x < 256

  type Bytes = seq<byte>

  datatype Option<+T> = None | Some(value: T)

  datatype Result<+T, +E> = Ok(value: T) | Err(error: E)

  // Anything that adds up over concatenation: the number of elements, the copies
  // of one element among them, their total cost.
  type Measure<!T> = seq<T> -> int

  ghost predicate Additive<T(!new)>(m: Measure<T>) {
    && m([]) == 0
    && forall a, b :: m(a + b) == m(a) + m(b)
  }

  lemma ConcatAssociates<T>(a: seq<T>, b: seq<T>, c: seq<T>)
    ensures (a + b) + c == a + (b + c)
  {
  }

  // A sequence built by appending, taken apart again.
  lemma LastIsLast<T>(s: seq<T>, x: T)
    ensures (s + [x])[..|s|] == s && (s + [x])[|s|] == x
  {
  }

  lemma SplitAround<T>(a: seq<T>, s: seq<T>, b: seq<T>, i: nat)
    requires i < |s|
    ensures a + s + b == a + s[..i] + [s[i]] + (s[i + 1..] + b)
  {
  }

  function Filter<T>(s: seq<T>, keep: T -> bool): seq<T> {
    if s == [] then []
    else if keep(s[|s| - 1]) then Filter(s[..|s| - 1], keep) + [s[|s| - 1]]
    else Filter(s[..|s| - 1], keep)
  }

  lemma {:induction false} FilterKeeps<T(!new)>(s: seq<T>, keep: T -> bool)
    ensures forall x :: x in Filter(s, keep) <==> x in s && keep(x)
  {
    if s != [] {
      FilterKeeps(s[..|s| - 1], keep);
    }
  }

  lemma {:induction false} FilterTwice<T(!new)>(s: seq<T>, outer: T -> bool, inner: T -> bool)
    requires forall x :: outer(x) ==> inner(x)
    ensures Filter(Filter(s, inner), outer) == Filter(s, outer)
  {
    if s != [] {
      var n := |s| - 1;
      FilterTwice(s[..n], outer, inner);
      if inner(s[n]) {
        LastIsLast(Filter(s[..n], inner), s[n]);
      }
    }
  }
}
