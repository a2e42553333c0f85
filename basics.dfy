/** Option and Result, the two wrappers the model uses for Go's `nil`-or-value and value-or-error returns. */
module Basics {

  datatype Option<+T> = None | Some(value: T)

  datatype Result<+T, +E> = Ok(value: T) | Err(error: E)

  /** `n` copies of `x`. */
  function Repeat<T>(x: T, n: nat): (r: seq<T>)
    ensures |r| == n
    ensures forall i | 0 <= i < n :: r[i] == x
  {
    if n == 0 then [] else Repeat(x, n - 1) + [x]
  }

  lemma {:induction false} RepeatAppend<T>(x: T, a: nat, b: nat)
    ensures Repeat(x, a) + Repeat(x, b) == Repeat(x, a + b)
  {
    assert |Repeat(x, a) + Repeat(x, b)| == a + b;
  }

  /** A prefix is the shorter prefix and one more element. */
  lemma PrefixSnoc<T>(s: seq<T>, i: nat)
    requires 0 < i <= |s|
    ensures s[..i] == s[..i - 1] + [s[i - 1]]
  {
  }

  /** Concatenation regroups. */
  lemma AppendAssoc<T>(a: seq<T>, b: seq<T>, c: seq<T>)
    ensures a + b + c == a + (b + c)
  {
  }

  /** Slicing past a first element. */
  lemma SliceAfterFirst<T>(x: T, rest: seq<T>, i: nat, j: nat)
    requires i <= j <= |rest|
    ensures ([x] + rest)[i + 1..j + 1] == rest[i..j]
  {
  }

  /** Sum of a sequence of naturals. */
  function Total(s: seq<nat>): nat
  {
    if s == [] then 0 else Total(s[..|s| - 1]) + s[|s| - 1]
  }

  lemma TotalSnoc(s: seq<nat>, x: nat)
    ensures Total(s + [x]) == Total(s) + x
  {
    assert (s + [x])[..|s|] == s;
  }

  lemma {:induction false} TotalRepeat(x: nat, n: nat)
    ensures Total(Repeat(x, n)) == n * x
  {
    if n > 0 {
      TotalSnoc(Repeat(x, n - 1), x);
      TotalRepeat(x, n - 1);
      assert n * x == (n - 1) * x + x;
    }
  }
}
