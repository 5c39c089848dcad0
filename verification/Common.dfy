/** Small shared vocabulary. */
module Common {

  datatype Option<+T> = None | Some(value: T)

  function Max(a: int, b: int): int {
    if a < b then b else a
  }

  function Min(a: int, b: int): int {
    if a < b then a else b
  }

  function MaxReal(a: real, b: real): real {
    if a < b then b else a
  }

  function MinReal(a: real, b: real): real {
    if a < b then a else b
  }

  /** `s` without its `k`-th element. */
  function Without<T>(s: seq<T>, k: nat): (r: seq<T>)
    requires k < |s|
    ensures |r| == |s| - 1
  {
    s[..k] + s[k + 1..]
  }

  /** The sum of `f` over a sequence. */
  function Total<T>(f: T -> nat, s: seq<T>): nat {
    if s == [] then 0 else Total(f, s[..|s| - 1]) + f(s[|s| - 1])
  }

  lemma {:induction false} TotalPush<T>(f: T -> nat, s: seq<T>, x: T)
    ensures Total(f, s + [x]) == Total(f, s) + f(x)
  {
    assert (s + [x])[..|s|] == s;
  }

  lemma {:induction false} TotalUpdate<T>(f: T -> nat, s: seq<T>, k: nat, x: T)
    requires k < |s|
    ensures Total(f, s[k := x]) + f(s[k]) == Total(f, s) + f(x)
  {
    var n := |s| - 1;
    if k == n {
      assert s[k := x][..n] == s[..n];
    } else {
      assert s[k := x][..n] == s[..n][k := x];
      TotalUpdate(f, s[..n], k, x);
    }
  }

  lemma {:induction false} TotalRemove<T>(f: T -> nat, s: seq<T>, k: nat)
    requires k < |s|
    ensures Total(f, s) == Total(f, Without(s, k)) + f(s[k])
  {
    var n := |s| - 1;
    if k == n {
      assert Without(s, k) == s[..n];
    } else {
      assert Without(s, k)[..n - 1] == Without(s[..n], k);
      assert Without(s, k)[n - 1] == s[n];
      TotalRemove(f, s[..n], k);
    }
  }

  /** An element of positive weight makes the sum positive, and only such an element does. */
  lemma {:induction false} TotalAt<T>(f: T -> nat, s: seq<T>, k: nat)
    requires k < |s|
    ensures Total(f, s) >= f(s[k])
  {
    if k < |s| - 1 {
      TotalAt(f, s[..|s| - 1], k);
    }
  }

  lemma {:induction false} TotalFrom<T>(f: T -> nat, s: seq<T>) returns (k: nat)
    requires Total(f, s) > 0
    ensures k < |s| && f(s[k]) > 0
  {
    k := |s| - 1;
    if f(s[k]) == 0 {
      k := TotalFrom(f, s[..k]);
    }
  }

  lemma {:induction false} TotalZero<T>(f: T -> nat, s: seq<T>)
    requires forall k :: 0 <= k < |s| ==> f(s[k]) == 0
    ensures Total(f, s) == 0
  {
    if s != [] {
      TotalZero(f, s[..|s| - 1]);
    }
  }

  function Copies<T>(x: T, n: nat): (s: seq<T>)
    ensures |s| == n
    ensures forall i :: 0 <= i < n ==> s[i] == x
  {
    if n == 0 then [] else Copies(x, n - 1) + [x]
  }
}
