/** Small vocabulary shared by every model in this project. */
module Common {

  datatype Option<+T> = None | Some(value: T)

  datatype Result<+T, +E> = Ok(value: T) | Err(error: E)

  function Min(a: int, b: int): int {
    if a <= b then a else b
  }

  function Max(a: int, b: int): int {
    if a >= b then a else b
  }

  /** The earlier of an optional instant and a given one. */
  function Earlier(a: Option<int>, b: int): Option<int> {
    Some(if a.Some? then Min(a.value, b) else b)
  }

  /** 2 to the power n. */
  function Pow2(n: nat): nat {
    if n == 0 then 1 else 2 * Pow2(n - 1)
  }

  // ---------------------------------------------------------------- order of stored names

  /** Strict lexicographic order on code sequences. */
  predicate Before(a: seq<nat>, b: seq<nat>) {
    b != [] && (a == [] || a[0] < b[0] || (a[0] == b[0] && Before(a[1..], b[1..])))
  }

  function CodeUnits(s: string): (r: seq<nat>)
    ensures |r| == |s| && forall i :: 0 <= i < |s| ==> r[i] == s[i] as nat
  {
    seq(|s|, i requires 0 <= i < |s| => s[i] as nat)
  }

  lemma {:induction false} BeforeTotal(a: seq<nat>, b: seq<nat>)
    ensures a == b || Before(a, b) || Before(b, a)
    ensures !(Before(a, b) && Before(b, a))
    decreases |a|
  {
    if a != [] && b != [] && a[0] == b[0] {
      BeforeTotal(a[1..], b[1..]);
      assert a == [a[0]] + a[1..] && b == [b[0]] + b[1..];
    }
  }

  lemma {:induction false} BeforeTransitive(a: seq<nat>, b: seq<nat>, c: seq<nat>)
    requires Before(a, b) && Before(b, c)
    ensures Before(a, c)
    decreases |a|
  {
    if a != [] && a[0] == b[0] && b[0] == c[0] {
      BeforeTransitive(a[1..], b[1..], c[1..]);
    }
  }

  // ---------------------------------------------------------------- names and numbers nobody has

  lemma {:induction false} LongerThanAll(ss: set<string>) returns (n: nat)
    ensures forall s :: s in ss ==> |s| < n
  {
    if ss == {} {
      n := 0;
    } else {
      var s :| s in ss;
      n := LongerThanAll(ss - {s});
      n := if n <= |s| then |s| + 1 else n;
      assert forall s' :: s' in ss ==> s' == s || s' in ss - {s};
    }
  }

  function Filler(n: nat): (s: string)
    ensures |s| == n
  {
    seq(n, _ => 'x')
  }

  lemma {:induction false} GreaterThanAll(ns: set<nat>) returns (n: nat)
    ensures forall m :: m in ns ==> m < n
  {
    if ns == {} {
      n := 0;
    } else {
      var m :| m in ns;
      n := GreaterThanAll(ns - {m});
      n := if n <= m then m + 1 else n;
      assert forall m' :: m' in ns ==> m' == m || m' in ns - {m};
    }
  }
}
