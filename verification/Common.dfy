/** Vocabulary shared by the models: optional values, histories and counting over sequences. */
module Common {

  datatype Option<+T> = None | Some(value: T)

  type byte = b: nat | b < 256

  function Min(a: nat, b: nat): nat {
    if a <= b then a else b
  }

  /** A history without its latest step. */
  function Before<T>(steps: seq<T>): seq<T>
    requires steps != []
  {
    steps[..|steps| - 1]
  }

  function Last<T>(steps: seq<T>): T
    requires steps != []
  {
    steps[|steps| - 1]
  }

  lemma Snoc<T>(steps: seq<T>, step: T)
    ensures Before(steps + [step]) == steps && Last(steps + [step]) == step
  {
  }

  /** How many elements of `s` satisfy `p`. */
  function Count<T>(s: seq<T>, p: T -> bool): (n: nat)
    ensures n <= |s|
  {
    if s == [] then 0 else Count(s[..|s| - 1], p) + if p(s[|s| - 1]) then 1 else 0
  }

  lemma {:induction false} CountUpdate<T>(s: seq<T>, i: nat, x: T, p: T -> bool)
    requires i < |s|
    ensures Count(s[i := x], p) == Count(s, p) - (if p(s[i]) then 1 else 0) + (if p(x) then 1 else 0)
  {
    var last := |s| - 1;
    if i == last {
      assert s[i := x][..last] == s[..last];
    } else {
      assert s[i := x][..last] == s[..last][i := x];
      CountUpdate(s[..last], i, x, p);
    }
  }

  lemma {:induction false} CountConcat<T>(s: seq<T>, t: seq<T>, p: T -> bool)
    ensures Count(s + t, p) == Count(s, p) + Count(t, p)
  {
    if t == [] {
      assert s + t == s;
    } else {
      assert (s + t)[..|s + t| - 1] == s + t[..|t| - 1];
      CountConcat(s, t[..|t| - 1], p);
    }
  }

  lemma {:induction false} CountIsAll<T>(s: seq<T>, p: T -> bool)
    ensures Count(s, p) == |s| <==> forall i :: 0 <= i < |s| ==> p(s[i])
  {
    if s != [] {
      CountIsAll(s[..|s| - 1], p);
      assert forall i :: 0 <= i < |s| - 1 ==> s[..|s| - 1][i] == s[i];
    }
  }

  lemma {:induction false} CountIsNone<T>(s: seq<T>, p: T -> bool)
    ensures Count(s, p) == 0 <==> forall i :: 0 <= i < |s| ==> !p(s[i])
  {
    if s != [] {
      CountIsNone(s[..|s| - 1], p);
      assert forall i :: 0 <= i < |s| - 1 ==> s[..|s| - 1][i] == s[i];
    }
  }
}

/** How one session of a connection ends, shared by both transports and the reconnect loop. */
module Sessions {
  import opened Common

  const SYSTEM_TIME_LIMIT: int := 0x8000_0000_0000_0000 * 1_000_000_000

  /** A wall-clock reading in nanoseconds around the epoch, held in signed 64-bit seconds. */
  type SystemTime = t: int | -SYSTEM_TIME_LIMIT <= t < SYSTEM_TIME_LIMIT

  /** Why an attempt never carried traffic. */
  datatype AttemptFailure = AttemptFailure(cause: string, rateLimitedUntil: Option<SystemTime>)

  datatype SessionOutcome = Stopped | Lost | NeverUp(failure: AttemptFailure)
}
