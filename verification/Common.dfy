/** Shared value types. */
module Common {

  datatype Option<+T> = None | Some(value: T) {
    function GetOr(other: T): T { if Some? then value else other }
  }

  function Pow2(k: nat): (p: nat)
    ensures p > 0
  {
    if k == 0 then 1 else 2 * Pow2(k - 1)
  }

  /** Seconds before the next attempt: min(2**attempts, cap). */
  function Backoff(attempts: nat, cap: nat): nat {
    if Pow2(attempts) < cap then Pow2(attempts) else cap
  }

  /** The delay starts at one second and doubles up to the cap. */
  lemma BackoffDoubles(attempts: nat, cap: nat)
    ensures Backoff(0, cap) == if cap < 1 then cap else 1
    ensures Backoff(attempts + 1, cap) == if cap < 2 * Backoff(attempts, cap) then cap else 2 * Backoff(attempts, cap)
    ensures cap > 0 ==> Backoff(attempts, cap) > 0
  {
  }

  lemma Singleton<T>(s: set<T>, x: T)
    requires |s| == 1 && x in s
    ensures forall y | y in s :: y == x
  {
    assert |s - {x}| == 0;
  }
}
