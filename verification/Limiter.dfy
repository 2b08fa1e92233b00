/** The login limiter: after five failures in a row each further one blocks for longer, up to five minutes. */
module Limiter {

  const SECOND := 1_000_000_000
  const CAP := 300 * SECOND

  const I63 := 0x8000_0000_0000_0000

  /** Go's int64 keeps the low 64 bits of a product. */
  function Wrap64(x: int): int {
    (x + I63) % (2 * I63) - I63
  }

  /** Go's zero time in nanoseconds since 1970, before every clock reading of a run. */
  const NEVER: int := -62_135_596_800 * SECOND

  datatype State = State(failures: int, blockedUntil: int)

  const INITIAL := State(0, NEVER)

  /** The delay the code computes: two int64 products, then the cap. */
  function Delay(failures: int): int {
    var delay := Wrap64(Wrap64(Wrap64(failures - 4) * 30) * SECOND);
    if delay > CAP then CAP else delay
  }

  function Fail(l: State, now: int): State {
    var failures := Wrap64(l.failures + 1);
    State(failures, if failures >= 5 then now + Delay(failures) else l.blockedUntil)
  }

  class LoginLimiter {
    var failures: int
    var blockedUntil: int

    function View(): State
      reads this
    {
      State(failures, blockedUntil)
    }

    constructor ()
      ensures View() == INITIAL
    {
      failures, blockedUntil := 0, NEVER;
    }

    method Allowed(now: int) returns (ok: bool)
      ensures ok <==> now >= blockedUntil
    {
      ok := !(now < blockedUntil);
    }

    method Failed(now: int)
      modifies this
      ensures View() == Fail(old(View()), now)
    {
      failures := Wrap64(failures + 1);
      if failures >= 5 {
        var delay := Wrap64(Wrap64(Wrap64(failures - 4) * 30) * SECOND);
        if delay > CAP {
          delay := CAP;
        }
        blockedUntil := now + delay;
      }
    }

    method Succeeded()
      modifies this
      ensures View() == INITIAL
    {
      failures := 0;
      blockedUntil := NEVER;
    }
  }

  // ---- the intended delay, and when the products wrap ----

  /** Thirty seconds more for each failure after the fourth, at most five minutes. */
  function Capped(failures: int): int {
    if (failures - 4) * 30 * SECOND < CAP then (failures - 4) * 30 * SECOND else CAP
  }

  /** The largest excess whose delay fits in an int64 of nanoseconds. */
  const FITS := 307_445_734

  lemma DelayIsCapped(failures: int)
    requires 5 <= failures <= FITS + 4
    ensures Delay(failures) == Capped(failures) > 0
  {
    var excess := failures - 4;
    assert Wrap64(excess) == excess;
    assert Wrap64(excess * 30) == excess * 30;
    assert excess * 30 * SECOND <= FITS * 30 * SECOND < I63;
    assert Wrap64(excess * 30 * SECOND) == excess * 30 * SECOND;
  }

  /** One failure later the product is negative: the limiter records a block that is already over. */
  lemma FirstWrap(l: State, now: int)
    requires l.failures == FITS + 4
    ensures Fail(l, now).failures == FITS + 5 && Fail(l, now).blockedUntil < now
  {
  }

  /** Counting one more failure, as long as nothing wraps. */
  lemma FailIs(l: State, now: int)
    requires 0 <= l.failures < FITS + 4
    ensures Fail(l, now) ==
        State(l.failures + 1, if l.failures + 1 >= 5 then now + Capped(l.failures + 1) else l.blockedUntil)
    ensures l.failures + 1 >= 5 ==> Capped(l.failures + 1) > 0
  {
    assert Wrap64(l.failures + 1) == l.failures + 1;
    if l.failures + 1 >= 5 { DelayIsCapped(l.failures + 1); }
    hide Delay, Wrap64, Capped;
  }
}
