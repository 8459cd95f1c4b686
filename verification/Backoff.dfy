/** Restart delays: doubled from ten seconds up to five minutes. */
module Backoff {
  import opened Common

  const INIT: Duration := 10_000_000_000
  const MAX: Duration := 300_000_000_000

  /** A container that runs for longer than this is stable. */
  const RESET: Duration := 600_000_000_000

  function Double(b: Duration): Duration {
    Min(b * 2, MAX)
  }

  /** The delay b after n doublings. */
  function Doubled(b: Duration, n: nat): Duration {
    if n == 0 then b else Double(Doubled(b, n - 1))
  }

  /** The initial delay after n doublings. */
  function Nth(n: nat): Duration {
    Doubled(INIT, n)
  }

  /** Doubling with a cap at every step is doubling with one cap at the end. */
  lemma {:induction false} NthIsCappedPower(n: nat)
    ensures Nth(n) == Min(10_000_000_000 * Pow2(n), 300_000_000_000)
  {
    if n > 0 {
      NthIsCappedPower(n - 1);
      assert Pow2(n) == 2 * Pow2(n - 1);
    }
  }

  /** Where a delay comes from: the delay that was last set, and the doublings since. */
  datatype Since = Since(base: Duration, n: nat)

  const FROM_RESET := Since(INIT, 0)

  function After(since: Since, restarts: nat): Since {
    Since(since.base, since.n + restarts)
  }

  function Delay(since: Since): Duration {
    Doubled(since.base, since.n)
  }
}
