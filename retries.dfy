/** How many times an unanswered Inform is resent (step 3.3.6 of RFC 3413), as the
    originator counts retries and as its retry budget (snmpTargetAddrRetryCount) means.

    The give-up test is the code's own: a timed-out request is given up when its recorded
    retry number equals the budget, and is otherwise resent with the number raised by one.
    What differs is the number recorded with the first send. */
module InformRetries {
  import opened Wrappers

  /** Resends made after timeouts until the request is given up, starting from retry
      number `retries`. None when the request is still being retried after `fuel` timeouts. */
  function Resends(retries: nat, retryCount: nat, fuel: nat): (r: Option<nat>)
    ensures r.Some? ==> retries + r.value == retryCount && r.value < fuel
    decreases fuel
  {
    if fuel == 0 then None
    else if retries == retryCount then Some(0)
    else match Resends(retries + 1, retryCount, fuel - 1)
      case Some(k) => Some(k + 1)
      case None => None
  }

  /** From retry number `retries` up to the budget, one resend is made per missing retry,
      and the request is given up by the timeout after the last of them. */
  lemma {:induction false} ResendsCount(retries: nat, retryCount: nat, fuel: nat)
    requires retries <= retryCount && fuel > retryCount - retries
    ensures Resends(retries, retryCount, fuel) == Some(retryCount - retries)
    decreases retryCount - retries
  {
    if retries < retryCount {
      ResendsCount(retries + 1, retryCount, fuel - 1);
    }
  }

  /** The retry number recorded with the first send (pysnmp/entity/rfc3413/ntforg.py:217). */
  const FirstRetryAsWritten: nat := 1

  /** As written, a budget of R >= 1 retries yields only R - 1 resends. */
  lemma AsWrittenOneResendShort(retryCount: nat)
    requires retryCount >= 1
    ensures Resends(FirstRetryAsWritten, retryCount, retryCount) == Some(retryCount - 1)
  {
    ResendsCount(FirstRetryAsWritten, retryCount, retryCount);
  }

  /** As written, a budget of 0 is never met: the Inform is resent after every timeout. */
  lemma {:induction false} AsWrittenZeroBudgetNeverGivesUp(retries: nat, fuel: nat)
    requires retries >= FirstRetryAsWritten
    ensures Resends(retries, 0, fuel) == None
    decreases fuel
  {
    if fuel > 0 {
      AsWrittenZeroBudgetNeverGivesUp(retries + 1, fuel - 1);
    }
  }

  /** The retry number the budget calls for with the first send: no retry made yet. */
  const FirstRetryIntended: nat := 0

  /** Corrected: a budget of R yields exactly R resends (R + 1 sends in all) for every R,
      0 included, and the request is given up by the (R + 1)-th timeout. */
  lemma IntendedUsesWholeBudget(retryCount: nat, fuel: nat)
    requires fuel > retryCount
    ensures Resends(FirstRetryIntended, retryCount, fuel) == Some(retryCount)
  {
    ResendsCount(FirstRetryIntended, retryCount, fuel);
  }
}
