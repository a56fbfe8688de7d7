/**
  When the polling loop suspends the child: the distance the ETR write pointer has moved,
  computed on unsigned 64-bit words, against a threshold chosen from the buffer sizes.
*/
module Polling {
  import opened Common
  import opened AddressArithmetic

  /** curr_offset = cs_get_buffer_rwp(etb) - init_pos on unsigned long. */
  function Distance(rwp: nat, start: nat): nat {
    (rwp - start) % WORDS
  }

  predicate Fires(rwp: nat, start: nat, threshold: nat) {
    Distance(rwp, start) > threshold
  }

  predicate InWindow(base: nat, size: nat, p: nat) {
    base <= p < base + size <= WORDS
  }

  /**
    Inside the ETR window the test fires exactly when the pointer moved forward by more than the
    threshold or lies below its start, that is, has wrapped.
  */
  lemma FiresIff(base: nat, size: nat, start: nat, rwp: nat, threshold: nat)
    requires InWindow(base, size, start) && InWindow(base, size, rwp) && threshold + size <= WORDS
    ensures Fires(rwp, start, threshold) <==> rwp < start || rwp - start > threshold
  {
    if rwp < start {
      Remainder(rwp - start, WORDS, -1, rwp - start + WORDS);
    } else {
      Remainder(rwp - start, WORDS, 0, rwp - start);
    }
  }

  /** fetch_threshold of fetcher_worker, on size_t. */
  function Threshold(hasEtf: bool, etf: nat, etr: nat): nat {
    if hasEtf && etf < etr then (etf * 2) % WORDS else etr
  }

  /** The threshold exceeds the ETR exactly when an ETF is smaller than the ETR but larger than half of it. */
  lemma ThresholdFitsIff(hasEtf: bool, etf: nat, etr: nat)
    requires etr <= WORDS / 2
    ensures Threshold(hasEtf, etf, etr) <= etr <==> !(hasEtf && etr < 2 * etf && etf < etr)
  {
    if hasEtf && etf < etr {
      Remainder(etf * 2, WORDS, 0, etf * 2);
    }
  }

  /** Which never happens with power-of-two sizes. */
  lemma PowersOfTwoFit(hasEtf: bool, a: nat, b: nat)
    requires Pow2(b) <= WORDS / 2
    ensures Threshold(hasEtf, Pow2(a), Pow2(b)) <= Pow2(b)
  {
    ThresholdFitsIff(hasEtf, Pow2(a), Pow2(b));
    if b <= a {
      Pow2Mono(b, a);
    } else {
      Pow2Mono(a + 1, b);
    }
  }

  /**
    With no ETF, or one at least as large as the ETR, the threshold is the whole ETR: the loop
    then suspends the child only after the write pointer has wrapped below its start.
  */
  lemma LargeEtfFiresOnlyAfterWrap(base: nat, size: nat, start: nat, rwp: nat, hasEtf: bool, etf: nat)
    requires InWindow(base, size, start) && InWindow(base, size, rwp) && size <= WORDS / 2
    requires !hasEtf || etf >= size
    ensures Fires(rwp, start, Threshold(hasEtf, etf, size)) <==> rwp < start
  {
    FiresIff(base, size, start, rwp, size);
  }

  /** With a smaller ETF the test fires exactly past twice its size, or after a wrap. */
  lemma SmallEtfFires(base: nat, size: nat, start: nat, rwp: nat, etf: nat)
    requires InWindow(base, size, start) && InWindow(base, size, rwp) && etf < size && 2 * etf + size <= WORDS
    ensures Fires(rwp, start, Threshold(true, etf, size)) <==> rwp < start || rwp - start > 2 * etf
  {
    Remainder(etf * 2, WORDS, 0, etf * 2);
    if rwp < start {
      Remainder(rwp - start, WORDS, -1, rwp - start + WORDS);
    } else {
      Remainder(rwp - start, WORDS, 0, rwp - start);
    }
  }

  /** So an ETF of at least half the ETR makes the test wait for a wrap, as a large one does. */
  lemma HalfEtfFiresOnlyAfterWrap(base: nat, size: nat, start: nat, rwp: nat, etf: nat)
    requires InWindow(base, size, start) && InWindow(base, size, rwp) && 2 * etf + size <= WORDS
    requires etf < size <= 2 * etf
    ensures Fires(rwp, start, Threshold(true, etf, size)) <==> rwp < start
  {
    SmallEtfFires(base, size, start, rwp, etf);
  }
}
