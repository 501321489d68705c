/**
 * The prize pool of `spin_roulette` (core/views.py): the configured prizes
 * with every prize up to 1000 repeated three times, or a fixed default list.
 */
module RoulettePool {
  import opened Wrappers
  import PrizeText

  /** `[100, 200, 300, 500, 1000, 2000]`, drawn from without weighting. */
  const DEFAULT_PRIZES: seq<int> := [100, 200, 300, 500, 1000, 2000]
  /** Prizes up to this value are favoured. */
  const SMALL_PRIZE_LIMIT: int := 1000
  const SMALL_PRIZE_COPIES: nat := 3

  /** How many times a configured prize is put into the pool. */
  function Weight(prize: int): (w: nat)
    ensures w >= 1
  {
    if prize <= SMALL_PRIZE_LIMIT then SMALL_PRIZE_COPIES else 1
  }

  function Repeat(x: int, n: nat): (r: seq<int>)
    ensures |r| == n && forall i :: 0 <= i < n ==> r[i] == x
  {
    if n == 0 then [] else Repeat(x, n - 1) + [x]
  }

  /** The pool `prizes_weighted`, built front to back from the configured prizes. */
  function WeightedPool(prizes: seq<int>): seq<int> {
    if prizes == [] then []
    else
      var last := prizes[|prizes| - 1];
      WeightedPool(prizes[..|prizes| - 1]) + Repeat(last, Weight(last))
  }

  /** The loop of `spin_roulette` that extends `prizes_weighted` in place. */
  method BuildWeightedPool(prizes: seq<int>) returns (pool: seq<int>)
    ensures pool == WeightedPool(prizes)
  {
    pool := [];
    for i := 0 to |prizes|
      invariant pool == WeightedPool(prizes[..i])
    {
      var prize := prizes[i];
      assert prizes[..i + 1][..i] == prizes[..i];
      if prize <= SMALL_PRIZE_LIMIT {
        pool := pool + [prize, prize, prize];
      } else {
        pool := pool + [prize];
      }
      assert Repeat(prize, Weight(prize)) == if prize <= SMALL_PRIZE_LIMIT then [prize, prize, prize] else [prize];
    }
    assert prizes[..|prizes|] == prizes;
  }

  /** The pool keeps the configured order: pooling a concatenation concatenates the pools. */
  lemma {:induction false} WeightedPoolAppend(p: seq<int>, q: seq<int>)
    ensures WeightedPool(p + q) == WeightedPool(p) + WeightedPool(q)
    decreases |q|
  {
    if q != [] {
      var pq := p + q;
      assert pq[..|pq| - 1] == p + q[..|q| - 1];
      WeightedPoolAppend(p, q[..|q| - 1]);
    } else {
      assert p + q == p;
    }
  }

  lemma {:induction false} RepeatCount(x: int, n: nat, y: int)
    ensures multiset(Repeat(x, n))[y] == if y == x then n else 0
  {
    if n > 0 {
      RepeatCount(x, n - 1, y);
    }
  }

  /** Each configured prize up to 1000 appears three times per occurrence, every other prize once. */
  lemma {:induction false} WeightedPoolMultiplicity(prizes: seq<int>, x: int)
    ensures multiset(WeightedPool(prizes))[x] == Weight(x) * multiset(prizes)[x]
  {
    if prizes != [] {
      var init, last := prizes[..|prizes| - 1], prizes[|prizes| - 1];
      assert prizes == init + [last];
      WeightedPoolMultiplicity(init, x);
      RepeatCount(last, Weight(last), x);
      assert multiset(prizes)[x] == multiset(init)[x] + (if x == last then 1 else 0);
    }
  }

  /** The pool holds exactly the configured prizes. */
  lemma WeightedPoolMembers(prizes: seq<int>, x: int)
    ensures x in WeightedPool(prizes) <==> x in prizes
  {
    WeightedPoolMultiplicity(prizes, x);
    assert x in WeightedPool(prizes) <==> multiset(WeightedPool(prizes))[x] > 0;
    assert x in prizes <==> multiset(prizes)[x] > 0;
  }

  /**
   * The pool a spin draws from: the default list when the settings row or its
   * prize text is missing or empty, the weighted pool of the parsed list
   * otherwise, and `None` where parsing raises.
   */
  function PrizePool(prizeText: Option<string>): Option<seq<int>> {
    if prizeText.None? || prizeText.value == [] then Some(DEFAULT_PRIZES)
    else
      match PrizeText.ParsePrizes(prizeText.value)
      case None => None
      case Some(prizes) => Some(WeightedPool(prizes))
  }

  /**
   * Loads the pool a spin draws from: the default list when nothing is
   * configured, otherwise the weighted pool of the parsed list, or `None`
   * when the configured text does not parse.
   */
  method ConfiguredPool(prizeText: Option<string>) returns (pool: Option<seq<int>>)
    ensures pool == PrizePool(prizeText)
    ensures pool.Some? ==> |pool.value| >= 1
  {
    PrizePoolNonEmpty(prizeText);
    if prizeText.Some? && prizeText.value != [] {
      var parsed := PrizeText.ParsePrizes(prizeText.value);
      if parsed.None? {
        return None;
      }
      var weighted := BuildWeightedPool(parsed.value);
      return Some(weighted);
    }
    return Some(DEFAULT_PRIZES);
  }

  /** A pool that exists is never empty, so a prize can always be drawn from it. */
  lemma {:induction false} PrizePoolNonEmpty(prizeText: Option<string>)
    ensures PrizePool(prizeText).Some? ==> |PrizePool(prizeText).value| >= 1
  {
    if prizeText.Some? && prizeText.value != [] {
      var parsed := PrizeText.ParsePrizes(prizeText.value);
      if parsed.Some? {
        var prizes := parsed.value;
        WeightedPoolMembers(prizes, prizes[0]);
      }
    }
  }

  /** With no configuration, or with no negative configured prize, every prize that can be drawn is non-negative. */
  lemma PoolPrizesNonNegative(prizeText: Option<string>, x: int)
    requires PrizePool(prizeText).Some? && x in PrizePool(prizeText).value
    requires prizeText.None? || prizeText.value == []
             || forall p :: p in PrizeText.ParsePrizes(prizeText.value).value ==> p >= 0
    ensures x >= 0
  {
    if prizeText.Some? && prizeText.value != [] {
      WeightedPoolMembers(PrizeText.ParsePrizes(prizeText.value).value, x);
    }
  }
}
