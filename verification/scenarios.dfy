/**
 * Worked runs of the ledger operations, and the properties that need more
 * than one call: a second accrual check at the same instant and a second
 * deposit approval change nothing.
 */
module Scenarios {
  import opened Wrappers
  import opened Cooldown
  import WithdrawalRules
  import RoulettePool
  import PrizeText
  import opened Ledger


  /**
   * A user with 5000 buys a level priced 3000 that gains 50 a day. A check
   * 23 hours after the purchase applies nothing and reports the gain 24 hours
   * after the purchase; a check at 25 hours applies it.
   */
  method PurchaseThenAccrue(purchasedAt: int)
    returns (outcome: PurchaseOutcome, balanceAfterPurchase: real,
             appliedAt23h: bool, nextAt23h: Option<int>,
             appliedAt25h: bool, balanceAt25h: real)
    ensures outcome == Purchased(false) && balanceAfterPurchase == 2000.0
    ensures !appliedAt23h && nextAt23h == Some(purchasedAt + 24 * MICROS_PER_HOUR)
    ensures appliedAt25h && balanceAt25h == 2050.0
  {
    var store := new Store();
    var a := new User(5000.0, 0, null);
    var l1 := Level(1, "L1", 3000.0, 50.0);
    outcome := store.PurchaseLevel(a, l1, purchasedAt);
    balanceAfterPurchase := a.availableBalance;
    assert store.ActiveFor(a, 0);
    appliedAt23h, nextAt23h := store.CheckAndApplyDailyGain(a, purchasedAt + 23 * MICROS_PER_HOUR);
    var nextAt25h;
    appliedAt25h, nextAt25h := store.CheckAndApplyDailyGain(a, purchasedAt + 25 * MICROS_PER_HOUR);
    balanceAt25h := a.availableBalance;
  }

  /**
   * B, invited by A, buys a level priced 1000: A is paid 150 into both
   * balances when A holds an active level, and nothing otherwise.
   */
  method CommissionToInviter(inviterHasLevel: bool)
    returns (outcome: PurchaseOutcome, inviterSubsidy: real, inviterAvailable: real)
    ensures outcome == Purchased(inviterHasLevel)
    ensures inviterSubsidy == if inviterHasLevel then 150.0 else 0.0
    ensures inviterAvailable == if inviterHasLevel then 2150.0 else 5000.0
  {
    var store := new Store();
    var a := new User(5000.0, 0, null);
    if inviterHasLevel {
      var bought := store.PurchaseLevel(a, Level(1, "L1", 3000.0, 50.0), 0);
      assert store.ActiveFor(a, 0);
    }
    var b := new User(1000.0, 0, a);
    outcome := store.PurchaseLevel(b, Level(2, "L2", 1000.0, 20.0), 0);
    inviterSubsidy, inviterAvailable := a.subsidyBalance, a.availableBalance;
  }

  /** A second purchase of a level the buyer already holds is refused and costs nothing. */
  method BuySameLevelTwice() returns (first: PurchaseOutcome, second: PurchaseOutcome, balance: real)
    ensures first == Purchased(false) && second == AlreadyOwned && balance == 2000.0
  {
    var store := new Store();
    var a := new User(5000.0, 0, null);
    var l1 := Level(1, "L1", 3000.0, 50.0);
    first := store.PurchaseLevel(a, l1, 0);
    assert store.ActiveFor(a, 0) && store.userLevels[0].level.id == 1;
    second := store.PurchaseLevel(a, l1, 0);
    balance := a.availableBalance;
  }

  /** A withdrawal asked for at 20:00 is refused as outside hours; 18:00:00 itself is still allowed. */
  method WithdrawAtEightPm() returns (atEight: WithdrawalRules.Verdict, atSix: WithdrawalRules.Verdict, balance: real)
    ensures atEight == WithdrawalRules.OutsideHours && balance == 5000.0
    ensures atSix == WithdrawalRules.Accepted
  {
    var store := new Store();
    var a := new User(5000.0, 0, null);
    atEight := store.RequestWithdrawal(a, 2000.0, true, 20 * MICROS_PER_HOUR, 1);
    balance := a.availableBalance;
    atSix := store.RequestWithdrawal(a, 2000.0, true, 18 * MICROS_PER_HOUR, 1);
  }

  /** One withdrawal per day: a second request on the same day is refused. */
  method WithdrawTwiceOneDay() returns (first: WithdrawalRules.Verdict, second: WithdrawalRules.Verdict, balance: real)
    ensures first == WithdrawalRules.Accepted && second == WithdrawalRules.AlreadyWithdrawnToday
    ensures balance == 3000.0
  {
    var store := new Store();
    var a := new User(5000.0, 0, null);
    first := store.RequestWithdrawal(a, 2000.0, true, 10 * MICROS_PER_HOUR, 7);
    assert store.withdrawals[0].user == a && store.withdrawals[0].createdOn == 7;
    second := store.RequestWithdrawal(a, 2000.0, true, 11 * MICROS_PER_HOUR, 7);
    balance := a.availableBalance;
  }

  lemma Decimal500()
    ensures PrizeText.IntToDecimal(500) == "500"
  {
    assert PrizeText.NatToDecimal(5) == "5";
    assert PrizeText.NatToDecimal(50) == "50";
  }

  lemma Decimal2000()
    ensures PrizeText.IntToDecimal(2000) == "2000"
  {
    assert PrizeText.NatToDecimal(2) == "2";
    assert PrizeText.NatToDecimal(20) == "20";
    assert PrizeText.NatToDecimal(200) == "200";
  }

  lemma ExampleText()
    ensures PrizeText.FormatPrizes([500, 2000]) == "500,2000"
  {
    Decimal500();
    Decimal2000();
    var pieces := PrizeText.DecimalPieces([500, 2000]);
    assert pieces == ["500", "2000"];
    assert PrizeText.Join(pieces[1..], ',') == "2000";
  }

  lemma ExampleWeighting()
    ensures RoulettePool.WeightedPool([500, 2000]) == [500, 500, 500, 2000]
  {
    assert [500, 2000][..1] == [500];
    assert [500][..0] == [];
    assert RoulettePool.Repeat(500, 3) == [500, 500, 500];
  }

  /** The prize text "500,2000" gives the pool [500, 500, 500, 2000]. */
  lemma ExamplePrizePool()
    ensures RoulettePool.PrizePool(Some("500,2000")) == Some([500, 500, 500, 2000])
  {
    ExampleText();
    PrizeText.ParsePrizesFormat([500, 2000]);
    ExampleWeighting();
  }

  /**
   * With no configuration, a configuration that does not parse, or one whose
   * prizes are all non-negative, a spin never lowers either balance.
   */
  method SpinWithNonNegativePrizes(store: Store, user: User, prizeText: Option<string>) returns (r: SpinOutcome)
    requires prizeText.None? || prizeText.value == []
             || (PrizeText.ParsePrizes(prizeText.value).Some?
                 ==> forall p :: p in PrizeText.ParsePrizes(prizeText.value).value ==> p >= 0)
    modifies store`roulettes, user`rouletteSpins, user`subsidyBalance, user`availableBalance
    ensures user.subsidyBalance >= old(user.subsidyBalance)
    ensures user.availableBalance >= old(user.availableBalance)
  {
    r := store.SpinRoulette(user, prizeText);
    if r.Won? {
      RoulettePool.PoolPrizesNonNegative(prizeText, r.prize);
    }
  }

  /** With one spin and no configuration, a spin leaves no spins and wins from the default list. */
  method SpinWithDefaultPool() returns (outcome: SpinOutcome, spinsLeft: int, gained: real)
    ensures outcome.Won? && outcome.prize in RoulettePool.DEFAULT_PRIZES
    ensures spinsLeft == 0 && gained >= 100.0
  {
    var store := new Store();
    var a := new User(0.0, 1, null);
    outcome := store.SpinRoulette(a, None);
    spinsLeft := a.rouletteSpins;
    gained := a.availableBalance;
  }

  /** A second accrual check at the instant of a successful one applies nothing. */
  method GainTwiceAtSameInstant(store: Store, user: User, now: int) returns (first: bool, second: bool)
    modifies store`tasks, user`availableBalance, store.userLevels
    ensures !second
    ensures first ==>
              store.FirstActive(user).Some?
              && var gain := store.userLevels[store.FirstActive(user).value].level.dailyGain;
                 store.tasks == old(store.tasks) + [Task(user, gain, now)]
                 && TaskEarnings(store.tasks, user) == TaskEarnings(old(store.tasks), user) + gain
                 && user.availableBalance == old(user.availableBalance) + gain
    ensures !first ==> store.tasks == old(store.tasks) && user.availableBalance == old(user.availableBalance)
  {
    var next;
    first, next := store.CheckAndApplyDailyGain(user, now);
    second, next := store.CheckAndApplyDailyGain(user, now);
    if store.FirstActive(user).Some? {
      var ul := store.userLevels[store.FirstActive(user).value];
      if first {
        GainRestartsCooldown(now, ul.purchaseDate, now);
        TaskEarningsAppend(old(store.tasks), Task(user, ul.level.dailyGain, now), user);
      }
    }
  }

  /** Approving a deposit twice credits it at most once. */
  method ApproveTwice(deposit: Deposit, isStaff: bool) returns (first: bool, second: bool)
    modifies deposit, deposit.user
    ensures !second
    ensures deposit.user.availableBalance == old(deposit.user.availableBalance)
              + (if isStaff && !old(deposit.isApproved) then deposit.amount else 0.0)
  {
    first := deposit.Approve(isStaff);
    second := deposit.Approve(isStaff);
  }
}
