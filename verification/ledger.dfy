/**
 * The money-moving rules of the views in core/views.py, lifted out of the
 * HTTP and ORM layers: users and their balances, level purchases with the
 * referral commission, the daily gain, withdrawals, roulette spins and
 * deposit approval.
 *
 * Each view becomes one method that runs as a single sequential step. The
 * clock, the time of day, today's date, the staff flag, the bank-details
 * flag and the roulette configuration are parameters.
 */
module Ledger {
  import opened Wrappers
  import opened Cooldown
  import WithdrawalRules
  import RoulettePool
  import PrizeText

  /** `Decimal('0.15')` */
  const COMMISSION_RATE: real := 0.15

  /** A catalog level: immutable reference data. */
  datatype Level = Level(id: int, name: string, depositValue: real, dailyGain: real)

  class User {
    var availableBalance: real
    var subsidyBalance: real
    var rouletteSpins: int
    var levelActive: bool
    const invitedBy: User?

    constructor (availableBalance: real, rouletteSpins: int, invitedBy: User?)
      ensures this.availableBalance == availableBalance && subsidyBalance == 0.0
      ensures this.rouletteSpins == rouletteSpins && !levelActive && this.invitedBy == invitedBy
    {
      this.availableBalance := availableBalance;
      subsidyBalance := 0.0;
      this.rouletteSpins := rouletteSpins;
      levelActive := false;
      this.invitedBy := invitedBy;
    }
  }

  /** A user's purchase of a level. Only the accrual bookkeeping changes after creation. */
  class UserLevel {
    const user: User
    const level: Level
    const isActive: bool
    const purchaseDate: int
    var lastDailyGainDate: Option<int>

    constructor (user: User, level: Level, isActive: bool, purchaseDate: int)
      ensures this.user == user && this.level == level && this.isActive == isActive
      ensures this.purchaseDate == purchaseDate && lastDailyGainDate == None
    {
      this.user := user;
      this.level := level;
      this.isActive := isActive;
      this.purchaseDate := purchaseDate;
      lastDailyGainDate := None;
    }
  }

  /** A history record of an applied gain (`task_definition` is always `None` here). */
  datatype Task = Task(user: User, earnings: real, completedAt: int)

  /** `Task.objects.filter(user=u).aggregate(Sum('earnings'))`, with `or 0` for no rows. */
  function TaskEarnings(tasks: seq<Task>, u: User): real {
    if tasks == [] then 0.0
    else (if tasks[0].user == u then tasks[0].earnings else 0.0) + TaskEarnings(tasks[1..], u)
  }

  /** Appending a history record adds its earnings to its owner's total and to nobody else's. */
  lemma {:induction false} TaskEarningsAppend(tasks: seq<Task>, t: Task, u: User)
    ensures TaskEarnings(tasks + [t], u) == TaskEarnings(tasks, u) + (if t.user == u then t.earnings else 0.0)
  {
    if tasks != [] {
      assert (tasks + [t])[1..] == tasks[1..] + [t];
      TaskEarningsAppend(tasks[1..], t, u);
    } else {
      assert [] + [t] == [t];
    }
  }

  datatype WithdrawalStatus = Pending | Approved

  datatype Withdrawal = Withdrawal(user: User, amount: real, status: WithdrawalStatus, createdOn: int)

  datatype RouletteDraw = RouletteDraw(user: User, prize: int, isApproved: bool)

  class Deposit {
    const user: User
    const amount: real
    var isApproved: bool

    constructor (user: User, amount: real)
      ensures this.user == user && this.amount == amount && !isApproved
    {
      this.user := user;
      this.amount := amount;
      isApproved := false;
    }

    /**
     * `approve_deposit`: only staff may approve, and the owner is credited
     * only on the first approval.
     */
    method Approve(isStaff: bool) returns (credited: bool)
      modifies this, user
      ensures credited <==> isStaff && !old(isApproved)
      ensures isApproved == (old(isApproved) || isStaff)
      ensures user.availableBalance == old(user.availableBalance) + (if credited then amount else 0.0)
      ensures user.subsidyBalance == old(user.subsidyBalance) && user.rouletteSpins == old(user.rouletteSpins)
      ensures user.levelActive == old(user.levelActive)
    {
      if !isStaff {
        return false;
      }
      credited := !isApproved;
      if credited {
        isApproved := true;
        user.availableBalance := user.availableBalance + amount;
      }
    }
  }

  datatype PurchaseOutcome = AlreadyOwned | InsufficientBalance | Purchased(inviterCredited: bool)

  datatype SpinOutcome = NoSpins | Won(prize: int) | PrizeConfigError

  /** The tables the views append to, in primary-key (creation) order. */
  class Store {
    var userLevels: seq<UserLevel>
    var tasks: seq<Task>
    var withdrawals: seq<Withdrawal>
    var roulettes: seq<RouletteDraw>

    constructor ()
      ensures userLevels == [] && tasks == [] && withdrawals == [] && roulettes == []
    {
      userLevels, tasks, withdrawals, roulettes := [], [], [], [];
    }

    predicate ActiveFor(u: User, i: int)
      reads this`userLevels
      requires 0 <= i < |userLevels|
    {
      userLevels[i].user == u && userLevels[i].isActive
    }

    /** The index of the first active level purchase of `u` at or after `k`. */
    function FirstActiveFrom(u: User, k: nat): (r: Option<nat>)
      reads this`userLevels
      requires k <= |userLevels|
      ensures r.Some? ==> k <= r.value < |userLevels| && ActiveFor(u, r.value)
      ensures r.Some? ==> forall j :: k <= j < r.value ==> !ActiveFor(u, j)
      ensures r.None? ==> forall j :: k <= j < |userLevels| ==> !ActiveFor(u, j)
      decreases |userLevels| - k
    {
      if k == |userLevels| then None
      else if ActiveFor(u, k) then Some(k)
      else FirstActiveFrom(u, k + 1)
    }

    /** `UserLevel.objects.filter(user=u, is_active=True).first()` */
    function FirstActive(u: User): Option<nat>
      reads this`userLevels
    {
      FirstActiveFrom(u, 0)
    }

    /** `UserLevel.objects.filter(user=u, is_active=True).exists()` */
    predicate HasActiveLevel(u: User)
      reads this`userLevels
    {
      exists j :: 0 <= j < |userLevels| && ActiveFor(u, j)
    }

    /** `level_id in user_levels`: `u` holds an active purchase of that level. */
    predicate HoldsActiveLevel(u: User, levelId: int)
      reads this`userLevels
    {
      exists j :: 0 <= j < |userLevels| && ActiveFor(u, j) && userLevels[j].level.id == levelId
    }

    /** `Withdrawal.objects.filter(user=u, created_at__date=day).exists()` */
    predicate WithdrewOn(u: User, day: int)
      reads this`withdrawals
    {
      exists i :: 0 <= i < |withdrawals| && withdrawals[i].user == u && withdrawals[i].createdOn == day
    }

    /**
     * `check_and_apply_daily_gain`: on the user's first active level purchase,
     * applies the level's daily gain once the cooldown since the last gain (or
     * since the purchase) has elapsed.
     */
    method CheckAndApplyDailyGain(user: User, now: int) returns (applied: bool, nextGain: Option<int>)
      modifies this`tasks, user`availableBalance, userLevels
      ensures FirstActive(user).None? ==>
                !applied && nextGain == None
                && tasks == old(tasks) && user.availableBalance == old(user.availableBalance)
      ensures FirstActive(user).Some? ==>
                var ul := userLevels[FirstActive(user).value];
                var check := AccrualCheck(old(ul.lastDailyGainDate), ul.purchaseDate, now);
                && applied == check.0 && nextGain == Some(check.1)
                && user.availableBalance == old(user.availableBalance) + (if applied then ul.level.dailyGain else 0.0)
                && ul.lastDailyGainDate == (if applied then Some(now) else old(ul.lastDailyGainDate))
                && tasks == old(tasks) + (if applied then [Task(user, ul.level.dailyGain, now)] else [])
      ensures forall j :: 0 <= j < |userLevels| && (FirstActive(user).None? || userLevels[j] != userLevels[FirstActive(user).value]) ==>
                userLevels[j].lastDailyGainDate == old(userLevels[j].lastDailyGainDate)
    {
      var found := FirstActive(user);
      if found.None? {
        return false, None;
      }
      var ul := userLevels[found.value];
      var nextGainTime := NextGainTime(ul.lastDailyGainDate, ul.purchaseDate);
      if now >= nextGainTime {
        var gain := ul.level.dailyGain;
        user.availableBalance := user.availableBalance + gain;
        ul.lastDailyGainDate := Some(now);
        tasks := tasks + [Task(user, gain, now)];
        return true, Some(now + COOLDOWN);
      }
      return false, Some(nextGainTime);
    }

    /**
     * `nivel` (POST): buys a level unless the user already holds it actively
     * or cannot pay for it, then pays the inviter a 15% commission when the
     * inviter holds an active level.
     */
    method PurchaseLevel(buyer: User, level: Level, now: int) returns (r: PurchaseOutcome)
      requires buyer.invitedBy != buyer
      modifies this`userLevels, buyer`availableBalance, buyer`levelActive, buyer.invitedBy
      ensures r == AlreadyOwned <==> old(HoldsActiveLevel(buyer, level.id))
      ensures r == InsufficientBalance <==>
                !old(HoldsActiveLevel(buyer, level.id)) && old(buyer.availableBalance) < level.depositValue
      ensures !r.Purchased? ==>
                userLevels == old(userLevels) && buyer.availableBalance == old(buyer.availableBalance)
                && buyer.levelActive == old(buyer.levelActive)
      ensures r.Purchased? ==>
                && old(buyer.availableBalance) >= level.depositValue
                && buyer.availableBalance == old(buyer.availableBalance) - level.depositValue
                && buyer.levelActive
                && |userLevels| == |old(userLevels)| + 1
                && userLevels[..|old(userLevels)|] == old(userLevels)
                && var ul := userLevels[|old(userLevels)|];
                   fresh(ul) && ul.user == buyer && ul.level == level && ul.isActive
                   && ul.purchaseDate == now && ul.lastDailyGainDate == None
      ensures r.Purchased? ==>
                (r.inviterCredited <==> buyer.invitedBy != null && old(HasActiveLevel(buyer.invitedBy)))
      ensures buyer.invitedBy != null ==>
                var inviter := buyer.invitedBy;
                var commission := if r.Purchased? && r.inviterCredited then level.depositValue * COMMISSION_RATE else 0.0;
                && inviter.subsidyBalance == old(inviter.subsidyBalance) + commission
                && inviter.availableBalance == old(inviter.availableBalance) + commission
                && inviter.rouletteSpins == old(inviter.rouletteSpins)
                && inviter.levelActive == old(inviter.levelActive)
    {
      if HoldsActiveLevel(buyer, level.id) {
        return AlreadyOwned;
      }
      if buyer.availableBalance < level.depositValue {
        return InsufficientBalance;
      }
      buyer.availableBalance := buyer.availableBalance - level.depositValue;
      var ul := new UserLevel(buyer, level, true, now);
      ghost var before := userLevels;
      userLevels := userLevels + [ul];
      buyer.levelActive := true;

      var inviter := buyer.invitedBy;
      if inviter != null && old(HasActiveLevel(inviter)) {
        ghost var j :| 0 <= j < |before| && old(ActiveFor(inviter, j));
        assert ActiveFor(inviter, j);
      }
      if inviter != null && HasActiveLevel(inviter) {
        assert forall j :: 0 <= j < |before| ==> (ActiveFor(inviter, j) <==> old(ActiveFor(inviter, j)));
        var commission := level.depositValue * COMMISSION_RATE;
        inviter.subsidyBalance := inviter.subsidyBalance + commission;
        inviter.availableBalance := inviter.availableBalance + commission;
        return Purchased(true);
      }
      assert inviter != null ==> !ActiveFor(inviter, |before|);
      return Purchased(false);
    }

    /**
     * `saque` (POST with a valid form): the rules of `WithdrawalRules.Decide`,
     * then a pending withdrawal and an immediate debit on success.
     */
    method RequestWithdrawal(user: User, amount: real, hasBankDetails: bool, timeOfDay: int, today: int)
      returns (v: WithdrawalRules.Verdict)
      modifies this`withdrawals, user`availableBalance
      ensures v == WithdrawalRules.Decide(hasBankDetails, timeOfDay, old(WithdrewOn(user, today)),
                                          amount, old(user.availableBalance))
      ensures v == WithdrawalRules.Accepted ==>
                withdrawals == old(withdrawals) + [Withdrawal(user, amount, Pending, today)]
                && user.availableBalance == old(user.availableBalance) - amount
                && user.availableBalance >= 0.0
      ensures v != WithdrawalRules.Accepted ==>
                withdrawals == old(withdrawals) && user.availableBalance == old(user.availableBalance)
    {
      var alreadyWithdrawnToday := WithdrewOn(user, today);
      if !hasBankDetails {
        return WithdrawalRules.NoBankDetails;
      }
      if !WithdrawalRules.IsTimeAllowed(timeOfDay) {
        v := WithdrawalRules.OutsideHours;
      } else if alreadyWithdrawnToday {
        v := WithdrawalRules.AlreadyWithdrawnToday;
      } else if amount < WithdrawalRules.MIN_WITHDRAWAL_AMOUNT {
        v := WithdrawalRules.BelowMinimum;
      } else if user.availableBalance < amount {
        v := WithdrawalRules.InsufficientBalance;
      } else {
        withdrawals := withdrawals + [Withdrawal(user, amount, Pending, today)];
        user.availableBalance := user.availableBalance - amount;
        v := WithdrawalRules.Accepted;
      }
    }

    /**
     * `spin_roulette`: consumes one spin, then draws a prize from the pool
     * and credits it to both balances. A prize text that does not parse
     * raises after the spin was consumed.
     */
    method SpinRoulette(user: User, prizeText: Option<string>) returns (r: SpinOutcome)
      modifies this`roulettes, user`rouletteSpins, user`subsidyBalance, user`availableBalance
      ensures r == NoSpins <==> old(user.rouletteSpins) <= 0
      ensures r == PrizeConfigError <==> old(user.rouletteSpins) > 0 && RoulettePool.PrizePool(prizeText).None?
      ensures user.rouletteSpins == if r == NoSpins then old(user.rouletteSpins) else old(user.rouletteSpins) - 1
      ensures !r.Won? ==>
                roulettes == old(roulettes)
                && user.subsidyBalance == old(user.subsidyBalance)
                && user.availableBalance == old(user.availableBalance)
      ensures r.Won? ==>
                && RoulettePool.PrizePool(prizeText).Some?
                && r.prize in RoulettePool.PrizePool(prizeText).value
                && roulettes == old(roulettes) + [RouletteDraw(user, r.prize, true)]
                && user.subsidyBalance == old(user.subsidyBalance) + r.prize as real
                && user.availableBalance == old(user.availableBalance) + r.prize as real
    {
      if user.rouletteSpins <= 0 {
        return NoSpins;
      }
      user.rouletteSpins := user.rouletteSpins - 1;

      var loaded := RoulettePool.ConfiguredPool(prizeText);
      if loaded.None? {
        return PrizeConfigError;
      }
      var pool := loaded.value;
      // `random.choice`: any element of the pool may be drawn.
      var pick :| 0 <= pick < |pool|;
      var prize := pool[pick];

      roulettes := roulettes + [RouletteDraw(user, prize, true)];
      user.subsidyBalance := user.subsidyBalance + prize as real;
      user.availableBalance := user.availableBalance + prize as real;
      return Won(prize);
    }
  }
}
