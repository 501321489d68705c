/**
 * The withdrawal eligibility rules of the `saque` view (core/views.py).
 * Times of day count microseconds since midnight, the resolution of
 * `datetime.now().time()`.
 */
module WithdrawalRules {
  import opened Cooldown

  /** `Decimal('2000')` */
  const MIN_WITHDRAWAL_AMOUNT: real := 2000.0
  /** `time(9, 0, 0)` */
  const START_TIME: int := 9 * MICROS_PER_HOUR
  /** `time(18, 0, 0)` */
  const END_TIME: int := 18 * MICROS_PER_HOUR

  /** `START_TIME <= now <= END_TIME`: the window is closed at both ends. */
  predicate IsTimeAllowed(timeOfDay: int) {
    START_TIME <= timeOfDay <= END_TIME
  }

  /** What one withdrawal request is told. */
  datatype Verdict =
    | NoBankDetails
    | OutsideHours
    | AlreadyWithdrawnToday
    | BelowMinimum
    | InsufficientBalance
    | Accepted

  /**
   * The decision of `saque` for a valid form: the bank-details check returns
   * before anything else, then the if/elif chain reports only the first rule
   * that fails.
   */
  function Decide(hasBankDetails: bool, timeOfDay: int, alreadyWithdrawnToday: bool,
                  amount: real, balance: real): (v: Verdict)
    ensures v == Accepted <==>
              hasBankDetails && IsTimeAllowed(timeOfDay) && !alreadyWithdrawnToday
              && amount >= MIN_WITHDRAWAL_AMOUNT && balance >= amount
    ensures v == NoBankDetails <==> !hasBankDetails
    ensures v == Accepted ==> balance - amount >= 0.0 && amount > 0.0
  {
    if !hasBankDetails then NoBankDetails
    else if !IsTimeAllowed(timeOfDay) then OutsideHours
    else if alreadyWithdrawnToday then AlreadyWithdrawnToday
    else if amount < MIN_WITHDRAWAL_AMOUNT then BelowMinimum
    else if balance < amount then InsufficientBalance
    else Accepted
  }

  /** A rule checked in order: whether it holds, and what is reported when it does not. */
  datatype Rule = Rule(holds: bool, failure: Verdict)

  /** The withdrawal rules, in the order `saque` checks them. */
  function Rules(hasBankDetails: bool, timeOfDay: int, alreadyWithdrawnToday: bool,
                 amount: real, balance: real): seq<Rule>
  {
    [ Rule(hasBankDetails, NoBankDetails),
      Rule(IsTimeAllowed(timeOfDay), OutsideHours),
      Rule(!alreadyWithdrawnToday, AlreadyWithdrawnToday),
      Rule(amount >= MIN_WITHDRAWAL_AMOUNT, BelowMinimum),
      Rule(balance >= amount, InsufficientBalance) ]
  }

  /** Reference semantics of an ordered rule list: the failure of the first rule that does not hold. */
  function FirstFailure(rules: seq<Rule>): Verdict {
    if rules == [] then Accepted
    else if !rules[0].holds then rules[0].failure
    else FirstFailure(rules[1..])
  }

  lemma {:induction false} FirstFailureIsEarliest(rules: seq<Rule>, k: int)
    requires 0 <= k < |rules| && !rules[k].holds
    requires forall j :: 0 <= j < k ==> rules[j].holds
    ensures FirstFailure(rules) == rules[k].failure
  {
    if k > 0 {
      FirstFailureIsEarliest(rules[1..], k - 1);
    }
  }

  lemma {:induction false} FirstFailureAllHold(rules: seq<Rule>)
    requires forall j :: 0 <= j < |rules| ==> rules[j].holds
    ensures FirstFailure(rules) == Accepted
  {
    if rules != [] {
      FirstFailureAllHold(rules[1..]);
    }
  }

  /** `Decide` reports exactly the first failing rule of `Rules`, and accepts when all hold. */
  lemma DecideReportsFirstFailingRule(hasBankDetails: bool, timeOfDay: int, alreadyWithdrawnToday: bool,
                                      amount: real, balance: real)
    ensures var rules := Rules(hasBankDetails, timeOfDay, alreadyWithdrawnToday, amount, balance);
            Decide(hasBankDetails, timeOfDay, alreadyWithdrawnToday, amount, balance) == FirstFailure(rules)
  {
    var rules := Rules(hasBankDetails, timeOfDay, alreadyWithdrawnToday, amount, balance);
    if !hasBankDetails {
      FirstFailureIsEarliest(rules, 0);
    } else if !IsTimeAllowed(timeOfDay) {
      FirstFailureIsEarliest(rules, 1);
    } else if alreadyWithdrawnToday {
      FirstFailureIsEarliest(rules, 2);
    } else if amount < MIN_WITHDRAWAL_AMOUNT {
      FirstFailureIsEarliest(rules, 3);
    } else if balance < amount {
      FirstFailureIsEarliest(rules, 4);
    } else {
      FirstFailureAllHold(rules);
    }
  }
}
