/**
  Concrete runs of the calculator: the example at the bottom of
  calculate_balance.js, two failing inputs (a user present in only one object;
  limits that add up to more than the balance), a `__proto__` user, and what
  the balance setter and the constructor do with edge values.
  Amounts are in cents: 294 is 29400, 132.95 is 13295.
 */
module BalanceScenarios {
  import opened BalanceTracker

  const ExampleLimits: Ledger := LedgerData(["user1", "user2"], map["user1" := 29400, "user2" := 63000])
  const ExampleSpends: Ledger := LedgerData(["user1", "user2"], map["user1" := 13295, "user2" := 32647])

  const ReorderedSpends: Ledger := LedgerData(["user2", "user1"], map["user1" := 13295, "user2" := 32647])

  lemma ExampleLimitSum()
    ensures LimitSum(ExampleLimits) == 92400
    ensures Total(ExampleLimits.users, ExampleLimits.amounts) == 92400
  {
    FoldIsTotal(ExampleLimits.users, ExampleLimits.amounts, 0);
  }

  /** The example usage: 294 + 630 is 924, and the users keep 161.05 and 303.53. */
  lemma ExampleUsage()
    ensures RunOutcome(Some(ExampleLimits), Some(ExampleSpends), Num(92400))
         == Ok(LedgerData(["user1", "user2"], map["user1" := 16105, "user2" := 30353]))
  {
    ExampleLimitSum();
    RunSucceeds(Some(ExampleLimits), Some(ExampleSpends), Num(92400));
    ExampleRemaining();
  }

  /** 294 - 132.95 is 161.05 and 630 - 326.47 is 303.53, for the users in their given order. */
  lemma ExampleRemaining()
    ensures Remaining(ExampleLimits, ExampleSpends) == LedgerData(["user1", "user2"], map["user1" := 16105, "user2" := 30353])
  {
    RemainingKeepsAllUsers(ExampleLimits, ExampleSpends);
    ExampleRemainingAmounts();
  }

  lemma ExampleRemainingAmounts()
    ensures Remaining(ExampleLimits, ExampleSpends).amounts == map["user1" := 16105, "user2" := 30353]
  {
  }

  /** A user present in only one of the objects is a user mismatch. */
  lemma DifferentUsers()
    ensures RunOutcome(Some(LedgerData(["user1"], map["user1" := 10000])),
                       Some(LedgerData(["user2"], map["user2" := 5000])),
                       Num(10000))
         == Err(UserMismatch)
  {
    assert "user1" !in map["user2" := 5000];
  }

  /** Limits of 50 and 60 add up to 110, not to the declared 100. */
  lemma SumDiffers()
    ensures RunOutcome(Some(LedgerData(["user1", "user2"], map["user1" := 5000, "user2" := 6000])),
                       Some(LedgerData(["user1", "user2"], map["user1" := 1000, "user2" := 1000])),
                       Num(10000))
         == Err(BalanceMismatch)
  {
    assert LimitSum(LedgerData(["user1", "user2"], map["user1" := 5000, "user2" := 6000])) == 11000;
  }

  /** The same users listed in another order still pass the user check. */
  lemma UserOrderIrrelevant()
    ensures RunOutcome(Some(ExampleLimits), Some(ReorderedSpends), Num(92400)).Ok?
  {
    ExampleLimitSum();
    RunSucceeds(Some(ExampleLimits), Some(ReorderedSpends), Num(92400));
  }

  const ProtoLimits: Ledger := LedgerData(["__proto__", "user1"], map["__proto__" := 10000, "user1" := 20000])
  const ProtoSpends: Ledger := LedgerData(["__proto__", "user1"], map["__proto__" := 2500, "user1" := 5000])

  lemma ProtoLimitSum()
    ensures LimitSum(ProtoLimits) == 30000
  {
    FoldIsTotal(ProtoLimits.users, ProtoLimits.amounts, 0);
  }

  /**
    A user named `__proto__` (an own key of a parsed object) counts in both
    checks and in the sum, but the result object made by `{}` cannot hold it.
   */
  lemma ProtoUserDropped()
    ensures RunOutcome(Some(ProtoLimits), Some(ProtoSpends), Num(30000))
         == Ok(LedgerData(["user1"], map["user1" := 15000]))
  {
    ProtoLimitSum();
    RunSucceeds(Some(ProtoLimits), Some(ProtoSpends), Num(30000));
    ProtoRemaining();
  }

  /** Only user1 reaches the result object, with 200 - 50. */
  lemma ProtoRemaining()
    ensures Remaining(ProtoLimits, ProtoSpends) == LedgerData(["user1"], map["user1" := 15000])
  {
    ProtoRemainingUsers();
    ProtoRemainingAmounts();
  }

  lemma ProtoRemainingUsers()
    ensures Remaining(ProtoLimits, ProtoSpends).users == ["user1"]
  {
    assert ProtoLimits.users[1..] == ["user1"];
    VisibleWithoutProto(["user1"]);
  }

  lemma ProtoRemainingAmounts()
    ensures Remaining(ProtoLimits, ProtoSpends).amounts == map["user1" := 15000]
  {
  }

  /** The setter takes zero and NaN, refuses a negative amount and a non-number, and keeps the old balance when it refuses. */
  method SetterEdgeCases() {
    var calculator := new CalculateBalance(Some(ExampleLimits), Some(ExampleSpends), Num(92400));
    var outcome := calculator.SetBalance(Num(0));
    assert outcome == Pass && calculator.balance == Num(0);
    outcome := calculator.SetBalance(Num(-1));
    assert outcome == Fail(InvalidBalance) && calculator.balance == Num(0);
    outcome := calculator.SetBalance(NonNumber);
    assert outcome == Fail(InvalidBalance) && calculator.balance == Num(0);
    outcome := calculator.SetBalance(Num(92400));
    var got := calculator.GetBalance();
    assert outcome == Pass && got == Num(92400);
    assert calculator.limits == Some(ExampleLimits) && calculator.spends == Some(ExampleSpends);
    // NaN passes the setter, and then no sum can equal it.
    outcome := calculator.SetBalance(NaN);
    assert outcome == Pass;
    var result := calculator.Run();
    assert result == Err(BalanceMismatch);
  }

  const Owed: Ledger := LedgerData(["user1"], map["user1" := -500])
  const Settled: Ledger := LedgerData(["user1"], map["user1" := 0])

  /** A negative limit that adds up to a negative balance passes every check of run(). */
  lemma NegativeBalanceRuns()
    ensures RunOutcome(Some(Owed), Some(Settled), Num(-500)) == Ok(LedgerData(["user1"], map["user1" := 500]))
  {
    assert LimitSum(Owed) == -500;
    assert Remaining(Owed, Settled).amounts == map["user1" := 500];
  }

  /** A negative balance given to the constructor is stored, although the setter would refuse it. */
  method NegativeBalanceAtConstruction() {
    var calculator := new CalculateBalance(Some(Owed), Some(Settled), Num(-500));
    var got := calculator.GetBalance();
    assert got == Num(-500) && !BalanceAccepted(got);
    var result := calculator.Run();
    NegativeBalanceRuns();
    assert result == Ok(LedgerData(["user1"], map["user1" := 500]));
  }

  /** A missing object is reported before anything else is looked at. */
  method MissingSpends() {
    var calculator := new CalculateBalance(Some(ExampleLimits), None, NaN);
    var result := calculator.Run();
    assert result == Err(MissingParameters);
  }
}
