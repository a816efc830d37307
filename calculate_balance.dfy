/**
  A model of the CalculateBalance class: given each user's limit, each user's
  spend and a declared total balance, it checks that the inputs are present,
  that both objects name the same users and that the limits add up to the
  balance, and then reports for each user the absolute difference between
  limit and spend.

  Amounts are whole cents, so the exact `!==` comparison of the sum
  with the balance is exact here too, and rounding to two decimals
  (`Number(x.toFixed(2))`) leaves every amount as it is.
 */
module BalanceTracker {
  import opened StringOrder

  datatype Option<T> = None | Some(value: T)

  /** A JavaScript value as far as the balance checks can tell them apart. */
  datatype Value =
    | Num(cents: int)            // a finite number, in cents
    | NaN                        // typeof NaN is 'number'
    | Infinity(negative: bool)   // so is +/-Infinity
    | NonNumber                  // string, undefined, null, object, ...

  /** The errors calculate_balance.js throws: the setter's, then those of run()'s checks in the order run() makes them. */
  datatype Error = InvalidBalance | MissingParameters | UserMismatch | BalanceMismatch
  {
    function Message(): (text: string) {
      match this
      case InvalidBalance => "Invalid balance: must be a positive number."
      case MissingParameters => "Invalid parameters: limits, spends, and balance are required."
      case UserMismatch => "Users in limits and spends do not match!"
      case BalanceMismatch => "Sum of limits does not match the total balance."
    }
  }

  datatype Outcome = Pass | Fail(error: Error)

  datatype RunResult = Ok(remaining: Ledger) | Err(error: Error)

  /**
    A plain object from user names to amounts: `users` lists its own keys in
    the order Object.keys reports them, `amounts` holds the value under each.
   */
  datatype LedgerData = LedgerData(users: seq<string>, amounts: map<string, int>)
  {
    ghost predicate Valid() {
      Distinct(users) && forall u :: u in amounts <==> u in users
    }
  }

  type Ledger = l: LedgerData | l.Valid() witness LedgerData([], map[])

  /**
    The one key that assignment cannot add to an object made by `{}`:
    `obj["__proto__"] = n` runs the setter inherited from Object.prototype,
    which ignores a value that is not an object.
   */
  const ProtoKey: string := "__proto__"

  /**
    `obj[key] = value` on an object made by `{}`: a new key goes to the end of
    the key order (Object.keys puts array-index keys first; the model takes the
    order as given), an existing key keeps its place and value is replaced,
    and `__proto__` leaves the object as it was.
   */
  function Put(o: Ledger, key: string, value: int): (r: Ledger)
    ensures key == ProtoKey ==> r == o
    ensures key != ProtoKey ==> key in r.amounts && r.amounts[key] == value
    ensures forall k :: k != key ==> (k in r.amounts <==> k in o.amounts)
    ensures forall k :: k != key && k in o.amounts ==> r.amounts[k] == o.amounts[k]
    ensures key != ProtoKey && key !in o.amounts ==> r.users == o.users + [key]
    ensures key == ProtoKey || key in o.amounts ==> r.users == o.users
  {
    if key == ProtoKey then o
    else if key in o.amounts then LedgerData(o.users, o.amounts[key := value])
    else LedgerData(o.users + [key], o.amounts[key := value])
  }

  /** The keys an object made by `{}` ends up with when `users` are assigned to it in order: all but `__proto__`. */
  function Visible(users: seq<string>): (r: seq<string>)
    ensures forall u :: u in r <==> u in users && u != ProtoKey
    ensures Distinct(users) ==> Distinct(r)
  {
    if users == [] then []
    else
      assert Distinct(users) ==> users[0] !in users[1..];
      if users[0] == ProtoKey then Visible(users[1..])
      else [users[0]] + Visible(users[1..])
  }

  lemma {:induction false} VisibleAppend(s: seq<string>, x: string)
    ensures Visible(s + [x]) == Visible(s) + (if x == ProtoKey then [] else [x])
  {
    if s == [] {
      assert s + [x] == [x];
    } else {
      assert (s + [x])[1..] == s[1..] + [x];
      VisibleAppend(s[1..], x);
    }
  }

  /** Assigning the next user of a list without repeats extends the visible prefix by that user. */
  lemma PutNextUser(total: Ledger, users: seq<string>, i: nat, value: int)
    requires Distinct(users) && i < |users|
    requires total.users == Visible(users[..i])
    ensures Put(total, users[i], value).users == Visible(users[..i + 1])
  {
    assert users[i] !in users[..i];
    assert users[..i + 1] == users[..i] + [users[i]];
    VisibleAppend(users[..i], users[i]);
  }

  /** Without a `__proto__` key every key is kept, in the same order. */
  lemma {:induction false} VisibleWithoutProto(s: seq<string>)
    requires ProtoKey !in s
    ensures Visible(s) == s
  {
    if s != [] {
      VisibleWithoutProto(s[1..]);
    }
  }

  /** Assigning |limit - spend| for one more user keeps every entry of the object equal to |limit - spend|. */
  lemma PutKeepsDifferences(total: Ledger, limits: Ledger, spends: Ledger, user: string)
    requires limits.amounts.Keys <= spends.amounts.Keys && user in limits.amounts
    requires forall u :: u in total.amounts ==> u in limits.amounts && total.amounts[u] == Abs(limits.amounts[u] - spends.amounts[u])
    ensures var r := Put(total, user, Abs(limits.amounts[user] - spends.amounts[user]));
      forall u :: u in r.amounts ==> u in limits.amounts && r.amounts[u] == Abs(limits.amounts[u] - spends.amounts[u])
  {
  }

  /** An object holding every visible user of `limits` in order, each with |limit - spend|, is the computed result. */
  lemma FilledIsRemaining(total: Ledger, limits: Ledger, spends: Ledger)
    requires limits.amounts.Keys <= spends.amounts.Keys
    requires total.users == Visible(limits.users)
    requires forall u :: u in total.amounts ==> u in limits.amounts && total.amounts[u] == Abs(limits.amounts[u] - spends.amounts[u])
    ensures total == Remaining(limits, spends)
  {
    SameEntries(total, Remaining(limits, spends));
  }

  /** Two objects with the same key order and the same value under each key are the same object. */
  lemma SameEntries(a: Ledger, b: Ledger)
    requires a.users == b.users
    requires forall u :: u in a.amounts ==> a.amounts[u] == b.amounts[u]
    ensures a == b
  {
    assert a.amounts.Keys == b.amounts.Keys;
  }

  function Abs(x: int): (r: nat) {
    if x < 0 then -x else x
  }

  // ---------------------------------------------------------------------
  // The balance setter's guard

  predicate IsNumber(v: Value) {
    !v.NonNumber?
  }

  /** `value < 0` for a number; NaN compares false with everything. */
  predicate IsNegative(v: Value) {
    match v
    case Num(c) => c < 0
    case Infinity(neg) => neg
    case _ => false
  }

  /** The setter throws when `typeof value !== 'number' || value < 0`. */
  predicate BalanceAccepted(v: Value) {
    IsNumber(v) && !IsNegative(v)
  }

  /** The guard lets through exactly the numbers that do not compare below zero: zero, NaN and +Infinity included. */
  lemma BalanceAcceptedIff(v: Value)
    ensures BalanceAccepted(v) <==> (v.Num? && v.cents >= 0) || v == NaN || v == Infinity(false)
  {
  }

  // ---------------------------------------------------------------------
  // The checks of run(), as functions of the three stored inputs

  /** #validateInputs: both objects are truthy and the balance has typeof 'number'. */
  predicate InputsPresent(limits: Option<Ledger>, spends: Option<Ledger>, balance: Value) {
    limits.Some? && spends.Some? && IsNumber(balance)
  }

  /** #hasSameUsers: the sorted key lists of the two objects are equal. */
  function HasSameUsers(limits: Ledger, spends: Ledger): (same: bool)
    ensures same <==> limits.amounts.Keys == spends.amounts.Keys
  {
    SortEqualIff(limits.users, spends.users);
    DistinctPermutationIff(limits.users, spends.users);
    Sort(limits.users) == Sort(spends.users)
  }

  /** `reduce((acc, value) => acc + value, acc)` over the values of `users`, left to right. */
  function FoldValues(users: seq<string>, amounts: map<string, int>, acc: int): (r: int)
    requires forall u :: u in users ==> u in amounts
  {
    if users == [] then acc
    else FoldValues(users[1..], amounts, acc + amounts[users[0]])
  }

  /** The sum of the limits as #validateLimits computes it, a left fold from 0 in key order, is the sum of the limits. */
  function LimitSum(limits: Ledger): (sum: int)
    ensures sum == Total(limits.users, limits.amounts)
  {
    FoldIsTotal(limits.users, limits.amounts, 0);
    FoldValues(limits.users, limits.amounts, 0)
  }

  /**
    #validateLimits: the sum is strictly equal to the balance. With whole-cent
    limits the sum is a finite number, so NaN, Infinity and non-numbers never are.
   */
  predicate LimitsMatchBalance(limits: Ledger, balance: Value): (ok: bool)
    ensures ok <==> balance == Num(Total(limits.users, limits.amounts))
  {
    balance.Num? && LimitSum(limits) == balance.cents
  }

  /**
    #calculateRemaining: every user of `limits` but `__proto__`, in its key
    order, with |limit - spend| (two decimals are whole cents).
   */
  function Remaining(limits: Ledger, spends: Ledger): (r: Ledger)
    requires limits.amounts.Keys <= spends.amounts.Keys
  {
    LedgerData(Visible(limits.users),
               map u | u in limits.amounts && u != ProtoKey :: Abs(limits.amounts[u] - spends.amounts[u]))
  }

  /** What run() does with the inputs: the first check that fails decides the error, and only when none fails is anything computed. */
  function RunOutcome(limits: Option<Ledger>, spends: Option<Ledger>, balance: Value): (r: RunResult) {
    if !InputsPresent(limits, spends, balance) then Err(MissingParameters)
    else if !HasSameUsers(limits.value, spends.value) then Err(UserMismatch)
    else if !LimitsMatchBalance(limits.value, balance) then Err(BalanceMismatch)
    else Ok(Remaining(limits.value, spends.value))
  }

  // ---------------------------------------------------------------------
  // Properties of the sum check

  /** Reference definition of the sum of the values under `users`, added from the right. */
  function Total(users: seq<string>, amounts: map<string, int>): (t: int)
    requires forall u :: u in users ==> u in amounts
  {
    if users == [] then 0 else amounts[users[0]] + Total(users[1..], amounts)
  }

  /** The `reduce` of #validateLimits, a left fold from `acc` is `acc` plus the sum of the values. */
  lemma {:induction false} FoldIsTotal(users: seq<string>, amounts: map<string, int>, acc: int)
    requires forall u :: u in users ==> u in amounts
    ensures FoldValues(users, amounts, acc) == acc + Total(users, amounts)
  {
    if users != [] {
      FoldIsTotal(users[1..], amounts, acc + amounts[users[0]]);
    }
  }

  lemma {:induction false} TotalWithout(users: seq<string>, amounts: map<string, int>, k: nat)
    requires forall u :: u in users ==> u in amounts
    requires k < |users|
    ensures Total(users, amounts) == amounts[users[k]] + Total(users[..k] + users[k + 1..], amounts)
  {
    if k == 0 {
      assert users[..0] + users[1..] == users[1..];
    } else {
      var tail := users[1..];
      TotalWithout(tail, amounts, k - 1);
      assert users[..k] + users[k + 1..] == [users[0]] + (tail[..k - 1] + tail[k..]);
    }
  }

  /** Taking the first element off `a` and the same element off `b` keeps two permutations permutations. */
  lemma RemoveMatching(a: seq<string>, b: seq<string>, k: nat)
    requires multiset(a) == multiset(b)
    requires a != [] && k < |b| && b[k] == a[0]
    ensures multiset(b[..k] + b[k + 1..]) == multiset(a[1..])
  {
    assert b == b[..k] + [b[k]] + b[k + 1..];
    assert a == [a[0]] + a[1..];
    calc {
      multiset(b[..k] + b[k + 1..]);
      multiset(b[..k]) + multiset(b[k + 1..]);
      multiset(b) - multiset{a[0]};
      multiset(a) - multiset{a[0]};
      multiset(a[1..]);
    }
  }

  lemma {:induction false} TotalPermutation(a: seq<string>, b: seq<string>, amounts: map<string, int>)
    requires forall u :: u in a ==> u in amounts
    requires multiset(a) == multiset(b)
    ensures forall u :: u in b ==> u in amounts
    ensures Total(a, amounts) == Total(b, amounts)
  {
    forall u | u in b
      ensures u in amounts
    {
      assert u in multiset(b);
    }
    if a == [] {
      assert |b| == |multiset(b)| == 0;
    } else {
      assert a[0] in multiset(b);
      var k :| 0 <= k < |b| && b[k] == a[0];
      RemoveMatching(a, b, k);
      TotalPermutation(a[1..], b[..k] + b[k + 1..], amounts);
      TotalWithout(b, amounts, k);
    }
  }

  /**
    With whole-cent amounts, the outcome of the sum check does not depend on the
    order Object.keys lists the users in: two objects with the same entries
    have the same limit sum.
   */
  lemma LimitSumOrderIndependent(l1: Ledger, l2: Ledger)
    requires l1.amounts == l2.amounts
    ensures LimitSum(l1) == LimitSum(l2)
  {
    DistinctPermutationIff(l1.users, l2.users);
    TotalPermutation(l1.users, l2.users, l1.amounts);
  }

  // ---------------------------------------------------------------------
  // Properties of run(): each error exactly when its check is the first to fail

  lemma RunMissingParameters(limits: Option<Ledger>, spends: Option<Ledger>, balance: Value)
    ensures RunOutcome(limits, spends, balance) == Err(MissingParameters)
        <==> limits.None? || spends.None? || balance.NonNumber?
  {
  }

  lemma RunUserMismatch(limits: Option<Ledger>, spends: Option<Ledger>, balance: Value)
    ensures RunOutcome(limits, spends, balance) == Err(UserMismatch)
        <==> limits.Some? && spends.Some? && !balance.NonNumber?
             && limits.value.amounts.Keys != spends.value.amounts.Keys
  {
  }

  lemma RunBalanceMismatch(limits: Option<Ledger>, spends: Option<Ledger>, balance: Value)
    ensures RunOutcome(limits, spends, balance) == Err(BalanceMismatch)
        <==> limits.Some? && spends.Some? && !balance.NonNumber?
             && limits.value.amounts.Keys == spends.value.amounts.Keys
             && balance != Num(Total(limits.value.users, limits.value.amounts))
  {
  }

  lemma RunSucceeds(limits: Option<Ledger>, spends: Option<Ledger>, balance: Value)
    ensures RunOutcome(limits, spends, balance).Ok?
        <==> limits.Some? && spends.Some?
             && limits.value.amounts.Keys == spends.value.amounts.Keys
             && balance == Num(Total(limits.value.users, limits.value.amounts))
  {
  }

  /**
    The computed object has the users of `limits` in its key order, except
    `__proto__`, which assignment to `{}` cannot add.
   */
  lemma RemainingUsers(limits: Ledger, spends: Ledger)
    requires limits.amounts.Keys <= spends.amounts.Keys
    ensures Remaining(limits, spends).users == Visible(limits.users)
    ensures forall u :: u in Remaining(limits, spends).amounts <==> u in limits.users && u != ProtoKey
  {
    var r := Remaining(limits, spends);
    assert r.Valid();
  }

  /** Each user in the computed object has |limit - spend|: what is left when the spend is smaller, what is overspent otherwise. */
  lemma RemainingValues(limits: Ledger, spends: Ledger)
    requires limits.amounts.Keys <= spends.amounts.Keys
    ensures forall u :: u in Remaining(limits, spends).amounts ==>
      var r, lim, sp := Remaining(limits, spends).amounts[u], limits.amounts[u], spends.amounts[u];
      && (sp <= lim ==> r == lim - sp)
      && (lim <= sp ==> r == sp - lim)
  {
  }

  /** Without a `__proto__` user the result has exactly the users of `limits`, in the same order. */
  lemma RemainingKeepsAllUsers(limits: Ledger, spends: Ledger)
    requires limits.amounts.Keys <= spends.amounts.Keys
    requires ProtoKey !in limits.amounts
    ensures Remaining(limits, spends).users == limits.users
    ensures Remaining(limits, spends).amounts.Keys == limits.amounts.Keys
  {
    VisibleWithoutProto(limits.users);
  }

  /** On success the result has exactly the users of both objects, in the key order of `limits`, each with |limit - spend|. */
  lemma RunOutput(limits: Option<Ledger>, spends: Option<Ledger>, balance: Value)
    requires RunOutcome(limits, spends, balance).Ok?
    ensures limits.Some? && spends.Some?
    ensures limits.value.amounts.Keys == spends.value.amounts.Keys
    ensures RunOutcome(limits, spends, balance).remaining == Remaining(limits.value, spends.value)
  {
  }

  // ---------------------------------------------------------------------
  // The class

  class CalculateBalance {
    // The JavaScript class never reassigns #limits or #spends after construction;
    // these fields hold the two objects' contents as they were at construction.
    const limits: Option<Ledger>
    const spends: Option<Ledger>
    var balance: Value

    /** Stores the three inputs as given: nothing is validated here, not even the balance. */
    constructor (limits: Option<Ledger>, spends: Option<Ledger>, balance: Value)
      ensures this.limits == limits && this.spends == spends && this.balance == balance
    {
      this.limits := limits;
      this.spends := spends;
      this.balance := balance;
    }

    /** The `balance` getter. */
    method GetBalance() returns (v: Value)
      ensures v == balance
    {
      v := balance;
    }

    /** The `balance` setter: a rejected value throws and leaves the stored balance as it was. */
    method SetBalance(value: Value) returns (outcome: Outcome)
      modifies this
      ensures outcome == if BalanceAccepted(value) then Pass else Fail(InvalidBalance)
      ensures balance == if BalanceAccepted(value) then value else old(balance)
    {
      if !IsNumber(value) || IsNegative(value) {
        return Fail(InvalidBalance);
      }
      balance := value;
      outcome := Pass;
    }

    /** #calculateRemaining: fills an object made by `{}` user by user in the key order of the limits. */
    method CalculateRemaining() returns (total: Ledger)
      requires limits.Some? && spends.Some?
      requires limits.value.amounts.Keys <= spends.value.amounts.Keys
      ensures total == Remaining(limits.value, spends.value)
    {
      var lim := limits.value;
      var sp := spends.value;
      var users := lim.users;  // #getUsers
      total := LedgerData([], map[]);
      for i := 0 to |users|
        invariant total.users == Visible(users[..i])
        invariant forall u :: u in total.amounts ==> u in lim.amounts && total.amounts[u] == Abs(lim.amounts[u] - sp.amounts[u])
      {
        var user := users[i];
        var owed := Abs(lim.amounts[user] - sp.amounts[user]);
        PutNextUser(total, users, i, owed);
        PutKeepsDifferences(total, lim, sp, user);
        total := Put(total, user, owed);
      }
      assert users[..|users|] == users;
      FilledIsRemaining(total, lim, sp);
    }

    /** run(): the three checks in order, then the computation. */
    method Run() returns (result: RunResult)
      ensures result == RunOutcome(limits, spends, balance)
    {
      if !InputsPresent(limits, spends, balance) {
        return Err(MissingParameters);
      }
      if !HasSameUsers(limits.value, spends.value) {
        return Err(UserMismatch);
      }
      if !LimitsMatchBalance(limits.value, balance) {
        return Err(BalanceMismatch);
      }
      var remaining := CalculateRemaining();
      result := Ok(remaining);
    }
  }
}
