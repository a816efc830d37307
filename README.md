# CalculateBalance, modelled in Dafny

`CalculateBalance` (calculate_balance.js) holds three inputs: an object with
each user's spending limit, an object with each user's actual spend, and a
declared total balance. Its `run()` checks, in this order, that the inputs are
present, that both objects name the same users, and that the limits add up
exactly to the balance. The first check that fails throws, and nothing after
it runs. When all three pass, it returns, for every user, the absolute
difference between limit and spend, rounded to two decimals. A `balance`
setter refuses non-numbers and negative values. The constructor stores its
arguments without checking them.

The model has three modules:

- `StringOrder` (string_order.dfy): a lexicographic order by character (the
  same as the default sort's order on strings without surrogate pairs), an
  insertion sort by it, and the
  proof that two key lists sort to the same list exactly when they hold the
  same keys.
- `BalanceTracker` (calculate_balance.dfy): the values the class works on,
  each check of `run()` as a function, `RunOutcome` as the meaning of `run()`,
  the class `CalculateBalance` with its constructor, getter, setter,
  `CalculateRemaining` (a loop that fills the result object key by key) and
  `Run`, and the lemmas about them.
- `BalanceScenarios` (scenarios.dfy): the example usage at the bottom of the
  file and a few edge cases, as lemmas and client methods.

How the model represents things:

- Amounts are whole cents (`int`). With that choice the class's exact `!==`
  comparison between the sum and the balance is exact here too. Rounding with
  `Number(x.toFixed(2))` changes no value, so the model leaves it out.
- A plain object from user names to amounts is a `Ledger`. It holds the keys
  in the order `Object.keys` reports them, with no repeats, and a map with
  exactly those keys.
- An argument that is `undefined`, `null` or otherwise falsy where an object
  is expected is `None`.
- The balance is a `Value`: a finite number in cents, `NaN`, plus or minus
  `Infinity`, or a non-number. The model tells them apart because `typeof`
  says `'number'` for `NaN` and `Infinity`, and `NaN < 0` is false. So the
  setter accepts `NaN` and `+Infinity`, and the presence check lets them
  through. In the model every limit is a finite whole-cent amount, so the sum
  check never passes for `NaN` or `Infinity`.
- `limits` and `spends` are `const` fields holding the two objects' contents
  as they were at construction: the JavaScript class never reassigns them. `balance` is a `var` that only the setter changes.
- The exceptions calculate_balance.js throws are the `Error` kinds, each with its
  message. The setter returns an `Outcome` and `Run` returns a `RunResult`.
- The result object starts as `{}`, and `total[user] = …` is `Put`. A user
  named `__proto__` is the one key such an assignment cannot add: it runs the
  setter inherited from `Object.prototype`, which ignores a number. So a
  `__proto__` user counts in the user check and in the sum, but it is missing
  from the result.

Behaviour of the code worth noting:

- The setter accepts zero, although its error message says "positive".
- The setter also accepts `NaN` and `+Infinity`.
- The constructor stores a negative balance unchecked. `run()` then succeeds
  when the limits add up to that negative number.
- `Object.keys` decides the output order. The model takes that order as part
  of the input object and does not derive it from insertion order.

## Model

| member | source | states |
|---|---|---|
| BalanceTracker.CalculateBalance.constructor | calculate_balance.js:17-21 | the three inputs are stored exactly as given, with no validation |
| BalanceTracker.CalculateBalance.GetBalance | calculate_balance.js:24-26 | the getter returns the stored balance |
| BalanceTracker.CalculateBalance.SetBalance | calculate_balance.js:28-33 | an accepted value becomes the balance and the call passes; a refused value fails with InvalidBalance and leaves the balance as it was; limits and spends cannot change |
| BalanceTracker.Error.Message | calculate_balance.js:28-64 | the text of each error calculate_balance.js throws: the setter's (line 30), the user check's (line 41), the presence check's (line 48) and the sum check's (line 62) |
| BalanceTracker.IsNumber | calculate_balance.js:29 | `typeof value === 'number'`: true for finite numbers, NaN and both infinities |
| BalanceTracker.IsNegative | calculate_balance.js:29 | `value < 0`: false for NaN and +Infinity, true for -Infinity and negative numbers |
| BalanceTracker.BalanceAccepted | calculate_balance.js:29 | the setter's guard: a number that does not compare below zero; BalanceAcceptedIff states which values these are |
| BalanceTracker.BalanceAcceptedIff | calculate_balance.js:29 | the guard accepts exactly a non-negative finite number, NaN or +Infinity; zero is accepted |
| StringOrder.Less | calculate_balance.js:37-38 | the comparator of the default `sort()`: a proper prefix first, otherwise the first differing character decides; LessAsymmetric, LessTransitive and LessTotal state that it is a strict total order |
| StringOrder.Insert | calculate_balance.js:37-38 | inserting a key gives a permutation of the list with that key added |
| StringOrder.Sort | calculate_balance.js:37-38 | `sort()` returns a sorted permutation of the key list |
| StringOrder.InsertKeepsSorted | calculate_balance.js:37-38 | inserting into a sorted list keeps it sorted |
| StringOrder.LessAsymmetric | calculate_balance.js:37-38 | no two strings are each strictly before the other in the sort order |
| StringOrder.LessTransitive | calculate_balance.js:37-38 | the sort order is transitive |
| StringOrder.LessTotal | calculate_balance.js:37-38 | any two different strings are ordered one way or the other |
| StringOrder.SortedUnique | calculate_balance.js:40 | two sorted lists with the same elements are equal, so comparing sorted lists compares contents |
| StringOrder.SortEqualIff | calculate_balance.js:37-40 | two key lists sort to the same list if and only if they are permutations of each other |
| StringOrder.DistinctMultiplicity | calculate_balance.js:37-38 | in a list without repeats every key occurs once |
| StringOrder.DistinctPermutationIff | calculate_balance.js:37-40 | two lists without repeats are permutations of each other if and only if they hold the same keys |
| BalanceTracker.InputsPresent | calculate_balance.js:46-50 | #validateInputs: both objects are present and the balance has type number; RunMissingParameters states its effect on run() |
| BalanceTracker.HasSameUsers | calculate_balance.js:36-43 | the user check passes if and only if both objects have the same set of keys, whatever their order |
| BalanceTracker.FoldValues | calculate_balance.js:59 | the left-to-right `reduce` with `acc + value` over the values in key order; FoldIsTotal states what it adds up to |
| BalanceTracker.LimitSum | calculate_balance.js:59 | the sum of the limits as #validateLimits computes it, a fold from 0, equals the sum of the values of the object |
| BalanceTracker.FoldIsTotal | calculate_balance.js:59 | the left-to-right `reduce` from an initial value is that value plus the sum of the values |
| BalanceTracker.TotalWithout | calculate_balance.js:59 | the sum of the values is one entry's value plus the sum of the rest |
| BalanceTracker.RemoveMatching | calculate_balance.js:59 | removing one matching key from two permuted key lists leaves permutations |
| BalanceTracker.TotalPermutation | calculate_balance.js:59 | the sum of the values does not depend on the order of the keys |
| BalanceTracker.LimitsMatchBalance | calculate_balance.js:58-64 | #validateLimits: the sum check passes exactly when the balance is the finite number the limits add up to; with whole-cent limits, NaN, Infinity and non-numbers never pass |
| BalanceTracker.LimitSumOrderIndependent | calculate_balance.js:58-64 | two objects with the same entries in different key orders have the same limit sum, so the sum check gives the same answer for both |
| BalanceTracker.RunOutcome | calculate_balance.js:84-89 | what run() yields: the presence check, the user check and the sum check in that order, the first failure deciding the error, and the computed object when none fails; the RunX lemmas state each case |
| BalanceTracker.RunMissingParameters | calculate_balance.js:46-50 | run() fails with MissingParameters exactly when limits is missing, spends is missing or the balance is not a number |
| BalanceTracker.RunUserMismatch | calculate_balance.js:84-86 | run() fails with UserMismatch exactly when the inputs are present and the key sets differ |
| BalanceTracker.RunBalanceMismatch | calculate_balance.js:84-87 | run() fails with BalanceMismatch exactly when the inputs are present, the key sets agree, and the balance is not the number equal to the sum of the limits |
| BalanceTracker.RunSucceeds | calculate_balance.js:84-89 | run() succeeds exactly when both objects are present, have the same keys, and the balance is the sum of the limits |
| BalanceTracker.RunOutput | calculate_balance.js:84-89 | a successful run() returns the per-user computation on limits and spends, whose key sets agree |
| BalanceTracker.Abs | calculate_balance.js:74 | `Math.abs`: the non-negative magnitude of the difference; RemainingValues states the two cases |
| BalanceTracker.Put | calculate_balance.js:74 | assignment to a key of the result object: the key gets the value and every other key keeps its entry; a new key goes to the end of the key order, an existing key keeps its place; `__proto__` leaves the object unchanged |
| BalanceTracker.Visible | calculate_balance.js:68-75 | the keys that assigning a list of users to `{}` leaves: exactly the users other than `__proto__`, without repeats when the users have none |
| BalanceTracker.VisibleAppend | calculate_balance.js:70-74 | assigning one more user extends those keys by that user, unless it is `__proto__` |
| BalanceTracker.VisibleWithoutProto | calculate_balance.js:68-75 | without a `__proto__` user, every user becomes a key, in the same order |
| BalanceTracker.PutNextUser | calculate_balance.js:70-74 | each iteration, with users that do not repeat, extends the object's key order by the next user, unless it is `__proto__` |
| BalanceTracker.Remaining | calculate_balance.js:67-78 | #calculateRemaining as a value: every user of limits but `__proto__`, in key order, with the absolute difference of limit and spend; RemainingUsers and RemainingValues state its contents |
| BalanceTracker.RemainingUsers | calculate_balance.js:67-78 | the result holds exactly the users of limits other than `__proto__`, in their key order |
| BalanceTracker.RemainingValues | calculate_balance.js:71-74 | each value is limit minus spend when the spend is not larger, and spend minus limit otherwise |
| BalanceTracker.RemainingKeepsAllUsers | calculate_balance.js:67-78 | with no `__proto__` user, the result has exactly the users of limits, in the same order |
| BalanceTracker.PutKeepsDifferences | calculate_balance.js:71-74 | an iteration keeps every entry of the object equal to the absolute difference of that user's limit and spend |
| BalanceTracker.FilledIsRemaining | calculate_balance.js:67-78 | an object with the visible users of limits in order, each holding that difference, is the computed result |
| BalanceTracker.CalculateBalance.CalculateRemaining | calculate_balance.js:67-78 | the loop over the limit keys (`#getUsers`), assigning into `{}`, builds exactly that per-user result |
| BalanceTracker.CalculateBalance.Run | calculate_balance.js:84-91 | run() on the stored state gives exactly RunOutcome: the checks in their fixed order, then the computation |
| BalanceScenarios.ExampleLimitSum | calculate_balance.js:95 | the example limits add up to 924.00 |
| BalanceScenarios.ExampleUsage | calculate_balance.js:94-100 | the example input gives 161.05 for user1 and 303.53 for user2 |
| BalanceScenarios.ExampleRemaining | calculate_balance.js:95-96 | the per-user computation on the example gives user1 then user2, with 161.05 and 303.53 |
| BalanceScenarios.ProtoUserDropped | calculate_balance.js:67-78 | limits and spends with users `__proto__` and user1 pass every check (the sum includes `__proto__`'s limit), and the result holds only user1 |
| BalanceScenarios.DifferentUsers | calculate_balance.js:40-42 | limits for user1 and spends for user2 fail with UserMismatch |
| BalanceScenarios.SumDiffers | calculate_balance.js:61-63 | limits of 50 and 60 with a balance of 100 fail with BalanceMismatch |
| BalanceScenarios.UserOrderIrrelevant | calculate_balance.js:37-40 | the same users in a different key order pass the user check |
| BalanceScenarios.NegativeBalanceRuns | calculate_balance.js:17-21 | a negative balance given at construction, matched by negative limits, lets run() succeed |

## Left out

- BalanceTracker.CalculateBalance.Run: returns the result object, not the pretty-printed JSON text that `JSON.stringify(remaining, null, 2)` makes of it. Serialisation is library code.
- Floating point: amounts are whole cents. The model does not capture inexact float sums that fail the exact comparison, and it does not capture `toFixed(2)` rounding of fractional cents.
- Limit and spend values are finite: an infinite or NaN value inside an object, and a sum that overflows to plus or minus Infinity and then matches an infinite balance, are not modelled.
- The constructor stores references to the `limits` and `spends` objects, and `run()` reads them when it is called. The model keeps their contents as they were at construction, so it does not capture a caller's later change to either object before `run()`.
- JavaScript typing beyond what the checks distinguish: a truthy non-object passed as `limits` or `spends`; a non-numeric or missing value inside an object, which would give `NaN` or string concatenation.
- The order of `Object.keys`: integer-like keys come first in ascending order and the others follow in insertion order. The model takes the key order as given.
- The sort compares UTF-16 code units, while the model compares Unicode characters. The result of the user check does not depend on this, because the check passes exactly when the key sets agree under any total order.
- The demonstration at the end of the file (constructing an instance and printing with `console.log`). It appears only as the scenario lemma ExampleUsage.
- Private-field mechanics (`#`), and a setter call made while `run()` is executing. `run()` is synchronous, so neither arises in a single thread.
