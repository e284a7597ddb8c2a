/**
 * The production decorators of the decorator guide: the login and admin
 * guards, the sliding-window rate limiter, the retry loop, the
 * negative-argument guard, the argument key of `cache`, and the stack that
 * protects `transfer_money`.
 *
 * A wrapper answers either what the wrapped function answers or a denial;
 * the denial strings the Python wrappers return in place of a result are
 * the constructors of `Denial`.
 */
module Decorators {
  import opened Wrappers
  import opened Values
  import opened Caching

  datatype Denial =
    | AuthenticationRequired
    | AdminPrivilegesRequired
    | RateLimitExceeded
    | NegativeValue
    /** The wrapped function was called with the wrong number of arguments (Python's TypeError). */
    | WrongArguments

  function DenialMessage(d: Denial): string {
    match d
    case AuthenticationRequired => "Access denied: Authentication required"
    case AdminPrivilegesRequired => "Access denied: Administrative privileges required"
    case RateLimitExceeded => "Rate limit exceeded: Too many requests"
    case NegativeValue => "Validation error: Negative values not allowed"
    case WrongArguments => "TypeError: wrong number of arguments"
  }

  datatype Answer<+R> = Denied(reason: Denial) | Returned(value: R)

  type User = map<string, Value>

  // ----- login_required and admin_required -----

  /** `user.get("is_logged_in", False)` is truthy. */
  predicate LoggedIn(user: User) {
    Truthy(Get(user, "is_logged_in", Bool(false)))
  }

  /** `user.get("is_admin", False)` is truthy. */
  predicate IsAdmin(user: User) {
    Truthy(Get(user, "is_admin", Bool(false)))
  }

  /** `login_required(func)(user, *args)` */
  function LoginRequired<A, R>(func: (User, A) -> Answer<R>, user: User, args: A): (r: Answer<R>)
    // a user without the key is treated as logged out
    ensures "is_logged_in" !in user ==> r == Denied(AuthenticationRequired)
    ensures !LoggedIn(user) ==> r == Denied(AuthenticationRequired)
    ensures LoggedIn(user) ==> r == func(user, args)
  {
    if !LoggedIn(user) then Denied(AuthenticationRequired) else func(user, args)
  }

  /** `admin_required(func)(user, *args)` */
  function AdminRequired<A, R>(func: (User, A) -> Answer<R>, user: User, args: A): (r: Answer<R>)
    ensures "is_admin" !in user ==> r == Denied(AdminPrivilegesRequired)
    ensures !IsAdmin(user) ==> r == Denied(AdminPrivilegesRequired)
    ensures IsAdmin(user) ==> r == func(user, args)
  {
    if !IsAdmin(user) then Denied(AdminPrivilegesRequired) else func(user, args)
  }

  /**
   * A denied user never reaches the wrapped function: the answer is the same
   * whatever function is wrapped.
   */
  lemma GuardsIgnoreCalleeWhenDenied<A, R>(f: (User, A) -> Answer<R>, g: (User, A) -> Answer<R>, user: User, args: A)
    ensures !LoggedIn(user) ==> LoginRequired(f, user, args) == LoginRequired(g, user, args)
    ensures !IsAdmin(user) ==> AdminRequired(f, user, args) == AdminRequired(g, user, args)
    ensures LoginRequired(f, user, args) != LoginRequired(g, user, args) ==> LoggedIn(user) && f(user, args) != g(user, args)
  {
  }

  /** `view_all_accounts(user)` without its logging. */
  function ViewAllAccounts(user: User, args: ()): Answer<string> {
    Returned("Account data: [Account1, Account2, Account3]")
  }

  /** Only an administrator sees the account data. */
  lemma ViewAllAccountsNeedsAdmin(user: User)
    ensures AdminRequired(ViewAllAccounts, user, ()).Returned? <==> IsAdmin(user)
    ensures IsAdmin(user) ==>
              AdminRequired(ViewAllAccounts, user, ()) == Returned("Account data: [Account1, Account2, Account3]")
  {
  }

  // ----- validate_positive -----

  /** Some positional argument is a negative int or float. */
  function HasNegative(args: seq<Value>): bool {
    |args| > 0 && (IsNegativeNumber(args[0]) || HasNegative(args[1..]))
  }

  lemma {:induction false} HasNegativeFindsOne(args: seq<Value>)
    ensures HasNegative(args) <==> exists i :: 0 <= i < |args| && IsNegativeNumber(args[i])
  {
    if |args| > 0 {
      HasNegativeFindsOne(args[1..]);
      if !IsNegativeNumber(args[0]) && exists i :: 0 <= i < |args| && IsNegativeNumber(args[i]) {
        var i :| 0 <= i < |args| && IsNegativeNumber(args[i]);
        assert args[1..][i - 1] == args[i];
      }
    }
  }

  /**
   * `validate_positive(func)(*args, **kwargs)`: any negative int or float
   * among the positional arguments stops the call; keyword arguments are
   * passed through unchecked.
   */
  function ValidatePositive<R>(func: (seq<Value>, map<string, Value>) -> Answer<R>, args: seq<Value>, kwargs: map<string, Value>): (r: Answer<R>)
    ensures (exists i :: 0 <= i < |args| && IsNegativeNumber(args[i])) ==> r == Denied(NegativeValue)
    ensures (forall i :: 0 <= i < |args| ==> !IsNegativeNumber(args[i])) ==> r == func(args, kwargs)
  {
    HasNegativeFindsOne(args);
    if HasNegative(args) then Denied(NegativeValue) else func(args, kwargs)
  }

  // ----- rate_limit -----

  /** The recorded call times that are still inside the window at `now`, in their order. */
  function Recent(calls: seq<int>, now: int, window: int): (r: seq<int>)
    ensures |r| <= |calls|
    // only recorded calls survive, and each of them is inside the window
    ensures forall i :: 0 <= i < |r| ==> r[i] in calls && now - r[i] < window
  {
    if |calls| == 0 then []
    else
      var older := Recent(calls[..|calls| - 1], now, window);
      var last := calls[|calls| - 1];
      if now - last < window then older + [last] else older
  }

  /** Pruning keeps exactly the recorded calls with `now - t < window`. */
  lemma {:induction false} RecentIsWindow(calls: seq<int>, now: int, window: int)
    ensures forall t :: t in Recent(calls, now, window) <==> t in calls && now - t < window
  {
    if |calls| > 0 {
      var init := calls[..|calls| - 1];
      RecentIsWindow(init, now, window);
      assert calls == init + [calls[|calls| - 1]];
    }
  }

  /**
   * Pruning keeps every surviving call, repeated times included, in order:
   * it distributes over concatenation, and one call survives exactly when it
   * is inside the window.
   */
  lemma {:induction false} RecentAppend(a: seq<int>, b: seq<int>, now: int, window: int)
    ensures Recent(a + b, now, window) == Recent(a, now, window) + Recent(b, now, window)
    ensures |b| == 1 ==> Recent(b, now, window) == (if now - b[0] < window then b else [])
    decreases |b|
  {
    if |b| > 0 {
      var init := b[..|b| - 1];
      var last := b[|b| - 1];
      var keep: seq<int> := if now - last < window then [last] else [];
      RecentAppend(a, init, now, window);
      assert (a + b)[..|a + b| - 1] == a + init;
      assert (a + b)[|a + b| - 1] == last;
      assert Recent(a + b, now, window) == Recent(a + init, now, window) + keep;
      assert Recent(b, now, window) == Recent(init, now, window) + keep;
    } else {
      assert a + b == a;
    }
  }

  /**
   * Pruning at a later time after pruning at an earlier one is pruning at the
   * later time; in particular pruning twice at the same time changes nothing.
   */
  lemma {:induction false} RecentLater(calls: seq<int>, now1: int, now2: int, window: int)
    requires now1 <= now2
    ensures Recent(Recent(calls, now1, window), now2, window) == Recent(calls, now2, window)
  {
    if |calls| > 0 {
      var init := calls[..|calls| - 1];
      var last := calls[|calls| - 1];
      RecentLater(init, now1, now2, window);
      var r1 := Recent(init, now1, window);
      if now1 - last < window {
        assert Recent(calls, now1, window) == r1 + [last];
        assert (r1 + [last])[..|r1|] == r1;
      }
    }
  }

  /** When no recorded call has expired, pruning keeps them all. */
  lemma {:induction false} RecentKeepsUnexpired(calls: seq<int>, now: int, window: int)
    requires forall i :: 0 <= i < |calls| ==> now - calls[i] < window
    ensures Recent(calls, now, window) == calls
  {
    if |calls| > 0 {
      var init := calls[..|calls| - 1];
      RecentKeepsUnexpired(init, now, window);
      assert init + [calls[|calls| - 1]] == calls;
    }
  }

  /** A non-negative call budget. */
  function Budget(maxCalls: int): nat {
    if maxCalls < 0 then 0 else maxCalls
  }

  /** The list `calls` of one `rate_limit(max_calls, time_window)` wrapper. */
  class RateLimiter {
    const maxCalls: int
    const timeWindow: int
    var calls: seq<int>

    /** The recorded calls never exceed the budget. */
    ghost predicate Valid()
      reads this
    {
      |calls| <= Budget(maxCalls)
    }

    constructor (maxCalls: int, timeWindow: int)
      ensures Valid()
      ensures this.maxCalls == maxCalls && this.timeWindow == timeWindow && calls == []
    {
      this.maxCalls := maxCalls;
      this.timeWindow := timeWindow;
      calls := [];
    }

    /**
     * One call at time `now`: expired calls are dropped, then the call is
     * admitted and recorded when fewer than `maxCalls` remain, and refused
     * without being recorded otherwise.
     */
    method Admit(now: int) returns (admitted: bool)
      requires Valid()
      modifies this
      ensures Valid()
      ensures admitted <==> |Recent(old(calls), now, timeWindow)| < maxCalls
      ensures admitted ==> calls == Recent(old(calls), now, timeWindow) + [now]
      ensures !admitted ==> calls == Recent(old(calls), now, timeWindow)
    {
      calls := Recent(calls, now, timeWindow);
      if |calls| >= maxCalls {
        admitted := false;
        return;
      }
      calls := calls + [now];
      admitted := true;
    }
  }

  /** `rate_limit(...)(func)(*args)` at time `now`. */
  method RateLimited<A, R>(limiter: RateLimiter, func: A -> Answer<R>, args: A, now: int) returns (r: Answer<R>)
    requires limiter.Valid()
    modifies limiter
    ensures limiter.Valid()
    ensures |Recent(old(limiter.calls), now, limiter.timeWindow)| < limiter.maxCalls
            ==> r == func(args) && limiter.calls == Recent(old(limiter.calls), now, limiter.timeWindow) + [now]
    ensures |Recent(old(limiter.calls), now, limiter.timeWindow)| >= limiter.maxCalls
            ==> r == Denied(RateLimitExceeded) && limiter.calls == Recent(old(limiter.calls), now, limiter.timeWindow)
  {
    var admitted := limiter.Admit(now);
    if !admitted {
      r := Denied(RateLimitExceeded);
    } else {
      r := func(args);
    }
  }

  // ----- retry -----

  /** What one call of the wrapped function does: return a value or raise. */
  datatype Attempt<+R> = Ok(value: R) | Raise(error: string)

  /** What the retry wrapper does: return, re-raise the last error, or fall off the loop. */
  datatype Outcome<+R> = Succeeded(value: R) | Reraised(error: string) | NoneReturned

  /**
   * `retry(max_attempts)(func)()`, where `callee(i)` is what the (i+1)-th call
   * of `func` does; `attempts` is the number of calls made. The delay
   * between attempts is not modelled.
   */
  method Retry<R>(maxAttempts: int, callee: nat -> Attempt<R>) returns (r: Outcome<R>, attempts: nat)
    // no attempt at all when the count is not positive
    ensures maxAttempts <= 0 <==> r == NoneReturned
    ensures maxAttempts <= 0 ==> attempts == 0
    ensures maxAttempts > 0 ==> 1 <= attempts <= maxAttempts
    // every call before the last one raised
    ensures forall i: nat :: i + 1 < attempts ==> callee(i).Raise?
    // the first success is returned
    ensures r.Succeeded? ==> attempts >= 1 && callee(attempts - 1) == Ok(r.value)
    // the last error is re-raised once the attempts are used up
    ensures r.Reraised? ==> attempts == maxAttempts && callee(attempts - 1) == Raise(r.error)
  {
    var attempt: nat := 0;
    while attempt < maxAttempts
      invariant maxAttempts > 0 ==> attempt < maxAttempts
      invariant maxAttempts <= 0 ==> attempt == 0
      invariant forall i: nat :: i < attempt ==> callee(i).Raise?
    {
      match callee(attempt)
      case Ok(v) =>
        r, attempts := Succeeded(v), attempt + 1;
        return;
      case Raise(e) =>
        if attempt == maxAttempts - 1 {
          r, attempts := Reraised(e), attempt + 1;
          return;
        }
      attempt := attempt + 1;
    }
    r, attempts := NoneReturned, attempt;
  }

  // ----- the key of cache -----

  /** Keyword arguments in the order they were written at the call. */
  type Kwargs = seq<(string, Value)>

  /** Python never passes the same keyword twice. */
  predicate DistinctNames(kwargs: Kwargs) {
    forall i, j :: 0 <= i < j < |kwargs| ==> kwargs[i].0 != kwargs[j].0
  }

  /** The keyword arguments as a dictionary, later entries winning. */
  function ToMap(kwargs: Kwargs): (m: map<string, Value>)
    ensures forall i :: 0 <= i < |kwargs| ==> kwargs[i].0 in m
    ensures forall k :: k in m ==> exists i :: 0 <= i < |kwargs| && kwargs[i].0 == k
  {
    if |kwargs| == 0 then map[]
    else
      var last := kwargs[|kwargs| - 1];
      ToMap(kwargs[..|kwargs| - 1])[last.0 := last.1]
  }

  lemma {:induction false} ToMapValues(kwargs: Kwargs)
    requires DistinctNames(kwargs)
    ensures forall i :: 0 <= i < |kwargs| ==> ToMap(kwargs)[kwargs[i].0] == kwargs[i].1
  {
    if |kwargs| > 0 {
      var init := kwargs[..|kwargs| - 1];
      ToMapValues(init);
      forall i | 0 <= i < |kwargs|
        ensures ToMap(kwargs)[kwargs[i].0] == kwargs[i].1
      {
        if i < |kwargs| - 1 {
          assert init[i] == kwargs[i];
        }
      }
    }
  }

  /**
   * The argument key: the positional arguments and the keyword arguments
   * taken as the sorted list of their pairs, which a dictionary determines.
   */
  function CacheKey(args: seq<Value>, kwargs: Kwargs): (key: (seq<Value>, map<string, Value>))
    requires DistinctNames(kwargs)
    ensures key.0 == args
    // the keyword part has exactly the names passed, each with its value
    ensures forall name :: name in key.1 <==> exists i :: 0 <= i < |kwargs| && kwargs[i].0 == name
    ensures forall i :: 0 <= i < |kwargs| ==> key.1[kwargs[i].0] == kwargs[i].1
  {
    ToMapValues(kwargs);
    (args, ToMap(kwargs))
  }

  /** The order in which keyword arguments are written does not change the key. */
  lemma KwargsOrderIrrelevant(args: seq<Value>, kw1: Kwargs, kw2: Kwargs)
    requires DistinctNames(kw1) && DistinctNames(kw2)
    requires multiset(kw1) == multiset(kw2)
    ensures CacheKey(args, kw1) == CacheKey(args, kw2)
  {
    ToMapValues(kw1);
    ToMapValues(kw2);
    var m1, m2 := ToMap(kw1), ToMap(kw2);
    forall k | k in m1
      ensures k in m2 && m2[k] == m1[k]
    {
      var i :| 0 <= i < |kw1| && kw1[i].0 == k;
      assert kw1[i] in multiset(kw2);
      var j :| 0 <= j < |kw2| && kw2[j] == kw1[i];
    }
    forall k | k in m2
      ensures k in m1
    {
      var j :| 0 <= j < |kw2| && kw2[j].0 == k;
      assert kw2[j] in multiset(kw1);
      var i :| 0 <= i < |kw1| && kw1[i] == kw2[j];
    }
    assert m1 == m2;
  }

  /** `cache(func)(*args, **kwargs)`: the memo wrapper looked up by the argument key. */
  method CachedCall<R>(memo: Memo<(seq<Value>, map<string, Value>), R>, args: seq<Value>, kwargs: Kwargs) returns (r: R)
    requires DistinctNames(kwargs)
    requires memo.Valid()
    modifies memo
    ensures memo.Valid()
    ensures r == memo.func(CacheKey(args, kwargs))
    ensures CacheKey(args, kwargs) in old(memo.cache) ==> memo.cache == old(memo.cache) && memo.computed == old(memo.computed)
    ensures CacheKey(args, kwargs) !in old(memo.cache) ==>
              memo.cache == old(memo.cache)[CacheKey(args, kwargs) := r]
              && memo.computed == old(memo.computed) + [CacheKey(args, kwargs)]
  {
    r := memo.Call(CacheKey(args, kwargs));
  }

  // ----- the stack on transfer_money -----

  /**
   * How Python binds a call to the parameters `params`: the positional
   * arguments fill the first parameters, and the keyword arguments must name
   * exactly the parameters left over. Too many positional arguments, a
   * parameter given twice, an unknown keyword or a missing argument is a
   * TypeError (`None`).
   */
  function BindArguments(params: seq<string>, args: seq<Value>, kwargs: map<string, Value>): (r: Option<seq<Value>>)
    ensures r.Some? <==> |args| <= |params| && kwargs.Keys == (set p | p in params[|args|..])
    ensures r.Some? ==> |r.value| == |params|
    ensures r.Some? ==> forall i :: 0 <= i < |args| ==> r.value[i] == args[i]
    ensures r.Some? ==> forall i :: |args| <= i < |params| ==> params[i] in kwargs && r.value[i] == kwargs[params[i]]
  {
    if |args| > |params| then None
    else if kwargs.Keys != (set p | p in params[|args|..]) then None
    else
      Some(args + seq(|params| - |args|, k requires 0 <= k < |params| - |args| =>
                                           assert params[|args|..][k] == params[|args| + k];
                                           kwargs[params[|args| + k]]))
  }

  /** The parameters of `transfer_money`. */
  const TransferParams: seq<string> := ["user", "amount", "to_account"]

  /** What `transfer_money` reports: the amount and the account it went to. */
  datatype Transfer = Transfer(amount: Value, toAccount: Value)

  /** `transfer_money(user, amount, to_account)`, called with any mix of positional and keyword arguments. */
  function TransferMoney(args: seq<Value>, kwargs: map<string, Value>): (r: Answer<Transfer>)
    // the call binds as Python binds it, and a call that does not bind is a TypeError
    ensures r.Returned? <==> |args| <= 3 && kwargs.Keys == (set p | p in TransferParams[|args|..])
    ensures r.Denied? ==> r.reason == WrongArguments
    // the amount and the account come from their position, or else from their keyword
    ensures r.Returned? ==> r.value.amount == (if |args| > 1 then args[1] else kwargs["amount"])
    ensures r.Returned? ==> r.value.toAccount == (if |args| > 2 then args[2] else kwargs["to_account"])
  {
    match BindArguments(TransferParams, args, kwargs)
    case Some(bound) => Returned(Transfer(bound[1], bound[2]))
    case None => Denied(WrongArguments)
  }

  /** The three ways the guide's arguments can be written all give the same transfer. */
  lemma TransferMoneyByPositionOrKeyword(user: Value, amount: Value, account: Value)
    ensures TransferMoney([user, amount, account], map[]) == Returned(Transfer(amount, account))
    ensures TransferMoney([user, amount], map["to_account" := account]) == Returned(Transfer(amount, account))
    ensures TransferMoney([user], map["amount" := amount, "to_account" := account]) == Returned(Transfer(amount, account))
    // naming the amount a second time is refused
    ensures TransferMoney([user, amount], map["amount" := amount, "to_account" := account]) == Denied(WrongArguments)
  {
    assert TransferParams[3..] == [];
    assert TransferParams[2..] == ["to_account"];
    assert TransferParams[1..] == ["amount", "to_account"];
    assert (set p | p in TransferParams[2..]) == {"to_account"};
    assert (set p | p in TransferParams[1..]) == {"amount", "to_account"};
    assert "amount" !in (set p | p in TransferParams[2..]);
  }

  /** `validate_positive(transfer_money)` */
  function ValidatedTransfer(call: (seq<Value>, map<string, Value>)): Answer<Transfer> {
    ValidatePositive(TransferMoney, call.0, call.1)
  }

  /**
   * `validate_positive` looks only at positional arguments: a negative amount
   * given by keyword is transferred, while the same amount given by position
   * is refused.
   */
  lemma NegativeKeywordAmountPassesValidation(user: User, amount: Value, account: Value)
    requires IsNegativeNumber(amount)
    ensures ValidatedTransfer(([Dictionary(user)], map["amount" := amount, "to_account" := account]))
            == Returned(Transfer(amount, account))
    ensures ValidatedTransfer(([Dictionary(user), amount, account], map[])) == Denied(NegativeValue)
  {
    TransferMoneyByPositionOrKeyword(Dictionary(user), amount, account);
    assert !IsNegativeNumber([Dictionary(user)][0]);
    assert [Dictionary(user), amount, account][1] == amount;
  }

  /**
   * `transfer_money(user, *args, **kwargs)` as decorated: `login_required`,
   * then `rate_limit(2, 10)`, then `validate_positive` (the logging layer
   * only prints). The login check comes first, so a logged-out user is never
   * counted against the rate limit; the rate limit comes before validation,
   * so a refused negative amount still uses up a call.
   *
   * The login test is the one `LoginRequired` makes, written out here:
   * `LoginRequired` wraps a function, and the rate-limited layer below it is
   * a method that updates the limiter.
   */
  method SecuredTransfer(limiter: RateLimiter, user: User, args: seq<Value>, kwargs: map<string, Value>, now: int)
    returns (r: Answer<Transfer>)
    requires limiter.Valid()
    modifies limiter
    ensures limiter.Valid()
    ensures !LoggedIn(user) ==> r == Denied(AuthenticationRequired) && limiter.calls == old(limiter.calls)
    ensures LoggedIn(user) && |Recent(old(limiter.calls), now, limiter.timeWindow)| >= limiter.maxCalls
            ==> r == Denied(RateLimitExceeded) && limiter.calls == Recent(old(limiter.calls), now, limiter.timeWindow)
    ensures LoggedIn(user) && |Recent(old(limiter.calls), now, limiter.timeWindow)| < limiter.maxCalls
            ==> limiter.calls == Recent(old(limiter.calls), now, limiter.timeWindow) + [now]
                && r == (if HasNegative(args) then Denied(NegativeValue) else TransferMoney([Dictionary(user)] + args, kwargs))
  {
    if !LoggedIn(user) {
      r := Denied(AuthenticationRequired);
      return;
    }
    var call := ([Dictionary(user)] + args, kwargs);
    r := RateLimited(limiter, ValidatedTransfer, call, now);
    assert call.0[1..] == args;
    assert HasNegative(call.0) == HasNegative(args);
    HasNegativeFindsOne(call.0);
  }

  /** A logged-in positional call with no negative number that reaches `validate_positive` is transferred. */
  lemma PositionalTransfer(user: User, amount: Value, account: Value)
    requires !IsNegativeNumber(amount) && !IsNegativeNumber(account)
    ensures !HasNegative([amount, account])
    ensures TransferMoney([Dictionary(user)] + [amount, account], map[]) == Returned(Transfer(amount, account))
  {
    assert [amount, account][1..] == [account];
    assert [account][1..] == [];
    assert !HasNegative([account]);
    assert [Dictionary(user)] + [amount, account] == [Dictionary(user), amount, account];
    TransferMoneyByPositionOrKeyword(Dictionary(user), amount, account);
  }

  /**
   * The guide's run, all within one second: two transfers by a logged-in user
   * go through, the third is rate limited, a guest is refused, and the
   * negative amount that follows is refused by the rate limit before its
   * sign is looked at.
   */
  method TransferScenario() returns (answers: seq<Answer<Transfer>>)
    ensures answers == [
      Returned(Transfer(Int(100), Str("12345"))),
      Returned(Transfer(Int(50), Str("67890"))),
      Denied(RateLimitExceeded),
      Denied(AuthenticationRequired),
      Denied(RateLimitExceeded)
    ]
  {
    var regular: User := map["name" := Str("Alice"), "is_logged_in" := Bool(true), "is_admin" := Bool(false)];
    var guest: User := map["name" := Str("Guest"), "is_logged_in" := Bool(false), "is_admin" := Bool(false)];
    assert LoggedIn(regular) && !LoggedIn(guest);
    var limiter := new RateLimiter(2, 10);
    PositionalTransfer(regular, Int(100), Str("12345"));
    PositionalTransfer(regular, Int(50), Str("67890"));
    var a := SecuredTransfer(limiter, regular, [Int(100), Str("12345")], map[], 0);
    assert a == Returned(Transfer(Int(100), Str("12345")));
    assert limiter.calls == [0];
    RecentKeepsUnexpired([0], 0, 10);
    var b := SecuredTransfer(limiter, regular, [Int(50), Str("67890")], map[], 0);
    assert b == Returned(Transfer(Int(50), Str("67890")));
    assert limiter.calls == [0, 0];
    RecentKeepsUnexpired([0, 0], 0, 10);
    var c := SecuredTransfer(limiter, regular, [Int(25), Str("11111")], map[], 0);
    assert c == Denied(RateLimitExceeded);
    assert limiter.calls == [0, 0];
    var d := SecuredTransfer(limiter, guest, [Int(100), Str("12345")], map[], 0);
    assert d == Denied(AuthenticationRequired);
    var e := SecuredTransfer(limiter, regular, [Int(-50), Str("12345")], map[], 0);
    answers := [a, b, c, d, e];
  }

  /**
   * The same stack called with keywords: the negative amount is not looked at
   * by `validate_positive` and is transferred.
   */
  method KeywordAmountScenario() returns (answer: Answer<Transfer>)
    ensures answer == Returned(Transfer(Int(-50), Str("12345")))
  {
    var regular: User := map["name" := Str("Alice"), "is_logged_in" := Bool(true), "is_admin" := Bool(false)];
    assert LoggedIn(regular);
    var limiter := new RateLimiter(2, 10);
    TransferMoneyByPositionOrKeyword(Dictionary(regular), Int(-50), Str("12345"));
    answer := SecuredTransfer(limiter, regular, [], map["amount" := Int(-50), "to_account" := Str("12345")], 0);
  }
}
