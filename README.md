# Python tutorial routines, modelled in Dafny

This project models the routines of a Python tutorial repository that have
behaviour worth stating. The routines come from five of its files:

- the guard clauses of the conditionals lesson: user validation, the day planner, the login check, letter grades, academic status and the weather advice;
- the functions lesson: name splitting, the length validator, `factorial`, `fibonacci`, the accumulator sum, the recursive file search, the nested-data mapper, the counter closure, the `memoize` decorator and the configuration builder;
- the decorator guide and the short decorator example: `cache`, `login_required`, `admin_required`, `rate_limit`, `retry`, `validate_positive` and the stack on `transfer_money`;
- the report loops of the loops lesson: sales summary, age prompt, inventory report and text counts;
- the `Car` class hierarchy of the object-oriented lesson.

Each source file becomes one module (`Conditionals`, `Functions` with
`Closures`, `Decorators` with `Caching`, `Loops`, `Cars`). Pure Python
routines become functions, and lemmas state what they promise. Code that
changes state becomes a class or a method:

- closures become classes (`Counter`, `FibonacciMemo`, `Config`, `Memo`, `RateLimiter`);
- loops become methods with loop invariants, proved against specification functions;
- the setters of `Car` become methods whose failure changes nothing.

Three helper modules are shared:

- `Wrappers` holds `Option` and `Result`.
- `Text` models the Python string builtins the routines call, on ASCII: `lower`, `upper`, `split`, `strip`, `isalpha`, `isalnum`, `int()` and `str()`.
- `Values` models the dynamically typed values the guards inspect, with Python truthiness.

Python exceptions become `Result` failures or denial values. The clock is a
parameter. A failing callee of `retry` is a function from the attempt number
to its outcome.

The model of the guide's transfer demo (`Decorators.TransferScenario`) proves
one behaviour its comment does not expect. The rate limiter sits outside `validate_positive`,
so the negative transfer at `06_decorator/decorator.py:326` is the fourth call
of the logged-in user inside the 10-second window (after lines 321, 322 and
323), and the limiter still holds the two admitted calls. It is refused with
the rate-limit message, not the validation message
(`Decorators.TransferScenario`).

`validate_positive` looks only at positional arguments. The stack therefore
transfers a negative amount passed by keyword,
`transfer_money(user, amount=-50, to_account="12345")`
(`Decorators.NegativeKeywordAmountPassesValidation`,
`Decorators.KeywordAmountScenario`).

## Model

| member | source | states |
|---|---|---|
| Conditionals.ValidateUser | 02_conditionals/01.py:62-72 | The checks run in order: no data, then a missing email, then the '@' test. The '@' test is a character test on a string and a key test on a dictionary. Any other email raises TypeError. The result is valid exactly when there is data with an email holding '@'. |
| Conditionals.ContainsAt | 02_conditionals/01.py:68 | `"@" in email`: a character test on a string, a key test on a dictionary, and TypeError for any other value. |
| Conditionals.GetDayPlan | 02_conditionals/01.py:89-97 | The plan is looked up by the lower-cased day. Any other day gets the weekend message. |
| Conditionals.DayPlanIgnoresCase | 02_conditionals/01.py:97 | Asking with the lower-cased day gives the same plan. |
| Conditionals.DayPlanWorksExactlyOnWeekdays | 02_conditionals/01.py:90-97 | A working plan is given exactly for monday to friday, in any case. |
| Conditionals.Authenticate | 02_conditionals/01.py:114-132 | The lockout at 3 attempts comes first. Success holds exactly for a known user with the right password. A wrong password reports 3 - attempts - 1 attempts left, never a negative count. |
| Conditionals.WrongPasswordCountsDown | 02_conditionals/01.py:118-132 | Each further wrong attempt leaves one fewer, until the account locks. |
| Conditionals.LetterGrade | 02_conditionals/01.py:186-195 | A exactly from 90, B exactly in [80, 90), C in [70, 80), D in [60, 70), F below 60. |
| Conditionals.LetterGradeIsBestEarned | 02_conditionals/01.py:186-195 | The letter given is earned by the score, and no better letter is earned. |
| Conditionals.LetterGradeMonotone | 02_conditionals/01.py:186-195 | A higher score never gets a worse letter. |
| Conditionals.AcademicStatus | 02_conditionals/01.py:197-205 | Dean's List exactly from GPA 3.7, Good Standing exactly in [3.0, 3.7), Probation exactly in [2.0, 3.0), Academic Warning exactly below 2.0. |
| Conditionals.AcademicStatusMonotone | 02_conditionals/01.py:197-205 | A higher GPA never gives a worse standing. |
| Conditionals.RecommendActivity | 02_conditionals/01.py:236-249 | Each kind of weather gets exactly its own group of recommendations, and unknown weather gets the fallback. Sunny: beach exactly above 25, walk exactly in (15, 25], jacket exactly at 15 or below. Snowy: snowman exactly above -5, stay inside exactly at -5 or below. |
| Conditionals.RecommendationWarmsWithTemperature | 02_conditionals/01.py:239-247 | For the same weather, a warmer day never gets a colder recommendation. |
| Conditionals.TemperatureMattersOnlyWhenSunnyOrSnowy | 02_conditionals/01.py:236-249 | Outside sunny and snowy weather the temperature is ignored. |
| Functions.GetNameParts | 04_functions/01.py:33-37 | IndexError exactly when the name has no words. Otherwise the first name is the first word. The last name is the last word when there are two words or more, and "" exactly when there is one word. |
| Functions.NamePartsOfJoinedWords | 04_functions/01.py:33-37 | A name made of words joined by spaces gives back its first and last word. |
| Functions.Validator.Validate | 04_functions/01.py:156-168 | The type check comes first, then the minimum, then the maximum. Valid exactly for a string whose length is within the bounds. The messages carry the bound that failed. |
| Functions.Factorial | 04_functions/01.py:184-188 | The result is at least 1 for every n, and at least n for n >= 1. |
| Functions.FactorialMultipleOf | 04_functions/01.py:184-188 | factorial(n) is a multiple of every k in 1..n. |
| Functions.Fibonacci | 04_functions/01.py:195-199 | n itself for n <= 1. Non-negative for n >= 0, positive from 2. |
| Functions.FibonacciAgreesWithPair | 04_functions/01.py:195-199 | The recursive definition agrees with the bottom-up pair iteration. |
| Functions.FibonacciMonotone | 04_functions/01.py:195-199 | Non-decreasing over the naturals. |
| Functions.SumListOptimized | 04_functions/01.py:236-240 | The accumulator recursion returns the accumulator plus the plain sum of the list. |
| Functions.FindFiles | 04_functions/01.py:206-220 | The loop with its recursive calls returns the depth-first list of matching files. |
| Functions.FilesInAreMatchingLeaves | 04_functions/01.py:206-220 | The files found are exactly the file leaves ending with the extension, in depth-first order. |
| Functions.ProcessNestedData | 04_functions/01.py:355-365 | Dictionaries keep their keys and lists their length. Each value of a dictionary and each item of a list is processed in turn, at every depth. Plain values go through the processor. A plain value cannot be a dictionary, so every dictionary is recursed into. |
| Functions.AtomsProcessed | 04_functions/01.py:355-365 | With a processor that maps plain values to plain values, the plain values of the result are the processor applied to every plain value of the data, depth first and in order. |
| Functions.ProcessKeepsShape | 04_functions/01.py:355-365 | With a processor that maps plain values to plain values, the whole nesting is unchanged. |
| Functions.ProcessIdentity | 04_functions/01.py:355-365 | Processing with the identity gives the data back. |
| Functions.UppercaseProcessor | 04_functions/01.py:380-381 | A string keeps its length, has no lower-case letter left, and lower-cases to the same string as the input, so each letter becomes its own capital and every other character stays. Anything else comes back unchanged. |
| Functions.UppercaseKeepsShape | 04_functions/01.py:380-381 | Upper-casing strings keeps the nesting of the data and reaches every plain value at every depth. |
| Closures.Counter.constructor | 04_functions/01.py:131-133 | A new counter starts at `start`, with no calls yet. |
| Closures.Counter.Next | 04_functions/01.py:135-137 | The k-th call since creation or reset answers start + k. |
| Closures.Counter.Reset | 04_functions/01.py:139-140 | Back to `start`, as if never called. |
| Closures.CounterScenario | 04_functions/01.py:146-152 | Two independent counters answer 1, 2, 3 and 11, 12, and 1 after the reset. |
| Closures.FibonacciMemo.Fib | 04_functions/01.py:395-403 | The memoised call answers fibonacci(n). Every stored value is correct. After the call the stored keys are the old ones plus 0..n from n >= 2, and n alone below 2. A cached n changes nothing. No argument is computed twice. |
| Closures.FibonacciMemo.Compute | 04_functions/01.py:411-416 | The body for an unstored n answers fibonacci(n) and keeps every stored value correct. Its recursive calls store exactly 0..n-1 (nothing below 2), never n itself. |
| Closures.MemoFibonacciTen | 04_functions/01.py:420-422 | fibonacci(10) from an empty cache is 55, with the 11 arguments 0..10 stored. |
| Closures.Config.constructor | 04_functions/01.py:318-319 | The configuration holds the base entries. |
| Closures.Config.Override | 04_functions/01.py:321-325 | The merged keys are the union. New entries win, and base entries are kept otherwise. The base is left unchanged. |
| Closures.Config.Get | 04_functions/01.py:327-329 | The stored value, or the default for a missing key. |
| Caching.Memo.Call | 06_decorator/03_decorator.py:8-15 | The answer is func(args). A hit returns the stored value without running func and changes nothing. A miss runs func once and stores its result under the key. Every stored value is func of its key, and no key is run twice. The same wrapper shape is `memoize` (04_functions/01.py:395-403) and `cache` (06_decorator/decorator.py:77-88). |
| Caching.Memo.Clear | 04_functions/01.py:406 | `clear_cache()` forgets every stored value. |
| Caching.CachedTwice | 06_decorator/03_decorator.py:20-27 | The cached `long_running_function(a, b)` answers a + b both times and runs once. |
| Decorators.LoginRequired | 06_decorator/decorator.py:138-141 | Denied unless `is_logged_in` is truthy. A missing key counts as false. Otherwise the wrapped function's answer. |
| Decorators.AdminRequired | 06_decorator/decorator.py:157-160 | Denied unless `is_admin` is truthy. A missing key counts as false. Otherwise the wrapped function's answer. |
| Decorators.GuardsIgnoreCalleeWhenDenied | 06_decorator/decorator.py:138-160 | A denied user never reaches the wrapped function: the answer is the same whichever function is wrapped. |
| Decorators.ViewAllAccountsNeedsAdmin | 06_decorator/decorator.py:285-289 | `view_all_accounts` (`Decorators.ViewAllAccounts`) under `admin_required` returns the account data exactly to administrators. |
| Decorators.ValidatePositive | 06_decorator/decorator.py:262-266 | A negative int or float positional argument denies the call. Otherwise the wrapped function runs. Keyword arguments are not looked at. |
| Decorators.Recent | 06_decorator/decorator.py:183-185 | Pruning never lengthens the record, and every time it keeps was recorded and lies inside the window. |
| Decorators.RecentAppend | 06_decorator/decorator.py:183-185 | Pruning distributes over concatenation, and one call survives exactly when it is inside the window. Together these fix the pruned list completely, repeated times and order included, so its length is the number of recorded calls inside the window. |
| Decorators.RecentIsWindow | 06_decorator/decorator.py:183-185 | Pruning keeps exactly the recorded times t with now - t < window. |
| Decorators.RecentLater | 06_decorator/decorator.py:183-185 | Pruning at a later time after an earlier one equals pruning at the later time. Pruning twice changes nothing. |
| Decorators.RateLimiter.Admit | 06_decorator/decorator.py:180-190 | Admitted exactly when fewer than max_calls recent calls remain. An admitted call is recorded after the pruned list. A refused call is not recorded. The record never exceeds max_calls. |
| Decorators.RateLimited | 06_decorator/decorator.py:180-191 | A refused call gets the rate-limit answer and is not forwarded. An admitted call gets the wrapped function's answer. |
| Decorators.Retry | 06_decorator/decorator.py:211-223 | With max_attempts <= 0 it returns None and calls nothing. Otherwise it makes at most max_attempts calls, every call before the last raised, and the first success is returned. The last error is re-raised once the attempts are used up. |
| Decorators.CacheKey | 06_decorator/decorator.py:79 | The key holds the positional arguments, and exactly the keyword names passed, each with its value. |
| Decorators.KwargsOrderIrrelevant | 06_decorator/decorator.py:79 | Keyword arguments written in a different order give the same cache key. |
| Decorators.CachedCall | 06_decorator/decorator.py:77-88 | The `cache` wrapper answers func on the argument key. A hit changes nothing. A miss stores the result under the key. |
| Decorators.BindArguments | 06_decorator/decorator.py:280 | A call binds when the positional arguments fill the first parameters and the keywords name exactly the rest. Each parameter then gets its positional or keyword value. Anything else is a TypeError. |
| Decorators.TransferMoney | 06_decorator/decorator.py:280-282 | The call binds to (user, amount, to_account) as Python binds it, and a call that does not bind is a TypeError. The amount and the account come from their position, or else from their keyword. |
| Decorators.TransferMoneyByPositionOrKeyword | 06_decorator/decorator.py:280-282 | Positional, mixed and keyword calls give the same transfer. Naming the amount twice is refused. |
| Decorators.NegativeKeywordAmountPassesValidation | 06_decorator/decorator.py:262-266 | Under `validate_positive` (`Decorators.ValidatedTransfer`), a negative amount passed by keyword is transferred, and the same amount passed by position is refused. |
| Decorators.SecuredTransfer | 06_decorator/decorator.py:276-282 | Login is checked first, and a logged-out call does not count against the limit. The rate limit comes next. An admitted call is refused exactly when a positional argument is negative; otherwise it is `transfer_money` on the user and the arguments. |
| Decorators.PositionalTransfer | 06_decorator/decorator.py:321-322 | A positional call with no negative number is transferred once it passes the guards. |
| Decorators.KeywordAmountScenario | 06_decorator/decorator.py:262-282 | Through the whole stack, `transfer_money(user, amount=-50, to_account="12345")` transfers -50. |
| Decorators.TransferScenario | 06_decorator/decorator.py:316-326 | The guide's five transfers: two pass, then rate limited, then authentication required, then rate limited. |
| Loops.BestIsFirstGreatest | 03_loops/01.py:149-158 | The best day has the greatest amount and is the first day with it. It stays ("", 0) when no amount is above 0. |
| Loops.AnalyzeSales | 03_loops/01.py:147-161 | ZeroDivisionError exactly for empty sales. Otherwise the total is the sum of the amounts, and the best day is the running best. |
| Loops.TryAge | 03_loops/01.py:193-198 | One attempt is accepted exactly when `int()` succeeds and the age lies in 0..120. |
| Loops.GetValidAge | 03_loops/01.py:181-205 | For any source of answers: at most 3 attempts, every refused attempt comes before the answer, the first accepted age is returned, and None comes back exactly after three refusals. |
| Loops.TwentyFiveAccepted | 03_loops/01.py:190-194 | The answer "25" (the first test input and the fallback) parses to 25 and lies in 0..120. |
| Loops.GetValidAgeScenario | 03_loops/01.py:189-196 | The tutorial's answers give 25 at the first attempt. |
| Loops.Classify | 03_loops/01.py:250-257 | Out of stock exactly at 0, low stock exactly for a non-zero stock below 10, in stock exactly from 10. |
| Loops.StatusesPartitionItems | 03_loops/01.py:249-257 | The three status lists together have exactly one entry per item. |
| Loops.NamesWithAppend | 03_loops/01.py:249-254 | An alert list distributes over concatenation, and one item is listed exactly when it has the status. |
| Loops.EveryItemListed | 03_loops/01.py:249-257 | Every item's name is in the list of its own status. |
| Loops.NamesWithHaveStatus | 03_loops/01.py:249-254 | Every name in an alert list belongs to an item with that status. |
| Loops.ProcessInventory | 03_loops/01.py:235-259 | The status of each item, the two alert lists in item order, and the total value as the sum of stock * price. |
| Loops.CountLetters | 03_loops/01.py:288-291 | The letter counts are the tally of the letters of the lower-cased text. |
| Loops.CleanWord | 03_loops/01.py:298 | Exactly the alphanumeric characters of the word are kept, and the result is never longer than the word. |
| Loops.CleanWordAppend | 03_loops/01.py:298 | Cleaning distributes over concatenation, and one character is kept exactly when it is alphanumeric. The cleaned word is therefore the word's alphanumeric characters in their order, with repeats. |
| Loops.CleanWordsAppend | 03_loops/01.py:296-300 | The kept words distribute over concatenation. One split word gives its cleaned form, or nothing when that form is empty. |
| Loops.LettersAppend | 03_loops/01.py:289-290 | The letters distribute over concatenation, and one character is kept exactly when it is a letter. The counted letters are therefore every letter of the lower-cased text, in order. |
| Loops.CountWords | 03_loops/01.py:294-300 | The word counts are the tally of the non-empty cleaned words. |
| Loops.AnalyzeText | 03_loops/01.py:282-305 | The character count, the word count, and the letter and word tallies of the lower-cased text. |
| Loops.TallyCounts | 03_loops/01.py:291 | The tally has a key for each element, holding its number of occurrences. |
| Loops.LetterCountsAreOccurrences | 03_loops/01.py:288-291 | Only letters are keys, and each count is the letter's number of occurrences in the letters of the lower-cased text, the list that `Loops.LettersAppend` fixes. |
| Loops.WordCountsAreOccurrences | 03_loops/01.py:294-300 | Word keys are non-empty and alphanumeric, and each count is the cleaned word's number of occurrences among the non-empty cleaned words, the list that `Loops.CleanWordsAppend` fixes. |
| Cars.FuelType | 05_oops/oops.py:18-19 | Each of the four answers names exactly one class (also lines 53-54, 66-67 and 97-98). |
| Cars.FuelTypeIsPerClass | 05_oops/oops.py:18-19 | The fuel type depends on the class alone, and the four classes answer differently (also lines 53-54, 66-67 and 97-98). |
| Cars.Car.constructor | 05_oops/oops.py:7-10 | Brand and model are stored as given, with no check. `total_car` goes up by exactly one for every class. |
| Cars.Car.FullName | 05_oops/oops.py:12-13 | The brand, one space, the model. |
| Cars.Car.GetBrand | 05_oops/oops.py:15-16 | The brand followed by "!". |
| Cars.Car.SetModel | 05_oops/oops.py:29-34 | A non-empty model is stored. None or "" raise ValueError and leave the model as it was. The brand never changes. |
| Cars.Car.SetBrand | 05_oops/oops.py:40-45 | A non-empty brand is stored. None or "" raise ValueError and leave the brand as it was. The model never changes. |
| Cars.Car.AllFeatures | 05_oops/oops.py:100-106 | The three mixin answers and the smart car's own fuel type. |
| Cars.FullNameSplitsIntoBrandAndModel | 05_oops/oops.py:12-13 | A full name made of single-word brand and model splits back into them. |
| Cars.CarsScenario | 05_oops/oops.py:115-173 | Five cars give a count of 5, the BMW makes 6. The Nexon keeps "Nexon EV" after the empty model is refused. |
| Cars.EmptyBrandScenario | 05_oops/oops.py:7-9 | The constructor accepts an empty brand that the setter refuses. The refused update leaves it in place. |

## Left out

- The threads and asyncio lessons, and the basics lesson: concurrency, network and file delays, or top-level prints with no behaviour to state.
- `timer`, `debug` and `log_calls`: they only print timings, arguments or timestamps and return the wrapped result. They are left out of every stack.
- `unreliable_api_call`, `generate_passwords` and `track_game_scores`: they depend on random numbers. `retry` takes the callee's outcomes as a parameter instead.
- The delay and sleep calls in `retry`, `long_running_function` and `process_large_file`, and the printed messages of every routine: output only.
- `calculate_total` in both lessons, `calculate_distance`, `create_calculator`, the averages of `process_grades` and the average of `analyze_sales_data`: floating-point arithmetic. Amounts are whole numbers here. The ZeroDivisionError of the average on empty sales is kept.
- `create_logger`, `greet`, `create_user`, `create_profile`, `connect`, `create_partial`, `apply_to_list`, `show()` of the configuration, `isinstance` demos and the MRO printout: printing or Python object machinery with no contract.
- `Closures.Config` models the closures `build_config` builds (04_functions/01.py:321-329), called directly. `build_config` returns them as attributes of a `type("Config", (), {...})()` instance (04_functions/01.py:338-342), so they become bound methods: `show()` and `override(...)` raise TypeError (they take no positional argument, yet receive the instance), and `get(key)` binds `key` to the instance and `default` to the key, so it answers the key itself. The demo therefore stops with TypeError at `base_config.show()` (04_functions/01.py:348); the model does not capture this.
- String builtins are modelled on ASCII only: no Unicode case mapping, Unicode letters or Unicode digits in `int()`.
- Messages with emoji are kept as constants, and the `Denial` messages are the wrappers' strings. `transfer_money`'s formatted message is the `Transfer` record, because number formatting is not modelled.
- The `cache` key is built with `str(args) + str(sorted(kwargs.items()))`. Here the key is the argument list with the keyword dictionary, compared structurally. Python's equality of `1`, `1.0` and `True` as dictionary keys in `memoize` and the short `cache` is not modelled either.
- Dictionaries iterated in insertion order (`sales`, `items`, directory listings, nested data) are sequences of pairs. Duplicate keys, which a dictionary cannot hold, are not excluded.
- Cars.Car.SetModel: only `None` and strings are modelled. In Python a truthy number raises TypeError from `len`, and a non-empty list or dictionary is stored without error.
- Cars.Car.SetBrand: as for SetModel, only `None` and strings are modelled.
- Cars.Car.ChargingTime: only the string it builds, with no contract beyond it.
- Loops.LetterCountsAreOccurrences: each count is stated as the letter's number of occurrences, which fixes the total. The sum of the counts is not stated as a number, because it needs a fold over the keys of a map.
- Loops.WordCountsAreOccurrences: as for the letter counts, the sum of the word counts is implied by the occurrence counts but not stated.
- `get_valid_age` reads its answers from a fixed local list with a "25" fallback. The model takes the answer of each attempt as a function parameter, and `TutorialInput` is the tutorial's list.
- Python integers and Dafny integers are both unbounded, so no integer overflow is left out. Python's recursion limit is left out: `factorial`, `fibonacci`, `sum_list_optimized`, `find_files` and `process_nested_data` raise RecursionError once the recursion is about 1000 calls deep, while the model's recursion has no depth limit.
- `recommend_activity` compares the temperature with 25, 15 and -5. The model takes whole degrees only.
- `general_description()` is the constant `Cars.GeneralDescription`; it has no behaviour to state beyond its text.
- The functions wrapped by `memoize`, `cache` and the short `cache` example are total here. In Python an exception raised by `func(*args)` propagates and nothing is stored; `Caching.Memo.Call` and `Decorators.CachedCall` cannot express a raising callee.
- ValidateUser: `user_data` is `None` or a dictionary. In Python a non-empty string or list also passes `not user_data`, gets a substring or element test for "email", and then fails when indexed; those inputs are not modelled.
- `long_running_function` is the sum `a + b` and has no contract of its own beyond that. Its cached use is stated by `Caching.CachedTwice`.
- `login_required` takes the user as its first positional argument. A user passed as the keyword `user=` is not modelled.
