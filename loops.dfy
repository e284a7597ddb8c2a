/**
 * The report loops of the loops tutorial: the sales summary, the age prompt
 * with a bounded number of attempts, the inventory report and the letter
 * and word counts of a text. Money amounts are whole numbers (cents) here.
 */
module Loops {
  import opened Wrappers
  import opened Text

  // ----- analyze_sales_data -----

  /** The sales of each day, in the order of the dictionary. */
  type Sales = seq<(string, int)>

  /** Raised by `total_sales / len(sales)` on an empty dictionary. */
  datatype ZeroDivisionError = ZeroDivisionError

  datatype SalesReport = SalesReport(total: int, bestDay: string, bestAmount: int)

  /** The sum of all amounts. */
  function Total(sales: Sales): int {
    if |sales| == 0 then 0 else Total(sales[..|sales| - 1]) + sales[|sales| - 1].1
  }

  /**
   * The running best after the days in `sales`: replaced only by a strictly
   * greater amount, starting from ("", 0).
   */
  function Best(sales: Sales): (string, int) {
    if |sales| == 0 then ("", 0)
    else
      var best := Best(sales[..|sales| - 1]);
      var day := sales[|sales| - 1];
      if day.1 > best.1 then day else best
  }

  /**
   * The best day is the first day with the greatest amount, so a tie keeps
   * the earlier day; it stays ("", 0) when no amount is above 0.
   */
  lemma {:induction false} BestIsFirstGreatest(sales: Sales)
    ensures Best(sales).1 >= 0
    ensures forall i :: 0 <= i < |sales| ==> sales[i].1 <= Best(sales).1
    ensures Best(sales).1 == 0 ==> Best(sales) == ("", 0)
    ensures Best(sales).1 > 0 ==>
              exists i :: 0 <= i < |sales| && sales[i] == Best(sales)
                          && forall j :: 0 <= j < i ==> sales[j].1 < Best(sales).1
  {
    if |sales| > 0 {
      var init := sales[..|sales| - 1];
      BestIsFirstGreatest(init);
      var best := Best(init);
      var n := |sales| - 1;
      assert forall i :: 0 <= i < n ==> sales[i] == init[i];
      if sales[n].1 > best.1 {
        assert forall j :: 0 <= j < n ==> sales[j].1 < sales[n].1;
      } else if best.1 > 0 {
        var i :| 0 <= i < |init| && init[i] == best && forall j :: 0 <= j < i ==> init[j].1 < best.1;
        assert sales[i] == best;
      }
    }
  }

  /** `analyze_sales_data(sales)`: the figures of the printed summary. */
  method AnalyzeSales(sales: Sales) returns (r: Result<SalesReport, ZeroDivisionError>)
    ensures |sales| == 0 <==> r.Failure?
    ensures r.Success? ==> r.value == SalesReport(Total(sales), Best(sales).0, Best(sales).1)
  {
    var totalSales := 0;
    var bestDay := "";
    var bestAmount := 0;
    for k := 0 to |sales|
      invariant totalSales == Total(sales[..k])
      invariant (bestDay, bestAmount) == Best(sales[..k])
    {
      assert sales[..k + 1][..k] == sales[..k];
      var (day, amount) := sales[k];
      totalSales := totalSales + amount;
      if amount > bestAmount {
        bestAmount := amount;
        bestDay := day;
      }
    }
    assert sales[..|sales|] == sales;
    if |sales| == 0 {
      return Failure(ZeroDivisionError);
    }
    r := Success(SalesReport(totalSales, bestDay, bestAmount));
  }

  // ----- get_valid_age -----

  const MaxAgeAttempts: nat := 3

  /**
   * The simulated answer of attempt `k`: `test_inputs[k]`, or "25" once the
   * list runs out.
   */
  function TutorialInput(k: nat): string {
    var testInputs := ["25", "abc", "150", "30"];
    if k < |testInputs| then testInputs[k] else "25"
  }

  /** `int(user_input)` succeeds and the age lies in 0..120. */
  predicate AcceptedAge(s: string) {
    ParseInt(s).Some? && 0 <= ParseInt(s).value <= 120
  }

  /** "25" is accepted as the age 25. */
  lemma TwentyFiveAccepted()
    ensures AcceptedAge("25") && ParseInt("25") == Some(25)
  {
    assert ShowInt(25) == "25" by {
      assert ShowNat(25) == ShowNat(2) + [DigitChar(5)];
    }
    ParseShowInt(25);
  }

  /** One attempt: `int(user_input)` and the range check; `None` where the attempt is refused. */
  method TryAge(userInput: string) returns (age: Option<int>)
    ensures age.Some? <==> AcceptedAge(userInput)
    ensures age.Some? ==> age.value == ParseInt(userInput).value
  {
    var parsed := ParseInt(userInput);
    if parsed.Some? && 0 <= parsed.value <= 120 {
      return Some(parsed.value);
    }
    return None;
  }

  /**
   * `get_valid_age()` with `input(k)` the answer of attempt k: at most three
   * attempts, the first accepted age is returned, and `None` after three
   * refusals. `attempts` is the number of refused attempts before the answer.
   */
  method GetValidAge(input: nat -> string) returns (age: Option<int>, attempts: nat)
    ensures attempts <= MaxAgeAttempts
    // every refused attempt came before the answer
    ensures forall k: nat :: k < attempts ==> !AcceptedAge(input(k))
    ensures age.Some? ==> attempts < MaxAgeAttempts && AcceptedAge(input(attempts))
                          && age.value == ParseInt(input(attempts)).value
    ensures age.None? <==> attempts == MaxAgeAttempts
  {
    attempts := 0;
    while attempts < MaxAgeAttempts
      invariant attempts <= MaxAgeAttempts
      invariant forall k: nat :: k < attempts ==> !AcceptedAge(input(k))
    {
      var userInput := input(attempts);
      age := TryAge(userInput);
      if age.Some? {
        return;
      }
      attempts := attempts + 1;
    }
    age := None;
  }

  /** The tutorial's answers "25", "abc", "150", "30": the first is accepted. */
  method GetValidAgeScenario() returns (age: Option<int>)
    ensures age == Some(25)
  {
    TwentyFiveAccepted();
    assert TutorialInput(0) == "25";
    var refused;
    age, refused := GetValidAge(TutorialInput);
    assert refused == 0;
  }

  // ----- process_inventory -----

  datatype Stock = Stock(stock: int, price: int)

  type Inventory = seq<(string, Stock)>

  datatype StockStatus = OutOfStock | LowStock | InStock

  /** The three-way check of the stock level. */
  function Classify(stock: int): (s: StockStatus)
    ensures s == OutOfStock <==> stock == 0
    ensures s == LowStock <==> stock != 0 && stock < 10
    ensures s == InStock <==> stock >= 10
  {
    if stock == 0 then OutOfStock
    else if stock < 10 then LowStock
    else InStock
  }

  /** The sum of `stock * price` over the items. */
  function TotalValue(items: Inventory): int {
    if |items| == 0 then 0
    else TotalValue(items[..|items| - 1]) + items[|items| - 1].1.stock * items[|items| - 1].1.price
  }

  /** The names of the items with status `s`, in the order of the items. */
  function NamesWith(items: Inventory, s: StockStatus): (names: seq<string>)
    ensures |names| <= |items|
  {
    if |items| == 0 then []
    else
      var last := items[|items| - 1];
      NamesWith(items[..|items| - 1], s) + (if Classify(last.1.stock) == s then [last.0] else [])
  }

  /** Every item is listed under exactly one status. */
  lemma {:induction false} StatusesPartitionItems(items: Inventory)
    ensures |NamesWith(items, OutOfStock)| + |NamesWith(items, LowStock)| + |NamesWith(items, InStock)| == |items|
  {
    if |items| > 0 {
      StatusesPartitionItems(items[..|items| - 1]);
    }
  }

  /** A listed name belongs to an item with that status. */
  lemma {:induction false} NamesWithHaveStatus(items: Inventory, s: StockStatus)
    ensures forall x :: x in NamesWith(items, s) ==>
              exists i :: 0 <= i < |items| && items[i].0 == x && Classify(items[i].1.stock) == s
  {
    if |items| > 0 {
      var init := items[..|items| - 1];
      NamesWithHaveStatus(init, s);
      forall x | x in NamesWith(items, s)
        ensures exists i :: 0 <= i < |items| && items[i].0 == x && Classify(items[i].1.stock) == s
      {
        if x in NamesWith(init, s) {
          var i :| 0 <= i < |init| && init[i].0 == x && Classify(init[i].1.stock) == s;
          assert items[i] == init[i];
        } else {
          assert items[|items| - 1].0 == x;
        }
      }
    }
  }

  /**
   * The alert list of a concatenation is the two alert lists one after the
   * other, and one item is listed exactly when it has the status.
   */
  lemma {:induction false} NamesWithAppend(a: Inventory, b: Inventory, s: StockStatus)
    ensures NamesWith(a + b, s) == NamesWith(a, s) + NamesWith(b, s)
    ensures |b| == 1 ==> NamesWith(b, s) == (if Classify(b[0].1.stock) == s then [b[0].0] else [])
    decreases |b|
  {
    if |b| > 0 {
      var init := b[..|b| - 1];
      NamesWithAppend(a, init, s);
      assert (a + b)[..|a + b| - 1] == a + init;
      assert (a + b)[|a + b| - 1] == b[|b| - 1];
    } else {
      assert a + b == a;
    }
  }

  /** Every item is listed under its own status. */
  lemma EveryItemListed(items: Inventory, i: int)
    requires 0 <= i < |items|
    ensures items[i].0 in NamesWith(items, Classify(items[i].1.stock))
  {
    var item := items[i];
    var s := Classify(item.1.stock);
    var upTo, rest := items[..i + 1], items[i + 1..];
    assert upTo == items[..i] + [item];
    NamesWithAppend(items[..i], [item], s);
    assert item.0 in NamesWith(upTo, s);
    NamesWithAppend(upTo, rest, s);
    assert upTo + rest == items;
  }

  datatype InventoryReport = InventoryReport(
    statuses: seq<StockStatus>,
    lowStock: seq<string>,
    outOfStock: seq<string>,
    totalValue: int)

  /** `process_inventory(items)`: the status of each item, the two alert lists and the total value. */
  method ProcessInventory(items: Inventory) returns (report: InventoryReport)
    ensures |report.statuses| == |items|
    ensures forall i :: 0 <= i < |items| ==> report.statuses[i] == Classify(items[i].1.stock)
    ensures report.lowStock == NamesWith(items, LowStock)
    ensures report.outOfStock == NamesWith(items, OutOfStock)
    ensures report.totalValue == TotalValue(items)
  {
    var lowStock := [];
    var outOfStock := [];
    var totalValue := 0;
    var statuses := [];
    for k := 0 to |items|
      invariant |statuses| == k
      invariant forall i :: 0 <= i < k ==> statuses[i] == Classify(items[i].1.stock)
      invariant lowStock == NamesWith(items[..k], LowStock)
      invariant outOfStock == NamesWith(items[..k], OutOfStock)
      invariant totalValue == TotalValue(items[..k])
    {
      assert items[..k + 1][..k] == items[..k];
      var (itemName, details) := items[k];
      var value := details.stock * details.price;
      totalValue := totalValue + value;
      var status;
      if details.stock == 0 {
        outOfStock := outOfStock + [itemName];
        status := OutOfStock;
      } else if details.stock < 10 {
        lowStock := lowStock + [itemName];
        status := LowStock;
      } else {
        status := InStock;
      }
      statuses := statuses + [status];
    }
    assert items[..|items|] == items;
    report := InventoryReport(statuses, lowStock, outOfStock, totalValue);
  }

  // ----- analyze_text -----

  /** How often each element occurs, as the dictionary `d[x] = d.get(x, 0) + 1` builds it. */
  function Tally<T(==)>(xs: seq<T>): map<T, nat> {
    if |xs| == 0 then map[]
    else
      var m := Tally(xs[..|xs| - 1]);
      var x := xs[|xs| - 1];
      m[x := (if x in m then m[x] else 0) + 1]
  }

  /** The tally has a key for each element, holding the element's number of occurrences. */
  lemma {:induction false} TallyCounts<T>(xs: seq<T>)
    ensures forall x :: x in Tally(xs) <==> x in xs
    ensures forall x :: x in Tally(xs) ==> Tally(xs)[x] == multiset(xs)[x]
  {
    if |xs| > 0 {
      var init := xs[..|xs| - 1];
      TallyCounts(init);
      assert xs == init + [xs[|xs| - 1]];
    }
  }

  /** The letters of `s`, in order. */
  function Letters(s: string): (r: string)
    ensures forall i :: 0 <= i < |r| ==> IsAlpha(r[i])
  {
    if |s| == 0 then []
    else Letters(s[..|s| - 1]) + (if IsAlpha(s[|s| - 1]) then [s[|s| - 1]] else [])
  }

  /** `"".join(c for c in word if c.isalnum())` */
  function CleanWord(w: string): (r: string)
    ensures forall i :: 0 <= i < |r| ==> IsAlnum(r[i])
    // exactly the alphanumeric characters of the word are kept
    ensures forall c :: c in r <==> c in w && IsAlnum(c)
    ensures |r| <= |w|
  {
    if |w| == 0 then []
    else CleanWord(w[..|w| - 1]) + (if IsAlnum(w[|w| - 1]) then [w[|w| - 1]] else [])
  }

  /** The cleaned words that are not empty, in order. */
  function CleanWords(words: seq<string>): seq<string> {
    if |words| == 0 then []
    else
      var clean := CleanWord(words[|words| - 1]);
      CleanWords(words[..|words| - 1]) + (if |clean| > 0 then [clean] else [])
  }

  /** Every cleaned word kept is non-empty and alphanumeric. */
  lemma {:induction false} CleanWordsAreAlnum(words: seq<string>)
    ensures forall w :: w in CleanWords(words) ==> |w| > 0 && forall j :: 0 <= j < |w| ==> IsAlnum(w[j])
  {
    if |words| > 0 {
      CleanWordsAreAlnum(words[..|words| - 1]);
    }
  }

  /**
   * `Letters` keeps exactly the letters, in order: it distributes over
   * concatenation, and one character is kept exactly when it is a letter.
   */
  lemma {:induction false} LettersAppend(a: string, b: string)
    ensures Letters(a + b) == Letters(a) + Letters(b)
    ensures |b| == 1 ==> Letters(b) == (if IsAlpha(b[0]) then b else [])
    decreases |b|
  {
    if |b| > 0 {
      var init := b[..|b| - 1];
      LettersAppend(a, init);
      assert (a + b)[..|a + b| - 1] == a + init;
      assert (a + b)[|a + b| - 1] == b[|b| - 1];
    } else {
      assert a + b == a;
    }
  }

  /**
   * `CleanWord` keeps exactly the alphanumeric characters, in order: it
   * distributes over concatenation, and one character is kept exactly when
   * it is alphanumeric.
   */
  lemma {:induction false} CleanWordAppend(a: string, b: string)
    ensures CleanWord(a + b) == CleanWord(a) + CleanWord(b)
    ensures |b| == 1 ==> CleanWord(b) == (if IsAlnum(b[0]) then b else [])
    decreases |b|
  {
    if |b| > 0 {
      CleanWordDropLast(a, b);
      CleanWordAppend(a, b[..|b| - 1]);
    } else {
      assert a + b == a;
    }
  }

  /** Cleaning `a + b` is cleaning `a` plus all of `b` but its last character, then that character if kept. */
  lemma CleanWordDropLast(a: string, b: string)
    requires |b| > 0
    ensures CleanWord(a + b) == CleanWord(a + b[..|b| - 1]) + (if IsAlnum(b[|b| - 1]) then [b[|b| - 1]] else [])
  {
    assert (a + b)[..|a + b| - 1] == a + b[..|b| - 1];
    assert (a + b)[|a + b| - 1] == b[|b| - 1];
  }

  /**
   * `CleanWords` distributes over concatenation, and one word gives its
   * cleaned form, or nothing when that form is empty.
   */
  lemma {:induction false} CleanWordsAppend(a: seq<string>, b: seq<string>)
    ensures CleanWords(a + b) == CleanWords(a) + CleanWords(b)
    ensures |b| == 1 ==> CleanWords(b) == (if |CleanWord(b[0])| > 0 then [CleanWord(b[0])] else [])
    decreases |b|
  {
    if |b| > 0 {
      var init := b[..|b| - 1];
      CleanWordsAppend(a, init);
      assert (a + b)[..|a + b| - 1] == a + init;
      assert (a + b)[|a + b| - 1] == b[|b| - 1];
    } else {
      assert a + b == a;
    }
  }

  /** One more element adds one to its count. */
  lemma TallySnoc<T>(xs: seq<T>, x: T)
    ensures Tally(xs + [x]) == Tally(xs)[x := (if x in Tally(xs) then Tally(xs)[x] else 0) + 1]
  {
    assert (xs + [x])[..|xs|] == xs;
  }

  lemma LettersSnoc(s: string, c: char)
    ensures Letters(s + [c]) == Letters(s) + (if IsAlpha(c) then [c] else [])
  {
    assert (s + [c])[..|s|] == s;
  }

  lemma CleanWordsSnoc(words: seq<string>, w: string)
    ensures CleanWords(words + [w]) == CleanWords(words) + (if |CleanWord(w)| > 0 then [CleanWord(w)] else [])
  {
    assert (words + [w])[..|words|] == words;
  }

  /** The first loop of `analyze_text`: count the letters of the lower-cased text. */
  method CountLetters(lowered: string) returns (charCount: map<char, nat>)
    ensures charCount == Tally(Letters(lowered))
  {
    charCount := map[];
    for k := 0 to |lowered|
      invariant charCount == Tally(Letters(lowered[..k]))
    {
      var c := lowered[k];
      assert lowered[..k + 1] == lowered[..k] + [c];
      LettersSnoc(lowered[..k], c);
      if IsAlpha(c) {
        TallySnoc(Letters(lowered[..k]), c);
        charCount := charCount[c := (if c in charCount then charCount[c] else 0) + 1];
      } else {
        assert Letters(lowered[..k]) + [] == Letters(lowered[..k]);
      }
    }
    assert lowered[..|lowered|] == lowered;
  }

  /** The second loop of `analyze_text`: count the cleaned words that are not empty. */
  method CountWords(split: seq<string>) returns (wordCount: map<string, nat>)
    ensures wordCount == Tally(CleanWords(split))
  {
    wordCount := map[];
    for k := 0 to |split|
      invariant wordCount == Tally(CleanWords(split[..k]))
    {
      var cleanWord := CleanWord(split[k]);
      assert split[..k + 1] == split[..k] + [split[k]];
      CleanWordsSnoc(split[..k], split[k]);
      if |cleanWord| > 0 {
        TallySnoc(CleanWords(split[..k]), cleanWord);
        wordCount := wordCount[cleanWord := (if cleanWord in wordCount then wordCount[cleanWord] else 0) + 1];
      } else {
        assert CleanWords(split[..k]) + [] == CleanWords(split[..k]);
      }
    }
    assert split[..|split|] == split;
  }

  /**
   * `analyze_text(text)`: the letter counts and word counts of the lower-cased
   * text, with the number of characters and of words it reports.
   */
  method AnalyzeText(text: string) returns (characters: nat, words: nat, charCount: map<char, nat>, wordCount: map<string, nat>)
    ensures characters == |text| && words == |Words(Lower(text))|
    ensures charCount == Tally(Letters(Lower(text)))
    ensures wordCount == Tally(CleanWords(Words(Lower(text))))
  {
    var lowered := Lower(text);
    charCount := CountLetters(lowered);
    var split := Words(lowered);
    wordCount := CountWords(split);
    characters, words := |text|, |split|;
  }

  /**
   * The letter counts are the number of times each letter occurs in the
   * lower-cased text, and only letters are counted.
   */
  lemma LetterCountsAreOccurrences(text: string)
    ensures forall c :: c in Tally(Letters(Lower(text))) ==> IsAlpha(c)
    ensures forall c :: c in Tally(Letters(Lower(text))) ==> Tally(Letters(Lower(text)))[c] == multiset(Letters(Lower(text)))[c]
  {
    TallyCounts(Letters(Lower(text)));
  }

  /** The word keys are non-empty and alphanumeric, and each counts its cleaned occurrences. */
  lemma WordCountsAreOccurrences(text: string)
    ensures forall w :: w in Tally(CleanWords(Words(Lower(text)))) ==> |w| > 0 && forall j :: 0 <= j < |w| ==> IsAlnum(w[j])
    ensures forall w :: w in Tally(CleanWords(Words(Lower(text)))) ==>
              Tally(CleanWords(Words(Lower(text))))[w] == multiset(CleanWords(Words(Lower(text))))[w]
  {
    TallyCounts(CleanWords(Words(Lower(text))));
    CleanWordsAreAlnum(Words(Lower(text)));
  }
}
