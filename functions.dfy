/**
 * The pure routines of the functions tutorial: splitting a name, the length
 * validator built by `create_validator`, the recursive definitions
 * (`factorial`, `fibonacci`, `sum_list_optimized`), the directory search
 * `find_files` and the shape-preserving `process_nested_data`.
 */
module Functions {
  import opened Wrappers
  import opened Text
  import opened Values

  // ----- get_name_parts -----

  /** `parts[0]` on an empty split raises IndexError. */
  datatype IndexError = IndexError

  /** `get_name_parts(full_name)`: the first and the last word (empty when there is one word). */
  function GetNameParts(fullName: string): (r: Result<(string, string), IndexError>)
    ensures r.Failure? <==> Words(fullName) == []
    ensures r.Success? ==> IsWord(r.value.0)
    ensures r.Success? ==> r.value.1 == "" || IsWord(r.value.1)
    // the first word is the first name
    ensures r.Success? ==> r.value.0 == Words(fullName)[0]
    // the last word is the last name when there are two words or more, and a
    // single word leaves the last name empty
    ensures r.Success? ==> (r.value.1 == "" <==> |Words(fullName)| == 1)
    ensures r.Success? && |Words(fullName)| > 1 ==> r.value.1 == Words(fullName)[|Words(fullName)| - 1]
  {
    var parts := Words(fullName);
    if |parts| == 0 then Failure(IndexError)
    else Success((parts[0], if |parts| > 1 then parts[|parts| - 1] else ""))
  }

  /** A name written as words joined by spaces splits into its first and last word. */
  lemma NamePartsOfJoinedWords(ws: seq<string>)
    requires |ws| > 0
    requires forall i :: 0 <= i < |ws| ==> IsWord(ws[i])
    ensures GetNameParts(JoinWords(ws)) == Success((ws[0], if |ws| > 1 then ws[|ws| - 1] else ""))
  {
    SplitJoin(ws);
  }

  // ----- create_validator -----

  datatype Check = Valid | MustBeString | TooShort(min: int) | TooLong(max: int) {
    /** The boolean half of the returned pair. */
    predicate Ok() {
      Valid?
    }

    /** The message half of the returned pair. */
    function Message(): string {
      match this
      case Valid => "Valid"
      case MustBeString => "Must be a string"
      case TooShort(m) => "Too short (min: " + ShowInt(m) + ")"
      case TooLong(m) => "Too long (max: " + ShowInt(m) + ")"
    }
  }

  /** The closure returned by `create_validator(min_length, max_length)`. */
  datatype Validator = Validator(minLength: int, maxLength: int) {
    /** `validate(text)`: type first, then the lower bound, then the upper bound. */
    function Validate(text: Value): (r: Check)
      ensures r.Ok() <==> text.Str? && minLength <= |text.s| <= maxLength
      ensures r == MustBeString <==> !text.Str?
      ensures r.TooShort? <==> text.Str? && |text.s| < minLength
      ensures r.TooLong? <==> text.Str? && minLength <= |text.s| && |text.s| > maxLength
      ensures r.TooShort? ==> r.min == minLength
      ensures r.TooLong? ==> r.max == maxLength
    {
      if !text.Str? then MustBeString
      else if |text.s| < minLength then TooShort(minLength)
      else if |text.s| > maxLength then TooLong(maxLength)
      else Valid
    }
  }

  /** `create_validator()` with its default bounds. */
  const DefaultValidator: Validator := Validator(1, 100)

  // ----- factorial and fibonacci -----

  /** `factorial(n)`: 1 for every n <= 1, negative n included. */
  function Factorial(n: int): (r: int)
    ensures r >= 1
    ensures n >= 1 ==> r >= n
  {
    if n <= 1 then 1 else n * Factorial(n - 1)
  }

  /** `factorial(n)` is a multiple of every k in 1..n: `q` is the quotient. */
  lemma {:induction false} FactorialMultipleOf(n: int, k: int) returns (q: int)
    requires 1 <= k <= n
    ensures Factorial(n) == k * q
  {
    if k < n {
      var q' := FactorialMultipleOf(n - 1, k);
      q := n * q';
      calc {
        Factorial(n);
        n * Factorial(n - 1);
        n * (k * q');
        { MulCommutesInside(n, k, q'); }
        k * (n * q');
      }
    } else if n > 1 {
      q := Factorial(n - 1);
    } else {
      q := 1;
    }
  }

  lemma MulCommutesInside(a: int, b: int, c: int)
    ensures a * (b * c) == b * (a * c)
  {
  }

  /** `fibonacci(n)`: n itself for every n <= 1, negative n included. */
  function Fibonacci(n: int): (r: int)
    ensures n <= 1 ==> r == n
    ensures n >= 0 ==> r >= 0
    ensures n >= 2 ==> r >= 1
  {
    if n <= 1 then n else Fibonacci(n - 1) + Fibonacci(n - 2)
  }

  /** A bottom-up reference: the pair (F(k), F(k+1)) built from (0, 1). */
  function FibonacciPair(k: nat): (int, int) {
    if k == 0 then (0, 1)
    else
      var p := FibonacciPair(k - 1);
      (p.1, p.0 + p.1)
  }

  lemma {:induction false} FibonacciAgreesWithPair(k: nat)
    ensures FibonacciPair(k) == (Fibonacci(k), Fibonacci(k + 1))
  {
    if k > 0 {
      FibonacciAgreesWithPair(k - 1);
      var p := FibonacciPair(k - 1);
      var q := FibonacciPair(k);
      assert q == (p.1, p.0 + p.1);
      assert q.0 == Fibonacci(k);
      assert Fibonacci(k + 1) == Fibonacci(k) + Fibonacci(k - 1);
      assert q.1 == Fibonacci(k + 1);
    }
  }

  lemma {:induction false} FibonacciMonotone(m: int, n: int)
    requires 0 <= m <= n
    ensures Fibonacci(m) <= Fibonacci(n)
    decreases n - m
  {
    if m < n {
      FibonacciMonotone(m, n - 1);
      if n >= 2 {
        assert Fibonacci(n) == Fibonacci(n - 1) + Fibonacci(n - 2);
      }
    }
  }

  // ----- sum_list_optimized -----

  /** The plain sum, as the reference. */
  function Sum(xs: seq<int>): int {
    if xs == [] then 0 else xs[0] + Sum(xs[1..])
  }

  /** `sum_list_optimized(numbers, accumulator)` */
  function SumListOptimized(numbers: seq<int>, accumulator: int): (r: int)
    // the accumulator version adds the plain sum of the list to the accumulator
    ensures r == accumulator + Sum(numbers)
  {
    if numbers == [] then accumulator
    else SumListOptimized(numbers[1..], accumulator + numbers[0])
  }

  // ----- find_files -----

  /**
   * An entry of a directory listing: a file name, a dictionary of
   * sub-directories (name to listing, in insertion order), or anything else.
   */
  datatype Item = File(fileName: string) | Folder(subdirs: seq<Subdir>) | OtherItem

  datatype Subdir = Subdir(dirName: string, contents: seq<Item>)

  /** The files of a listing that end with `ext`, depth first, left to right. */
  function FilesIn(items: seq<Item>, ext: string): seq<string>
    decreases items
  {
    if items == [] then [] else FilesInItem(items[0], ext) + FilesIn(items[1..], ext)
  }

  function FilesInItem(item: Item, ext: string): seq<string>
    decreases item
  {
    match item
    case File(name) => if EndsWith(name, ext) then [name] else []
    case Folder(subdirs) => FilesInSubdirs(subdirs, ext)
    case OtherItem => []
  }

  function FilesInSubdirs(subdirs: seq<Subdir>, ext: string): seq<string>
    decreases subdirs
  {
    if subdirs == [] then []
    else FilesIn(subdirs[0].contents, ext) + FilesInSubdirs(subdirs[1..], ext)
  }

  /** Every file leaf of a listing, depth first, left to right: the independent reference. */
  function Leaves(items: seq<Item>): seq<string>
    decreases items
  {
    if items == [] then [] else LeavesOfItem(items[0]) + Leaves(items[1..])
  }

  function LeavesOfItem(item: Item): seq<string>
    decreases item
  {
    match item
    case File(name) => [name]
    case Folder(subdirs) => LeavesOfSubdirs(subdirs)
    case OtherItem => []
  }

  function LeavesOfSubdirs(subdirs: seq<Subdir>): seq<string>
    decreases subdirs
  {
    if subdirs == [] then [] else Leaves(subdirs[0].contents) + LeavesOfSubdirs(subdirs[1..])
  }

  /** The names in `names` that end with `ext`, in order. */
  function EndingWith(names: seq<string>, ext: string): (r: seq<string>)
    ensures forall i :: 0 <= i < |r| ==> EndsWith(r[i], ext) && r[i] in names
  {
    if names == [] then []
    else (if EndsWith(names[0], ext) then [names[0]] else []) + EndingWith(names[1..], ext)
  }

  lemma {:induction false} EndingWithAppend(a: seq<string>, b: seq<string>, ext: string)
    ensures EndingWith(a + b, ext) == EndingWith(a, ext) + EndingWith(b, ext)
  {
    if a != [] {
      assert (a + b)[1..] == a[1..] + b;
      EndingWithAppend(a[1..], b, ext);
    } else {
      assert a + b == b;
    }
  }

  /**
   * `find_files` returns exactly the file leaves that end with the extension,
   * in depth-first order; directory names and other items never appear.
   */
  lemma {:induction false} FilesInAreMatchingLeaves(items: seq<Item>, ext: string)
    ensures FilesIn(items, ext) == EndingWith(Leaves(items), ext)
    decreases items
  {
    if items != [] {
      FilesInItemAreMatchingLeaves(items[0], ext);
      FilesInAreMatchingLeaves(items[1..], ext);
      EndingWithAppend(LeavesOfItem(items[0]), Leaves(items[1..]), ext);
    }
  }

  lemma {:induction false} FilesInItemAreMatchingLeaves(item: Item, ext: string)
    ensures FilesInItem(item, ext) == EndingWith(LeavesOfItem(item), ext)
    decreases item
  {
    match item
    case File(name) =>
      assert EndingWith([name], ext) == (if EndsWith(name, ext) then [name] else []) + EndingWith([], ext);
    case Folder(subdirs) => FilesInSubdirsAreMatchingLeaves(subdirs, ext);
    case OtherItem =>
  }

  lemma {:induction false} FilesInSubdirsAreMatchingLeaves(subdirs: seq<Subdir>, ext: string)
    ensures FilesInSubdirs(subdirs, ext) == EndingWith(LeavesOfSubdirs(subdirs), ext)
    decreases subdirs
  {
    if subdirs != [] {
      FilesInAreMatchingLeaves(subdirs[0].contents, ext);
      FilesInSubdirsAreMatchingLeaves(subdirs[1..], ext);
      EndingWithAppend(Leaves(subdirs[0].contents), LeavesOfSubdirs(subdirs[1..]), ext);
    }
  }

  lemma {:induction false} FilesInAppend(a: seq<Item>, b: seq<Item>, ext: string)
    ensures FilesIn(a + b, ext) == FilesIn(a, ext) + FilesIn(b, ext)
  {
    if a != [] {
      assert (a + b)[1..] == a[1..] + b;
      FilesInAppend(a[1..], b, ext);
    } else {
      assert a + b == b;
    }
  }

  lemma {:induction false} FilesInSubdirsAppend(a: seq<Subdir>, b: seq<Subdir>, ext: string)
    ensures FilesInSubdirs(a + b, ext) == FilesInSubdirs(a, ext) + FilesInSubdirs(b, ext)
  {
    if a != [] {
      assert (a + b)[1..] == a[1..] + b;
      FilesInSubdirsAppend(a[1..], b, ext);
    } else {
      assert a + b == b;
    }
  }

  /** One more item adds its own matches. */
  lemma FilesInSnoc(items: seq<Item>, item: Item, ext: string)
    ensures FilesIn(items + [item], ext) == FilesIn(items, ext) + FilesInItem(item, ext)
  {
    FilesInAppend(items, [item], ext);
    assert FilesIn([item], ext) == FilesInItem(item, ext) + FilesIn([], ext);
  }

  /** One more sub-directory adds the matches of its contents. */
  lemma FilesInSubdirsSnoc(subdirs: seq<Subdir>, sub: Subdir, ext: string)
    ensures FilesInSubdirs(subdirs + [sub], ext) == FilesInSubdirs(subdirs, ext) + FilesIn(sub.contents, ext)
  {
    FilesInSubdirsAppend(subdirs, [sub], ext);
    assert FilesInSubdirs([sub], ext) == FilesIn(sub.contents, ext) + FilesInSubdirs([], ext);
  }

  /**
   * `find_files(directory_structure, extension)`: walks the listing, extending
   * its local result with each sub-directory's matches and appending each
   * matching file.
   */
  method FindFiles(items: seq<Item>, ext: string) returns (found: seq<string>)
    ensures found == FilesIn(items, ext)
    decreases items
  {
    found := [];
    for i := 0 to |items|
      invariant found == FilesIn(items[..i], ext)
    {
      var item := items[i];
      match item {
        case Folder(subdirs) =>
          ghost var before := found;
          for j := 0 to |subdirs|
            invariant found == before + FilesInSubdirs(subdirs[..j], ext)
          {
            assert subdirs[j] in subdirs;
            var sub := FindFiles(subdirs[j].contents, ext);
            FilesInSubdirsSnoc(subdirs[..j], subdirs[j], ext);
            assert subdirs[..j + 1] == subdirs[..j] + [subdirs[j]];
            found := found + sub;
          }
          assert subdirs[..|subdirs|] == subdirs;
          assert found == FilesIn(items[..i], ext) + FilesInItem(item, ext);
        case File(name) =>
          if EndsWith(name, ext) {
            found := found + [name];
          }
          assert found == FilesIn(items[..i], ext) + FilesInItem(item, ext);
        case OtherItem =>
          assert found == FilesIn(items[..i], ext) + FilesInItem(item, ext);
      }
      FilesInSnoc(items[..i], item, ext);
      assert items[..i + 1] == items[..i] + [item];
    }
    assert items[..|items|] == items;
  }

  // ----- process_nested_data -----

  /** A plain value: anything but a dictionary, which nested data holds as `Dict`. */
  type Plain = v: Value | !v.Dictionary? witness NoneValue

  /**
   * Nested data: a dictionary (keys in insertion order), a list, or a plain
   * value. Every dictionary is a `Dict` node, so processing reaches into all
   * of them.
   */
  datatype Data = Dict(entries: seq<Field>) | List(elems: seq<Data>) | Atom(value: Plain)

  /** One key/value pair of a dictionary. */
  datatype Field = Field(key: string, val: Data)

  function Keys(entries: seq<Field>): (ks: seq<string>)
    ensures |ks| == |entries|
    ensures forall i :: 0 <= i < |entries| ==> ks[i] == entries[i].key
  {
    if entries == [] then [] else [entries[0].key] + Keys(entries[1..])
  }

  /**
   * `process_nested_data(data, processor_func)`: rebuilds dictionaries and
   * lists and applies the processor to everything else.
   */
  function ProcessNestedData(data: Data, processor: Data -> Data): (r: Data)
    ensures data.Dict? ==> r.Dict? && Keys(r.entries) == Keys(data.entries)
    ensures data.List? ==> r.List? && |r.elems| == |data.elems|
    // the values of a dictionary and the items of a list are processed in turn, at every depth
    ensures data.Dict? ==> forall i :: 0 <= i < |r.entries| ==>
              r.entries[i].val == ProcessNestedData(data.entries[i].val, processor)
    ensures data.List? ==> forall i :: 0 <= i < |r.elems| ==>
              r.elems[i] == ProcessNestedData(data.elems[i], processor)
    ensures data.Atom? ==> r == processor(data)
    decreases data
  {
    match data
    case Dict(entries) => Dict(ProcessEntries(entries, processor))
    case List(elems) => List(ProcessElems(elems, processor))
    case Atom(_) => processor(data)
  }

  function ProcessEntries(entries: seq<Field>, processor: Data -> Data): (r: seq<Field>)
    ensures |r| == |entries|
    ensures forall i :: 0 <= i < |r| ==> r[i].key == entries[i].key
    // every value, at every depth, is processed in turn
    ensures forall i :: 0 <= i < |r| ==> r[i].val == ProcessNestedData(entries[i].val, processor)
    decreases entries
  {
    if entries == [] then []
    else [Field(entries[0].key, ProcessNestedData(entries[0].val, processor))] + ProcessEntries(entries[1..], processor)
  }

  function ProcessElems(elems: seq<Data>, processor: Data -> Data): (r: seq<Data>)
    ensures |r| == |elems|
    ensures forall i :: 0 <= i < |r| ==> r[i] == ProcessNestedData(elems[i], processor)
    decreases elems
  {
    if elems == [] then []
    else [ProcessNestedData(elems[0], processor)] + ProcessElems(elems[1..], processor)
  }

  /** The data with every plain value erased: what processing must not change. */
  function Shape(data: Data): Data
    decreases data
  {
    match data
    case Dict(entries) => Dict(ShapeEntries(entries))
    case List(elems) => List(ShapeElems(elems))
    case Atom(_) => Atom(NoneValue)
  }

  function ShapeEntries(entries: seq<Field>): seq<Field>
    decreases entries
  {
    if entries == [] then [] else [Field(entries[0].key, Shape(entries[0].val))] + ShapeEntries(entries[1..])
  }

  function ShapeElems(elems: seq<Data>): seq<Data>
    decreases elems
  {
    if elems == [] then [] else [Shape(elems[0])] + ShapeElems(elems[1..])
  }

  /** A processor that maps plain values to plain values. */
  ghost predicate KeepsAtoms(processor: Data -> Data) {
    forall v :: processor(Atom(v)).Atom?
  }

  /** With such a processor the whole nesting (keys, lengths, container kinds) is kept. */
  lemma {:induction false} ProcessKeepsShape(data: Data, processor: Data -> Data)
    requires KeepsAtoms(processor)
    ensures Shape(ProcessNestedData(data, processor)) == Shape(data)
    decreases data
  {
    match data
    case Dict(entries) => ProcessEntriesKeepShape(entries, processor);
    case List(elems) => ProcessElemsKeepShape(elems, processor);
    case Atom(v) =>
  }

  lemma {:induction false} ProcessEntriesKeepShape(entries: seq<Field>, processor: Data -> Data)
    requires KeepsAtoms(processor)
    ensures ShapeEntries(ProcessEntries(entries, processor)) == ShapeEntries(entries)
    decreases entries
  {
    if entries != [] {
      ProcessKeepsShape(entries[0].val, processor);
      ProcessEntriesKeepShape(entries[1..], processor);
      var r := ProcessEntries(entries, processor);
      assert r[1..] == ProcessEntries(entries[1..], processor);
    }
  }

  lemma {:induction false} ProcessElemsKeepShape(elems: seq<Data>, processor: Data -> Data)
    requires KeepsAtoms(processor)
    ensures ShapeElems(ProcessElems(elems, processor)) == ShapeElems(elems)
    decreases elems
  {
    if elems != [] {
      ProcessKeepsShape(elems[0], processor);
      ProcessElemsKeepShape(elems[1..], processor);
      var r := ProcessElems(elems, processor);
      assert r[1..] == ProcessElems(elems[1..], processor);
    }
  }

  /** The plain values of nested data, depth first, in the order of keys and items. */
  function Atoms(data: Data): seq<Plain>
    decreases data
  {
    match data
    case Dict(entries) => AtomsEntries(entries)
    case List(elems) => AtomsElems(elems)
    case Atom(v) => [v]
  }

  function AtomsEntries(entries: seq<Field>): seq<Plain>
    decreases entries
  {
    if entries == [] then [] else Atoms(entries[0].val) + AtomsEntries(entries[1..])
  }

  function AtomsElems(elems: seq<Data>): seq<Plain>
    decreases elems
  {
    if elems == [] then [] else Atoms(elems[0]) + AtomsElems(elems[1..])
  }

  /** The processor applied to each plain value of a list, in order. */
  ghost function MapAtoms(vs: seq<Plain>, processor: Data -> Data): seq<Plain>
    requires KeepsAtoms(processor)
  {
    seq(|vs|, i requires 0 <= i < |vs| => processor(Atom(vs[i])).value)
  }

  lemma MapAtomsAppend(a: seq<Plain>, b: seq<Plain>, processor: Data -> Data)
    requires KeepsAtoms(processor)
    ensures MapAtoms(a + b, processor) == MapAtoms(a, processor) + MapAtoms(b, processor)
  {
  }

  /**
   * With a processor that maps plain values to plain values, the plain values
   * of the result are the processor applied to every plain value of the
   * data, at every depth and in the same order.
   */
  lemma {:induction false} AtomsProcessed(data: Data, processor: Data -> Data)
    requires KeepsAtoms(processor)
    ensures Atoms(ProcessNestedData(data, processor)) == MapAtoms(Atoms(data), processor)
    decreases data
  {
    match data
    case Dict(entries) => AtomsEntriesProcessed(entries, processor);
    case List(elems) => AtomsElemsProcessed(elems, processor);
    case Atom(v) =>
  }

  lemma {:induction false} AtomsEntriesProcessed(entries: seq<Field>, processor: Data -> Data)
    requires KeepsAtoms(processor)
    ensures AtomsEntries(ProcessEntries(entries, processor)) == MapAtoms(AtomsEntries(entries), processor)
    decreases entries
  {
    if entries != [] {
      AtomsProcessed(entries[0].val, processor);
      AtomsEntriesProcessed(entries[1..], processor);
      var r := ProcessEntries(entries, processor);
      assert r[1..] == ProcessEntries(entries[1..], processor);
      MapAtomsAppend(Atoms(entries[0].val), AtomsEntries(entries[1..]), processor);
    }
  }

  lemma {:induction false} AtomsElemsProcessed(elems: seq<Data>, processor: Data -> Data)
    requires KeepsAtoms(processor)
    ensures AtomsElems(ProcessElems(elems, processor)) == MapAtoms(AtomsElems(elems), processor)
    decreases elems
  {
    if elems != [] {
      AtomsProcessed(elems[0], processor);
      AtomsElemsProcessed(elems[1..], processor);
      var r := ProcessElems(elems, processor);
      assert r[1..] == ProcessElems(elems[1..], processor);
      MapAtomsAppend(Atoms(elems[0]), AtomsElems(elems[1..]), processor);
    }
  }

  /** Processing with the identity gives the data back. */
  lemma {:induction false} ProcessIdentity(data: Data)
    ensures ProcessNestedData(data, d => d) == data
    decreases data
  {
    match data
    case Dict(entries) => ProcessEntriesIdentity(entries);
    case List(elems) => ProcessElemsIdentity(elems);
    case Atom(_) =>
  }

  lemma {:induction false} ProcessEntriesIdentity(entries: seq<Field>)
    ensures ProcessEntries(entries, d => d) == entries
    decreases entries
  {
    if entries != [] {
      ProcessIdentity(entries[0].val);
      ProcessEntriesIdentity(entries[1..]);
    }
  }

  lemma {:induction false} ProcessElemsIdentity(elems: seq<Data>)
    ensures ProcessElems(elems, d => d) == elems
    decreases elems
  {
    if elems != [] {
      ProcessIdentity(elems[0]);
      ProcessElemsIdentity(elems[1..]);
    }
  }

  /** `uppercase_processor(value)`: upper-cases strings, leaves everything else. */
  function UppercaseProcessor(data: Data): (r: Data)
    // a string keeps its length and has no lower-case letter left
    ensures data.Atom? && data.value.Str? ==>
              r.Atom? && r.value.Str? && |r.value.s| == |data.value.s|
              && forall i :: 0 <= i < |r.value.s| ==> !IsLower(r.value.s[i])
    // characters that are not lower-case letters stay as they are
    ensures data.Atom? && data.value.Str? ==>
              forall i :: 0 <= i < |data.value.s| && !IsLower(data.value.s[i]) ==> r.value.s[i] == data.value.s[i]
    // lower-casing both gives the same string, so each letter becomes its own capital
    ensures data.Atom? && data.value.Str? ==> Lower(r.value.s) == Lower(data.value.s)
    // anything but a string comes back unchanged
    ensures !(data.Atom? && data.value.Str?) ==> r == data
  {
    match data
    case Atom(Str(s)) => Atom(Str(Upper(s)))
    case _ => data
  }

  /** Upper-casing the nested data keeps its shape. */
  lemma UppercaseKeepsShape(data: Data)
    ensures Shape(ProcessNestedData(data, UppercaseProcessor)) == Shape(data)
    ensures Atoms(ProcessNestedData(data, UppercaseProcessor)) == MapAtoms(Atoms(data), UppercaseProcessor)
  {
    ProcessKeepsShape(data, UppercaseProcessor);
    AtomsProcessed(data, UppercaseProcessor);
  }
}
