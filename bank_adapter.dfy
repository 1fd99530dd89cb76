/** AdaptadorBancario: the import of a bank's CSV export, one expense per
    line `date;amount;description;category` after a header line. Parsing a
    date (`LocalDate.parse`, ISO format) and a number (`Double.parseDouble`)
    are parameters of the model; a row whose parse, category or expense is
    refused is skipped, as the adapter's `catch` does. */
module BankAdapters {
  import opened Wrappers
  import opened Text
  import opened Ids
  import opened Calendar
  import opened Categories
  import opened Expenses
  import opened CategoryRegistries

  /** The description `buscarOCrearCategoria` gives a category it creates. */
  const ImportedDescription := "Importada automáticamente"

  /** What an import has produced so far: the expenses in file order, the
      categories of the registry, and the next identifier. */
  datatype Progress = Progress(expenses: seq<Expense>, categories: seq<Category>, next: Id)

  /** The fields of a line: the line trimmed, then split on `;`. */
  function Fields(line: string): seq<string> {
    Split(Trim(line), ';')
  }

  /** The amount field with every comma turned into a point. */
  function AmountText(field: string): (r: string)
    ensures |r| == |field| && ',' !in r
    ensures forall i :: 0 <= i < |field| ==> r[i] == (if field[i] == ',' then '.' else field[i])
  {
    Replace(field, ',', '.')
  }

  /** A line after the header, as the `try` of `parsear` reads it: skipped,
      or its date, amount, description and category name. */
  datatype Line = Skipped | Parsed(date: Date, amount: real, description: string, category: string)

  /** The reading of a line: one blank once trimmed is skipped, and so is
      one with fewer than four fields or whose date or amount does not
      parse; the description and the category name are the third and
      fourth fields as they stand. */
  function ReadLine(line: string, parseDate: string -> Option<Date>, parseAmount: string -> Option<real>): (r: Line)
    ensures Trim(line) == [] || |Fields(line)| < 4 ==> r == Skipped
    ensures r.Parsed? <==>
              Trim(line) != [] && |Fields(line)| >= 4 &&
              parseDate(Fields(line)[0]).Some? && parseAmount(AmountText(Fields(line)[1])).Some?
    ensures r.Parsed? ==>
              Some(r.date) == parseDate(Fields(line)[0]) && Some(r.amount) == parseAmount(AmountText(Fields(line)[1])) &&
              r.description == Fields(line)[2] && r.category == Fields(line)[3]
  {
    if Trim(line) == [] then Skipped
    else
      var f := Fields(line);
      if |f| < 4 then Skipped
      else
        match (parseDate(f[0]), parseAmount(AmountText(f[1])))
        case (Some(date), Some(amount)) => Parsed(date, amount, f[2], f[3])
        case _ => Skipped
  }

  /** The registry after `buscarOCrearCategoria`, the category it gives
      (or why there is none), and the next identifier. */
  datatype Filing = Filing(categories: seq<Category>, category: Result<Category>, next: Id)

  /** `buscarOCrearCategoria` on the registry's list: the category a name
      finds ignoring case, or else a new one with the next identifier and
      the import's description, added at the end; a blank name draws an
      identifier and adds nothing. Afterwards the name finds the category
      given. */
  function Register(categories: seq<Category>, name: string, next: Id): (r: Filing)
    ensures r.category == FindOrCreate(categories, name, ImportedDescription, next)
    ensures r.next == next + (if FindByName(categories, name).Some? then 0 else 1)
    ensures r.categories == categories + (if FindByName(categories, name).None? && r.category.Ok? then [r.category.value] else [])
    ensures r.category.Ok? ==> FindByName(r.categories, name) == Some(r.category.value)
    ensures UniqueNames(categories) ==> UniqueNames(r.categories)
  {
    var found := FindByName(categories, name);
    var c := FindOrCreate(categories, name, ImportedDescription, next);
    if found.Some? then Filing(categories, c, next)
    else if c.Err? then Filing(categories, c, next + 1)
    else
      EqualsIgnoreCaseFacts(name, name, name);
      assert (categories + [c.value])[|categories|] == c.value;
      Filing(categories + [c.value], c, next + 1)
  }

  /** The rest of the `try` of `parsear` once the date and the amount have
      parsed: the category is found or created, and only then is the
      expense built, with the next identifier; a negative amount is
      refused, but a category it created stays. At most one expense is
      added, at the end. */
  function Filed(p: Progress, date: Date, amount: real, description: string, name: string): (r: Progress)
    ensures p.next <= r.next
    ensures r.categories == p.categories ||
            (FindByName(p.categories, name).None? && r.categories == p.categories + [Category(p.next, name, ImportedDescription)])
    ensures UniqueNames(p.categories) ==> UniqueNames(r.categories)
    ensures !IsBlank(name) ==> FindByName(r.categories, name).Some?
    ensures amount < 0.0 ==> r.expenses == p.expenses
    ensures r.expenses == p.expenses || (|r.expenses| == |p.expenses| + 1 && r.expenses == p.expenses + [r.expenses[|p.expenses|]])
    ensures |r.expenses| != |p.expenses| <==> amount >= 0.0 && FindByName(r.categories, name).Some?
    ensures |r.expenses| != |p.expenses| ==>
              p.next < r.next &&
              r.expenses[|p.expenses|] == Expense(r.next - 1, amount, date, description, FindByName(r.categories, name), None)
  {
    var f := Register(p.categories, name, p.next);
    match f.category
    case Err(_) => Progress(p.expenses, f.categories, f.next)
    case Ok(c) =>
      match NewExpense(f.next, amount, date, description, Some(c))
      case Err(_) => Progress(p.expenses, f.categories, f.next + 1)
      case Ok(e) => Progress(p.expenses + [e], f.categories, f.next + 1)
  }

  /** One pass of the loop of `parsear`. */
  function Row(p: Progress, line: Line): Progress {
    match line
    case Skipped => p
    case Parsed(date, amount, description, name) => Filed(p, date, amount, description, name)
  }

  /** The loop of `parsear` over the lines after the header, in file order. */
  function Rows(p: Progress, lines: seq<Line>): (r: Progress)
    decreases |lines|
    ensures p.expenses <= r.expenses && |r.expenses| <= |p.expenses| + |lines|
    ensures p.categories <= r.categories && p.next <= r.next
    ensures UniqueNames(p.categories) ==> UniqueNames(r.categories)
  {
    if |lines| == 0 then p
    else Row(Rows(p, lines[..|lines| - 1]), lines[|lines| - 1])
  }

  /** The readings of the lines, in order. */
  function ReadLines(lines: seq<string>, parseDate: string -> Option<Date>, parseAmount: string -> Option<real>): (r: seq<Line>)
    ensures |r| == |lines|
    ensures forall i :: 0 <= i < |lines| ==> r[i] == ReadLine(lines[i], parseDate, parseAmount)
  {
    seq(|lines|, i requires 0 <= i < |lines| => ReadLine(lines[i], parseDate, parseAmount))
  }

  /** The lines of the content after the first, which is the header. */
  function Body(content: string): seq<string> {
    var lines := Split(content, '\n');
    if |lines| == 0 then [] else lines[1..]
  }

  /** `parsear` as a whole. */
  function Import(content: string, categories: seq<Category>, next: Id,
                  parseDate: string -> Option<Date>, parseAmount: string -> Option<real>): Progress
  {
    Rows(Progress([], categories, next), ReadLines(Body(content), parseDate, parseAmount))
  }

  /** What an expense the import adds looks like: an amount of at least 0,
      no payer, a category of the registry, and an identifier from `lo`
      (included) to `hi` (excluded). */
  predicate Imported(e: Expense, categories: seq<Category>, lo: Id, hi: Id) {
    e.amount >= 0.0 && e.payer.None? && e.category.Some? && e.category.value in categories && lo <= e.id < hi
  }

  /** One pass of the loop adds at most one expense, at the end, and it is
      `Imported` with an identifier from the one the pass started at. */
  lemma RowStep(q: Progress, line: Line)
    ensures var r := Row(q, line);
      q.expenses <= r.expenses && |r.expenses| <= |q.expenses| + 1 &&
      q.categories <= r.categories && q.next <= r.next &&
      (|r.expenses| > |q.expenses| ==> Imported(r.expenses[|q.expenses|], r.categories, q.next, r.next))
  {
    var r := Row(q, line);
    if |r.expenses| > |q.expenses| {
      var e := r.expenses[|q.expenses|];
      assert e.category.value in r.categories;
    }
  }

  /** The loop over the first `k + 1` lines is one pass more than the
      loop over the first `k`. */
  lemma RowsTake(p: Progress, lines: seq<Line>, k: nat)
    requires k < |lines|
    ensures Rows(p, lines[..k + 1]) == Row(Rows(p, lines[..k]), lines[k])
  {
    assert lines[..k + 1][..k] == lines[..k];
  }

  /** Every expense the loop adds is `Imported`. */
  lemma {:induction false} RowsImported(p: Progress, lines: seq<Line>)
    ensures forall k :: |p.expenses| <= k < |Rows(p, lines).expenses| ==>
      Imported(Rows(p, lines).expenses[k], Rows(p, lines).categories, p.next, Rows(p, lines).next)
    decreases |lines|
  {
    if |lines| > 0 {
      var q := Rows(p, lines[..|lines| - 1]);
      var r := Row(q, lines[|lines| - 1]);
      RowsImported(p, lines[..|lines| - 1]);
      assert forall k :: |p.expenses| <= k < |q.expenses| ==> Imported(q.expenses[k], q.categories, p.next, q.next);
      RowStep(q, lines[|lines| - 1]);
      forall k | |p.expenses| <= k < |r.expenses|
        ensures Imported(r.expenses[k], r.categories, p.next, r.next)
      {
        if k < |q.expenses| {
          assert Imported(q.expenses[k], q.categories, p.next, q.next);
          assert r.expenses[k] == r.expenses[..|q.expenses|][k];
        }
      }
    }
  }

  /** The identifiers of the expenses the loop adds increase in file order. */
  lemma {:induction false} RowsIncreasing(p: Progress, lines: seq<Line>)
    ensures forall j, k :: |p.expenses| <= j < k < |Rows(p, lines).expenses| ==>
      Rows(p, lines).expenses[j].id < Rows(p, lines).expenses[k].id
    decreases |lines|
  {
    if |lines| > 0 {
      var q := Rows(p, lines[..|lines| - 1]);
      var r := Row(q, lines[|lines| - 1]);
      RowsIncreasing(p, lines[..|lines| - 1]);
      RowsImported(p, lines[..|lines| - 1]);
      RowStep(q, lines[|lines| - 1]);
      forall j, k | |p.expenses| <= j < k < |r.expenses|
        ensures r.expenses[j].id < r.expenses[k].id
      {
        assert r.expenses[j] == q.expenses[j] by {
          assert r.expenses[j] == r.expenses[..|q.expenses|][j];
        }
        assert Imported(q.expenses[j], q.categories, p.next, q.next);
        if k < |q.expenses| {
          assert r.expenses[k] == r.expenses[..|q.expenses|][k];
        }
      }
    }
  }

  /** Every imported expense is `Imported` and no two share an identifier;
      the registry keeps its names unique and only gains categories; there
      are no more expenses than lines after the header. */
  lemma ImportFacts(content: string, categories: seq<Category>, next: Id,
                    parseDate: string -> Option<Date>, parseAmount: string -> Option<real>)
    requires UniqueNames(categories)
    ensures var r := Import(content, categories, next, parseDate, parseAmount);
      UniqueNames(r.categories) && categories <= r.categories &&
      |r.expenses| <= |Body(content)| &&
      (forall k :: 0 <= k < |r.expenses| ==> Imported(r.expenses[k], r.categories, next, r.next)) &&
      forall j, k :: 0 <= j < k < |r.expenses| ==> r.expenses[j].id != r.expenses[k].id
  {
    var lines := ReadLines(Body(content), parseDate, parseAmount);
    var p := Progress([], categories, next);
    RowsImported(p, lines);
    RowsIncreasing(p, lines);
  }

  /** Content with fewer than two lines imports nothing: its only line is
      the header. */
  lemma HeaderOnlyImportsNothing(content: string, categories: seq<Category>, next: Id,
                                 parseDate: string -> Option<Date>, parseAmount: string -> Option<real>)
    requires |Split(content, '\n')| <= 1
    ensures Import(content, categories, next, parseDate, parseAmount) == Progress([], categories, next)
  {
  }

  /** The lines are taken one after the other: the loop over two runs of
      lines is the loop over the second from where the first left off. */
  lemma {:induction false} RowsAppend(p: Progress, a: seq<Line>, b: seq<Line>)
    ensures Rows(p, a + b) == Rows(Rows(p, a), b)
    decreases |b|
  {
    if |b| == 0 {
      assert a + b == a;
    } else {
      assert (a + b)[..|a + b| - 1] == a + b[..|b| - 1];
      RowsAppend(p, a, b[..|b| - 1]);
    }
  }

  /** A skipped line can be dropped from anywhere in the file without
      changing the outcome. */
  lemma SkippedLineIgnored(p: Progress, a: seq<Line>, b: seq<Line>)
    ensures Rows(p, a + [Skipped] + b) == Rows(p, a + b)
  {
    RowsAppend(p, a + [Skipped], b);
    RowsAppend(p, a, [Skipped]);
    RowsAppend(p, a, b);
    assert [Skipped][..0] == [];
  }

  /** A row with a negative amount adds no expense, yet the category it
      names, when new and not blank, is registered all the same. */
  lemma NegativeRowKeepsCategory(p: Progress, date: Date, amount: real, description: string, name: string)
    requires amount < 0.0 && !IsBlank(name) && FindByName(p.categories, name).None?
    ensures Row(p, Parsed(date, amount, description, name)).expenses == p.expenses
    ensures Row(p, Parsed(date, amount, description, name)).categories == p.categories + [Category(p.next, name, ImportedDescription)]
  {
    var r := Filed(p, date, amount, description, name);
    assert FindByName(r.categories, name).Some?;
  }

  /** `puedeManear`: the content has a `;` and more than one line, which
      is to say some line break is followed, somewhere later, by a character
      other than a line break. */
  function CanHandle(content: string): (r: bool)
    ensures r <==> ';' in content && exists i, j :: 0 <= i < j < |content| && content[i] == '\n' && content[j] != '\n'
  {
    SplitMany(content, '\n');
    ';' in content && |Split(content, '\n')| > 1
  }

  /** What `puedeManear` refuses for having a single line, `parsear` would
      import nothing from. */
  lemma RefusedImportsNothing(content: string, categories: seq<Category>, next: Id,
                              parseDate: string -> Option<Date>, parseAmount: string -> Option<real>)
    requires ';' in content && !CanHandle(content)
    ensures Import(content, categories, next, parseDate, parseAmount) == Progress([], categories, next)
  {
    HeaderOnlyImportsNothing(content, categories, next, parseDate, parseAmount);
  }

  class BankAdapter {
    const registry: CategoryRegistry
    const ids: IdSupply

    constructor (registry: CategoryRegistry, ids: IdSupply)
      ensures this.registry == registry && this.ids == ids
    {
      this.registry := registry;
      this.ids := ids;
    }

    /** The body of the loop of `parsear` for one line, given the expenses
        found so far: each failure skips the line. */
    method ParseLine(line: string, ghost done: seq<Expense>,
                     parseDate: string -> Option<Date>, parseAmount: string -> Option<real>) returns (e: Option<Expense>)
      requires registry.Valid()
      modifies registry, ids
      ensures registry.Valid()
      ensures Row(Progress(done, old(registry.categories), old(ids.next)), ReadLine(line, parseDate, parseAmount)) ==
              Progress(done + (if e.Some? then [e.value] else []), registry.categories, ids.next)
    {
      ghost var read := ReadLine(line, parseDate, parseAmount);
      var trimmed := Trim(line);
      if trimmed == [] {
        assert read == Skipped;
        return None;
      }
      var fields := Split(trimmed, ';');
      assert fields == Fields(line);
      if |fields| < 4 {
        assert read == Skipped;
        return None;
      }
      var date := parseDate(fields[0]);
      if date.None? {
        assert read == Skipped;
        return None;
      }
      var amount := parseAmount(AmountText(fields[1]));
      if amount.None? {
        assert read == Skipped;
        return None;
      }
      assert read == Parsed(date.value, amount.value, fields[2], fields[3]);
      e := File(date.value, amount.value, fields[2], fields[3], done);
    }

    /** `buscarOCrearCategoria`, then `new Gasto`, for a row whose date
        and amount have parsed. */
    method File(date: Date, amount: real, description: string, name: string, ghost done: seq<Expense>)
        returns (e: Option<Expense>)
      requires registry.Valid()
      modifies registry, ids
      ensures registry.Valid()
      ensures Filed(Progress(done, old(registry.categories), old(ids.next)), date, amount, description, name) ==
              Progress(done + (if e.Some? then [e.value] else []), registry.categories, ids.next)
    {
      ghost var p := Progress(done, registry.categories, ids.next);
      var c := registry.FindOrAdd(name, ImportedDescription, ids);
      ghost var f := Register(p.categories, name, p.next);
      assert f == Filing(registry.categories, c, ids.next);
      e := None;
      if c.Ok? {
        var id := ids.Fresh();
        var made := NewExpense(id, amount, date, description, Some(c.value));
        if made.Ok? {
          e := Some(made.value);
        }
      }
    }

    /** The loop of `parsear` over the lines after the header. */
    method ParseLines(rest: seq<string>, parseDate: string -> Option<Date>, parseAmount: string -> Option<real>)
        returns (expenses: seq<Expense>)
      requires registry.Valid()
      modifies registry, ids
      ensures registry.Valid()
      ensures Rows(Progress([], old(registry.categories), old(ids.next)), ReadLines(rest, parseDate, parseAmount)) ==
              Progress(expenses, registry.categories, ids.next)
    {
      ghost var read := ReadLines(rest, parseDate, parseAmount);
      ghost var start := Progress([], registry.categories, ids.next);
      expenses := [];
      for k := 0 to |rest|
        invariant registry.Valid()
        invariant Rows(start, read[..k]) == Progress(expenses, registry.categories, ids.next)
      {
        var e := ParseLine(rest[k], expenses, parseDate, parseAmount);
        RowsTake(start, read, k);
        if e.Some? {
          expenses := expenses + [e.value];
        }
      }
      assert read[..|rest|] == read;
    }

    /** `parsear`: the expenses of the content in file order; the registry
        gains the categories the rows create. */
    method Parse(content: string, parseDate: string -> Option<Date>, parseAmount: string -> Option<real>)
        returns (expenses: seq<Expense>)
      requires registry.Valid()
      modifies registry, ids
      ensures registry.Valid()
      ensures Import(content, old(registry.categories), old(ids.next), parseDate, parseAmount) ==
              Progress(expenses, registry.categories, ids.next)
    {
      var lines := Split(content, '\n');
      expenses := ParseLines(if |lines| == 0 then [] else lines[1..], parseDate, parseAmount);
    }
  }
}
