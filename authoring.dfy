/**
 * `Recipe.write`: author a recipe from console input.
 *
 * The file is written line by line: the name, "{servings} Servings", a
 * placeholder nutrition line, "Ingredients", the column header, each
 * ingredient line (lower-cased) until the `q`/`Q` sentinel, "Recipe", and the
 * numbered steps until the next sentinel. The totals are then computed, the
 * file is read back with `readlines`, its third line is replaced by the
 * `nutrition` text (which has no line terminator) and the file is written out
 * again and parsed.
 *
 * Console input is two sequences of lines, one per loop; running out of
 * input before the sentinel is an EOFError.
 */
module Authoring {
  import opened Wrappers
  import opened Text
  import opened Recipes
  import opened Ingredients

  datatype WriteError =
    | EndOfInput                                         // `input()` at end of input: EOFError
    | BadIngredient(line: string, cause: IngredientError) // `Ingredient.from_recipe` raised
    | ZeroServings                                       // `// servings` with servings == 0: ZeroDivisionError
    | BadRecipe(reason: ParseError)                      // the closing `cls(recipe_filepath)` raised

  /** The ingredient lines as written, and the table rows they resolved to. */
  datatype Entries = Entries(lines: seq<string>, rows: seq<Ingredient>)

  /** The file's final lines and the recipe parsed back from it. */
  datatype Written = Written(lines: seq<string>, recipe: Recipe)

  const Placeholder: string := "X cal | X P | X C | X F\n"
  const IngredientsHeading: string := "Ingredients\n"
  const ColumnHeader: string := "quantity\tunit\tingredient\n"
  const RecipeHeading: string := "Recipe\n"

  // ---------------------------------------------------------------------------
  // The two input loops

  function Extend(lines: seq<string>, rows: seq<Ingredient>, r: Result<Entries, WriteError>): Result<Entries, WriteError> {
    match r
    case Ok(e) => Ok(Entries(lines + e.lines, rows + e.rows))
    case Err(x) => Err(x)
  }

  /**
   * The ingredient loop from input line `i` on: lower-case each line, stop at the
   * sentinel, otherwise resolve it against the bank.
   */
  function ReadIngredients(input: seq<LineText>, i: nat, bank: Bank): Result<Entries, WriteError>
    requires i <= |input| && ValidBank(bank)
    decreases |input| - i
  {
    if i == |input| then Err(EndOfInput)
    else
      var raw := Lower(input[i]);
      if IsQuit(raw) then Ok(Entries([], []))
      else
        match FromRecipe(raw, bank)
        case Err(e) => Err(BadIngredient(raw, e))
        case Ok(ing) => Extend([raw], [ing], ReadIngredients(input, i + 1, bank))
  }

  /** The step loop from input line `i` on: the lines before the sentinel. */
  function ReadSteps(input: seq<LineText>, i: nat): Result<seq<string>, WriteError>
    requires i <= |input|
    decreases |input| - i
  {
    if i == |input| then Err(EndOfInput)
    else if IsQuit(input[i]) then Ok([])
    else
      match ReadSteps(input, i + 1)
      case Ok(rest) => Ok([input[i]] + rest)
      case Err(e) => Err(e)
  }

  function ExtendSteps(steps: seq<string>, r: Result<seq<string>, WriteError>): Result<seq<string>, WriteError> {
    match r
    case Ok(rest) => Ok(steps + rest)
    case Err(x) => Err(x)
  }

  /**
   * The ingredient lines written are the lower-cased input lines before the first
   * sentinel, in order, each resolved against the bank; without a sentinel the
   * loop fails.
   */
  lemma {:induction false} ReadIngredientsMeaning(input: seq<LineText>, i: nat, bank: Bank)
    requires i <= |input| && ValidBank(bank)
    ensures var r := ReadIngredients(input, i, bank);
            r.Ok? ==> var n := |r.value.lines|;
                      n == |r.value.rows| && i + n < |input| && IsQuit(Lower(input[i + n]))
                      && forall k :: 0 <= k < n ==> r.value.lines[k] == Lower(input[i + k]) && !IsQuit(r.value.lines[k])
    decreases |input| - i
  {
    if i < |input| && IsQuit(Lower(input[i])) {
      assert ReadIngredients(input, i, bank) == Ok(Entries([], []));
      assert i + 0 == i;
    } else if i < |input| && FromRecipe(Lower(input[i]), bank).Ok? {
      ReadIngredientsMeaning(input, i + 1, bank);
      var raw := Lower(input[i]);
      var rest := ReadIngredients(input, i + 1, bank);
      assert ReadIngredients(input, i, bank) == Extend([raw], [FromRecipe(raw, bank).value], rest);
      if rest.Ok? {
        var lines := [raw] + rest.value.lines;
        assert i + |lines| == (i + 1) + |rest.value.lines|;
        forall k | 0 <= k < |lines| ensures lines[k] == Lower(input[i + k]) && !IsQuit(lines[k]) {
          if k == 0 {
            assert lines[k] == raw;
          } else {
            assert lines[k] == rest.value.lines[k - 1];
            assert rest.value.lines[k - 1] == Lower(input[(i + 1) + (k - 1)]);
            assert (i + 1) + (k - 1) == i + k;
          }
        }
      }
    }
  }

  /** Each table row is what `Ingredient.from_recipe` makes of the matching line. */
  lemma {:induction false} ReadIngredientsRows(input: seq<LineText>, i: nat, bank: Bank)
    requires i <= |input| && ValidBank(bank)
    ensures var r := ReadIngredients(input, i, bank);
            r.Ok? ==> |r.value.lines| == |r.value.rows|
                      && forall k :: 0 <= k < |r.value.rows| ==> FromRecipe(r.value.lines[k], bank) == Ok(r.value.rows[k])
    decreases |input| - i
  {
    if i < |input| && !IsQuit(Lower(input[i])) && FromRecipe(Lower(input[i]), bank).Ok? {
      ReadIngredientsRows(input, i + 1, bank);
    }
  }

  /** Without a sentinel line the ingredient loop fails. */
  lemma {:induction false} NoSentinelNoIngredients(input: seq<LineText>, i: nat, bank: Bank)
    requires i <= |input| && ValidBank(bank)
    requires forall k :: i <= k < |input| ==> !IsQuit(Lower(input[k]))
    ensures ReadIngredients(input, i, bank).Err?
    decreases |input| - i
  {
    if i < |input| {
      NoSentinelNoIngredients(input, i + 1, bank);
    }
  }

  /**
   * The steps are the input lines before the first sentinel, in order; the loop
   * fails with end of input exactly when there is no sentinel.
   */
  lemma {:induction false} ReadStepsMeaning(input: seq<LineText>, i: nat)
    requires i <= |input|
    ensures var r := ReadSteps(input, i);
            r.Ok? ==> var n := |r.value|;
                      i + n < |input| && IsQuit(input[i + n])
                      && forall k :: 0 <= k < n ==> r.value[k] == input[i + k] && !IsQuit(input[i + k])
    ensures ReadSteps(input, i).Err? <==> forall k :: i <= k < |input| ==> !IsQuit(input[k])
    ensures ReadSteps(input, i).Err? ==> ReadSteps(input, i).error == EndOfInput
    decreases |input| - i
  {
    if i < |input| {
      if IsQuit(input[i]) {
        assert !(forall k :: i <= k < |input| ==> !IsQuit(input[k])) by { assert IsQuit(input[i]); }
      } else {
        ReadStepsMeaning(input, i + 1);
        var r := ReadSteps(input, i + 1);
        if r.Ok? {
          assert IsQuit(input[i + 1 + |r.value|]);
        }
      }
    }
  }

  // ---------------------------------------------------------------------------
  // The file

  /** `f'{n}. {step}\n'`. */
  function StepLine(n: int, step: string): string {
    IntToString(n) + ". " + step + "\n"
  }

  function Terminated(ls: seq<string>): (r: seq<string>)
    ensures |r| == |ls| && forall k :: 0 <= k < |ls| ==> r[k] == ls[k] + "\n"
  {
    seq(|ls|, k requires 0 <= k < |ls| => ls[k] + "\n")
  }

  /** The steps as written, numbered from 1. */
  function Numbered(steps: seq<string>): (r: seq<string>)
    ensures |r| == |steps| && forall k :: 0 <= k < |steps| ==> r[k] == StepLine(k + 1, steps[k])
  {
    seq(|steps|, k requires 0 <= k < |steps| => StepLine(k + 1, steps[k]))
  }

  /** The first five lines, written before any ingredient is entered. */
  function Preamble(name: string, servings: int): seq<string> {
    [name + "\n", IntToString(servings) + " Servings\n", Placeholder, IngredientsHeading, ColumnHeader]
  }

  /** The lines of the file as first written. */
  function Draft(name: string, servings: int, entries: seq<string>, steps: seq<string>): seq<string> {
    Preamble(name, servings) + Terminated(entries) + [RecipeHeading] + Numbered(steps)
  }

  /** The lines of the file after its third line is replaced by the computed nutrition. */
  function Rewritten(name: string, servings: int, e: Entries, steps: seq<string>): seq<string>
    requires servings != 0
  {
    Draft(name, servings, e.lines, steps)[2 := NutritionText(Totals(e.rows, servings))]
  }

  /** What `Recipe.write` produces, or the exception it raises. */
  function Authored(name: string, servings: int, ingredientInput: seq<LineText>, stepInput: seq<LineText>,
                    bank: Bank): Result<Written, WriteError>
    requires ValidBank(bank)
  {
    var e :- ReadIngredients(ingredientInput, 0, bank);
    var steps :- ReadSteps(stepInput, 0);
    if servings == 0 then Err(ZeroServings)
    else
      var lines := Rewritten(name, servings, e, steps);
      match ParseRecipe(Concat(lines))
      case Err(pe) => Err(BadRecipe(pe))
      case Ok(recipe) => Ok(Written(lines, recipe))
  }

  lemma ExtendNothing(r: Result<Entries, WriteError>)
    ensures Extend([], [], r) == r
  {
    if r.Ok? {
      assert [] + r.value.lines == r.value.lines && [] + r.value.rows == r.value.rows;
    }
  }

  lemma ExtendExtend(a: seq<string>, b: seq<Ingredient>, c: seq<string>, d: seq<Ingredient>, r: Result<Entries, WriteError>)
    ensures Extend(a, b, Extend(c, d, r)) == Extend(a + c, b + d, r)
  {
    if r.Ok? {
      assert a + (c + r.value.lines) == (a + c) + r.value.lines;
      assert b + (d + r.value.rows) == (b + d) + r.value.rows;
    }
  }

  /** One more ingredient line entered: the loop's view of what is left to read moves on by one. */
  lemma ReadOneIngredient(input: seq<LineText>, i: nat, bank: Bank, entries: seq<string>, rows: seq<Ingredient>)
    requires i < |input| && ValidBank(bank)
    requires !IsQuit(Lower(input[i])) && FromRecipe(Lower(input[i]), bank).Ok?
    ensures var raw := Lower(input[i]);
            Extend(entries, rows, ReadIngredients(input, i, bank))
            == Extend(entries + [raw], rows + [FromRecipe(raw, bank).value], ReadIngredients(input, i + 1, bank))
  {
    var raw := Lower(input[i]);
    ExtendExtend(entries, rows, [raw], [FromRecipe(raw, bank).value], ReadIngredients(input, i + 1, bank));
  }

  /** One more step entered: the loop's view of what is left to read moves on by one. */
  lemma ReadOneStep(input: seq<LineText>, j: nat, steps: seq<string>)
    requires j < |input| && !IsQuit(input[j])
    ensures ExtendSteps(steps, ReadSteps(input, j)) == ExtendSteps(steps + [input[j]], ReadSteps(input, j + 1))
  {
    var rest := ReadSteps(input, j + 1);
    if rest.Ok? {
      assert ReadSteps(input, j) == Ok([input[j]] + rest.value);
      assert steps + ([input[j]] + rest.value) == (steps + [input[j]]) + rest.value;
    }
  }

  lemma TerminatedSnoc(ls: seq<string>, x: string)
    ensures Terminated(ls + [x]) == Terminated(ls) + [x + "\n"]
  {
  }

  lemma NumberedSnoc(steps: seq<string>, x: string)
    ensures Numbered(steps + [x]) == Numbered(steps) + [StepLine(|steps| + 1, x)]
  {
  }

  // ---------------------------------------------------------------------------
  // The method

  /**
   * The ingredient loop of `Recipe.write`: read lines until the sentinel, write each
   * (lower-cased) line and add the ingredient it names to a fresh table.
   */
  method EnterIngredients(input: seq<LineText>, bank: Bank)
    returns (r: Result<Entries, WriteError>, written: seq<string>, list: IngredientList)
    requires ValidBank(bank)
    ensures r == ReadIngredients(input, 0, bank)
    ensures fresh(list) && list.Valid() && list.totals == map[]
    ensures r.Ok? ==> written == Terminated(r.value.lines) && list.rows == r.value.rows
  {
    list := new IngredientList();
    written := [];
    ExtendNothing(ReadIngredients(input, 0, bank));
    var entries: seq<string> := [];
    var i := 0;
    while true
      invariant 0 <= i <= |input| && |entries| == i
      invariant fresh(list) && list.Valid() && list.totals == map[]
      invariant forall k :: 0 <= k < i ==> entries[k] == Lower(input[k])
      invariant written == Terminated(entries)
      invariant ReadIngredients(input, 0, bank) == Extend(entries, list.rows, ReadIngredients(input, i, bank))
      decreases |input| - i
    {
      if i == |input| {
        return Err(EndOfInput), written, list;
      }
      var raw := Lower(input[i]);
      if IsQuit(raw) {
        break;
      }
      written := written + [raw + "\n"];
      var ing := FromRecipe(raw, bank);
      if ing.Err? {
        return Err(BadIngredient(raw, ing.error)), written, list;
      }
      ReadOneIngredient(input, i, bank, entries, list.rows);
      TerminatedSnoc(entries, raw);
      list.AddIngredient(ing.value);
      entries := entries + [raw];
      i := i + 1;
    }
    assert entries + [] == entries && list.rows + [] == list.rows;
    r := Ok(Entries(entries, list.rows));
  }

  /** The step loop of `Recipe.write`: read lines until the sentinel and write each one numbered. */
  method EnterSteps(input: seq<LineText>) returns (r: Result<seq<string>, WriteError>, written: seq<string>)
    ensures r == ReadSteps(input, 0)
    ensures r.Ok? ==> written == Numbered(r.value)
  {
    written := [];
    var steps: seq<string> := [];
    assert ExtendSteps([], ReadSteps(input, 0)) == ReadSteps(input, 0) by {
      if ReadSteps(input, 0).Ok? { assert [] + ReadSteps(input, 0).value == ReadSteps(input, 0).value; }
    }
    var stepNum := 1;
    var j := 0;
    while true
      invariant 0 <= j <= |input| && |steps| == j && stepNum == j + 1
      invariant forall k :: 0 <= k < j ==> steps[k] == input[k] && !IsQuit(input[k])
      invariant written == Numbered(steps)
      invariant ReadSteps(input, 0) == ExtendSteps(steps, ReadSteps(input, j))
      decreases |input| - j
    {
      if j == |input| {
        return Err(EndOfInput), written;
      }
      var step := input[j];
      if IsQuit(step) {
        break;
      }
      NumberedSnoc(steps, step);
      ReadOneStep(input, j, steps);
      written := written + [StepLine(stepNum, step)];
      steps := steps + [step];
      stepNum := stepNum + 1;
      j := j + 1;
    }
    assert steps + [] == steps;
    r := Ok(steps);
  }

  /** `Recipe.write(cookbook, name)` with its console input given as two sequences. */
  method Write(name: LineText, servings: int, ingredientInput: seq<LineText>, stepInput: seq<LineText>, bank: Bank)
    returns (r: Result<Written, WriteError>)
    requires ValidBank(bank)
    ensures r == Authored(name, servings, ingredientInput, stepInput, bank)
  {
    var draft := Preamble(name, servings);
    var entered, ingredientLines, list := EnterIngredients(ingredientInput, bank);
    if entered.Err? {
      return Err(entered.error);
    }
    draft := draft + ingredientLines + [RecipeHeading];
    var steps, stepLines := EnterSteps(stepInput);
    if steps.Err? {
      return Err(steps.error);
    }
    draft := draft + stepLines;
    var ok := list.CalculateNutrition(servings);
    if !ok {
      return Err(ZeroServings);
    }
    var lines := SplitLines(Concat(draft));
    InputDraftReadsBack(name, servings, ingredientInput, stepInput, bank);
    lines := lines[2 := list.Nutrition()];
    assert lines == Rewritten(name, servings, entered.value, steps.value);
    match ParseRecipe(Concat(lines))
    case Err(pe) => r := Err(BadRecipe(pe));
    case Ok(recipe) => r := Ok(Written(lines, recipe));
  }

  // ---------------------------------------------------------------------------
  // Properties

  predicate AllLines(ls: seq<string>) {
    forall k :: 0 <= k < |ls| ==> IsLine(ls[k])
  }

  lemma LineOf(s: string)
    requires NoLineBreak(s)
    ensures IsLine(s + "\n")
  {
    assert (s + "\n")[..|s|] == s;
  }

  lemma PlaceholderIsLine() ensures IsLine(Placeholder) { }
  lemma IngredientsHeadingIsLine() ensures IsLine(IngredientsHeading) { }
  lemma ColumnHeaderIsLine() ensures IsLine(ColumnHeader) { }
  lemma RecipeHeadingIsLine() ensures IsLine(RecipeHeading) { }

  lemma ServingsIsLine(servings: int)
    ensures IsLine(IntToString(servings) + " Servings\n")
  {
    var x := IntToString(servings) + " Servings";
    LineOf(x);
    assert x + "\n" == IntToString(servings) + " Servings\n";
  }

  lemma PreambleLines(name: LineText, servings: int)
    ensures AllLines(Preamble(name, servings))
  {
    LineOf(name);
    ServingsIsLine(servings);
    PlaceholderIsLine();
    IngredientsHeadingIsLine();
    ColumnHeaderIsLine();
  }

  lemma TerminatedLines(ls: seq<string>)
    requires forall k :: 0 <= k < |ls| ==> NoLineBreak(ls[k])
    ensures AllLines(Terminated(ls))
  {
    forall k | 0 <= k < |ls| ensures IsLine(Terminated(ls)[k]) {
      LineOf(ls[k]);
    }
  }

  lemma NumberedLines(steps: seq<string>)
    requires forall k :: 0 <= k < |steps| ==> NoLineBreak(steps[k])
    ensures AllLines(Numbered(steps))
  {
    forall k | 0 <= k < |steps| ensures IsLine(Numbered(steps)[k]) {
      LineOf(IntToString(k + 1) + ". " + steps[k]);
    }
  }

  /** `readlines` on the file as first written returns exactly the lines written. */
  lemma DraftReadsBack(name: LineText, servings: int, entries: seq<string>, steps: seq<string>)
    requires forall k :: 0 <= k < |entries| ==> NoLineBreak(entries[k])
    requires forall k :: 0 <= k < |steps| ==> NoLineBreak(steps[k])
    ensures SplitLines(Concat(Draft(name, servings, entries, steps))) == Draft(name, servings, entries, steps)
  {
    PreambleLines(name, servings);
    TerminatedLines(entries);
    NumberedLines(steps);
    RecipeHeadingIsLine();
    var d := Draft(name, servings, entries, steps);
    assert AllLines(d);
    SplitLinesConcat(d);
  }

  /** The ingredient lines and steps taken from console input are single lines. */
  lemma InputPlain(ingredientInput: seq<LineText>, stepInput: seq<LineText>, bank: Bank)
    requires ValidBank(bank)
    requires ReadIngredients(ingredientInput, 0, bank).Ok? && ReadSteps(stepInput, 0).Ok?
    ensures var entries := ReadIngredients(ingredientInput, 0, bank).value.lines;
            forall k :: 0 <= k < |entries| ==> NoLineBreak(entries[k])
    ensures var steps := ReadSteps(stepInput, 0).value;
            forall k :: 0 <= k < |steps| ==> NoLineBreak(steps[k])
  {
    var entries := ReadIngredients(ingredientInput, 0, bank).value.lines;
    var steps := ReadSteps(stepInput, 0).value;
    ReadIngredientsMeaning(ingredientInput, 0, bank);
    ReadStepsMeaning(stepInput, 0);
    forall k | 0 <= k < |entries| ensures NoLineBreak(entries[k]) {
      assert entries[k] == Lower(ingredientInput[k]);
    }
    forall k | 0 <= k < |steps| ensures NoLineBreak(steps[k]) {
      assert steps[k] == stepInput[k];
    }
  }

  /** The draft written from console input splits back into the lines written. */
  lemma InputDraftReadsBack(name: LineText, servings: int, ingredientInput: seq<LineText>, stepInput: seq<LineText>,
                            bank: Bank)
    requires ValidBank(bank)
    requires ReadIngredients(ingredientInput, 0, bank).Ok? && ReadSteps(stepInput, 0).Ok?
    ensures var d := Draft(name, servings, ReadIngredients(ingredientInput, 0, bank).value.lines,
                           ReadSteps(stepInput, 0).value);
            SplitLines(Concat(d)) == d
  {
    InputPlain(ingredientInput, stepInput, bank);
    DraftReadsBack(name, servings, ReadIngredients(ingredientInput, 0, bank).value.lines, ReadSteps(stepInput, 0).value);
  }

  // ---------------------------------------------------------------------------
  // Reading the finished file back

  lemma PiecePlain(n: Nutrient, v: int)
    ensures '|' !in Piece(n, v) && NoLineBreak(Piece(n, v))
  {
    NumeralWithout(IntToString(v), '|');
    NoLineBreakAppend(" ", IntToString(v));
    NoLineBreakAppend(" " + IntToString(v), " ");
    NoLineBreakAppend(" " + IntToString(v) + " ", Key(n));
    NoLineBreakAppend(" " + IntToString(v) + " " + Key(n), " ");
  }

  /** The `nutrition` text is a single line without its terminator. */
  lemma NutritionTextPlain(totals: map<Nutrient, int>)
    requires totals.Keys == AllNutrients
    ensures NoLineBreak(NutritionText(totals))
  {
    var a, b, c, d := Piece(Cal, totals[Cal]), Piece(Prot, totals[Prot]), Piece(Carb, totals[Carb]), Piece(Fat, totals[Fat]);
    PiecePlain(Cal, totals[Cal]);
    PiecePlain(Prot, totals[Prot]);
    PiecePlain(Carb, totals[Carb]);
    PiecePlain(Fat, totals[Fat]);
    Join4(a, b, c, d, '|');
    NoLineBreakAppend(a, "|");
    NoLineBreakAppend(a + "|", b);
    NoLineBreakAppend(a + "|" + b, "|");
    NoLineBreakAppend(a + "|" + b + "|", c);
    NoLineBreakAppend(a + "|" + b + "|" + c, "|");
    NoLineBreakAppend(a + "|" + b + "|" + c + "|", d);
  }

  /** A piece of the `nutrition` text, with anything after it, reads as its value's first digit. */
  lemma PieceField(fields: seq<string>, k: nat, n: Nutrient, v: int, tail: string)
    requires k < |fields| && fields[k] == Piece(n, v) + tail && v >= 0
    ensures FieldDigit(fields, k) == Ok(LeadingDigit(v))
  {
    assert Piece(n, v) + tail == " " + IntToString(v) + (" " + Key(n) + " " + tail);
    NumberField(fields, k, " ", v, " " + Key(n) + " " + tail);
  }

  /** The `nutrition` text followed by a '|'-free tail splits into the four pieces, the tail in the last. */
  lemma NutritionTextFields(totals: map<Nutrient, int>, tail: string)
    requires totals.Keys == AllNutrients && '|' !in tail
    ensures Split(NutritionText(totals) + tail, '|')
         == [Piece(Cal, totals[Cal]), Piece(Prot, totals[Prot]), Piece(Carb, totals[Carb]), Piece(Fat, totals[Fat]) + tail]
  {
    var pieces := [Piece(Cal, totals[Cal]), Piece(Prot, totals[Prot]), Piece(Carb, totals[Carb]), Piece(Fat, totals[Fat])];
    JoinAppend(pieces, '|', tail);
    var q := [pieces[0], pieces[1], pieces[2], pieces[3] + tail];
    assert pieces[..3] + [pieces[3] + tail] == q;
    PiecePlain(Cal, totals[Cal]);
    PiecePlain(Prot, totals[Prot]);
    PiecePlain(Carb, totals[Carb]);
    PiecePlain(Fat, totals[Fat]);
    SplitJoin(q, '|');
  }

  /**
   * The line-3 rule applied to the `nutrition` text, followed by anything without a
   * '|', reads the first digit of each of the four totals.
   */
  lemma NutritionTextParse(totals: map<Nutrient, int>, tail: string)
    requires totals.Keys == AllNutrients && forall n :: n in totals ==> totals[n] >= 0
    requires '|' !in tail
    ensures ParseNutritionLine(NutritionText(totals) + tail)
         == Ok(Macros(LeadingDigit(totals[Cal]), LeadingDigit(totals[Prot]),
                      LeadingDigit(totals[Carb]), LeadingDigit(totals[Fat])))
  {
    NutritionTextFields(totals, tail);
    var q := Split(NutritionText(totals) + tail, '|');
    var cv, pv, cbv, fv := totals[Cal], totals[Prot], totals[Carb], totals[Fat];
    assert q[0] == Piece(Cal, cv) + "" && q[1] == Piece(Prot, pv) + "" && q[2] == Piece(Carb, cbv) + "";
    PieceField(q, 0, Cal, cv, "");
    PieceField(q, 1, Prot, pv, "");
    PieceField(q, 2, Carb, cbv, "");
    PieceField(q, 3, Fat, fv, tail);
    NutritionLineFromFields(NutritionText(totals) + tail,
                            Macros(LeadingDigit(cv), LeadingDigit(pv), LeadingDigit(cbv), LeadingDigit(fv)));
  }

  lemma Concat4(a: string, b: string, c: string, d: string)
    ensures Concat([a, b, c, d]) == a + (b + (c + d))
  {
    assert [a, b, c, d][1..] == [b, c, d];
    assert [b, c, d][1..] == [c, d];
    assert [c, d][1..] == [d];
    assert [d][1..] == [];
    assert Concat([d]) == d + "" == d;
    assert Concat([c, d]) == c + d;
    assert Concat([b, c, d]) == b + (c + d);
  }

  lemma ThreeLines(a: string, b: string, c: string, t: string)
    requires NoLineBreak(a) && NoLineBreak(b) && NoLineBreak(c)
    ensures SplitLines(a + "\n" + (b + "\n" + (c + "\n" + t))) == [a + "\n", b + "\n", c + "\n"] + SplitLines(t)
  {
    SplitLinesAfter(c, t);
    SplitLinesAfter(b, c + "\n" + t);
    SplitLinesAfter(a, b + "\n" + (c + "\n" + t));
  }

  /** The rewritten file: the draft with its placeholder line replaced by the `nutrition` text. */
  lemma RewrittenShape(name: string, servings: int, entries: seq<string>, rows: seq<Ingredient>, steps: seq<string>)
    requires servings != 0
    ensures Rewritten(name, servings, Entries(entries, rows), steps)
         == [name + "\n", IntToString(servings) + " Servings" + "\n", NutritionText(Totals(rows, servings)), IngredientsHeading]
            + Draft(name, servings, entries, steps)[4..]
  {
    var d := Draft(name, servings, entries, steps);
    var p := Preamble(name, servings);
    assert d[0] == p[0] && d[1] == p[1] && d[3] == p[3];
    assert p[1] == IntToString(servings) + " Servings" + "\n";
    var w := Rewritten(name, servings, Entries(entries, rows), steps);
    var v := [d[0], d[1], NutritionText(Totals(rows, servings)), d[3]] + d[4..];
    assert |w| == |v|;
    forall i | 0 <= i < |w| ensures w[i] == v[i] {
      if i >= 4 { assert v[i] == d[4..][i - 4]; }
    }
  }

  /** Everything from the column header on is complete lines. */
  lemma DraftTailLines(name: LineText, servings: int, entries: seq<string>, steps: seq<string>)
    requires forall k :: 0 <= k < |entries| ==> NoLineBreak(entries[k])
    requires forall k :: 0 <= k < |steps| ==> NoLineBreak(steps[k])
    ensures AllLines(Draft(name, servings, entries, steps)[4..])
  {
    PreambleLines(name, servings);
    TerminatedLines(entries);
    NumberedLines(steps);
    RecipeHeadingIsLine();
    assert AllLines(Draft(name, servings, entries, steps));
  }

  /**
   * Lines `a`, `b`, a line `nut` written without its terminator, the "Ingredients"
   * heading and complete lines `rest` read back with `nut` run into the heading.
   */
  lemma FusedLines(a: string, b: string, nut: string, rest: seq<string>)
    requires NoLineBreak(a) && NoLineBreak(b) && NoLineBreak(nut) && AllLines(rest)
    ensures SplitLines(Concat([a + "\n", b + "\n", nut, IngredientsHeading] + rest))
         == [a + "\n", b + "\n", nut + IngredientsHeading] + rest
  {
    var r := Concat(rest);
    ConcatAppend([a + "\n", b + "\n", nut, IngredientsHeading], rest);
    Concat4(a + "\n", b + "\n", nut, IngredientsHeading);
    var text := Concat([a + "\n", b + "\n", nut, IngredientsHeading] + rest);
    assert text == (a + "\n" + (b + "\n" + (nut + IngredientsHeading))) + r;
    assert text == a + "\n" + (b + "\n" + ((nut + IngredientsHeading) + r));
    assert nut + IngredientsHeading == (nut + "Ingredients") + "\n";
    assert text == a + "\n" + (b + "\n" + ((nut + "Ingredients") + "\n" + r));
    NoLineBreakAppend(nut, "Ingredients");
    ThreeLines(a, b, nut + "Ingredients", r);
    SplitLinesConcat(rest);
  }

  /**
   * After line 3 is replaced, `readlines` sees one line fewer: the `nutrition` text
   * has no terminator, so it runs into the "Ingredients" heading.
   */
  lemma FinalFileLines(name: LineText, servings: int, entries: seq<string>, rows: seq<Ingredient>, steps: seq<string>)
    requires servings != 0
    requires forall k :: 0 <= k < |entries| ==> NoLineBreak(entries[k])
    requires forall k :: 0 <= k < |steps| ==> NoLineBreak(steps[k])
    ensures var d := Draft(name, servings, entries, steps);
            SplitLines(Concat(Rewritten(name, servings, Entries(entries, rows), steps)))
            == [name + "\n", IntToString(servings) + " Servings" + "\n",
                NutritionText(Totals(rows, servings)) + IngredientsHeading] + d[4..]
  {
    RewrittenShape(name, servings, entries, rows, steps);
    NoLineBreakAppend(IntToString(servings), " Servings");
    NutritionTextPlain(Totals(rows, servings));
    DraftTailLines(name, servings, entries, steps);
    FusedLines(name, IntToString(servings) + " Servings", NutritionText(Totals(rows, servings)),
               Draft(name, servings, entries, steps)[4..]);
  }

  /** The amounts of every row resolved from console input are non-negative, so are the totals. */
  lemma InputTotalsNonNegative(ingredientInput: seq<LineText>, bank: Bank, servings: int)
    requires ValidBank(bank) && servings > 0 && ReadIngredients(ingredientInput, 0, bank).Ok?
    ensures var t := Totals(ReadIngredients(ingredientInput, 0, bank).value.rows, servings);
            forall n :: n in t && t[n] >= 0
  {
    var e := ReadIngredients(ingredientInput, 0, bank).value;
    ReadIngredientsRows(ingredientInput, 0, bank);
    forall k, n | 0 <= k < |e.rows| ensures Amount(e.rows[k], n) >= 0.0 {
      assert FromRecipe(e.lines[k], bank) == Ok(e.rows[k]);
    }
    TotalsNonNegative(e.rows, servings);
  }

  /**
   * `Recipe.write` with a positive number of servings and both loops ended by the
   * sentinel succeeds: the recipe read back carries the name line, the first digit
   * of the servings and the first digit of each per-serving total.
   */
  lemma WriteThenParse(name: LineText, servings: int, ingredientInput: seq<LineText>, stepInput: seq<LineText>,
                       bank: Bank)
    requires ValidBank(bank) && servings > 0
    requires ReadIngredients(ingredientInput, 0, bank).Ok? && ReadSteps(stepInput, 0).Ok?
    ensures var e := ReadIngredients(ingredientInput, 0, bank).value;
            var t := Totals(e.rows, servings);
            (forall n :: n in t && t[n] >= 0)
            && Authored(name, servings, ingredientInput, stepInput, bank)
               == Ok(Written(Rewritten(name, servings, e, ReadSteps(stepInput, 0).value),
                             Recipe(name + "\n", LeadingDigit(servings), LeadingDigit(t[Cal]),
                                    LeadingDigit(t[Prot]), LeadingDigit(t[Carb]), LeadingDigit(t[Fat]))))
  {
    var e := ReadIngredients(ingredientInput, 0, bank).value;
    var steps := ReadSteps(stepInput, 0).value;
    var t := Totals(e.rows, servings);
    InputTotalsNonNegative(ingredientInput, bank, servings);
    InputPlain(ingredientInput, stepInput, bank);
    FinalFileLines(name, servings, e.lines, e.rows, steps);
    var lines := SplitLines(Concat(Rewritten(name, servings, e, steps)));
    var sl := IntToString(servings) + " Servings" + "\n";
    assert lines[1] == sl && sl[0] == IntToString(servings)[0];
    assert EvalDigit(sl[0]) == Ok(LeadingDigit(servings));
    NutritionTextParse(t, IngredientsHeading);
    var r := Recipe(name + "\n", LeadingDigit(servings), LeadingDigit(t[Cal]),
                    LeadingDigit(t[Prot]), LeadingDigit(t[Carb]), LeadingDigit(t[Fat]));
    ParseHeaderFromLines(lines, r);
  }

  /**
   * A negative number of servings is written as "-…", whose first character `eval`
   * rejects, so reading the recipe back fails.
   */
  lemma NegativeServingsRejected(name: LineText, servings: int, ingredientInput: seq<LineText>,
                                 stepInput: seq<LineText>, bank: Bank)
    requires ValidBank(bank) && servings < 0
    requires ReadIngredients(ingredientInput, 0, bank).Ok? && ReadSteps(stepInput, 0).Ok?
    ensures Authored(name, servings, ingredientInput, stepInput, bank) == Err(BadRecipe(NotADigit('-')))
  {
    var e := ReadIngredients(ingredientInput, 0, bank).value;
    var steps := ReadSteps(stepInput, 0).value;
    InputPlain(ingredientInput, stepInput, bank);
    FinalFileLines(name, servings, e.lines, e.rows, steps);
    var lines := SplitLines(Concat(Rewritten(name, servings, e, steps)));
    var sl := IntToString(servings) + " Servings" + "\n";
    assert lines[1] == sl && sl[0] == '-';
  }
}
