/**
 * A recipe file's header, as `Recipe.__init__` reads it, and the nutrition
 * summary line it prints (`Recipe.nutrition_info`).
 *
 * The constructor reads three lines: the name (kept with its '\n'), the
 * servings line, of which only the first character is evaluated, and the
 * nutrition line, split on '|', of whose first four fields only the first
 * character after stripping is evaluated. Evaluating one character succeeds
 * exactly for a decimal digit, so every number read back is a single digit.
 */
module Recipes {
  import opened Wrappers
  import opened Text

  datatype Recipe = Recipe(name: string, servings: int, calories: int, protein: int, carbs: int, fat: int)

  /** The four values of a nutrition summary line. */
  datatype Macros = Macros(calories: int, protein: int, carbs: int, fat: int)

  /** Why reading a header fails: an index out of range, or a character `eval` rejects. */
  datatype ParseError =
    | EmptyServingsLine          // `servings_line[0]` on an empty (missing) line
    | MissingField(field: nat)   // `nutrition_line[field]` past the last field
    | BlankField(field: nat)     // `.strip()[0]` on a field of blanks only
    | NotADigit(c: char)         // `eval` of a single character that is not a digit

  /** `readline()`: the next line, or "" once the file is exhausted. */
  function ReadLine(lines: seq<string>, i: nat): string {
    if i < |lines| then lines[i] else ""
  }

  /** `eval` of a one-character string. */
  function EvalDigit(c: char): (r: Result<int, ParseError>)
    ensures r.Ok? <==> IsDigit(c)
    ensures r.Ok? ==> 0 <= r.value < 10 && DigitChar(r.value) == c
  {
    if IsDigit(c) then Ok(DigitValue(c)) else Err(NotADigit(c))
  }

  /** `eval(fields[k].strip()[0])`. */
  function FieldDigit(fields: seq<string>, k: nat): (r: Result<int, ParseError>)
    ensures r.Ok? ==> 0 <= r.value < 10
    ensures r.Ok? <==> k < |fields| && Strip(fields[k]) != [] && IsDigit(Strip(fields[k])[0])
    ensures r.Ok? ==> DigitChar(r.value) == Strip(fields[k])[0]
    ensures k >= |fields| ==> r == Err(MissingField(k))
  {
    if k >= |fields| then Err(MissingField(k))
    else
      var f := Strip(fields[k]);
      if f == [] then Err(BlankField(k)) else EvalDigit(f[0])
  }

  /** A field of blanks only strips to "", so `strip()[0]` raises IndexError on it. */
  lemma BlankFieldRejected(fields: seq<string>, k: nat)
    requires k < |fields| && AllSpaces(fields[k])
    ensures FieldDigit(fields, k) == Err(BlankField(k))
  {
    StripMeaning(fields[k]);
  }

  /** The line-3 rule: four '|'-separated fields, evaluated in order. */
  function ParseNutritionLine(line: string): (r: Result<Macros, ParseError>)
    ensures |Split(line, '|')| < 4 ==> r.Err?
  {
    var fields := Split(line, '|');
    var calories :- FieldDigit(fields, 0);
    var protein :- FieldDigit(fields, 1);
    var carbs :- FieldDigit(fields, 2);
    var fat :- FieldDigit(fields, 3);
    Ok(Macros(calories, protein, carbs, fat))
  }

  /** `Recipe.__init__` on a file whose `readline` results are `lines`. */
  function ParseHeader(lines: seq<string>): (r: Result<Recipe, ParseError>)
    ensures |lines| < 2 ==> r == Err(EmptyServingsLine)
    ensures r.Ok? ==> r.value.name == ReadLine(lines, 0)
    ensures r.Ok? ==> 0 <= r.value.servings < 10 && 0 <= r.value.calories < 10
                      && 0 <= r.value.protein < 10 && 0 <= r.value.carbs < 10 && 0 <= r.value.fat < 10
  {
    var name := ReadLine(lines, 0);
    var servingsLine := ReadLine(lines, 1);
    if servingsLine == [] then Err(EmptyServingsLine)
    else
      var servings :- EvalDigit(servingsLine[0]);
      var m :- ParseNutritionLine(ReadLine(lines, 2));
      Ok(Recipe(name, servings, m.calories, m.protein, m.carbs, m.fat))
  }

  /** `Recipe(filepath)` on a file holding `text`. */
  function ParseRecipe(text: string): Result<Recipe, ParseError> {
    ParseHeader(SplitLines(text))
  }

  /** `Recipe.nutrition_info`. */
  function NutritionInfo(r: Recipe): string {
    IntToString(r.calories) + " cals | " + IntToString(r.protein) + " P | "
    + IntToString(r.carbs) + " C | " + IntToString(r.fat) + " F"
  }

  // ---------------------------------------------------------------------------
  // Properties

  /** A field made of blanks, a non-negative number and anything after reads as the number's first digit. */
  lemma NumberField(fields: seq<string>, k: nat, pre: string, v: int, post: string)
    requires k < |fields| && fields[k] == pre + IntToString(v) + post
    requires v >= 0 && AllSpaces(pre)
    ensures FieldDigit(fields, k) == Ok(LeadingDigit(v))
  {
    var s := pre + IntToString(v) + post;
    assert s[|pre|] == IntToString(v)[0];
    StripHead(s, |pre|);
  }

  lemma Join4(a: string, b: string, c: string, d: string, sep: char)
    ensures Join([a, b, c, d], sep) == a + [sep] + b + [sep] + c + [sep] + d
  {
    assert Join([d], sep) == d;
    assert [c, d][1..] == [d];
    assert Join([c, d], sep) == c + [sep] + d;
    assert [b, c, d][1..] == [c, d];
    assert Join([b, c, d], sep) == b + [sep] + (c + [sep] + d);
    assert [a, b, c, d][1..] == [b, c, d];
  }

  lemma InfoAsJoin(c: string, p: string, cb: string, f: string)
    ensures c + " cals | " + p + " P | " + cb + " C | " + f + " F"
         == Join([c + " cals ", " " + p + " P ", " " + cb + " C ", " " + f + " F"], '|')
  {
    Join4(c + " cals ", " " + p + " P ", " " + cb + " C ", " " + f + " F", '|');
  }

  /** Round trip: parsing `nutrition_info` with the line-3 rule gives back the first digit of each value. */
  lemma NutritionInfoRoundTrip(r: Recipe)
    requires r.calories >= 0 && r.protein >= 0 && r.carbs >= 0 && r.fat >= 0
    ensures ParseNutritionLine(NutritionInfo(r))
         == Ok(Macros(LeadingDigit(r.calories), LeadingDigit(r.protein), LeadingDigit(r.carbs), LeadingDigit(r.fat)))
  {
    var c, p, cb, f := IntToString(r.calories), IntToString(r.protein), IntToString(r.carbs), IntToString(r.fat);
    var parts := [c + " cals ", " " + p + " P ", " " + cb + " C ", " " + f + " F"];
    InfoAsJoin(c, p, cb, f);
    NumeralWithout(c, '|');
    NumeralWithout(p, '|');
    NumeralWithout(cb, '|');
    NumeralWithout(f, '|');
    SplitJoin(parts, '|');
    NumberField(parts, 0, "", r.calories, " cals ");
    NumberField(parts, 1, " ", r.protein, " P ");
    NumberField(parts, 2, " ", r.carbs, " C ");
    NumberField(parts, 3, " ", r.fat, " F");
  }

  /** For single-digit values (all a header can hold) the round trip is exact. */
  lemma NutritionInfoRoundTripDigits(r: Recipe)
    requires 0 <= r.calories < 10 && 0 <= r.protein < 10 && 0 <= r.carbs < 10 && 0 <= r.fat < 10
    ensures ParseNutritionLine(NutritionInfo(r)) == Ok(Macros(r.calories, r.protein, r.carbs, r.fat))
  {
    NutritionInfoRoundTrip(r);
  }

  /** A multi-digit value loses all but its first digit: 70 calories read back as 7. */
  lemma NutritionInfoTruncates()
    ensures ParseNutritionLine(NutritionInfo(Recipe("Omelette\n", 2, 70, 12, 2, 10)))
         == Ok(Macros(7, 1, 2, 1))
  {
    NutritionInfoRoundTrip(Recipe("Omelette\n", 2, 70, 12, 2, 10));
  }

  /** A parsed recipe's `nutrition_info` reads back as that recipe's four values. */
  lemma ParsedNutritionRoundTrip(lines: seq<string>)
    requires ParseHeader(lines).Ok?
    ensures var r := ParseHeader(lines).value;
            ParseNutritionLine(NutritionInfo(r)) == Ok(Macros(r.calories, r.protein, r.carbs, r.fat))
  {
    NutritionInfoRoundTripDigits(ParseHeader(lines).value);
  }

  /** What a successful line-3 parse means: each value is read from its own field. */
  lemma NutritionLineFields(line: string)
    requires ParseNutritionLine(line).Ok?
    ensures var m := ParseNutritionLine(line).value;
            var fields := Split(line, '|');
            |fields| >= 4 && FieldDigit(fields, 0) == Ok(m.calories) && FieldDigit(fields, 1) == Ok(m.protein)
            && FieldDigit(fields, 2) == Ok(m.carbs) && FieldDigit(fields, 3) == Ok(m.fat)
  {
  }

  /** Conversely, four fields that each read as a digit make the line-3 rule succeed with those digits. */
  lemma NutritionLineFromFields(line: string, m: Macros)
    requires var fields := Split(line, '|');
             FieldDigit(fields, 0) == Ok(m.calories) && FieldDigit(fields, 1) == Ok(m.protein)
             && FieldDigit(fields, 2) == Ok(m.carbs) && FieldDigit(fields, 3) == Ok(m.fat)
    ensures ParseNutritionLine(line) == Ok(m)
  {
  }

  /** What a successful header parse means: servings is the digit heading line 2, and the rest come from line 3. */
  lemma ParseHeaderFields(lines: seq<string>)
    requires ParseHeader(lines).Ok?
    ensures var r := ParseHeader(lines).value;
            |ReadLine(lines, 1)| >= 1 && DigitChar(r.servings) == ReadLine(lines, 1)[0]
            && ParseNutritionLine(ReadLine(lines, 2)) == Ok(Macros(r.calories, r.protein, r.carbs, r.fat))
  {
    var l1 := ReadLine(lines, 1);
    assert l1 != [] && EvalDigit(l1[0]).Ok?;
    assert ParseNutritionLine(ReadLine(lines, 2)).Ok?;
  }

  /** Conversely, a name line, a servings line headed by a digit and a readable line 3 make a header. */
  lemma ParseHeaderFromLines(lines: seq<string>, r: Recipe)
    requires |lines| >= 3 && lines[0] == r.name && lines[1] != [] && EvalDigit(lines[1][0]) == Ok(r.servings)
    requires ParseNutritionLine(lines[2]) == Ok(Macros(r.calories, r.protein, r.carbs, r.fat))
    ensures ParseHeader(lines) == Ok(r)
  {
  }

  /** The header is rejected when its nutrition line has fewer than four '|'-separated fields. */
  lemma FewFieldsRejected(lines: seq<string>)
    requires |Split(ReadLine(lines, 2), '|')| < 4
    ensures ParseHeader(lines).Err?
  {
  }
}
