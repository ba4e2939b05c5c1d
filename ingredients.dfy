/**
 * Ingredients and the nutrition arithmetic around them: `Ingredient.from_recipe`
 * scales a bank entry to the quantity on a recipe line, and `IngredientList`
 * is the append-only table of a recipe's ingredients with its per-serving totals.
 *
 * Float arithmetic is modelled by exact `real` arithmetic; `//` on the column
 * sums is the floor of the exact quotient. The pandas table is a sequence of
 * rows, and the ingredient bank is a map passed in explicitly.
 */
module Ingredients {
  import opened Wrappers
  import opened Text

  // ---------------------------------------------------------------------------
  // Nutrients

  /** The four nutrient columns, in the order `calculate_nutrition` visits them. */
  datatype Nutrient = Cal | Prot | Carb | Fat

  const Nutrients: seq<Nutrient> := [Cal, Prot, Carb, Fat]

  const AllNutrients: set<Nutrient> := {Cal, Prot, Carb, Fat}

  /** The column label, which `nutrition` also prints. */
  function Key(n: Nutrient): string {
    match n
    case Cal => "cal"
    case Prot => "prot"
    case Carb => "carb"
    case Fat => "fat"
  }

  lemma EveryNutrientListed(n: Nutrient)
    ensures n in AllNutrients && n in Nutrients
  {
  }

  // ---------------------------------------------------------------------------
  // The ingredient bank and recipe ingredients

  /** One row of the bank table: nutrition per `quantity` of `unit`. */
  datatype BankRow = BankRow(quantity: real, unit: string, cal: real, prot: real, carb: real, fat: real, itype: string)

  /** The bank, keyed by ingredient name. */
  type Bank = map<string, BankRow>

  /** Every reference quantity is positive (it is a divisor) and no nutrient value is negative. */
  predicate ValidBank(bank: Bank) {
    forall name :: name in bank ==>
      bank[name].quantity > 0.0 && bank[name].cal >= 0.0 && bank[name].prot >= 0.0
      && bank[name].carb >= 0.0 && bank[name].fat >= 0.0
  }

  function BankAmount(row: BankRow, n: Nutrient): real {
    match n
    case Cal => row.cal
    case Prot => row.prot
    case Carb => row.carb
    case Fat => row.fat
  }

  /** An `Ingredient`, which is also one row of an `IngredientList` (`as_dict`). */
  datatype Ingredient = Ingredient(quantity: real, unit: string, name: string,
                                   calories: real, protein: real, carb: real, fat: real, itype: string)

  function Amount(ing: Ingredient, n: Nutrient): real {
    match n
    case Cal => ing.calories
    case Prot => ing.protein
    case Carb => ing.carb
    case Fat => ing.fat
  }

  /** The exceptions `from_recipe` can raise. */
  datatype IngredientError =
    | MalformedQuantity(text: string)  // `eval` of the quantity field fails
    | MissingField(fields: nat)        // `ingredient_info[2]`: IndexError, fewer than three fields
    | UnknownIngredient(name: string)  // `bank.ingredients.loc[name]`: KeyError
    | TooManyFields(fields: nat)       // `cls(*...)` receives more than eight arguments: TypeError

  /** A Python decimal integer literal: no leading zero unless every digit is zero. */
  predicate IsIntLiteral(s: string) {
    |s| >= 1 && AllDigits(s) && (s[0] != '0' || forall i :: 0 <= i < |s| ==> s[i] == '0')
  }

  /** The value of the float literal `whole.fraction`. */
  function DecimalValue(whole: string, fraction: string): real
    requires AllDigits(whole) && AllDigits(fraction)
  {
    DigitsValue(whole) as real + DigitsValue(fraction) as real / Pow10(|fraction|) as real
  }

  /**
   * `eval` of a quantity field, restricted to unsigned decimal literals:
   * an integer literal, or a float literal `digits.digits` with at least one digit.
   */
  function ParseQuantity(s: string): (q: Option<real>)
    ensures q.Some? ==> q.value >= 0.0
  {
    var parts := Split(s, '.');
    if |parts| == 1 then
      if IsIntLiteral(s) then Some(DigitsValue(s) as real) else None
    else if |parts| == 2 && AllDigits(parts[0]) && AllDigits(parts[1]) && |parts[0]| + |parts[1]| >= 1 then
      Some(DecimalValue(parts[0], parts[1]))
    else
      None
  }

  /** A whole number written in decimal reads back as itself. */
  lemma QuantityRoundTrip(n: nat)
    ensures ParseQuantity(NatToString(n)) == Some(n as real)
  {
    var s := NatToString(n);
    NumeralWithout(s, '.');
    SplitWithout(s, '.');
    if n == 0 {
      assert s == "0";
    }
    NatToStringValue(n);
  }

  /**
   * A float literal "a.d" reads as the whole part plus the fraction the digits
   * after the point spell out; either part may be empty, but not both.
   */
  lemma DecimalQuantity(a: string, d: string)
    requires AllDigits(a) && AllDigits(d) && |a| + |d| >= 1
    ensures ParseQuantity(a + "." + d) == Some(DecimalValue(a, d))
  {
    DigitsWithout(a, '.');
    DigitsWithout(d, '.');
    var s := a + "." + d;
    assert s == a + ['.'] + d;
    SplitAfter(a, '.', d);
    SplitWithout(d, '.');
    var parts := Split(s, '.');
    assert parts == [a, d];
    assert |parts| == 2 && parts[0] == a && parts[1] == d;
  }

  /** "0.5" reads as one half. */
  lemma HalfQuantity()
    ensures ParseQuantity("0.5") == Some(0.5)
  {
    DecimalQuantity("0", "5");
    assert "0" + "." + "5" == "0.5";
    assert DigitsValue("0") == 0 && DigitsValue("5") == 5 && Pow10(1) == 10;
  }

  /**
   * Anything but digits and the decimal point makes `eval` fail, and so does a
   * second decimal point.
   */
  lemma QuantityRejected(s: string, k: nat)
    requires k < |s| && !IsDigit(s[k])
    requires s[k] != '.' || exists j :: 0 <= j < |s| && j != k && s[j] == '.'
    ensures ParseQuantity(s) == None
  {
    var parts := Split(s, '.');
    JoinSplit(s, '.');
    if |parts| == 1 {
      assert s == parts[0];
    } else if |parts| == 2 {
      assert Join(parts[1..], '.') == parts[1];
      assert s == parts[0] + ['.'] + parts[1];
      var n := |parts[0]|;
      forall i | 0 <= i < |s| && i != n ensures s[i] != '.' {
        if i < n { assert s[i] == parts[0][i]; } else { assert s[i] == parts[1][i - n - 1]; }
      }
      if s[k] != '.' {
        if k < n { assert s[k] == parts[0][k]; } else { assert s[k] == parts[1][k - n - 1]; }
      }
    }
  }

  /** `quantity / reference * value`: a bank value scaled to the quantity used. */
  function Scale(q: real, ref: real, v: real): (s: real)
    requires ref > 0.0
    ensures s * ref == q * v
    ensures q >= 0.0 && v >= 0.0 ==> s >= 0.0
    ensures q == ref ==> s == v
  {
    q / ref * v
  }

  /**
   * `Ingredient.from_recipe`: split the (already lower-cased) line on tabs into
   * quantity, unit and name, look the name up in the bank and scale each of the
   * bank's nutrient values by quantity / reference quantity.
   */
  function FromRecipe(raw: string, bank: Bank): (r: Result<Ingredient, IngredientError>)
    requires ValidBank(bank)
    ensures var fields := Split(raw, '\t');
            r.Ok? <==> ParseQuantity(fields[0]).Some? && 3 <= |fields| <= 7 && fields[2] in bank
    ensures var fields := Split(raw, '\t');
            r.Ok? ==> r.value.quantity == ParseQuantity(fields[0]).value
                      && r.value.unit == fields[1] && r.value.name == fields[2]
                      && r.value.name in bank && r.value.itype == bank[r.value.name].itype
    ensures r.Ok? ==> forall n :: Amount(r.value, n) >= 0.0
                        && Amount(r.value, n) == Scale(r.value.quantity, bank[r.value.name].quantity,
                                                       BankAmount(bank[r.value.name], n))
  {
    var fields := Split(raw, '\t');
    match ParseQuantity(fields[0])
    case None => Err(MalformedQuantity(fields[0]))
    case Some(q) =>
      if |fields| < 3 then Err(MissingField(|fields|))
      else if fields[2] !in bank then Err(UnknownIngredient(fields[2]))
      else if |fields| > 7 then Err(TooManyFields(|fields|))
      else
        var row := bank[fields[2]];
        Ok(Ingredient(q, fields[1], fields[2], Scale(q, row.quantity, row.cal), Scale(q, row.quantity, row.prot),
                      Scale(q, row.quantity, row.carb), Scale(q, row.quantity, row.fat), row.itype))
  }

  /** An ingredient used in exactly the bank's reference quantity carries the bank's values unchanged. */
  lemma FromRecipeAtReferenceQuantity(raw: string, bank: Bank)
    requires ValidBank(bank) && FromRecipe(raw, bank).Ok?
    requires FromRecipe(raw, bank).value.quantity == bank[FromRecipe(raw, bank).value.name].quantity
    ensures var ing := FromRecipe(raw, bank).value;
            forall n :: Amount(ing, n) == BankAmount(bank[ing.name], n)
  {
  }

  /**
   * A line naming an ingredient missing from the bank produces no ingredient; once
   * its quantity has been evaluated, the failure is the KeyError of that name, which
   * comes before any complaint about too many fields.
   */
  lemma UnknownIngredientRejected(raw: string, bank: Bank)
    requires ValidBank(bank)
    requires var fields := Split(raw, '\t'); |fields| >= 3 && fields[2] !in bank
    ensures FromRecipe(raw, bank).Err?
    ensures var fields := Split(raw, '\t');
            ParseQuantity(fields[0]).Some? ==> FromRecipe(raw, bank) == Err(UnknownIngredient(fields[2]))
  {
  }

  /** A recipe line "quantity TAB unit TAB name" for a banked name resolves to that name, unit and quantity. */
  lemma FromRecipeLine(n: nat, unit: string, name: string, bank: Bank)
    requires ValidBank(bank) && name in bank && '\t' !in unit && '\t' !in name
    ensures var r := FromRecipe(NatToString(n) + "\t" + unit + "\t" + name, bank);
            r.Ok? && r.value.quantity == n as real && r.value.unit == unit && r.value.name == name
            && r.value.itype == bank[name].itype
  {
    var q := NatToString(n);
    NumeralWithout(q, '\t');
    SplitAfter(q, '\t', unit + "\t" + name);
    SplitAfter(unit, '\t', name);
    SplitWithout(name, '\t');
    assert q + "\t" + unit + "\t" + name == q + ['\t'] + (unit + ['\t'] + name);
    QuantityRoundTrip(n);
  }

  // ---------------------------------------------------------------------------
  // Totals

  /** `np.sum` of one column of the table. */
  function ColumnSum(rows: seq<Ingredient>, n: Nutrient): real {
    if rows == [] then 0.0 else Amount(rows[0], n) + ColumnSum(rows[1..], n)
  }

  /** `int(np.sum(column) // servings)`: the column sum divided by the servings, rounded down. */
  function PerServing(rows: seq<Ingredient>, servings: int, n: Nutrient): int
    requires servings != 0
  {
    (ColumnSum(rows, n) / servings as real).Floor
  }

  /** The four per-serving totals `calculate_nutrition` stores. */
  function Totals(rows: seq<Ingredient>, servings: int): (t: map<Nutrient, int>)
    requires servings != 0
    ensures t.Keys == AllNutrients
    ensures forall n :: n in t ==> t[n] == PerServing(rows, servings, n)
  {
    map[Cal := PerServing(rows, servings, Cal), Prot := PerServing(rows, servings, Prot),
        Carb := PerServing(rows, servings, Carb), Fat := PerServing(rows, servings, Fat)]
  }

  /** One piece of the `nutrition` string: `f' {v:d} {k} '`. */
  function Piece(n: Nutrient, v: int): string {
    " " + IntToString(v) + " " + Key(n) + " "
  }

  /** The `total_nutrition` dict is either untouched or holds all four nutrients. */
  predicate WellKeyed(totals: map<Nutrient, int>) {
    totals.Keys == {} || totals.Keys == AllNutrients
  }

  /**
   * `IngredientList.nutrition`: the pieces joined by '|', in insertion order, which
   * is cal, prot, carb, fat because `calculate_nutrition` inserts them in that order.
   */
  function NutritionText(totals: map<Nutrient, int>): string
    requires WellKeyed(totals)
  {
    if totals == map[] then ""
    else Join([Piece(Cal, totals[Cal]), Piece(Prot, totals[Prot]), Piece(Carb, totals[Carb]), Piece(Fat, totals[Fat])], '|')
  }

  /** A column of non-negative amounts has a non-negative sum. */
  lemma {:induction false} ColumnSumNonNegative(rows: seq<Ingredient>, n: Nutrient)
    requires forall k :: 0 <= k < |rows| ==> Amount(rows[k], n) >= 0.0
    ensures ColumnSum(rows, n) >= 0.0
  {
    if rows != [] {
      ColumnSumNonNegative(rows[1..], n);
    }
  }

  /** Each column's sum only depends on that column: appending a row adds its own value. */
  lemma {:induction false} ColumnSumAppend(rows: seq<Ingredient>, ing: Ingredient, n: Nutrient)
    ensures ColumnSum(rows + [ing], n) == ColumnSum(rows, n) + Amount(ing, n)
  {
    if rows == [] {
      assert rows + [ing] == [ing];
    } else {
      ColumnSumAppend(rows[1..], ing, n);
      assert (rows + [ing])[1..] == rows[1..] + [ing];
    }
  }

  /** For one serving each total is the column sum (rounded down when it is fractional). */
  lemma TotalsForOneServing(rows: seq<Ingredient>, n: Nutrient)
    ensures Totals(rows, 1)[n] == ColumnSum(rows, n).Floor
    ensures ColumnSum(rows, n) == ColumnSum(rows, n).Floor as real ==> Totals(rows, 1)[n] as real == ColumnSum(rows, n)
  {
    assert ColumnSum(rows, n) / 1 as real == ColumnSum(rows, n);
  }

  lemma DivisionNonNegative(x: real, s: int)
    requires x >= 0.0 && s > 0
    ensures (x / s as real).Floor >= 0
  {
    assert x / s as real >= 0.0;
  }

  /** With non-negative nutrient values and positive servings no total is negative. */
  lemma TotalsNonNegative(rows: seq<Ingredient>, servings: int)
    requires servings > 0
    requires forall k, n :: 0 <= k < |rows| ==> Amount(rows[k], n) >= 0.0
    ensures forall n :: n in Totals(rows, servings) && Totals(rows, servings)[n] >= 0
  {
    forall n ensures n in Totals(rows, servings) && Totals(rows, servings)[n] >= 0 {
      EveryNutrientListed(n);
      ColumnSumNonNegative(rows, n);
      DivisionNonNegative(ColumnSum(rows, n), servings);
    }
  }

  /** A bank entry for eggs: 70 cal, 6 P, 1 C and 5 F per egg. */
  const EggBank: Bank := map["egg" := BankRow(1.0, "ea", 70.0, 6.0, 1.0, 5.0, "protein")]

  /**
   * The worked example: two eggs against a bank entry per one egg give twice the
   * bank's values, and over two servings the bank's own values per serving.
   */
  lemma EggExample()
    ensures var r := FromRecipe("2\tea\tegg", EggBank);
            r == Ok(Ingredient(2.0, "ea", "egg", 140.0, 12.0, 2.0, 10.0, "protein"))
            && Totals([r.value], 2) == map[Cal := 70, Prot := 6, Carb := 1, Fat := 5]
  {
    var egg := Ingredient(2.0, "ea", "egg", 140.0, 12.0, 2.0, 10.0, "protein");
    EggIngredient(egg);
    EggTotals(egg);
  }

  lemma EggLine()
    ensures var r := FromRecipe("2\tea\tegg", EggBank);
            r.Ok? && r.value.quantity == 2.0 && r.value.unit == "ea" && r.value.name == "egg"
            && r.value.itype == "protein"
  {
    assert "2\tea\tegg" == NatToString(2) + "\t" + "ea" + "\t" + "egg";
    FromRecipeLine(2, "ea", "egg", EggBank);
  }

  lemma EggIngredient(egg: Ingredient)
    requires egg == Ingredient(2.0, "ea", "egg", 140.0, 12.0, 2.0, 10.0, "protein")
    ensures FromRecipe("2\tea\tegg", EggBank) == Ok(egg)
  {
    EggLine();
    var ing := FromRecipe("2\tea\tegg", EggBank).value;
    var row := EggBank["egg"];
    assert Amount(ing, Cal) == Scale(2.0, 1.0, 70.0) == 140.0;
    assert Amount(ing, Prot) == Scale(2.0, 1.0, 6.0) == 12.0;
    assert Amount(ing, Carb) == Scale(2.0, 1.0, 1.0) == 2.0;
    assert Amount(ing, Fat) == Scale(2.0, 1.0, 5.0) == 10.0;
  }

  lemma EggTotals(egg: Ingredient)
    requires egg == Ingredient(2.0, "ea", "egg", 140.0, 12.0, 2.0, 10.0, "protein")
    ensures Totals([egg], 2) == map[Cal := 70, Prot := 6, Carb := 1, Fat := 5]
  {
    assert [egg][1..] == [];
    assert ColumnSum([egg], Cal) == 140.0;
    assert ColumnSum([egg], Prot) == 12.0;
    assert ColumnSum([egg], Carb) == 2.0;
    assert ColumnSum([egg], Fat) == 10.0;
  }

  // ---------------------------------------------------------------------------
  // The table

  /** `IngredientList()`: a table of ingredient rows and the totals computed from it. */
  class IngredientList {
    var rows: seq<Ingredient>
    var totals: map<Nutrient, int>

    ghost predicate Valid()
      reads this
    {
      WellKeyed(totals)
    }

    /** `IngredientList()` without a file: an empty table and no totals. */
    constructor ()
      ensures Valid() && rows == [] && totals == map[]
    {
      rows := [];
      totals := map[];
    }

    /** `add_ingredient`: append one row; names are not deduplicated. */
    method AddIngredient(ing: Ingredient)
      requires Valid()
      modifies this
      ensures Valid()
      ensures rows == old(rows) + [ing] && totals == old(totals)
      ensures Length() == old(Length()) + 1
    {
      rows := rows + [ing];
    }

    /** `__len__`: the number of rows. */
    function Length(): nat
      reads this
    {
      |rows|
    }

    /**
     * `calculate_nutrition(servings)`: set each nutrient's total to its column sum
     * floor-divided by `servings`. With `servings == 0` the first division raises
     * ZeroDivisionError before any total is set.
     */
    method CalculateNutrition(servings: int) returns (ok: bool)
      requires Valid()
      modifies this
      ensures Valid() && rows == old(rows)
      ensures ok <==> servings != 0
      ensures ok ==> totals == Totals(rows, servings)
      ensures !ok ==> totals == old(totals)
    {
      if servings == 0 {
        return false;
      }
      var k := 0;
      while k < |Nutrients|
        invariant 0 <= k <= |Nutrients| && rows == old(rows)
        invariant forall j :: 0 <= j < k ==> Nutrients[j] in totals && totals[Nutrients[j]] == PerServing(rows, servings, Nutrients[j])
        invariant totals.Keys == old(totals).Keys + set j | 0 <= j < k :: Nutrients[j]
      {
        var n := Nutrients[k];
        totals := totals[n := PerServing(rows, servings, n)];
        k := k + 1;
      }
      assert totals.Keys == AllNutrients by {
        forall n | n in totals ensures n in AllNutrients { EveryNutrientListed(n); }
        assert Nutrients[0] == Cal && Nutrients[1] == Prot && Nutrients[2] == Carb && Nutrients[3] == Fat;
      }
      var t := Totals(rows, servings);
      assert forall n :: n in totals ==> totals[n] == t[n] by {
        forall n | n in totals ensures totals[n] == t[n] {
          assert n == Nutrients[0] || n == Nutrients[1] || n == Nutrients[2] || n == Nutrients[3];
        }
      }
      ok := true;
    }

    /** `nutrition`: the totals as the text that replaces a recipe file's third line. */
    function Nutrition(): string
      reads this
      requires Valid()
    {
      NutritionText(totals)
    }
  }
}
