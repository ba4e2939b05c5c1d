/**
 * `Cookbook`: the recipes of one folder, loaded when the cookbook is made, and
 * the iterator protocol over them.
 *
 * The folder's listing is a parameter (a sequence of files with their text);
 * only names ending in ".txt" are recipes, each parsed with `Recipe(filepath)`.
 * Iteration keeps a cursor `index` that `__next__` increments before it reads,
 * so the first recipe is never produced and the last step reads one past the
 * end.
 */
module Cookbooks {
  import opened Wrappers
  import opened Recipes

  /** One directory entry: its name and the text of the file. */
  datatype File = File(name: string, text: string)

  /** Why loading a cookbook fails: the first recipe file whose header cannot be read. */
  datatype LoadError = BadRecipe(file: string, reason: ParseError)

  /** `f.endswith(".txt")`. */
  predicate IsRecipeFile(name: string) {
    |name| >= 4 && name[|name| - 4..] == ".txt"
  }

  /** The comprehension that picks the recipe files out of the listing, in listing order. */
  function TxtFiles(listing: seq<File>): (files: seq<File>)
    ensures |files| <= |listing|
    ensures forall f :: f in files <==> f in listing && IsRecipeFile(f.name)
  {
    if listing == [] then []
    else if IsRecipeFile(listing[0].name) then [listing[0]] + TxtFiles(listing[1..])
    else TxtFiles(listing[1..])
  }

  /** Filtering a listing in two parts filters each part. */
  lemma {:induction false} TxtFilesAppend(a: seq<File>, b: seq<File>)
    ensures TxtFiles(a + b) == TxtFiles(a) + TxtFiles(b)
  {
    if a == [] {
      assert a + b == b;
    } else {
      assert (a + b)[1..] == a[1..] + b;
      TxtFilesAppend(a[1..], b);
    }
  }

  /** Filtering twice is filtering once. */
  lemma {:induction false} TxtFilesIdempotent(listing: seq<File>)
    ensures TxtFiles(TxtFiles(listing)) == TxtFiles(listing)
  {
    if listing != [] {
      TxtFilesIdempotent(listing[1..]);
      if IsRecipeFile(listing[0].name) {
        var files := [listing[0]] + TxtFiles(listing[1..]);
        assert files[1..] == TxtFiles(listing[1..]);
      }
    }
  }

  /** `Recipe(filepath)` on one recipe file, its failure tagged with the file's name. */
  function Outcome(f: File): Result<Recipe, LoadError> {
    match ParseRecipe(f.text)
    case Err(e) => Err(BadRecipe(f.name, e))
    case Ok(r) => Ok(r)
  }

  function Outcomes(files: seq<File>): (rs: seq<Result<Recipe, LoadError>>)
    ensures |rs| == |files| && forall k :: 0 <= k < |files| ==> rs[k] == Outcome(files[k])
  {
    seq(|files|, k requires 0 <= k < |files| => Outcome(files[k]))
  }

  /** A loop that runs the steps from `i` on in order and stops at the first that fails. */
  function Gather<T, E>(rs: seq<Result<T, E>>, i: nat): Result<seq<T>, E>
    requires i <= |rs|
    decreases |rs| - i
  {
    if i == |rs| then Ok([])
    else
      match rs[i]
      case Err(e) => Err(e)
      case Ok(v) =>
        match Gather(rs, i + 1)
        case Ok(rest) => Ok([v] + rest)
        case Err(x) => Err(x)
  }

  /** Loading every recipe file of `files`, in order. */
  function LoadAll(files: seq<File>): Result<seq<Recipe>, LoadError> {
    Gather(Outcomes(files), 0)
  }

  /** The loop succeeds exactly when every step from `i` on does. */
  lemma {:induction false} GatherSucceeds<T, E>(rs: seq<Result<T, E>>, i: nat)
    requires i <= |rs|
    ensures Gather(rs, i).Ok? <==> forall k :: i <= k < |rs| ==> rs[k].Ok?
    decreases |rs| - i
  {
    if i < |rs| {
      if rs[i].Err? {
        assert !(forall k :: i <= k < |rs| ==> rs[k].Ok?) by { assert rs[i].Err?; }
      } else {
        GatherSucceeds(rs, i + 1);
      }
    }
  }

  /** A successful loop holds each step's value at that step's position. */
  lemma {:induction false} GatherValues<T, E>(rs: seq<Result<T, E>>, i: nat)
    requires i <= |rs| && Gather(rs, i).Ok?
    ensures |Gather(rs, i).value| == |rs| - i
    ensures forall k :: i <= k < |rs| ==> rs[k] == Ok(Gather(rs, i).value[k - i])
    decreases |rs| - i
  {
    if i < |rs| {
      GatherValues(rs, i + 1);
      var rest := Gather(rs, i + 1).value;
      var all := [rs[i].value] + rest;
      assert Gather(rs, i).value == all;
      forall k | i <= k < |rs| ensures rs[k] == Ok(all[k - i]) {
        if k > i { assert all[k - i] == rest[k - (i + 1)]; }
      }
    }
  }

  /** A failed loop reports the failure of the first step that fails. */
  lemma {:induction false} GatherFirstFailure<T, E>(rs: seq<Result<T, E>>, i: nat, k: nat)
    requires i <= k < |rs| && rs[k].Err?
    requires forall j :: i <= j < k ==> rs[j].Ok?
    ensures Gather(rs, i) == Err(rs[k].error)
    decreases k - i
  {
    if i < k {
      GatherFirstFailure(rs, i + 1, k);
      assert rs[i].Ok?;
    }
  }

  /** Loading succeeds exactly when every recipe file's header reads, and keeps the files' order. */
  lemma LoadAllMeaning(files: seq<File>)
    ensures LoadAll(files).Ok? <==> forall k :: 0 <= k < |files| ==> ParseRecipe(files[k].text).Ok?
    ensures LoadAll(files).Ok? ==>
              (|LoadAll(files).value| == |files|
               && forall k :: 0 <= k < |files| ==> ParseRecipe(files[k].text) == Ok(LoadAll(files).value[k]))
  {
    var rs := Outcomes(files);
    GatherSucceeds(rs, 0);
    assert forall k :: 0 <= k < |files| ==> (rs[k].Ok? <==> ParseRecipe(files[k].text).Ok?);
    if LoadAll(files).Ok? {
      GatherValues(rs, 0);
      forall k | 0 <= k < |files| ensures ParseRecipe(files[k].text) == Ok(LoadAll(files).value[k]) {
        assert rs[k] == Ok(LoadAll(files).value[k - 0]);
      }
    }
  }

  /** Loading fails with the first recipe file whose header cannot be read. */
  lemma LoadAllFirstFailure(files: seq<File>, k: nat)
    requires k < |files| && ParseRecipe(files[k].text).Err?
    requires forall j :: 0 <= j < k ==> ParseRecipe(files[j].text).Ok?
    ensures LoadAll(files) == Err(BadRecipe(files[k].name, ParseRecipe(files[k].text).error))
  {
    var rs := Outcomes(files);
    assert forall j :: 0 <= j < k ==> rs[j].Ok?;
    GatherFirstFailure(rs, 0, k);
  }

  /** What `Cookbook.__next__` yields: StopIteration, a recipe, or the IndexError of the last step. */
  datatype Step = Stop | Item(recipe: Recipe) | OutOfRange

  /** The steps one `for` loop sees when it starts with the cursor at `index`, up to the first that ends it. */
  function Traversal(recipes: seq<Recipe>, index: nat): seq<Step>
    requires index <= |recipes|
    decreases |recipes| - index
  {
    if index == |recipes| then [Stop]
    else if index + 1 < |recipes| then [Item(recipes[index + 1])] + Traversal(recipes, index + 1)
    else [OutOfRange]
  }

  /** The steps that hand the loop body each of `recipes`, in order. */
  function Items(recipes: seq<Recipe>): seq<Step>
  {
    seq(|recipes|, k requires 0 <= k < |recipes| => Item(recipes[k]))
  }

  /**
   * From a cursor before the end, a loop sees every recipe after the cursor's and
   * then fails with IndexError; it never sees the recipe at the cursor.
   */
  lemma {:induction false} TraversalMeaning(recipes: seq<Recipe>, index: nat)
    requires index < |recipes|
    ensures Traversal(recipes, index) == Items(recipes[index + 1..]) + [OutOfRange]
    decreases |recipes| - index
  {
    if index + 1 < |recipes| {
      TraversalMeaning(recipes, index + 1);
      var tail := recipes[index + 1..];
      assert tail[1..] == recipes[index + 2..];
      assert Items(tail) == [Item(recipes[index + 1])] + Items(tail[1..]);
    } else {
      assert recipes[index + 1..] == [];
    }
  }

  /** A fresh cookbook's loop skips the first recipe, and one without recipes ends at once. */
  lemma FirstRecipeSkipped(recipes: seq<Recipe>)
    ensures |recipes| == 0 ==> Traversal(recipes, 0) == [Stop]
    ensures |recipes| > 0 ==> Traversal(recipes, 0) == Items(recipes[1..]) + [OutOfRange]
  {
    if |recipes| > 0 {
      TraversalMeaning(recipes, 0);
    }
  }

  /**
   * The step that ends a loop: StopIteration at the end, or, before the end, the
   * IndexError of the last cursor.
   */
  lemma LastStep(recipes: seq<Recipe>, cursor: nat, s: Step)
    requires cursor <= |recipes| && !s.Item?
    requires cursor == |recipes| ==> s == Stop
    requires cursor < |recipes| ==> Traversal(recipes, cursor) == [s]
    ensures Traversal(recipes, cursor) == [s]
    ensures s == OutOfRange <==> cursor < |recipes|
    ensures s == OutOfRange ==> cursor + 1 == |recipes|
  {
  }

  /** Handing one more recipe to the loop body moves its step from the rest to the items. */
  lemma ItemsSnoc(recipes: seq<Recipe>, r: Recipe, rest: seq<Step>)
    ensures Items(recipes) + ([Item(r)] + rest) == Items(recipes + [r]) + rest
  {
    assert Items(recipes + [r]) == Items(recipes) + [Item(r)];
  }

  class Cookbook {
    var title: string
    var numRecipes: int
    var recipes: seq<Recipe>
    var index: int

    /** `num_recipes` counts the recipes, and the cursor never passes it. */
    ghost predicate Valid()
      reads this
    {
      numRecipes == |recipes| && 0 <= index <= numRecipes
    }

    /** The state `__init__` leaves once every recipe file has been read. */
    constructor (title: string, recipes: seq<Recipe>)
      ensures Valid()
      ensures this.title == title && this.recipes == recipes && numRecipes == |recipes| && index == 0
    {
      this.title := title;
      this.numRecipes := |recipes|;
      this.recipes := recipes;
      this.index := 0;
    }

    /** `len(cookbook)`. */
    function Length(): (n: nat)
      reads this
      requires Valid()
      ensures n == |recipes|
    {
      numRecipes
    }

    /** `__next__`: StopIteration at the end; otherwise advance, then read at the new cursor. */
    method Next() returns (s: Step)
      requires Valid()
      modifies this
      ensures Valid()
      ensures title == old(title) && recipes == old(recipes) && numRecipes == old(numRecipes)
      ensures old(index) == old(numRecipes) ==> s == Stop && index == old(index)
      ensures old(index) < old(numRecipes) ==> index == old(index) + 1
      ensures old(index) < old(numRecipes) && s.Item? ==> Traversal(recipes, old(index)) == [s] + Traversal(recipes, index)
      ensures old(index) < old(numRecipes) && !s.Item? ==> Traversal(recipes, old(index)) == [s]
    {
      if index == numRecipes {
        return Stop;
      }
      index := index + 1;
      if index < |recipes| {
        s := Item(recipes[index]);
      } else {
        s := OutOfRange;
      }
    }

    /**
     * `for recipe in cookbook`: the recipes the loop body receives, and whether the
     * loop ended in IndexError rather than StopIteration.
     */
    method ForEach() returns (received: seq<Recipe>, failed: bool)
      requires Valid()
      modifies this
      ensures Valid()
      ensures title == old(title) && recipes == old(recipes) && numRecipes == old(numRecipes)
      ensures Traversal(recipes, old(index)) == Items(received) + [if failed then OutOfRange else Stop]
      ensures index == numRecipes
    {
      received := [];
      ghost var rs := recipes;
      ghost var start := Traversal(rs, index);
      while true
        invariant Valid()
        invariant title == old(title) && recipes == rs && numRecipes == old(numRecipes)
        invariant start == Items(received) + Traversal(rs, index)
        decreases numRecipes - index
      {
        ghost var cursor := index;
        var s := Next();
        if !s.Item? {
          LastStep(rs, cursor, s);
          failed := s.OutOfRange?;
          return;
        }
        ItemsSnoc(received, s.recipe, Traversal(rs, index));
        received := received + [s.recipe];
      }
    }
  }

  /** The loop of `Cookbook.__init__` over the recipe files: parse each in turn, stopping at the first failure. */
  method LoadRecipes(files: seq<File>) returns (r: Result<seq<Recipe>, LoadError>)
    ensures r == LoadAll(files)
  {
    var recipes: seq<Recipe> := [];
    for i := 0 to |files|
      invariant |recipes| == i
      invariant forall k :: 0 <= k < i ==> ParseRecipe(files[k].text) == Ok(recipes[k])
    {
      var parsed := ParseRecipe(files[i].text);
      if parsed.Err? {
        LoadAllFirstFailure(files, i);
        return Err(BadRecipe(files[i].name, parsed.error));
      }
      recipes := recipes + [parsed.value];
    }
    LoadAllMeaning(files);
    assert recipes == LoadAll(files).value;
    r := Ok(recipes);
  }

  /**
   * `Cookbook(title)` on a folder whose listing is `listing`: read every recipe file
   * in listing order, or fail with the first one whose header cannot be read.
   */
  method Open(title: string, listing: seq<File>) returns (r: Result<Cookbook, LoadError>)
    ensures r.Ok? <==> LoadAll(TxtFiles(listing)).Ok?
    ensures r.Err? ==> r.error == LoadAll(TxtFiles(listing)).error
    ensures r.Ok? ==> fresh(r.value) && r.value.Valid() && r.value.title == title && r.value.index == 0
                      && r.value.numRecipes == |TxtFiles(listing)|
                      && r.value.recipes == LoadAll(TxtFiles(listing)).value
  {
    var files := TxtFiles(listing);
    var loaded := LoadRecipes(files);
    if loaded.Err? {
      return Err(loaded.error);
    }
    LoadAllMeaning(files);
    var book := new Cookbook(title, loaded.value);
    r := Ok(book);
  }
}
