# mealprep cookbook core, modelled in Dafny

This project models `mealprep/cookbooking.py`, the module that keeps a cookbook of plain-text recipes. It covers:

- **Recipe files.** A file holds the recipe's name on line 1 and "{n} Servings" on line 2. Line 3 is the nutrition line "{cal} | {P} | {C} | {F}". Then come an "Ingredients" section with tab-separated ingredient lines and a "Recipe" section with numbered steps. `Recipe(filepath)` reads only the first three lines. It `eval`s the first character of line 2 and the first non-blank character of each '|'-separated field of line 3, so every value it reads is a single digit (`Recipes`).
- **Ingredients.** `Ingredient.from_recipe` splits a recipe line on tabs, looks the name up in the ingredient bank and scales the bank's four nutrient values by quantity / reference quantity. `IngredientList` is the table of a recipe's ingredients. `calculate_nutrition` stores each column's sum floor-divided by the servings, and `nutrition` renders those totals as text (`Ingredients`).
- **Writing a recipe.** `Recipe.write` writes a recipe file from console input. There are two input loops, each ended by `q`/`Q`. The method then computes the totals, re-reads the file, replaces line 3 with the `nutrition` text and parses the result (`Authoring`). The `nutrition` text has no line terminator. The rewritten file therefore joins it with the "Ingredients" heading into one line. `Authoring.FinalFileLines` proves this, and `Authoring.WriteThenParse` proves what recipe is read back.
- **The cookbook.** A cookbook holds the `.txt` files of one folder, parsed in listing order (`Cookbooks`). `__next__` advances its cursor before reading. A `for` loop over a fresh non-empty cookbook therefore never sees the first recipe and ends with an IndexError instead of StopIteration. Over an empty cookbook it stops at once. `Cookbooks.TraversalMeaning` and `Cookbooks.FirstRecipeSkipped` prove this.

How the Python is represented:

- A file's contents are a string.
- `readlines` is `Text.SplitLines` and `writelines` is `Text.Concat`.
- Console input is a sequence of lines per loop. Running out of lines is the EOFError of `input()`.
- The ingredient bank is a map passed in as a parameter.
- Floats are exact reals.
- Each exception the modelled operations can raise is an error value of a `Result`. The `eval` of the servings input, file-system errors and pandas errors are outside the model (see "Left out").
- A file's text is its text after Python's universal-newline translation, so `readline` and `readlines` split on '\n' only.

Files: `wrappers.dfy` (Option and Result), `text.dfy` (the Python string operations the module uses), `recipes.dfy`, `ingredients.dfy`, `authoring.dfy`, `cookbook.dfy`.

## Model

| member | source | states |
|---|---|---|
| Text.IntToString | mealprep/cookbooking.py:78 | `str(i)`: at least one character, digits and a leading '-' only. A non-negative number starts with its leading digit and a negative one starts with '-'. |
| Text.NatToStringValue | mealprep/cookbooking.py:78 | The decimal text of a number reads back as that number. |
| Text.QuitIsQ | mealprep/cookbooking.py:86 | The sentinel test `s.upper() == 'Q'` holds exactly for the lines "q" and "Q". |
| Text.StripMeaning | mealprep/cookbooking.py:55 | `strip()` gives a contiguous middle of the field whose borders are all blanks, and it is empty exactly when the field is all blanks. |
| Text.StripHead | mealprep/cookbooking.py:55 | After leading blanks, the first non-blank character is the first character of the stripped field. |
| Text.Split | mealprep/cookbooking.py:54 | `split(c)` gives at least one field and no field contains `c`. |
| Text.SplitJoin | mealprep/cookbooking.py:145 | Splitting a pipe-join of pieces that contain no pipe gives the pieces back. |
| Text.JoinSplit | mealprep/cookbooking.py:54 | Joining the fields of a split gives the string back. |
| Text.SplitLines | mealprep/cookbooking.py:104 | `readlines` gives no lines exactly for an empty file. |
| Text.ConcatSplitLines | mealprep/cookbooking.py:104-108 | Writing back the lines that were read reproduces the file. |
| Text.SplitLinesConcat | mealprep/cookbooking.py:104-108 | Reading back complete lines that were written gives the same lines. |
| Recipes.EvalDigit | mealprep/cookbooking.py:53 | `eval` of one character succeeds exactly on a decimal digit and gives its value, 0 to 9. |
| Recipes.BlankFieldRejected | mealprep/cookbooking.py:55-58 | A field of blanks only is the IndexError of `strip()[0]`. |
| Recipes.FieldDigit | mealprep/cookbooking.py:55-58 | `eval(fields[k].strip()[0])`: succeeds exactly when field k exists and its first non-blank character is a digit. A missing field is an IndexError. |
| Recipes.ParseNutritionLine | mealprep/cookbooking.py:54-58 | Line 3 with fewer than four pipe-separated fields is rejected. |
| Recipes.ParseHeader | mealprep/cookbooking.py:47-58 | A file of fewer than two lines fails on the empty servings line. On success the name is line 1 with its terminator, and servings and the four values are single digits. |
| Recipes.ParseHeaderFields | mealprep/cookbooking.py:50-58 | On success, servings is the digit that heads line 2 and the four values are what line 3 reads as. |
| Recipes.ParseHeaderFromLines | mealprep/cookbooking.py:50-58 | Conversely, a digit heading line 2 and a readable line 3 give exactly that recipe. |
| Recipes.NutritionLineFields | mealprep/cookbooking.py:54-58 | A successful line-3 read takes each value from its own field, in order. |
| Recipes.NutritionLineFromFields | mealprep/cookbooking.py:54-58 | Conversely, four fields that read as digits make line 3 read as those digits. |
| Recipes.FewFieldsRejected | mealprep/cookbooking.py:54-58 | A header whose line 3 has fewer than four fields is rejected. |
| Recipes.NutritionInfoRoundTrip | mealprep/cookbooking.py:64-67 | Reading `nutrition_info` back as line 3 gives each value's first digit. |
| Recipes.NutritionInfoRoundTripDigits | mealprep/cookbooking.py:64-67 | For single-digit values that round trip is exact. |
| Recipes.NutritionInfoTruncates | mealprep/cookbooking.py:64-67 | 70 calories, 12 P, 2 C and 10 F read back as 7, 1, 2 and 1. |
| Recipes.ParsedNutritionRoundTrip | mealprep/cookbooking.py:47-67 | A parsed recipe's `nutrition_info` reads back as that recipe's four values. |
| Ingredients.EveryNutrientListed | mealprep/cookbooking.py:137 | The loop of `calculate_nutrition` visits every nutrient. |
| Ingredients.ParseQuantity | mealprep/cookbooking.py:175 | The quantity `eval` reads is never negative. |
| Ingredients.QuantityRoundTrip | mealprep/cookbooking.py:175 | A whole number written in decimal is read as that number. |
| Ingredients.DecimalQuantity | mealprep/cookbooking.py:175 | A float literal "a.d" is read as the whole part plus d's digits over 10 to the number of those digits. Either part may be empty, but not both. |
| Ingredients.HalfQuantity | mealprep/cookbooking.py:175 | "0.5" is read as one half. |
| Ingredients.QuantityRejected | mealprep/cookbooking.py:175 | A quantity holding anything but digits and one decimal point is rejected. |
| Ingredients.Scale | mealprep/cookbooking.py:178-180 | quantity / reference × value. It scales linearly, is non-negative for non-negative inputs, and equals the bank value at the reference quantity. |
| Ingredients.FromRecipe | mealprep/cookbooking.py:171-182 | The line yields an ingredient exactly when its quantity parses, it has 3 to 7 tab-separated fields and the name is in the bank. The ingredient's quantity, unit and name come from the fields and its type from the bank. Each nutrient is the scaled bank value and not negative. |
| Ingredients.FromRecipeAtReferenceQuantity | mealprep/cookbooking.py:177-180 | At the bank's reference quantity the ingredient carries the bank's values unchanged. |
| Ingredients.UnknownIngredientRejected | mealprep/cookbooking.py:175-182 | A name missing from the bank produces no ingredient. Once the quantity evaluates, the error is the KeyError for that name, ahead of any too-many-fields TypeError. |
| Ingredients.FromRecipeLine | mealprep/cookbooking.py:172-182 | "n TAB unit TAB name" for a banked name resolves to that quantity, unit, name and type. |
| Ingredients.EggExample | mealprep/cookbooking.py:171-182 | Two eggs, against a bank entry per one egg, give twice the bank's values. Over two servings they give exactly the bank's values per serving. |
| Ingredients.EggTotals | mealprep/cookbooking.py:135-140 | Those two eggs over two servings give the bank's own values per serving. |
| Ingredients.Totals | mealprep/cookbooking.py:135-140 | There is a total for each of the four nutrients: its column sum floor-divided by the servings. |
| Ingredients.ColumnSumNonNegative | mealprep/cookbooking.py:139 | A column of non-negative amounts sums to a non-negative value. |
| Ingredients.ColumnSumAppend | mealprep/cookbooking.py:127-139 | Adding a row adds its amount to each column sum. |
| Ingredients.TotalsForOneServing | mealprep/cookbooking.py:139 | For one serving a total is its column sum rounded down, and it is exact when the sum is whole. |
| Ingredients.TotalsNonNegative | mealprep/cookbooking.py:135-140 | With non-negative rows and positive servings no total is negative. |
| Ingredients.IngredientList.constructor | mealprep/cookbooking.py:117-125 | A table without a file starts with no rows and no totals. |
| Ingredients.IngredientList.AddIngredient | mealprep/cookbooking.py:127-133 | Appends exactly the one row, keeps the earlier rows and totals, and grows the length by one. |
| Ingredients.IngredientList.CalculateNutrition | mealprep/cookbooking.py:135-140 | With zero servings it stops at the ZeroDivisionError and changes nothing. Otherwise the totals become the four per-serving totals and the rows stay. |
| Authoring.ReadIngredientsMeaning | mealprep/cookbooking.py:84-90 | The ingredient lines written are the lower-cased input lines before the first sentinel, in order. The sentinel follows them. |
| Authoring.ReadIngredientsRows | mealprep/cookbooking.py:89-90 | Each table row is what `from_recipe` makes of its line. |
| Authoring.NoSentinelNoIngredients | mealprep/cookbooking.py:84-86 | Without a sentinel the ingredient loop fails. |
| Authoring.ReadStepsMeaning | mealprep/cookbooking.py:94-99 | The steps are the input lines before the first sentinel. The loop fails with EOFError exactly when there is no sentinel. |
| Authoring.Terminated | mealprep/cookbooking.py:88 | Each ingredient line is written followed by '\n'. |
| Authoring.Numbered | mealprep/cookbooking.py:92-99 | Step k is written as "k. step\n", numbered from 1. |
| Authoring.EnterIngredients | mealprep/cookbooking.py:83-90 | The loop's outcome is the ingredient-loop specification. On success it has written the terminated lines, and the fresh table holds the resolved rows and no totals. |
| Authoring.EnterSteps | mealprep/cookbooking.py:92-99 | The loop's outcome is the step-loop specification. On success it has written the numbered steps. |
| Authoring.Write | mealprep/cookbooking.py:70-112 | `Recipe.write` gives exactly the outcome of its specification `Authored`. |
| Authoring.DraftReadsBack | mealprep/cookbooking.py:103-104 | `readlines` on the file as first written returns exactly the lines written. |
| Authoring.InputDraftReadsBack | mealprep/cookbooking.py:76-104 | The same holds for the lines that come from console input. |
| Authoring.NutritionTextPlain | mealprep/cookbooking.py:142-145 | The `nutrition` text contains no line break. |
| Authoring.NutritionTextFields | mealprep/cookbooking.py:142-145 | The `nutrition` text splits on pipes into its four pieces in cal, prot, carb, fat order, with any pipe-free tail in the last piece. |
| Authoring.NutritionTextParse | mealprep/cookbooking.py:142-145 | Read as line 3, the `nutrition` text gives the first digit of each total. |
| Authoring.RewrittenShape | mealprep/cookbooking.py:106-108 | The rewritten file is the draft with its placeholder line replaced and every other line kept. |
| Authoring.FusedLines | mealprep/cookbooking.py:103-108 | The unterminated line runs into the "Ingredients" heading when the file is read back. |
| Authoring.FinalFileLines | mealprep/cookbooking.py:103-108 | The rewritten file reads back with one line fewer: the name, the servings line, then the `nutrition` text joined with the heading. |
| Authoring.InputTotalsNonNegative | mealprep/cookbooking.py:84-101 | Totals computed from console input with positive servings are not negative. |
| Authoring.WriteThenParse | mealprep/cookbooking.py:70-112 | With positive servings, both sentinels present and every ingredient line before the sentinel resolving through `from_recipe`, writing succeeds. The recipe read back has the name line, the first digit of the servings and the first digit of each per-serving total. |
| Authoring.NegativeServingsRejected | mealprep/cookbooking.py:77-78 | Negative servings are written as "-…", and reading the file back fails on '-'. |
| Cookbooks.TxtFiles | mealprep/cookbooking.py:15-16 | The recipe files are exactly the listed files whose names end in ".txt", and there are no more of them than entries. |
| Cookbooks.TxtFilesAppend | mealprep/cookbooking.py:15-16 | Filtering a listing in two parts filters each part. |
| Cookbooks.TxtFilesIdempotent | mealprep/cookbooking.py:15-16 | Filtering twice is filtering once. |
| Cookbooks.GatherSucceeds | mealprep/cookbooking.py:20-23 | The loading loop succeeds exactly when every step does. |
| Cookbooks.GatherValues | mealprep/cookbooking.py:20-23 | A successful loading loop keeps each result at its position. |
| Cookbooks.GatherFirstFailure | mealprep/cookbooking.py:20-23 | A failed loading loop reports its first failure. |
| Cookbooks.LoadAllMeaning | mealprep/cookbooking.py:20-23 | Loading succeeds exactly when every recipe file's header reads, and it keeps the files' order. |
| Cookbooks.LoadAllFirstFailure | mealprep/cookbooking.py:20-23 | Loading fails with the first recipe file whose header cannot be read. |
| Cookbooks.LoadRecipes | mealprep/cookbooking.py:20-23 | The loop over the recipe files returns what loading specifies: every header in order, or the first file that fails. |
| Cookbooks.Open | mealprep/cookbooking.py:10-24 | `Cookbook(title)` succeeds exactly when loading does. The new cookbook holds the loaded recipes and their count, with its cursor at 0. |
| Cookbooks.Cookbook.constructor | mealprep/cookbooking.py:12-19 | The title, recipes and count are set and the cursor is 0. |
| Cookbooks.Cookbook.Length | mealprep/cookbooking.py:30-32 | `len` is the number of recipes held. |
| Cookbooks.Cookbook.Next | mealprep/cookbooking.py:37-41 | At the end it gives StopIteration and does not move. Otherwise it advances the cursor by one and gives the head of what a loop would see. |
| Cookbooks.Cookbook.ForEach | mealprep/cookbooking.py:34-41 | A `for` loop receives exactly the recipes the traversal lists and ends as it says. Afterwards the cursor is at the end. |
| Cookbooks.TraversalMeaning | mealprep/cookbooking.py:37-41 | From a cursor before the end, a loop sees every recipe after the cursor's, then an IndexError. |
| Cookbooks.LastStep | mealprep/cookbooking.py:37-41 | A loop step that gives no recipe is StopIteration exactly when the cursor is at the end. Otherwise it is the IndexError of the last cursor. |
| Cookbooks.FirstRecipeSkipped | mealprep/cookbooking.py:37-41 | A fresh cookbook's loop never sees the first recipe and ends in IndexError. An empty cookbook stops at once. |

## Left out

- Files, folders and the console are parameters: the folder listing with each file's text, the console lines of each loop, and the file text between writes. `os.getcwd()` and path building (lines 13, 22, 73) are not modelled.
- Printing is not modelled (lines 24, 75, 81, 93, 109, `Cookbook.__str__` at 26-28 and `Ingredient.peek` at 184-186).
- The cookbook refresh at line 111 is not modelled. It builds and discards a new `Cookbook`, whose visible effect is to read the folder and print. It would raise if any other recipe file in the folder were malformed.
- Authoring.Write: the servings value is the integer `eval(input(...))` already returned. Other things `eval` could return (floats, strings, an exception) are not modelled.
- Authoring.Write: the recipe name and console lines have no line breaks (`input()` strips the terminator). Files are read and written after Python's newline translation (see above).
- Authoring.Write: on an error the source leaves a partly written file behind. The model only reports the error.
- Ingredients.ParseQuantity: `eval` of the quantity field accepts only unsigned decimal integer literals and `digits.digits` float literals. Other Python expressions are a malformed quantity.
- Ingredients.FromRecipe: the label slice `'cal':'f'` at line 180 is modelled as its evident intent, the four nutrient columns of the bank row. As written, by pandas' rules for label slices (not executed), the row's index is not monotonic and has no label 'f', so the slice raises KeyError. Every `from_recipe` call, and so every `write` that enters an ingredient, would then fail.
- Ingredients.FromRecipe: the bank is assumed to have positive reference quantities and non-negative nutrient values. Float division by zero (inf or nan) is not modelled.
- Floats are exact reals. Rounding in the scaling and in `np.sum` is not modelled, and `//` is the floor of the exact quotient.
- Loading the bank from `Ingredients.csv` (`IngredientList(filepath)` at 117-125, and lines 189-191) is not modelled. The bank is a map passed in.
- The pandas index on the ingredient name (`set_index`), and `pack`/`as_dict` (161-165), are not modelled. A table row is the `Ingredient` value.
- `Ingredient.create_ingredient` (167-169) has no body and is not modelled.
- `str.lower` and `str.upper` are modelled on ASCII letters only. Other Unicode case mappings are not.
- `Cookbook.__iter__` returns the cookbook itself, so `ForEach` advances the cookbook's own cursor.
