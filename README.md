# Music Quiz: quiz-creator bookkeeping, team score button and quiz preview formatter

A Dafny model of three pieces of logic in the Music Quiz desktop application.

- **Quiz creator category lists** (`src/gui_tools/QuizCreator/QuizCreator.cpp`, module
  `QuizCreatorModel`). The dialog keeps three collections in lock-step:
  - the rows of the categories table (a name line edit, an edit button and a remove button, each tagged with an
    integer `"index"` property);
  - the vector of category editor pages;
  - the tabs of the tab widget, where tab 0 is "Setup" and tab *i + 1* shows category *i*.

  Beside them sit the row-categories table and the vector of row-category names. The `Editor` datatype is this
  state with the widgets stripped away. The functions `AddCategoryNext`, `RemoveCategoryNext`, … give the effect of
  each slot. The class `QuizCreator` holds the same state in fields that its methods update in place, including the
  re-stamping loops of `removeCategory` and `removeRowCategory`. Each method is proved to produce exactly the state
  its specification function gives.

  The invariant `Inv` holds on construction and every operation keeps it. It says:
  - row count == category count == tab count − 1;
  - tab 0 is "Setup";
  - tab *i + 1* carries category *i*'s name;
  - every stored index equals its row's position.

  `NamesAgree` says that each row's line edit shows its category's name. Adding and removing a category keep it,
  and so does typing into a row's line edit (`EditCategoryTextNext`), which is the only way the source reaches
  `updateCategoryTabName` (QuizCreator.cpp:203). `UpdateCategoryTabNameNext` on its own renames a category without
  touching the row, so it does not keep `NamesAgree`, and `Valid()` does not include it. The row-category
  operations leave the category rows and the categories unchanged.
- **Team score button** (`src/widgets/QuizTeam.cpp`, module `QuizTeamModel`). A class with:
  - the name check of the constructor;
  - the inverted text colour;
  - the score accumulator, taken as a 64-bit `size_t` that wraps at 2^64;
  - the label `name + ": " + render(score)`, rebuilt after every award.
- **Quiz preview formatter** (`src/util/QuizLoader.hpp`, module `QuizPreviewModel`).
  - `AppendPreview` appends to the stream's contents piece by piece, as `operator<<` does.
  - It is proved equal to `Formatted`, an independent line-list definition of the output.
  - `ParsePreview` reads the text back, and the round trip `ParsePreview(Formatted(p)) == Some(p)` is proved for
    every record whose fields contain no line break.
- **Decimal rendering** (module `Decimal`): `QString::number` on the counts that make the default names. It comes
  with a proved read-back (`Value(ToDecimal(n)) == n`).
- **Wrappers** (module `Wrappers`): the `Option` datatype shared by the other modules.

The class methods of `QuizCreator` require `Valid()`, the class invariant that the constructor establishes and every
method keeps. The specification functions require `Inv` for the same reason. The source asks nothing of its callers
here: its slots only ever run on a dialog built by its constructor.

On these points the model follows the code:
- The team label renders the score with `QString(_score)`, a character conversion, not decimal digits. The model
  keeps the rendering abstract (`render`).
- `addPoints` takes and `getScore` returns a `size_t` (QuizTeam.cpp:35, 45). The score is modelled with that type,
  wrapping at 2^64; it is not unbounded.
- `removeCategory` re-stamps every remaining row, not only the rows after the removed one. The line edit always
  takes the new position. A button takes it unless its tag equals the removed index. Under the invariant that
  exception never fires (`RestampAfterEraseRestoresPositions`); without the invariant it can leave a stale tag
  (`StaleTagWithoutPositionalTags`).
- `_rowCategories` holds the creation-time default text of each row. Edits to the row-category line edits never
  reach it, because no slot is connected to them (`EditRowCategoryTextNext`).

## Model

| member | source | states |
|---|---|---|
| `Decimal.ToDecimal` | src/gui_tools/QuizCreator/QuizCreator.cpp:199 | the rendering of a count is a non-empty string of digits, with a leading zero exactly when the number is 0 |
| `Decimal.ValueOfToDecimal` | src/gui_tools/QuizCreator/QuizCreator.cpp:199 | reading the rendered digits back gives the number |
| `Decimal.ToDecimalInjective` | src/gui_tools/QuizCreator/QuizCreator.cpp:199 | distinct numbers render as distinct strings |
| `QuizCreatorModel.Initial` | src/gui_tools/QuizCreator/QuizCreator.cpp:82-152 | the freshly built dialog (only the "Setup" tab, two empty tables) satisfies the lock-step invariant and the name agreement |
| `QuizCreatorModel.RestampCategoryRows` | src/gui_tools/QuizCreator/QuizCreator.cpp:338-357 | the re-stamping loop keeps each row's text, sets every line edit's index to its position and keeps the row count |
| `QuizCreatorModel.RestampAfterEraseRestoresPositions` | src/gui_tools/QuizCreator/QuizCreator.cpp:338-357 | if the tags equalled the positions before the erase, every line edit and button tag equals its new position afterwards; the "equals removed index" branch never fires |
| `QuizCreatorModel.StaleTagWithoutPositionalTags` | src/gui_tools/QuizCreator/QuizCreator.cpp:349-353 | without positional tags beforehand the loop leaves a button tag that differs from its row's position, while the line edit's tag is corrected |
| `QuizCreatorModel.RestampRowCategoryRows` | src/gui_tools/QuizCreator/QuizCreator.cpp:400-407 | after re-stamping, every row-category remove button's tag equals its position and the texts are kept |
| `QuizCreatorModel.AddCategoryNext` | src/gui_tools/QuizCreator/QuizCreator.cpp:193-235 | exactly one row, one category and one tab are appended, all named `"Category " + (old row count + 1)` with every tag equal to the old row count, and the existing ones are unchanged; the invariant and the name agreement are kept; the row categories are untouched |
| `QuizCreatorModel.ErasedCategoryKeepsInvariant` | src/gui_tools/QuizCreator/QuizCreator.cpp:331-357 | erasing row, category and tab `index + 1` and then re-stamping keeps the lock-step invariant, the tab/category name pairing and the name agreement |
| `QuizCreatorModel.RemoveCategoryNext` | src/gui_tools/QuizCreator/QuizCreator.cpp:309-357 | an out-of-range tag or a declined confirmation changes nothing; otherwise exactly category `tag` and its row are removed, the others keep their relative order, the invariant holds and the row categories are untouched |
| `QuizCreatorModel.UpdateCategoryTabNameNext` | src/gui_tools/QuizCreator/QuizCreator.cpp:423-435 | only category `tag` (and its tab) takes the new name, and only when `tag + 1` is a tab; rows and row categories are unchanged and the invariant holds |
| `QuizCreatorModel.EditCategoryTextNext` | src/gui_tools/QuizCreator/QuizCreator.cpp:203 | typing into a row's line edit renames that row, its category and its tab, because the line edit's tag is its position; every other row, category and tab and the row categories are unchanged; the name agreement is kept |
| `QuizCreatorModel.AddRowCategoryNext` | src/gui_tools/QuizCreator/QuizCreator.cpp:246-268 | exactly one row and one name are appended to the row categories, both the default name `"Row Category " + (old row count + 1)` and the row tagged with the old row count; the existing ones are unchanged and the categories are untouched |
| `QuizCreatorModel.RemoveRowCategoryNext` | src/gui_tools/QuizCreator/QuizCreator.cpp:373-407 | an out-of-range tag or a declined confirmation changes nothing; otherwise exactly entry `tag` and its row are removed, the others keep their order, the remove-button tags equal the positions and the categories are untouched |
| `QuizCreatorModel.EditRowCategoryTextNext` | src/gui_tools/QuizCreator/QuizCreator.cpp:252-267 | typing into a row-category line edit changes that line edit's text and nothing else: the stored row-category names, the other rows, the categories and the tabs are unchanged |
| `QuizCreatorModel.DefaultCategoryNamesDistinct` | src/gui_tools/QuizCreator/QuizCreator.cpp:199 | default names made from different row counts differ |
| `QuizCreatorModel.DefaultNameRepeatsAfterRemoval` | src/gui_tools/QuizCreator/QuizCreator.cpp:193-199 | because the default name depends only on the row count, add, remove the first, add again gives two rows with the same name |
| `QuizCreatorModel.RenameThenRemoveScenario` | src/gui_tools/QuizCreator/QuizCreator.cpp:331-357 | add three, rename the second to "History", remove the first: rows "History" and "Category 3" tagged 0 and 1, tabs "Setup", "History", "Category 3" |
| `QuizCreatorModel.QuizCreator.constructor` | src/gui_tools/QuizCreator/QuizCreator.cpp:82-152 | the new dialog is in the initial state and valid |
| `QuizCreatorModel.QuizCreator.AddCategory` | src/gui_tools/QuizCreator/QuizCreator.cpp:193-235 | the fields become `AddCategoryNext` of the old state and stay valid |
| `QuizCreatorModel.QuizCreator.EditCategory` | src/gui_tools/QuizCreator/QuizCreator.cpp:284-293 | a tab is selected exactly when the tag is a category index; the tab selected is `tag + 1` and it carries that category's name |
| `QuizCreatorModel.QuizCreator.RemoveCategory` | src/gui_tools/QuizCreator/QuizCreator.cpp:309-357 | the guards, the erase and the re-stamping loop together turn the fields into `RemoveCategoryNext` of the old state |
| `QuizCreatorModel.QuizCreator.AddRowCategory` | src/gui_tools/QuizCreator/QuizCreator.cpp:246-268 | the fields become `AddRowCategoryNext` of the old state and stay valid |
| `QuizCreatorModel.QuizCreator.RemoveRowCategory` | src/gui_tools/QuizCreator/QuizCreator.cpp:373-407 | the guard, the erase and the re-stamping loop together turn the fields into `RemoveRowCategoryNext` of the old state |
| `QuizCreatorModel.QuizCreator.UpdateCategoryTabName` | src/gui_tools/QuizCreator/QuizCreator.cpp:423-435 | the fields become `UpdateCategoryTabNameNext` of the old state and stay valid |
| `QuizCreatorModel.QuizCreator.EditCategoryText` | src/gui_tools/QuizCreator/QuizCreator.cpp:203 | editing a line edit and the slot its signal runs produce `EditCategoryTextNext` of the old state |
| `QuizCreatorModel.QuizCreator.EditRowCategoryText` | src/gui_tools/QuizCreator/QuizCreator.cpp:252-254 | editing a row-category line edit produces `EditRowCategoryTextNext` of the old state |
| `QuizTeamModel.Inverted` | src/widgets/QuizTeam.cpp:28 | each text channel is 255 minus the background channel, so it stays within 0..255 |
| `QuizTeamModel.InvertedTwice` | src/widgets/QuizTeam.cpp:28 | inverting the colour twice gives back the original |
| `QuizTeamModel.InvertedDiffers` | src/widgets/QuizTeam.cpp:28 | the text colour never equals the background colour |
| `QuizTeamModel.AddWrapping` | src/widgets/QuizTeam.cpp:38 | the new score is old score + points when that fits in a `size_t`, and it is smaller than the old score exactly when the sum overflows |
| `QuizTeamModel.CreateTeam` | src/widgets/QuizTeam.cpp:11-33 | an empty name fails with the source's message and creates no team; otherwise a fresh valid team with that name, colour, inverted text colour and initial score |
| `QuizTeamModel.QuizTeam.constructor` | src/widgets/QuizTeam.cpp:11-28 | a team with a non-empty name has the given name and colour, the inverted text colour and the label for its initial score |
| `QuizTeamModel.QuizTeam.AddPoints` | src/widgets/QuizTeam.cpp:35-43 | the score grows by exactly the points (modulo 2^64), the label is rebuilt from it, and name and colours do not change |
| `QuizTeamModel.QuizTeam.GetScore` | src/widgets/QuizTeam.cpp:45-48 | returns the current score and changes nothing |
| `QuizTeamModel.AwardScenario` | src/widgets/QuizTeam.cpp:11-48 | a red team "Team 1" starting at 0 that is awarded 100 and then 50 points reports a score of 150, shows "Team 1: " followed by the rendering of 150, and has cyan text |
| `QuizPreviewModel.Tabbed` | src/util/QuizLoader.hpp:30-32 | one line per name, in order, each being a tab followed by exactly that name |
| `QuizPreviewModel.AppendSection` | src/util/QuizLoader.hpp:28-33 | the section loop appends nothing for no names, otherwise the header line and one tabbed line per name, in order |
| `QuizPreviewModel.AppendPreview` | src/util/QuizLoader.hpp:24-45 | the step-by-step appends add exactly `Formatted(p)` to what the stream already held |
| `QuizPreviewModel.ParseLinesOfPreviewLines` | src/util/QuizLoader.hpp:26-43 | the line list of a preview determines the record: every field, in every section, reads back unchanged |
| `QuizPreviewModel.ParseFormatted` | src/util/QuizLoader.hpp:24-45 | the printed text of a record with single-line fields reads back as that record, so no entry is skipped, duplicated or reordered and each flag prints as "Yes" exactly when set |
| `QuizPreviewModel.CategoriesHeaderIffNonEmpty` | src/util/QuizLoader.hpp:28-29 | the line after the description is "Quiz Categories:" if and only if there are categories |
| `QuizPreviewModel.RowCategoriesHeaderIffNonEmpty` | src/util/QuizLoader.hpp:35-36 | the line after the categories section is "Quiz Row Categories:" if and only if there are row categories |
| `QuizPreviewModel.FormattedFrame` | src/util/QuizLoader.hpp:26-43 | the text starts with the name and description lines and ends with the songs and videos lines ("Yes" exactly when the flag is set) and a blank line |
| `QuizPreviewModel.DefaultFormatted` | src/util/QuizLoader.hpp:17-22 | a default preview prints no category sections and two "No" lines |

## Left out

- Widget construction, layout, styling, window geometry and the dialog constructor's Qt plumbing: only the state
  the slots touch is modelled.
- The null checks on the tables, the tab widget, the signal's sender and the line-edit cast are left out. After
  construction the widgets always exist and column 0 always holds a line edit, so these checks never fire. The
  sender is represented by the tag it carries (and by its text for `updateCategoryTabName`).
- The confirmation dialogs are a boolean answer; their wording is not modelled.
- Tab pages are not stored. The page of tab *i + 1* is the object `categories[i]`, and the model represents that
  aliasing by index. The title/name pairing in `Inv` is what the shared object guarantees.
- `QuizCreatorModel.QuizCreator.EditCategory`: it returns the index it would pass to `setCurrentIndex` rather than
  storing a current tab. The tab widget's own choice of current tab when tabs are added or removed is Qt behaviour
  that is not visible here.
- Media entries inside a category editor page and the audio player handed to it: a category is only its name.
- `saveQuiz`, `openLoadQuizDialog`, `loadQuiz`, `previewQuiz`, `stopQuizPreview` and `quitCreator` are left out.
  They call file-system checks, the persistence and playback factories, the media players and process exit, none of
  which is part of this model.
- `categoryOrderChanged` is an empty stub in the source, so no reorder operation is modelled.
- The `"index"` property is read back with `toInt()`; its truncation above `int` range is not modelled, because the
  tags are row positions.
- `QString(_score)` in the team label is a parameter `render`: the character conversion it performs is not
  modelled. The `toLocal8Bit` conversion of the label is left out as well.
- The team's initial score is set in `QuizTeam.hpp`, which is not part of this model; it is a constructor
  parameter.
- QuizTeamModel.AddWrapping: the declaration of `_score` is in `QuizTeam.hpp`, which is not part of this model.
  Its type is assumed to be `size_t`, like the parameter of `addPoints` and the result of `getScore`, and
  `size_t` is taken to be 64 bits wide. A narrower declared type would wrap earlier.
- The team's style-sheet text and mouse events are left out; only the two colours are modelled.
- `QuizLoader::getListOfQuizzes` and `QuizLoader::getQuizPreview` are declarations backed by the file system; they
  are not part of this model.
- The output stream is modelled as its accumulated text. Stream flags and stream failure are not modelled.
