/** The category-list bookkeeping of the quiz creator dialog
    (src/gui_tools/QuizCreator/QuizCreator.cpp).

    The dialog keeps three collections in lock-step: the rows of the categories
    table (a name line edit, an edit button and a remove button, each carrying an
    "index" property), the vector of category editor pages, and the tabs of the tab
    widget, where tab 0 is "Setup" and tab i + 1 shows category i. A simpler pair,
    the row-categories table and the vector of row-category names, sits beside it.
    Widgets are reduced to the data they hold; confirmation dialogs become a
    boolean answer. */
module QuizCreatorModel {
  import Decimal
  import opened Wrappers

  /** One row of the categories table: the text of its name line edit and the
      "index" property stamped on the line edit, the edit button and the remove button. */
  datatype CategoryRow = CategoryRow(text: string, nameTag: nat, editTag: nat, removeTag: nat)

  /** One row of the row-categories table: the text of its line edit and the
      "index" property of its remove button. */
  datatype RowCategoryRow = RowCategoryRow(text: string, removeTag: nat)

  /** A category editor page. Its media entries are not part of this model. */
  datatype CategoryCreator = CategoryCreator(name: string)

  /** The dialog's category bookkeeping. The page shown in tab i + 1 is
      categories[i], so only the tab titles are kept here. */
  datatype Editor = Editor(
    categoryRows: seq<CategoryRow>,
    categories: seq<CategoryCreator>,
    tabTitles: seq<string>,
    rowCategoryRows: seq<RowCategoryRow>,
    rowCategories: seq<string>)

  const SetupTitle: string := "Setup"

  /** "Category N", where N is one more than the number of rows before the insertion. */
  function DefaultCategoryName(count: nat): string {
    "Category " + Decimal.ToDecimal(count + 1)
  }

  /** "Row Category N", where N is one more than the number of rows before the insertion. */
  function DefaultRowCategoryName(count: nat): string {
    "Row Category " + Decimal.ToDecimal(count + 1)
  }

  predicate CategoryTagsArePositions(rows: seq<CategoryRow>) {
    forall i :: 0 <= i < |rows| ==> rows[i].nameTag == i && rows[i].editTag == i && rows[i].removeTag == i
  }

  predicate RowCategoryTagsArePositions(rows: seq<RowCategoryRow>) {
    forall i :: 0 <= i < |rows| ==> rows[i].removeTag == i
  }

  /** The lock-step invariant: as many rows as categories, one tab more than
      categories with "Setup" first, tab i + 1 titled with category i's name, and
      every stored index equal to its row's position. */
  predicate Inv(e: Editor) {
    && |e.categoryRows| == |e.categories|
    && |e.tabTitles| == |e.categories| + 1
    && e.tabTitles[0] == SetupTitle
    && (forall i :: 0 <= i < |e.categories| ==> e.tabTitles[i + 1] == e.categories[i].name)
    && CategoryTagsArePositions(e.categoryRows)
    && |e.rowCategoryRows| == |e.rowCategories|
    && RowCategoryTagsArePositions(e.rowCategoryRows)
  }

  /** Each category row's line edit shows the name of its category. */
  predicate NamesAgree(e: Editor) {
    |e.categoryRows| == |e.categories| &&
    forall i :: 0 <= i < |e.categoryRows| ==> e.categoryRows[i].text == e.categories[i].name
  }

  /** The state right after the dialog is built: empty tables and the "Setup" tab. */
  function Initial(): (e: Editor)
    ensures Inv(e) && NamesAgree(e)
    ensures |e.categories| == 0 && |e.rowCategories| == 0
  {
    Editor([], [], [SetupTitle], [], [])
  }

  /** The sequence with the element at `i` erased, the rest in their order. */
  function Erase<T>(s: seq<T>, i: nat): (r: seq<T>)
    requires i < |s|
    ensures |r| == |s| - 1
    ensures forall j :: 0 <= j < |r| ==> r[j] == s[if j < i then j else j + 1]
  {
    s[..i] + s[i + 1..]
  }

  /** What the re-stamping loop of removeCategory does to the row now at
      `position`: the line edit always takes the position; a button takes it
      unless its tag equals the removed index, in which case it is left alone. */
  function RestampCategoryRow(row: CategoryRow, position: nat, removed: nat): CategoryRow {
    CategoryRow(row.text, position,
                if row.editTag == removed then row.editTag else position,
                if row.removeTag == removed then row.removeTag else position)
  }

  function RestampCategoryRows(rows: seq<CategoryRow>, removed: nat): (r: seq<CategoryRow>)
    ensures |r| == |rows|
    ensures forall i :: 0 <= i < |r| ==> r[i].text == rows[i].text && r[i].nameTag == i
  {
    seq(|rows|, i requires 0 <= i < |rows| => RestampCategoryRow(rows[i], i, removed))
  }

  /** Erasing row `removed` from rows whose tags are their positions and then
      re-stamping gives rows whose tags are again their positions: the branch
      that leaves a button tag equal to the removed index never fires. */
  lemma RestampAfterEraseRestoresPositions(rows: seq<CategoryRow>, removed: nat)
    requires CategoryTagsArePositions(rows) && removed < |rows|
    ensures CategoryTagsArePositions(RestampCategoryRows(Erase(rows, removed), removed))
  {
    var erased := Erase(rows, removed);
    var r := RestampCategoryRows(erased, removed);
    forall j | 0 <= j < |r|
      ensures r[j].nameTag == j && r[j].editTag == j && r[j].removeTag == j
    {
      var k := if j < removed then j else j + 1;
      assert erased[j] == rows[k];
      assert rows[k].editTag == k && rows[k].removeTag == k;
      assert k != removed;
    }
  }

  /** Without positional tags beforehand the re-stamping loop can leave a stale
      button tag: three rows all tagged 0, row 0 removed, leaves the edit button
      of the row now at position 1 tagged 0. */
  lemma StaleTagWithoutPositionalTags()
    ensures var rows := [CategoryRow("a", 0, 0, 0), CategoryRow("b", 0, 0, 0), CategoryRow("c", 0, 0, 0)];
            var r := RestampCategoryRows(Erase(rows, 0), 0);
            r[1].nameTag == 1 && r[1].editTag == 0 && r[1].removeTag == 0
  {
  }

  function RestampRowCategoryRows(rows: seq<RowCategoryRow>): (r: seq<RowCategoryRow>)
    ensures |r| == |rows| && RowCategoryTagsArePositions(r)
    ensures forall i :: 0 <= i < |r| ==> r[i].text == rows[i].text
  {
    seq(|rows|, i requires 0 <= i < |rows| => rows[i].(removeTag := i))
  }

  /** addCategory: one more row, category and tab, all named by the old row count. */
  function AddCategoryNext(e: Editor): (r: Editor)
    ensures Inv(e) ==> Inv(r)
    ensures NamesAgree(e) ==> NamesAgree(r)
    ensures |r.categoryRows| == |e.categoryRows| + 1 && |r.categories| == |e.categories| + 1
    ensures |r.tabTitles| == |e.tabTitles| + 1
    ensures r.categoryRows[..|e.categoryRows|] == e.categoryRows && r.categories[..|e.categories|] == e.categories
    ensures r.tabTitles[..|e.tabTitles|] == e.tabTitles
    ensures r.rowCategoryRows == e.rowCategoryRows && r.rowCategories == e.rowCategories
    ensures var n := |e.categoryRows|;
            && r.categoryRows[n] == CategoryRow(DefaultCategoryName(n), n, n, n)
            && r.categories[|e.categories|] == CategoryCreator(DefaultCategoryName(n))
            && r.tabTitles[|e.tabTitles|] == DefaultCategoryName(n)
  {
    var n := |e.categoryRows|;
    var name := DefaultCategoryName(n);
    e.(categoryRows := e.categoryRows + [CategoryRow(name, n, n, n)],
       categories := e.categories + [CategoryCreator(name)],
       tabTitles := e.tabTitles + [name])
  }

  /** The confirmed removal of category `tag`: the row, the category and tab
      tag + 1 erased, then the rows re-stamped. */
  function ErasedCategory(e: Editor, tag: nat): Editor
    requires tag < |e.categoryRows| && tag + 1 < |e.tabTitles| && tag < |e.categories|
  {
    e.(categoryRows := RestampCategoryRows(Erase(e.categoryRows, tag), tag),
       categories := Erase(e.categories, tag),
       tabTitles := Erase(e.tabTitles, tag + 1))
  }

  lemma ErasedCategoryKeepsInvariant(e: Editor, tag: nat)
    requires Inv(e) && tag < |e.categories|
    ensures Inv(ErasedCategory(e, tag))
    ensures NamesAgree(e) ==> NamesAgree(ErasedCategory(e, tag))
  {
    var r := ErasedCategory(e, tag);
    RestampAfterEraseRestoresPositions(e.categoryRows, tag);
    forall i | 0 <= i < |r.categories|
      ensures r.tabTitles[i + 1] == r.categories[i].name
    {
      var k := if i < tag then i else i + 1;
      assert r.categories[i] == e.categories[k];
      assert r.tabTitles[i + 1] == e.tabTitles[k + 1];
    }
  }

  /** removeCategory with the tag of the pressed button and the user's answer. */
  function RemoveCategoryNext(e: Editor, tag: nat, confirmed: bool): (r: Editor)
    requires Inv(e)
    ensures Inv(r)
    ensures NamesAgree(e) ==> NamesAgree(r)
    ensures !(tag < |e.categories| && confirmed) ==> r == e
    ensures tag < |e.categories| && confirmed ==>
              && |r.categories| == |e.categories| - 1
              && (forall j :: 0 <= j < |r.categories| ==>
                    var k := if j < tag then j else j + 1;
                    r.categories[j] == e.categories[k] && r.categoryRows[j].text == e.categoryRows[k].text)
    ensures r.rowCategoryRows == e.rowCategoryRows && r.rowCategories == e.rowCategories
  {
    if tag >= |e.tabTitles| || tag >= |e.categoryRows| || !confirmed then e
    else
      ErasedCategoryKeepsInvariant(e, tag);
      ErasedCategory(e, tag)
  }

  /** updateCategoryTabName, fired by a line edit whose tag is `tag` and whose text is now `text`. */
  function UpdateCategoryTabNameNext(e: Editor, tag: nat, text: string): (r: Editor)
    requires Inv(e)
    ensures Inv(r)
    ensures r.categoryRows == e.categoryRows
    ensures r.rowCategoryRows == e.rowCategoryRows && r.rowCategories == e.rowCategories
    ensures |r.categories| == |e.categories|
    ensures forall j :: 0 <= j < |r.categories| ==>
              r.categories[j].name == if j == tag then text else e.categories[j].name
  {
    var index := tag + 1;
    if index >= |e.tabTitles| then e
    else e.(tabTitles := e.tabTitles[index := text],
            categories := e.categories[index - 1 := e.categories[index - 1].(name := text)])
  }

  /** The user types `text` into the name line edit of category row `row`: the
      line edit changes and its textChanged signal runs updateCategoryTabName
      with the tag stored on that line edit. */
  function EditCategoryTextNext(e: Editor, row: nat, text: string): (r: Editor)
    requires Inv(e) && row < |e.categoryRows|
    ensures Inv(r)
    ensures NamesAgree(e) ==> NamesAgree(r)
    ensures |r.categoryRows| == |e.categoryRows|
    ensures r.categoryRows[row].text == text && r.categories[row].name == text && r.tabTitles[row + 1] == text
    ensures forall j :: 0 <= j < |r.categoryRows| && j != row ==>
              r.categoryRows[j] == e.categoryRows[j] && r.categories[j] == e.categories[j] &&
              r.tabTitles[j + 1] == e.tabTitles[j + 1]
    ensures r.categoryRows[row] == e.categoryRows[row].(text := text)
    ensures r.rowCategoryRows == e.rowCategoryRows && r.rowCategories == e.rowCategories
  {
    var rows := e.categoryRows[row := e.categoryRows[row].(text := text)];
    UpdateCategoryTabNameNext(e.(categoryRows := rows), e.categoryRows[row].nameTag, text)
  }

  /** addRowCategory: one more row and one more name, both the default name. */
  function AddRowCategoryNext(e: Editor): (r: Editor)
    ensures Inv(e) ==> Inv(r)
    ensures |r.rowCategories| == |e.rowCategories| + 1 && |r.rowCategoryRows| == |e.rowCategoryRows| + 1
    ensures r.rowCategories[..|e.rowCategories|] == e.rowCategories
    ensures r.rowCategoryRows[..|e.rowCategoryRows|] == e.rowCategoryRows
    ensures r.categoryRows == e.categoryRows && r.categories == e.categories && r.tabTitles == e.tabTitles
    ensures var m := |e.rowCategoryRows|;
            && r.rowCategoryRows[m] == RowCategoryRow(DefaultRowCategoryName(m), m)
            && r.rowCategories[|e.rowCategories|] == DefaultRowCategoryName(m)
  {
    var n := |e.rowCategoryRows|;
    var name := DefaultRowCategoryName(n);
    e.(rowCategoryRows := e.rowCategoryRows + [RowCategoryRow(name, n)],
       rowCategories := e.rowCategories + [name])
  }

  /** removeRowCategory with the tag of the pressed button and the user's answer. */
  function RemoveRowCategoryNext(e: Editor, tag: nat, confirmed: bool): (r: Editor)
    requires Inv(e)
    ensures Inv(r)
    ensures !(tag < |e.rowCategories| && confirmed) ==> r == e
    ensures tag < |e.rowCategories| && confirmed ==>
              && |r.rowCategories| == |e.rowCategories| - 1
              && (forall j :: 0 <= j < |r.rowCategories| ==>
                    var k := if j < tag then j else j + 1;
                    r.rowCategories[j] == e.rowCategories[k] && r.rowCategoryRows[j].text == e.rowCategoryRows[k].text)
    ensures r.categoryRows == e.categoryRows && r.categories == e.categories && r.tabTitles == e.tabTitles
  {
    if tag >= |e.rowCategoryRows| || !confirmed then e
    else e.(rowCategoryRows := RestampRowCategoryRows(Erase(e.rowCategoryRows, tag)),
            rowCategories := Erase(e.rowCategories, tag))
  }

  /** The user types into a row-category line edit. No slot is connected to it,
      so the stored row-category name keeps its creation-time text. */
  function EditRowCategoryTextNext(e: Editor, row: nat, text: string): (r: Editor)
    requires row < |e.rowCategoryRows|
    ensures Inv(e) ==> Inv(r)
    ensures r.rowCategories == e.rowCategories
    ensures |r.rowCategoryRows| == |e.rowCategoryRows| && r.rowCategoryRows[row].text == text
    ensures r.rowCategoryRows[row] == e.rowCategoryRows[row].(text := text)
    ensures forall j :: 0 <= j < |r.rowCategoryRows| && j != row ==> r.rowCategoryRows[j] == e.rowCategoryRows[j]
    ensures r.categoryRows == e.categoryRows && r.categories == e.categories && r.tabTitles == e.tabTitles
  {
    e.(rowCategoryRows := e.rowCategoryRows[row := e.rowCategoryRows[row].(text := text)])
  }

  /** Distinct row counts give distinct default names. */
  lemma DefaultCategoryNamesDistinct(m: nat, n: nat)
    ensures m != n ==> DefaultCategoryName(m) != DefaultCategoryName(n)
  {
    var prefix := "Category ";
    if DefaultCategoryName(m) == DefaultCategoryName(n) {
      assert Decimal.ToDecimal(m + 1) == DefaultCategoryName(m)[|prefix|..];
      assert Decimal.ToDecimal(n + 1) == DefaultCategoryName(n)[|prefix|..];
      Decimal.ToDecimalInjective(m + 1, n + 1);
    }
  }

  /** Because the default name depends only on the row count, adding a category,
      removing the first one and adding another yields two rows with the same name. */
  lemma DefaultNameRepeatsAfterRemoval(e: Editor)
    requires Inv(e) && |e.categoryRows| >= 1
    ensures var r := AddCategoryNext(RemoveCategoryNext(AddCategoryNext(e), 0, true));
            var n := |r.categoryRows|;
            n == |e.categoryRows| + 1 &&
            r.categoryRows[n - 2].text == r.categoryRows[n - 1].text == DefaultCategoryName(n - 1)
  {
    var k := |e.categoryRows|;
    var e1 := AddCategoryNext(e);
    assert e1.categoryRows[k].text == DefaultCategoryName(k);
    var e2 := RemoveCategoryNext(e1, 0, true);
    assert e2.categoryRows[k - 1].text == e1.categoryRows[k].text;
    var r := AddCategoryNext(e2);
    assert r.categoryRows[k - 1] == e2.categoryRows[k - 1];
  }

  /** Three categories added to the empty dialog are "Category 1" to "Category 3",
      tagged 0 to 2, each with its own tab after "Setup". */
  lemma ThreeDefaultCategories()
    ensures var e3 := AddCategoryNext(AddCategoryNext(AddCategoryNext(Initial())));
            && e3.categoryRows == [CategoryRow("Category 1", 0, 0, 0), CategoryRow("Category 2", 1, 1, 1),
                                   CategoryRow("Category 3", 2, 2, 2)]
            && e3.categories == [CategoryCreator("Category 1"), CategoryCreator("Category 2"),
                                 CategoryCreator("Category 3")]
            && e3.tabTitles == ["Setup", "Category 1", "Category 2", "Category 3"]
            && e3.rowCategoryRows == [] && e3.rowCategories == []
  {
    assert Decimal.ToDecimal(1) == "1" && Decimal.ToDecimal(2) == "2" && Decimal.ToDecimal(3) == "3";
    assert DefaultCategoryName(0) == "Category 1";
    assert DefaultCategoryName(1) == "Category 2";
    assert DefaultCategoryName(2) == "Category 3";
    var e1 := AddCategoryNext(Initial());
    assert e1.categoryRows == [CategoryRow("Category 1", 0, 0, 0)];
    assert e1.tabTitles == ["Setup", "Category 1"];
    var e2 := AddCategoryNext(e1);
    assert e2.categoryRows == [CategoryRow("Category 1", 0, 0, 0), CategoryRow("Category 2", 1, 1, 1)];
    assert e2.tabTitles == ["Setup", "Category 1", "Category 2"];
  }

  /** Three categories added, the second renamed to "History", the first
      removed: two rows "History" and "Category 3" tagged 0 and 1, and the tabs
      follow. The rename reaches the right tab because removal re-stamps the
      line edits' tags. */
  lemma RenameThenRemoveScenario()
    ensures var e3 := AddCategoryNext(AddCategoryNext(AddCategoryNext(Initial())));
            var e4 := EditCategoryTextNext(e3, 1, "History");
            var e5 := RemoveCategoryNext(e4, 0, true);
            && e5.categoryRows == [CategoryRow("History", 0, 0, 0), CategoryRow("Category 3", 1, 1, 1)]
            && e5.categories == [CategoryCreator("History"), CategoryCreator("Category 3")]
            && e5.tabTitles == ["Setup", "History", "Category 3"]
  {
    ThreeDefaultCategories();
    var e3 := AddCategoryNext(AddCategoryNext(AddCategoryNext(Initial())));
    var e4 := EditCategoryTextNext(e3, 1, "History");
    assert e4.categoryRows == [CategoryRow("Category 1", 0, 0, 0), CategoryRow("History", 1, 1, 1),
                               CategoryRow("Category 3", 2, 2, 2)];
    assert e4.categories == [CategoryCreator("Category 1"), CategoryCreator("History"),
                             CategoryCreator("Category 3")];
    assert e4.tabTitles == ["Setup", "Category 1", "History", "Category 3"];
  }

  /** The dialog itself: the same state held in fields that its slots update in place. */
  class QuizCreator {
    var categoryRows: seq<CategoryRow>
    var categories: seq<CategoryCreator>
    var tabTitles: seq<string>
    var rowCategoryRows: seq<RowCategoryRow>
    var rowCategories: seq<string>

    function State(): Editor
      reads this
    {
      Editor(categoryRows, categories, tabTitles, rowCategoryRows, rowCategories)
    }

    ghost predicate Valid()
      reads this
    {
      Inv(State())
    }

    /** The dialog as createLayout leaves it: empty tables and the "Setup" tab. */
    constructor ()
      ensures Valid() && State() == Initial()
    {
      categoryRows := [];
      categories := [];
      tabTitles := [SetupTitle];
      rowCategoryRows := [];
      rowCategories := [];
    }

    method AddCategory()
      requires Valid()
      modifies this
      ensures Valid() && State() == AddCategoryNext(old(State()))
    {
      var count := |categoryRows|;
      var name := DefaultCategoryName(count);
      categoryRows := categoryRows + [CategoryRow(name, count, count, count)];
      categories := categories + [CategoryCreator(name)];
      tabTitles := tabTitles + [name];
    }

    /** editCategory: the tab to switch to for the edit button tagged `tag`, or
        None when the tag is out of range and nothing happens. */
    method EditCategory(tag: nat) returns (target: Option<nat>)
      requires Valid()
      ensures target.Some? <==> tag < |categories|
      ensures target.Some? ==> target.value == tag + 1 && target.value < |tabTitles| &&
                               tabTitles[target.value] == categories[tag].name
    {
      var categoryCount := |categoryRows|;
      if tag >= |tabTitles| || tag >= categoryCount {
        return None;
      }
      target := Some(tag + 1);
    }

    method RemoveCategory(tag: nat, confirmed: bool)
      requires Valid()
      modifies this
      ensures Valid() && State() == RemoveCategoryNext(old(State()), tag, confirmed)
    {
      var categoryCount := |categoryRows|;
      if tag >= |tabTitles| || tag >= categoryCount {
        return;
      }
      if !confirmed {
        return;
      }
      categoryRows := Erase(categoryRows, tag);
      categories := Erase(categories, tag);
      tabTitles := Erase(tabTitles, tag + 1);

      ghost var erased := categoryRows;
      var i := 0;
      while i < |categoryRows|
        invariant |categoryRows| == |erased| && 0 <= i <= |categoryRows|
        invariant forall j :: 0 <= j < i ==> categoryRows[j] == RestampCategoryRow(erased[j], j, tag)
        invariant forall j :: i <= j < |categoryRows| ==> categoryRows[j] == erased[j]
        invariant categories == Erase(old(categories), tag) && tabTitles == Erase(old(tabTitles), tag + 1)
        invariant rowCategoryRows == old(rowCategoryRows) && rowCategories == old(rowCategories)
      {
        var row := categoryRows[i];
        var editTag := if row.editTag == tag then row.editTag else i;
        var removeTag := if row.removeTag == tag then row.removeTag else i;
        categoryRows := categoryRows[i := CategoryRow(row.text, i, editTag, removeTag)];
        i := i + 1;
      }
      assert categoryRows == RestampCategoryRows(erased, tag);
    }

    method AddRowCategory()
      requires Valid()
      modifies this
      ensures Valid() && State() == AddRowCategoryNext(old(State()))
    {
      var count := |rowCategoryRows|;
      var name := DefaultRowCategoryName(count);
      rowCategoryRows := rowCategoryRows + [RowCategoryRow(name, count)];
      rowCategories := rowCategories + [name];
    }

    method RemoveRowCategory(tag: nat, confirmed: bool)
      requires Valid()
      modifies this
      ensures Valid() && State() == RemoveRowCategoryNext(old(State()), tag, confirmed)
    {
      var rowCategoryCount := |rowCategoryRows|;
      if tag >= rowCategoryCount || !confirmed {
        return;
      }
      rowCategoryRows := Erase(rowCategoryRows, tag);
      rowCategories := Erase(rowCategories, tag);

      ghost var erased := rowCategoryRows;
      var i := 0;
      while i < |rowCategoryRows|
        invariant |rowCategoryRows| == |erased| && 0 <= i <= |rowCategoryRows|
        invariant forall j :: 0 <= j < i ==> rowCategoryRows[j] == erased[j].(removeTag := j)
        invariant forall j :: i <= j < |rowCategoryRows| ==> rowCategoryRows[j] == erased[j]
        invariant rowCategories == Erase(old(rowCategories), tag)
        invariant categoryRows == old(categoryRows) && categories == old(categories) && tabTitles == old(tabTitles)
      {
        rowCategoryRows := rowCategoryRows[i := rowCategoryRows[i].(removeTag := i)];
        i := i + 1;
      }
      assert rowCategoryRows == RestampRowCategoryRows(erased);
    }

    method UpdateCategoryTabName(tag: nat, text: string)
      requires Valid()
      modifies this
      ensures Valid() && State() == UpdateCategoryTabNameNext(old(State()), tag, text)
    {
      var index := tag + 1;
      if index >= |tabTitles| {
        return;
      }
      tabTitles := tabTitles[index := text];
      categories := categories[index - 1 := categories[index - 1].(name := text)];
    }

    /** The user edits category row `row`'s line edit; its signal runs UpdateCategoryTabName. */
    method EditCategoryText(row: nat, text: string)
      requires Valid() && row < |categoryRows|
      modifies this
      ensures Valid() && State() == EditCategoryTextNext(old(State()), row, text)
    {
      var tag := categoryRows[row].nameTag;
      categoryRows := categoryRows[row := categoryRows[row].(text := text)];
      UpdateCategoryTabName(tag, text);
    }

    /** The user edits row-category row `row`'s line edit; no slot reacts. */
    method EditRowCategoryText(row: nat, text: string)
      requires Valid() && row < |rowCategoryRows|
      modifies this
      ensures Valid() && State() == EditRowCategoryTextNext(old(State()), row, text)
    {
      rowCategoryRows := rowCategoryRows[row := rowCategoryRows[row].(text := text)];
    }
  }
}
