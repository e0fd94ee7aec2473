/**
  The UKT-category history screen: a searchable, filterable grid of the
  category changes of students, a modal form that records a new change, and a
  delete button per row that asks for confirmation first.
 */
module CategoryHistory {
  import opened Js
  import opened Api

  datatype HistoryForm = HistoryForm(nim: Value, id_kategori_ukt: Value, tanggal_perubahan: Value)
  {
    function With(f: Field, v: Value): HistoryForm {
      match f
      case Nim => this.(nim := v)
      case Category => this.(id_kategori_ukt := v)
      case ChangeDate => this.(tanggal_perubahan := v)
    }
  }

  datatype Field = Nim | Category | ChangeDate

  /** The form of a new entry, and of a closed dialog; `today` is
      `new Date().toISOString().split('T')[0]`. */
  function DefaultForm(today: string): HistoryForm {
    HistoryForm(Str(""), Str(""), Str(today))
  }

  datatype HistoryPayload = HistoryPayload(nim: Value, id_kategori_ukt: Value, tanggal_perubahan: Value)

  /** The screen can only create and delete entries. */
  datatype HistoryRequest = CreateHistory(payload: HistoryPayload) | DeleteHistory(id: Value)

  /** The create payload: the form with the category id run through `parseInt`. */
  function SubmitPayload(form: HistoryForm): (p: HistoryPayload)
    ensures p.nim == form.nim && p.tanggal_perubahan == form.tanggal_perubahan
    ensures form.id_kategori_ukt == Str("") ==> p.id_kategori_ukt == NaN
    ensures forall k :: form.id_kategori_ukt in {Num(k), Str(IntToDecimal(k))} ==> p.id_kategori_ukt == Num(k)
  {
    forall k ensures form.id_kategori_ukt in {Num(k), Str(IntToDecimal(k))} ==> ParseInt(form.id_kategori_ukt) == Num(k) {
      ParseIntRoundTrip(k);
    }
    HistoryPayload(form.nim, ParseInt(form.id_kategori_ukt), form.tanggal_perubahan)
  }

  // ---------------------------------------------------------------------------
  // Display joins

  /** `getStudentName(nim)`: the student's name, or the nim itself when no
      loaded student has it. */
  function StudentName(students: Value, nim: Value): (r: Eval<Value>)
    ensures r.TypeError? <==> FindBy(students, "nim", nim).TypeError?
    ensures FindBy(students, "nim", nim) == Returns(Undefined) ==> r == Returns(nim)
    ensures r.Returns? && Truthy(FindBy(students, "nim", nim).value) ==>
              r.value == OptMember(FindBy(students, "nim", nim).value, "nama")
  {
    var s :- FindBy(students, "nim", nim);
    Returns(if Truthy(s) then OptMember(s, "nama") else nim)
  }

  /** `getCategoryName(id)`: the category's name, or the id itself (a number)
      when no loaded category has it. */
  function CategoryName(categories: Value, id: Value): (r: Eval<Value>)
    ensures r.TypeError? <==> FindBy(categories, "id_kategori_ukt", id).TypeError?
    ensures FindBy(categories, "id_kategori_ukt", id) == Returns(Undefined) ==> r == Returns(id)
    ensures r.Returns? && Truthy(FindBy(categories, "id_kategori_ukt", id).value) ==>
              r.value == OptMember(FindBy(categories, "id_kategori_ukt", id).value, "nama_kategori")
  {
    var c :- FindBy(categories, "id_kategori_ukt", id);
    Returns(if Truthy(c) then OptMember(c, "nama_kategori") else id)
  }

  // ---------------------------------------------------------------------------
  // Search and filters

  /** `matchesSearch`: an empty query matches; otherwise the row's nim, then its
      student's name, then its category's name is lower-cased and searched,
      stopping at the first hit. */
  function MatchesSearch(item: Value, students: Value, categories: Value, query: string): Eval<bool> {
    if query == "" then Returns(true)
    else
      var nim :- Member(item, "nim");
      var byNim :- SearchHit(nim, query);
      if byNim then Returns(true)
      else
        var name :- StudentName(students, nim);
        var byName :- SearchHit(name, query);
        if byName then Returns(true)
        else
          // `item.nim` was read, so `item` is an object here
          var id := OptMember(item, "id_kategori_ukt");
          var category :- CategoryName(categories, id);
          SearchHit(category, query)
  }

  /** `matchesNIM`. */
  function MatchesNim(item: Value, filterNim: Value): Eval<bool> {
    if StrictEq(filterNim, Str("")) then Returns(true)
    else
      var nim :- Member(item, "nim");
      Returns(StrictEq(nim, filterNim))
  }

  /** `matchesCategory`: the row's category id as text against the filter's. */
  function MatchesCategory(item: Value, filterCategory: string): Eval<bool> {
    if filterCategory == "" then Returns(true)
    else
      var id :- Member(item, "id_kategori_ukt");
      var text :- MethodToString(id);
      Returns(text == filterCategory)
  }

  /** The filter's callback: all three tests are evaluated, in order. */
  function RowVerdict(item: Value, students: Value, categories: Value, query: string,
                      filterNim: Value, filterCategory: string): Eval<bool>
  {
    var s :- MatchesSearch(item, students, categories, query);
    var n :- MatchesNim(item, filterNim);
    var c :- MatchesCategory(item, filterCategory);
    Returns(s && n && c)
  }

  function RowTest(students: Value, categories: Value, query: string, filterNim: Value,
                   filterCategory: string): Value -> Eval<bool>
  {
    item => RowVerdict(item, students, categories, query, filterNim, filterCategory)
  }

  /** `filteredData`: the history rows the callback keeps, or no rows when the
      history is not loaded. */
  function FilterHistory(history: Value, students: Value, categories: Value, query: string,
                         filterNim: Value, filterCategory: string): (r: Eval<seq<Value>>)
    ensures Nullish(history) ==> r == Returns([])
    ensures !Nullish(history) && !history.Arr? ==> r.TypeError?
  {
    match history
    case Undefined => Returns([])
    case Null => Returns([])
    case Arr(items) => FilterEval(items, RowTest(students, categories, query, filterNim, filterCategory))
    case _ => TypeError
  }

  /** On a loaded history the filter keeps, in their original order, exactly
      the rows on which the callback returns true, and fails exactly when the
      callback throws on some row. */
  lemma FilterHistoryKeeps(items: seq<Value>, students: Value, categories: Value, query: string,
                           filterNim: Value, filterCategory: string)
    ensures var p := RowTest(students, categories, query, filterNim, filterCategory);
      var r := FilterHistory(Arr(items), students, categories, query, filterNim, filterCategory);
      && (r.TypeError? <==> exists i :: 0 <= i < |items| && p(items[i]).TypeError?)
      && (r.Returns? ==> r.value == SelectTrue(items, p))
      && (r.Returns? ==> forall x :: x in r.value <==>
            x in items && RowVerdict(x, students, categories, query, filterNim, filterCategory) == Returns(true))
  {
    var p := RowTest(students, categories, query, filterNim, filterCategory);
    FilterEvalThrows(items, p);
    if FilterEval(items, p).Returns? {
      FilterEvalSelects(items, p);
      forall x ensures x in SelectTrue(items, p) <==> x in items && p(x) == Returns(true) {
        SelectTrueMembers(items, p, x);
      }
    }
  }

  /** With no search text and neither filter set, every row is kept in its
      original order, whatever the rows hold. */
  lemma NoFiltersKeepAll(items: seq<Value>, students: Value, categories: Value)
    ensures FilterHistory(Arr(items), students, categories, "", Str(""), "") == Returns(items)
  {
    var p := RowTest(students, categories, "", Str(""), "");
    assert forall i :: 0 <= i < |items| ==> p(items[i]) == Returns(true);
    FilterEvalSelects(items, p);
    SelectTrueAll(items, p);
  }

  /** A row whose `nim` and `id_kategori_ukt` come first. */
  function Row(nim: string, id: int, rest: seq<(string, Value)>): (item: Value)
    ensures item.Obj? && Lookup(item.props, "nim") == Str(nim) && Lookup(item.props, "id_kategori_ukt") == Num(id)
  {
    var props := [("nim", Str(nim)), ("id_kategori_ukt", Num(id))] + rest;
    assert props[1..] == [("id_kategori_ukt", Num(id))] + rest;
    Obj(props)
  }

  lemma SearchMeaning(item: Value, nim: string, id: int, students: Value, categories: Value, query: string)
    requires item.Obj? && Lookup(item.props, "nim") == Str(nim) && Lookup(item.props, "id_kategori_ukt") == Num(id)
    requires StudentName(students, Str(nim)).Returns? && StudentName(students, Str(nim)).value.Str?
    requires CategoryName(categories, Num(id)).Returns? && CategoryName(categories, Num(id)).value.Str?
    ensures var name := StudentName(students, Str(nim)).value.s;
      var category := CategoryName(categories, Num(id)).value.s;
      MatchesSearch(item, students, categories, query) == Returns(
        query == "" || Includes(Lower(nim), Lower(query)) || Includes(Lower(name), Lower(query))
        || Includes(Lower(category), Lower(query)))
  {
  }

  lemma NimFilterMeaning(item: Value, nim: string, filterNim: Value)
    requires item.Obj? && Lookup(item.props, "nim") == Str(nim)
    ensures MatchesNim(item, filterNim) == Returns(filterNim == Str("") || filterNim == Str(nim))
  {
  }

  lemma CategoryFilterMeaning(item: Value, id: int, filterCategory: string)
    requires item.Obj? && Lookup(item.props, "id_kategori_ukt") == Num(id)
    ensures MatchesCategory(item, filterCategory) == Returns(filterCategory == "" || filterCategory == IntToDecimal(id))
  {
  }

  /** For a row with a string nim and a numeric category id whose student and
      category names resolve to strings, the callback is the conjunction of the
      three tests: a case-insensitive substring hit on nim, student name or
      category name; the nim filter empty or equal; the category filter empty
      or the id's decimal text. */
  lemma RowVerdictMeaning(nim: string, id: int, rest: seq<(string, Value)>, students: Value, categories: Value,
                          query: string, filterNim: Value, filterCategory: string)
    requires StudentName(students, Str(nim)).Returns? && StudentName(students, Str(nim)).value.Str?
    requires CategoryName(categories, Num(id)).Returns? && CategoryName(categories, Num(id)).value.Str?
    ensures var name := StudentName(students, Str(nim)).value.s;
      var category := CategoryName(categories, Num(id)).value.s;
      RowVerdict(Row(nim, id, rest), students, categories, query, filterNim, filterCategory) == Returns(
        && (query == "" || Includes(Lower(nim), Lower(query)) || Includes(Lower(name), Lower(query))
            || Includes(Lower(category), Lower(query)))
        && (filterNim == Str("") || filterNim == Str(nim))
        && (filterCategory == "" || filterCategory == IntToDecimal(id)))
  {
    var item := Row(nim, id, rest);
    SearchMeaning(item, nim, id, students, categories, query);
    NimFilterMeaning(item, nim, filterNim);
    CategoryFilterMeaning(item, id, filterCategory);
  }

  /** The category filter offers each category's id as text, so on numeric ids
      it keeps exactly the rows of the chosen category. */
  lemma CategoryFilterById(item: Value, id: int, chosen: int)
    requires item.Obj? && Lookup(item.props, "id_kategori_ukt") == Num(id)
    ensures MatchesCategory(item, IntToDecimal(chosen)) == Returns(id == chosen)
  {
    DecimalInjective(id, chosen);
    NatToDecimalDigits(if chosen < 0 then -chosen else chosen);
  }

  // ---------------------------------------------------------------------------
  // The search on a category that is not loaded

  /** A history row with a numeric category id. */
  const SampleRow := Obj([("id_riwayat", Num(1)), ("nim", Str("A1")), ("id_kategori_ukt", Num(3))])

  /** As written, a search that reaches the category of a row whose category is
      not loaded lower-cases the numeric id that `getCategoryName` fell back to,
      and the whole filter throws. */
  lemma UnloadedCategoryThrows()
    ensures FilterHistory(Arr([SampleRow]), Arr([]), Arr([]), "x", Str(""), "").TypeError?
  {
    var p := RowTest(Arr([]), Arr([]), "x", Str(""), "");
    assert Lookup(SampleRow.props, "nim") == Str("A1");
    assert Lookup(SampleRow.props, "id_kategori_ukt") == Num(3);
    assert StudentName(Arr([]), Str("A1")) == Returns(Str("A1"));
    assert LowerChar('A') == 'a';
    assert Lower("A1") == "a1";
    assert !Includes("a1", "x") by {
      assert "a1"[1..] == "1" && "1"[1..] == "";
      assert "a1"[0] == 'a' && "1"[0] == '1';
    }
    assert SearchHit(Str("A1"), "x") == Returns(false);
    assert CategoryName(Arr([]), Num(3)) == Returns(Num(3));
    assert MatchesSearch(SampleRow, Arr([]), Arr([]), "x").TypeError?;
    assert p(SampleRow).TypeError?;
    FilterEvalThrows([SampleRow], p);
  }

  /** The search as evidently intended: the category name goes through
      `String(...)` before it is lower-cased. */
  function MatchesSearchFixed(item: Value, students: Value, categories: Value, query: string): Eval<bool> {
    if query == "" then Returns(true)
    else
      var nim :- Member(item, "nim");
      var byNim :- SearchHit(nim, query);
      if byNim then Returns(true)
      else
        var name :- StudentName(students, nim);
        var byName :- SearchHit(name, query);
        if byName then Returns(true)
        else
          // `item.nim` was read, so `item` is an object here
          var id := OptMember(item, "id_kategori_ukt");
          var category :- CategoryName(categories, id);
          SearchHit(Str(ToString(category)), query)
  }

  function RowVerdictFixed(item: Value, students: Value, categories: Value, query: string,
                           filterNim: Value, filterCategory: string): Eval<bool>
  {
    var s :- MatchesSearchFixed(item, students, categories, query);
    var n :- MatchesNim(item, filterNim);
    var c :- MatchesCategory(item, filterCategory);
    Returns(s && n && c)
  }

  function RowTestFixed(students: Value, categories: Value, query: string, filterNim: Value,
                        filterCategory: string): Value -> Eval<bool>
  {
    item => RowVerdictFixed(item, students, categories, query, filterNim, filterCategory)
  }

  function FilterHistoryFixed(history: Value, students: Value, categories: Value, query: string,
                              filterNim: Value, filterCategory: string): (r: Eval<seq<Value>>)
    ensures Nullish(history) ==> r == Returns([])
  {
    match history
    case Undefined => Returns([])
    case Null => Returns([])
    case Arr(items) => FilterEval(items, RowTestFixed(students, categories, query, filterNim, filterCategory))
    case _ => TypeError
  }

  /** A loaded list of records whose `key` is a string. */
  predicate Records(v: Value, key: string) {
    Nullish(v) || (v.Arr? && forall i :: 0 <= i < |v.items| ==> v.items[i].Obj? && OwnProp(v.items[i], key).Str?)
  }

  /** History rows: records with a string nim and a category id. */
  predicate HistoryRows(items: seq<Value>) {
    forall i :: 0 <= i < |items| ==>
      items[i].Obj? && OwnProp(items[i], "nim").Str? && !Nullish(OwnProp(items[i], "id_kategori_ukt"))
  }

  /** A search over records never meets a null element. */
  lemma FindInRecords(items: seq<Value>, key: string, target: Value, field: string)
    requires forall i :: 0 <= i < |items| ==> items[i].Obj? && OwnProp(items[i], field).Str?
    ensures FindIn(items, key, target).Returns?
    ensures FindIn(items, key, target).value != Undefined ==> OptMember(FindIn(items, key, target).value, field).Str?
  {
  }

  lemma StudentNameIsText(students: Value, nim: Value)
    requires Records(students, "nama") && nim.Str?
    ensures StudentName(students, nim).Returns? && StudentName(students, nim).value.Str?
  {
    if students.Arr? {
      FindInRecords(students.items, "nim", nim, "nama");
    }
  }

  lemma CategoryNameReturns(categories: Value, id: Value)
    requires Records(categories, "nama_kategori")
    ensures CategoryName(categories, id).Returns?
  {
    if categories.Arr? {
      FindInRecords(categories.items, "id_kategori_ukt", id, "nama_kategori");
    }
  }

  lemma FixedRowNeverThrows(item: Value, students: Value, categories: Value, query: string,
                            filterNim: Value, filterCategory: string)
    requires item.Obj? && OwnProp(item, "nim").Str? && !Nullish(OwnProp(item, "id_kategori_ukt"))
    requires Records(students, "nama") && Records(categories, "nama_kategori")
    ensures RowVerdictFixed(item, students, categories, query, filterNim, filterCategory).Returns?
  {
    StudentNameIsText(students, OwnProp(item, "nim"));
    CategoryNameReturns(categories, OwnProp(item, "id_kategori_ukt"));
    assert MatchesSearchFixed(item, students, categories, query).Returns?;
  }

  /** The corrected filter never throws on well-formed data (history rows with
      a string nim and a category id, students with a name, categories with a
      name), ... */
  lemma FixedFilterNeverThrows(items: seq<Value>, students: Value, categories: Value, query: string,
                               filterNim: Value, filterCategory: string)
    requires HistoryRows(items) && Records(students, "nama") && Records(categories, "nama_kategori")
    ensures FilterHistoryFixed(Arr(items), students, categories, query, filterNim, filterCategory).Returns?
  {
    var p := RowTestFixed(students, categories, query, filterNim, filterCategory);
    forall i | 0 <= i < |items| ensures p(items[i]).Returns? {
      FixedRowNeverThrows(items[i], students, categories, query, filterNim, filterCategory);
    }
    FilterEvalThrows(items, p);
  }

  /** ... the code as written throws on such data, ... */
  lemma WrittenFilterThrowsOnWellFormedData()
    ensures HistoryRows([SampleRow]) && Records(Arr([]), "nama") && Records(Arr([]), "nama_kategori")
    ensures FilterHistory(Arr([SampleRow]), Arr([]), Arr([]), "x", Str(""), "").TypeError?
  {
    UnloadedCategoryThrows();
  }

  /** Wherever the written test of a row returns, the corrected one returns
      the same verdict: the category name reached the search as text. */
  lemma FixedAgreesOnRow(item: Value, students: Value, categories: Value, query: string,
                         filterNim: Value, filterCategory: string)
    requires RowVerdict(item, students, categories, query, filterNim, filterCategory).Returns?
    ensures RowVerdictFixed(item, students, categories, query, filterNim, filterCategory)
              == RowVerdict(item, students, categories, query, filterNim, filterCategory)
  {
    assert MatchesSearchFixed(item, students, categories, query) == MatchesSearch(item, students, categories, query);
  }

  lemma FixedAgreesOnRows(items: seq<Value>, students: Value, categories: Value, query: string,
                          filterNim: Value, filterCategory: string)
    requires FilterHistory(Arr(items), students, categories, query, filterNim, filterCategory).Returns?
    ensures FilterHistoryFixed(Arr(items), students, categories, query, filterNim, filterCategory)
              == FilterHistory(Arr(items), students, categories, query, filterNim, filterCategory)
  {
    var p := RowTest(students, categories, query, filterNim, filterCategory);
    var q := RowTestFixed(students, categories, query, filterNim, filterCategory);
    forall i | 0 <= i < |items| && p(items[i]).Returns? ensures q(items[i]) == p(items[i]) {
      FixedAgreesOnRow(items[i], students, categories, query, filterNim, filterCategory);
    }
    FilterEvalAgree(items, p, q);
  }

  /** ... and wherever the code as written does not throw, the two agree. */
  lemma FixedAgrees(history: Value, students: Value, categories: Value, query: string,
                    filterNim: Value, filterCategory: string)
    requires FilterHistory(history, students, categories, query, filterNim, filterCategory).Returns?
    ensures FilterHistoryFixed(history, students, categories, query, filterNim, filterCategory)
              == FilterHistory(history, students, categories, query, filterNim, filterCategory)
  {
    if history.Arr? {
      FixedAgreesOnRows(history.items, students, categories, query, filterNim, filterCategory);
    }
  }

  // ---------------------------------------------------------------------------
  // The screen

  const CreatePrefix := "Gagal menambah riwayat: "
  const CreatedMessage := "Riwayat kategori UKT berhasil ditambahkan"
  const DeletedMessage := "Riwayat kategori UKT berhasil dihapus"
  const DeleteFailedMessage := "Gagal menghapus riwayat."

  /** The dialog session, the banners and the filter controls. */
  class HistoryScreen {
    var open: bool
    var selected: Value
    var form: HistoryForm
    var error: string
    var success: string
    var searchText: string
    var filterNim: Value
    var filterCategory: string
    const client: QueryClient

    /** A closed dialog holds no selection and an empty nim and category. */
    ghost predicate Valid()
      reads this
    {
      !open ==> selected == Null && form.nim == Str("") && form.id_kategori_ukt == Str("")
    }

    constructor (client: QueryClient, today: string)
      ensures Valid() && this.client == client
      ensures !open && selected == Null && form == DefaultForm(today)
      ensures error == "" && success == "" && searchText == "" && filterNim == Str("") && filterCategory == ""
    {
      this.client := client;
      open := false;
      selected := Null;
      form := DefaultForm(today);
      error := "";
      success := "";
      searchText := "";
      filterNim := Str("");
      filterCategory := "";
    }

    /** The rows the grid shows. */
    function Rows(history: Value, students: Value, categories: Value): Eval<seq<Value>>
      reads this
    {
      FilterHistory(history, students, categories, searchText, filterNim, filterCategory)
    }

    /** `handleOpen(history)`; the grid has no edit button, so the screen only
        ever calls `handleOpen()`. */
    method HandleOpen(history: Value, today: string)
      requires Valid() && !open
      modifies this
      ensures Valid() && open && error == ""
      ensures !Truthy(history) ==> selected == Null && form == DefaultForm(today)
      ensures Truthy(history) ==> selected == history && form == HistoryForm(OptMember(history, "nim"),
                OptMember(history, "id_kategori_ukt"), OptMember(history, "tanggal_perubahan"))
      ensures success == old(success) && searchText == old(searchText)
      ensures filterNim == old(filterNim) && filterCategory == old(filterCategory)
    {
      error := "";
      if Truthy(history) {
        selected := history;
        form := HistoryForm(OptMember(history, "nim"), OptMember(history, "id_kategori_ukt"),
                            OptMember(history, "tanggal_perubahan"));
      } else {
        selected := Null;
        form := DefaultForm(today);
      }
      open := true;
    }

    /** `handleClose`: resets the form and clears the error. */
    method HandleClose(today: string)
      modifies this
      ensures Valid() && !open && selected == Null && form == DefaultForm(today) && error == ""
      ensures success == old(success) && searchText == old(searchText)
      ensures filterNim == old(filterNim) && filterCategory == old(filterCategory)
    {
      open := false;
      selected := Null;
      form := DefaultForm(today);
      error := "";
    }

    method Edit(f: Field, v: Value)
      requires Valid() && open
      modifies this
      ensures Valid() && open && selected == old(selected) && error == old(error)
      ensures form == old(form).With(f, v)
      ensures success == old(success) && searchText == old(searchText)
      ensures filterNim == old(filterNim) && filterCategory == old(filterCategory)
    {
      form := form.With(f, v);
    }

    /** `handleSubmit`: clears the error and dispatches a create, even when a
        row is selected. */
    method Submit() returns (r: HistoryRequest)
      requires Valid() && open
      modifies this
      ensures r == CreateHistory(SubmitPayload(old(form)))
      ensures Valid() && error == "" && open && selected == old(selected) && form == old(form)
      ensures success == old(success) && searchText == old(searchText)
      ensures filterNim == old(filterNim) && filterCategory == old(filterCategory)
    {
      error := "";
      r := CreateHistory(SubmitPayload(form));
    }

    /** The grid's Hapus button: a delete of the row's id only when the user
        confirmed. */
    method Delete(confirmed: bool, row: Value) returns (r: Option<HistoryRequest>)
      ensures r.Some? <==> confirmed
      ensures confirmed ==> r.value == DeleteHistory(OptMember(row, "id_riwayat"))
    {
      if confirmed {
        r := Some(DeleteHistory(OptMember(row, "id_riwayat")));
      } else {
        r := None;
      }
    }

    /** The create succeeded: the history is stale, the dialog closes, the
        success banner shows. */
    method OnCreateSuccess(today: string)
      modifies this, client
      ensures client.stale == old(client.stale) + {HistoryKey}
      ensures Valid() && !open && selected == Null && form == DefaultForm(today) && error == ""
      ensures success == CreatedMessage
      ensures searchText == old(searchText) && filterNim == old(filterNim) && filterCategory == old(filterCategory)
    {
      client.Invalidate(HistoryKey);
      HandleClose(today);
      success := CreatedMessage;
    }

    /** The create failed: the dialog stays as it is and the error banner shows
        the flattened server message. */
    method OnCreateError(err: MutationError, stringify: Value -> string)
      modifies this
      ensures error == ErrorText(CreatePrefix, err, stringify) && CreatePrefix <= error
      ensures open == old(open) && selected == old(selected) && form == old(form) && success == old(success)
      ensures searchText == old(searchText) && filterNim == old(filterNim) && filterCategory == old(filterCategory)
    {
      error := ErrorText(CreatePrefix, err, stringify);
    }

    method OnDeleteSuccess()
      modifies this, client
      ensures client.stale == old(client.stale) + {HistoryKey}
      ensures success == DeletedMessage
      ensures open == old(open) && selected == old(selected) && form == old(form) && error == old(error)
      ensures searchText == old(searchText) && filterNim == old(filterNim) && filterCategory == old(filterCategory)
    {
      client.Invalidate(HistoryKey);
      success := DeletedMessage;
    }

    method OnDeleteError()
      modifies this
      ensures error == DeleteFailedMessage
      ensures open == old(open) && selected == old(selected) && form == old(form) && success == old(success)
      ensures searchText == old(searchText) && filterNim == old(filterNim) && filterCategory == old(filterCategory)
    {
      error := DeleteFailedMessage;
    }

    method SetSearchText(text: string)
      modifies this`searchText
      ensures searchText == text
    {
      searchText := text;
    }

    method SetFilterNim(v: Value)
      modifies this`filterNim
      ensures filterNim == v
    {
      filterNim := v;
    }

    method SetFilterCategory(text: string)
      modifies this`filterCategory
      ensures filterCategory == text
    {
      filterCategory := text;
    }

    /** "Reset Filter": afterwards the grid shows the whole history. */
    method ResetFilters()
      modifies this`searchText, this`filterNim, this`filterCategory
      ensures searchText == "" && filterNim == Str("") && filterCategory == ""
      ensures forall items: seq<Value>, students: Value, categories: Value ::
                Rows(Arr(items), students, categories) == Returns(items)
    {
      searchText, filterNim, filterCategory := "", Str(""), "";
      forall items: seq<Value>, students: Value, categories: Value
        ensures Rows(Arr(items), students, categories) == Returns(items)
      {
        NoFiltersKeepAll(items, students, categories);
      }
    }

    /** The close button of the error banner. */
    method DismissError()
      modifies this`error
      ensures error == ""
    {
      error := "";
    }

    /** The close button of the success banner, or the timer that clears it
        three seconds after a success. */
    method DismissSuccess()
      modifies this`success
      ensures success == ""
    {
      success := "";
    }
  }
}
