/**
  The students screen: a searchable grid of the students, a modal form that
  adds a student or edits one (the nim is read-only while editing), and a
  delete button per row that asks for confirmation first.
 */
module Students {
  import opened Js
  import opened Api

  datatype StudentForm = StudentForm(nim: Value, nama: Value, email: Value, no_hp: Value,
                                     tempat_lahir: Value, tanggal_lahir: Value, alamat: Value, image: Value)
  {
    function With(f: Field, v: Value): StudentForm {
      match f
      case Nim => this.(nim := v)
      case Name => this.(nama := v)
      case Email => this.(email := v)
      case Phone => this.(no_hp := v)
      case BirthPlace => this.(tempat_lahir := v)
      case BirthDate => this.(tanggal_lahir := v)
      case Address => this.(alamat := v)
      case Image => this.(image := v)
    }
  }

  datatype Field = Nim | Name | Email | Phone | BirthPlace | BirthDate | Address | Image

  /** The form of a new student, and of a closed dialog. */
  const DefaultForm := StudentForm(Str(""), Str(""), Str(""), Str(""), Str(""), Str(""), Str(""), Str("default.png"))

  /** The form seeded from a student row: every field copied, the birth date
      cut at its first 'T' (`split('T')[0]`), or '' when it is falsy. Splitting
      a truthy value that is not a string throws. */
  function EditForm(student: Value): (r: Eval<StudentForm>)
    ensures r.TypeError? <==> Truthy(OptMember(student, "tanggal_lahir")) && !OptMember(student, "tanggal_lahir").Str?
    ensures r.Returns? ==>
      && r.value.nim == OptMember(student, "nim") && r.value.nama == OptMember(student, "nama")
      && r.value.email == OptMember(student, "email") && r.value.no_hp == OptMember(student, "no_hp")
      && r.value.tempat_lahir == OptMember(student, "tempat_lahir") && r.value.alamat == OptMember(student, "alamat")
      && r.value.image == OptMember(student, "image")
    ensures r.Returns? && !Truthy(OptMember(student, "tanggal_lahir")) ==> r.value.tanggal_lahir == Str("")
    ensures r.Returns? && Truthy(OptMember(student, "tanggal_lahir")) ==>
              && r.value.tanggal_lahir.Str?
              && r.value.tanggal_lahir.s <= OptMember(student, "tanggal_lahir").s
              && 'T' !in r.value.tanggal_lahir.s
              && (|r.value.tanggal_lahir.s| < |OptMember(student, "tanggal_lahir").s| ==>
                    OptMember(student, "tanggal_lahir").s[|r.value.tanggal_lahir.s|] == 'T')
  {
    var birth := OptMember(student, "tanggal_lahir");
    var date :- if Truthy(birth) then
                  (if birth.Str? then Returns(Str(BeforeFirst(birth.s, 'T'))) else TypeError)
                else Returns(Str(""));
    Returns(StudentForm(OptMember(student, "nim"), OptMember(student, "nama"), OptMember(student, "email"),
                        OptMember(student, "no_hp"), OptMember(student, "tempat_lahir"), date,
                        OptMember(student, "alamat"), OptMember(student, "image")))
  }

  /** A timestamp as the backend stores it, `day + 'T' + time`, is shown in the
      date field as just the day. */
  lemma EditFormKeepsDay(student: Value, day: string, time: string)
    requires 'T' !in day && day != ""
    requires OptMember(student, "tanggal_lahir") == Str(day + "T" + time)
    ensures EditForm(student).Returns? && EditForm(student).value.tanggal_lahir == Str(day)
  {
    var s := day + "T" + time;
    assert s[|day|] == 'T';
    assert s[..|day|] == day;
    BeforeFirstAt(s, 'T', |day|);
  }

  lemma BeforeFirstAt(s: string, c: char, n: nat)
    requires n < |s| && s[n] == c && c !in s[..n]
    ensures BeforeFirst(s, c) == s[..n]
  {
  }

  /** The body a submit sends: the form with the birth date replaced by its
      ISO timestamp, or by null when it is empty. `toIso` is
      `new Date(d).toISOString()`, `None` where it throws on an invalid date. */
  function SubmitBody(form: StudentForm, toIso: Value -> Option<string>): (r: Option<StudentForm>)
    ensures r.None? <==> Truthy(form.tanggal_lahir) && toIso(form.tanggal_lahir).None?
    ensures r.Some? ==> r.value == form.(tanggal_lahir := r.value.tanggal_lahir)
    ensures r.Some? && !Truthy(form.tanggal_lahir) ==> r.value.tanggal_lahir == Null
    ensures r.Some? && Truthy(form.tanggal_lahir) ==> r.value.tanggal_lahir == Str(toIso(form.tanggal_lahir).value)
  {
    if !Truthy(form.tanggal_lahir) then Some(form.(tanggal_lahir := Null))
    else
      match toIso(form.tanggal_lahir)
      case None => None
      case Some(stamp) => Some(form.(tanggal_lahir := Str(stamp)))
  }

  /** A create and an update both carry the whole body; an update is addressed
      by the body's nim. */
  datatype StudentRequest = CreateStudent(body: StudentForm) | UpdateStudent(body: StudentForm) | DeleteStudent(nim: Value)

  /** The nim a request addresses in its URL, if any. */
  function Target(req: StudentRequest): Option<Value> {
    match req
    case CreateStudent(_) => None
    case UpdateStudent(body) => Some(body.nim)
    case DeleteStudent(nim) => Some(nim)
  }

  // ---------------------------------------------------------------------------
  // Search

  /** The filter's callback: a case-insensitive substring hit on the name, else
      the nim, else the email. Lower-casing a field that is not a string
      throws. */
  function StudentVerdict(student: Value, query: string): Eval<bool> {
    var nama :- Member(student, "nama");
    var byName :- SearchHit(nama, query);
    if byName then Returns(true)
    else
      // `student.nama` was read, so `student` is an object here
      var byNim :- SearchHit(OptMember(student, "nim"), query);
      if byNim then Returns(true)
      else SearchHit(OptMember(student, "email"), query)
  }

  function StudentTest(query: string): Value -> Eval<bool> {
    student => StudentVerdict(student, query)
  }

  /** `filteredStudents`: no rows while the students are not loaded (or falsy),
      otherwise the students the callback keeps. */
  function FilterStudents(students: Value, query: string): (r: Eval<seq<Value>>)
    ensures !Truthy(students) ==> r == Returns([])
    ensures Truthy(students) && !students.Arr? ==> r.TypeError?
  {
    if !Truthy(students) then Returns([])
    else if students.Arr? then FilterEval(students.items, StudentTest(query))
    else TypeError
  }

  /** On a loaded list the filter keeps, in order, exactly the students the
      callback accepts, and fails exactly when the callback throws on one. */
  lemma FilterStudentsKeeps(items: seq<Value>, query: string)
    ensures var r := FilterStudents(Arr(items), query);
      && (r.TypeError? <==> exists i :: 0 <= i < |items| && StudentVerdict(items[i], query).TypeError?)
      && (r.Returns? ==> r.value == SelectTrue(items, StudentTest(query)))
      && (r.Returns? ==> forall x :: x in r.value <==> x in items && StudentVerdict(x, query) == Returns(true))
  {
    var p := StudentTest(query);
    assert FilterStudents(Arr(items), query) == FilterEval(items, p);
    FilterEvalThrows(items, p);
    if FilterEval(items, p).Returns? {
      FilterEvalSelects(items, p);
      forall x ensures x in SelectTrue(items, p) <==> x in items && p(x) == Returns(true) {
        SelectTrueMembers(items, p, x);
      }
    }
  }

  /** A student record: an object whose name, nim and email are strings. */
  predicate Student(v: Value) {
    v.Obj? && OwnProp(v, "nama").Str? && OwnProp(v, "nim").Str? && OwnProp(v, "email").Str?
  }

  /** On a student record the callback is a case-insensitive substring test on
      name, nim or email. */
  lemma VerdictMeaning(student: Value, query: string)
    requires Student(student)
    ensures StudentVerdict(student, query) == Returns(
      || Includes(Lower(OwnProp(student, "nama").s), Lower(query))
      || Includes(Lower(OwnProp(student, "nim").s), Lower(query))
      || Includes(Lower(OwnProp(student, "email").s), Lower(query)))
  {
  }

  /** A student whose name matches is kept without the nim or email being
      looked at: the test short-circuits. */
  lemma NameHitSuffices(student: Value, query: string)
    requires student.Obj? && OwnProp(student, "nama").Str?
    requires Includes(Lower(OwnProp(student, "nama").s), Lower(query))
    ensures StudentVerdict(student, query) == Returns(true)
  {
  }

  /** An empty search keeps every student whose name is a string, in order. */
  lemma EmptySearchKeepsAll(items: seq<Value>)
    requires forall i :: 0 <= i < |items| ==> items[i].Obj? && OwnProp(items[i], "nama").Str?
    ensures FilterStudents(Arr(items), "") == Returns(items)
  {
    var p := StudentTest("");
    forall i | 0 <= i < |items| ensures p(items[i]) == Returns(true) {
      assert Includes(Lower(OwnProp(items[i], "nama").s), "") by {
        IncludesAt(Lower(OwnProp(items[i], "nama").s), "");
        assert OccursAt(Lower(OwnProp(items[i], "nama").s), "", 0);
      }
    }
    FilterEvalSelects(items, p);
    SelectTrueAll(items, p);
  }

  /** A search that misses a student's name and nim reaches the email; a
      student without one makes the whole filter throw. */
  lemma MissingEmailThrows(items: seq<Value>, k: nat, query: string)
    requires k < |items| && items[k].Obj? && OwnProp(items[k], "nama").Str? && OwnProp(items[k], "nim").Str?
    requires !Includes(Lower(OwnProp(items[k], "nama").s), Lower(query))
    requires !Includes(Lower(OwnProp(items[k], "nim").s), Lower(query))
    requires OwnProp(items[k], "email") == Undefined
    ensures FilterStudents(Arr(items), query).TypeError?
  {
    FilterEvalThrows(items, StudentTest(query));
  }

  const Budi := Obj([("nim", Str("A1")), ("nama", Str("Budi"))])
  const Sari := Obj([("nim", Str("A2")), ("nama", Str("Sari"))])

  /** `t` is not found in `s` when no place it could start holds its first
      character. */
  lemma {:induction false} NoStartNoMatch(s: string, t: string)
    requires t != [] && forall i :: 0 <= i <= |s| - |t| ==> s[i] != t[0]
    ensures !Includes(s, t)
    decreases |s|
  {
    if s != [] {
      assert |t| <= |s| ==> s[0] != t[0];
      assert !(t <= s);
      assert forall i :: 0 <= i <= |s[1..]| - |t| ==> s[1..][i] == s[i + 1];
      NoStartNoMatch(s[1..], t);
    }
  }

  lemma NoSar()
    ensures !Includes(Lower("Budi"), "sar") && !Includes(Lower("A1"), "sar") && !Includes("", "sar")
    ensures Includes(Lower("Sari"), "sar")
    ensures Lower("sar") == "sar"
  {
    assert Lower("Budi") == "budi" by {
      assert LowerChar('B') == 'b';
    }
    assert Lower("A1") == "a1" by {
      assert LowerChar('A') == 'a';
    }
    assert Lower("Sari") == "sari" by {
      assert LowerChar('S') == 's';
    }
    assert Lower("sar") == "sar";
    NoStartNoMatch("budi", "sar");
    NoStartNoMatch("a1", "sar");
    NoStartNoMatch("", "sar");
    assert "sari"[..3] == "sar";
  }

  /** Two students without an email, searched for "sar": Budi misses on name
      and nim, so his missing email is lower-cased and the filter throws. */
  lemma SarOverStudentsWithoutEmail()
    ensures FilterStudents(Arr([Budi, Sari]), "sar").TypeError?
  {
    NoSar();
    assert Lookup(Budi.props, "nama") == Str("Budi");
    MissingEmailThrows([Budi, Sari], 0, "sar");
  }

  const BudiWithEmail := Obj([("nim", Str("A1")), ("nama", Str("Budi")), ("email", Str(""))])
  const SariWithEmail := Obj([("nim", Str("A2")), ("nama", Str("Sari")), ("email", Str(""))])

  lemma SarVerdicts()
    ensures StudentVerdict(BudiWithEmail, "sar") == Returns(false)
    ensures StudentVerdict(SariWithEmail, "sar") == Returns(true)
  {
    NoSar();
    assert Lookup(BudiWithEmail.props, "nama") == Str("Budi");
    assert Lookup(BudiWithEmail.props, "nim") == Str("A1");
    assert Lookup(BudiWithEmail.props, "email") == Str("");
    assert Lookup(SariWithEmail.props, "nama") == Str("Sari");
  }

  lemma FilterPair<T>(a: T, b: T, p: T -> Eval<bool>)
    requires p(a) == Returns(false) && p(b) == Returns(true)
    ensures FilterEval([a, b], p) == Returns([b])
  {
    var xs := [a, b];
    assert xs[1..] == [b] && xs[1..][1..] == [];
    assert FilterEval(xs[1..][1..], p) == Returns([]);
    assert FilterEval(xs[1..], p) == Returns([b] + []);
    assert [b] + [] == [b];
    assert p(xs[0]) == Returns(false);
    assert FilterEval(xs, p) == FilterEval(xs[1..], p);
  }

  lemma KeepSecond(a: Value, b: Value, query: string)
    requires StudentVerdict(a, query) == Returns(false) && StudentVerdict(b, query) == Returns(true)
    ensures FilterStudents(Arr([a, b]), query) == Returns([b])
  {
    FilterPair(a, b, StudentTest(query));
  }

  /** The same students with an (empty) email each: the search keeps only Sari. */
  lemma SarOverStudentsWithEmail()
    ensures FilterStudents(Arr([BudiWithEmail, SariWithEmail]), "sar") == Returns([SariWithEmail])
  {
    SarVerdicts();
    KeepSecond(BudiWithEmail, SariWithEmail, "sar");
  }

  /** Search is case-insensitive: lower-casing the query first changes nothing. */
  lemma VerdictIgnoresCase(student: Value, query: string)
    ensures StudentVerdict(student, query) == StudentVerdict(student, Lower(query))
  {
    LowerIdempotent(query);
  }

  // ---------------------------------------------------------------------------
  // The screen

  const CreatePrefix := "Gagal menambah mahasiswa: "
  const UpdatePrefix := "Gagal mengedit mahasiswa: "

  /** The message a `{status: 'error'}` reply without one carries. */
  function Fallback(req: StudentRequest): string {
    match req
    case CreateStudent(_) => "Gagal menambah mahasiswa."
    case UpdateStudent(_) => "Gagal mengedit mahasiswa."
    case DeleteStudent(_) => "Gagal menghapus mahasiswa."
  }

  /** The banner text a rejected request leaves: create and update errors are
      flattened after their prefix; a delete shows the error's own message, or
      the fallback when it is empty. */
  function FailureText(req: StudentRequest, err: MutationError, stringify: Value -> string): (r: string)
    ensures req.CreateStudent? ==> CreatePrefix <= r
    ensures req.UpdateStudent? ==> UpdatePrefix <= r
    ensures req.DeleteStudent? ==> r == (if err.message == "" then Fallback(req) else err.message)
  {
    match req
    case CreateStudent(_) => ErrorText(CreatePrefix, err, stringify)
    case UpdateStudent(_) => ErrorText(UpdatePrefix, err, stringify)
    case DeleteStudent(_) => if err.message == "" then Fallback(req) else err.message
  }

  /** The dialog session and the error banner. */
  class StudentsScreen {
    var open: bool
    var selected: Value
    var form: StudentForm
    var error: string
    var searchText: string
    const client: QueryClient

    /** A closed dialog holds the default form; an open edit dialog keeps the
        selected student's nim, since the nim field is disabled while
        editing. */
    ghost predicate Valid()
      reads this
    {
      && (!open ==> form == DefaultForm)
      && (open && Truthy(selected) ==> form.nim == OptMember(selected, "nim"))
    }

    constructor (client: QueryClient)
      ensures Valid() && this.client == client
      ensures !open && selected == Null && form == DefaultForm && error == "" && searchText == ""
    {
      this.client := client;
      open := false;
      selected := Null;
      form := DefaultForm;
      error := "";
      searchText := "";
    }

    /** The rows the grid shows. */
    function Rows(students: Value): Eval<seq<Value>>
      reads this
    {
      FilterStudents(students, searchText)
    }

    /** `handleOpen(student)` from a row's Edit button, or `handleOpen()` from
        "Add New Student". When splitting the birth date throws, the error and
        the selection are already set and the dialog stays closed; `threw`
        reports it. */
    method HandleOpen(student: Value) returns (threw: bool)
      requires Valid() && !open
      modifies this
      ensures Valid() && error == "" && searchText == old(searchText)
      ensures !Truthy(student) ==> !threw && open && selected == Null && form == DefaultForm
      ensures Truthy(student) ==> selected == student && (threw <==> EditForm(student).TypeError?)
      ensures Truthy(student) && !threw ==> open && form == EditForm(student).value
      ensures threw ==> !open && form == old(form)
    {
      error := "";
      threw := false;
      if Truthy(student) {
        selected := student;
        var seeded := EditForm(student);
        if seeded.TypeError? {
          return true;
        }
        form := seeded.value;
      } else {
        selected := Null;
        form := DefaultForm;
      }
      open := true;
    }

    /** `handleClose`: resets the session and clears the error. */
    method HandleClose()
      modifies this
      ensures Valid() && !open && selected == Null && form == DefaultForm && error == ""
      ensures searchText == old(searchText)
    {
      open := false;
      selected := Null;
      form := DefaultForm;
      error := "";
    }

    /** A field's `onChange`; the nim field is disabled while editing. */
    method Edit(f: Field, v: Value)
      requires Valid() && open && (f == Nim ==> !Truthy(selected))
      modifies this
      ensures Valid() && open && selected == old(selected) && error == old(error)
      ensures form == old(form).With(f, v) && searchText == old(searchText)
    {
      form := form.With(f, v);
    }

    /** `handleSubmit`: clears the error and dispatches exactly one request, an
        update when a student is selected and a create otherwise. The update
        is addressed by the selected student's nim. Nothing is dispatched when
        converting the birth date throws. */
    method Submit(toIso: Value -> Option<string>) returns (r: Option<StudentRequest>)
      requires Valid() && open
      modifies this`error
      ensures error == ""
      ensures r.None? <==> SubmitBody(form, toIso).None?
      ensures r.Some? && Truthy(selected) ==> r.value == UpdateStudent(SubmitBody(form, toIso).value)
      ensures r.Some? && Truthy(selected) ==> Target(r.value) == Some(OptMember(selected, "nim"))
      ensures r.Some? && !Truthy(selected) ==> r.value == CreateStudent(SubmitBody(form, toIso).value)
    {
      error := "";
      var body := SubmitBody(form, toIso);
      if body.None? {
        return None;
      }
      if Truthy(selected) {
        r := Some(UpdateStudent(body.value));
      } else {
        r := Some(CreateStudent(body.value));
      }
    }

    /** A row's delete button: a delete of the row's nim only when the user
        confirmed. */
    method Delete(confirmed: bool, row: Value) returns (r: Option<StudentRequest>)
      ensures r.Some? <==> confirmed
      ensures confirmed ==> r.value == DeleteStudent(OptMember(row, "nim"))
    {
      if confirmed {
        r := Some(DeleteStudent(OptMember(row, "nim")));
      } else {
        r := None;
      }
    }

    /** A request settles. On success 'students' is stale, and a create or an
        update also closes the dialog; on failure the banner shows the
        request's failure text and nothing else changes. */
    method Settle(req: StudentRequest, outcome: Outcome, thrown: string, stringify: Value -> string)
      requires Valid()
      modifies this, client
      ensures Valid() && searchText == old(searchText)
      ensures var e := Rejection(outcome, Fallback(req), thrown);
        && (e.None? ==> client.stale == old(client.stale) + {StudentsKey})
        && (e.None? && !req.DeleteStudent? ==> !open && selected == Null && form == DefaultForm && error == "")
        && (e.None? && req.DeleteStudent? ==>
              open == old(open) && selected == old(selected) && form == old(form) && error == old(error))
        && (e.Some? ==> client.stale == old(client.stale) && error == FailureText(req, e.value, stringify))
        && (e.Some? ==> open == old(open) && selected == old(selected) && form == old(form))
    {
      var e := Rejection(outcome, Fallback(req), thrown);
      if e.None? {
        client.Invalidate(StudentsKey);
        if !req.DeleteStudent? {
          HandleClose();
        }
      } else {
        error := FailureText(req, e.value, stringify);
      }
    }

    method SetSearchText(text: string)
      modifies this`searchText
      ensures searchText == text
    {
      searchText := text;
    }
  }

  /** An update answered with `{status: 'error', message: m}` shows
      'Gagal mengedit mahasiswa: ' followed by m. */
  lemma UpdateErrorReply(body: Value, m: string, thrown: string, stringify: Value -> string)
    requires body == Obj([("status", Str("error")), ("message", Str(m))]) && m != ""
    ensures var e := Rejection(Answered(body), "Gagal mengedit mahasiswa.", thrown);
      e.Some? && FailureText(UpdateStudent(DefaultForm), e.value, stringify) == UpdatePrefix + m
  {
    assert Lookup(body.props, "message") == Str(m);
    ErrorReplyText(UpdatePrefix, body, "Gagal mengedit mahasiswa.", thrown, stringify);
  }

  /** A delete answered with `{status: 'error'}` and no message shows the
      delete fallback, without a prefix. */
  lemma DeleteErrorReply(nim: Value, thrown: string, stringify: Value -> string)
    ensures var e := Rejection(Answered(Obj([("status", Str("error"))])), Fallback(DeleteStudent(nim)), thrown);
      e.Some? && FailureText(DeleteStudent(nim), e.value, stringify) == "Gagal menghapus mahasiswa."
  {
  }
}
