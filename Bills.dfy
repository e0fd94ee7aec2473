/**
  The tuition-bill screen: a grid of bills (`tagihan`) with a modal form to
  create or edit one, a delete button per row, and a button that asks the
  backend to generate the bills of a semester.
 */
module Bills {
  import opened Js
  import opened Api

  /** The form's fields (`formData`). */
  datatype BillForm = BillForm(
    nim: Value,
    kategori_ukt_id: Value,
    semester: Value,
    tahun_akademik: Value,
    tanggal_jatuh_tempo: Value,
    nominal: Value,
    status_pembayaran: Value,
    keterangan: Value)
  {
    /** `setFormData({ ...formData, [field]: v })`. */
    function With(f: Field, v: Value): BillForm {
      match f
      case Nim => this.(nim := v)
      case Category => this.(kategori_ukt_id := v)
      case Semester => this.(semester := v)
      case AcademicYear => this.(tahun_akademik := v)
      case DueDate => this.(tanggal_jatuh_tempo := v)
      case Amount => this.(nominal := v)
      case PaymentStatus => this.(status_pembayaran := v)
      case Note => this.(keterangan := v)
    }
  }

  datatype Field = Nim | Category | Semester | AcademicYear | DueDate | Amount | PaymentStatus | Note

  /** The form of a new bill, and of a closed dialog. */
  const DefaultForm := BillForm(Str(""), Str(""), Str(""), Str(""), Str(""), Str(""), Str("belum_lunas"), Str(""))

  /** The form seeded from an existing bill; `dueDate` is the bill's due date as
      date-fns formats it (`yyyy-MM-dd`). */
  function EditForm(bill: Value, dueDate: string): (r: BillForm)
    ensures r.nim == OptMember(bill, "nim") && r.nominal == OptMember(bill, "nominal")
    ensures r.tanggal_jatuh_tempo == Str(dueDate)
    ensures Truthy(OptMember(bill, "kategori_ukt_id")) ==> r.kategori_ukt_id == OptMember(bill, "kategori_ukt_id")
    ensures !Truthy(OptMember(bill, "kategori_ukt_id")) ==> r.kategori_ukt_id == Str("")
    ensures Truthy(OptMember(bill, "semester")) ==> r.semester == OptMember(bill, "semester")
    ensures !Truthy(OptMember(bill, "semester")) ==> r.semester == Str("")
    ensures Truthy(OptMember(bill, "tahun_akademik")) ==> r.tahun_akademik == OptMember(bill, "tahun_akademik")
    ensures !Truthy(OptMember(bill, "tahun_akademik")) ==> r.tahun_akademik == Str("")
    ensures Truthy(OptMember(bill, "status_pembayaran")) ==> r.status_pembayaran == OptMember(bill, "status_pembayaran")
    ensures !Truthy(OptMember(bill, "status_pembayaran")) ==> r.status_pembayaran == Str("belum_lunas")
    ensures Truthy(OptMember(bill, "keterangan")) ==> r.keterangan == OptMember(bill, "keterangan")
    ensures !Truthy(OptMember(bill, "keterangan")) ==> r.keterangan == Str("")
  {
    BillForm(
      OptMember(bill, "nim"),
      Or(OptMember(bill, "kategori_ukt_id"), Str("")),
      Or(OptMember(bill, "semester"), Str("")),
      Or(OptMember(bill, "tahun_akademik"), Str("")),
      Str(dueDate),
      OptMember(bill, "nominal"),
      Or(OptMember(bill, "status_pembayaran"), Str("belum_lunas")),
      Or(OptMember(bill, "keterangan"), Str("")))
  }

  /** The body of a create or update request (`dataToSubmit`). */
  datatype BillPayload = BillPayload(
    user_id: Value,
    nim: Value,
    kategori_ukt_id: Value,
    semester: Value,
    tahun_akademik: Value,
    nominal: Value,
    tanggal_jatuh_tempo: Value,
    status_pembayaran: Value,
    keterangan: Value)

  /** A request the screen dispatches. */
  datatype BillRequest =
    | CreateBill(payload: BillPayload)
    | UpdateBill(id_tagihan: Value, payload: BillPayload)
    | DeleteBill(id: Value)
    | GenerateBills(semesterText: Value)

  /** The payload for the student the form's nim resolved to: identity from
      the student, the category, semester and amount coerced by `Number(...)`,
      the rest copied from the form. */
  function Payload(student: Value, form: BillForm): BillPayload {
    BillPayload(
      OptMember(student, "user_id"),
      OptMember(student, "nim"),
      ToNumber(form.kategori_ukt_id),
      ToNumber(form.semester),
      form.tahun_akademik,
      ToNumber(form.nominal),
      form.tanggal_jatuh_tempo,
      form.status_pembayaran,
      form.keterangan)
  }

  /** The payload carries the matched student's nim and user id, the coerced
      numbers, and the four other fields verbatim. A decimal text or a number in
      the form becomes that number. */
  lemma PayloadFields(student: Value, form: BillForm, n: int)
    requires StrictEq(OptMember(student, "nim"), form.nim)
    ensures var p := Payload(student, form);
      && p.nim == form.nim && p.user_id == OptMember(student, "user_id")
      && p.tahun_akademik == form.tahun_akademik && p.tanggal_jatuh_tempo == form.tanggal_jatuh_tempo
      && p.status_pembayaran == form.status_pembayaran && p.keterangan == form.keterangan
      && (form.kategori_ukt_id in {Num(n), Str(IntToDecimal(n))} ==> p.kategori_ukt_id == Num(n))
      && (form.semester in {Num(n), Str(IntToDecimal(n))} ==> p.semester == Num(n))
      && (form.nominal in {Num(n), Str(IntToDecimal(n))} ==> p.nominal == Num(n))
  {
    DecimalRoundTrip(n);
  }

  /** The NIM column: "nim - nama" when the student is loaded, else the raw nim. */
  function NimLabel(row: Value, students: Value): (r: Eval<Value>)
    ensures r.TypeError? <==> FindBy(students, "nim", OptMember(row, "nim")).TypeError?
    ensures FindBy(students, "nim", OptMember(row, "nim")) == Returns(Undefined) ==> r == Returns(OptMember(row, "nim"))
  {
    var nim := OptMember(row, "nim");
    var student :- FindBy(students, "nim", nim);
    if Truthy(student) then Returns(Str(ToString(nim) + " - " + ToString(OptMember(student, "nama"))))
    else Returns(nim)
  }

  /** With the students loaded as an array of records, the NIM column never
      fails: it shows "nim - nama" for the first student whose nim matches, and
      the raw nim when none does. */
  lemma NimLabelShows(row: Value, students: seq<Value>)
    requires forall i :: 0 <= i < |students| ==> students[i].Obj?
    ensures var nim := OptMember(row, "nim");
      && NimLabel(row, Arr(students)).Returns?
      && ((exists i :: 0 <= i < |students| && StrictEq(OwnProp(students[i], "nim"), nim)) ==>
            exists i :: 0 <= i < |students| && StrictEq(OwnProp(students[i], "nim"), nim)
              && (forall j :: 0 <= j < i ==> !StrictEq(OwnProp(students[j], "nim"), nim))
              && NimLabel(row, Arr(students)).value == Str(ToString(nim) + " - " + ToString(OwnProp(students[i], "nama"))))
      && ((forall i :: 0 <= i < |students| ==> !StrictEq(OwnProp(students[i], "nim"), nim)) ==>
            NimLabel(row, Arr(students)).value == nim)
  {
    var nim := OptMember(row, "nim");
    var f := FindIn(students, "nim", nim);
    assert f.Returns?;
    if f.value != Undefined {
      var i :| 0 <= i < |students| && students[i] == f.value && !Nullish(students[i])
               && StrictEq(OwnProp(students[i], "nim"), nim)
               && forall j :: 0 <= j < i ==> !StrictEq(OwnProp(students[j], "nim"), nim);
      assert Truthy(students[i]);
    }
  }

  /** The status pill: green for 'lunas', red for anything else. */
  datatype Colour = Green | Red

  function StatusColour(status: Value): (c: Colour)
    ensures c == Green <==> status == Str("lunas")
  {
    if StrictEq(status, Str("lunas")) then Green else Red
  }

  /** The "Generate Bills" button: the semester typed into the prompt, or
      nothing when the prompt was cancelled (null) or left empty. */
  function GenerateRequest(answer: Value): (r: Option<BillRequest>)
    ensures r.Some? <==> Truthy(answer)
    ensures r.Some? ==> r.value == GenerateBills(answer)
  {
    if Truthy(answer) then Some(GenerateBills(answer)) else None
  }

  /** The message a rejected request of each kind carries. */
  function Fallback(req: BillRequest): string {
    match req
    case CreateBill(_) => "Gagal membuat tagihan."
    case UpdateBill(_, _) => "Gagal mengupdate tagihan."
    case DeleteBill(_) => "Gagal menghapus tagihan."
    case GenerateBills(_) => "Gagal men-generate tagihan."
  }

  /** A request succeeds when the server answered and the answer is not
      `{status: 'error'}`; `reply` is `None` when the HTTP call itself failed. */
  predicate Succeeded(req: BillRequest, reply: Option<Value>) {
    reply.Some? && CheckReply(reply.value, Fallback(req)) == Returns(None)
  }

  /** The dialog session of the bill screen. */
  class BillsScreen {
    var open: bool
    var selected: Value
    var form: BillForm
    const client: QueryClient

    /** A closed dialog always holds the default form. */
    ghost predicate Valid()
      reads this
    {
      !open ==> form == DefaultForm
    }

    constructor (client: QueryClient)
      ensures Valid() && this.client == client
      ensures !open && selected == Null && form == DefaultForm
    {
      this.client := client;
      open := false;
      selected := Null;
      form := DefaultForm;
    }

    /** `handleOpen(bill)` from the grid's Edit button, or `handleOpen()` from
        "Add New Bill". `dueDate` is `format(new Date(bill.tanggal_jatuh_tempo),
        'yyyy-MM-dd')`, `None` when date-fns throws on an invalid date; the
        handler then stops after selecting the bill, and `threw`
        reports it. The dialog is modal, so
        both buttons are only reachable while it is closed. */
    method HandleOpen(bill: Value, dueDate: Option<string>) returns (threw: bool)
      requires Valid() && !open
      modifies this
      ensures Valid()
      ensures threw <==> Truthy(bill) && dueDate.None?
      ensures !Truthy(bill) ==> open && selected == Null && form == DefaultForm
      ensures Truthy(bill) && dueDate.Some? ==> open && selected == bill && form == EditForm(bill, dueDate.value)
      ensures threw ==> !open && selected == bill && form == old(form)
    {
      threw := false;
      if Truthy(bill) {
        selected := bill;
        if dueDate.None? {
          return true;
        }
        form := EditForm(bill, dueDate.value);
      } else {
        selected := Null;
        form := DefaultForm;
      }
      open := true;
    }

    /** `handleClose`: the Cancel button, a click outside the dialog, or a
        successful create or update. */
    method HandleClose()
      modifies this
      ensures Valid()
      ensures !open && selected == Null && form == DefaultForm
    {
      open := false;
      selected := Null;
      form := DefaultForm;
    }

    /** A field's `onChange` handler. */
    method Edit(f: Field, v: Value)
      requires Valid() && open
      modifies this
      ensures Valid() && open && selected == old(selected)
      ensures form == old(form).With(f, v)
    {
      form := form.With(f, v);
    }

    /** `handleSubmit`. It looks the form's nim up in the loaded students; when
        no student matches it dispatches nothing and leaves the dialog as it
        is. Otherwise it dispatches exactly one request: an update addressed by
        the selected bill's id when editing, else a create. `students` is the
        students query's data. */
    method Submit(students: Value) returns (r: Eval<Option<BillRequest>>)
      requires Valid() && open
      ensures r.TypeError? <==> FindBy(students, "nim", form.nim).TypeError?
      ensures r.Returns? ==> (r.value.None? <==> !Truthy(FindBy(students, "nim", form.nim).value))
      ensures r.Returns? && r.value.Some? ==>
        var student := FindBy(students, "nim", form.nim).value;
        && (r.value.value.CreateBill? || r.value.value.UpdateBill?)
        && r.value.value.payload == Payload(student, form)
        && r.value.value.payload.nim == form.nim
        && (Truthy(selected) ==> r.value.value == UpdateBill(OptMember(selected, "id_tagihan"), Payload(student, form)))
        && (!Truthy(selected) ==> r.value.value == CreateBill(Payload(student, form)))
    {
      var found := FindBy(students, "nim", form.nim);
      if found.TypeError? {
        return TypeError;
      }
      var student := found.value;
      if !Truthy(student) {
        return Returns(None);
      }
      FoundKeyMatches(students, form.nim);
      var payload := Payload(student, form);
      if Truthy(selected) {
        r := Returns(Some(UpdateBill(OptMember(selected, "id_tagihan"), payload)));
      } else {
        r := Returns(Some(CreateBill(payload)));
      }
    }

    /** The grid's Delete button: dispatched straight away, without asking. */
    method Delete(row: Value) returns (r: BillRequest)
      ensures r == DeleteBill(OptMember(row, "id_tagihan"))
    {
      r := DeleteBill(OptMember(row, "id_tagihan"));
    }

    /** A request settles. On success every kind marks 'bills' stale; a create or
        an update also closes the dialog. A transport failure or a
        `{status: 'error'}` reply changes nothing (no `onError` handler). */
    method Settle(req: BillRequest, reply: Option<Value>)
      requires Valid()
      modifies this, client
      ensures Valid()
      ensures Succeeded(req, reply) ==> client.stale == old(client.stale) + {BillsKey}
      ensures !Succeeded(req, reply) ==> client.stale == old(client.stale)
      ensures Succeeded(req, reply) && (req.CreateBill? || req.UpdateBill?) ==>
                !open && selected == Null && form == DefaultForm
      ensures !(Succeeded(req, reply) && (req.CreateBill? || req.UpdateBill?)) ==>
                open == old(open) && selected == old(selected) && form == old(form)
    {
      if Succeeded(req, reply) {
        client.Invalidate(BillsKey);
        if req.CreateBill? || req.UpdateBill? {
          HandleClose();
        }
      }
    }
  }

  /** A student found by nim has that nim. */
  lemma FoundKeyMatches(students: Value, nim: Value)
    requires FindBy(students, "nim", nim).Returns? && Truthy(FindBy(students, "nim", nim).value)
    ensures StrictEq(OptMember(FindBy(students, "nim", nim).value, "nim"), nim)
  {
  }
}
