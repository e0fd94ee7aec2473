/**
  The payments screen: a grid of the payments with their bill, proof link and
  verification status, and a modal form that records a payment or edits one.
  An edit that carries a newly chosen proof file is sent as multipart form
  data, any other edit as JSON.
 */
module Payments {
  import opened Js
  import opened Api

  const ApiUrl := "https://ti054c04.agussbn.my.id/api"

  datatype PaymentForm = PaymentForm(id_tagihan: Value, tanggal_bayar: Value, bukti_pembayaran: Value,
                                     status_verifikasi: Value)
  {
    function With(f: Field, v: Value): PaymentForm {
      match f
      case Bill => this.(id_tagihan := v)
      case PaidOn => this.(tanggal_bayar := v)
      case Proof => this.(bukti_pembayaran := v)
      case Status => this.(status_verifikasi := v)
    }
  }

  /** The proof field is a file input: its `onChange` stores `files[0]`, a
      `File`, or undefined when the choice was cancelled. */
  datatype Field = Bill | PaidOn | Proof | Status

  /** The form of a new payment, and of a closed dialog. */
  const DefaultForm := PaymentForm(Str(""), Str(""), Str(""), Str("MENUNGGU"))

  /** The form seeded from a payment row; `paidOn` is the row's
      `tanggal_bayar` formatted as `yyyy-MM-dd`. A missing proof becomes ''. */
  function EditForm(payment: Value, paidOn: string): (r: PaymentForm)
    ensures r.id_tagihan == OptMember(payment, "id_tagihan") && r.tanggal_bayar == Str(paidOn)
    ensures r.status_verifikasi == OptMember(payment, "status_verifikasi")
    ensures Truthy(OptMember(payment, "bukti_pembayaran")) ==> r.bukti_pembayaran == OptMember(payment, "bukti_pembayaran")
    ensures !Truthy(OptMember(payment, "bukti_pembayaran")) ==> r.bukti_pembayaran == Str("")
  {
    PaymentForm(OptMember(payment, "id_tagihan"), Str(paidOn), Or(OptMember(payment, "bukti_pembayaran"), Str("")),
                OptMember(payment, "status_verifikasi"))
  }

  /** An update carries the selected payment's id in front of the form's
      fields (`{id_pembayaran, ...formData}`). */
  datatype UpdatePayload = UpdatePayload(id_pembayaran: Value, form: PaymentForm)

  datatype PaymentRequest = CreatePayment(form: PaymentForm) | UpdatePayment(payload: UpdatePayload) | DeletePayment(id: Value)

  // ---------------------------------------------------------------------------
  // The update body

  /** What `FormData.append` stores: a file as it is, anything else as its
      string. */
  function Entry(v: Value): (r: Value)
    ensures v.File? ==> r == v
    ensures !v.File? ==> r == Str(ToString(v))
  {
    if v.File? then v else Str(ToString(v))
  }

  /** A browser `FormData`, reduced to its entries in append order. */
  class FormData {
    var entries: seq<(string, Value)>

    constructor ()
      ensures entries == []
    {
      entries := [];
    }

    method Append(name: string, v: Value)
      modifies this
      ensures entries == old(entries) + [(name, Entry(v))]
    {
      entries := entries + [(name, Entry(v))];
    }
  }

  /** The body an update sends: multipart entries, or a JSON object. */
  datatype PaymentBody = Multipart(entries: seq<(string, Value)>) | Json(props: seq<(string, Value)>)

  /** The body an update sends for a form whose status is a string: a proof
      that is a `File` selects the multipart form with the four fields;
      otherwise the JSON body has only the bill, the date and the status. */
  function ExpectedBody(form: PaymentForm): PaymentBody
    requires form.status_verifikasi.Str?
  {
    if form.bukti_pembayaran.File? then
      Multipart([("id_tagihan", Entry(form.id_tagihan)), ("tanggal_bayar", Entry(form.tanggal_bayar)),
                 ("status_verifikasi", Str(Lower(form.status_verifikasi.s))), ("bukti_pembayaran", form.bukti_pembayaran)])
    else Json([("id_tagihan", form.id_tagihan), ("tanggal_bayar", form.tanggal_bayar),
               ("status_verifikasi", Str(Lower(form.status_verifikasi.s)))])
  }

  /** The update mutation's body, built step by step as the mutation does. It
      rejects before sending anything when the status is not a string. */
  method UpdateBody(p: UpdatePayload) returns (r: Eval<PaymentBody>)
    ensures r.TypeError? <==> !p.form.status_verifikasi.Str?
    ensures r.Returns? ==> r.value == ExpectedBody(p.form)
  {
    var form := p.form;
    if form.bukti_pembayaran.File? {
      var data := new FormData();
      data.Append("id_tagihan", form.id_tagihan);
      data.Append("tanggal_bayar", form.tanggal_bayar);
      var status := ToLowerCase(form.status_verifikasi);
      if status.TypeError? {
        return TypeError;
      }
      data.Append("status_verifikasi", Str(status.value));
      data.Append("bukti_pembayaran", form.bukti_pembayaran);
      r := Returns(Multipart(data.entries));
    } else {
      var status := ToLowerCase(form.status_verifikasi);
      if status.TypeError? {
        return TypeError;
      }
      r := Returns(Json([("id_tagihan", form.id_tagihan), ("tanggal_bayar", form.tanggal_bayar),
                         ("status_verifikasi", Str(status.value))]));
    }
  }

  /** The field names a body sends. */
  function Names(entries: seq<(string, Value)>): seq<string> {
    seq(|entries|, i requires 0 <= i < |entries| => entries[i].0)
  }

  function BodyEntries(b: PaymentBody): seq<(string, Value)> {
    match b
    case Multipart(entries) => entries
    case Json(props) => props
  }

  /** The proof is sent exactly when it is a newly chosen file, and then as
      the file itself; every body names the bill, the date and the status
      first, and carries the status in lower case. */
  lemma ExpectedBodyShape(form: PaymentForm)
    requires form.status_verifikasi.Str?
    ensures var b := ExpectedBody(form);
      && (b.Multipart? <==> form.bukti_pembayaran.File?)
      && (("bukti_pembayaran" in Names(BodyEntries(b))) <==> form.bukti_pembayaran.File?)
      && (form.bukti_pembayaran.File? ==> Lookup(BodyEntries(b), "bukti_pembayaran") == form.bukti_pembayaran)
      && Names(BodyEntries(b))[..3] == ["id_tagihan", "tanggal_bayar", "status_verifikasi"]
      && Lookup(BodyEntries(b), "status_verifikasi") == Str(Lower(form.status_verifikasi.s))
  {
    var b := ExpectedBody(form);
    var e := BodyEntries(b);
    var names := Names(e);
    assert e[1..][1..] == e[2..] && e[2..][0] == e[2];
    assert Lookup(e, "status_verifikasi") == Lookup(e[1..], "status_verifikasi") == Lookup(e[2..], "status_verifikasi");
    if !form.bukti_pembayaran.File? {
      assert |names| == 3 && names[0] != "bukti_pembayaran" && names[1] != "bukti_pembayaran"
             && names[2] != "bukti_pembayaran";
    } else {
      assert names[3] == "bukti_pembayaran";
      assert e[2..][1..] == e[3..] && e[3..][0] == e[3];
      assert Lookup(e, "bukti_pembayaran") == Lookup(e[2..], "bukti_pembayaran") == Lookup(e[3..], "bukti_pembayaran");
    }
  }

  /** The update mutation sends JSON for a form that keeps the stored proof:
      the seeded proof is the stored file name (or ''), never a `File`. The
      form's required file input prevents submitting such a form, so this
      branch is reached only by calling the mutation directly. */
  lemma SeededEditSendsJson(payment: Value, paidOn: string)
    requires !OptMember(payment, "bukti_pembayaran").File?
    ensures !EditForm(payment, paidOn).bukti_pembayaran.File?
  {
  }

  // ---------------------------------------------------------------------------
  // Grid columns

  /** The bill column: "Bill #id - semester" when the row's bill is loaded,
      else the raw bill id. */
  function BillLabel(bills: Value, row: Value): (r: Eval<Value>)
    ensures r.TypeError? <==> FindBy(bills, "id_tagihan", OptMember(row, "id_tagihan")).TypeError?
    ensures var found := FindBy(bills, "id_tagihan", OptMember(row, "id_tagihan"));
      r.Returns? && !Truthy(found.value) ==> r.value == OptMember(row, "id_tagihan")
    ensures var found := FindBy(bills, "id_tagihan", OptMember(row, "id_tagihan"));
      r.Returns? && Truthy(found.value) ==>
        r.value == Str("Bill #" + ToString(OptMember(found.value, "id_tagihan")) + " - "
                       + ToString(OptMember(found.value, "semester")))
  {
    var bill :- FindBy(bills, "id_tagihan", OptMember(row, "id_tagihan"));
    if Truthy(bill) then
      Returns(Str("Bill #" + ToString(OptMember(bill, "id_tagihan")) + " - " + ToString(OptMember(bill, "semester"))))
    else Returns(OptMember(row, "id_tagihan"))
  }

  /** The semester column: the bill's semester, or '' when it is not loaded. */
  function SemesterLabel(bills: Value, row: Value): (r: Eval<Value>)
    ensures r.TypeError? <==> FindBy(bills, "id_tagihan", OptMember(row, "id_tagihan")).TypeError?
    ensures var found := FindBy(bills, "id_tagihan", OptMember(row, "id_tagihan"));
      r.Returns? && !Truthy(found.value) ==> r.value == Str("")
    ensures var found := FindBy(bills, "id_tagihan", OptMember(row, "id_tagihan"));
      r.Returns? && Truthy(found.value) ==> r.value == OptMember(found.value, "semester")
  {
    var bill :- FindBy(bills, "id_tagihan", OptMember(row, "id_tagihan"));
    Returns(if Truthy(bill) then OptMember(bill, "semester") else Str(""))
  }

  /** The bill label names the row's own bill id and the semester the
      semester column shows, whenever the bill is loaded. */
  lemma BillColumnsAgree(bills: Value, row: Value, id: int)
    requires OptMember(row, "id_tagihan") == Num(id)
    requires BillLabel(bills, row).Returns? && SemesterLabel(bills, row).Returns?
    requires Truthy(FindBy(bills, "id_tagihan", Num(id)).value)
    ensures BillLabel(bills, row).value
              == Str("Bill #" + IntToDecimal(id) + " - " + ToString(SemesterLabel(bills, row).value))
  {
    var found := FindBy(bills, "id_tagihan", Num(id)).value;
    var items := bills.items;
    var i :| 0 <= i < |items| && items[i] == found && !Nullish(items[i])
             && StrictEq(OwnProp(items[i], "id_tagihan"), Num(id));
  }

  /** With no bills loaded, the bill column shows the raw id and the
      semester column is empty. */
  lemma NoBillsLoaded(row: Value)
    ensures BillLabel(Undefined, row) == Returns(OptMember(row, "id_tagihan"))
    ensures SemesterLabel(Undefined, row) == Returns(Str(""))
  {
  }

  /** The View Proof button is disabled exactly when the proof is falsy. */
  predicate ProofDisabled(proof: Value) {
    !Truthy(proof)
  }

  /** The address the View Proof button opens: a stored file name gets the
      storage prefix, an absolute `http` address is opened as it is. Reading
      `startsWith` of a truthy non-string throws. */
  function ProofTarget(proof: Value): (r: Eval<Value>)
    ensures !Truthy(proof) ==> r == Returns(proof)
    ensures Truthy(proof) && !proof.Str? ==> r.TypeError?
    ensures Truthy(proof) && proof.Str? && "http" <= proof.s ==> r == Returns(proof)
    ensures Truthy(proof) && proof.Str? && !("http" <= proof.s) ==> r == Returns(Str(ApiUrl + "/storage/" + proof.s))
  {
    if !Truthy(proof) then Returns(proof)
    else
      var absolute :- StartsWith(proof, "http");
      if absolute then Returns(proof) else Returns(Str(ApiUrl + "/storage/" + proof.s))
  }

  /** An enabled link always opens an `http` address, and resolving that
      address again changes nothing. */
  lemma ProofTargetAbsolute(proof: Value)
    requires !ProofDisabled(proof) && proof.Str?
    ensures ProofTarget(proof).Returns? && ProofTarget(proof).value.Str?
    ensures "http" <= ProofTarget(proof).value.s
    ensures ProofTarget(ProofTarget(proof).value) == ProofTarget(proof)
  {
    if !("http" <= proof.s) {
      var t := ApiUrl + "/storage/" + proof.s;
      assert t[..4] == ApiUrl[..4] == "http";
    }
  }

  datatype Colour = Green | Red | Orange

  /** The status pill. */
  function StatusColour(status: Value): (c: Colour)
    ensures c == Green <==> status == Str("TERVERIFIKASI")
    ensures c == Red <==> status == Str("DITOLAK")
    ensures c == Orange <==> status != Str("TERVERIFIKASI") && status != Str("DITOLAK")
  {
    if StrictEq(status, Str("TERVERIFIKASI")) then Green
    else if StrictEq(status, Str("DITOLAK")) then Red
    else Orange
  }

  // ---------------------------------------------------------------------------
  // The screen

  /** The dialog session of the payments screen. */
  class PaymentsScreen {
    var open: bool
    var selected: Value
    var form: PaymentForm
    const client: QueryClient

    /** A closed dialog always holds the default form. */
    ghost predicate Valid()
      reads this
    {
      !open ==> form == DefaultForm
    }

    constructor (client: QueryClient)
      ensures Valid() && this.client == client
      ensures !open && selected == Null && form == DefaultForm
    {
      this.client := client;
      open := false;
      selected := Null;
      form := DefaultForm;
    }

    /** `handleOpen(payment)` from a row's Edit button, or `handleOpen()`.
        `paidOn` is the row's date formatted by date-fns, `None` when it throws
        on an invalid date; the handler then stops after selecting the row,
        and `threw` reports it. */
    method HandleOpen(payment: Value, paidOn: Option<string>) returns (threw: bool)
      requires Valid() && !open
      modifies this
      ensures Valid()
      ensures threw <==> Truthy(payment) && paidOn.None?
      ensures !Truthy(payment) ==> open && selected == Null && form == DefaultForm
      ensures Truthy(payment) && paidOn.Some? ==> open && selected == payment && form == EditForm(payment, paidOn.value)
      ensures threw ==> !open && selected == payment && form == old(form)
    {
      threw := false;
      if Truthy(payment) {
        selected := payment;
        if paidOn.None? {
          return true;
        }
        form := EditForm(payment, paidOn.value);
      } else {
        selected := Null;
        form := DefaultForm;
      }
      open := true;
    }

    method HandleClose()
      modifies this
      ensures Valid() && !open && selected == Null && form == DefaultForm
    {
      open := false;
      selected := Null;
      form := DefaultForm;
    }

    method Edit(f: Field, v: Value)
      requires Valid() && open
      modifies this
      ensures Valid() && open && selected == old(selected)
      ensures form == old(form).With(f, v)
    {
      form := form.With(f, v);
    }

    /** `handleSubmit`: exactly one request, an update of the selected payment
        carrying the whole form, else a create of the form as it is. */
    method Submit() returns (r: PaymentRequest)
      requires Valid() && open
      ensures Truthy(selected) ==> r == UpdatePayment(UpdatePayload(OptMember(selected, "id_pembayaran"), form))
      ensures !Truthy(selected) ==> r == CreatePayment(form)
    {
      if Truthy(selected) {
        r := UpdatePayment(UpdatePayload(OptMember(selected, "id_pembayaran"), form));
      } else {
        r := CreatePayment(form);
      }
    }

    /** The grid's Delete button: dispatched straight away, without asking. */
    method Delete(row: Value) returns (r: PaymentRequest)
      ensures r == DeletePayment(OptMember(row, "id_pembayaran"))
    {
      r := DeletePayment(OptMember(row, "id_pembayaran"));
    }

    /** A request settles; `succeeded` says whether the mutation resolved. On
        success 'payments' is stale and a create or an update closes the
        dialog; a failure changes nothing (there is no `onError`). */
    method Settle(req: PaymentRequest, succeeded: bool)
      requires Valid()
      modifies this, client
      ensures Valid()
      ensures succeeded ==> client.stale == old(client.stale) + {PaymentsKey}
      ensures !succeeded ==> client.stale == old(client.stale)
      ensures succeeded && !req.DeletePayment? ==> !open && selected == Null && form == DefaultForm
      ensures !(succeeded && !req.DeletePayment?) ==> open == old(open) && selected == old(selected) && form == old(form)
    {
      if succeeded {
        client.Invalidate(PaymentsKey);
        if !req.DeletePayment? {
          HandleClose();
        }
      }
    }
  }
}
