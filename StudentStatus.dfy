/**
  The student-status screen: a grid of the status-change log and a modal form
  that records a change. Choosing the student fills in the previous status
  from the loaded students; the new status is chosen from two options.
 */
module StudentStatus {
  import opened Js
  import opened Api

  const Active := "AKTIF"
  const Inactive := "TIDAK AKTIF"

  datatype StatusForm = StatusForm(nim: Value, status_awal: Value, status_baru: Value)

  /** The form before anything is chosen, and after the dialog closes. */
  const DefaultForm := StatusForm(Str(""), Str(""), Str(""))

  /** A log entry to create: the form's fields plus a timestamp. The screen has
      no other mutation, so log entries are never updated or deleted from
      here. */
  datatype LogEntry = LogEntry(nim: Value, status_awal: Value, status_baru: Value, tanggal_perubahan: Value)

  datatype LogRequest = CreateLog(entry: LogEntry)

  /** `{...formData, tanggal_perubahan: stamp}`. */
  function Stamped(form: StatusForm, stamp: string): (e: LogEntry)
    ensures e.nim == form.nim && e.status_awal == form.status_awal && e.status_baru == form.status_baru
    ensures e.tanggal_perubahan == Str(stamp)
  {
    LogEntry(form.nim, form.status_awal, form.status_baru, Str(stamp))
  }

  /** What the mutation function hands the service: the submitted entry with
      its timestamp replaced by a second `new Date().toISOString()`. */
  function Sent(req: LogRequest, stamp: string): (e: LogEntry)
    ensures e.nim == req.entry.nim && e.status_awal == req.entry.status_awal && e.status_baru == req.entry.status_baru
    ensures e.tanggal_perubahan == Str(stamp)
  {
    req.entry.(tanggal_perubahan := Str(stamp))
  }

  /** Whatever timestamp the submit put in, the service receives the form's
      three fields and the mutation's own timestamp. */
  lemma SentIgnoresSubmitStamp(form: StatusForm, submitted: string, sent: string)
    ensures Sent(CreateLog(Stamped(form, submitted)), sent) == Stamped(form, sent)
  {
  }

  /** The previous status a chosen student brings: its `status_aktif`, or ''
      when it is falsy or the student is not loaded. */
  function PreviousStatus(student: Value): (r: Value)
    ensures Truthy(OptMember(student, "status_aktif")) ==> r == OptMember(student, "status_aktif")
    ensures !Truthy(OptMember(student, "status_aktif")) ==> r == Str("")
    ensures Truthy(r) || r == Str("")
  {
    Or(OptMember(student, "status_aktif"), Str(""))
  }

  datatype Colour = Green | Red

  /** The status pills of both status columns. */
  function PillColour(status: Value): (c: Colour)
    ensures c == Green <==> status == Str(Active)
  {
    if StrictEq(status, Str(Active)) then Green else Red
  }

  /** The grid's rows: `statusLogs || []`. */
  function LogRows(logs: Value): (r: Value)
    ensures Truthy(logs) ==> r == logs
    ensures !Truthy(logs) ==> r == Arr([])
  {
    Or(logs, Arr([]))
  }

  /** The new-status select offers exactly two values. */
  predicate StatusOption(v: Value) {
    v == Str(Active) || v == Str(Inactive)
  }

  /** The dialog session of the status screen. */
  class StatusScreen {
    var open: bool
    var form: StatusForm
    const client: QueryClient

    /** A closed dialog holds the empty form, and the new status is empty or
        one of the two options. */
    ghost predicate Valid()
      reads this
    {
      && (!open ==> form == DefaultForm)
      && (form.status_baru == Str("") || StatusOption(form.status_baru))
    }

    constructor (client: QueryClient)
      ensures Valid() && this.client == client && !open && form == DefaultForm
    {
      this.client := client;
      open := false;
      form := DefaultForm;
    }

    /** `handleOpen`: only opens; the form is left as it is. */
    method HandleOpen()
      requires Valid() && !open
      modifies this
      ensures Valid() && open && form == old(form)
    {
      open := true;
    }

    /** `handleClose`: closes and empties all three fields. */
    method HandleClose()
      modifies this
      ensures Valid() && !open && form == DefaultForm
    {
      open := false;
      form := DefaultForm;
    }

    /** The student select's `onChange`: the nim chosen and the status the
        loaded student has, the new status untouched. `students` is the
        students query's data; looking the nim up throws when it is loaded but
        not a list, and the form is then left as it is. */
    method SelectStudent(students: Value, nim: Value) returns (threw: bool)
      requires Valid() && open
      modifies this
      ensures Valid() && open
      ensures threw <==> FindBy(students, "nim", nim).TypeError?
      ensures !threw ==> form == StatusForm(nim, PreviousStatus(FindBy(students, "nim", nim).value), old(form).status_baru)
      ensures threw ==> form == old(form)
    {
      var found := FindBy(students, "nim", nim);
      if found.TypeError? {
        return true;
      }
      threw := false;
      form := StatusForm(nim, PreviousStatus(found.value), form.status_baru);
    }

    /** The new-status select's `onChange`. */
    method SelectNewStatus(v: Value)
      requires Valid() && open && StatusOption(v)
      modifies this
      ensures Valid() && open && form == old(form).(status_baru := v)
    {
      form := form.(status_baru := v);
    }

    /** `handleSubmit`: exactly one create, of the form's fields stamped with
        `now`. */
    method Submit(now: string) returns (r: LogRequest)
      requires Valid() && open
      ensures r == CreateLog(Stamped(form, now))
      ensures StatusOption(r.entry.status_baru) || r.entry.status_baru == Str("")
    {
      r := CreateLog(Stamped(form, now));
    }

    /** The create settles. On success both the log and the students are
        stale (a status change alters the student) and the dialog closes; a
        failure changes nothing. */
    method Settle(succeeded: bool)
      requires Valid()
      modifies this, client
      ensures Valid()
      ensures succeeded ==> client.stale == old(client.stale) + {StatusLogsKey, StudentsKey}
      ensures succeeded ==> !open && form == DefaultForm
      ensures !succeeded ==> client.stale == old(client.stale) && open == old(open) && form == old(form)
    {
      if succeeded {
        client.Invalidate(StatusLogsKey);
        client.Invalidate(StudentsKey);
        HandleClose();
      }
    }
  }

  /** Choosing a loaded student whose status is set carries that status into
      the previous-status field. */
  lemma ChosenStudentStatus(items: seq<Value>, k: nat, nim: string)
    requires k < |items| && items[k].Obj? && OwnProp(items[k], "nim") == Str(nim)
    requires forall j :: 0 <= j < k ==> items[j].Obj? && OwnProp(items[j], "nim") != Str(nim)
    requires Truthy(OwnProp(items[k], "status_aktif"))
    ensures FindBy(Arr(items), "nim", Str(nim)) == Returns(items[k])
    ensures PreviousStatus(FindBy(Arr(items), "nim", Str(nim)).value) == OwnProp(items[k], "status_aktif")
  {
    FirstMatch(items, k, nim);
  }

  lemma {:induction false} FirstMatch(items: seq<Value>, k: nat, nim: string)
    requires k < |items| && items[k].Obj? && OwnProp(items[k], "nim") == Str(nim)
    requires forall j :: 0 <= j < k ==> items[j].Obj? && OwnProp(items[j], "nim") != Str(nim)
    ensures FindIn(items, "nim", Str(nim)) == Returns(items[k])
  {
    if k > 0 {
      FirstMatch(items[1..], k - 1, nim);
    }
  }

  /** A nim that no loaded student has leaves the previous status empty. */
  lemma UnknownStudentStatus(students: Value, nim: Value)
    requires FindBy(students, "nim", nim) == Returns(Undefined)
    ensures PreviousStatus(FindBy(students, "nim", nim).value) == Str("")
  {
  }
}
