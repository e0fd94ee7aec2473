# Tuition-billing admin console: the screens' logic

This project models the page components of a single-page admin console for a
university's tuition (UKT) billing. Each screen shows a grid of records that
the server returns. A modal form creates or edits a record, and server calls
(react-query "mutations") change the data and then mark the cached lists stale.

The screens modelled are:

- **Bills** (`tagihan`): a bill form, a student join on the NIM column, and
  generating bills for a semester.
- **UKT category history** (`riwayat-kategori-ukt`): a create-only form, and a
  search over three fields combined with a NIM filter and a category filter.
  Both mutations set success and error banners.
- **Students** (`mahasiswa`): a student form whose birth date is sent as an
  ISO timestamp, a case-insensitive search over name, NIM and e-mail, and the
  error banners of the three mutations.
- **Payments** (`pembayaran`): a payment form whose update is sent as a
  multipart body when a proof file was chosen and as JSON otherwise (the form's
  required file input lets only the multipart case through), the bill
  join columns, the proof link, and the status colours.
- **Student status** (`log status mahasiswa`): a log of status changes. The
  form takes the previous status from the loaded student.
- **Dashboard**: six counters computed from three lists.

The model is built from a small JavaScript value model (module `Js`). It has
values, truthiness, `||`, `===`, property reads that throw on `null` and
`undefined`, `toLowerCase`, `includes`, `split`, `startsWith`, `parseInt`,
`toString`, `find` and `filter`. A computation that can throw returns
`Eval<T>` (`Returns(v)` or `TypeError`).

Each screen is a `class`:

- Its fields are the component's `useState` variables.
- Its methods are the event handlers and the mutation callbacks.
- A handler that starts a server call returns the request it would send, as a
  datatype value.
- A handler that settles a call takes the call's outcome as a parameter.
- Query invalidation is modelled by `Api.QueryClient`, a set of stale query
  keys.

Where a handler throws part-way, React keeps the state updates made before the
throw. The model keeps that order. For example, `Students.StudentsScreen.HandleOpen`
has already stored the selected student when reading its birth date throws.

Every screen's dialog is modal. While it is open, the page's add and edit
buttons cannot be clicked. So each screen's `HandleOpen` requires a closed
dialog, and the form handlers (`Edit`, `Submit`) require an open one.

Inputs from the outside world are parameters:

- the current date, and `format(new Date(...))`;
- `new Date(...).toISOString()`, which may throw on an invalid date;
- `JSON.stringify`;
- the answers of `window.confirm` and `prompt`;
- the outcome of each server call.

Where the code and its design description disagree, the model follows the
code:

- The student search throws when a record that is not matched by name or NIM
  has no `email`. A search for "sar" over students without e-mail therefore
  throws rather than filtering (`Students.SarOverStudentsWithoutEmail`).
- The history form always creates, even when it was opened from an existing
  row.
- The dashboard counts unpaid bills by the status `'BELUM LUNAS'`, while the
  bill form writes `'belum_lunas'` (`Dashboard.LowerCaseStatusNotUnpaid`).
- The payment form's default status is `'MENUNGGU'`. The update body sends the
  lower-cased status.

## Model

| member | source | states |
|---|---|---|
| Js.Member | src/pages/Students.jsx:218 | reading a property throws exactly when the value is null or undefined; on an object it is `Lookup` of its entries, so a present key gives its first entry and a missing one undefined |
| Js.OptMember | src/pages/Bills.jsx:150 | `v?.key` style read: undefined on nullish values, the property read otherwise |
| Js.Or | src/pages/Bills.jsx:150 | `a \|\| b` is `a` when `a` is truthy and `b` otherwise, and is truthy iff either operand is |
| Js.StrictEq | src/pages/Bills.jsx:187-189 | `===` holds exactly for equal primitives other than NaN; arrays and objects are never equal by value |
| Js.ToLowerCase | src/pages/Students.jsx:218 | `toLowerCase()` returns iff the receiver is a string, and then yields its lower-cased text |
| Js.SearchHit | src/pages/Students.jsx:218-220 | `s.toLowerCase().includes(q.toLowerCase())` returns iff `s` is a string, and then is true iff the lower-cased query occurs at some index of the lower-cased text |
| Js.SearchHitIgnoresCase | src/pages/Students.jsx:218-220 | the search gives the same answer for a query and its lower-cased form |
| Js.IncludesAt | src/pages/UKTCategoryHistory.jsx:174-176 | `includes` is true iff the pattern occurs at some index |
| Js.LowerIdempotent | src/pages/UKTCategoryHistory.jsx:174 | lower-casing twice is lower-casing once |
| Js.SplitFirst | src/pages/Students.jsx:157 | `split('T')[0]` returns iff the receiver is a string, and then yields the text before the first 'T' |
| Js.BeforeFirst | src/pages/Students.jsx:157 | the part before the first separator is a prefix without the separator, followed by the separator whenever it is shorter |
| Js.StartsWith | src/pages/Payments.jsx:182 | `startsWith` returns iff the receiver is a string, and then is true iff the prefix is a prefix |
| Js.MethodToString | src/pages/UKTCategoryHistory.jsx:179 | `v.toString()` throws exactly on null and undefined |
| Js.FindIn | src/pages/Bills.jsx:187-189 | `find` by key: a found element is the first list element whose key is strictly equal to the target; undefined means no element's key matched; it throws iff a nullish element comes before every match |
| Js.FindBy | src/pages/Bills.jsx:233 | `list?.find(...)`: undefined for a nullish list, the array search for an array, a TypeError for any other value |
| Js.FilterEvalThrows | src/pages/Students.jsx:217-221 | `filter` throws iff the test throws on some element |
| Js.FilterEvalSelects | src/pages/Students.jsx:217-221 | when the test never throws, `filter` returns the elements it accepts, in order |
| Js.FilterEvalAgree | src/pages/UKTCategoryHistory.jsx:172-182 | two callbacks that agree wherever the first returns give the same `filter` result whenever the first one's returns |
| Js.SelectTrueMembers | src/pages/UKTCategoryHistory.jsx:172-182 | an element survives the filter iff it is in the list and the test accepts it |
| Js.SelectTrueAppend | src/pages/UKTCategoryHistory.jsx:172-182 | filtering a concatenation is concatenating the filtered parts |
| Js.SelectTrueAll | src/pages/Students.jsx:217-221 | a test that accepts every element keeps the whole list |
| Js.SelectTrueNone | src/pages/Dashboard.jsx:50 | a test that accepts no element keeps nothing |
| Js.SelectTrueShorter | src/pages/Dashboard.jsx:48 | a filtered list is never longer than the list |
| Js.ParseIntRoundTrip | src/pages/UKTCategoryHistory.jsx:153 | `parseInt` gives back an integer and its decimal text as that integer |
| Js.DecimalRoundTrip | src/pages/UKTCategoryHistory.jsx:319 | the number read from an integer's decimal text is that integer |
| Js.PaddedDecimalRoundTrip | src/pages/Bills.jsx:200-203 | `Number` of an integer's decimal text with any white space around it, Unicode spaces included, is that integer; this is how a typed semester, category id or amount converts |
| Js.DecimalHasNoSpace | src/pages/Bills.jsx:200-203 | an integer's decimal text is non-empty and contains no white space |
| Js.DecimalInjective | src/pages/UKTCategoryHistory.jsx:179 | two integers have the same `toString()` text iff they are equal |
| Js.NatToDecimalDigits | src/pages/UKTCategoryHistory.jsx:319 | a natural number's decimal text is a non-empty digit string whose value is the number |
| Js.LeadingDigits | src/pages/UKTCategoryHistory.jsx:153 | the digits `parseInt` reads are the longest digit prefix |
| Js.AllDigitsLead | src/pages/UKTCategoryHistory.jsx:153 | a digit string is read in full |
| Js.TrimStart | src/pages/UKTCategoryHistory.jsx:153 | leading white space removed: a suffix that does not start with a space, and every dropped character is white space or a line terminator as JavaScript defines them (ASCII spaces, U+00A0, U+FEFF, the Unicode space separators, U+2028, U+2029) |
| Js.TrimEnd | src/pages/UKTCategoryHistory.jsx:153 | trailing white space removed: a prefix that does not end with a space, and every dropped character is white space or a line terminator, with the same JavaScript set as `TrimStart` |
| Js.NoSpaceTrims | src/pages/UKTCategoryHistory.jsx:153 | a string without white space is its own trim |
| Js.PropValues | src/pages/UKTCategoryHistory.jsx:89 | `Object.values` of an object: the values of its entries in entry order |
| Js.Lookup | src/pages/Students.jsx:218 | a missing key reads as undefined, a defined value is the value of an entry with that key, and when the key is present the first entry with it is the one read |
| Api.QueryClient.constructor | src/pages/Bills.jsx:43 | a fresh query client has no stale keys |
| Api.QueryClient.Invalidate | src/pages/Bills.jsx:86 | `invalidateQueries` adds its key to the stale set and nothing else |
| Api.DecodeList | src/pages/Bills.jsx:47-53 | the bills list is the array at `data.data`, else the array at `data.data.data`, else empty; it throws only on a nullish body |
| Api.DataOrEmpty | src/pages/Students.jsx:55 | `response.data.data \|\| []` throws only on a nullish body, is the data when that is truthy, and `[]` otherwise |
| Api.DeepDataOrEmpty | src/pages/Payments.jsx:51-54 | the bills query `response.data.data.data \|\| []`: it throws iff one of the three levels is nullish, is the innermost data when that is truthy, and `[]` otherwise |
| Api.Settled | src/pages/Bills.jsx:45-55 | a query's data is the new value after a success, and the previous one when the function threw |
| Api.RowsOf | src/pages/Bills.jsx:55 | `Array.isArray(raw) ? raw : []` keeps arrays and yields no rows otherwise |
| Api.FirstLoadRows | src/pages/Bills.jsx:47-55 | after a first load the grid shows the `data.data` array, else the `data.data.data` array, else no rows, and a body the decoder throws on also gives no rows |
| Api.CheckReply | src/pages/Bills.jsx:80-82 | a reply throws when it is nullish, fails iff its status is 'error', and then with its truthy message or else the fallback text |
| Api.Rejection | src/pages/Students.jsx:58-68 | a mutation rejects when the call failed, when the reply body is nullish (the status read throws), or when the status is 'error', and otherwise succeeds |
| Api.ErrorReplyText | src/pages/Students.jsx:64-66 | a status-'error' reply puts the prefix and the server message, or the fallback, into the banner |
| Api.ErrorText | src/pages/Students.jsx:73-91 | an error banner always starts with the screen's prefix |
| Api.ErrorsObjectLookup | src/pages/Students.jsx:78 | with distinct field names, reading a field of the validation-error map gives exactly that field's messages |
| Api.ErrorsObject | src/pages/Students.jsx:78 | a validation-error map has one entry per field |
| Api.Strs | src/pages/Students.jsx:78 | strings as values keep the count |
| Api.StrsAppend | src/pages/Students.jsx:78 | turning strings into values distributes over concatenation |
| Api.FlatErrors | src/pages/Students.jsx:78 | `Object.values(errors).flat()` lists every field's messages in field order |
| Api.JoinStrs | src/pages/Students.jsx:78 | `join` on string values is joining the strings |
| Api.ValidationErrorsText | src/pages/Students.jsx:77-78 | a reply whose `errors` map has distinct field names produces the prefix and every message joined by ' \| ' |
| Api.MessageMapText | src/pages/Students.jsx:79-83 | a `message` that is an object is flattened and joined the same way |
| Api.JsonFallbackText | src/pages/Students.jsx:84-85 | a reply with neither `errors` nor `message` shows the prefix and the stringified body |
| Api.StringMessageText | src/pages/Students.jsx:79-83 | a non-empty string message is shown after the prefix |
| Api.ThrownErrorText | src/pages/Students.jsx:88-89 | an error without a response shows the prefix and the error's own message |
| Bills.EditForm | src/pages/Bills.jsx:138-152 | editing copies NIM and amount, uses the formatted due date, and falls back to '', or to 'belum_lunas' for the status, on every falsy optional field |
| Bills.PayloadFields | src/pages/Bills.jsx:197-207 | the payload carries the found student's NIM, which equals the form's, and the form's other fields |
| Bills.NimLabel | src/pages/Bills.jsx:232-235 | the NIM column throws exactly when the student lookup does, and shows the raw NIM when no student matches |
| Bills.NimLabelShows | src/pages/Bills.jsx:232-235 | over loaded student records the column shows the label of the first student with the row's NIM, or the raw NIM when none has it |
| Bills.StatusColour | src/pages/Bills.jsx:266 | the status chip is green iff the status is 'lunas' |
| Bills.GenerateRequest | src/pages/Bills.jsx:219-224 | a generate request is sent iff the prompt's answer is truthy, and it carries that answer |
| Bills.FoundKeyMatches | src/pages/Bills.jsx:187-189 | a student the lookup found has a NIM strictly equal to the one searched for |
| Bills.BillsScreen.constructor | src/pages/Bills.jsx:31-40 | the screen starts closed, with no selection and the default form |
| Bills.BillsScreen.HandleOpen | src/pages/Bills.jsx:137-167 | opening for a new bill resets the form; opening for an existing bill selects it and fills the form; when formatting the due date throws, the bill stays selected, the dialog stays closed and `threw` reports it |
| Bills.BillsScreen.HandleClose | src/pages/Bills.jsx:169-182 | closing clears the selection and resets the form |
| Bills.BillsScreen.Edit | src/pages/Bills.jsx:335-442 | a field edit changes that field only |
| Bills.BillsScreen.Submit | src/pages/Bills.jsx:184-217 | submit throws iff the student lookup does, sends nothing when no student matches, and otherwise sends an update for a selected bill and a create for a new one, with the payload of the found student |
| Bills.BillsScreen.Delete | src/pages/Bills.jsx:109-120 | delete sends the row's bill id |
| Bills.BillsScreen.Settle | src/pages/Bills.jsx:77-135 | a successful reply marks the bills stale, and after a create or an update it also closes the dialog; a failure changes nothing |
| CategoryHistory.SubmitPayload | src/pages/UKTCategoryHistory.jsx:148-157 | the payload keeps NIM and date; the category is NaN for '' and the integer for an integer or its decimal text |
| CategoryHistory.StudentName | src/pages/UKTCategoryHistory.jsx:160-163 | the name lookup throws exactly when `find` does, falls back to the NIM, and is the found student's `nama` |
| CategoryHistory.CategoryName | src/pages/UKTCategoryHistory.jsx:166-169 | the category lookup throws exactly when `find` does, falls back to the id itself, and is the found category's `nama_kategori` |
| CategoryHistory.FilterHistory | src/pages/UKTCategoryHistory.jsx:172-182 | no history gives no rows; a loaded value that is not a list throws |
| CategoryHistory.FilterHistoryKeeps | src/pages/UKTCategoryHistory.jsx:172-182 | the filter throws iff some row's test throws, and otherwise keeps exactly the rows whose test passes |
| CategoryHistory.NoFiltersKeepAll | src/pages/UKTCategoryHistory.jsx:173-179 | with the search empty and both filters cleared every row is shown |
| CategoryHistory.Row | src/pages/UKTCategoryHistory.jsx:172 | a history row with the given NIM and category id |
| CategoryHistory.SearchMeaning | src/pages/UKTCategoryHistory.jsx:173-176 | a row matches the search iff the search is empty or its NIM, student name or category name contains the query, ignoring case |
| CategoryHistory.NimFilterMeaning | src/pages/UKTCategoryHistory.jsx:178 | the NIM filter passes iff it is cleared or equals the row's NIM |
| CategoryHistory.CategoryFilterMeaning | src/pages/UKTCategoryHistory.jsx:179 | the category filter passes iff it is cleared or equals the row's id as decimal text |
| CategoryHistory.RowVerdictMeaning | src/pages/UKTCategoryHistory.jsx:172-181 | a well-formed row is kept iff it matches the search, the NIM filter and the category filter |
| CategoryHistory.CategoryFilterById | src/pages/UKTCategoryHistory.jsx:319 | choosing a category from the menu keeps exactly the rows with that category id |
| CategoryHistory.UnloadedCategoryThrows | src/pages/UKTCategoryHistory.jsx:166-176 | with no categories loaded, a non-empty search that misses the NIM and the name throws, because a numeric id is lower-cased |
| CategoryHistory.FilterHistoryFixed | src/pages/UKTCategoryHistory.jsx:166-176 | the corrected filter: no history gives no rows |
| CategoryHistory.FindInRecords | src/pages/UKTCategoryHistory.jsx:161 | searching records that all have a text field never throws and finds a record with that field |
| CategoryHistory.StudentNameIsText | src/pages/UKTCategoryHistory.jsx:160-163 | with student records loaded, a student's name is text |
| CategoryHistory.CategoryNameReturns | src/pages/UKTCategoryHistory.jsx:166-169 | with category records loaded, the category lookup returns |
| CategoryHistory.FixedRowNeverThrows | src/pages/UKTCategoryHistory.jsx:172-181 | with the corrected search, the test of a well-formed row never throws |
| CategoryHistory.FixedFilterNeverThrows | src/pages/UKTCategoryHistory.jsx:172-182 | with the corrected search, the filter over well-formed rows and records never throws |
| CategoryHistory.WrittenFilterThrowsOnWellFormedData | src/pages/UKTCategoryHistory.jsx:166-176 | the code as written throws on well-formed rows and records |
| CategoryHistory.FixedAgreesOnRow | src/pages/UKTCategoryHistory.jsx:172-181 | wherever the written test of a row returns, the corrected test returns the same verdict |
| CategoryHistory.FixedAgreesOnRows | src/pages/UKTCategoryHistory.jsx:172-182 | wherever the written filter returns, the corrected one returns the same rows |
| CategoryHistory.FixedAgrees | src/pages/UKTCategoryHistory.jsx:172-182 | the same agreement for any history value |
| CategoryHistory.HistoryScreen.constructor | src/pages/UKTCategoryHistory.jsx:26-37 | the screen starts closed, with the default form dated today and empty banners and filters |
| CategoryHistory.HistoryScreen.HandleOpen | src/pages/UKTCategoryHistory.jsx:117-135 | opening clears the error, copies an existing row's three fields or resets the form to today, and leaves the filters and the success banner alone |
| CategoryHistory.HistoryScreen.HandleClose | src/pages/UKTCategoryHistory.jsx:137-146 | closing clears the selection and the error, resets the form to today, and leaves the filters alone |
| CategoryHistory.HistoryScreen.Edit | src/pages/UKTCategoryHistory.jsx:375-416 | a field edit changes that field only |
| CategoryHistory.HistoryScreen.Submit | src/pages/UKTCategoryHistory.jsx:148-157 | submit clears the error and always sends a create with the parsed payload, also when a row was selected |
| CategoryHistory.HistoryScreen.Delete | src/pages/UKTCategoryHistory.jsx:233-237 | delete sends the row's history id iff the user confirmed |
| CategoryHistory.HistoryScreen.OnCreateSuccess | src/pages/UKTCategoryHistory.jsx:77-82 | a created entry marks the history stale, closes and resets the dialog, and shows the success message |
| CategoryHistory.HistoryScreen.OnCreateError | src/pages/UKTCategoryHistory.jsx:83-102 | a failed create shows the prefixed error text and changes nothing else |
| CategoryHistory.HistoryScreen.OnDeleteSuccess | src/pages/UKTCategoryHistory.jsx:107-111 | a deletion marks the history stale and shows the deleted message, and changes nothing else |
| CategoryHistory.HistoryScreen.OnDeleteError | src/pages/UKTCategoryHistory.jsx:112-114 | a failed deletion shows the fixed message whatever the error |
| CategoryHistory.HistoryScreen.SetSearchText | src/pages/UKTCategoryHistory.jsx:282 | the search box sets the search text |
| CategoryHistory.HistoryScreen.SetFilterNim | src/pages/UKTCategoryHistory.jsx:298 | the NIM menu sets the NIM filter |
| CategoryHistory.HistoryScreen.SetFilterCategory | src/pages/UKTCategoryHistory.jsx:315 | the category menu sets the category filter |
| CategoryHistory.HistoryScreen.ResetFilters | src/pages/UKTCategoryHistory.jsx:331-335 | the reset button clears all three filters, after which every loaded row is shown |
| CategoryHistory.HistoryScreen.DismissError | src/pages/UKTCategoryHistory.jsx:263 | closing the error banner empties it |
| CategoryHistory.HistoryScreen.DismissSuccess | src/pages/UKTCategoryHistory.jsx:269 | closing the success banner, or the three-second timer, empties it |
| Students.EditForm | src/pages/Students.jsx:149-160 | editing copies the student's fields; the form throws iff a truthy birth date is not text, and otherwise takes the birth date up to its first 'T' (the whole text when it has none), or '' for a falsy date |
| Students.EditFormKeepsDay | src/pages/Students.jsx:157 | an ISO timestamp's day part becomes the form's birth date |
| Students.BeforeFirstAt | src/pages/Students.jsx:157 | the text before the first separator ends where the separator first occurs |
| Students.SubmitBody | src/pages/Students.jsx:197-200 | the body is the form with the birth date as an ISO timestamp, or null when empty, and none when the conversion throws |
| Students.FilterStudents | src/pages/Students.jsx:215-222 | no students give no rows; a loaded value that is not a list throws |
| Students.FilterStudentsKeeps | src/pages/Students.jsx:215-222 | the search throws iff some student's test throws, and otherwise keeps exactly the students it accepts |
| Students.VerdictMeaning | src/pages/Students.jsx:218-220 | a student with text fields is kept iff name, NIM or e-mail contains the query, ignoring case |
| Students.NameHitSuffices | src/pages/Students.jsx:218 | a name match keeps the student without reading its other fields |
| Students.EmptySearchKeepsAll | src/pages/Students.jsx:215-222 | an empty search shows every student that has a name |
| Students.MissingEmailThrows | src/pages/Students.jsx:218-220 | a student matched by neither name nor NIM and without an e-mail makes the search throw |
| Students.NoStartNoMatch | src/pages/Students.jsx:218 | text that never contains the query's first character does not contain the query |
| Students.NoSar | src/pages/Students.jsx:218-220 | 'sar' occurs in 'Sari' and not in 'Budi', 'A1' or '' |
| Students.SarOverStudentsWithoutEmail | src/pages/Students.jsx:215-222 | searching 'sar' over Budi and Sari without e-mail addresses throws |
| Students.SarVerdicts | src/pages/Students.jsx:218-220 | with e-mail addresses, 'sar' rejects Budi and accepts Sari |
| Students.FilterPair | src/pages/Students.jsx:217 | a filter that rejects the first and accepts the second of two elements keeps only the second |
| Students.KeepSecond | src/pages/Students.jsx:215-222 | the same for the student search |
| Students.SarOverStudentsWithEmail | src/pages/Students.jsx:215-222 | searching 'sar' over Budi and Sari with e-mail addresses shows Sari only |
| Students.VerdictIgnoresCase | src/pages/Students.jsx:218-220 | the search treats a query and its lower-cased form alike |
| Students.FailureText | src/pages/Students.jsx:73-144 | create and update errors start with their prefix; a delete error is the error's message, or the fallback text when that is empty |
| Students.UpdateErrorReply | src/pages/Students.jsx:101-103 | a status-'error' reply to an update shows the server's message after the update prefix |
| Students.DeleteErrorReply | src/pages/Students.jsx:136-144 | a status-'error' reply without a message to a delete shows the delete fallback text |
| Students.StudentsScreen.constructor | src/pages/Students.jsx:31-44 | the screen starts closed, with no selection, the default form and an empty search |
| Students.StudentsScreen.HandleOpen | src/pages/Students.jsx:147-175 | opening clears the error; a new student resets the form; an existing one is selected first and fills the form, and when reading its birth date throws the dialog stays closed |
| Students.StudentsScreen.HandleClose | src/pages/Students.jsx:177-191 | closing clears selection and error and resets the form |
| Students.StudentsScreen.Edit | src/pages/Students.jsx:347-427 | a field edit changes that field only; the NIM cannot be edited while a student is selected |
| Students.StudentsScreen.Submit | src/pages/Students.jsx:193-209 | submit clears the error and sends an update addressed to the selected student's NIM, or a create, unless the date conversion throws |
| Students.StudentsScreen.Delete | src/pages/Students.jsx:278-282 | delete sends the row's NIM iff the user confirmed |
| Students.StudentsScreen.Settle | src/pages/Students.jsx:58-145 | a settled mutation marks the students stale and closes the dialog after a create or update, or shows the failure text |
| Students.StudentsScreen.SetSearchText | src/pages/Students.jsx:211-213 | the search box sets the search text |
| Payments.EditForm | src/pages/Payments.jsx:103-108 | editing copies bill id and status, uses the formatted payment date, and keeps the proof or ''. |
| Payments.Entry | src/pages/Payments.jsx:72-75 | a form-data entry keeps a file and turns any other value into its text |
| Payments.FormData.constructor | src/pages/Payments.jsx:71 | a new form-data body has no entries |
| Payments.FormData.Append | src/pages/Payments.jsx:72 | `append` adds one entry at the end |
| Payments.UpdateBody | src/pages/Payments.jsx:69-82 | the update body throws iff the status is not text, and otherwise is the multipart or JSON body that the form determines |
| Payments.ExpectedBodyShape | src/pages/Payments.jsx:69-82 | a chosen proof file gives four multipart entries in order; otherwise a three-field JSON body without the proof; the status is lower-cased in both |
| Payments.SeededEditSendsJson | src/pages/Payments.jsx:103-108 | the update mutation sends JSON for a form that keeps the stored proof; the form's required file input prevents submitting one |
| Payments.BillLabel | src/pages/Payments.jsx:150-155 | the bill column throws exactly when the lookup does, shows 'Bill #id - semester' for a found bill and the raw id otherwise |
| Payments.SemesterLabel | src/pages/Payments.jsx:161-164 | the semester column throws exactly when the lookup does, shows the found bill's semester, and '' otherwise |
| Payments.BillColumnsAgree | src/pages/Payments.jsx:150-164 | both columns describe the same bill |
| Payments.NoBillsLoaded | src/pages/Payments.jsx:150-164 | before the bills load the columns show the raw id and '' |
| Payments.ProofTarget | src/pages/Payments.jsx:181-185 | the proof link is an absolute URL kept as is, a relative path under the storage URL, the falsy value itself, or a throw for a truthy non-string |
| Payments.ProofTargetAbsolute | src/pages/Payments.jsx:181-185 | an enabled proof button opens an 'http' URL, and resolving that URL again changes nothing |
| Payments.StatusColour | src/pages/Payments.jsx:198-203 | green iff verified, red iff rejected, orange for everything else |
| Payments.PaymentsScreen.constructor | src/pages/Payments.jsx:31-38 | the screen starts closed, with no selection and the default form |
| Payments.PaymentsScreen.HandleOpen | src/pages/Payments.jsx:100-119 | opening for a new payment resets the form; an existing one is selected and fills the form, and when formatting its date throws the dialog stays closed and `threw` reports it |
| Payments.PaymentsScreen.HandleClose | src/pages/Payments.jsx:121-130 | closing clears the selection and resets the form |
| Payments.PaymentsScreen.Edit | src/pages/Payments.jsx:262-308 | a field edit, the proof file included, changes that field only |
| Payments.PaymentsScreen.Submit | src/pages/Payments.jsx:132-142 | submit sends an update with the selected payment's id, or a create of the form |
| Payments.PaymentsScreen.Delete | src/pages/Payments.jsx:222 | delete sends the row's payment id without asking |
| Payments.PaymentsScreen.Settle | src/pages/Payments.jsx:57-98 | success marks the payments stale and, after a create or update, closes the dialog; a failure changes nothing |
| StudentStatus.Stamped | src/pages/StudentStatus.jsx:81-87 | the submitted entry is the form's three fields and the timestamp |
| StudentStatus.Sent | src/pages/StudentStatus.jsx:55-60 | the service receives the entry with the mutation's own timestamp |
| StudentStatus.SentIgnoresSubmitStamp | src/pages/StudentStatus.jsx:55-87 | the submit's timestamp never reaches the service |
| StudentStatus.PreviousStatus | src/pages/StudentStatus.jsx:171-177 | the previous status is the student's truthy status, else '' |
| StudentStatus.PillColour | src/pages/StudentStatus.jsx:103 | a status pill is green iff the status is 'AKTIF' |
| StudentStatus.LogRows | src/pages/StudentStatus.jsx:153 | the grid shows the loaded log, or no rows |
| StudentStatus.StatusScreen.constructor | src/pages/StudentStatus.jsx:30-35 | the screen starts closed with the empty form |
| StudentStatus.StatusScreen.HandleOpen | src/pages/StudentStatus.jsx:68-70 | opening keeps the form |
| StudentStatus.StatusScreen.HandleClose | src/pages/StudentStatus.jsx:72-79 | closing empties the three fields |
| StudentStatus.StatusScreen.SelectStudent | src/pages/StudentStatus.jsx:171-177 | choosing a student throws iff the lookup does; otherwise it fills NIM and previous status and keeps the new status |
| StudentStatus.StatusScreen.SelectNewStatus | src/pages/StudentStatus.jsx:198-199 | the new status is one of the two options |
| StudentStatus.StatusScreen.Submit | src/pages/StudentStatus.jsx:81-87 | submit sends one create of the stamped form, with a new status that is empty or an option |
| StudentStatus.StatusScreen.Settle | src/pages/StudentStatus.jsx:61-65 | success marks both the log and the students stale and closes the dialog |
| StudentStatus.ChosenStudentStatus | src/pages/StudentStatus.jsx:171-177 | choosing a loaded student with a status carries that status into the form |
| StudentStatus.FirstMatch | src/pages/StudentStatus.jsx:172 | the lookup finds the first student with the NIM |
| StudentStatus.UnknownStudentStatus | src/pages/StudentStatus.jsx:171-177 | an unknown NIM leaves the previous status empty |
| Dashboard.Total | src/pages/Dashboard.jsx:47 | `list?.length \|\| 0` is 0 for no list and the length of a loaded array |
| Dashboard.Count | src/pages/Dashboard.jsx:48 | a filtered count is 0 with no list, throws for a non-array, and otherwise throws iff some element is nullish and counts the elements whose field equals the target |
| Dashboard.CountAtMostTotal | src/pages/Dashboard.jsx:47-52 | a count never exceeds its total |
| Dashboard.CountedElements | src/pages/Dashboard.jsx:48-52 | over records, an element is counted iff its field is strictly equal to the target |
| Dashboard.Metrics | src/pages/Dashboard.jsx:47-52 | the six counters: throws exactly when one of the counts does, and otherwise holds the three totals in positions 0, 2 and 4 and the active, unpaid and pending counts in positions 1, 3 and 5 |
| Dashboard.CountWithinTotal | src/pages/Dashboard.jsx:47-52 | whenever a count returns, it and its total are numbers and the count is at most the total |
| Dashboard.MetricsBounded | src/pages/Dashboard.jsx:47-87 | each displayed count (active students, unpaid bills, pending payments) is at most the total shown beside it |
| Dashboard.Shown | src/pages/Dashboard.jsx:116 | a card shows '...' while loading and its value otherwise |
| Dashboard.Cards | src/pages/Dashboard.jsx:45-116 | every card shows '...' while any of the three queries loads, and the metrics otherwise |
| Dashboard.NothingLoaded | src/pages/Dashboard.jsx:47-52 | before anything loads every counter is 0 |
| Dashboard.LowerCaseStatusNotUnpaid | src/pages/Dashboard.jsx:50 | bills stored with the form's lower-case statuses are never counted as unpaid |

## Left out

- HTTP: URLs, authentication headers, axios and the service modules' requests are not modelled. Requests are datatype values, and each outcome is a parameter.
- Query functions: only those with logic are modelled (`DecodeList`, `DataOrEmpty`, `DeepDataOrEmpty`). Dashboard's and the service calls' `response.data` are the value itself. src/services/payment and src/services/logStatusMahasiswa are not part of this model.
- react-query scheduling: retries, loading flags except the dashboard's, refetching, and the staleness of cached data beyond the stale-key set are not modelled.
- Numbers: only integers and NaN. Floating point, hexadecimal and exponent forms of `parseInt` and `Number` are not modelled.
- Lower-casing: ASCII letters only, with no Unicode case mapping.
- Objects: an object is a list of entries. A property read takes the first entry with its key, while `Object.values` (`Js.PropValues`) lists every entry. The two agree only when the keys are distinct, as they are in any object parsed from JSON. The flattening lemmas therefore require distinct field names (`Api.DistinctNames`). Prototype properties other than `length`, and reference identity of objects, are not modelled.
- The student-status screen's own students query: src/pages/StudentStatus.jsx never imports `axios`, so the query at lines 46-52 always fails with a ReferenceError. Its student list is whatever another screen left in the shared `['students']` cache entry. That is the `students` parameter of `StudentStatus.StatusScreen.SelectStudent`.
- Dates: the clock, `format`, `new Date` and `toISOString` are parameters (`today`, `now`, `dueDate`, `paidOn` and `toIso`). Their results are not modelled.
- Browser dialogs: `window.confirm`, `prompt`, `window.open` and `JSON.stringify` are parameters or are taken as given.
- Timers: `setTimeout` is modelled only as the success banner's dismissal (`CategoryHistory.HistoryScreen.DismissSuccess`). The delay itself is not modelled.
- Bills.BillsScreen.Submit, Payments.PaymentsScreen.Submit, Students.StudentsScreen.Submit, CategoryHistory.HistoryScreen.Submit, StudentStatus.StatusScreen.Submit: the browser's constraint validation of `required` inputs is not modelled, so each Submit accepts forms the browser would refuse. In particular the payment form's proof input is `required` and mounted afresh on each open, so through the form every payment update is multipart; the JSON branch is reached only by calling the update mutation directly.
- Rendering: layout, icons, currency formatting and console logging are not modelled.
- Error messages: the text of a thrown TypeError is the `thrown` parameter.
- Mutation errors of the bill and payment screens: these screens have no `onError`, so a failed request leaves their state unchanged, and the model shows nothing for it.

## Findings

| source | as written | input that shows it | evidently intended | confidence | as-written member | corrected member |
|---|---|---|---|---|---|---|
| src/pages/UKTCategoryHistory.jsx:166-176 | `getCategoryName` falls back to the numeric category id, and the search then calls `toLowerCase()` on that number | a row `{nim: 'A1', id_kategori_ukt: 3}` with no categories loaded and the search text 'x': the filter throws and the screen fails | compare the category's name as text, e.g. `String(getCategoryName(...))` | not executed | CategoryHistory.UnloadedCategoryThrows | CategoryHistory.FixedFilterNeverThrows |
