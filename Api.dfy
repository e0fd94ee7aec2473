/**
  What every screen shares about talking to the REST backend: how a list
  response is unwrapped, how react-query's cache is marked stale after a
  mutation, how a `{status: 'error'}` reply turns into a thrown error, and how a
  server error body is flattened into one line of text for the user.
 */
module Api {
  import opened Js

  // ---------------------------------------------------------------------------
  // Query keys and the query client

  const BillsKey := "bills"
  const StudentsKey := "students"
  const CategoriesKey := "uktCategories"
  const PaymentsKey := "payments"
  const HistoryKey := "uktCategoryHistory"
  const StatusLogsKey := "statusLogs"

  /** The query client shared by all screens, reduced to the set of query keys
      that a mutation has marked stale (`invalidateQueries`). */
  class QueryClient {
    var stale: set<string>

    constructor ()
      ensures stale == {}
    {
      stale := {};
    }

    method Invalidate(key: string)
      modifies this
      ensures stale == old(stale) + {key}
    {
      stale := stale + {key};
    }
  }

  // ---------------------------------------------------------------------------
  // List responses

  /** The body of a list query that probes two envelope shapes: the array at
      `data.data`, else the array at `data.data.data`, else the empty array.
      Reading `data.data` throws only when the response body itself is null. */
  function DecodeList(body: Value): (r: Eval<Value>)
    ensures r.TypeError? <==> Nullish(body)
    ensures r.Returns? ==> r.value.Arr?
    ensures r.Returns? && OptMember(body, "data").Arr? ==> r.value == OptMember(body, "data")
    ensures r.Returns? && !OptMember(body, "data").Arr? && OptMember(OptMember(body, "data"), "data").Arr? ==>
              r.value == OptMember(OptMember(body, "data"), "data")
    ensures r.Returns? && !OptMember(body, "data").Arr? && !OptMember(OptMember(body, "data"), "data").Arr? ==>
              r.value == Arr([])
  {
    var outer :- Member(body, "data");
    if outer.Arr? then Returns(outer)
    else
      var inner := OptMember(outer, "data");
      if inner.Arr? then Returns(inner) else Returns(Arr([]))
  }

  /** The body of a list query written `response.data.data || []`: whatever
      truthy value sits at `data.data`, otherwise the empty array. */
  function DataOrEmpty(body: Value): (r: Eval<Value>)
    ensures r.TypeError? <==> Nullish(body)
    ensures r.Returns? ==> Truthy(r.value)
    ensures r.Returns? && Truthy(OptMember(body, "data")) ==> r.value == OptMember(body, "data")
    ensures r.Returns? && !Truthy(OptMember(body, "data")) ==> r.value == Arr([])
  {
    var d :- Member(body, "data");
    Returns(Or(d, Arr([])))
  }

  /** The body of a list query written `response.data.data.data || []`: one
      envelope deeper than `DataOrEmpty`, and each of the three reads throws
      when the level above it is null or undefined. */
  function DeepDataOrEmpty(body: Value): (r: Eval<Value>)
    ensures r.TypeError? <==>
              Nullish(body) || Nullish(OptMember(body, "data")) || Nullish(OptMember(OptMember(body, "data"), "data"))
    ensures r.Returns? ==> Truthy(r.value)
    ensures r.Returns? && Truthy(OptMember(OptMember(OptMember(body, "data"), "data"), "data")) ==>
              r.value == OptMember(OptMember(OptMember(body, "data"), "data"), "data")
    ensures r.Returns? && !Truthy(OptMember(OptMember(OptMember(body, "data"), "data"), "data")) ==>
              r.value == Arr([])
  {
    var d :- Member(body, "data");
    var dd :- Member(d, "data");
    var ddd :- Member(dd, "data");
    Returns(Or(ddd, Arr([])))
  }

  /** The `data` a query exposes once its function has settled: the new value,
      or, when the function threw, the value it had before (`undefined` before
      the first success). */
  function Settled(previous: Value, outcome: Eval<Value>): (r: Value)
    ensures outcome.Returns? ==> r == outcome.value
    ensures outcome.TypeError? ==> r == previous
  {
    if outcome.Returns? then outcome.value else previous
  }

  /** `Array.isArray(raw) ? raw : []`: the rows handed to the grid. */
  function RowsOf(raw: Value): (r: seq<Value>)
    ensures raw.Arr? ==> r == raw.items
    ensures !raw.Arr? ==> r == []
  {
    if raw.Arr? then raw.items else []
  }

  /** The grid's rows after a first load: the probe order of `DecodeList`, and
      a body the decoder throws on gives no rows rather than an error. */
  lemma FirstLoadRows(body: Value)
    ensures var rows := RowsOf(Settled(Undefined, DecodeList(body)));
      && (OptMember(body, "data").Arr? ==> rows == OptMember(body, "data").items)
      && (!OptMember(body, "data").Arr? && OptMember(OptMember(body, "data"), "data").Arr? ==>
            rows == OptMember(OptMember(body, "data"), "data").items)
      && (!OptMember(body, "data").Arr? && !OptMember(OptMember(body, "data"), "data").Arr? ==> rows == [])
  {
  }

  // ---------------------------------------------------------------------------
  // Mutation replies and errors

  /** A rejected mutation as its `onError` handler sees it: `err.message`, and
      `err.response` (undefined for an error the mutation function threw). */
  datatype MutationError = MutationError(message: string, response: Value)

  /** A mutation function that checks `response.data.status === 'error'`:
      `None` when the reply is accepted, `Some(m)` when it throws
      `new Error(response.data.message || fallback)` with message `m`; reading
      the status of a null body throws a TypeError. */
  function CheckReply(body: Value, fallback: string): (r: Eval<Option<string>>)
    ensures r.TypeError? <==> Nullish(body)
    ensures r.Returns? ==> (r.value.Some? <==> OptMember(body, "status") == Str("error"))
    ensures r.Returns? && r.value.Some? && Truthy(OptMember(body, "message")) ==>
              r.value.value == ToString(OptMember(body, "message"))
    ensures r.Returns? && r.value.Some? && !Truthy(OptMember(body, "message")) ==> r.value.value == fallback
  {
    var status :- Member(body, "status");
    if StrictEq(status, Str("error")) then
      Returns(Some(ToString(Or(OptMember(body, "message"), Str(fallback)))))
    else Returns(None)
  }

  /** How a mutation's HTTP call ended: the server answered with a body, or
      axios rejected with an error (a non-2xx status, or no response). */
  datatype Outcome = Answered(body: Value) | Failed(err: MutationError)

  /** The error a mutation function that checks `status === 'error'` rejects
      with, or `None` when it resolves. `thrown` is the engine's message for
      the TypeError raised by reading the status of a null body. */
  function Rejection(outcome: Outcome, fallback: string, thrown: string): (r: Option<MutationError>)
    ensures outcome.Failed? ==> r == Some(outcome.err)
    ensures outcome.Answered? && Nullish(outcome.body) ==> r == Some(MutationError(thrown, Undefined))
    ensures outcome.Answered? && !Nullish(outcome.body) ==>
              (r.None? <==> OptMember(outcome.body, "status") != Str("error"))
    ensures outcome.Answered? && !Nullish(outcome.body) && r.Some? ==>
              r.value == MutationError(CheckReply(outcome.body, fallback).value.value, Undefined)
  {
    match outcome
    case Failed(err) => Some(err)
    case Answered(body) =>
      match CheckReply(body, fallback)
      case TypeError => Some(MutationError(thrown, Undefined))
      case Returns(None) => None
      case Returns(Some(m)) => Some(MutationError(m, Undefined))
  }

  /** A `{status: 'error'}` reply reaches `onError` as an error with no
      response, so the banner shows the prefix and the reply's message (or the
      mutation's fallback message when it has none). */
  lemma ErrorReplyText(prefix: string, body: Value, fallback: string, thrown: string, stringify: Value -> string)
    requires body.Obj? && Lookup(body.props, "status") == Str("error")
    ensures var r := Rejection(Answered(body), fallback, thrown);
      && r.Some?
      && (Truthy(Lookup(body.props, "message")) ==>
            ErrorText(prefix, r.value, stringify) == prefix + ToString(Lookup(body.props, "message")))
      && (!Truthy(Lookup(body.props, "message")) ==> ErrorText(prefix, r.value, stringify) == prefix + fallback)
  {
  }

  /** `typeof v === 'object'`. */
  predicate TypeofObject(v: Value) {
    v.Null? || v.Arr? || v.Obj? || v.File?
  }

  /** `Object.values(v).flat().join(' | ')`. */
  function FlatJoin(v: Value): string {
    Join(Flat(ObjectValues(v)), " | ")
  }

  /** The message carried by a server error body: its `errors` map flattened,
      else its `message` (flattened when it is an object), else the body as
      JSON. */
  function BodyMessage(data: Value, stringify: Value -> string): Value {
    var errors := OptMember(data, "errors");
    if Truthy(errors) then Str(FlatJoin(errors))
    else
      var message := OptMember(data, "message");
      if Truthy(message) then
        (if TypeofObject(message) then Str(FlatJoin(message)) else message)
      else Str(stringify(data))
  }

  /** The text an `onError` handler puts in the screen's error banner: the
      prefix, then the flattened server body when the error carries a response
      with a body, else the error's own message. */
  function ErrorText(prefix: string, err: MutationError, stringify: Value -> string): (r: string)
    ensures prefix <= r
  {
    if Truthy(err.response) && Truthy(OptMember(err.response, "data")) then
      prefix + ToString(BodyMessage(OptMember(err.response, "data"), stringify))
    else prefix + err.message
  }

  // ---------------------------------------------------------------------------
  // Validation-error maps

  /** Strings joined with a separator. */
  function JoinStrings(ss: seq<string>, sep: string): string {
    if ss == [] then "" else if |ss| == 1 then ss[0] else ss[0] + sep + JoinStrings(ss[1..], sep)
  }

  /** A field-keyed validation-error map, each field with its list of messages. */
  function ErrorsObject(fields: seq<(string, seq<string>)>): (r: Value)
    ensures r.Obj? && |r.props| == |fields|
  {
    if fields == [] then Obj([])
    else Obj([(fields[0].0, Arr(Strs(fields[0].1)))] + ErrorsObject(fields[1..]).props)
  }

  /** Field names that occur once each, as the keys of a parsed JSON object
      do. */
  predicate DistinctNames(fields: seq<(string, seq<string>)>) {
    forall i, j :: 0 <= i < j < |fields| ==> fields[i].0 != fields[j].0
  }

  /** With distinct field names, reading a field of the map gives exactly that
      field's messages. */
  lemma {:induction false} ErrorsObjectLookup(fields: seq<(string, seq<string>)>, k: nat)
    requires DistinctNames(fields) && k < |fields|
    ensures Lookup(ErrorsObject(fields).props, fields[k].0) == Arr(Strs(fields[k].1))
  {
    if k > 0 {
      assert forall i :: 0 <= i < |fields[1..]| ==> fields[1..][i] == fields[i + 1];
      ErrorsObjectLookup(fields[1..], k - 1);
      assert fields[0].0 != fields[k].0;
      assert ErrorsObject(fields).props[1..] == ErrorsObject(fields[1..]).props;
    }
  }

  function Strs(ss: seq<string>): (r: seq<Value>)
    ensures |r| == |ss|
  {
    if ss == [] then [] else [Str(ss[0])] + Strs(ss[1..])
  }

  /** Every message of every field, field by field. */
  function AllMessages(fields: seq<(string, seq<string>)>): seq<string> {
    if fields == [] then [] else fields[0].1 + AllMessages(fields[1..])
  }

  lemma {:induction false} StrsAppend(a: seq<string>, b: seq<string>)
    ensures Strs(a + b) == Strs(a) + Strs(b)
  {
    if a == [] {
      assert a + b == b;
    } else {
      var ab := a + b;
      assert ab != [] && ab[0] == a[0] && ab[1..] == a[1..] + b;
      assert Strs(ab) == [Str(a[0])] + Strs(a[1..] + b);
      StrsAppend(a[1..], b);
      assert Strs(a) == [Str(a[0])] + Strs(a[1..]);
    }
  }

  lemma {:induction false} FlatErrors(fields: seq<(string, seq<string>)>)
    ensures Flat(ObjectValues(ErrorsObject(fields))) == Strs(AllMessages(fields))
  {
    if fields != [] {
      FlatErrors(fields[1..]);
      var v := ErrorsObject(fields);
      assert PropValues(v.props)[1..] == PropValues(ErrorsObject(fields[1..]).props);
      assert ObjectValues(v) == [Arr(Strs(fields[0].1))] + ObjectValues(ErrorsObject(fields[1..]));
      StrsAppend(fields[0].1, AllMessages(fields[1..]));
    }
  }

  lemma {:induction false} JoinStrs(ss: seq<string>, sep: string)
    ensures Join(Strs(ss), sep) == JoinStrings(ss, sep)
  {
    if |ss| > 1 {
      JoinStrs(ss[1..], sep);
      assert Strs(ss)[1..] == Strs(ss[1..]);
    }
  }

  /** A response whose body carries a validation-error map shows every message
      of every field, in order, separated by " | ", after the prefix. */
  lemma ValidationErrorsText(prefix: string, message: string, fields: seq<(string, seq<string>)>,
                             stringify: Value -> string)
    requires DistinctNames(fields)
    ensures var body := Obj([("errors", ErrorsObject(fields))]);
      ErrorText(prefix, MutationError(message, Obj([("data", body)])), stringify)
        == prefix + JoinStrings(AllMessages(fields), " | ")
  {
    FlatErrors(fields);
    JoinStrs(AllMessages(fields), " | ");
  }

  /** A message that is itself a field-keyed map is flattened the same way. */
  lemma MessageMapText(prefix: string, message: string, fields: seq<(string, seq<string>)>,
                       stringify: Value -> string)
    requires DistinctNames(fields)
    ensures var body := Obj([("message", ErrorsObject(fields))]);
      ErrorText(prefix, MutationError(message, Obj([("data", body)])), stringify)
        == prefix + JoinStrings(AllMessages(fields), " | ")
  {
    FlatErrors(fields);
    JoinStrs(AllMessages(fields), " | ");
  }

  /** A body with neither an error map nor a message is shown as its JSON text. */
  lemma JsonFallbackText(prefix: string, message: string, body: Value, stringify: Value -> string)
    requires body.Obj? && !Truthy(Lookup(body.props, "errors")) && !Truthy(Lookup(body.props, "message"))
    ensures ErrorText(prefix, MutationError(message, Obj([("data", body)])), stringify) == prefix + stringify(body)
  {
  }

  /** A body with a plain string message and no error map shows that message. */
  lemma StringMessageText(prefix: string, message: string, text: string, stringify: Value -> string)
    requires text != ""
    ensures ErrorText(prefix, MutationError(message, Obj([("data", Obj([("message", Str(text))]))])), stringify)
              == prefix + text
  {
  }

  /** An error thrown by the mutation function itself carries no response, so
      its message follows the prefix. */
  lemma ThrownErrorText(prefix: string, message: string, stringify: Value -> string)
    ensures ErrorText(prefix, MutationError(message, Undefined), stringify) == prefix + message
  {
  }
}
