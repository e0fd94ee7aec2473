/**
  The dashboard: six counters over the students, bills and payments lists,
  each shown as '...' while any of the three lists is still loading.
 */
module Dashboard {
  import opened Js

  /** `list?.length || 0`. */
  function Total(list: Value): (r: Value)
    ensures Nullish(list) ==> r == Num(0)
    ensures list.Arr? ==> r == Num(|list.items|)
    ensures Truthy(r) || r == Num(0)
  {
    Or(OptMember(list, "length"), Num(0))
  }

  /** The filter callback `x => x[key] === target`. */
  function HasValue(key: string, target: Value): Value -> Eval<bool> {
    x => KeyIs(x, key, target)
  }

  /** `list?.filter(x => x[key] === target).length || 0`: 0 while the list is
      not loaded; on a list, the number of elements whose `key` is `target`.
      Calling `filter` on anything else, or reading `key` of a null element,
      throws. */
  function Count(list: Value, key: string, target: Value): (r: Eval<Value>)
    ensures Nullish(list) ==> r == Returns(Num(0))
    ensures !Nullish(list) && !list.Arr? ==> r.TypeError?
    ensures list.Arr? && r.Returns? ==> r.value == Num(|SelectTrue(list.items, HasValue(key, target))|)
    ensures list.Arr? ==> (r.TypeError? <==> exists i :: 0 <= i < |list.items| && Nullish(list.items[i]))
  {
    match list
    case Undefined => Returns(Num(0))
    case Null => Returns(Num(0))
    case Arr(items) =>
      var p := HasValue(key, target);
      FilterEvalThrows(items, p);
      (match FilterEval(items, p)
       case TypeError => TypeError
       case Returns(kept) =>
         FilterEvalSelects(items, p);
         Returns(Or(Num(|kept|), Num(0))))
    case _ => TypeError
  }

  /** A count never exceeds its list's total. */
  lemma CountAtMostTotal(items: seq<Value>, key: string, target: Value)
    requires Count(Arr(items), key, target).Returns?
    ensures Count(Arr(items), key, target).value.n <= Total(Arr(items)).n
  {
    SelectTrueShorter(items, HasValue(key, target));
  }

  /** On a list of objects, the counted elements are exactly those whose `key`
      is `target`. */
  lemma CountedElements(items: seq<Value>, key: string, target: Value, x: Value)
    requires forall i :: 0 <= i < |items| ==> items[i].Obj?
    ensures Count(Arr(items), key, target).Returns?
    ensures x in SelectTrue(items, HasValue(key, target)) <==>
              x in items && x.Obj? && Lookup(x.props, key) == target && !target.NaN? && !target.Arr? && !target.Obj?
  {
    SelectTrueMembers(items, HasValue(key, target), x);
  }

  const Active := Str("AKTIF")
  const Unpaid := Str("BELUM LUNAS")
  const Pending := Str("MENUNGGU")

  /** The six counters, in display order: total and active students, total
      and unpaid bills, total and pending payments. The page throws if any
      count does. */
  function Metrics(students: Value, bills: Value, payments: Value): (r: Eval<seq<Value>>)
    ensures r.Returns? ==> |r.value| == 6
    ensures r.TypeError? <==> Count(students, "status_aktif", Active).TypeError?
                              || Count(bills, "status_pembayaran", Unpaid).TypeError?
                              || Count(payments, "status_verifikasi", Pending).TypeError?
    ensures r.Returns? ==> r.value[0] == Total(students) && r.value[2] == Total(bills) && r.value[4] == Total(payments)
    ensures r.Returns? ==>
              && r.value[1] == Count(students, "status_aktif", Active).value
              && r.value[3] == Count(bills, "status_pembayaran", Unpaid).value
              && r.value[5] == Count(payments, "status_verifikasi", Pending).value
  {
    var active :- Count(students, "status_aktif", Active);
    var unpaid :- Count(bills, "status_pembayaran", Unpaid);
    var pending :- Count(payments, "status_verifikasi", Pending);
    Returns([Total(students), active, Total(bills), unpaid, Total(payments), pending])
  }

  /** A count and its total over one list: whenever the count returns, both
      are numbers and the count is at most the total. */
  lemma CountWithinTotal(list: Value, key: string, target: Value)
    requires Count(list, key, target).Returns?
    ensures Count(list, key, target).value.Num? && Total(list).Num?
    ensures Count(list, key, target).value.n <= Total(list).n
  {
    if list.Arr? {
      CountAtMostTotal(list.items, key, target);
    }
  }

  /** Each displayed count (active students, unpaid bills, pending payments)
      is a number no larger than the total displayed beside it. */
  lemma MetricsBounded(students: Value, bills: Value, payments: Value)
    requires Metrics(students, bills, payments).Returns?
    ensures var m := Metrics(students, bills, payments).value;
      && m[0].Num? && m[1].Num? && m[1].n <= m[0].n
      && m[2].Num? && m[3].Num? && m[3].n <= m[2].n
      && m[4].Num? && m[5].Num? && m[5].n <= m[4].n
  {
    CountWithinTotal(students, "status_aktif", Active);
    CountWithinTotal(bills, "status_pembayaran", Unpaid);
    CountWithinTotal(payments, "status_verifikasi", Pending);
  }

  /** What a counter card shows. */
  function Shown(loading: bool, value: Value): (r: Value)
    ensures loading ==> r == Str("...")
    ensures !loading ==> r == value
  {
    if loading then Str("...") else value
  }

  /** The cards: every one shows '...' while any query is loading, and the
      metric itself once all three have loaded. */
  function Cards(studentsLoading: bool, billsLoading: bool, paymentsLoading: bool, metrics: seq<Value>): (r: seq<Value>)
    ensures |r| == |metrics|
    ensures studentsLoading || billsLoading || paymentsLoading ==> forall i :: 0 <= i < |r| ==> r[i] == Str("...")
    ensures !(studentsLoading || billsLoading || paymentsLoading) ==> r == metrics
  {
    var loading := studentsLoading || billsLoading || paymentsLoading;
    seq(|metrics|, i requires 0 <= i < |metrics| => Shown(loading, metrics[i]))
  }

  /** Nothing loaded yet: every metric is 0. */
  lemma NothingLoaded()
    ensures Metrics(Undefined, Undefined, Undefined) == Returns([Num(0), Num(0), Num(0), Num(0), Num(0), Num(0)])
  {
  }

  /** The bills screen stores the unpaid status as 'belum_lunas', so bills
      whose status is 'belum_lunas' or 'lunas' are never counted as unpaid. */
  lemma LowerCaseStatusNotUnpaid(items: seq<Value>)
    requires forall i :: 0 <= i < |items| ==>
               items[i].Obj? && Lookup(items[i].props, "status_pembayaran") in {Str("belum_lunas"), Str("lunas")}
    ensures Count(Arr(items), "status_pembayaran", Unpaid) == Returns(Num(0))
  {
    var p := HasValue("status_pembayaran", Unpaid);
    forall i | 0 <= i < |items| ensures p(items[i]) == Returns(false) {
      assert Member(items[i], "status_pembayaran") == Returns(Lookup(items[i].props, "status_pembayaran"));
    }
    SelectTrueNone(items, p);
  }
}
