/**
  The fragment of JavaScript that the console's screens lean on: decoded JSON
  values (plus `undefined`, `NaN` and a browser `File`), truthiness, property
  reads that can throw, `===`, `String(...)`, `Number(...)`, `parseInt`,
  lower-casing, `includes`, `startsWith`, `split(c)[0]`, `Object.values`,
  `flat`, `join`, and the `filter` and `find` array methods.

  Numbers are integers: the screens only ever carry identifiers, semesters and
  amounts.
 */
module Js {

  datatype Option<+T> = None | Some(value: T)

  /** A JavaScript value. An object is its list of own enumerable properties in
      insertion order; a `File` is identified by the handle the browser gave it. */
  datatype Value =
    | Undefined
    | Null
    | Bool(b: bool)
    | Num(n: int)
    | NaN
    | Str(s: string)
    | Arr(items: seq<Value>)
    | Obj(props: seq<(string, Value)>)
    | File(handle: nat)

  /** Evaluating an expression either returns a value or throws a TypeError
      (reading a property of null or undefined, or calling a method the value
      does not have). */
  datatype Eval<+T> = Returns(value: T) | TypeError {
    predicate IsFailure() { TypeError? }
    function PropagateFailure<U>(): Eval<U> requires TypeError? { TypeError }
    function Extract(): T requires Returns? { value }
  }

  predicate Nullish(v: Value) {
    v.Undefined? || v.Null?
  }

  /** `if (v)`: the falsy values are undefined, null, false, 0, NaN and "". */
  predicate Truthy(v: Value) {
    match v
    case Undefined => false
    case Null => false
    case NaN => false
    case Bool(b) => b
    case Num(n) => n != 0
    case Str(s) => s != ""
    case _ => true
  }

  // ---------------------------------------------------------------------------
  // Property reads

  /** No entry of `props` has the key `key`. */
  predicate KeyAbsent(props: seq<(string, Value)>, key: string) {
    forall j :: 0 <= j < |props| ==> props[j].0 != key
  }

  /** The value stored under `key`, or undefined when there is none. When the
      key occurs more than once, the first entry wins. */
  function Lookup(props: seq<(string, Value)>, key: string): (r: Value)
    ensures (forall i :: 0 <= i < |props| ==> props[i].0 != key) ==> r == Undefined
    ensures r != Undefined ==> (key, r) in props
    ensures forall i :: 0 <= i < |props| && props[i].0 == key && KeyAbsent(props[..i], key) ==> r == props[i].1
  {
    if props == [] then Undefined
    else if props[0].0 == key then
      assert forall i :: 0 < i <= |props| ==> props[..i][0] == props[0];
      props[0].1
    else
      assert forall i :: 0 < i <= |props| ==> props[1..][..i - 1] == props[..i][1..];
      Lookup(props[1..], key)
  }

  /** The property `key` of a value that is neither null nor undefined. */
  function OwnProp(v: Value, key: string): Value {
    match v
    case Obj(props) => Lookup(props, key)
    case Arr(items) => if key == "length" then Num(|items|) else Undefined
    case Str(s) => if key == "length" then Num(|s|) else Undefined
    case _ => Undefined
  }

  /** `v.key`: throws exactly when `v` is null or undefined. */
  function Member(v: Value, key: string): (r: Eval<Value>)
    ensures r.TypeError? <==> Nullish(v)
    ensures v.Obj? ==> r == Returns(Lookup(v.props, key))
  {
    if Nullish(v) then TypeError else Returns(OwnProp(v, key))
  }

  /** `v?.key`: never throws, and agrees with `v.key` whenever that does not throw. */
  function OptMember(v: Value, key: string): (r: Value)
    ensures Nullish(v) ==> r == Undefined
    ensures !Nullish(v) ==> Member(v, key) == Returns(r)
  {
    if Nullish(v) then Undefined else OwnProp(v, key)
  }

  /** `a || b`. */
  function Or(a: Value, b: Value): (r: Value)
    ensures Truthy(r) <==> Truthy(a) || Truthy(b)
    ensures Truthy(a) ==> r == a
    ensures !Truthy(a) ==> r == b
  {
    if Truthy(a) then a else b
  }

  /** `a === b`. Two object or array values are never taken to be the same
      reference. */
  function StrictEq(a: Value, b: Value): (r: bool)
    ensures r ==> a == b
    ensures r <==> a == b && !a.NaN? && !a.Arr? && !a.Obj?
  {
    match (a, b)
    case (Undefined, Undefined) => true
    case (Null, Null) => true
    case (Bool(x), Bool(y)) => x == y
    case (Num(x), Num(y)) => x == y
    case (Str(x), Str(y)) => x == y
    case (File(x), File(y)) => x == y
    case _ => false
  }

  // ---------------------------------------------------------------------------
  // Numbers and their decimal text

  predicate IsDigit(c: char) { '0' <= c <= '9' }

  predicate AllDigits(s: string) {
    forall i :: 0 <= i < |s| ==> IsDigit(s[i])
  }

  function DigitChar(d: nat): char
    requires d < 10
  {
    ('0' as int + d) as char
  }

  function DigitValue(c: char): nat
    requires IsDigit(c)
  {
    (c as int - '0' as int) as nat
  }

  /** The number a string of decimal digits denotes. */
  function DecimalValue(ds: string): nat
    requires AllDigits(ds)
  {
    if ds == [] then 0
    else DecimalValue(ds[..|ds| - 1]) * 10 + DigitValue(ds[|ds| - 1])
  }

  function NatToDecimal(n: nat): string {
    if n < 10 then [DigitChar(n)] else NatToDecimal(n / 10) + [DigitChar(n % 10)]
  }

  /** `String(n)` for an integer. */
  function IntToDecimal(n: int): string {
    if n < 0 then "-" + NatToDecimal(-n) else NatToDecimal(n)
  }

  lemma {:induction false} NatToDecimalDigits(n: nat)
    ensures NatToDecimal(n) != [] && AllDigits(NatToDecimal(n))
    ensures DecimalValue(NatToDecimal(n)) == n
  {
    if n >= 10 {
      NatToDecimalDigits(n / 10);
      var s := NatToDecimal(n / 10) + [DigitChar(n % 10)];
      assert s[..|s| - 1] == NatToDecimal(n / 10);
      assert DigitValue(s[|s| - 1]) == n % 10;
      assert DecimalValue(s) == (n / 10) * 10 + n % 10;
    }
  }

  /** The characters `trim`, `Number` and `parseInt` strip: ECMAScript's
      WhiteSpace (tab, vertical tab, form feed, the byte order mark and the
      Unicode space separators) and LineTerminator (line feed, carriage
      return, U+2028 and U+2029). */
  predicate IsSpace(c: char) {
    || c == '\t' || c == '\U{000B}' || c == '\U{000C}' || c == ' ' || c == '\U{00A0}' || c == '\U{FEFF}'
    || c == '\U{1680}' || ('\U{2000}' <= c <= '\U{200A}') || c == '\U{202F}' || c == '\U{205F}' || c == '\U{3000}'
    || c == '\n' || c == '\r' || c == '\U{2028}' || c == '\U{2029}'
  }

  function TrimStart(s: string): (r: string)
    ensures |r| <= |s| && r == s[|s| - |r|..]
    ensures r != [] ==> !IsSpace(r[0])
    ensures forall i :: 0 <= i < |s| - |r| ==> IsSpace(s[i])
  {
    if s != [] && IsSpace(s[0]) then TrimStart(s[1..]) else s
  }

  function TrimEnd(s: string): (r: string)
    ensures |r| <= |s| && r == s[..|r|]
    ensures r != [] ==> !IsSpace(r[|r| - 1])
    ensures forall i :: |r| <= i < |s| ==> IsSpace(s[i])
  {
    if s != [] && IsSpace(s[|s| - 1]) then TrimEnd(s[..|s| - 1]) else s
  }

  function Trim(s: string): string {
    TrimEnd(TrimStart(s))
  }

  /** `Number(s)` for a string: surrounding white space is ignored, the empty
      string is 0, an optionally signed run of decimal digits is its value, and
      anything else is NaN. */
  function StringToNumber(s: string): Value {
    var t := Trim(s);
    if t == "" then Num(0)
    else if |t| > 1 && t[0] == '-' && AllDigits(t[1..]) then Num(-(DecimalValue(t[1..]) as int))
    else if |t| > 1 && t[0] == '+' && AllDigits(t[1..]) then Num(DecimalValue(t[1..]))
    else if AllDigits(t) then Num(DecimalValue(t))
    else NaN
  }

  /** `Number(v)`. */
  function ToNumber(v: Value): Value {
    match v
    case Undefined => NaN
    case Null => Num(0)
    case Bool(b) => Num(if b then 1 else 0)
    case Num(n) => v
    case NaN => NaN
    case Str(s) => StringToNumber(s)
    case Arr(_) => StringToNumber(ToString(v))
    case Obj(_) => NaN
    case File(_) => NaN
  }

  /** The longest prefix of decimal digits. */
  function LeadingDigits(s: string): (r: string)
    ensures r <= s && AllDigits(r)
    ensures |r| < |s| ==> !IsDigit(s[|r|])
  {
    if s != [] && IsDigit(s[0]) then [s[0]] + LeadingDigits(s[1..]) else []
  }

  /** `parseInt(v)` without a radix: the text of `v`, past leading white space and
      an optional sign, is read as far as it has decimal digits; none is NaN. */
  function ParseInt(v: Value): Value {
    var t := TrimStart(ToString(v));
    if t != [] && t[0] == '-' then Negate(ParseDigits(t[1..]))
    else if t != [] && t[0] == '+' then ParseDigits(t[1..])
    else ParseDigits(t)
  }

  /** The value of the leading decimal digits of `s`, or NaN when there are none. */
  function ParseDigits(s: string): Value {
    var ds := LeadingDigits(s);
    if ds == [] then NaN else Num(DecimalValue(ds))
  }

  /** Unary minus on a number. */
  function Negate(v: Value): Value {
    if v.Num? then Num(-v.n) else v
  }

  // ---------------------------------------------------------------------------
  // Strings

  /** `String(v)`, also what a template literal and `+` with a string produce. */
  function ToString(v: Value): string
    decreases v
  {
    match v
    case Undefined => "undefined"
    case Null => "null"
    case Bool(b) => if b then "true" else "false"
    case Num(n) => IntToDecimal(n)
    case NaN => "NaN"
    case Str(s) => s
    case Arr(items) => Join(items, ",")
    case Obj(_) => "[object Object]"
    case File(_) => "[object File]"
  }

  /** `xs.join(sep)`: null and undefined elements contribute the empty string. */
  function Join(xs: seq<Value>, sep: string): string
    decreases xs
  {
    if xs == [] then ""
    else
      var head := if Nullish(xs[0]) then "" else ToString(xs[0]);
      if |xs| == 1 then head else head + sep + Join(xs[1..], sep)
  }

  /** `v.toString()`: like `String(v)` but throws on null and undefined. */
  function MethodToString(v: Value): (r: Eval<string>)
    ensures r.TypeError? <==> Nullish(v)
    ensures r.Returns? ==> r.value == ToString(v)
  {
    if Nullish(v) then TypeError else Returns(ToString(v))
  }

  function LowerChar(c: char): char {
    if 'A' <= c <= 'Z' then (c as int + 32) as char else c
  }

  /** Lower-casing, on the ASCII letters. */
  function Lower(s: string): (r: string)
    ensures |r| == |s|
  {
    seq(|s|, i requires 0 <= i < |s| => LowerChar(s[i]))
  }

  /** `v.toLowerCase()`: only strings have the method. */
  function ToLowerCase(v: Value): (r: Eval<string>)
    ensures r.Returns? <==> v.Str?
    ensures v.Str? ==> r.value == Lower(v.s)
  {
    if v.Str? then Returns(Lower(v.s)) else TypeError
  }

  /** `s.includes(t)`. */
  function Includes(s: string, t: string): bool
    decreases |s|
  {
    t <= s || (s != [] && Includes(s[1..], t))
  }

  /** `text.toLowerCase().includes(query.toLowerCase())`. */
  function SearchHit(text: Value, query: string): (r: Eval<bool>)
    ensures r.Returns? <==> text.Str?
    ensures text.Str? ==> (r.value <==> exists i :: OccursAt(Lower(text.s), Lower(query), i))
  {
    var t :- ToLowerCase(text);
    IncludesAt(t, Lower(query));
    Returns(Includes(t, Lower(query)))
  }

  /** Search is case-insensitive: lower-casing the query first changes nothing. */
  lemma SearchHitIgnoresCase(text: Value, query: string)
    ensures SearchHit(text, query) == SearchHit(text, Lower(query))
  {
    LowerIdempotent(query);
  }

  /** `s.split(c)[0]`: the part of `s` before the first `c`, or all of `s`. */
  function BeforeFirst(s: string, c: char): (r: string)
    ensures r <= s
    ensures c !in r
    ensures |r| < |s| ==> s[|r|] == c
  {
    if s == [] || s[0] == c then [] else [s[0]] + BeforeFirst(s[1..], c)
  }

  /** `v.split(c)[0]`: only strings have the method. */
  function SplitFirst(v: Value, c: char): (r: Eval<string>)
    ensures r.Returns? <==> v.Str?
    ensures v.Str? ==> r.value == BeforeFirst(v.s, c)
  {
    if v.Str? then Returns(BeforeFirst(v.s, c)) else TypeError
  }

  /** `v.startsWith(prefix)`: only strings have the method. */
  function StartsWith(v: Value, prefix: string): (r: Eval<bool>)
    ensures r.Returns? <==> v.Str?
    ensures v.Str? ==> (r.value <==> prefix <= v.s)
  {
    if v.Str? then Returns(prefix <= v.s) else TypeError
  }

  // ---------------------------------------------------------------------------
  // Object.values, flat, join

  function PropValues(props: seq<(string, Value)>): (r: seq<Value>)
    ensures |r| == |props|
    ensures forall i :: 0 <= i < |props| ==> r[i] == props[i].1
  {
    if props == [] then [] else [props[0].1] + PropValues(props[1..])
  }

  /** `Object.values(v)` for a value that is neither null nor undefined: an
      object's property values, an array's elements, a string's characters. */
  function ObjectValues(v: Value): seq<Value> {
    match v
    case Obj(props) => PropValues(props)
    case Arr(items) => items
    case Str(s) => seq(|s|, i requires 0 <= i < |s| => Str([s[i]]))
    case _ => []
  }

  /** `xs.flat()`: array elements are spliced in, one level deep. */
  function Flat(xs: seq<Value>): seq<Value> {
    if xs == [] then []
    else (if xs[0].Arr? then xs[0].items else [xs[0]]) + Flat(xs[1..])
  }

  // ---------------------------------------------------------------------------
  // Array.prototype.filter and find, with callbacks that may throw

  /** `xs.filter(p)`: the callback runs on each element in order, and the first
      throw ends the whole call. */
  function FilterEval<T>(xs: seq<T>, p: T -> Eval<bool>): Eval<seq<T>> {
    if xs == [] then Returns([])
    else
      var keep :- p(xs[0]);
      var rest :- FilterEval(xs[1..], p);
      Returns(if keep then [xs[0]] + rest else rest)
  }

  /** `x[key] === target`, which throws when `x` is null or undefined. */
  function KeyIs(x: Value, key: string, target: Value): Eval<bool> {
    var k :- Member(x, key);
    Returns(StrictEq(k, target))
  }

  /** `items.find(x => x[key] === target)`: the first element whose `key` is
      `target`, or undefined when none is; a null or undefined element met before
      the match throws. */
  function FindIn(items: seq<Value>, key: string, target: Value): (r: Eval<Value>)
    ensures r.Returns? && r.value != Undefined ==>
      exists i :: 0 <= i < |items| && items[i] == r.value && !Nullish(items[i])
                  && StrictEq(OwnProp(items[i], key), target)
                  && forall j :: 0 <= j < i ==> !StrictEq(OwnProp(items[j], key), target)
    ensures r == Returns(Undefined) ==>
      forall i :: 0 <= i < |items| ==> !Nullish(items[i]) && !StrictEq(OwnProp(items[i], key), target)
    ensures r.TypeError? <==> exists i :: 0 <= i < |items| && Nullish(items[i])
                                          && forall j :: 0 <= j < i ==> !StrictEq(OwnProp(items[j], key), target)
  {
    if items == [] then Returns(Undefined)
    else
      var hit :- KeyIs(items[0], key, target);
      var rest := FindIn(items[1..], key, target);
      if hit then Returns(items[0])
      else
        assert forall i :: 1 <= i < |items| ==> items[i] == items[1..][i - 1];
        rest
  }

  /** `list?.find(x => x[key] === target)`: undefined when the list is not
      loaded; throws when it is loaded but is not an array. */
  function FindBy(list: Value, key: string, target: Value): (r: Eval<Value>)
    ensures Nullish(list) ==> r == Returns(Undefined)
    ensures list.Arr? ==> r == FindIn(list.items, key, target)
    ensures !Nullish(list) && !list.Arr? ==> r.TypeError?
  {
    match list
    case Undefined => Returns(Undefined)
    case Null => Returns(Undefined)
    case Arr(items) => FindIn(items, key, target)
    case _ => TypeError
  }
  /** The elements of `xs` on which `p` returns true, in their original order:
      the exception-free reference for `FilterEval`. */
  function SelectTrue<T>(xs: seq<T>, p: T -> Eval<bool>): seq<T> {
    if xs == [] then [] else (if p(xs[0]) == Returns(true) then [xs[0]] else []) + SelectTrue(xs[1..], p)
  }

  // ---------------------------------------------------------------------------
  // Facts

  /** `Number(String(n))` is `n`. */
  lemma DecimalRoundTrip(n: int)
    ensures StringToNumber(IntToDecimal(n)) == Num(n)
    ensures ToNumber(Str(IntToDecimal(n))) == Num(n)
  {
    var m: nat := if n < 0 then -n else n;
    NatToDecimalDigits(m);
    var d := NatToDecimal(m);
    NoSpaceTrims(IntToDecimal(n));
    if n < 0 {
      assert IntToDecimal(n)[1..] == d;
    } else {
      assert IsDigit(d[0]);
    }
  }

  /** `Number` ignores white space around an integer's decimal text, the
      Unicode spaces included: a field typed as " 5\u00A0" converts to 5. */
  lemma PaddedDecimalRoundTrip(n: int, pre: string, post: string)
    requires forall i :: 0 <= i < |pre| ==> IsSpace(pre[i])
    requires forall i :: 0 <= i < |post| ==> IsSpace(post[i])
    ensures StringToNumber(pre + IntToDecimal(n) + post) == Num(n)
    ensures ToNumber(Str(pre + IntToDecimal(n) + post)) == Num(n)
  {
    var d := IntToDecimal(n);
    DecimalHasNoSpace(n);
    assert pre + d + post == pre + (d + post);
    assert (d + post)[0] == d[0];
    TrimStartPadded(pre, d + post);
    TrimEndPadded(d, post);
    NoSpaceTrims(d);
    SameTrimSameNumber(pre + d + post, d);
    DecimalRoundTrip(n);
  }

  /** An integer's decimal text is non-empty and has no white space. */
  lemma DecimalHasNoSpace(n: int)
    ensures IntToDecimal(n) != []
    ensures forall i :: 0 <= i < |IntToDecimal(n)| ==> !IsSpace(IntToDecimal(n)[i])
  {
    var m: nat := if n < 0 then -n else n;
    NatToDecimalDigits(m);
    var d := IntToDecimal(n);
    forall i | 0 <= i < |d|
      ensures !IsSpace(d[i])
    {
      if n < 0 && i > 0 {
        assert d[i] == NatToDecimal(m)[i - 1];
      }
    }
  }

  /** `Number` sees a string only through its trim. */
  lemma SameTrimSameNumber(a: string, b: string)
    requires Trim(a) == Trim(b)
    ensures StringToNumber(a) == StringToNumber(b)
  {
  }

  /** Leading white space before a text that does not start with it is trimmed
      exactly. */
  lemma {:induction false} TrimStartPadded(pre: string, rest: string)
    requires forall i :: 0 <= i < |pre| ==> IsSpace(pre[i])
    requires rest == [] || !IsSpace(rest[0])
    ensures TrimStart(pre + rest) == rest
  {
    if pre != [] {
      assert (pre + rest)[0] == pre[0];
      assert (pre + rest)[1..] == pre[1..] + rest;
      TrimStartPadded(pre[1..], rest);
    }
  }

  /** Trailing white space after a text that does not end with it is trimmed
      exactly. */
  lemma {:induction false} TrimEndPadded(rest: string, post: string)
    requires forall i :: 0 <= i < |post| ==> IsSpace(post[i])
    requires rest == [] || !IsSpace(rest[|rest| - 1])
    ensures TrimEnd(rest + post) == rest
  {
    if post != [] {
      var s := rest + post;
      assert s[|s| - 1] == post[|post| - 1];
      assert s[..|s| - 1] == rest + post[..|post| - 1];
      TrimEndPadded(rest, post[..|post| - 1]);
    } else {
      assert rest + post == rest;
    }
  }

  /** `parseInt` reads back the decimal text of an integer, whether it is given
      the number or its text. */
  lemma ParseIntRoundTrip(n: int)
    ensures ParseInt(Num(n)) == Num(n)
    ensures ParseInt(Str(IntToDecimal(n))) == Num(n)
  {
    var m: nat := if n < 0 then -n else n;
    NatToDecimalDigits(m);
    var d := NatToDecimal(m);
    NoSpaceTrims(IntToDecimal(n));
    AllDigitsLead(d);
    if n < 0 {
      assert IntToDecimal(n)[1..] == d;
    }
  }

  /** Distinct integers have distinct decimal texts. */
  lemma DecimalInjective(a: int, b: int)
    ensures IntToDecimal(a) == IntToDecimal(b) <==> a == b
  {
    if IntToDecimal(a) == IntToDecimal(b) {
      DecimalRoundTrip(a);
      DecimalRoundTrip(b);
    }
  }

  lemma {:induction false} AllDigitsLead(d: string)
    requires AllDigits(d)
    ensures LeadingDigits(d) == d
  {
    if d != [] {
      AllDigitsLead(d[1..]);
    }
  }

  lemma NoSpaceTrims(s: string)
    requires forall i :: 0 <= i < |s| ==> !IsSpace(s[i])
    ensures TrimStart(s) == s && Trim(s) == s
  {
  }

  /** `t` occurs in `s` starting at position `i`. */
  predicate OccursAt(s: string, t: string, i: int) {
    0 <= i <= |s| - |t| && s[i..i + |t|] == t
  }

  /** An occurrence in the tail is an occurrence one place further on. */
  lemma OccursShift(s: string, t: string, i: int)
    requires s != [] && 0 <= i
    ensures OccursAt(s[1..], t, i) <==> OccursAt(s, t, i + 1)
  {
    if i <= |s| - 1 - |t| {
      assert s[1..][i..i + |t|] == s[i + 1..i + 1 + |t|];
    }
  }

  /** `s.includes(t)` holds exactly when `t` occurs in `s` at some position. */
  lemma {:induction false} IncludesAt(s: string, t: string)
    ensures Includes(s, t) <==> exists i :: OccursAt(s, t, i)
    decreases |s|
  {
    if t <= s {
      assert OccursAt(s, t, 0);
    } else if s != [] {
      IncludesAt(s[1..], t);
      if Includes(s[1..], t) {
        var i :| OccursAt(s[1..], t, i);
        OccursShift(s, t, i);
      }
      if exists i :: OccursAt(s, t, i) {
        var i :| OccursAt(s, t, i);
        assert i != 0;
        OccursShift(s, t, i - 1);
      }
    }
  }

  /** Lower-casing twice is lower-casing once, so a test on lower-cased text does
      not see the case of either side. */
  lemma LowerIdempotent(s: string)
    ensures Lower(Lower(s)) == Lower(s)
  {
    assert forall i :: 0 <= i < |s| ==> Lower(Lower(s))[i] == Lower(s)[i];
  }

  /** `filter` throws exactly when the callback throws on some element. */
  lemma {:induction false} FilterEvalThrows<T>(xs: seq<T>, p: T -> Eval<bool>)
    ensures FilterEval(xs, p).TypeError? <==> exists i :: 0 <= i < |xs| && p(xs[i]).TypeError?
  {
    if xs != [] {
      FilterEvalThrows(xs[1..], p);
      if exists i :: 0 <= i < |xs[1..]| && p(xs[1..][i]).TypeError? {
        var i :| 0 <= i < |xs[1..]| && p(xs[1..][i]).TypeError?;
        assert p(xs[i + 1]).TypeError?;
      }
      if exists i :: 0 <= i < |xs| && p(xs[i]).TypeError? {
        var i :| 0 <= i < |xs| && p(xs[i]).TypeError?;
        if i > 0 { assert p(xs[1..][i - 1]).TypeError?; }
      }
    }
  }

  /** When the callback never throws, `filter` is the order-preserving selection. */
  lemma {:induction false} FilterEvalSelects<T>(xs: seq<T>, p: T -> Eval<bool>)
    requires forall i :: 0 <= i < |xs| ==> p(xs[i]).Returns?
    ensures FilterEval(xs, p) == Returns(SelectTrue(xs, p))
  {
    if xs != [] {
      assert forall i :: 0 <= i < |xs[1..]| ==> p(xs[1..][i]) == p(xs[i + 1]);
      FilterEvalSelects(xs[1..], p);
      assert p(xs[0]).Returns?;
      var rest := SelectTrue(xs[1..], p);
      assert [] + rest == rest;
    }
  }

  /** A second callback that agrees with the first wherever the first returns
      gives the same `filter` result, whenever the first one's `filter`
      returns. */
  lemma {:induction false} FilterEvalAgree<T>(xs: seq<T>, p: T -> Eval<bool>, q: T -> Eval<bool>)
    requires FilterEval(xs, p).Returns?
    requires forall i :: 0 <= i < |xs| && p(xs[i]).Returns? ==> q(xs[i]) == p(xs[i])
    ensures FilterEval(xs, q) == FilterEval(xs, p)
  {
    if xs != [] {
      assert p(xs[0]).Returns?;
      assert forall i :: 0 <= i < |xs[1..]| ==> xs[1..][i] == xs[i + 1];
      FilterEvalAgree(xs[1..], p, q);
    }
  }

  /** An element is selected exactly when it is in the input and the callback
      accepts it. */
  lemma {:induction false} SelectTrueMembers<T>(xs: seq<T>, p: T -> Eval<bool>, x: T)
    ensures x in SelectTrue(xs, p) <==> x in xs && p(x) == Returns(true)
  {
    if xs != [] {
      SelectTrueMembers(xs[1..], p, x);
      assert xs == [xs[0]] + xs[1..];
    }
  }

  /** Selection keeps the input's order: it distributes over concatenation. */
  lemma {:induction false} SelectTrueAppend<T>(a: seq<T>, b: seq<T>, p: T -> Eval<bool>)
    ensures SelectTrue(a + b, p) == SelectTrue(a, p) + SelectTrue(b, p)
  {
    if a != [] {
      SelectTrueAppend(a[1..], b, p);
      assert (a + b)[1..] == a[1..] + b;
    } else {
      assert a + b == b;
    }
  }

  /** A callback that accepts everything selects the whole input, in order. */
  lemma {:induction false} SelectTrueAll<T>(xs: seq<T>, p: T -> Eval<bool>)
    requires forall i :: 0 <= i < |xs| ==> p(xs[i]) == Returns(true)
    ensures SelectTrue(xs, p) == xs
  {
    if xs != [] {
      assert forall i :: 0 <= i < |xs[1..]| ==> p(xs[1..][i]) == p(xs[i + 1]);
      SelectTrueAll(xs[1..], p);
    }
  }

  /** Nothing is selected when `p` accepts no element. */
  lemma {:induction false} SelectTrueNone<T>(xs: seq<T>, p: T -> Eval<bool>)
    requires forall i :: 0 <= i < |xs| ==> p(xs[i]) != Returns(true)
    ensures SelectTrue(xs, p) == []
  {
    if xs != [] {
      SelectTrueNone(xs[1..], p);
    }
  }

  /** Selection never adds elements. */
  lemma {:induction false} SelectTrueShorter<T>(xs: seq<T>, p: T -> Eval<bool>)
    ensures |SelectTrue(xs, p)| <= |xs|
  {
    if xs != [] {
      SelectTrueShorter(xs[1..], p);
    }
  }
}
