/** The slice of JavaScript's value semantics that the ingestion and form
    code relies on: parsed JSON values, truthiness, `String(v)`,
    `Array.prototype.join`, `String.prototype.trim` and `.length`. */
module JsValues {

  datatype Option<+T> = None | Some(value: T)

  datatype Result<+T, +E> = Success(value: T) | Failure(error: E)

  /** A value as `JSON.parse` yields it, plus `undefined`, which is what a
      missing property reads as. Numbers are integers only. Objects are
      maps, so their key order is not modelled. */
  datatype Value =
    | Undefined
    | Null
    | Bool(b: bool)
    | Number(n: int)
    | Str(s: string)
    | Arr(items: seq<Value>)
    | Obj(fields: map<string, Value>)

  /** JavaScript truthiness: `undefined`, `null`, `false`, `0` and `""` are
      falsy; every array and every object is truthy. */
  predicate Truthy(v: Value) {
    match v
    case Undefined => false
    case Null => false
    case Bool(b) => b
    case Number(n) => n != 0
    case Str(s) => s != ""
    case Arr(_) => true
    case Obj(_) => true
  }

  /** `m[key]` on a plain object: a missing key reads as `undefined`. */
  function Lookup(m: map<string, Value>, key: string): (r: Value)
    ensures key !in m ==> r == Undefined
    ensures key in m ==> r == m[key]
  {
    if key in m then m[key] else Undefined
  }

  /** `v.key` for a key that is not a built-in property of strings, arrays
      or numbers. Reading a property of `null` or `undefined` throws a
      TypeError, which is `None` here. */
  function Member(v: Value, key: string): (r: Option<Value>)
    ensures r.None? <==> v.Null? || v.Undefined?
    ensures r.Some? && !v.Obj? ==> r.value == Undefined
    ensures v.Obj? ==> r == Some(Lookup(v.fields, key))
  {
    match v
    case Null => None
    case Undefined => None
    case Obj(m) => Some(Lookup(m, key))
    case _ => Some(Undefined)
  }

  /** `v?.key`: optional chaining yields `undefined` instead of throwing. */
  function OptionalMember(v: Value, key: string): (r: Value)
    ensures v.Null? || v.Undefined? ==> r == Undefined
    ensures v.Obj? ==> r == Lookup(v.fields, key)
  {
    match Member(v, key)
    case None => Undefined
    case Some(x) => x
  }

  // ---------------------------------------------------------------------
  // Decimal text of integers: `String(n)` and `n.toString()`

  predicate IsDigit(c: char) {
    '0' <= c <= '9'
  }

  predicate AllDigits(s: string) {
    forall i | 0 <= i < |s| :: IsDigit(s[i])
  }

  function DigitChar(d: nat): (c: char)
    requires d < 10
    ensures IsDigit(c) && c as int - '0' as int == d
  {
    (d + '0' as int) as char
  }

  /** Decimal digits of a natural number, without leading zeros. */
  function NaturalText(n: nat): string
    decreases n
  {
    if n < 10 then [DigitChar(n)] else NaturalText(n / 10) + [DigitChar(n % 10)]
  }

  /** The text is a non-empty run of digits that starts with '0' only
      when it is "0". */
  lemma {:induction false} NaturalTextDigits(n: nat)
    ensures var r := NaturalText(n);
      && |r| >= 1 && AllDigits(r)
      && (|r| > 1 ==> r[0] != '0')
    decreases n
  {
    if n >= 10 {
      NaturalTextDigits(n / 10);
      var head := NaturalText(n / 10);
      var r := NaturalText(n);
      assert r == head + [DigitChar(n % 10)];
      assert r[0] == head[0];
      if n / 10 < 10 {
        assert head == [DigitChar(n / 10)];
      } else {
        NaturalTextDigits(n / 10 / 10);
        assert |head| > 1;
      }
    }
  }

  /** `String(n)` for an integer `n` (for |n| below 10^21, where JavaScript
      switches to exponent notation). */
  function NumberText(n: int): string
    decreases if n < 0 then 1 else 0
  {
    if n < 0 then "-" + NumberText(-n) else NaturalText(n)
  }

  /** A minus sign exactly for the negative numbers, then digits. */
  lemma NumberTextShape(n: int)
    ensures var r := NumberText(n);
      && |r| >= 1
      && (n < 0 <==> r[0] == '-')
      && (n >= 0 ==> AllDigits(r))
      && (n < 0 ==> AllDigits(r[1..]))
  {
    if n < 0 {
      NaturalTextDigits(-n);
      assert NumberText(n)[1..] == NaturalText(-n);
    } else {
      NaturalTextDigits(n);
    }
  }

  /** The number a string of decimal digits denotes. */
  function DigitsValue(s: string): nat {
    if |s| == 0 then 0
    else DigitsValue(s[..|s| - 1]) * 10 + Digit(s[|s| - 1])
  }

  /** The value of a digit character (0 for any other character). */
  function Digit(c: char): nat {
    if IsDigit(c) then c as int - '0' as int else 0
  }

  lemma {:induction false} NaturalTextRoundTrip(n: nat)
    ensures DigitsValue(NaturalText(n)) == n
    decreases n
  {
    if n >= 10 {
      var t := NaturalText(n);
      var d := DigitChar(n % 10);
      assert t == NaturalText(n / 10) + [d];
      assert t[..|t| - 1] == NaturalText(n / 10);
      NaturalTextRoundTrip(n / 10);
    }
  }

  lemma NaturalTextInjective(m: nat, n: nat)
    requires NaturalText(m) == NaturalText(n)
    ensures m == n
  {
    NaturalTextRoundTrip(m);
    NaturalTextRoundTrip(n);
  }

  /** Two integers with the same decimal text are equal, so an id string
      matches the `id.toString()` of at most one id. */
  lemma NumberTextInjective(a: int, b: int)
    requires NumberText(a) == NumberText(b)
    ensures a == b
  {
    NumberTextShape(a);
    NumberTextShape(b);
    if a < 0 {
      assert NumberText(a) == "-" + NaturalText(-a);
      assert NumberText(b) == "-" + NaturalText(-b);
      assert NaturalText(-a) == NumberText(a)[1..] == NaturalText(-b);
      NaturalTextInjective(-a, -b);
    } else {
      NaturalTextInjective(a, b);
    }
  }

  // ---------------------------------------------------------------------
  // String(v) and Array.prototype.join

  /** `parts.join(sep)` for strings. */
  function JoinStrings(parts: seq<string>, sep: string): string {
    if |parts| == 0 then ""
    else if |parts| == 1 then parts[0]
    else parts[0] + sep + JoinStrings(parts[1..], sep)
  }

  /** Whether `String(v)` returns rather than throws. A parsed object
      with its own `toString` key holds a string, number, boolean, array,
      object or `null` there, none of which can be called, and the
      fallback `valueOf` returns the object itself, so the conversion
      throws a TypeError; an array throws when one of its elements does. */
  predicate Stringable(v: Value) {
    match v
    case Obj(m) => "toString" !in m
    case Arr(items) => forall i | 0 <= i < |items| :: Stringable(items[i])
    case _ => true
  }

  /** `String(v)`, `None` where it throws. An array becomes its elements
      joined with ",", an object "[object Object]". */
  function ToString(v: Value): (r: Option<string>)
    ensures r.Some? <==> Stringable(v)
    ensures v.Undefined? ==> r == Some("undefined")
    ensures v.Null? ==> r == Some("null")
    ensures v.Bool? ==> r == Some(if v.b then "true" else "false")
    ensures v.Number? ==> r == Some(NumberText(v.n))
    ensures v.Str? ==> r == Some(v.s)
    ensures v.Obj? ==> r == if "toString" in v.fields then None else Some("[object Object]")
    ensures v.Arr? && r.Some? ==> r.value == JoinStrings(ElementStrings(v.items).value, ",")
  {
    match v
    case Undefined => Some("undefined")
    case Null => Some("null")
    case Bool(b) => Some(if b then "true" else "false")
    case Number(n) => Some(NumberText(n))
    case Str(s) => Some(s)
    case Arr(items) =>
      (match ElementStrings(items)
       case None => None
       case Some(parts) => Some(JoinStrings(parts, ",")))
    case Obj(m) => if "toString" in m then None else Some("[object Object]")
  }

  /** What `join` writes for each element: nothing for `null` and
      `undefined`, `String(e)` for every other element; `None` when one of
      those conversions throws. */
  function ElementStrings(items: seq<Value>): (r: Option<seq<string>>)
    ensures r.Some? <==> forall i | 0 <= i < |items| :: Stringable(items[i])
    ensures r.Some? ==> |r.value| == |items|
    ensures r.Some? ==> forall i | 0 <= i < |items| :: items[i].Str? ==> r.value[i] == items[i].s
    ensures r.Some? ==> forall i | 0 <= i < |items| :: items[i].Null? || items[i].Undefined? ==> r.value[i] == ""
    ensures r.Some? ==> forall i | 0 <= i < |items| ::
      !(items[i].Null? || items[i].Undefined?) ==> Some(r.value[i]) == ToString(items[i])
  {
    if |items| == 0 then Some([])
    else
      var first := if items[0].Null? || items[0].Undefined? then Some("") else ToString(items[0]);
      var rest := ElementStrings(items[1..]);
      assert forall i | 1 <= i < |items| :: items[i] == items[1..][i - 1];
      if first.Some? && rest.Some? then Some([first.value] + rest.value) else None
  }

  // ---------------------------------------------------------------------
  // Splitting on a separator: the inverse of join

  function IndexOf(s: string, c: char): (r: Option<nat>)
    ensures r.Some? ==> r.value < |s| && s[r.value] == c
    ensures r.Some? ==> forall k | 0 <= k < r.value :: s[k] != c
    ensures r.None? ==> forall k | 0 <= k < |s| :: s[k] != c
  {
    if |s| == 0 then None
    else if s[0] == c then Some(0)
    else match IndexOf(s[1..], c)
      case None => None
      case Some(k) => Some(k + 1)
  }

  function LastIndexOf(s: string, c: char): (r: Option<nat>)
    ensures r.Some? ==> r.value < |s| && s[r.value] == c
    ensures r.Some? ==> forall k | r.value < k < |s| :: s[k] != c
    ensures r.None? ==> forall k | 0 <= k < |s| :: s[k] != c
  {
    if |s| == 0 then None
    else if s[|s| - 1] == c then Some(|s| - 1)
    else LastIndexOf(s[..|s| - 1], c)
  }

  /** `s.split(sep)` for a one-character separator. */
  function Split(s: string, sep: char): (r: seq<string>)
    ensures |r| >= 1
    decreases |s|
  {
    match IndexOf(s, sep)
    case None => [s]
    case Some(i) => [s[..i]] + Split(s[i + 1..], sep)
  }

  /** Joining pieces that do not contain the separator and splitting the
      result again gives the pieces back. */
  lemma {:induction false} SplitJoin(parts: seq<string>, sep: char)
    requires |parts| >= 1
    requires forall i, k | 0 <= i < |parts| && 0 <= k < |parts[i]| :: parts[i][k] != sep
    ensures Split(JoinStrings(parts, [sep]), sep) == parts
    decreases |parts|
  {
    if |parts| == 1 {
      assert IndexOf(parts[0], sep).None?;
    } else {
      var rest := JoinStrings(parts[1..], [sep]);
      var s := parts[0] + [sep] + rest;
      assert JoinStrings(parts, [sep]) == s;
      assert s[|parts[0]|] == sep;
      assert forall k | 0 <= k < |parts[0]| :: s[k] == parts[0][k];
      assert IndexOf(s, sep) == Some(|parts[0]|);
      assert s[..|parts[0]|] == parts[0];
      assert s[|parts[0]| + 1..] == rest;
      SplitJoin(parts[1..], sep);
      assert parts == [parts[0]] + parts[1..];
    }
  }

  // ---------------------------------------------------------------------
  // String.prototype.trim and .length

  /** The characters `trim` removes: ECMAScript WhiteSpace and
      LineTerminator. */
  predicate IsWhiteSpace(c: char) {
    || c == '\t' || c == '\n' || c == '\U{000B}' || c == '\U{000C}' || c == '\r'
    || c == ' ' || c == '\U{00A0}' || c == '\U{1680}'
    || ('\U{2000}' <= c <= '\U{200A}')
    || c == '\U{2028}' || c == '\U{2029}' || c == '\U{202F}' || c == '\U{205F}'
    || c == '\U{3000}' || c == '\U{FEFF}'
  }

  /** A string that `trim` reduces to "". */
  predicate IsBlank(s: string) {
    forall i | 0 <= i < |s| :: IsWhiteSpace(s[i])
  }

  function TrimStart(s: string): (r: string)
    ensures |r| <= |s| && r == s[|s| - |r|..]
    ensures IsBlank(s[..|s| - |r|])
    ensures r != [] ==> !IsWhiteSpace(r[0])
  {
    if |s| > 0 && IsWhiteSpace(s[0]) then TrimStart(s[1..]) else s
  }

  function TrimEnd(s: string): (r: string)
    ensures |r| <= |s| && r == s[..|r|]
    ensures IsBlank(s[|r|..])
    ensures r != [] ==> !IsWhiteSpace(r[|r| - 1])
  {
    if |s| > 0 && IsWhiteSpace(s[|s| - 1]) then TrimEnd(s[..|s| - 1]) else s
  }

  /** `s.trim()`. */
  function Trim(s: string): string {
    TrimEnd(TrimStart(s))
  }

  /** `s.trim()` is empty exactly when every character is white space. */
  lemma TrimEmptyIffBlank(s: string)
    ensures Trim(s) == "" <==> IsBlank(s)
  {
    var t := TrimStart(s);
    if Trim(s) == "" {
      assert IsBlank(t[|TrimEnd(t)|..]);
      assert t[|TrimEnd(t)|..] == t;
      assert t == [];
      assert s[..|s| - |t|] == s;
    } else {
      var r := Trim(s);
      assert !IsWhiteSpace(r[0]);
      assert r[0] == t[0] == s[|s| - |t|];
    }
  }

  /** `s.length`: JavaScript counts UTF-16 code units, so a character
      outside the Basic Multilingual Plane counts twice. */
  function Utf16Length(s: string): (r: nat)
    ensures |s| <= r <= 2 * |s|
  {
    if |s| == 0 then 0
    else (if s[0] as int > 0xFFFF then 2 else 1) + Utf16Length(s[1..])
  }

  /** One character counts two code units above U+FFFF and one otherwise. */
  lemma Utf16LengthOfChar(c: char)
    ensures Utf16Length([c]) == if c as int > 0xFFFF then 2 else 1
  {
    assert [c][1..] == [];
  }

  /** `length` adds up over concatenation, so it is the number of
      characters plus the number of characters above U+FFFF. */
  lemma {:induction false} Utf16LengthConcat(a: string, b: string)
    ensures Utf16Length(a + b) == Utf16Length(a) + Utf16Length(b)
    decreases |a|
  {
    if |a| > 0 {
      assert (a + b)[0] == a[0];
      assert (a + b)[1..] == a[1..] + b;
      Utf16LengthConcat(a[1..], b);
    } else {
      assert a + b == b;
    }
  }

  /** On text made of Basic Multilingual Plane characters only, `.length`
      is the number of characters. */
  lemma {:induction false} Utf16LengthOfBmp(s: string)
    requires forall i | 0 <= i < |s| :: s[i] as int <= 0xFFFF
    ensures Utf16Length(s) == |s|
  {
    if |s| > 0 {
      Utf16LengthOfBmp(s[1..]);
    }
  }
}
