/** Turning the language model's reply into a `CreateDto`: the bracket
    extraction, `JSON.parse`, the choice of element 0, and the field
    normaliser (`transformData` with its `safeToString`). */
module Normalize {
  import opened JsValues
  import opened ApiTypes

  /** `JSON.parse` (`None` when it throws a SyntaxError) and
      `JSON.stringify(v, null, 2)`: both are outside this model and are
      passed in. */
  datatype JsonCodec = JsonCodec(parse: string -> Option<Value>, stringify: Value -> string)

  // The labelled keys the analysis prompt asks the model to emit.
  const UserKey: string := "Пользователь"
  const NameKey: string := "Имя"
  const WhenKey: string := "When (контекст/триггер)"
  const WantKey: string := "Want (желаемый результат)"
  const HowKey: string := "How (критерии успеха)"
  const SoThatKey: string := "So that (глобальная цель)"
  const FeatureRequestsKey: string := "Feature requests"

  /** The sub-keys probed, in order, when a field value is an object. */
  const ProbeKeys: seq<string> := ["text", "content", "value"]

  /** The position in `keys` of the first key whose value in `m` is truthy. */
  function FirstTruthyKey(m: map<string, Value>, keys: seq<string>): (r: Option<nat>)
    ensures r.Some? ==> r.value < |keys| && Truthy(Lookup(m, keys[r.value]))
    ensures r.Some? ==> forall j | 0 <= j < r.value :: !Truthy(Lookup(m, keys[j]))
    ensures r.None? <==> forall j | 0 <= j < |keys| :: !Truthy(Lookup(m, keys[j]))
  {
    if |keys| == 0 then None
    else if Truthy(Lookup(m, keys[0])) then Some(0)
    else
      var rest := FirstTruthyKey(m, keys[1..]);
      assert forall j | 1 <= j < |keys| :: keys[j] == keys[1..][j - 1];
      if rest.None? then None else Some(rest.value + 1)
  }

  /** `safeToString`: a string is kept, an array is joined with "\n", an
      object gives its first truthy `text`, `content` or `value` (as
      `String(...)`) or else its JSON text, and anything else gives
      `String(v || "")`. `None` where `join` or `String` throws. */
  function SafeToString(v: Value, stringify: Value -> string): (r: Option<string>)
    ensures v.Str? ==> r == Some(v.s)
    ensures !Truthy(v) ==> r == Some("")
    ensures v.Arr? ==> (r.Some? <==> Stringable(v))
    ensures v.Arr? && r.Some? ==> r.value == JoinStrings(ElementStrings(v.items).value, "\n")
    ensures v.Obj? ==>
      r == match FirstTruthyKey(v.fields, ProbeKeys)
           case Some(i) => ToString(Lookup(v.fields, ProbeKeys[i]))
           case None => Some(stringify(v))
    ensures (v.Bool? || v.Number?) && Truthy(v) ==> r == ToString(v)
    ensures !v.Arr? && !v.Obj? ==> r.Some?
  {
    match v
    case Str(s) => Some(s)
    case Arr(items) =>
      (match ElementStrings(items)
       case None => None
       case Some(parts) => Some(JoinStrings(parts, "\n")))
    case Obj(m) =>
      (match FirstTruthyKey(m, ProbeKeys)
       case Some(i) => ToString(Lookup(m, ProbeKeys[i]))
       case None => Some(stringify(v)))
    case _ => if Truthy(v) then ToString(v) else Some("")
  }

  /** An array of strings none of which holds a line break comes out as
      lines that split back into exactly those strings. */
  lemma ArrayFieldLines(parts: seq<string>, stringify: Value -> string)
    requires |parts| >= 1
    requires forall i, k | 0 <= i < |parts| && 0 <= k < |parts[i]| :: parts[i][k] != '\n'
    ensures var r := SafeToString(Arr(seq(|parts|, i requires 0 <= i < |parts| => Str(parts[i]))), stringify);
      r.Some? && Split(r.value, '\n') == parts
  {
    var items := seq(|parts|, i requires 0 <= i < |parts| => Str(parts[i]));
    assert forall i | 0 <= i < |items| :: Stringable(items[i]);
    var written := ElementStrings(items).value;
    assert forall i | 0 <= i < |parts| :: written[i] == parts[i];
    assert written == parts;
    SplitJoin(parts, '\n');
  }

  /** The probe tests truthiness, not presence: an empty `text` falls
      through to `content`. */
  lemma ObjectProbeSkipsFalsy(m: map<string, Value>, stringify: Value -> string)
    requires !Truthy(Lookup(m, "text"))
    requires Truthy(Lookup(m, "content"))
    ensures SafeToString(Obj(m), stringify) == ToString(m["content"])
  {
    assert ProbeKeys[0] == "text" && ProbeKeys[1] == "content";
  }

  /** The value stored under a labelled key of the parsed element, read as
      `input[key]`; `None` when the element is `null` or `undefined`. */
  function Labelled(input: Value, key: string): Value
    requires !input.Null? && !input.Undefined?
  {
    Member(input, key).value
  }

  /** `String(input.Пользователь?.Имя || "")`, `None` where it throws. */
  function CustomerText(input: Value): (r: Option<string>)
    requires !input.Null? && !input.Undefined?
    ensures var name := OptionalMember(Labelled(input, UserKey), NameKey);
      && (!Truthy(name) ==> r == Some(""))
      && (Truthy(name) ==> r == ToString(name))
  {
    var name := OptionalMember(Labelled(input, UserKey), NameKey);
    if Truthy(name) then ToString(name) else Some("")
  }

  /** `transformData`. `None` stands for a thrown TypeError: the element is
      `null` or `undefined`, or one of the six conversions throws. `customer`
      is `String(input.Пользователь?.Имя || "")`; the other five fields are
      the normalised values of their labelled keys. */
  function TransformData(input: Value, stringify: Value -> string): (r: Option<CreateDto>)
    ensures r.None? <==>
      || input.Null? || input.Undefined?
      || CustomerText(input).None?
      || SafeToString(Labelled(input, WhenKey), stringify).None?
      || SafeToString(Labelled(input, WantKey), stringify).None?
      || SafeToString(Labelled(input, HowKey), stringify).None?
      || SafeToString(Labelled(input, SoThatKey), stringify).None?
      || SafeToString(Labelled(input, FeatureRequestsKey), stringify).None?
    ensures r.Some? && !input.Obj? ==> r.value == CreateDto("", "", "", "", "", "")
    ensures r.Some? ==>
      var name := OptionalMember(Labelled(input, UserKey), NameKey);
      r.value.customer == if Truthy(name) then ToString(name).value else ""
    ensures r.Some? ==>
      && Some(r.value.when) == SafeToString(Labelled(input, WhenKey), stringify)
      && Some(r.value.want) == SafeToString(Labelled(input, WantKey), stringify)
      && Some(r.value.how) == SafeToString(Labelled(input, HowKey), stringify)
      && Some(r.value.soThat) == SafeToString(Labelled(input, SoThatKey), stringify)
      && Some(r.value.featureRequests) == SafeToString(Labelled(input, FeatureRequestsKey), stringify)
  {
    if input.Null? || input.Undefined? then None
    else
      var customer := CustomerText(input);
      var when := SafeToString(Labelled(input, WhenKey), stringify);
      var want := SafeToString(Labelled(input, WantKey), stringify);
      var how := SafeToString(Labelled(input, HowKey), stringify);
      var soThat := SafeToString(Labelled(input, SoThatKey), stringify);
      var featureRequests := SafeToString(Labelled(input, FeatureRequestsKey), stringify);
      if customer.Some? && when.Some? && want.Some? && how.Some? && soThat.Some? && featureRequests.Some? then
        Some(CreateDto(customer.value, when.value, want.value, how.value, soThat.value, featureRequests.value))
      else None
  }

  /** Each labelled key that is missing from the parsed element yields "",
      and so does a missing user entry for the customer; such a key never
      makes the conversion throw. */
  lemma MissingKeyYieldsEmpty(m: map<string, Value>, stringify: Value -> string)
    ensures UserKey !in m ==> CustomerText(Obj(m)) == Some("")
    ensures WhenKey !in m ==> SafeToString(Labelled(Obj(m), WhenKey), stringify) == Some("")
    ensures WantKey !in m ==> SafeToString(Labelled(Obj(m), WantKey), stringify) == Some("")
    ensures HowKey !in m ==> SafeToString(Labelled(Obj(m), HowKey), stringify) == Some("")
    ensures SoThatKey !in m ==> SafeToString(Labelled(Obj(m), SoThatKey), stringify) == Some("")
    ensures FeatureRequestsKey !in m ==> SafeToString(Labelled(Obj(m), FeatureRequestsKey), stringify) == Some("")
    ensures var r := TransformData(Obj(m), stringify);
      && (r.Some? && UserKey !in m ==> r.value.customer == "")
      && (r.Some? && WhenKey !in m ==> r.value.when == "")
      && (r.Some? && WantKey !in m ==> r.value.want == "")
      && (r.Some? && HowKey !in m ==> r.value.how == "")
      && (r.Some? && SoThatKey !in m ==> r.value.soThat == "")
      && (r.Some? && FeatureRequestsKey !in m ==> r.value.featureRequests == "")
  {
  }

  /** A record written back in the labelled shape the prompt asks for. */
  function RecordValue(d: CreateDto): Value {
    Obj(map[
      UserKey := Obj(map[NameKey := Str(d.customer)]),
      WhenKey := Str(d.when),
      WantKey := Str(d.want),
      HowKey := Str(d.how),
      SoThatKey := Str(d.soThat),
      FeatureRequestsKey := Str(d.featureRequests)])
  }

  /** Normalising a record that is already canonical (every field a string)
      gives it back unchanged. */
  lemma TransformRoundTrip(d: CreateDto, stringify: Value -> string)
    ensures TransformData(RecordValue(d), stringify) == Some(d)
  {
    var v := RecordValue(d);
    assert Labelled(v, WhenKey) == Str(d.when);
    assert Labelled(v, WantKey) == Str(d.want);
    assert Labelled(v, HowKey) == Str(d.how);
    assert Labelled(v, SoThatKey) == Str(d.soThat);
    assert Labelled(v, FeatureRequestsKey) == Str(d.featureRequests);
    assert Labelled(v, UserKey) == Obj(map[NameKey := Str(d.customer)]);
  }

  // ---------------------------------------------------------------------
  // Locating the JSON array in the reply: `analysis.match(/\[[\s\S]*\]/)`

  /** A candidate match: a "[" at `i` and a later "]" at `j`. */
  ghost predicate BracketPair(s: string, i: int, j: int) {
    0 <= i < j < |s| && s[i] == '[' && s[j] == ']'
  }

  /** The match the regular expression reports: the leftmost start, then
      the longest (greedy) end. */
  ghost predicate RegexMatch(s: string, i: int, j: int) {
    && BracketPair(s, i, j)
    && (forall i', j' | BracketPair(s, i', j') :: i <= i')
    && (forall j' | BracketPair(s, i, j') :: j' <= j)
  }

  /** The matched text `jsonMatch[0]`, or `None` when nothing matches. */
  function ExtractArrayText(reply: string): (r: Option<string>)
    ensures r.None? <==> forall i, j :: !BracketPair(reply, i, j)
    ensures r.Some? ==> exists i, j :: RegexMatch(reply, i, j) && r.value == reply[i..j + 1]
  {
    match IndexOf(reply, '[')
    case None => None
    case Some(i) =>
      match LastIndexOf(reply, ']')
      case None => None
      case Some(j) =>
        if i < j then
          assert RegexMatch(reply, i, j);
          Some(reply[i..j + 1])
        else None
  }

  /** Prose around the array is ignored: with no "[" before it and no "]"
      after it, exactly the bracketed text is extracted. */
  lemma {:induction false} ExtractIgnoresProse(before: string, inner: string, after: string)
    requires forall k | 0 <= k < |before| :: before[k] != '['
    requires forall k | 0 <= k < |after| :: after[k] != ']'
    ensures ExtractArrayText(before + "[" + inner + "]" + after) == Some("[" + inner + "]")
  {
    var s := before + "[" + inner + "]" + after;
    var i, j := |before|, |before| + |inner| + 1;
    assert s[i] == '[' && s[j] == ']';
    assert forall k | 0 <= k < i :: s[k] == before[k];
    assert forall k | j < k < |s| :: s[k] == after[k - j - 1];
    assert IndexOf(s, '[') == Some(i);
    assert LastIndexOf(s, ']') == Some(j);
    assert s[i..j + 1] == "[" + inner + "]";
  }

  // ---------------------------------------------------------------------
  // The reply as a whole

  /** Why no record came out of a reply. `Malformed`: `JSON.parse` threw, or
      `transformData` threw (on a `null` first element, or in a conversion
      that reached an object with its own `toString` key). `NoRecord`: no
      bracketed text, not an array, or an empty array. */
  datatype ParseFailure = Malformed | NoRecord

  /** The inner `try` of step 3: extract, parse, and normalise element 0. */
  function ParseReply(reply: string, codec: JsonCodec): (r: Result<CreateDto, ParseFailure>)
    ensures ExtractArrayText(reply).None? ==> r == Failure(NoRecord)
    ensures r.Success? ==>
      && ExtractArrayText(reply).Some?
      && var parsed := codec.parse(ExtractArrayText(reply).value);
      && parsed.Some? && parsed.value.Arr? && |parsed.value.items| > 0
      && TransformData(parsed.value.items[0], codec.stringify) == Some(r.value)
    ensures ExtractArrayText(reply).Some? ==>
      var parsed := codec.parse(ExtractArrayText(reply).value);
      && (parsed.None? ==> r == Failure(Malformed))
      && (parsed.Some? && !(parsed.value.Arr? && |parsed.value.items| > 0) ==> r == Failure(NoRecord))
      && (parsed.Some? && parsed.value.Arr? && |parsed.value.items| > 0 ==>
            var first := parsed.value.items[0];
            && (TransformData(first, codec.stringify).None? ==> r == Failure(Malformed))
            && (TransformData(first, codec.stringify).Some? ==> r == Success(TransformData(first, codec.stringify).value)))
  {
    match ExtractArrayText(reply)
    case None => Failure(NoRecord)
    case Some(text) =>
      match codec.parse(text)
      case None => Failure(Malformed)
      case Some(parsed) =>
        if parsed.Arr? && |parsed.items| > 0 then
          match TransformData(parsed.items[0], codec.stringify)
          case None => Failure(Malformed)
          case Some(record) => Success(record)
        else Failure(NoRecord)
  }

  /** Only element 0 matters: two parses that agree on it give the same
      outcome, whatever else the arrays hold. */
  lemma OnlyFirstElementMatters(reply: string, a: JsonCodec, b: JsonCodec, text: string)
    requires ExtractArrayText(reply) == Some(text)
    requires a.stringify == b.stringify
    requires a.parse(text).Some? && a.parse(text).value.Arr? && |a.parse(text).value.items| > 0
    requires b.parse(text).Some? && b.parse(text).value.Arr? && |b.parse(text).value.items| > 0
    requires a.parse(text).value.items[0] == b.parse(text).value.items[0]
    ensures ParseReply(reply, a) == ParseReply(reply, b)
  {
  }

  /** A parsed empty array or a parsed non-array yields no record. */
  lemma NoArrayNoRecord(reply: string, codec: JsonCodec, text: string)
    requires ExtractArrayText(reply) == Some(text)
    requires codec.parse(text).Some?
    requires !codec.parse(text).value.Arr? || codec.parse(text).value.items == []
    ensures ParseReply(reply, codec) == Failure(NoRecord)
  {
  }

  /** A reply whose array text parses to an array led by `null` fails as
      malformed: `transformData` throws inside the inner `try`. */
  lemma NullFirstElementIsMalformed(reply: string, codec: JsonCodec, text: string, rest: seq<Value>)
    requires ExtractArrayText(reply) == Some(text)
    requires codec.parse(text) == Some(Arr([Null] + rest))
    ensures ParseReply(reply, codec) == Failure(Malformed)
  {
  }

  /** A customer name that is an object with its own `toString` key makes
      `String(...)` throw inside the inner `try`: the reply is malformed and
      nothing is saved. */
  lemma OwnToStringNameIsMalformed(reply: string, codec: JsonCodec, text: string, w: Value, rest: seq<Value>)
    requires ExtractArrayText(reply) == Some(text)
    requires codec.parse(text) == Some(Arr([Obj(map[UserKey := Obj(map[NameKey := Obj(map["toString" := w])])])] + rest))
    ensures ParseReply(reply, codec) == Failure(Malformed)
  {
    var first := Obj(map[UserKey := Obj(map[NameKey := Obj(map["toString" := w])])]);
    assert Labelled(first, UserKey) == Obj(map[NameKey := Obj(map["toString" := w])]);
    assert CustomerText(first).None?;
  }

  /** The same through `join`: an array field holding an object with its
      own `toString` key makes `transformData` throw. */
  lemma OwnToStringElementThrows(m: map<string, Value>, stringify: Value -> string, w: Value)
    requires WhenKey in m && m[WhenKey] == Arr([Obj(map["toString" := w])])
    ensures TransformData(Obj(m), stringify).None?
  {
    var items := [Obj(map["toString" := w])];
    assert !Stringable(items[0]);
    assert !Stringable(Arr(items));
    assert Labelled(Obj(m), WhenKey) == Arr(items);
  }
}
