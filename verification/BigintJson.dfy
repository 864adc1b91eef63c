// How plan records carry unbounded integers through JSON
// (src/wallet-engine/convert/plan-store.ts, bigintReplacer and bigintReviver), over value
// trees: the replacer runs on a value before its members are visited, the reviver on a value
// after its members were revived (section 25.5 of ECMA-262).
module BigintJson {
  import opened Options

  datatype Value =
    | Undefined
    | Null
    | Boolean(b: bool)
    | Number(x: real)
    | Text(s: string)
    | BigInteger(n: int)
    | List(items: seq<Value>)
    | Record(members: seq<Member>)

  datatype Member = Member(key: string, value: Value)

  datatype Json =
    | JNull
    | JBoolean(b: bool)
    | JNumber(x: real)
    | JText(s: string)
    | JList(items: seq<Json>)
    | JRecord(members: seq<JMember>)

  datatype JMember = JMember(key: string, value: Json)

  const MARK: string := "__bigint"

  // ----- decimal notation -----------------------------------------------------------------------

  function DigitOf(d: nat): char
    requires d < 10
  {
    ['0', '1', '2', '3', '4', '5', '6', '7', '8', '9'][d]
  }

  function Digits(n: nat): string { if n < 10 then [DigitOf(n)] else Digits(n / 10) + [DigitOf(n % 10)] }

  function Decimal(n: int): string { if n < 0 then "-" + Digits(-n) else Digits(n) }

  predicate IsDigit(c: char) { '0' <= c <= '9' }

  predicate IsDigits(s: string) { s != "" && forall i :: 0 <= i < |s| ==> IsDigit(s[i]) }

  function DigitsValue(s: string): int
    requires forall i :: 0 <= i < |s| ==> IsDigit(s[i])
  {
    if s == "" then 0 else 10 * DigitsValue(s[..|s|-1]) + (s[|s|-1] as int - '0' as int)
  }

  // BigInt(s): decimal notation is read as such; what the runtime makes of any other text,
  // where None is a SyntaxError, is `other`.
  function ParseBigInt(s: string, other: string -> Option<int>): Option<int> {
    if IsDigits(s) then Some(DigitsValue(s))
    else if s != "" && s[0] == '-' && IsDigits(s[1..]) then Some(-DigitsValue(s[1..]))
    else other(s)
  }

  lemma {:induction false} DigitsRoundTrip(n: nat)
    ensures IsDigits(Digits(n)) && DigitsValue(Digits(n)) == n
  {
    if n >= 10 {
      DigitsRoundTrip(n / 10);
      assert Digits(n)[..|Digits(n)|-1] == Digits(n / 10);
    } else {
      assert Digits(n)[..0] == "";
    }
  }

  lemma PositiveRoundTrip(n: nat, other: string -> Option<int>)
    ensures ParseBigInt(Digits(n), other) == Some(n as int)
  {
    DigitsRoundTrip(n);
  }

  lemma NegativeRoundTrip(n: nat, other: string -> Option<int>)
    ensures ParseBigInt("-" + Digits(n), other) == Some(0 - n)
  {
    DigitsRoundTrip(n);
    var s := "-" + Digits(n);
    assert s[0] == '-' && s[1..] == Digits(n);
    assert !IsDigit(s[0]);
  }

  lemma DecimalRoundTrip(n: int, other: string -> Option<int>)
    ensures ParseBigInt(Decimal(n), other) == Some(n)
  {
    if n < 0 {
      var m: nat := -n;
      NegativeRoundTrip(m, other);
      assert Decimal(n) == "-" + Digits(m);
    } else {
      PositiveRoundTrip(n, other);
      assert Decimal(n) == Digits(n);
    }
  }

  // ----- encoding ---------------------------------------------------------------------------------

  function Encode(v: Value): Json
    decreases v, 0
  {
    match v
    case Undefined => JNull
    case Null => JNull
    case Boolean(b) => JBoolean(b)
    case Number(x) => JNumber(x)
    case Text(s) => JText(s)
    case BigInteger(n) => JRecord([JMember(MARK, JText(Decimal(n)))])
    case List(items) => JList(EncodeItems(items))
    case Record(members) => JRecord(EncodeMembers(members))
  }

  function EncodeItems(items: seq<Value>): seq<Json>
    decreases items, 0
  {
    if items == [] then [] else [Encode(items[0])] + EncodeItems(items[1..])
  }

  // Unset members are left out.
  function EncodeMembers(members: seq<Member>): seq<JMember>
    decreases members, 0
  {
    if members == [] then []
    else
      var rest := EncodeMembers(members[1..]);
      if members[0].value.Undefined? then rest else [JMember(members[0].key, Encode(members[0].value))] + rest
  }

  // ----- decoding ----------------------------------------------------------------------------------

  function Find(members: seq<Member>, key: string): Option<Value> {
    if members == [] then None else if members[0].key == key then Some(members[0].value) else Find(members[1..], key)
  }

  predicate IsMarked(members: seq<Member>) {
    Find(members, MARK).Some? && Find(members, MARK).value.Text?
  }

  function Revive(v: Value, other: string -> Option<int>): Option<Value> {
    if v.Record? && IsMarked(v.members) then
      var n := ParseBigInt(Find(v.members, MARK).value.s, other);
      if n.Some? then Some(BigInteger(n.value)) else None
    else Some(v)
  }

  // None when reviving throws.
  function Decode(j: Json, other: string -> Option<int>): Option<Value>
    decreases j, 0
  {
    match j
    case JNull => Some(Null)
    case JBoolean(b) => Some(Boolean(b))
    case JNumber(x) => Some(Number(x))
    case JText(s) => Some(Text(s))
    case JList(items) =>
      var revived := DecodeItems(items, other);
      if revived.Some? then Some(List(revived.value)) else None
    case JRecord(members) =>
      var revived := DecodeMembers(members, other);
      if revived.Some? then Revive(Record(revived.value), other) else None
  }

  function DecodeItems(items: seq<Json>, other: string -> Option<int>): Option<seq<Value>>
    decreases items, 0
  {
    if items == [] then Some([])
    else
      var first, rest := Decode(items[0], other), DecodeItems(items[1..], other);
      if first.Some? && rest.Some? then Some([first.value] + rest.value) else None
  }

  function DecodeMembers(members: seq<JMember>, other: string -> Option<int>): Option<seq<Member>>
    decreases members, 0
  {
    if members == [] then Some([])
    else
      var first, rest := Decode(members[0].value, other), DecodeMembers(members[1..], other);
      if first.Some? && rest.Some? then Some([Member(members[0].key, first.value)] + rest.value) else None
  }

  // ----- what comes back ------------------------------------------------------------------------------

  // JSON has no unset values: in a list they become null, in a record they disappear.
  function Normal(v: Value): Value
    decreases v, 0
  {
    match v
    case Undefined => Null
    case List(items) => List(NormalItems(items))
    case Record(members) => Record(NormalMembers(members))
    case _ => v
  }

  function NormalItems(items: seq<Value>): seq<Value>
    decreases items, 0
  {
    if items == [] then [] else [Normal(items[0])] + NormalItems(items[1..])
  }

  function NormalMembers(members: seq<Member>): seq<Member>
    decreases members, 0
  {
    if members == [] then []
    else
      var rest := NormalMembers(members[1..]);
      if members[0].value.Undefined? then rest else [Member(members[0].key, Normal(members[0].value))] + rest
  }

  // No record anywhere in the value has a text under the reviver's mark.
  predicate IsUnmarked(v: Value)
    decreases v, 0
  {
    match v
    case List(items) => AreItemsUnmarked(items)
    case Record(members) => AreMembersUnmarked(members) && !IsMarked(NormalMembers(members))
    case _ => true
  }

  predicate AreItemsUnmarked(items: seq<Value>)
    decreases items, 0
  {
    items == [] || (IsUnmarked(items[0]) && AreItemsUnmarked(items[1..]))
  }

  predicate AreMembersUnmarked(members: seq<Member>)
    decreases members, 0
  {
    members == [] || (IsUnmarked(members[0].value) && AreMembersUnmarked(members[1..]))
  }

  // Reviving an encoded value gives back the value, with unset entries normalised, if and only
  // if no record in it has a text under the mark.
  lemma {:induction false} RoundTrip(v: Value, other: string -> Option<int>)
    ensures Decode(Encode(v), other) == Some(Normal(v)) <==> IsUnmarked(v)
    decreases v, 0
  {
    match v
    case BigInteger(n) => BigRoundTrip(n, other);
    case List(items) => ItemsRoundTrip(items, other);
    case Record(members) => MembersRoundTrip(members, other);
    case _ =>
  }

  lemma BigRoundTrip(n: int, other: string -> Option<int>)
    ensures Decode(Encode(BigInteger(n)), other) == Some(BigInteger(n))
  {
    DecimalRoundTrip(n, other);
    OneMember(MARK, Decimal(n), other);
  }

  // A big integer is written as its decimal notation under the mark.
  lemma BigIsMarked(n: int)
    ensures Encode(BigInteger(n)) == JRecord([JMember("__bigint", JText(Decimal(n)))])
  {
  }

  lemma OneMember(key: string, s: string, other: string -> Option<int>)
    ensures DecodeMembers([JMember(key, JText(s))], other) == Some([Member(key, Text(s))])
  {
    var members := [JMember(key, JText(s))];
    assert DecodeMembers(members[1..], other) == Some([]);
    assert [Member(key, Text(s))] + [] == [Member(key, Text(s))];
  }

  lemma {:induction false} ItemsRoundTrip(items: seq<Value>, other: string -> Option<int>)
    ensures DecodeItems(EncodeItems(items), other) == Some(NormalItems(items)) <==> AreItemsUnmarked(items)
    decreases items, 0
  {
    if items != [] {
      RoundTrip(items[0], other);
      ItemsRoundTrip(items[1..], other);
      assert EncodeItems(items)[1..] == EncodeItems(items[1..]);
      var first, rest := Decode(Encode(items[0]), other), DecodeItems(EncodeItems(items[1..]), other);
      if first.Some? && rest.Some? {
        assert ([first.value] + rest.value)[1..] == rest.value;
        assert NormalItems(items)[1..] == NormalItems(items[1..]);
      }
    }
  }

  lemma {:induction false} MembersRoundTrip(members: seq<Member>, other: string -> Option<int>)
    ensures DecodeMembers(EncodeMembers(members), other) == Some(NormalMembers(members)) <==> AreMembersUnmarked(members)
    decreases members, 0
  {
    if members != [] {
      MembersRoundTrip(members[1..], other);
      if !members[0].value.Undefined? {
        RoundTrip(members[0].value, other);
        assert EncodeMembers(members)[1..] == EncodeMembers(members[1..]);
        var first, rest := Decode(Encode(members[0].value), other), DecodeMembers(EncodeMembers(members[1..]), other);
        if first.Some? && rest.Some? {
          assert ([Member(members[0].key, first.value)] + rest.value)[1..] == rest.value;
          assert NormalMembers(members)[1..] == NormalMembers(members[1..]);
        }
      }
    }
  }
}
