/** Reading the JSON text of a payload back, as a browser does: it gives the payload again. */
module JsonReading {
  import opened Options
  import opened JsonText
  import Decimals

  /** What was read, and the text behind it. */
  datatype Read<+T> = Read(value: T, rest: string)

  function HexValue(c: char): Option<nat> {
    if '0' <= c <= '9' then Some((c - '0') as nat)
    else if 'a' <= c <= 'f' then Some(10 + (c - 'a') as nat)
    else if 'A' <= c <= 'F' then Some(10 + (c - 'A') as nat)
    else None
  }

  /** Four hexadecimal digits; halves of surrogate pairs are not read. */
  function ReadHex(s: string): (r: Option<Read<char>>)
    ensures r.Some? ==> |r.value.rest| < |s|
  {
    if |s| < 4 then None
    else
      match (HexValue(s[0]), HexValue(s[1]), HexValue(s[2]), HexValue(s[3]))
      case (Some(a), Some(b), Some(c), Some(d)) =>
        var code := ((a * 16 + b) * 16 + c) * 16 + d;
        if code < 0xd800 then Some(Read(code as char, s[4..])) else None
      case _ => None
  }

  /** What stands behind a backslash. */
  function ReadEscape(s: string): (r: Option<Read<char>>)
    ensures r.Some? ==> |r.value.rest| < |s|
  {
    if s == "" then None
    else match s[0]
      case '"' => Some(Read('"', s[1..]))
      case '\\' => Some(Read('\\', s[1..]))
      case '/' => Some(Read('/', s[1..]))
      case 'n' => Some(Read('\n', s[1..]))
      case 'r' => Some(Read('\r', s[1..]))
      case 't' => Some(Read('\t', s[1..]))
      case 'b' => Some(Read('\U{0008}', s[1..]))
      case 'f' => Some(Read('\U{000c}', s[1..]))
      case 'u' => ReadHex(s[1..])
      case _ => None
  }

  /** One character of a string. */
  function ReadChar(s: string): (r: Option<Read<char>>)
    ensures r.Some? ==> |r.value.rest| < |s|
  {
    if s == "" || s[0] == '"' || s[0] < ' ' then None
    else if s[0] == '\\' then ReadEscape(s[1..])
    else Some(Read(s[0], s[1..]))
  }

  /** The characters of a string up to its closing quote. */
  function ReadChars(s: string): (r: Option<Read<string>>)
    ensures r.Some? ==> |r.value.rest| < |s|
    decreases |s|
  {
    if s != "" && s[0] == '"' then Some(Read("", s[1..]))
    else match ReadChar(s)
      case None => None
      case Some(one) =>
        match ReadChars(one.rest)
        case None => None
        case Some(more) => Some(Read([one.value] + more.value, more.rest))
  }

  function ReadString(s: string): (r: Option<Read<string>>)
    ensures r.Some? ==> |r.value.rest| < |s|
  {
    if s != "" && s[0] == '"' then ReadChars(s[1..]) else None
  }

  /** How many digits stand at the front. */
  function DigitRun(s: string): (n: nat)
    ensures n <= |s|
  {
    if s != "" && Decimals.IsDigit(s[0]) then 1 + DigitRun(s[1..]) else 0
  }

  function ReadNatural(s: string): (r: Option<Read<nat>>)
    ensures r.Some? ==> |r.value.rest| < |s|
  {
    var n := DigitRun(s);
    match Decimals.ReadDecimal(s[..n])
    case Some(x) => if n == 0 then None else Some(Read(x, s[n..]))
    case None => None
  }

  function ReadNumber(s: string): (r: Option<Read<int>>)
    ensures r.Some? ==> |r.value.rest| < |s|
  {
    if s != "" && s[0] == '-' then
      match ReadNatural(s[1..])
      case Some(x) => Some(Read(0 - (x.value as int), x.rest))
      case None => None
    else
      match ReadNatural(s)
      case Some(x) => Some(Read(x.value as int, x.rest))
      case None => None
  }

  /** A value at the front of a text. */
  function ReadValue(s: string): (r: Option<Read<Json>>)
    ensures r.Some? ==> |r.value.rest| < |s|
    decreases |s|, 0
  {
    if s == "" then None
    else if "null" <= s then Some(Read(Null, s[4..]))
    else if s[0] == '"' then
      match ReadString(s)
      case Some(x) => Some(Read(Text(x.value), x.rest))
      case None => None
    else if s[0] == '{' then
      if |s| > 1 && s[1] == '}' then Some(Read(Object([]), s[2..]))
      else
        match ReadMembers(s[1..])
        case Some(x) => Some(Read(Object(x.value), x.rest))
        case None => None
    else
      match ReadNumber(s)
      case Some(x) => Some(Read(Number(x.value), x.rest))
      case None => None
  }

  /** A name, a colon and a value. */
  function ReadMember(s: string): (r: Option<Read<Member>>)
    ensures r.Some? ==> |r.value.rest| < |s|
    decreases |s|, 1
  {
    match ReadString(s)
    case None => None
    case Some(name) =>
      if name.rest == "" || name.rest[0] != ':' then None
      else
        match ReadValue(name.rest[1..])
        case None => None
        case Some(value) => Some(Read(Member(name.value, value.value), value.rest))
  }

  /** One member or more, up to the closing brace. */
  function ReadMembers(s: string): (r: Option<Read<seq<Member>>>)
    ensures r.Some? ==> |r.value.rest| < |s|
    decreases |s|, 2
  {
    match ReadMember(s)
    case None => None
    case Some(one) =>
      if one.rest == "" then None
      else if one.rest[0] == '}' then Some(Read([one.value], one.rest[1..]))
      else if one.rest[0] != ',' then None
      else
        match ReadMembers(one.rest[1..])
        case None => None
        case Some(more) => Some(Read([one.value] + more.value, more.rest))
  }

  // ------------------------------------------------------------- reading gives it back

  /** No digit may follow a number, or it would belong to it. */
  predicate NoDigit(rest: string) {
    rest == "" || !Decimals.IsDigit(rest[0])
  }

  lemma ControlRead(c: char, rest: string)
    requires c < ' '
    ensures ReadHex("00" + [Hex(c as nat / 16), Hex(c as nat % 16)] + rest) == Some(Read(c, rest))
  {
    var s := "00" + [Hex(c as nat / 16), Hex(c as nat % 16)] + rest;
    assert s[4..] == rest;
    HexBack(c as nat / 16);
    HexBack(c as nat % 16);
    assert c as nat == (c as nat / 16) * 16 + c as nat % 16;
  }

  lemma HexBack(d: nat)
    requires d < 16
    ensures HexValue(Hex(d)) == Some(d)
  {
    assert Hex(0) == '0' && Hex(1) == '1' && Hex(2) == '2' && Hex(3) == '3' && Hex(4) == '4' && Hex(5) == '5';
    assert Hex(6) == '6' && Hex(7) == '7' && Hex(8) == '8' && Hex(9) == '9' && Hex(10) == 'a' && Hex(11) == 'b';
    assert Hex(12) == 'c' && Hex(13) == 'd' && Hex(14) == 'e' && Hex(15) == 'f';
  }

  lemma EscapedRead(c: char, rest: string)
    ensures ReadChar(Escape(c) + rest) == Some(Read(c, rest))
  {
    var s := Escape(c) + rest;
    if c < ' ' && Escape(c)[1] == 'u' {
      ControlRead(c, rest);
      assert s[1..] == "u" + ("00" + [Hex(c as nat / 16), Hex(c as nat % 16)] + rest);
      assert s[1..][1..] == "00" + [Hex(c as nat / 16), Hex(c as nat % 16)] + rest;
    } else if |Escape(c)| == 2 {
      assert s[1..][1..] == rest;
    } else {
      assert s[1..] == rest;
    }
  }

  lemma {:induction false} CharsRead(t: string, rest: string)
    ensures ReadChars(Escaped(t) + "\"" + rest) == Some(Read(t, rest))
    decreases |t|
  {
    if t == "" {
      assert (Escaped(t) + "\"" + rest)[1..] == rest;
    } else {
      var more := Escaped(t[1..]) + "\"" + rest;
      assert Escaped(t) + "\"" + rest == Escape(t[0]) + more;
      EscapedRead(t[0], more);
      CharsRead(t[1..], rest);
      assert (Escape(t[0]) + more)[0] != '"';
      assert [t[0]] + t[1..] == t;
    }
  }

  lemma QuotedRead(t: string, rest: string)
    ensures ReadString(Quoted(t) + rest) == Some(Read(t, rest))
  {
    hide ReadChars, Escaped;
    CharsRead(t, rest);
    assert (Quoted(t) + rest)[1..] == Escaped(t) + "\"" + rest;
  }

  lemma {:induction false} RunOfDigits(s: string, rest: string)
    requires (forall i | 0 <= i < |s| :: Decimals.IsDigit(s[i])) && NoDigit(rest)
    ensures DigitRun(s + rest) == |s|
  {
    if s == "" {
      assert s + rest == rest;
    } else {
      assert (s + rest)[1..] == s[1..] + rest;
      RunOfDigits(s[1..], rest);
    }
  }

  lemma NaturalRead(n: nat, rest: string)
    requires NoDigit(rest)
    ensures ReadNatural(Decimals.Decimal(n) + rest) == Some(Read(n, rest))
  {
    var s := Decimals.Decimal(n);
    Decimals.DecimalRoundTrip(n);
    RunOfDigits(s, rest);
    assert (s + rest)[..|s|] == s && (s + rest)[|s|..] == rest;
  }

  lemma NumberRead(n: int, rest: string)
    requires NoDigit(rest)
    ensures ReadNumber(Signed(n) + rest) == Some(Read(n, rest))
    ensures Signed(n) != "" && (Signed(n)[0] == '-' || Decimals.IsDigit(Signed(n)[0]))
  {
    hide Decimals.Decimal, ReadNatural, NoDigit;
    if n < 0 {
      NaturalRead(-n, rest);
      assert (Signed(n) + rest)[1..] == Decimals.Decimal(-n) + rest;
    } else {
      NaturalRead(n, rest);
      Decimals.DecimalRoundTrip(n);
      assert (Signed(n) + rest)[0] == Signed(n)[0];
    }
  }

  lemma NumberValueRead(n: int, rest: string)
    requires NoDigit(rest)
    ensures ReadValue(Signed(n) + rest) == Some(Read(Number(n), rest))
  {
    hide Signed, ReadNumber, ReadString, ReadMembers, NoDigit;
    NumberRead(n, rest);
    assert (Signed(n) + rest)[0] == Signed(n)[0];
  }

  lemma TextValueRead(t: string, rest: string)
    ensures ReadValue(Quoted(t) + rest) == Some(Read(Text(t), rest))
  {
    hide ReadString, ReadNumber, ReadMembers, Escaped;
    QuotedRead(t, rest);
    assert (Quoted(t) + rest)[0] == '"';
  }

  lemma ObjectValueRead(fields: seq<Member>, body: string, rest: string)
    requires body != "" && body[0] == '"' && ReadMembers(body) == Some(Read(fields, rest))
    ensures ReadValue("{" + body) == Some(Read(Object(fields), rest))
  {
    hide ReadString, ReadNumber, ReadMembers;
    assert ("{" + body)[1..] == body;
  }

  /** Whatever follows, the text of a value is read as that value and not beyond. */
  lemma {:induction false} DumpsRead(v: Json, rest: string)
    requires NoDigit(rest)
    ensures ReadValue(Dumps(v) + rest) == Some(Read(v, rest))
    decreases v, 0
  {
    var s := Dumps(v) + rest;
    hide ReadString, ReadNumber, ReadMembers, Fields, Signed, Quoted;
    match v
    case Null => assert s[4..] == rest;
    case Number(n) => NumberValueRead(n, rest);
    case Text(t) => TextValueRead(t, rest);
    case Object(fields) =>
      if fields == [] {
        NoFields();
        assert s == "{}" + rest && s[2..] == rest;
      } else {
        FieldsRead(fields, rest);
        FieldsStart(fields);
        ObjectValueRead(fields, Fields(fields) + "}" + rest, rest);
        assert s == "{" + (Fields(fields) + "}" + rest);
      }
  }

  lemma NoFields()
    ensures Fields([]) == ""
  {}

  lemma FieldsStart(fields: seq<Member>)
    requires fields != []
    ensures Fields(fields) != "" && Fields(fields)[0] == '"'
  {}

  lemma {:induction false} FieldsRead(fields: seq<Member>, rest: string)
    requires fields != []
    ensures ReadMembers(Fields(fields) + "}" + rest) == Some(Read(fields, rest))
    decreases fields, 1
  {
    hide Quoted, Dumps, ReadMember, ReadMembers;
    var one := fields[0];
    var text := Quoted(one.name) + ":" + Dumps(one.value);
    if |fields| == 1 {
      MemberRead(one, "}" + rest);
      LastRead(text, one, rest);
      assert Fields(fields) + "}" + rest == text + ("}" + rest);
      assert fields == [one];
    } else {
      var more := Fields(fields[1..]) + "}" + rest;
      MemberRead(one, "," + more);
      FieldsRead(fields[1..], rest);
      NextRead(text, one, more, fields[1..], rest);
      assert Fields(fields) + "}" + rest == text + ("," + more);
      assert [one] + fields[1..] == fields;
    }
  }

  lemma LastRead(text: string, one: Member, rest: string)
    requires ReadMember(text + ("}" + rest)) == Some(Read(one, "}" + rest))
    ensures ReadMembers(text + ("}" + rest)) == Some(Read([one], rest))
  {
    hide ReadMember;
    assert ("}" + rest)[1..] == rest;
  }

  lemma NextRead(text: string, one: Member, more: string, others: seq<Member>, rest: string)
    requires ReadMember(text + ("," + more)) == Some(Read(one, "," + more))
    requires ReadMembers(more) == Some(Read(others, rest))
    ensures ReadMembers(text + ("," + more)) == Some(Read([one] + others, rest))
  {
    hide ReadMember;
    assert ("," + more)[1..] == more;
  }

  lemma {:induction false} MemberRead(one: Member, rest: string)
    requires NoDigit(rest)
    ensures ReadMember(Quoted(one.name) + ":" + Dumps(one.value) + rest) == Some(Read(one, rest))
    decreases one, 0
  {
    var behind := ":" + (Dumps(one.value) + rest);
    assert Quoted(one.name) + ":" + Dumps(one.value) + rest == Quoted(one.name) + behind;
    QuotedRead(one.name, behind);
    assert behind[1..] == Dumps(one.value) + rest;
    DumpsRead(one.value, rest);
  }

  /** The text of a payload is read as the payload: nothing is lost on the way to the browser. */
  lemma PayloadRoundTrip(payload: Json)
    ensures ReadValue(Dumps(payload)) == Some(Read(payload, ""))
  {
    DumpsRead(payload, "");
    assert Dumps(payload) + "" == Dumps(payload);
  }
}
