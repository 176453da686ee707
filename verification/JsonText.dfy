/** The compact JSON text of an event payload, as `json.dumps` writes it without ASCII escaping. */
module JsonText {
  import Decimals
  import opened EventStream
  import opened SseWire

  datatype Json =
    | Null
    | Number(number: int)
    | Text(text: string)
    | Object(fields: seq<Member>)

  datatype Member = Member(name: string, value: Json)

  function Hex(d: nat): char
    requires d < 16
  {
    "0123456789abcdef"[d]
  }

  /** Quotes, backslashes and control characters are escaped; all others stand as they are. */
  function Escape(c: char): string {
    if c == '"' then "\\\""
    else if c == '\\' then "\\\\"
    else if c == '\n' then "\\n"
    else if c == '\r' then "\\r"
    else if c == '\t' then "\\t"
    else if c == '\U{0008}' then "\\b"
    else if c == '\U{000c}' then "\\f"
    else if c < ' ' then "\\u00" + [Hex(c as nat / 16), Hex(c as nat % 16)]
    else [c]
  }

  function Escaped(s: string): string {
    if s == "" then "" else Escape(s[0]) + Escaped(s[1..])
  }

  function Quoted(s: string): string {
    "\"" + Escaped(s) + "\""
  }

  function Signed(n: int): string {
    if n < 0 then "-" + Decimals.Decimal(-n) else Decimals.Decimal(n)
  }

  function Dumps(v: Json): string
    decreases v, 0
  {
    match v
    case Null => "null"
    case Number(n) => Signed(n)
    case Text(s) => Quoted(s)
    case Object(fields) => "{" + Fields(fields) + "}"
  }

  function Fields(fields: seq<Member>): string
    decreases fields, 1
  {
    if fields == [] then ""
    else
      var one := Quoted(fields[0].name) + ":" + Dumps(fields[0].value);
      if |fields| == 1 then one else one + "," + Fields(fields[1..])
  }

  lemma OneLineAppend(a: string, b: string)
    requires OneLine(a) && OneLine(b)
    ensures OneLine(a + b)
  {}

  lemma {:induction false} EscapedOneLine(s: string)
    ensures OneLine(Escaped(s))
  {
    if s != "" {
      EscapedOneLine(s[1..]);
      OneLineAppend(Escape(s[0]), Escaped(s[1..]));
    }
  }

  lemma QuotedOneLine(s: string)
    ensures OneLine(Quoted(s))
  {
    EscapedOneLine(s);
  }

  lemma SignedOneLine(n: int)
    ensures OneLine(Signed(n))
  {
    Decimals.DecimalRoundTrip(if n < 0 then -n else n);
  }

  /** Whatever the payload holds, its text is one line: line breaks inside strings are escaped. */
  lemma {:induction false} DumpsOneLine(v: Json)
    ensures OneLine(Dumps(v))
    decreases v, 0
  {
    match v
    case Null =>
    case Number(n) => SignedOneLine(n);
    case Text(s) => QuotedOneLine(s);
    case Object(fields) => FieldsOneLine(fields);
  }

  lemma {:induction false} FieldsOneLine(fields: seq<Member>)
    ensures OneLine(Fields(fields))
    decreases fields, 1
  {
    if fields != [] {
      QuotedOneLine(fields[0].name);
      DumpsOneLine(fields[0].value);
      OneLineAppend(Quoted(fields[0].name) + ":", Dumps(fields[0].value));
      FieldsOneLine(fields[1..]);
      var one := Quoted(fields[0].name) + ":" + Dumps(fields[0].value);
      OneLineAppend(one + ",", Fields(fields[1..]));
    }
  }

  /** So every event whose data is the text of a payload can be sent. */
  lemma PayloadsAreSendable(id: nat, kind: string, payload: Json)
    requires kind != "" && OneLine(kind)
    ensures Sendable(EventFrame(Event(id, kind, Dumps(payload))))
  {
    DumpsOneLine(payload);
  }
}
