/** The compact serialization of a value, octet by octet, and the fact that the size the sanitizer works with is its
    length. */
module JsonText {
  import opened Texts
  import opened Sanitizer

  type Octet = n: int | 0 <= n < 256

  /** UTF-8, section 3 of RFC 3629. */
  function Utf8(c: char): seq<Octet> {
    var n := c as int;
    if n < 0x80 then [n]
    else if n < 0x800 then [0xC0 + n / 64, 0x80 + n % 64]
    else if n < 0x1_0000 then [0xE0 + n / 4096, 0x80 + n / 64 % 64, 0x80 + n % 64]
    else [0xF0 + n / 262144 % 8, 0x80 + n / 4096 % 64, 0x80 + n / 64 % 64, 0x80 + n % 64]
  }

  function HexDigit(n: int): Octet
    requires 0 <= n < 16
  {
    if n < 10 then 48 + n else 87 + n
  }

  /** A character of a JSON string: two octets for the escapes that have a letter, six for the other controls. */
  function Character(c: char): seq<Octet> {
    var n := c as int;
    if n == 34 then [92, 34]
    else if n == 92 then [92, 92]
    else if n == 8 then [92, 98]
    else if n == 12 then [92, 102]
    else if n == 10 then [92, 110]
    else if n == 13 then [92, 114]
    else if n == 9 then [92, 116]
    else if n < 32 then [92, 117, 48, 48, HexDigit(n / 16), HexDigit(n % 16)]
    else Utf8(c)
  }

  function Characters(s: string): seq<Octet> {
    if s == "" then [] else Characters(s[..|s| - 1]) + Character(s[|s| - 1])
  }

  function Quoted(s: string): seq<Octet> {
    [34] + Characters(s) + [34]
  }

  function Plain(s: string): seq<Octet> {
    if s == "" then [] else Plain(s[..|s| - 1]) + [s[|s| - 1] as int % 256]
  }

  /** Values without blanks: elements separated by commas, keys and values by colons. */
  function Serialize(v: Json): seq<Octet>
    decreases v, Width(v)
  {
    match v
    case Null => [110, 117, 108, 108]
    case Bool(b) => if b then [116, 114, 117, 101] else [102, 97, 108, 115, 101]
    case Number(digits) => Plain(digits)
    case Text(text) => Quoted(text)
    case Array(items) => [91] + Elements(v, |items|) + [93]
    case Object(fields) => [123] + Members(v, |fields|) + [125]
  }

  function Elements(v: Json, n: nat): seq<Octet>
    requires v.Array? && n <= |v.items|
    decreases v, n
  {
    if n == 0 then [] else Elements(v, n - 1) + (if n == 1 then [] else [44]) + Serialize(v.items[n - 1])
  }

  function Members(v: Json, n: nat): seq<Octet>
    requires v.Object? && n <= |v.fields|
    decreases v, n
  {
    if n == 0 then []
    else
      Members(v, n - 1) + (if n == 1 then [] else [44]) +
      Quoted(v.fields[n - 1].0) + [58] + Serialize(v.fields[n - 1].1)
  }

  // ---------- Lengths ----------

  lemma {:induction false} Utf8Length(s: string)
    ensures |EncodeUtf8(s)| == Utf8Size(s)
  {
    if s != "" {
      Utf8Length(s[..|s| - 1]);
    }
  }

  function EncodeUtf8(s: string): seq<Octet> {
    if s == "" then [] else EncodeUtf8(s[..|s| - 1]) + Utf8(s[|s| - 1])
  }

  lemma CharacterLength(c: char)
    ensures |Character(c)| == Escaped(c)
  {
  }

  lemma {:induction false} QuotedLength(s: string)
    ensures |Characters(s)| == EscapedSize(s) && |Quoted(s)| == QuotedSize(s)
  {
    if s != "" {
      QuotedLength(s[..|s| - 1]);
      CharacterLength(s[|s| - 1]);
    }
  }

  lemma {:induction false} PlainLength(s: string)
    ensures |Plain(s)| == |s|
  {
    if s != "" {
      PlainLength(s[..|s| - 1]);
    }
  }

  lemma {:induction false} ElementsLength(v: Json, n: nat)
    requires v.Array? && n <= |v.items|
    ensures |Elements(v, n)| == ItemsSize(v, n) + if n == 0 then 0 else n - 1
    decreases v, n
  {
    if n > 0 {
      ElementsLength(v, n - 1);
      SizeIsLength(v.items[n - 1]);
    }
  }

  lemma {:induction false} MembersLength(v: Json, n: nat)
    requires v.Object? && n <= |v.fields|
    ensures |Members(v, n)| == FieldsSize(v, n) + if n == 0 then 0 else n - 1
    decreases v, n
  {
    if n > 0 {
      MembersLength(v, n - 1);
      QuotedLength(v.fields[n - 1].0);
      SizeIsLength(v.fields[n - 1].1);
    }
  }

  /** The size that is compared with the limit is the length of the serialization. */
  lemma {:induction false} SizeIsLength(v: Json)
    ensures Size(v) == |Serialize(v)|
    decreases v, Width(v)
  {
    match v
    case Number(digits) => PlainLength(digits);
    case Text(text) => QuotedLength(text);
    case Array(items) => ElementsLength(v, |items|);
    case Object(fields) => MembersLength(v, |fields|);
    case _ =>
  }
}
