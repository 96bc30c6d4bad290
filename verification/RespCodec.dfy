/** RESP2 (Redis serialization protocol specification, "Arrays" and "Bulk strings"): the command encoder, the reply
    reader, and the reference encoding of replies that the reader inverts. */
module RespCodec {
  import opened Wrappers

  type byte = x: int | 0 <= x < 256

  const LF: byte := 10
  const CR: byte := 13
  const DOLLAR: byte := 36
  const STAR: byte := 42
  const PLUS: byte := 43
  const MINUS: byte := 45
  const ZERO: byte := 48
  const COLON: byte := 58
  const CRLF: seq<byte> := [CR, LF]

  const MAX_RESP_LINE_BYTES: nat := 64 * 1024
  const MAX_RESP_BULK_BYTES: nat := 32 * 1024 * 1024
  const MAX_RESP_DEPTH: nat := 16
  const INT64_MAX: int := 0x7fff_ffff_ffff_ffff
  const INT64_MIN: int := -0x8000_0000_0000_0000

  datatype RespValue =
    | Simple(text: seq<byte>)
    | Error(message: seq<byte>)
    | Integer(value: int)
    | NullBulk
    | Bulk(bulk: seq<byte>)
    | NullArray
    | Array(items: seq<RespValue>)

  datatype Fault = Short | TooDeep | BadLine | LineTooLong | BadInteger | TooLarge | BadPrefix

  /** A value together with the position just behind it. */
  type Read<T> = Result<(T, nat), Fault>

  // ---------- Reading, as a function of the bytes and a position ----------

  function ReadBytes(data: seq<byte>, pos: nat, length: nat): Read<seq<byte>> {
    if pos + length <= |data| then Success((data[pos..pos + length], pos + length)) else Failure(Short)
  }

  /** The line that starts at `start`, when the bytes before `i` hold no line feed. */
  function LineFrom(data: seq<byte>, start: nat, i: nat): Read<seq<byte>>
    requires start <= i
    decreases |data| - i
  {
    if i >= |data| then Failure(Short)
    else if data[i] == LF then
      if i > start && data[i - 1] == CR then Success((data[start..i - 1], i + 1)) else Failure(BadLine)
    else if i + 1 - start > MAX_RESP_LINE_BYTES then Failure(LineTooLong)
    else LineFrom(data, start, i + 1)
  }

  function ParseLine(data: seq<byte>, pos: nat): Read<seq<byte>> {
    LineFrom(data, pos, pos)
  }

  predicate IsDigit(b: byte) {
    ZERO <= b < ZERO + 10
  }

  predicate AllDigits(s: seq<byte>) {
    forall i :: 0 <= i < |s| ==> IsDigit(s[i])
  }

  function DigitsValue(s: seq<byte>): (n: nat)
    requires AllDigits(s)
  {
    if s == [] then 0 else 10 * DigitsValue(s[..|s| - 1]) + (s[|s| - 1] - ZERO)
  }

  /** `str::parse::<i64>`: an optional sign, at least one digit, and a value that fits. */
  function ParseInt64(s: seq<byte>): Option<int> {
    var digits := if s != [] && (s[0] == PLUS || s[0] == MINUS) then s[1..] else s;
    if digits == [] || !AllDigits(digits) then None
    else
      var magnitude: int := DigitsValue(digits);
      var value := if s[0] == MINUS then -magnitude else magnitude;
      if INT64_MIN <= value <= INT64_MAX then Some(value) else None
  }

  function ParseInteger(data: seq<byte>, pos: nat): Read<int> {
    var (line, next) :- ParseLine(data, pos);
    match ParseInt64(line)
    case None => Failure(BadInteger)
    case Some(value) => Success((value, next))
  }

  function ParseBulk(data: seq<byte>, pos: nat): Read<RespValue> {
    var (length, start) :- ParseInteger(data, pos);
    if length < 0 then Success((NullBulk, start))
    else if length > MAX_RESP_BULK_BYTES then Failure(TooLarge)
    else
      var (value, end) :- ReadBytes(data, start, length);
      var (terminator, next) :- ReadBytes(data, end, 2);
      if terminator != CRLF then Failure(BadLine) else Success((Bulk(value), next))
  }

  function ParseArray(data: seq<byte>, pos: nat, read: nat -> Read<RespValue>): Read<RespValue> {
    var (length, first) :- ParseInteger(data, pos);
    if length < 0 then Success((NullArray, first))
    else if length > MAX_RESP_BULK_BYTES then Failure(TooLarge)
    else
      var (items, next) :- ReadMany(read, first, length);
      Success((Array(items), next))
  }

  function ParseValue(data: seq<byte>, pos: nat, depth: nat): Read<RespValue>
    decreases MAX_RESP_DEPTH + 1 - depth, 0
  {
    if depth > MAX_RESP_DEPTH then Failure(TooDeep)
    else
      var (prefix, start) :- ReadBytes(data, pos, 1);
      if prefix[0] == PLUS then
        var (line, next) :- ParseLine(data, start);
        Success((Simple(line), next))
      else if prefix[0] == MINUS then
        var (line, next) :- ParseLine(data, start);
        Success((RespValue.Error(line), next))
      else if prefix[0] == COLON then
        var (value, next) :- ParseInteger(data, start);
        Success((Integer(value), next))
      else if prefix[0] == DOLLAR then ParseBulk(data, start)
      else if prefix[0] == STAR then ParseArray(data, start, Reader(data, depth + 1))
      else Failure(BadPrefix)
  }

  /** The reader of one value at a depth, as a function of the position alone. */
  function Reader(data: seq<byte>, depth: nat): nat -> Read<RespValue>
    requires depth <= MAX_RESP_DEPTH + 1
    decreases MAX_RESP_DEPTH + 1 - depth, 1
  {
    (pos: nat) => ParseValue(data, pos, depth)
  }

  /** Read `count` values one behind the other. */
  function ReadMany<T>(read: nat -> Read<T>, pos: nat, count: nat): Read<seq<T>> {
    if count == 0 then Success(([], pos))
    else
      var (front, last) :- ReadMany(read, pos, count - 1);
      var (item, next) :- read(last);
      Success((front + [item], next))
  }

  /** The replies to a pipeline of `count` commands. */
  function ParseReplies(data: seq<byte>, pos: nat, count: nat): Read<seq<RespValue>> {
    ReadMany(Reader(data, 0), pos, count)
  }

  // ---------- Writing ----------

  function Decimal(n: nat): seq<byte> {
    if n < 10 then [ZERO + n] else Decimal(n / 10) + [ZERO + n % 10]
  }

  function SignedDecimal(n: int): seq<byte> {
    if n < 0 then [MINUS] + Decimal(-n) else Decimal(n)
  }

  function EncodeArgument(argument: seq<byte>): seq<byte> {
    [DOLLAR] + (Decimal(|argument|) + CRLF) + argument + CRLF
  }

  function Concat(pieces: seq<seq<byte>>): seq<byte> {
    if pieces == [] then [] else Concat(pieces[..|pieces| - 1]) + pieces[|pieces| - 1]
  }

  function EncodeArguments(arguments: seq<seq<byte>>): seq<byte> {
    Concat(seq(|arguments|, i requires 0 <= i < |arguments| => EncodeArgument(arguments[i])))
  }

  function EncodeCommand(arguments: seq<seq<byte>>): seq<byte> {
    [STAR] + (Decimal(|arguments|) + CRLF) + EncodeArguments(arguments)
  }

  function EncodeCommands(commands: seq<seq<seq<byte>>>): seq<byte> {
    Concat(seq(|commands|, i requires 0 <= i < |commands| => EncodeCommand(commands[i])))
  }

  /** A command is, on the wire, an array of bulk strings. */
  function CommandValue(arguments: seq<seq<byte>>): RespValue {
    Array(seq(|arguments|, i requires 0 <= i < |arguments| => Bulk(arguments[i])))
  }

  /** The reference encoding of any reply. */
  function EncodeValue(v: RespValue): seq<byte> {
    match v
    case Simple(text) => [PLUS] + (text + CRLF)
    case Error(message) => [MINUS] + (message + CRLF)
    case Integer(value) => [COLON] + (SignedDecimal(value) + CRLF)
    case NullBulk => [DOLLAR] + ([MINUS, ZERO + 1] + CRLF)
    case Bulk(value) => EncodeArgument(value)
    case NullArray => [STAR] + ([MINUS, ZERO + 1] + CRLF)
    case Array(items) =>
      ArrayHeader(|items|) + Concat(seq(|items|, i requires 0 <= i < |items| => EncodeValue(items[i])))
  }

  function ArrayHeader(length: nat): seq<byte> {
    [STAR] + (Decimal(length) + CRLF)
  }

  predicate LineSafe(text: seq<byte>) {
    |text| < MAX_RESP_LINE_BYTES && LF !in text
  }

  /** The replies the reader's limits admit at a nesting depth. */
  ghost predicate Readable(v: RespValue, depth: nat)
    decreases v
  {
    && depth <= MAX_RESP_DEPTH
    && match v
       case Simple(text) => LineSafe(text)
       case Error(message) => LineSafe(message)
       case Integer(value) => INT64_MIN <= value <= INT64_MAX
       case NullBulk => true
       case Bulk(value) => |value| <= MAX_RESP_BULK_BYTES
       case NullArray => true
       case Array(items) =>
         |items| <= MAX_RESP_BULK_BYTES && forall i :: 0 <= i < |items| ==> Readable(items[i], depth + 1)
  }

  // ---------- Decimal numbers ----------

  lemma {:induction false} DecimalParses(n: nat)
    ensures AllDigits(Decimal(n)) && DigitsValue(Decimal(n)) == n && |Decimal(n)| > 0
  {
    var s := Decimal(n);
    if n < 10 {
      assert s[..0] == [];
    } else {
      DecimalParses(n / 10);
      assert s[..|s| - 1] == Decimal(n / 10);
    }
  }

  lemma {:induction false} DecimalLength(n: nat, bound: nat)
    requires n < Pow10(bound) && bound > 0
    ensures |Decimal(n)| <= bound
  {
    if n >= 10 {
      assert bound > 1;
      DecimalLength(n / 10, bound - 1);
    }
  }

  function Pow10(n: nat): nat {
    if n == 0 then 1 else 10 * Pow10(n - 1)
  }

  lemma SignedDecimalParses(n: int)
    requires INT64_MIN <= n <= INT64_MAX
    ensures ParseInt64(SignedDecimal(n)) == Some(n) && LineSafe(SignedDecimal(n))
  {
    var m := if n < 0 then -n else n;
    DecimalParses(m);
    assert Pow10(10) == 100_0000_0000;
    assert Pow10(20) == 100_0000_0000 * 100_0000_0000 by {
      assert Pow10(15) == 100_000 * Pow10(10);
      assert Pow10(20) == 100_000 * Pow10(15);
    }
    DecimalLength(m, 20);
    if n < 0 {
      assert SignedDecimal(n)[1..] == Decimal(m);
    }
  }

  // ---------- Round trip ----------

  /** The position behind `piece` when it stands at `pos`. */
  function End(pos: nat, piece: seq<byte>): nat {
    pos + |piece|
  }

  /** `piece` stands in `data` at `pos`. */
  predicate At(data: seq<byte>, pos: nat, piece: seq<byte>) {
    pos + |piece| <= |data| && data[pos..pos + |piece|] == piece
  }

  lemma AtSplit(data: seq<byte>, pos: nat, a: seq<byte>, b: seq<byte>)
    ensures At(data, pos, a + b) <==> At(data, pos, a) && At(data, pos + |a|, b)
  {
    if At(data, pos, a + b) {
      assert data[pos..pos + |a|] == data[pos..pos + |a + b|][..|a|] == a;
      assert data[pos + |a|..pos + |a| + |b|] == data[pos..pos + |a + b|][|a|..] == b;
    }
    if At(data, pos, a) && At(data, pos + |a|, b) {
      assert data[pos..pos + |a + b|] == data[pos..pos + |a|] + data[pos + |a|..pos + |a| + |b|];
    }
  }

  lemma {:induction false} LineReads(data: seq<byte>, start: nat, i: nat, text: seq<byte>)
    requires LineSafe(text) && At(data, start, text + CRLF)
    requires start <= i <= start + |text| + 1
    ensures LineFrom(data, start, i) == Success((text, End(start, text + CRLF)))
    decreases start + |text| + 1 - i
  {
    var whole := text + CRLF;
    assert forall k :: 0 <= k < |whole| ==> data[start + k] == data[start..start + |whole|][k] == whole[k];
    if i < start + |text| + 1 {
      assert data[i] == whole[i - start];
      if i < start + |text| {
        assert whole[i - start] == text[i - start];
        assert text[i - start] in text;
      }
      LineReads(data, start, i + 1, text);
    } else {
      assert data[i] == whole[|text| + 1] == LF;
      assert data[i - 1] == whole[|text|] == CR;
      assert data[start..i - 1] == data[start..start + |whole|][..|text|] == whole[..|text|] == text;
    }
  }

  lemma IntegerReads(data: seq<byte>, pos: nat, n: int)
    requires INT64_MIN <= n <= INT64_MAX && At(data, pos, SignedDecimal(n) + CRLF)
    ensures ParseInteger(data, pos) == Success((n, End(pos, SignedDecimal(n) + CRLF)))
  {
    SignedDecimalParses(n);
    LineReads(data, pos, pos, SignedDecimal(n));
  }

  lemma BulkReads(data: seq<byte>, pos: nat, value: seq<byte>, depth: nat)
    requires |value| <= MAX_RESP_BULK_BYTES && depth <= MAX_RESP_DEPTH && At(data, pos, EncodeArgument(value))
    ensures ParseValue(data, pos, depth) == Success((Bulk(value), End(pos, EncodeArgument(value))))
  {
    var header := Decimal(|value|) + CRLF;
    AtSplit(data, pos, [DOLLAR] + header + value, CRLF);
    AtSplit(data, pos, [DOLLAR] + header, value);
    AtSplit(data, pos, [DOLLAR], header);
    assert data[pos] == data[pos..pos + 1][0];
    IntegerReads(data, pos + 1, |value|);
    BulkBodyReads(data, pos + 1, End(pos, [DOLLAR] + header), value);
  }

  lemma BulkBodyReads(data: seq<byte>, pos: nat, start: nat, value: seq<byte>)
    requires |value| <= MAX_RESP_BULK_BYTES && ParseInteger(data, pos) == Success((|value|, start))
    requires At(data, start, value) && At(data, start + |value|, CRLF)
    ensures ParseBulk(data, pos) == Success((Bulk(value), start + |value| + 2))
  {
    assert ReadBytes(data, start, |value|) == Success((value, start + |value|));
    assert ReadBytes(data, start + |value|, 2) == Success((CRLF, start + |value| + 2));
  }

  /** A prefix byte followed by a line. */
  lemma PrefixedAt(data: seq<byte>, pos: nat, prefix: byte, line: seq<byte>)
    requires At(data, pos, [prefix] + line)
    ensures ReadBytes(data, pos, 1) == Success(([prefix], pos + 1)) && At(data, pos + 1, line)
  {
    AtSplit(data, pos, [prefix], line);
  }

  lemma SimpleReads(data: seq<byte>, pos: nat, v: RespValue, text: seq<byte>, depth: nat)
    requires depth <= MAX_RESP_DEPTH && LineSafe(text)
    requires v == Simple(text) || v == RespValue.Error(text)
    requires At(data, pos, EncodeValue(v))
    ensures ParseValue(data, pos, depth) == Success((v, End(pos, EncodeValue(v))))
  {
    PrefixedAt(data, pos, if v.Simple? then PLUS else MINUS, text + CRLF);
    LineReads(data, pos + 1, pos + 1, text);
  }

  lemma NumberReads(data: seq<byte>, pos: nat, prefix: byte, n: int)
    requires INT64_MIN <= n <= INT64_MAX && At(data, pos, [prefix] + (SignedDecimal(n) + CRLF))
    ensures ReadBytes(data, pos, 1) == Success(([prefix], pos + 1))
    ensures ParseInteger(data, pos + 1) == Success((n, End(pos + 1, SignedDecimal(n) + CRLF)))
  {
    PrefixedAt(data, pos, prefix, SignedDecimal(n) + CRLF);
    IntegerReads(data, pos + 1, n);
  }

  /** Whatever surrounds it, the reader returns exactly the reply that was encoded and stops exactly behind it. */
  lemma {:induction false} ValueRoundTrips(data: seq<byte>, pos: nat, v: RespValue, depth: nat)
    requires Readable(v, depth) && At(data, pos, EncodeValue(v))
    ensures ParseValue(data, pos, depth) == Success((v, End(pos, EncodeValue(v))))
    decreases v, 2
  {
    match v
    case Simple(text) => SimpleReads(data, pos, v, text, depth);
    case Error(message) => SimpleReads(data, pos, v, message, depth);
    case Integer(value) => NumberReads(data, pos, COLON, value);
    case Bulk(value) => BulkReads(data, pos, value, depth);
    case NullBulk => NullReads(data, pos, v, depth);
    case NullArray => NullReads(data, pos, v, depth);
    case Array(items) => ArrayRoundTrips(data, pos, v, depth);
  }

  lemma {:induction false} PieceRoundTrips(data: seq<byte>, v: RespValue, depth: nat)
    requires depth <= MAX_RESP_DEPTH + 1 && Readable(v, depth)
    ensures PieceReads(data, Reader(data, depth), v, EncodeValue(v))
    decreases v, 3
  {
    forall p: nat | At(data, p, EncodeValue(v))
      ensures Reader(data, depth)(p) == Success((v, End(p, EncodeValue(v))))
    {
      ReaderIs(data, depth, p);
      ValueRoundTrips(data, p, v, depth);
    }
  }

  lemma {:induction false} ArrayRoundTrips(data: seq<byte>, pos: nat, v: RespValue, depth: nat)
    requires v.Array? && Readable(v, depth) && At(data, pos, EncodeValue(v))
    ensures ParseValue(data, pos, depth) == Success((v, End(pos, EncodeValue(v))))
    decreases v, 1
  {
    var items := v.items;
    var pieces := ArrayPieces(v);
    AtSplit(data, pos, ArrayHeader(|items|), Concat(pieces));
    ItemsRoundTrip(data, End(pos, ArrayHeader(|items|)), v, pieces, depth + 1);
    ArrayReads(data, pos, items, depth, End(pos, EncodeValue(v)));
  }

  lemma ArrayPieces(v: RespValue) returns (pieces: seq<seq<byte>>)
    requires v.Array?
    ensures EncodeValue(v) == ArrayHeader(|v.items|) + Concat(pieces) && |pieces| == |v.items|
    ensures forall i :: 0 <= i < |pieces| ==> pieces[i] == EncodeValue(v.items[i])
  {
    pieces := seq(|v.items|, i requires 0 <= i < |v.items| => EncodeValue(v.items[i]));
  }

  lemma {:induction false} ItemsRoundTrip(data: seq<byte>, pos: nat, v: RespValue, pieces: seq<seq<byte>>, depth: nat)
    requires v.Array? && depth <= MAX_RESP_DEPTH + 1 && At(data, pos, Concat(pieces)) && |pieces| == |v.items|
    requires forall i :: 0 <= i < |pieces| ==> Readable(v.items[i], depth) && pieces[i] == EncodeValue(v.items[i])
    ensures ReadMany(Reader(data, depth), pos, |v.items|) == Success((v.items, End(pos, Concat(pieces))))
    decreases v, 0
  {
    var read := Reader(data, depth);
    forall i | 0 <= i < |pieces|
      ensures PieceReads(data, read, v.items[i], pieces[i])
    {
      PieceRoundTrips(data, v.items[i], depth);
    }
    ReadsConcat(data, read, pos, v.items, pieces);
  }

  lemma HeaderReads(data: seq<byte>, pos: nat, n: nat)
    requires n <= MAX_RESP_BULK_BYTES && At(data, pos, ArrayHeader(n))
    ensures ReadBytes(data, pos, 1) == Success(([STAR], pos + 1))
    ensures ParseInteger(data, pos + 1) == Success((n, End(pos, ArrayHeader(n))))
  {
    NumberReads(data, pos, STAR, n);
    assert End(pos + 1, SignedDecimal(n) + CRLF) == End(pos, ArrayHeader(n));
  }

  lemma StarReads(data: seq<byte>, pos: nat, depth: nat)
    requires depth <= MAX_RESP_DEPTH && ReadBytes(data, pos, 1) == Success(([STAR], pos + 1))
    ensures ParseValue(data, pos, depth) == ParseArray(data, pos + 1, Reader(data, depth + 1))
  {
  }

  lemma ItemsRead(data: seq<byte>, pos: nat, read: nat -> Read<RespValue>, items: seq<RespValue>, first: nat, next: nat)
    requires |items| <= MAX_RESP_BULK_BYTES && ParseInteger(data, pos) == Success((|items|, first))
    requires ReadMany(read, first, |items|) == Success((items, next))
    ensures ParseArray(data, pos, read) == Success((Array(items), next))
  {
  }

  lemma ArrayReads(data: seq<byte>, pos: nat, items: seq<RespValue>, depth: nat, next: nat)
    requires depth <= MAX_RESP_DEPTH && |items| <= MAX_RESP_BULK_BYTES && At(data, pos, ArrayHeader(|items|))
    requires ReadMany(Reader(data, depth + 1), End(pos, ArrayHeader(|items|)), |items|) == Success((items, next))
    ensures ParseValue(data, pos, depth) == Success((Array(items), next))
  {
    HeaderReads(data, pos, |items|);
    StarReads(data, pos, depth);
    ItemsRead(data, pos + 1, Reader(data, depth + 1), items, End(pos, ArrayHeader(|items|)), next);
  }

  /** Wherever it stands, piece `i` reads as item `i`. */
  ghost predicate PieceReads<T>(data: seq<byte>, read: nat -> Read<T>, item: T, piece: seq<byte>) {
    forall p: nat :: At(data, p, piece) ==> read(p) == Success((item, End(p, piece)))
  }

  /** Pieces that each read as one item read, one behind the other, as the sequence of items. */
  lemma {:induction false} ReadsConcat<T>(data: seq<byte>, read: nat -> Read<T>, pos: nat, items: seq<T>,
                                          pieces: seq<seq<byte>>)
    requires |items| == |pieces| && At(data, pos, Concat(pieces))
    requires forall i :: 0 <= i < |items| ==> PieceReads(data, read, items[i], pieces[i])
    ensures ReadMany(read, pos, |items|) == Success((items, End(pos, Concat(pieces))))
  {
    if items != [] {
      var n := |items| - 1;
      var front := Concat(pieces[..n]);
      assert Concat(pieces) == front + pieces[n];
      AtSplit(data, pos, front, pieces[n]);
      ReadsConcat(data, read, pos, items[..n], pieces[..n]);
      assert PieceReads(data, read, items[n], pieces[n]);
      assert items[..n] + [items[n]] == items;
    }
  }

  lemma NullReads(data: seq<byte>, pos: nat, v: RespValue, depth: nat)
    requires depth <= MAX_RESP_DEPTH && (v.NullBulk? || v.NullArray?) && At(data, pos, EncodeValue(v))
    ensures ParseValue(data, pos, depth) == Success((v, End(pos, EncodeValue(v))))
  {
    assert SignedDecimal(-1) == [MINUS, ZERO + 1];
    NumberReads(data, pos, if v.NullBulk? then DOLLAR else STAR, -1);
  }

  /** A command is read back as the array of its arguments. */
  lemma CommandIsValue(arguments: seq<seq<byte>>)
    ensures EncodeCommand(arguments) == EncodeValue(CommandValue(arguments))
  {
    var v := CommandValue(arguments);
    assert seq(|v.items|, i requires 0 <= i < |v.items| => EncodeValue(v.items[i])) ==
           seq(|arguments|, i requires 0 <= i < |arguments| => EncodeArgument(arguments[i]));
  }

  // ---------- Consumption, extension and truncation ----------

  /** The two streams hold the same first `n` bytes. */
  predicate Agree(a: seq<byte>, b: seq<byte>, n: nat) {
    n <= |a| && n <= |b| && a[..n] == b[..n]
  }

  /** `r` read from `data` only looks at the bytes it consumes, and reports a short stream when any of them is
      missing: `other` is what the same read returns on another stream. */
  predicate Local<T(==)>(data: seq<byte>, pos: nat, r: Read<T>, stream: seq<byte>, other: Read<T>) {
    r.Success? ==>
      && pos <= r.value.1 <= |data|
      && (Agree(data, stream, r.value.1) ==> other == r)
      && (|stream| < r.value.1 && stream <= data ==> other == Failure(Short))
  }

  lemma AgreeAt(a: seq<byte>, b: seq<byte>, n: nat, lo: nat, hi: nat)
    requires Agree(a, b, n) && lo <= hi <= n
    ensures a[lo..hi] == b[lo..hi]
  {
    assert a[lo..hi] == a[..n][lo..hi];
    assert b[lo..hi] == b[..n][lo..hi];
  }

  lemma BytesLocal(data: seq<byte>, stream: seq<byte>, pos: nat, length: nat)
    ensures Local(data, pos, ReadBytes(data, pos, length), stream, ReadBytes(stream, pos, length))
  {
    var r := ReadBytes(data, pos, length);
    if r.Success? && Agree(data, stream, r.value.1) {
      AgreeAt(data, stream, r.value.1, pos, pos + length);
    }
  }

  lemma {:induction false} LineLocal(data: seq<byte>, stream: seq<byte>, start: nat, i: nat)
    requires start <= i
    ensures Local(data, i, LineFrom(data, start, i), stream, LineFrom(stream, start, i))
    ensures LineFrom(data, start, i).Success? ==> i < LineFrom(data, start, i).value.1
    decreases |data| - i
  {
    var r := LineFrom(data, start, i);
    if r.Success? {
      var n := r.value.1;
      if data[i] != LF {
        LineLocal(data, stream, start, i + 1);
      }
      if i < |stream| && (Agree(data, stream, n) || stream <= data) {
        assert stream[i] == data[i] by {
          if Agree(data, stream, n) {
            assert data[i] == data[..n][i] == stream[..n][i];
          }
        }
        if data[i] == LF {
          assert i > start ==> stream[i - 1] == data[i - 1] by {
            if i > start && Agree(data, stream, n) {
              assert data[i - 1] == data[..n][i - 1] == stream[..n][i - 1];
            }
          }
          if Agree(data, stream, n) {
            AgreeAt(data, stream, n, start, i - 1);
          }
        }
      }
    }
  }

  lemma IntegerLocal(data: seq<byte>, stream: seq<byte>, pos: nat)
    ensures Local(data, pos, ParseInteger(data, pos), stream, ParseInteger(stream, pos))
    ensures ParseInteger(data, pos).Success? ==> pos < ParseInteger(data, pos).value.1
  {
    LineLocal(data, stream, pos, pos);
  }

  /** `stream` either repeats everything `data` held before `n`, or is a cut of `data`; either way an earlier bound
      `m` may be used instead. */
  lemma AgreeShorter(data: seq<byte>, stream: seq<byte>, m: nat, n: nat)
    requires m <= n <= |data|
    requires Agree(data, stream, n) || (stream <= data && m <= |stream|)
    ensures Agree(data, stream, m)
  {
    if Agree(data, stream, n) {
      AgreeAt(data, stream, n, 0, m);
    }
  }

  lemma BulkLocal(data: seq<byte>, stream: seq<byte>, pos: nat)
    ensures Local(data, pos, ParseBulk(data, pos), stream, ParseBulk(stream, pos))
  {
    var r := ParseBulk(data, pos);
    if r.Success? {
      IntegerLocal(data, stream, pos);
      var (length, start) := ParseInteger(data, pos).value;
      if length >= 0 {
        BytesLocal(data, stream, start, length);
        BytesLocal(data, stream, start + length, 2);
        if Agree(data, stream, r.value.1) {
          AgreeShorter(data, stream, start, r.value.1);
          AgreeShorter(data, stream, start + length, r.value.1);
        } else if |stream| < r.value.1 && stream <= data && start <= |stream| {
          AgreeShorter(data, stream, start, r.value.1);
          if start + length <= |stream| {
            AgreeShorter(data, stream, start + length, r.value.1);
          }
        }
      }
    }
  }

  lemma ScalarLocal(data: seq<byte>, stream: seq<byte>, pos: nat, depth: nat)
    requires pos < |data| && data[pos] != STAR
    ensures Local(data, pos, ParseValue(data, pos, depth), stream, ParseValue(stream, pos, depth))
  {
    var r := ParseValue(data, pos, depth);
    if r.Success? {
      BytesLocal(data, stream, pos, 1);
      LineLocal(data, stream, pos + 1, pos + 1);
      IntegerLocal(data, stream, pos + 1);
      BulkLocal(data, stream, pos + 1);
      if Agree(data, stream, r.value.1) || (stream <= data && pos + 1 <= |stream|) {
        AgreeShorter(data, stream, pos + 1, r.value.1);
      }
    }
  }

  lemma ReaderIs(data: seq<byte>, depth: nat, pos: nat)
    requires depth <= MAX_RESP_DEPTH + 1
    ensures Reader(data, depth)(pos) == ParseValue(data, pos, depth)
  {
  }

  /** The reader consumes exactly the bytes of one reply: what follows does not matter, and no cut is accepted. */
  lemma {:induction false} ValueLocal(data: seq<byte>, stream: seq<byte>, pos: nat, depth: nat)
    ensures Local(data, pos, ParseValue(data, pos, depth), stream, ParseValue(stream, pos, depth))
    decreases MAX_RESP_DEPTH + 1 - depth
  {
    if pos < |data| && depth <= MAX_RESP_DEPTH {
      if data[pos] != STAR {
        ScalarLocal(data, stream, pos, depth);
      } else {
        var read, other := Reader(data, depth + 1), Reader(stream, depth + 1);
        forall p: nat
          ensures Local(data, p, read(p), stream, other(p)) && Local(data, p, read(p), data, read(p))
        {
          ReaderIs(data, depth + 1, p);
          ReaderIs(stream, depth + 1, p);
          ValueLocal(data, stream, p, depth + 1);
          ValueLocal(data, data, p, depth + 1);
        }
        ArrayLocal(data, stream, pos + 1, read, other);
        BytesLocal(data, stream, pos, 1);
        var r := ParseArray(data, pos + 1, read);
        if r.Success? && (Agree(data, stream, r.value.1) || (stream <= data && pos + 1 <= |stream|)) {
          AgreeShorter(data, stream, pos + 1, r.value.1);
        }
      }
    }
  }

  lemma ArrayLocal(data: seq<byte>, stream: seq<byte>, pos: nat, read: nat -> Read<RespValue>,
                   other: nat -> Read<RespValue>)
    requires forall p :: Local(data, p, read(p), stream, other(p))
    requires forall p :: Local(data, p, read(p), data, read(p))
    ensures Local(data, pos, ParseArray(data, pos, read), stream, ParseArray(stream, pos, other))
  {
    IntegerLocal(data, stream, pos);
    var r := ParseArray(data, pos, read);
    if r.Success? && ParseInteger(data, pos).value.0 >= 0 {
      var (length, first) := ParseInteger(data, pos).value;
      if first <= |stream| {
        ManyLocal(data, stream, read, other, first, length);
      } else {
        ManyLocal(data, data, read, read, first, length);
      }
      if Agree(data, stream, r.value.1) || (stream <= data && first <= |stream|) {
        AgreeShorter(data, stream, first, r.value.1);
      }
    }
  }

  lemma {:induction false} ManyLocal<T>(data: seq<byte>, stream: seq<byte>, read: nat -> Read<T>, other: nat -> Read<T>,
                                        pos: nat, count: nat)
    requires pos <= |data| && pos <= |stream|
    requires forall p :: Local(data, p, read(p), stream, other(p))
    ensures Local(data, pos, ReadMany(read, pos, count), stream, ReadMany(other, pos, count))
  {
    if count > 0 {
      var r := ReadMany(read, pos, count);
      if r.Success? {
        ManyLocal(data, stream, read, other, pos, count - 1);
        var last := ReadMany(read, pos, count - 1).value.1;
        assert Local(data, last, read(last), stream, other(last));
        if Agree(data, stream, r.value.1) || (stream <= data && last <= |stream|) {
          AgreeShorter(data, stream, last, r.value.1);
        }
      }
    }
  }

  // ---------- Main results ----------

  /** A command the limits admit. */
  predicate Sendable(arguments: seq<seq<byte>>) {
    |arguments| <= MAX_RESP_BULK_BYTES && forall i :: 0 <= i < |arguments| ==> |arguments[i]| <= MAX_RESP_BULK_BYTES
  }

  function CommandValues(commands: seq<seq<seq<byte>>>): seq<RespValue> {
    seq(|commands|, i requires 0 <= i < |commands| => CommandValue(commands[i]))
  }

  function EncodeReplies(replies: seq<RespValue>): seq<byte> {
    Concat(seq(|replies|, i requires 0 <= i < |replies| => EncodeValue(replies[i])))
  }

  /** Whatever follows, a pipeline of replies is read back reply by reply, in order, up to its last byte. */
  lemma RepliesRoundTrip(replies: seq<RespValue>, tail: seq<byte>)
    requires forall i :: 0 <= i < |replies| ==> Readable(replies[i], 0)
    ensures ParseReplies(EncodeReplies(replies) + tail, 0, |replies|) ==
            Success((replies, End(0, EncodeReplies(replies))))
  {
    var data := EncodeReplies(replies) + tail;
    var pieces := seq(|replies|, i requires 0 <= i < |replies| => EncodeValue(replies[i]));
    forall i | 0 <= i < |replies|
      ensures PieceReads(data, Reader(data, 0), replies[i], pieces[i])
    {
      forall p: nat | At(data, p, pieces[i])
        ensures Reader(data, 0)(p) == Success((replies[i], End(p, pieces[i])))
      {
        ReaderIs(data, 0, p);
        ValueRoundTrips(data, p, replies[i], 0);
      }
    }
    assert data[0..0 + |Concat(pieces)|] == Concat(pieces);
    ReadsConcat(data, Reader(data, 0), 0, replies, pieces);
  }

  /** Reading the concatenated encodings of any commands returns exactly those commands, in order, and stops exactly
      behind them, whatever follows. */
  lemma PipelineRoundTrips(commands: seq<seq<seq<byte>>>, tail: seq<byte>)
    requires forall i :: 0 <= i < |commands| ==> Sendable(commands[i])
    ensures ParseReplies(EncodeCommands(commands) + tail, 0, |commands|) ==
            Success((CommandValues(commands), End(0, EncodeCommands(commands))))
  {
    var values := CommandValues(commands);
    forall i | 0 <= i < |commands|
      ensures EncodeCommand(commands[i]) == EncodeValue(values[i]) && Readable(values[i], 0)
    {
      CommandIsValue(commands[i]);
    }
    assert seq(|commands|, i requires 0 <= i < |commands| => EncodeCommand(commands[i])) ==
           seq(|values|, i requires 0 <= i < |values| => EncodeValue(values[i]));
    RepliesRoundTrip(values, tail);
  }

  /** No strict prefix of what a pipeline sends is accepted: the reader reports a short stream. */
  lemma PipelineIsPrefixFree(commands: seq<seq<seq<byte>>>, cut: nat)
    requires forall i :: 0 <= i < |commands| ==> Sendable(commands[i])
    requires cut < |EncodeCommands(commands)|
    ensures ParseReplies(EncodeCommands(commands)[..cut], 0, |commands|) == Failure(Short)
  {
    var data := EncodeCommands(commands);
    PipelineRoundTrips(commands, []);
    assert data + [] == data;
    var stream := data[..cut];
    forall p: nat
      ensures Local(data, p, Reader(data, 0)(p), stream, Reader(stream, 0)(p))
    {
      ValueLocal(data, stream, p, 0);
    }
    ManyLocal(data, stream, Reader(data, 0), Reader(stream, 0), 0, |commands|);
  }

  /** Any accepted reply is prefix-free too, and reads the same with anything behind it. */
  lemma AcceptedReplyIsExact(data: seq<byte>, v: RespValue, next: nat, cut: nat, tail: seq<byte>)
    requires ParseValue(data, 0, 0) == Success((v, next))
    ensures next <= |data| && ParseValue(data[..next] + tail, 0, 0) == Success((v, next))
    ensures cut < next ==> ParseValue(data[..cut], 0, 0) == Failure(Short)
  {
    ValueLocal(data, data, 0, 0);
    ValueLocal(data, data[..next] + tail, 0, 0);
    assert (data[..next] + tail)[..next] == data[..next];
    if cut < next {
      ValueLocal(data, data[..cut], 0, 0);
    }
  }

  /** Nesting beyond the bound is refused, whatever the bytes are. */
  function Nesting(v: RespValue): nat {
    if v.Array? then 1 + MaxNesting(v.items) else 0
  }

  function MaxNesting(items: seq<RespValue>): nat {
    if items == [] then 0
    else
      var rest, last := MaxNesting(items[..|items| - 1]), Nesting(items[|items| - 1]);
      if rest > last then rest else last
  }

  lemma {:induction false} NestingBounded(data: seq<byte>, pos: nat, depth: nat)
    requires ParseValue(data, pos, depth).Success?
    ensures depth + Nesting(ParseValue(data, pos, depth).value.0) <= MAX_RESP_DEPTH + 1
    decreases MAX_RESP_DEPTH + 1 - depth
  {
    var v := ParseValue(data, pos, depth).value.0;
    if v.Array? {
      var (length, first) := ParseInteger(data, pos + 1).value;
      var read := Reader(data, depth + 1);
      forall p: nat | read(p).Success?
        ensures Nesting(read(p).value.0) <= MAX_RESP_DEPTH - depth
      {
        NestingBounded(data, p, depth + 1);
      }
      ItemsNesting(read, first, length, MAX_RESP_DEPTH + 1 - depth);
    }
  }

  lemma {:induction false} ItemsNesting(read: nat -> Read<RespValue>, pos: nat, count: nat, bound: nat)
    requires ReadMany(read, pos, count).Success? && bound > 0
    requires forall p: nat :: read(p).Success? ==> Nesting(read(p).value.0) < bound
    ensures MaxNesting(ReadMany(read, pos, count).value.0) < bound
  {
    if count > 0 {
      ItemsNesting(read, pos, count - 1, bound);
      var items := ReadMany(read, pos, count).value.0;
      assert items[..|items| - 1] == ReadMany(read, pos, count - 1).value.0;
    }
  }

  // ---------- The connection: a mutable stream ----------

  /** A method's answer, and the position it leaves the stream at, are those of the specification. */
  predicate Matches<T(==)>(r: Result<T, Fault>, pos: nat, spec: Read<T>) {
    match r
    case Success(value) => spec == Success((value, pos))
    case Failure(fault) => spec == Failure(fault)
  }

  /** The bytes the server sends and how far the client has read them. */
  class ByteStream {
    const data: seq<byte>
    var pos: nat

    constructor (data: seq<byte>)
      ensures this.data == data && pos == 0
    {
      this.data, pos := data, 0;
    }

    method ReadExact(length: nat) returns (r: Result<seq<byte>, Fault>)
      modifies this
      ensures Matches(r, pos, ReadBytes(data, old(pos), length))
    {
      if pos + length > |data| {
        return Failure(Short);
      }
      r := Success(data[pos..pos + length]);
      pos := pos + length;
    }

    /** Byte by byte up to the line feed, which a carriage return must precede. */
    method ReadLine() returns (r: Result<seq<byte>, Fault>)
      modifies this
      ensures Matches(r, pos, ParseLine(data, old(pos)))
    {
      var line: seq<byte> := [];
      while true
        invariant pos == old(pos) + |line|
        invariant old(pos) <= |data| ==> pos <= |data| && line == data[old(pos)..pos]
        invariant old(pos) > |data| ==> line == []
        invariant ParseLine(data, old(pos)) == LineFrom(data, old(pos), pos)
        decreases |data| - pos
      {
        var next :- ReadExact(1);
        if next[0] == LF {
          if line == [] || line[|line| - 1] != CR {
            return Failure(BadLine);
          }
          assert data[pos - 2] == line[|line| - 1];
          assert line[..|line| - 1] == data[old(pos)..pos - 2];
          return Success(line[..|line| - 1]);
        }
        line := line + next;
        if |line| > MAX_RESP_LINE_BYTES {
          return Failure(LineTooLong);
        }
      }
    }

    method ReadInteger() returns (r: Result<int, Fault>)
      modifies this
      ensures Matches(r, pos, ParseInteger(data, old(pos)))
    {
      var line :- ReadLine();
      match ParseInt64(line)
      case None => return Failure(BadInteger);
      case Some(value) => return Success(value);
    }

    method ReadBulk() returns (r: Result<RespValue, Fault>)
      modifies this
      ensures Matches(r, pos, ParseBulk(data, old(pos)))
    {
      var length :- ReadInteger();
      if length < 0 {
        return Success(NullBulk);
      }
      if length > MAX_RESP_BULK_BYTES {
        return Failure(TooLarge);
      }
      var value :- ReadExact(length);
      var terminator :- ReadExact(2);
      if terminator != CRLF {
        return Failure(BadLine);
      }
      return Success(Bulk(value));
    }

    /** One reply; an array reads its items through the same method, one level deeper. */
    method ReadResp(depth: nat) returns (r: Result<RespValue, Fault>)
      modifies this
      ensures Matches(r, pos, ParseValue(data, old(pos), depth))
      decreases MAX_RESP_DEPTH + 1 - depth
    {
      if depth > MAX_RESP_DEPTH {
        return Failure(TooDeep);
      }
      var prefix :- ReadExact(1);
      if prefix[0] == PLUS {
        var line :- ReadLine();
        return Success(Simple(line));
      } else if prefix[0] == MINUS {
        var line :- ReadLine();
        return Success(RespValue.Error(line));
      } else if prefix[0] == COLON {
        var value :- ReadInteger();
        return Success(Integer(value));
      } else if prefix[0] == DOLLAR {
        r := ReadBulk();
      } else if prefix[0] == STAR {
        r := ReadArray(depth);
      } else {
        return Failure(BadPrefix);
      }
    }

    method ReadArray(depth: nat) returns (r: Result<RespValue, Fault>)
      requires depth <= MAX_RESP_DEPTH
      modifies this
      ensures Matches(r, pos, ParseArray(data, old(pos), Reader(data, depth + 1)))
      decreases MAX_RESP_DEPTH + 1 - depth, 0
    {
      var length :- ReadInteger();
      if length < 0 {
        return Success(NullArray);
      }
      if length > MAX_RESP_BULK_BYTES {
        return Failure(TooLarge);
      }
      ghost var first, read := pos, Reader(data, depth + 1);
      var values: seq<RespValue> := [];
      for i := 0 to length
        invariant ReadMany(read, first, i) == Success((values, pos))
      {
        ManyStops(read, first, i + 1, length);
        var value :- ReadResp(depth + 1);
        values := values + [value];
      }
      return Success(Array(values));
    }

    /** Replies arrive in the order of the commands that were pipelined. */
    method ReadReplies(count: nat) returns (r: Result<seq<RespValue>, Fault>)
      modifies this
      ensures Matches(r, pos, ParseReplies(data, old(pos), count))
    {
      ghost var first, read := pos, Reader(data, 0);
      var responses: seq<RespValue> := [];
      for i := 0 to count
        invariant ReadMany(read, first, i) == Success((responses, pos))
      {
        ManyStops(read, first, i + 1, count);
        var response :- ReadResp(0);
        responses := responses + [response];
      }
      return Success(responses);
    }
  }

  /** Once one item fails, the whole sequence fails the same way. */
  lemma {:induction false} ManyStops<T>(read: nat -> Read<T>, pos: nat, some: nat, all: nat)
    requires some <= all
    ensures ReadMany(read, pos, some).Failure? ==>
      ReadMany(read, pos, all) == Failure(ReadMany(read, pos, some).error)
  {
    if some < all {
      ManyStops(read, pos, some, all - 1);
    }
  }

  /** `encode_command`: appends one command to the request buffer. */
  method AppendCommand(arguments: seq<seq<byte>>, request: seq<byte>) returns (r: seq<byte>)
    ensures r == request + EncodeCommand(arguments)
  {
    r := request + [STAR] + (Decimal(|arguments|) + CRLF);
    ghost var header := r;
    ghost var pieces := seq(|arguments|, i requires 0 <= i < |arguments| => EncodeArgument(arguments[i]));
    for i := 0 to |arguments|
      invariant r == header + Concat(pieces[..i])
    {
      r := r + [DOLLAR];
      r := r + (Decimal(|arguments[i]|) + CRLF);
      r := r + arguments[i];
      r := r + CRLF;
      assert pieces[..i + 1][..i] == pieces[..i];
      assert r == header + (Concat(pieces[..i]) + pieces[i]);
    }
    assert pieces[..|arguments|] == pieces;
    assert r == request + ([STAR] + (Decimal(|arguments|) + CRLF) + Concat(pieces));
  }

  /** The one write that sends a whole pipeline. */
  method EncodePipeline(commands: seq<seq<seq<byte>>>) returns (request: seq<byte>)
    ensures request == EncodeCommands(commands)
  {
    request := [];
    ghost var pieces := seq(|commands|, i requires 0 <= i < |commands| => EncodeCommand(commands[i]));
    for i := 0 to |commands|
      invariant request == Concat(pieces[..i])
    {
      request := AppendCommand(commands[i], request);
      assert pieces[..i + 1][..i] == pieces[..i];
    }
    assert pieces[..|commands|] == pieces;
  }
}
