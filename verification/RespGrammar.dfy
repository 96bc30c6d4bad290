/** RESP2 replies and commands as octets: what each sequence of octets means, written in numbers, and the fact that the
    reader accepts exactly those sequences with exactly those meanings. */
module RespGrammar {
  import opened Wrappers
  import opened RespCodec

  /** The text of a line: free of line feeds, and at most 64 KiB together with its carriage return. */
  predicate LineText(text: seq<byte>) {
    |text| < 65_536 && 10 !in text
  }

  function Line(prefix: byte, text: seq<byte>): seq<byte> {
    [prefix] + (text + [13, 10])
  }

  predicate Digits(text: seq<byte>) {
    text != [] && forall i :: 0 <= i < |text| ==> 48 <= text[i] <= 57
  }

  /** What ASCII digits mean in base ten. */
  function Base10(digits: seq<byte>): int {
    if digits == [] then 0 else 10 * Base10(digits[..|digits| - 1]) + digits[|digits| - 1] - 48
  }

  /** An optional sign and digits that denote a 64-bit number. */
  predicate Number(text: seq<byte>, n: int) {
    var digits := if text != [] && (text[0] == 43 || text[0] == 45) then text[1..] else text;
    && LineText(text) && Digits(digits)
    && n == (if text[0] == 45 then -Base10(digits) else Base10(digits))
    && -9_223_372_036_854_775_808 <= n <= 9_223_372_036_854_775_807
  }

  /** A prefix and the decimal of a number, on one line. */
  ghost predicate NumberLine(octets: seq<byte>, prefix: byte, n: int) {
    exists digits :: Number(digits, n) && octets == Line(prefix, digits)
  }

  /** The octets are a reply, and this is what it says. Arrays nest at most 16 deep below the outermost value, and
      neither a bulk string nor an array is longer than 32 MiB. */
  ghost predicate Denotes(octets: seq<byte>, v: RespValue, depth: nat)
    decreases v, 1
  {
    && depth <= 16
    && match v
       case Simple(text) => LineText(text) && octets == Line(43, text)
       case Error(message) => LineText(message) && octets == Line(45, message)
       case Integer(value) => NumberLine(octets, 58, value)
       case NullBulk => exists n :: n < 0 && NumberLine(octets, 36, n)
       case Bulk(value) =>
         |value| <= 33_554_432 &&
         exists head :: NumberLine(head, 36, |value|) && octets == head + (value + [13, 10])
       case NullArray => exists n :: n < 0 && NumberLine(octets, 42, n)
       case Array(items) =>
         |items| <= 33_554_432 &&
         exists head, pieces ::
           NumberLine(head, 42, |items|) && DenoteItems(pieces, v, depth + 1) && octets == head + Concat(pieces)
  }

  /** Piece by piece the items of an array. */
  ghost predicate DenoteItems(pieces: seq<seq<byte>>, v: RespValue, depth: nat)
    requires v.Array?
    decreases v, 0
  {
    |pieces| == |v.items| && forall i :: 0 <= i < |pieces| ==> Denotes(pieces[i], v.items[i], depth)
  }

  // ---------- Lines and numbers ----------

  lemma {:induction false} LineFound(data: seq<byte>, start: nat, i: nat)
    requires start <= i <= start + MAX_RESP_LINE_BYTES && i <= |data|
    requires (forall k :: start <= k < i ==> data[k] != 10) && LineFrom(data, start, i).Success?
    ensures var (text, next) := LineFrom(data, start, i).value;
      LineText(text) && At(data, start, text + [13, 10]) && next == start + |text| + 2
    decreases |data| - i
  {
    if data[i] == LF {
      assert data[start..i - 1] + [13, 10] == data[start..i + 1];
    } else {
      LineFound(data, start, i + 1);
    }
  }

  lemma LineIs(data: seq<byte>, pos: nat, text: seq<byte>, next: nat)
    requires pos <= |data|
    ensures ParseLine(data, pos) == Success((text, next)) <==>
            LineText(text) && At(data, pos, text + [13, 10]) && next == pos + |text| + 2
  {
    if ParseLine(data, pos).Success? {
      LineFound(data, pos, pos);
    }
    if LineText(text) && At(data, pos, text + [13, 10]) {
      LineReads(data, pos, pos, text);
    }
  }

  lemma {:induction false} DigitsMean(s: seq<byte>)
    requires AllDigits(s)
    ensures DigitsValue(s) == Base10(s)
  {
    if s != [] {
      DigitsMean(s[..|s| - 1]);
    }
  }

  lemma NumberIs(text: seq<byte>, n: int)
    requires LineText(text)
    ensures ParseInt64(text) == Some(n) <==> Number(text, n)
  {
    var digits := if text != [] && (text[0] == 43 || text[0] == 45) then text[1..] else text;
    if AllDigits(digits) {
      DigitsMean(digits);
    }
  }

  /** A prefix and a line, taken apart. */
  lemma LineAt(data: seq<byte>, pos: nat, prefix: byte, text: seq<byte>)
    ensures At(data, pos, Line(prefix, text)) <==>
            pos < |data| && data[pos] == prefix && At(data, pos + 1, text + [13, 10])
  {
    AtSplit(data, pos, [prefix], text + [13, 10]);
    if pos < |data| {
      assert data[pos..pos + 1] == [data[pos]];
    }
  }

  lemma TextLineIs(data: seq<byte>, pos: nat, text: seq<byte>, next: nat)
    requires pos < |data|
    ensures ParseLine(data, pos + 1) == Success((text, next)) <==>
            LineText(text) && pos <= next <= |data| && data[pos..next] == Line(data[pos], text)
  {
    LineIs(data, pos + 1, text, next);
    LineAt(data, pos, data[pos], text);
  }

  lemma NumberLineIs(data: seq<byte>, pos: nat, n: int, next: nat)
    requires pos < |data|
    ensures ParseInteger(data, pos + 1) == Success((n, next)) <==>
            pos <= next <= |data| && NumberLine(data[pos..next], data[pos], n)
  {
    if ParseInteger(data, pos + 1) == Success((n, next)) {
      var (text, _) := ParseLine(data, pos + 1).value;
      TextLineIs(data, pos, text, next);
      NumberIs(text, n);
    }
    if pos <= next <= |data| && NumberLine(data[pos..next], data[pos], n) {
      var text :| Number(text, n) && data[pos..next] == Line(data[pos], text);
      TextLineIs(data, pos, text, next);
      NumberIs(text, n);
    }
  }

  // ---------- What is read was there ----------

  ghost predicate Found(data: seq<byte>, pos: nat, r: Read<RespValue>, depth: nat) {
    r.Success? ==> pos <= r.value.1 <= |data| && Denotes(data[pos..r.value.1], r.value.0, depth)
  }

  lemma BulkFound(data: seq<byte>, pos: nat, depth: nat)
    requires depth <= 16 && pos < |data| && data[pos] == 36
    ensures Found(data, pos, ParseBulk(data, pos + 1), depth)
  {
    var r := ParseBulk(data, pos + 1);
    if r.Success? {
      var (n, start) := ParseInteger(data, pos + 1).value;
      NumberLineIs(data, pos, n, start);
      if n >= 0 {
        BulkIs(data, pos, start, r.value.0.bulk, depth);
      }
    }
  }

  lemma BulkIs(data: seq<byte>, pos: nat, start: nat, value: seq<byte>, depth: nat)
    requires depth <= 16 && pos <= start && |value| <= 33_554_432
    requires At(data, start, value) && At(data, start + |value|, [13, 10])
    requires NumberLine(data[pos..start], 36, |value|)
    ensures Denotes(data[pos..start + |value| + 2], Bulk(value), depth)
  {
    AtSplit(data, start, value, [13, 10]);
    assert data[pos..start + |value| + 2] == data[pos..start] + (value + [13, 10]);
  }

  lemma {:induction false} ManyFound(data: seq<byte>, read: nat -> Read<RespValue>, first: nat, count: nat, depth: nat)
      returns (pieces: seq<seq<byte>>)
    requires first <= |data| && ReadMany(read, first, count).Success?
    requires forall p: nat {:trigger read(p)} :: p <= |data| ==> Found(data, p, read(p), depth)
    ensures var (items, next) := ReadMany(read, first, count).value;
      && first <= next <= |data| && Concat(pieces) == data[first..next] && |items| == count
      && DenoteItems(pieces, Array(items), depth)
  {
    if count == 0 {
      pieces := [];
    } else {
      var front := ManyFound(data, read, first, count - 1, depth);
      var last := ReadMany(read, first, count - 1).value.1;
      assert Found(data, last, read(last), depth);
      var next := read(last).value.1;
      pieces := front + [data[last..next]];
      assert pieces[..count - 1] == front;
      assert data[first..last] + data[last..next] == data[first..next];
    }
  }

  lemma ArrayFound(data: seq<byte>, pos: nat, read: nat -> Read<RespValue>, depth: nat)
    requires depth <= 16 && pos < |data| && data[pos] == 42
    requires forall p: nat {:trigger read(p)} :: p <= |data| ==> Found(data, p, read(p), depth + 1)
    ensures Found(data, pos, ParseArray(data, pos + 1, read), depth)
  {
    var r := ParseArray(data, pos + 1, read);
    if r.Success? {
      var (n, first) := ParseInteger(data, pos + 1).value;
      NumberLineIs(data, pos, n, first);
      if n >= 0 {
        var pieces := ManyFound(data, read, first, n, depth + 1);
        ArrayIs(data, pos, first, r.value.1, r.value.0, pieces, depth);
      }
    }
  }

  lemma ArrayIs(data: seq<byte>, pos: nat, first: nat, next: nat, v: RespValue, pieces: seq<seq<byte>>, depth: nat)
    requires depth <= 16 && pos <= first <= next <= |data| && v.Array? && |v.items| <= 33_554_432
    requires NumberLine(data[pos..first], 42, |v.items|)
    requires Concat(pieces) == data[first..next] && DenoteItems(pieces, v, depth + 1)
    ensures Denotes(data[pos..next], v, depth)
  {
    assert data[pos..next] == data[pos..first] + Concat(pieces);
  }

  lemma ScalarFound(data: seq<byte>, pos: nat, depth: nat)
    requires depth <= 16 && pos < |data| && data[pos] != 42
    ensures Found(data, pos, ParseValue(data, pos, depth), depth)
  {
    var r := ParseValue(data, pos, depth);
    assert data[pos..pos + 1] == [data[pos]];
    assert ReadBytes(data, pos, 1) == Success(([data[pos]], pos + 1));
    if r.Success? {
      var (v, next) := r.value;
      if data[pos] == 36 {
        BulkFound(data, pos, depth);
      } else if data[pos] == 58 {
        NumberLineIs(data, pos, v.value, next);
      } else {
        var (text, end) := ParseLine(data, pos + 1).value;
        TextLineIs(data, pos, text, end);
      }
    }
  }

  lemma {:induction false} ValueFound(data: seq<byte>, pos: nat, depth: nat)
    requires pos <= |data|
    ensures Found(data, pos, ParseValue(data, pos, depth), depth)
    decreases MAX_RESP_DEPTH + 1 - depth
  {
    if depth <= 16 && pos < |data| {
      if data[pos] == 42 {
        var read := Reader(data, depth + 1);
        forall p: nat {:trigger read(p)} | p <= |data|
          ensures Found(data, p, read(p), depth + 1)
        {
          ReaderIs(data, depth + 1, p);
          ValueFound(data, p, depth + 1);
        }
        ArrayFound(data, pos, read, depth);
      } else {
        ScalarFound(data, pos, depth);
      }
    }
  }

  // ---------- What is there is read ----------

  /** The value stands between two positions, and reading from the first returns it and the second. */
  ghost predicate Stands(data: seq<byte>, pos: nat, next: nat, v: RespValue, depth: nat) {
    pos <= next <= |data| && Denotes(data[pos..next], v, depth)
  }

  lemma DollarReads(data: seq<byte>, pos: nat, depth: nat)
    requires depth <= 16 && ReadBytes(data, pos, 1) == Success(([36], pos + 1))
    ensures ParseValue(data, pos, depth) == ParseBulk(data, pos + 1)
  {
  }

  lemma HeadStands(data: seq<byte>, pos: nat, next: nat, prefix: byte, n: int, head: seq<byte>, rest: seq<byte>)
    requires pos <= next <= |data| && data[pos..next] == head + rest && NumberLine(head, prefix, n)
    ensures ReadBytes(data, pos, 1) == Success(([prefix], pos + 1)) && At(data, pos + |head|, rest)
    ensures ParseInteger(data, pos + 1) == Success((n, pos + |head|)) && next == pos + |head| + |rest|
  {
    AtSplit(data, pos, head, rest);
    NumberStands(data, pos, pos + |head|, prefix, n);
  }

  lemma BulkStands(data: seq<byte>, pos: nat, next: nat, v: RespValue, depth: nat)
    requires Stands(data, pos, next, v, depth) && v.Bulk?
    ensures ParseValue(data, pos, depth) == Success((v, next))
  {
    var head :| NumberLine(head, 36, |v.bulk|) && data[pos..next] == head + (v.bulk + [13, 10]);
    var start := pos + |head|;
    HeadStands(data, pos, next, 36, |v.bulk|, head, v.bulk + [13, 10]);
    AtSplit(data, start, v.bulk, [13, 10]);
    BulkBodyReads(data, pos + 1, start, v.bulk);
    DollarReads(data, pos, depth);
  }

  lemma NumberStands(data: seq<byte>, pos: nat, next: nat, prefix: byte, n: int)
    requires pos <= next <= |data| && NumberLine(data[pos..next], prefix, n)
    ensures pos < |data| && data[pos] == prefix && ReadBytes(data, pos, 1) == Success(([prefix], pos + 1))
    ensures ParseInteger(data, pos + 1) == Success((n, next))
  {
    var text :| Number(text, n) && data[pos..next] == Line(prefix, text);
    assert data[pos] == data[pos..next][0] == prefix;
    assert data[pos..pos + 1] == [prefix];
    NumberLineIs(data, pos, n, next);
  }

  lemma NullStands(data: seq<byte>, pos: nat, next: nat, v: RespValue, depth: nat)
    requires Stands(data, pos, next, v, depth) && (v.NullBulk? || v.NullArray?)
    ensures ParseValue(data, pos, depth) == Success((v, next))
  {
    var prefix: byte := if v.NullBulk? then 36 else 42;
    var n :| n < 0 && NumberLine(data[pos..next], prefix, n);
    NumberStands(data, pos, next, prefix, n);
  }

  lemma TextStands(data: seq<byte>, pos: nat, next: nat, v: RespValue, depth: nat)
    requires Stands(data, pos, next, v, depth) && (v.Simple? || v.Error?)
    ensures ParseValue(data, pos, depth) == Success((v, next))
  {
    assert data[pos] == data[pos..next][0];
    TextLineIs(data, pos, if v.Simple? then v.text else v.message, next);
  }

  /** An array between two positions: its header, and pieces that each read as one item wherever they stand. */
  ghost predicate Parts(data: seq<byte>, pos: nat, next: nat, items: seq<RespValue>, head: seq<byte>,
                        pieces: seq<seq<byte>>, depth: nat) {
    && depth <= 16 && |items| <= 33_554_432 && pos <= next <= |data|
    && NumberLine(head, 42, |items|) && data[pos..next] == head + Concat(pieces) && |pieces| == |items|
    && forall i :: 0 <= i < |pieces| ==> PieceReads(data, Reader(data, depth + 1), items[i], pieces[i])
  }

  lemma {:induction false} ItemsStand(data: seq<byte>, pos: nat, next: nat, v: RespValue, depth: nat)
      returns (head: seq<byte>, pieces: seq<seq<byte>>)
    requires Stands(data, pos, next, v, depth) && v.Array?
    ensures Parts(data, pos, next, v.items, head, pieces, depth)
    decreases v, 1
  {
    head, pieces := HeadAndItems(data[pos..next], v, depth);
    PiecesStand(data, v, pieces, depth + 1);
  }

  lemma {:induction false} PiecesStand(data: seq<byte>, v: RespValue, pieces: seq<seq<byte>>, depth: nat)
    requires depth <= 17 && v.Array? && DenoteItems(pieces, v, depth)
    ensures forall i :: 0 <= i < |pieces| ==> PieceReads(data, Reader(data, depth), v.items[i], pieces[i])
    decreases v, 0
  {
    forall i | 0 <= i < |pieces|
      ensures PieceReads(data, Reader(data, depth), v.items[i], pieces[i])
    {
      PieceStands(data, v.items[i], pieces[i], depth);
    }
  }

  lemma HeadAndItems(octets: seq<byte>, v: RespValue, depth: nat) returns (head: seq<byte>, pieces: seq<seq<byte>>)
    requires v.Array? && Denotes(octets, v, depth)
    ensures depth <= 16 && |v.items| <= 33_554_432 && NumberLine(head, 42, |v.items|)
    ensures octets == head + Concat(pieces) && DenoteItems(pieces, v, depth + 1)
  {
    head, pieces :| NumberLine(head, 42, |v.items|) && DenoteItems(pieces, v, depth + 1) &&
                    octets == head + Concat(pieces);
  }

  lemma {:induction false} PieceStands(data: seq<byte>, v: RespValue, piece: seq<byte>, depth: nat)
    requires depth <= 17 && Denotes(piece, v, depth)
    ensures PieceReads(data, Reader(data, depth), v, piece)
    decreases v, 4
  {
    forall p: nat | At(data, p, piece)
      ensures Reader(data, depth)(p) == Success((v, End(p, piece)))
    {
      StandsAt(data, p, v, piece, depth);
      ValueStands(data, p, End(p, piece), v, depth);
      ReaderIs(data, depth, p);
    }
  }

  lemma StandsAt(data: seq<byte>, pos: nat, v: RespValue, piece: seq<byte>, depth: nat)
    requires At(data, pos, piece) && Denotes(piece, v, depth)
    ensures Stands(data, pos, End(pos, piece), v, depth)
  {
  }

  lemma BodyStands(data: seq<byte>, pos: nat, next: nat, head: seq<byte>, body: seq<byte>)
    requires pos <= next <= |data| && data[pos..next] == head + body
    ensures At(data, pos + |head|, body) && next == pos + |head| + |body|
  {
    AtSplit(data, pos, head, body);
  }

  lemma ItemsRun(data: seq<byte>, pos: nat, next: nat, items: seq<RespValue>, head: seq<byte>, pieces: seq<seq<byte>>,
                 depth: nat)
    requires Parts(data, pos, next, items, head, pieces, depth)
    ensures ReadMany(Reader(data, depth + 1), pos + |head|, |items|) == Success((items, next))
  {
    BodyStands(data, pos, next, head, Concat(pieces));
    ReadsConcat(data, Reader(data, depth + 1), pos + |head|, items, pieces);
  }

  lemma ArrayEnds(data: seq<byte>, pos: nat, next: nat, items: seq<RespValue>, head: seq<byte>, pieces: seq<seq<byte>>,
                  depth: nat)
    requires Parts(data, pos, next, items, head, pieces, depth)
    ensures ParseValue(data, pos, depth) == Success((Array(items), next))
  {
    ItemsRun(data, pos, next, items, head, pieces, depth);
    HeadStands(data, pos, next, 42, |items|, head, Concat(pieces));
    ArrayRead(data, pos, pos + |head|, next, items, depth);
  }

  lemma ArrayRead(data: seq<byte>, pos: nat, first: nat, next: nat, items: seq<RespValue>, depth: nat)
    requires depth <= 16 && |items| <= 33_554_432 && ReadBytes(data, pos, 1) == Success(([42], pos + 1))
    requires ParseInteger(data, pos + 1) == Success((|items|, first))
    requires ReadMany(Reader(data, depth + 1), first, |items|) == Success((items, next))
    ensures ParseValue(data, pos, depth) == Success((Array(items), next))
  {
    StarReads(data, pos, depth);
    ItemsRead(data, pos + 1, Reader(data, depth + 1), items, first, next);
  }

  lemma {:induction false} ArrayStands(data: seq<byte>, pos: nat, next: nat, v: RespValue, depth: nat)
    requires Stands(data, pos, next, v, depth) && v.Array?
    ensures ParseValue(data, pos, depth) == Success((v, next))
    decreases v, 2
  {
    var head, pieces := ItemsStand(data, pos, next, v, depth);
    ArrayEnds(data, pos, next, v.items, head, pieces, depth);
  }

  lemma {:induction false} ValueStands(data: seq<byte>, pos: nat, next: nat, v: RespValue, depth: nat)
    requires Stands(data, pos, next, v, depth)
    ensures ParseValue(data, pos, depth) == Success((v, next))
    decreases v, 3
  {
    match v
    case Simple(_) => TextStands(data, pos, next, v, depth);
    case Error(_) => TextStands(data, pos, next, v, depth);
    case Integer(value) => NumberStands(data, pos, next, 58, value);
    case Bulk(_) => BulkStands(data, pos, next, v, depth);
    case NullBulk => NullStands(data, pos, next, v, depth);
    case NullArray => NullStands(data, pos, next, v, depth);
    case Array(_) => ArrayStands(data, pos, next, v, depth);
  }

  // ---------- Main results ----------

  /** The reader accepts exactly the octets that are a reply, returns what they say, and stops right behind them. */
  lemma ReaderIsGrammar(data: seq<byte>, pos: nat, v: RespValue, next: nat, depth: nat)
    requires pos <= |data|
    ensures ParseValue(data, pos, depth) == Success((v, next)) <==>
            pos <= next <= |data| && Denotes(data[pos..next], v, depth)
  {
    ValueFound(data, pos, depth);
    if pos <= next <= |data| && Denotes(data[pos..next], v, depth) {
      ValueStands(data, pos, next, v, depth);
    }
  }

  // ---------- Commands ----------

  /** The shortest decimal: ASCII digits without a sign or a leading zero. */
  predicate Plain(digits: seq<byte>, n: nat) {
    Digits(digits) && Base10(digits) == n && (digits[0] == 48 ==> |digits| == 1)
  }

  ghost predicate WireArgument(octets: seq<byte>, argument: seq<byte>) {
    exists digits :: Plain(digits, |argument|) && octets == Line(36, digits) + (argument + [13, 10])
  }

  /** A command on the wire: how many arguments there are, and each with its length in front. */
  ghost predicate WireCommand(octets: seq<byte>, arguments: seq<seq<byte>>) {
    exists digits, pieces ::
      && Plain(digits, |arguments|) && |pieces| == |arguments| && octets == Line(42, digits) + Concat(pieces)
      && forall i :: 0 <= i < |pieces| ==> WireArgument(pieces[i], arguments[i])
  }

  lemma {:induction false} DecimalIsPlain(n: nat)
    ensures Plain(Decimal(n), n)
  {
    var s := Decimal(n);
    if n >= 10 {
      DecimalIsPlain(n / 10);
      assert s[..|s| - 1] == Decimal(n / 10);
    } else {
      assert s[..0] == [] && Base10(s) == 10 * Base10(s[..0]) + s[0] - 48;
    }
  }

  lemma ArgumentIsWire(argument: seq<byte>)
    ensures WireArgument(EncodeArgument(argument), argument)
  {
    DecimalIsPlain(|argument|);
    assert EncodeArgument(argument) == Line(36, Decimal(|argument|)) + (argument + [13, 10]);
  }

  /** What `encode_command` sends, octet by octet. */
  lemma CommandIsWire(arguments: seq<seq<byte>>)
    ensures WireCommand(EncodeCommand(arguments), arguments)
  {
    var digits := Decimal(|arguments|);
    var pieces := seq(|arguments|, i requires 0 <= i < |arguments| => EncodeArgument(arguments[i]));
    DecimalIsPlain(|arguments|);
    forall i | 0 <= i < |pieces|
      ensures WireArgument(pieces[i], arguments[i])
    {
      ArgumentIsWire(arguments[i]);
    }
    assert EncodeCommand(arguments) == Line(42, digits) + Concat(pieces);
  }
}
