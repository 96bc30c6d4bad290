/** The migration fingerprint: a uniquely decodable row encoding, row digests in sorted order, and one digest over all
    of it. */
module Fingerprint {
  import opened Wrappers
  import opened RespCodec

  type Bytes = seq<byte>

  const DIGEST_BYTES: nat := 32
  const TWO_TO_THE_8: nat := 0x100
  const TWO_TO_THE_63: nat := 0x8000_0000_0000_0000
  const TWO_TO_THE_64: nat := 0x1_0000_0000_0000_0000

  type int64 = x: int | -(TWO_TO_THE_63 as int) <= x < TWO_TO_THE_63

  type Word = b: Bytes | |b| == 8 witness [0, 0, 0, 0, 0, 0, 0, 0]

  /** A text or blob whose length fits its length prefix. */
  type Run = b: Bytes | |b| < TWO_TO_THE_64 witness []

  /** What SQLite stores in one column of one row; a real is its bit pattern. */
  datatype Cell = Null | Integer(value: int64) | Real(bits: Word) | Text(text: Run) | Blob(blob: Run)

  type Row = seq<Cell>

  datatype MigrationError = MissingColumns | MissingTable | RowCountChanged

  // ---------- The row encoding ----------

  function LittleEndian(n: nat, width: nat): (r: Bytes)
    ensures |r| == width
  {
    if width == 0 then [] else [n % TWO_TO_THE_8] + LittleEndian(n / TWO_TO_THE_8, width - 1)
  }

  function Power(width: nat): nat {
    if width == 0 then 1 else TWO_TO_THE_8 * Power(width - 1)
  }

  lemma {:induction false} LittleEndianIsInjective(a: nat, b: nat, width: nat)
    requires a < Power(width) && b < Power(width) && LittleEndian(a, width) == LittleEndian(b, width)
    ensures a == b
  {
    if width > 0 {
      assert LittleEndian(a, width)[1..] == LittleEndian(b, width)[1..];
      LittleEndianIsInjective(a / TWO_TO_THE_8, b / TWO_TO_THE_8, width - 1);
      assert a % TWO_TO_THE_8 == LittleEndian(a, width)[0] == LittleEndian(b, width)[0];
    }
  }

  lemma EightBytes()
    ensures Power(8) == TWO_TO_THE_64
  {
    assert Power(4) == 0x1_0000_0000;
  }

  /** Two's complement. */
  function Unsigned(value: int64): nat {
    if value >= 0 then value else value + TWO_TO_THE_64
  }

  function EncodeCell(c: Cell): Bytes {
    match c
    case Null => [0]
    case Integer(value) => [1] + LittleEndian(Unsigned(value), 8)
    case Real(bits) => [2] + bits
    case Text(text) => [3] + Sized(text)
    case Blob(blob) => [4] + Sized(blob)
  }

  function Sized(b: Bytes): Bytes {
    LittleEndian(|b|, 8) + b
  }

  function EncodeRow(row: Row): Bytes {
    if row == [] then [] else EncodeCell(row[0]) + EncodeRow(row[1..])
  }

  /** What octets mean as a number whose lowest octet comes first. */
  function LowFirst(b: Bytes): nat {
    if b == [] then 0 else b[0] + 256 * LowFirst(b[1..])
  }

  lemma {:induction false} LittleEndianIs(n: nat, width: nat)
    requires n < Power(width)
    ensures LowFirst(LittleEndian(n, width)) == n
  {
    if width > 0 {
      LittleEndianIs(n / TWO_TO_THE_8, width - 1);
      assert LittleEndian(n, width)[1..] == LittleEndian(n / TWO_TO_THE_8, width - 1);
    }
  }

  /** A cell, octet by octet: its kind, and then eight octets of number, or a length in eight octets and the content. */
  lemma CellOctets(c: Cell)
    ensures match c
      case Null => EncodeCell(c) == [0]
      case Integer(value) =>
        var octets := EncodeCell(c);
        |octets| == 9 && octets[0] == 1 &&
        LowFirst(octets[1..]) == if value < 0 then value + 0x1_0000_0000_0000_0000 else value
      case Real(bits) => EncodeCell(c) == [2] + bits
      case Text(text) =>
        var octets := EncodeCell(c);
        |octets| == 9 + |text| && octets[0] == 3 && LowFirst(octets[1..9]) == |text| && octets[9..] == text
      case Blob(blob) =>
        var octets := EncodeCell(c);
        |octets| == 9 + |blob| && octets[0] == 4 && LowFirst(octets[1..9]) == |blob| && octets[9..] == blob
  {
    EightBytes();
    match c
    case Integer(value) =>
      LittleEndianIs(Unsigned(value), 8);
      assert EncodeCell(c)[1..] == LittleEndian(Unsigned(value), 8);
    case Text(text) => RunOctets(3, text);
    case Blob(blob) => RunOctets(4, blob);
    case _ =>
  }

  lemma RunOctets(tag: byte, run: Run)
    ensures var octets := [tag] + Sized(run);
      |octets| == 9 + |run| && octets[0] == tag && LowFirst(octets[1..9]) == |run| && octets[9..] == run
  {
    EightBytes();
    LittleEndianIs(|run|, 8);
    assert ([tag] + Sized(run))[1..9] == LittleEndian(|run|, 8);
  }

  lemma SplitsAt(p: Bytes, x: Bytes, q: Bytes, y: Bytes)
    requires |p| == |q| && p + x == q + y
    ensures p == q && x == y
  {
    assert p == (p + x)[..|p|] == (q + y)[..|q|] == q;
    assert x == (p + x)[|p|..] == (q + y)[|q|..] == y;
  }

  lemma SizedIsPrefixFree(x: Run, a: Bytes, y: Run, b: Bytes)
    requires Sized(x) + a == Sized(y) + b
    ensures x == y && a == b
  {
    var p, q := LittleEndian(|x|, 8), LittleEndian(|y|, 8);
    assert Sized(x) + a == p + (x + a) && Sized(y) + b == q + (y + b);
    SplitsAt(p, x + a, q, y + b);
    EightBytes();
    LittleEndianIsInjective(|x|, |y|, 8);
    SplitsAt(x, a, y, b);
  }

  /** No cell's encoding is a prefix of another's: the first cell is recovered from whatever follows it. */
  lemma CellIsPrefixFree(x: Cell, a: Bytes, y: Cell, b: Bytes)
    requires EncodeCell(x) + a == EncodeCell(y) + b
    ensures x == y && a == b
  {
    assert (EncodeCell(x) + a)[0] == EncodeCell(x)[0] && (EncodeCell(y) + b)[0] == EncodeCell(y)[0];
    match x
    case Null => SplitsAt([0], a, [0], b);
    case Integer(value) =>
      SplitsAt(EncodeCell(x), a, EncodeCell(y), b);
      SplitsAt([1], LittleEndian(Unsigned(value), 8), [1], LittleEndian(Unsigned(y.value), 8));
      EightBytes();
      LittleEndianIsInjective(Unsigned(value), Unsigned(y.value), 8);
    case Real(bits) =>
      SplitsAt(EncodeCell(x), a, EncodeCell(y), b);
      SplitsAt([2], bits, [2], y.bits);
    case Text(text) =>
      TaggedRun(3, text, a, y.text, b);
    case Blob(blob) =>
      TaggedRun(4, blob, a, y.blob, b);
  }

  lemma TaggedRun(tag: byte, x: Run, a: Bytes, y: Run, b: Bytes)
    requires [tag] + Sized(x) + a == [tag] + Sized(y) + b
    ensures x == y && a == b
  {
    assert [tag] + Sized(x) + a == [tag] + (Sized(x) + a) && [tag] + Sized(y) + b == [tag] + (Sized(y) + b);
    SplitsAt([tag], Sized(x) + a, [tag], Sized(y) + b);
    SizedIsPrefixFree(x, a, y, b);
  }

  lemma RowsEndTogether(x: Row, y: Row)
    requires EncodeRow(x) == EncodeRow(y)
    ensures x == [] <==> y == []
  {
  }

  lemma FirstCellsMatch(x: Row, y: Row)
    requires x != [] && y != [] && EncodeRow(x) == EncodeRow(y)
    ensures x[0] == y[0] && EncodeRow(x[1..]) == EncodeRow(y[1..])
  {
    CellIsPrefixFree(x[0], EncodeRow(x[1..]), y[0], EncodeRow(y[1..]));
  }

  /** The encoding is uniquely decodable: different rows, of whatever lengths, are hashed from different inputs. */
  lemma {:induction false} RowsAreUniquelyDecodable(x: Row, y: Row)
    requires EncodeRow(x) == EncodeRow(y)
    ensures x == y
    decreases |x|
  {
    RowsEndTogether(x, y);
    if x != [] {
      FirstCellsMatch(x, y);
      RowsAreUniquelyDecodable(x[1..], y[1..]);
      assert x == [x[0]] + x[1..] && y == [y[0]] + y[1..];
    }
  }

  // ---------- Sorting digests ----------

  /** Lexicographic order on byte strings. */
  predicate AtMost(a: Bytes, b: Bytes) {
    if a == [] then true
    else if b == [] then false
    else a[0] < b[0] || (a[0] == b[0] && AtMost(a[1..], b[1..]))
  }

  lemma {:induction false} AtMostAntisymmetric(a: Bytes, b: Bytes)
    requires AtMost(a, b) && AtMost(b, a)
    ensures a == b
  {
    if a != [] {
      AtMostAntisymmetric(a[1..], b[1..]);
      assert a == [a[0]] + a[1..] && b == [b[0]] + b[1..];
    }
  }

  lemma {:induction false} AtMostTransitive(a: Bytes, b: Bytes, c: Bytes)
    requires AtMost(a, b) && AtMost(b, c)
    ensures AtMost(a, c)
  {
    if a != [] && a[0] == b[0] == c[0] {
      AtMostTransitive(a[1..], b[1..], c[1..]);
    }
  }

  lemma {:induction false} AtMostTotal(a: Bytes, b: Bytes)
    ensures AtMost(a, b) || AtMost(b, a)
  {
    if a != [] && b != [] {
      AtMostTotal(a[1..], b[1..]);
    }
  }

  predicate Sorted(digests: seq<Bytes>) {
    forall i, j :: 0 <= i < j < |digests| ==> AtMost(digests[i], digests[j])
  }

  function Insert(digests: seq<Bytes>, d: Bytes): seq<Bytes> {
    if digests == [] then [d]
    else if AtMost(d, digests[0]) then [d] + digests
    else [digests[0]] + Insert(digests[1..], d)
  }

  /** The digests in ascending order. */
  function Sort(digests: seq<Bytes>): seq<Bytes> {
    if digests == [] then [] else Insert(Sort(digests[..|digests| - 1]), digests[|digests| - 1])
  }

  lemma {:induction false} InsertSorts(digests: seq<Bytes>, d: Bytes)
    requires Sorted(digests)
    ensures Sorted(Insert(digests, d)) && multiset(Insert(digests, d)) == multiset(digests) + multiset{d}
  {
    if digests != [] {
      assert digests == [digests[0]] + digests[1..];
      if AtMost(d, digests[0]) {
        forall i | 0 <= i < |digests|
          ensures AtMost(d, digests[i])
        {
          if i > 0 {
            AtMostTransitive(d, digests[0], digests[i]);
          }
        }
      } else {
        AtMostTotal(d, digests[0]);
        InsertSorts(digests[1..], d);
        var rest := Insert(digests[1..], d);
        forall i | 0 <= i < |rest|
          ensures AtMost(digests[0], rest[i])
        {
          assert rest[i] in multiset(rest);
          if rest[i] != d {
            assert rest[i] in digests[1..];
          }
        }
      }
    }
  }

  lemma {:induction false} SortSorts(digests: seq<Bytes>)
    ensures Sorted(Sort(digests)) && multiset(Sort(digests)) == multiset(digests)
  {
    if digests != [] {
      var n := |digests| - 1;
      SortSorts(digests[..n]);
      InsertSorts(Sort(digests[..n]), digests[n]);
      assert digests == digests[..n] + [digests[n]];
    }
  }

  lemma FirstIsLeast(a: seq<Bytes>, b: seq<Bytes>)
    requires Sorted(a) && multiset(a) == multiset(b) && a != [] && b != []
    ensures a[0] == b[0] || AtMost(a[0], b[0])
  {
    assert b[0] in multiset(a) && b[0] in a;
  }

  lemma SameTails(a: seq<Bytes>, b: seq<Bytes>)
    requires a != [] && b != [] && a[0] == b[0] && multiset(a) == multiset(b)
    ensures multiset(a[1..]) == multiset(b[1..])
  {
    assert a == [a[0]] + a[1..] && b == [b[0]] + b[1..];
    assert multiset(a[1..]) == multiset(a) - multiset{a[0]} && multiset(b[1..]) == multiset(b) - multiset{b[0]};
  }

  /** There is one ascending listing of a multiset. */
  lemma {:induction false} SortedIsUnique(a: seq<Bytes>, b: seq<Bytes>)
    requires Sorted(a) && Sorted(b) && multiset(a) == multiset(b)
    ensures a == b
  {
    assert |a| == |multiset(a)| == |multiset(b)| == |b|;
    if a != [] {
      FirstIsLeast(a, b);
      FirstIsLeast(b, a);
      if a[0] != b[0] {
        AtMostAntisymmetric(a[0], b[0]);
      }
      SameTails(a, b);
      SortedIsUnique(a[1..], b[1..]);
      assert a == [a[0]] + a[1..] && b == [b[0]] + b[1..];
    }
  }

  // ---------- The digest of a database ----------

  /** What a connection shows: for each table the rows of the projected columns, in the order it returns them. */
  type Contents = map<Bytes, seq<Row>>

  function RowDigests(hash: Bytes -> Bytes, rows: seq<Row>): seq<Bytes> {
    seq(|rows|, i requires 0 <= i < |rows| => hash(EncodeRow(rows[i])))
  }

  function Concat(parts: seq<Bytes>): Bytes {
    if parts == [] then [] else Concat(parts[..|parts| - 1]) + parts[|parts| - 1]
  }

  function Terminated(names: seq<Bytes>): Bytes {
    if names == [] then [] else Terminated(names[..|names| - 1]) + (names[|names| - 1] + [0])
  }

  function TableStream(hash: Bytes -> Bytes, table: Bytes, columns: seq<Bytes>, rows: seq<Row>): Bytes {
    ((table + [0]) + Terminated(columns)) + Concat(Sort(RowDigests(hash, rows)))
  }

  /** Column metadata is there, the table can be read, and it has as many rows as were counted before. */
  function TableReadable(table: Bytes, contents: Contents, expected: map<Bytes, nat>, columns: map<Bytes, seq<Bytes>>)
      : Outcome<MigrationError>
  {
    if table !in columns then Fail(MissingColumns)
    else if table !in contents then Fail(MissingTable)
    else if (if table in expected then expected[table] else 0) != |contents[table]| then Fail(RowCountChanged)
    else Pass
  }

  /** The bytes the database digest is taken of, or the first table that cannot be read as expected. */
  function Stream(hash: Bytes -> Bytes, tables: seq<Bytes>, contents: Contents, expected: map<Bytes, nat>,
                  columns: map<Bytes, seq<Bytes>>): Result<Bytes, MigrationError>
  {
    if tables == [] then Success([])
    else
      var before :- Stream(hash, tables[..|tables| - 1], contents, expected, columns);
      var table := tables[|tables| - 1];
      match TableReadable(table, contents, expected, columns)
      case Fail(error) => Failure(error)
      case Pass => Success(before + TableStream(hash, table, columns[table], contents[table]))
  }

  function FingerprintOf(hash: Bytes -> Bytes, tables: seq<Bytes>, contents: Contents, expected: map<Bytes, nat>,
                         columns: map<Bytes, seq<Bytes>>): Result<Bytes, MigrationError>
  {
    var stream :- Stream(hash, tables, contents, expected, columns);
    Success(hash(stream))
  }

  // ---------- The hashers ----------

  /** A running digest. */
  class Hasher {
    const hash: Bytes -> Bytes
    var data: Bytes

    constructor (hash: Bytes -> Bytes)
      ensures this.hash == hash && data == []
    {
      this.hash, data := hash, [];
    }

    method Update(bytes: Bytes)
      modifies this
      ensures data == old(data) + bytes
    {
      data := data + bytes;
    }

    method Finish() returns (digest: Bytes)
      ensures digest == hash(data)
    {
      digest := hash(data);
    }
  }

  method HashTagged(hasher: Hasher, tag: byte, payload: Bytes)
    modifies hasher
    ensures hasher.data == old(hasher.data) + ([tag] + payload)
  {
    hasher.Update([tag]);
    hasher.Update(payload);
  }

  method HashRun(hasher: Hasher, tag: byte, run: Run)
    modifies hasher
    ensures hasher.data == old(hasher.data) + ([tag] + Sized(run))
  {
    HashTagged(hasher, tag, LittleEndian(|run|, 8));
    hasher.Update(run);
    Regroups(old(hasher.data), [tag], LittleEndian(|run|, 8), run);
  }

  lemma Regroups(a: Bytes, b: Bytes, c: Bytes, d: Bytes)
    ensures a + (b + c) + d == a + (b + (c + d))
  {
  }

  /** `hash_value` */
  method HashValue(hasher: Hasher, value: Cell)
    modifies hasher
    ensures hasher.data == old(hasher.data) + EncodeCell(value)
  {
    match value
    case Null => hasher.Update([0]);
    case Integer(n) => HashTagged(hasher, 1, LittleEndian(Unsigned(n), 8));
    case Real(bits) => HashTagged(hasher, 2, bits);
    case Text(text) => HashRun(hasher, 3, text);
    case Blob(blob) => HashRun(hasher, 4, blob);
  }

  lemma RowStep(data: Bytes, row: Row, i: nat)
    requires i < |row|
    ensures data + EncodeRow(row[i..]) == (data + EncodeCell(row[i])) + EncodeRow(row[i + 1..])
  {
    assert row[i..][1..] == row[i + 1..];
  }

  method HashRow(hash: Bytes -> Bytes, row: Row) returns (digest: Bytes)
    ensures digest == hash(EncodeRow(row))
  {
    var hasher := new Hasher(hash);
    for i := 0 to |row|
      invariant fresh(hasher) && hasher.hash == hash && EncodeRow(row) == hasher.data + EncodeRow(row[i..])
    {
      RowStep(hasher.data, row, i);
      HashValue(hasher, row[i]);
    }
    assert row[|row|..] == [] && hasher.data + [] == hasher.data;
    digest := hasher.Finish();
  }

  method HashNames(hasher: Hasher, table: Bytes, columns: seq<Bytes>)
    modifies hasher
    ensures hasher.data == old(hasher.data) + ((table + [0]) + Terminated(columns))
  {
    hasher.Update(table);
    hasher.Update([0]);
    for i := 0 to |columns|
      invariant hasher.data == old(hasher.data) + ((table + [0]) + Terminated(columns[..i]))
    {
      assert columns[..i + 1][..i] == columns[..i];
      hasher.Update(columns[i]);
      hasher.Update([0]);
    }
    assert columns[..|columns|] == columns;
  }

  method DigestRows(hash: Bytes -> Bytes, rows: seq<Row>) returns (digests: seq<Bytes>)
    ensures digests == RowDigests(hash, rows)
  {
    digests := [];
    for i := 0 to |rows|
      invariant digests == RowDigests(hash, rows[..i])
    {
      var digest := HashRow(hash, rows[i]);
      digests := digests + [digest];
    }
    assert rows[..|rows|] == rows;
  }

  /** The digests of the rows in the order they come, sorted, and then hashed in that order. */
  method HashRows(hasher: Hasher, rows: seq<Row>)
    modifies hasher
    ensures hasher.data == old(hasher.data) + Concat(Sort(RowDigests(hasher.hash, rows)))
  {
    var digests := DigestRows(hasher.hash, rows);
    digests := Sort(digests);
    for i := 0 to |digests|
      invariant hasher.data == old(hasher.data) + Concat(digests[..i])
    {
      assert digests[..i + 1][..i] == digests[..i];
      hasher.Update(digests[i]);
    }
    assert digests[..|digests|] == digests;
  }

  method HashTable(hasher: Hasher, table: Bytes, contents: Contents, expected: map<Bytes, nat>,
                   columns: map<Bytes, seq<Bytes>>)
      returns (r: Outcome<MigrationError>)
    modifies hasher
    ensures r == TableReadable(table, contents, expected, columns)
    ensures r.Pass? ==>
            hasher.data == old(hasher.data) + TableStream(hasher.hash, table, columns[table], contents[table])
  {
    if table !in columns {
      return Fail(MissingColumns);
    }
    var names := columns[table];
    HashNames(hasher, table, names);
    if table !in contents {
      return Fail(MissingTable);
    }
    if (if table in expected then expected[table] else 0) != |contents[table]| {
      return Fail(RowCountChanged);
    }
    ghost var named := (table + [0]) + Terminated(names);
    HashRows(hasher, contents[table]);
    Appended(old(hasher.data), named, Concat(Sort(RowDigests(hasher.hash, contents[table]))));
    return Pass;
  }

  lemma Appended(data: Bytes, a: Bytes, b: Bytes)
    ensures (data + a) + b == data + (a + b)
  {
  }

  /** The table's columns are listed, it is there, and it has the expected number of rows. */
  predicate TableGiven(table: Bytes, contents: Contents, expected: map<Bytes, nat>, columns: map<Bytes, seq<Bytes>>) {
    && table in columns && table in contents
    && |contents[table]| == if table in expected then expected[table] else 0
  }

  lemma GivenLast(tables: seq<Bytes>, contents: Contents, expected: map<Bytes, nat>, columns: map<Bytes, seq<Bytes>>)
    requires tables != []
    ensures var n := |tables| - 1;
      (forall table :: table in tables ==> TableGiven(table, contents, expected, columns)) <==>
      (forall table :: table in tables[..n] ==> TableGiven(table, contents, expected, columns)) &&
      TableGiven(tables[n], contents, expected, columns)
  {
    var n := |tables| - 1;
    assert tables == tables[..n] + [tables[n]];
  }

  /** A fingerprint is given exactly when every table has its columns listed, is there, and has the expected number of
      rows. */
  lemma {:induction false} FingerprintGivenIff(hash: Bytes -> Bytes, tables: seq<Bytes>, contents: Contents,
                                               expected: map<Bytes, nat>, columns: map<Bytes, seq<Bytes>>)
    ensures FingerprintOf(hash, tables, contents, expected, columns).Success? <==>
            forall table :: table in tables ==> TableGiven(table, contents, expected, columns)
  {
    if tables != [] {
      FingerprintGivenIff(hash, tables[..|tables| - 1], contents, expected, columns);
      GivenLast(tables, contents, expected, columns);
    }
  }

  /** `fingerprint_for_tables` */
  method FingerprintForTables(hash: Bytes -> Bytes, tables: seq<Bytes>, contents: Contents, expected: map<Bytes, nat>,
                              columns: map<Bytes, seq<Bytes>>) returns (r: Result<Bytes, MigrationError>)
    ensures r == FingerprintOf(hash, tables, contents, expected, columns)
  {
    var hasher := new Hasher(hash);
    for i := 0 to |tables|
      invariant fresh(hasher) && hasher.hash == hash
      invariant Stream(hash, tables[..i], contents, expected, columns) == Success(hasher.data)
    {
      assert tables[..i + 1][..i] == tables[..i];
      var readable := HashTable(hasher, tables[i], contents, expected, columns);
      if readable.Fail? {
        FirstFailure(hash, tables, contents, expected, columns, i + 1);
        return Failure(readable.error);
      }
    }
    assert tables[..|tables|] == tables;
    var digest := hasher.Finish();
    return Success(digest);
  }

  lemma {:induction false} FirstFailure(hash: Bytes -> Bytes, tables: seq<Bytes>, contents: Contents,
                                        expected: map<Bytes, nat>,
                                        columns: map<Bytes, seq<Bytes>>, n: nat)
    requires n <= |tables| && Stream(hash, tables[..n], contents, expected, columns).Failure?
    ensures Stream(hash, tables, contents, expected, columns) == Stream(hash, tables[..n], contents, expected, columns)
  {
    if n < |tables| {
      assert tables[..|tables| - 1][..n] == tables[..n];
      FirstFailure(hash, tables[..|tables| - 1], contents, expected, columns, n);
    } else {
      assert tables[..n] == tables;
    }
  }

  // ---------- Equal fingerprints, equal contents ----------

  function RowInputs(rows: seq<Row>): set<Bytes> {
    set i | 0 <= i < |rows| :: EncodeRow(rows[i])
  }

  /** What SHA-256 is trusted for: 32 bytes, and no collision among the inputs at hand. */
  ghost predicate NoCollision(hash: Bytes -> Bytes, inputs: set<Bytes>) {
    && (forall x :: x in inputs ==> |hash(x)| == DIGEST_BYTES)
    && (forall x, y :: x in inputs && y in inputs && hash(x) == hash(y) ==> x == y)
  }

  /** Everything that is hashed for the given tables. */
  function Inputs(tables: seq<Bytes>, contents: Contents): set<Bytes> {
    set i, j | 0 <= i < |tables| && tables[i] in contents && 0 <= j < |contents[tables[i]]| ::
      EncodeRow(contents[tables[i]][j])
  }

  lemma CountAppend<T>(s: seq<T>, x: T, y: T)
    ensures multiset(s + [x])[y] == multiset(s)[y] + if x == y then 1 else 0
  {
  }

  lemma DigestsAppend(hash: Bytes -> Bytes, rows: seq<Row>, row: Row)
    ensures RowDigests(hash, rows + [row]) == RowDigests(hash, rows) + [hash(EncodeRow(row))]
  {
  }

  lemma {:induction false} DigestCount(hash: Bytes -> Bytes, rows: seq<Row>, row: Row)
    requires forall i :: 0 <= i < |rows| && hash(EncodeRow(rows[i])) == hash(EncodeRow(row)) ==> rows[i] == row
    ensures multiset(RowDigests(hash, rows))[hash(EncodeRow(row))] == multiset(rows)[row]
  {
    if rows != [] {
      var n := |rows| - 1;
      var front, last := rows[..n], rows[n];
      DigestCount(hash, front, row);
      DigestsAppend(hash, front, last);
      assert rows == front + [last];
      CountAppend(front, last, row);
      CountAppend(RowDigests(hash, front), hash(EncodeRow(last)), hash(EncodeRow(row)));
      assert hash(EncodeRow(last)) == hash(EncodeRow(row)) <==> last == row;
    }
  }

  lemma DigestsDiffer(hash: Bytes -> Bytes, rows: seq<Row>, row: Row, inputs: set<Bytes>)
    requires NoCollision(hash, inputs) && RowInputs(rows) <= inputs && EncodeRow(row) in inputs
    ensures multiset(RowDigests(hash, rows))[hash(EncodeRow(row))] == multiset(rows)[row]
  {
    forall i | 0 <= i < |rows| && hash(EncodeRow(rows[i])) == hash(EncodeRow(row))
      ensures rows[i] == row
    {
      assert EncodeRow(rows[i]) in RowInputs(rows);
      RowsAreUniquelyDecodable(rows[i], row);
    }
    DigestCount(hash, rows, row);
  }

  /** The multiset of digests decides the multiset of rows. */
  lemma DigestsDecide(hash: Bytes -> Bytes, a: seq<Row>, b: seq<Row>, inputs: set<Bytes>)
    requires NoCollision(hash, inputs) && RowInputs(a) <= inputs && RowInputs(b) <= inputs
    ensures multiset(RowDigests(hash, a)) == multiset(RowDigests(hash, b)) <==> multiset(a) == multiset(b)
  {
    if multiset(RowDigests(hash, a)) == multiset(RowDigests(hash, b)) {
      forall row
        ensures multiset(a)[row] == multiset(b)[row]
      {
        if row in a || row in b {
          assert EncodeRow(row) in RowInputs(a) + RowInputs(b);
          DigestsDiffer(hash, a, row, inputs);
          DigestsDiffer(hash, b, row, inputs);
        }
      }
    }
    if multiset(a) == multiset(b) {
      forall d
        ensures multiset(RowDigests(hash, a))[d] == multiset(RowDigests(hash, b))[d]
      {
        DigestFrom(hash, a, b, d, inputs);
        DigestFrom(hash, b, a, d, inputs);
      }
    }
  }

  lemma DigestFrom(hash: Bytes -> Bytes, a: seq<Row>, b: seq<Row>, d: Bytes, inputs: set<Bytes>)
    requires NoCollision(hash, inputs) && RowInputs(a) <= inputs && RowInputs(b) <= inputs && multiset(a) == multiset(b)
    ensures d in RowDigests(hash, a) ==> multiset(RowDigests(hash, a))[d] == multiset(RowDigests(hash, b))[d]
  {
    if d in RowDigests(hash, a) {
      var i :| 0 <= i < |a| && RowDigests(hash, a)[i] == d;
      assert EncodeRow(a[i]) in RowInputs(a);
      DigestsDiffer(hash, a, a[i], inputs);
      DigestsDiffer(hash, b, a[i], inputs);
    }
  }

  ghost predicate AllDigests(parts: seq<Bytes>) {
    forall i :: 0 <= i < |parts| ==> |parts[i]| == DIGEST_BYTES
  }

  lemma {:induction false} ConcatDecodes(a: seq<Bytes>, b: seq<Bytes>)
    requires AllDigests(a) && AllDigests(b) && |a| == |b|
    ensures |Concat(a)| == |Concat(b)| == |a| * DIGEST_BYTES
    ensures Concat(a) == Concat(b) ==> a == b
  {
    if a != [] {
      var n := |a| - 1;
      ConcatDecodes(a[..n], b[..n]);
      if Concat(a) == Concat(b) {
        SplitsAt(Concat(a[..n]), a[n], Concat(b[..n]), b[n]);
        assert a == a[..n] + [a[n]] && b == b[..n] + [b[n]];
      }
    }
  }

  lemma SortedDigests(hash: Bytes -> Bytes, rows: seq<Row>, inputs: set<Bytes>)
    requires NoCollision(hash, inputs) && RowInputs(rows) <= inputs
    ensures AllDigests(Sort(RowDigests(hash, rows))) && |Sort(RowDigests(hash, rows))| == |rows|
  {
    var digests := RowDigests(hash, rows);
    SortSorts(digests);
    assert |Sort(digests)| == |multiset(Sort(digests))| == |multiset(digests)| == |digests|;
    forall i | 0 <= i < |Sort(digests)|
      ensures |Sort(digests)[i]| == DIGEST_BYTES
    {
      assert Sort(digests)[i] in multiset(digests) && Sort(digests)[i] in digests;
      var j :| 0 <= j < |digests| && digests[j] == Sort(digests)[i];
      assert EncodeRow(rows[j]) in RowInputs(rows);
    }
  }

  /** With equal row counts, the part of the stream that a table contributes has a fixed length and decides its rows. */
  lemma TableDecides(hash: Bytes -> Bytes, table: Bytes, columns: seq<Bytes>, a: seq<Row>, b: seq<Row>,
                     inputs: set<Bytes>)
    requires NoCollision(hash, inputs) && RowInputs(a) <= inputs && RowInputs(b) <= inputs && |a| == |b|
    ensures |TableStream(hash, table, columns, a)| == |TableStream(hash, table, columns, b)|
    ensures TableStream(hash, table, columns, a) == TableStream(hash, table, columns, b) <==> multiset(a) == multiset(b)
  {
    var x, y := RowDigests(hash, a), RowDigests(hash, b);
    SortedDigests(hash, a, inputs);
    SortedDigests(hash, b, inputs);
    ConcatDecodes(Sort(x), Sort(y));
    SortSorts(x);
    SortSorts(y);
    DigestsDecide(hash, a, b, inputs);
    var header := (table + [0]) + Terminated(columns);
    if TableStream(hash, table, columns, a) == TableStream(hash, table, columns, b) {
      SplitsAt(header, Concat(Sort(x)), header, Concat(Sort(y)));
    }
    if multiset(a) == multiset(b) {
      SortedIsUnique(Sort(x), Sort(y));
    }
  }

  ghost predicate SameRows(tables: seq<Bytes>, a: Contents, b: Contents) {
    forall i :: 0 <= i < |tables| ==>
      tables[i] in a && tables[i] in b && multiset(a[tables[i]]) == multiset(b[tables[i]])
  }

  lemma RowsAreInputs(tables: seq<Bytes>, contents: Contents, i: nat)
    requires i < |tables| && tables[i] in contents
    ensures RowInputs(contents[tables[i]]) <= Inputs(tables, contents)
  {
  }

  lemma PrefixInputs(tables: seq<Bytes>, contents: Contents, n: nat)
    requires n <= |tables|
    ensures Inputs(tables[..n], contents) <= Inputs(tables, contents)
  {
  }

  lemma {:induction false} StreamsDecide(hash: Bytes -> Bytes, tables: seq<Bytes>, a: Contents, b: Contents,
                                         expected: map<Bytes, nat>, columns: map<Bytes, seq<Bytes>>, inputs: set<Bytes>)
    requires NoCollision(hash, inputs) && Inputs(tables, a) <= inputs && Inputs(tables, b) <= inputs
    requires Stream(hash, tables, a, expected, columns).Success? && Stream(hash, tables, b, expected, columns).Success?
    ensures
      var x, y := Stream(hash, tables, a, expected, columns).value, Stream(hash, tables, b, expected, columns).value;
      |x| == |y| && (x == y <==> SameRows(tables, a, b))
  {
    if tables != [] {
      var n := |tables| - 1;
      var table := tables[n];
      PrefixInputs(tables, a, n);
      PrefixInputs(tables, b, n);
      StreamsDecide(hash, tables[..n], a, b, expected, columns, inputs);
      RowsAreInputs(tables, a, n);
      RowsAreInputs(tables, b, n);
      TableDecides(hash, table, columns[table], a[table], b[table], inputs);
      var x, y := Stream(hash, tables[..n], a, expected, columns).value,
        Stream(hash, tables[..n], b, expected, columns).value;
      var p, q := TableStream(hash, table, columns[table], a[table]),
        TableStream(hash, table, columns[table], b[table]);
      if x + p == y + q {
        SplitsAt(x, p, y, q);
      }
      SameRowsSplit(tables, a, b);
    }
  }

  lemma SameRowsSplit(tables: seq<Bytes>, a: Contents, b: Contents)
    requires tables != []
    ensures var n := |tables| - 1;
      SameRows(tables, a, b) <==>
      SameRows(tables[..n], a, b) && tables[n] in a && tables[n] in b &&
      multiset(a[tables[n]]) == multiset(b[tables[n]])
  {
    var n := |tables| - 1;
    assert forall i :: 0 <= i < n ==> tables[..n][i] == tables[i];
  }

  /** The comparison in `migrate`: two databases read with the same tables, columns and row counts
      have equal fingerprints exactly when every table holds the same multiset of projected rows, in
      whatever order each returns them. */
  lemma FingerprintDecidesEquality(hash: Bytes -> Bytes, tables: seq<Bytes>, a: Contents, b: Contents,
                                   expected: map<Bytes, nat>, columns: map<Bytes, seq<Bytes>>)
    requires var x, y := Stream(hash, tables, a, expected, columns), Stream(hash, tables, b, expected, columns);
      && x.Success? && y.Success?
      && NoCollision(hash, Inputs(tables, a) + Inputs(tables, b) + {x.value, y.value})
    ensures FingerprintOf(hash, tables, a, expected, columns) == FingerprintOf(hash, tables, b, expected, columns) <==>
      SameRows(tables, a, b)
  {
    var x, y := Stream(hash, tables, a, expected, columns).value, Stream(hash, tables, b, expected, columns).value;
    StreamsDecide(hash, tables, a, b, expected, columns, Inputs(tables, a) + Inputs(tables, b) + {x, y});
  }
}
