/** Sanitizing event values: excluded paths vanish, sensitive keys and texts are redacted, long texts are cut on a
    character boundary, and what is still too large is replaced by a marker. */
module Sanitizer {
  import opened Wrappers
  import opened Texts

  const MAX_EVENT_STRING_BYTES: nat := 4096
  const REDACTED: string := "[REDACTED]"

  datatype Json =
    | Null
    | Bool(b: bool)
    | Number(digits: string)
    | Text(text: string)
    | Array(items: seq<Json>)
    | Object(fields: seq<(string, Json)>)

  /** The excluded paths, and which keys and texts count as sensitive. */
  datatype Policy = Policy(exclusions: set<string>, sensitiveKey: string -> bool, sensitiveText: string -> bool)

  // ---------- Truncation ----------

  /** The index of the last character that starts at an offset within the limit, looking on from character `i`. */
  function LastStart(s: string, max: nat, i: nat): (n: nat)
    requires i < |s|
    ensures i <= n < |s|
    decreases |s| - i
  {
    if i + 1 < |s| && Utf8Size(s[..i + 1]) <= max then LastStart(s, max, i + 1) else i
  }

  /** `truncate_event_utf8` */
  function Truncate(s: string, max: nat): string {
    if Utf8Size(s) <= max then s
    else
      assert s != "";
      s[..LastStart(s, max, 0)]
  }

  lemma {:induction false} SizeGrows(s: string, i: nat, j: nat)
    requires i <= j <= |s|
    ensures Utf8Size(s[..i]) <= Utf8Size(s[..j])
    ensures i < j ==> Utf8Size(s[..i]) < Utf8Size(s[..j])
  {
    if i < j {
      SizeGrows(s, i, j - 1);
      assert s[..j][..j - 1] == s[..j - 1];
    }
  }

  lemma {:induction false} LastStartIs(s: string, max: nat, i: nat)
    requires i < |s| && Utf8Size(s[..i]) <= max < Utf8Size(s)
    ensures var n := LastStart(s, max, i);
      i <= n < |s| && Utf8Size(s[..n]) <= max < Utf8Size(s[..n + 1])
    decreases |s| - i
  {
    if i + 1 < |s| {
      if Utf8Size(s[..i + 1]) <= max {
        LastStartIs(s, max, i + 1);
      }
    } else {
      assert s[..i + 1] == s;
    }
  }

  /** Truncation keeps whole characters, stays within the limit, and no longer prefix would. */
  lemma TruncateIsLongest(s: string, max: nat)
    ensures var r := Truncate(s, max);
      && r <= s && Utf8Size(r) <= max
      && (forall n :: |r| < n <= |s| ==> Utf8Size(s[..n]) > max)
      && (r == s <==> Utf8Size(s) <= max)
  {
    if Utf8Size(s) > max {
      LastStartIs(s, max, 0);
      var n := LastStart(s, max, 0);
      forall m | n < m <= |s|
        ensures Utf8Size(s[..m]) > max
      {
        SizeGrows(s, n + 1, m);
      }
    }
  }

  // ---------- Serialized size ----------

  /** The octets a character takes inside a JSON string: short escapes, \u escapes for other controls,
      UTF-8 otherwise. */
  function Escaped(c: char): nat {
    if c in "\"\\\n\r\t" || c as int == 8 || c as int == 12 then 2
    else if c as int < 0x20 then 6
    else Octets(c)
  }

  function EscapedSize(s: string): nat {
    if s == "" then 0 else EscapedSize(s[..|s| - 1]) + Escaped(s[|s| - 1])
  }

  function QuotedSize(s: string): nat {
    EscapedSize(s) + 2
  }

  function Width(v: Json): nat {
    match v
    case Array(items) => |items| + 1
    case Object(fields) => |fields| + 1
    case _ => 0
  }

  /** The length of the compact serialization. */
  function Size(v: Json): nat
    decreases v, Width(v)
  {
    match v
    case Null => 4
    case Bool(b) => if b then 4 else 5
    case Number(digits) => |digits|
    case Text(text) => QuotedSize(text)
    case Array(items) => 2 + ItemsSize(v, |items|) + (if items == [] then 0 else |items| - 1)
    case Object(fields) => 2 + FieldsSize(v, |fields|) + (if fields == [] then 0 else |fields| - 1)
  }

  function ItemsSize(v: Json, n: nat): nat
    requires v.Array? && n <= |v.items|
    decreases v, n
  {
    if n == 0 then 0 else ItemsSize(v, n - 1) + Size(v.items[n - 1])
  }

  function FieldsSize(v: Json, n: nat): nat
    requires v.Object? && n <= |v.fields|
    decreases v, n
  {
    if n == 0 then 0 else FieldsSize(v, n - 1) + QuotedSize(v.fields[n - 1].0) + 1 + Size(v.fields[n - 1].1)
  }

  // ---------- Paths ----------

  function Join(parent: string, child: string): string {
    if parent == "" then child else parent + "." + child
  }

  /** `event_path_excluded`: an excluded path, or one below it. */
  predicate Excluded(policy: Policy, path: string) {
    exists e :: e in policy.exclusions && (path == e || (|path| > |e| && path[..|e|] == e && path[|e|] == '.'))
  }

  /** What lies below an excluded path is excluded. */
  lemma ExclusionIsInherited(policy: Policy, path: string, child: string)
    requires Excluded(policy, path) && path != ""
    ensures Excluded(policy, Join(path, child))
  {
    var e :| e in policy.exclusions && (path == e || (|path| > |e| && path[..|e|] == e && path[|e|] == '.'));
    var below := Join(path, child);
    assert below == path + ("." + child);
    assert below[..|path|] == path && below[|path|] == '.';
    assert below[..|e|] == path[..|e|] == e && below[|e|] == '.';
  }

  /** The path that leads through these object keys. */
  function PathOf(keys: seq<string>): string {
    if keys == [] then "" else Join(PathOf(keys[..|keys| - 1]), keys[|keys| - 1])
  }

  /** Keys that a path shows one by one. */
  predicate PlainKeys(keys: seq<string>) {
    forall i :: 0 <= i < |keys| ==> keys[i] != "" && '.' !in keys[i]
  }

  predicate Gone(policy: Policy, keys: seq<string>, i: nat)
    requires i < |keys|
  {
    Excluded(policy, PathOf(keys[..i + 1]))
  }

  lemma {:induction false} DotEndsPrefix(keys: seq<string>, e: string) returns (k: nat)
    requires PlainKeys(keys) && keys != []
    requires |PathOf(keys)| > |e| && PathOf(keys)[..|e|] == e && PathOf(keys)[|e|] == '.' && e != ""
    ensures 1 <= k < |keys| && PathOf(keys[..k]) == e
  {
    var n := |keys| - 1;
    var front, last, path := PathOf(keys[..n]), keys[n], PathOf(keys);
    if front != "" && |e| < |front| {
      assert path == front + ("." + last) && front == path[..|front|];
      assert front[..|e|] == e && front[|e|] == '.';
      k := DotEndsPrefix(keys[..n], e);
      assert keys[..n][..k] == keys[..k];
    } else {
      assert front != "" ==> path == front + ("." + last) && path[..|front|] == front;
      k := n;
    }
  }

  /** A path is excluded exactly when some exclusion is the path itself or the path of an object on the way to it. */
  lemma ExclusionsReach(policy: Policy, keys: seq<string>)
    requires PlainKeys(keys) && keys != [] && "" !in policy.exclusions
    ensures Excluded(policy, PathOf(keys)) <==>
            exists k :: 1 <= k <= |keys| && PathOf(keys[..k]) in policy.exclusions
  {
    var path := PathOf(keys);
    assert keys[..|keys|] == keys;
    if Excluded(policy, path) {
      var e :| e in policy.exclusions && (path == e || (|path| > |e| && path[..|e|] == e && path[|e|] == '.'));
      if path != e {
        var k := DotEndsPrefix(keys, e);
        assert PathOf(keys[..k]) in policy.exclusions;
      } else {
        assert PathOf(keys[..|keys|]) in policy.exclusions;
      }
    }
    if k :| 1 <= k <= |keys| && PathOf(keys[..k]) in policy.exclusions {
      assert Gone(policy, keys, k - 1);
      ExclusionDescends(policy, keys, k, |keys|);
    }
  }

  lemma {:induction false} ExclusionDescends(policy: Policy, keys: seq<string>, k: nat, n: nat)
    requires PlainKeys(keys) && 1 <= k <= n <= |keys|
    requires Gone(policy, keys, k - 1)
    ensures Gone(policy, keys, n - 1)
  {
    if k < n {
      ExclusionDescends(policy, keys, k, n - 1);
      ExclusionStep(policy, keys, n - 1);
    }
  }

  lemma ExclusionStep(policy: Policy, keys: seq<string>, n: nat)
    requires PlainKeys(keys) && 1 <= n < |keys| && Gone(policy, keys, n - 1)
    ensures Gone(policy, keys, n)
  {
    PathGrows(keys, n);
    ExclusionIsInherited(policy, PathOf(keys[..n]), keys[n]);
    PathSplit(keys, n);
  }

  lemma PathGrows(keys: seq<string>, n: nat)
    requires PlainKeys(keys) && 0 < n <= |keys|
    ensures PathOf(keys[..n]) != ""
  {
    assert keys[n - 1] != "";
    PathSplit(keys, n - 1);
  }

  lemma PathSplit(keys: seq<string>, i: nat)
    requires i < |keys|
    ensures PathOf(keys[..i + 1]) == Join(PathOf(keys[..i]), keys[i])
  {
    assert keys[..i + 1][..i] == keys[..i];
  }

  function Decimal(n: nat): string {
    (if n < 10 then "" else Decimal(n / 10)) + ["0123456789"[n % 10]]
  }

  // ---------- Sanitizing ----------

  function SanitizeText(policy: Policy, text: string): string {
    Truncate(if policy.sensitiveText(text) then REDACTED else text, MAX_EVENT_STRING_BYTES)
  }

  /** `sanitize_event_value` */
  function Sanitize(policy: Policy, v: Json, path: string): Json
    decreases v, Width(v)
  {
    match v
    case Object(fields) => Object(SanitizeFields(policy, v, path, |fields|))
    case Array(items) =>
      Array(seq(|items|, i requires 0 <= i < |items| =>
        if Excluded(policy, Join(path, Decimal(i))) then Null else Sanitize(policy, items[i], Join(path, Decimal(i)))))
    case Text(text) => Text(SanitizeText(policy, text))
    case _ => v
  }

  function SanitizeFields(policy: Policy, v: Json, path: string, n: nat): seq<(string, Json)>
    requires v.Object? && n <= |v.fields|
    decreases v, n
  {
    if n == 0 then []
    else
      var (key, value) := v.fields[n - 1];
      var child := Join(path, key);
      SanitizeFields(policy, v, path, n - 1) +
      if Excluded(policy, child) then []
      else [(key, if policy.sensitiveKey(key) then Text(REDACTED) else Sanitize(policy, value, child))]
  }

  /** No excluded path keeps a value, every sensitive key is redacted, and every text is within the limit. */
  ghost predicate Sanitized(policy: Policy, v: Json, path: string)
    decreases v
  {
    match v
    case Object(fields) =>
      forall i :: 0 <= i < |fields| ==>
        && !Excluded(policy, Join(path, fields[i].0))
        && if policy.sensitiveKey(fields[i].0) then fields[i].1 == Text(REDACTED)
           else Sanitized(policy, fields[i].1, Join(path, fields[i].0))
    case Array(items) =>
      forall i :: 0 <= i < |items| ==>
        if Excluded(policy, Join(path, Decimal(i))) then items[i] == Null
        else Sanitized(policy, items[i], Join(path, Decimal(i)))
    case Text(text) => Utf8Size(text) <= MAX_EVENT_STRING_BYTES
    case _ => true
  }

  lemma {:induction false} SanitizeSanitizes(policy: Policy, v: Json, path: string)
    ensures Sanitized(policy, Sanitize(policy, v, path), path)
    decreases v
  {
    match v
    case Object(fields) =>
      forall i | 0 <= i < |fields|
        ensures FieldSanitized(policy, v, path, i)
      {
        SanitizeSanitizes(policy, fields[i].1, Join(path, fields[i].0));
      }
      FieldsSanitized(policy, v, path, |fields|);
      FieldsFit(policy, SanitizeFields(policy, v, path, |fields|), path);
    case Array(items) =>
      forall i | 0 <= i < |items| && !Excluded(policy, Join(path, Decimal(i)))
        ensures Sanitized(policy, Sanitize(policy, items[i], Join(path, Decimal(i))), Join(path, Decimal(i)))
      {
        SanitizeSanitizes(policy, items[i], Join(path, Decimal(i)));
      }
    case Text(text) => TruncateIsLongest(if policy.sensitiveText(text) then REDACTED else text, MAX_EVENT_STRING_BYTES);
    case _ =>
  }

  ghost predicate FieldSanitized(policy: Policy, v: Json, path: string, i: nat)
    requires v.Object? && i < |v.fields|
  {
    var (key, value) := v.fields[i];
    Sanitized(policy, Sanitize(policy, value, Join(path, key)), Join(path, key))
  }

  /** What a surviving field looks like. */
  ghost predicate FieldFits(policy: Policy, path: string, field: (string, Json)) {
    && !Excluded(policy, Join(path, field.0))
    && if policy.sensitiveKey(field.0) then field.1 == Text(REDACTED)
       else Sanitized(policy, field.1, Join(path, field.0))
  }

  lemma {:induction false} FieldsSanitized(policy: Policy, v: Json, path: string, n: nat)
    requires v.Object? && n <= |v.fields|
    requires forall i :: 0 <= i < |v.fields| ==> FieldSanitized(policy, v, path, i)
    ensures forall field :: field in SanitizeFields(policy, v, path, n) ==> FieldFits(policy, path, field)
  {
    if n > 0 {
      FieldsSanitized(policy, v, path, n - 1);
      LastFieldFits(policy, v, path, n);
    }
  }

  lemma LastFieldFits(policy: Policy, v: Json, path: string, n: nat)
    requires v.Object? && 0 < n <= |v.fields| && FieldSanitized(policy, v, path, n - 1)
    ensures forall field :: field in SanitizeFields(policy, v, path, n) ==>
              field in SanitizeFields(policy, v, path, n - 1) || FieldFits(policy, path, field)
  {
  }

  lemma FieldsFit(policy: Policy, fields: seq<(string, Json)>, path: string)
    requires forall field :: field in fields ==> FieldFits(policy, path, field)
    ensures Sanitized(policy, Object(fields), path)
  {
    forall i | 0 <= i < |fields|
      ensures FieldFits(policy, path, fields[i])
    {
      assert fields[i] in fields;
    }
  }

  // ---------- Exclusion and redaction alone ----------

  /** The input with excluded paths and sensitive keys and texts gone, and nothing else changed. */
  function Redact(policy: Policy, v: Json, path: string): Json
    decreases v, Width(v)
  {
    match v
    case Object(fields) => Object(RedactFields(policy, v, path, |fields|))
    case Array(items) =>
      Array(seq(|items|, i requires 0 <= i < |items| =>
        if Excluded(policy, Join(path, Decimal(i))) then Null else Redact(policy, items[i], Join(path, Decimal(i)))))
    case Text(text) => if policy.sensitiveText(text) then Text(REDACTED) else v
    case _ => v
  }

  function RedactFields(policy: Policy, v: Json, path: string, n: nat): seq<(string, Json)>
    requires v.Object? && n <= |v.fields|
    decreases v, n
  {
    if n == 0 then []
    else
      var (key, value) := v.fields[n - 1];
      var child := Join(path, key);
      RedactFields(policy, v, path, n - 1) +
      if Excluded(policy, child) then []
      else [(key, if policy.sensitiveKey(key) then Text(REDACTED) else Redact(policy, value, child))]
  }

  /** Nothing in the value is excluded or sensitive. */
  ghost predicate Harmless(policy: Policy, v: Json, path: string)
    decreases v
  {
    match v
    case Object(fields) =>
      forall i :: 0 <= i < |fields| ==>
        && !Excluded(policy, Join(path, fields[i].0)) && !policy.sensitiveKey(fields[i].0)
        && Harmless(policy, fields[i].1, Join(path, fields[i].0))
    case Array(items) =>
      forall i :: 0 <= i < |items| ==>
        !Excluded(policy, Join(path, Decimal(i))) && Harmless(policy, items[i], Join(path, Decimal(i)))
    case Text(text) => !policy.sensitiveText(text)
    case _ => true
  }

  /** A harmless value is kept as it is. */
  lemma {:induction false} HarmlessIsKept(policy: Policy, v: Json, path: string)
    requires Harmless(policy, v, path)
    ensures Redact(policy, v, path) == v
    decreases v, Width(v)
  {
    match v
    case Object(fields) =>
      forall i | 0 <= i < |fields|
        ensures FieldKept(policy, v, path, i)
      {
        HarmlessIsKept(policy, fields[i].1, Join(path, fields[i].0));
      }
      FieldsAreKept(policy, v, path, |fields|);
      assert fields[..|fields|] == fields;
    case Array(items) =>
      forall i | 0 <= i < |items|
        ensures Redact(policy, items[i], Join(path, Decimal(i))) == items[i]
      {
        HarmlessIsKept(policy, items[i], Join(path, Decimal(i)));
      }
    case _ =>
  }

  ghost predicate FieldKept(policy: Policy, v: Json, path: string, i: nat)
    requires v.Object? && i < |v.fields|
  {
    var (key, value) := v.fields[i];
    !Excluded(policy, Join(path, key)) && !policy.sensitiveKey(key) && Redact(policy, value, Join(path, key)) == value
  }

  lemma TakeOneMore<T>(s: seq<T>, n: nat)
    requires 0 < n <= |s|
    ensures s[..n] == s[..n - 1] + [s[n - 1]]
  {
  }

  lemma OneFieldKept(policy: Policy, v: Json, path: string, n: nat)
    requires v.Object? && 0 < n <= |v.fields| && FieldKept(policy, v, path, n - 1)
    ensures RedactFields(policy, v, path, n) == RedactFields(policy, v, path, n - 1) + [v.fields[n - 1]]
  {
    var (key, value) := v.fields[n - 1];
    assert (key, value) == v.fields[n - 1];
  }

  lemma {:induction false} FieldsAreKept(policy: Policy, v: Json, path: string, n: nat)
    requires v.Object? && n <= |v.fields|
    requires forall i :: 0 <= i < n ==> FieldKept(policy, v, path, i)
    ensures RedactFields(policy, v, path, n) == v.fields[..n]
  {
    if n > 0 {
      FieldsAreKept(policy, v, path, n - 1);
      OneFieldKept(policy, v, path, n);
      TakeOneMore(v.fields, n);
    }
  }

  ghost predicate HasField(fields: seq<(string, Json)>, key: string) {
    exists i :: 0 <= i < |fields| && fields[i].0 == key
  }

  lemma HasFieldAppend(front: seq<(string, Json)>, f: (string, Json), key: string)
    ensures HasField(front + [f], key) <==> HasField(front, key) || f.0 == key
  {
    var all := front + [f];
    assert all[|front|] == f;
    if HasField(front, key) {
      var i :| 0 <= i < |front| && front[i].0 == key;
      assert all[i].0 == key;
    }
  }

  /** Of an object exactly the fields survive whose paths are not excluded, each under its own key. */
  lemma {:induction false} SurvivingFields(policy: Policy, v: Json, path: string, n: nat, key: string)
    requires v.Object? && n <= |v.fields|
    ensures HasField(SanitizeFields(policy, v, path, n), key) <==>
            HasField(v.fields[..n], key) && !Excluded(policy, Join(path, key))
  {
    if n > 0 {
      var (k, value) := v.fields[n - 1];
      var front := SanitizeFields(policy, v, path, n - 1);
      SurvivingFields(policy, v, path, n - 1, key);
      assert v.fields[..n] == v.fields[..n - 1] + [v.fields[n - 1]];
      HasFieldAppend(v.fields[..n - 1], v.fields[n - 1], key);
      var child := Join(path, k);
      HasFieldAppend(front, (k, if policy.sensitiveKey(k) then Text(REDACTED) else Sanitize(policy, value, child)),
                     key);
      assert front + [] == front;
    }
  }

  // ---------- Looking a value up by its keys ----------

  function FieldOf(fields: seq<(string, Json)>, key: string): Option<Json> {
    if fields == [] then None
    else
      var n := |fields| - 1;
      if fields[n].0 == key then Some(fields[n].1) else FieldOf(fields[..n], key)
  }

  /** The value that an object holds under nested keys. */
  function Reach(v: Json, keys: seq<string>): Option<Json>
    decreases |keys|
  {
    if keys == [] then Some(v)
    else
      match v
      case Object(fields) =>
        (match FieldOf(fields, keys[0])
         case None => None
         case Some(x) => Reach(x, keys[1..]))
      case _ => None
  }

  lemma FieldOfAppend(front: seq<(string, Json)>, f: (string, Json), key: string)
    ensures FieldOf(front + [f], key) == if f.0 == key then Some(f.1) else FieldOf(front, key)
  {
    assert (front + [f])[..|front|] == front;
  }

  /** What becomes of the value under a key. */
  function Cleaned(policy: Policy, x: Json, path: string, key: string): Option<Json> {
    if Excluded(policy, Join(path, key)) then None
    else Some(if policy.sensitiveKey(key) then Text("[REDACTED]") else Sanitize(policy, x, Join(path, key)))
  }

  lemma LastCleaned(policy: Policy, v: Json, path: string, n: nat)
    requires v.Object? && 0 < n <= |v.fields|
    ensures var (k, x) := v.fields[n - 1];
      SanitizeFields(policy, v, path, n) ==
      SanitizeFields(policy, v, path, n - 1) +
      match Cleaned(policy, x, path, k) case None => [] case Some(y) => [(k, y)]
  {
  }

  /** The lookup under a key, before and after. */
  ghost predicate LooksUp(policy: Policy, v: Json, path: string, n: nat, key: string)
    requires v.Object? && n <= |v.fields|
  {
    FieldOf(SanitizeFields(policy, v, path, n), key) == CleanedIfAny(policy, FieldOf(v.fields[..n], key), path, key)
  }

  function CleanedIfAny(policy: Policy, x: Option<Json>, path: string, key: string): Option<Json> {
    match x case None => None case Some(y) => Cleaned(policy, y, path, key)
  }

  lemma {:induction false} FieldOfSanitized(policy: Policy, v: Json, path: string, n: nat, key: string)
    requires v.Object? && n <= |v.fields|
    ensures LooksUp(policy, v, path, n, key)
  {
    if n > 0 {
      FieldOfSanitized(policy, v, path, n - 1, key);
      LooksUpStep(policy, v, path, n, key);
    } else {
      LooksUpNone(policy, v, path, key);
    }
  }

  lemma LooksUpNone(policy: Policy, v: Json, path: string, key: string)
    requires v.Object?
    ensures LooksUp(policy, v, path, 0, key)
  {
  }

  lemma LooksUpStep(policy: Policy, v: Json, path: string, n: nat, key: string)
    requires v.Object? && 0 < n <= |v.fields| && LooksUp(policy, v, path, n - 1, key)
    ensures LooksUp(policy, v, path, n, key)
  {
    var k, x := v.fields[n - 1].0, v.fields[n - 1].1;
    var y := Cleaned(policy, x, path, k);
    LastCleaned(policy, v, path, n);
    LookupAppend(v.fields[..n - 1], k, Some(x), v.fields[..n], key);
    LookupAppend(SanitizeFields(policy, v, path, n - 1), k, y, SanitizeFields(policy, v, path, n), key);
    CleanedField(policy, v, path, n - 1, key);
    CleanedIsSome(policy, x, path, k);
  }

  lemma CleanedIsSome(policy: Policy, x: Json, path: string, key: string)
    ensures Cleaned(policy, x, path, key).Some? <==> !Excluded(policy, Join(path, key))
    ensures CleanedIfAny(policy, Some(x), path, key) == Cleaned(policy, x, path, key)
  {
  }

  lemma LookupAppend(front: seq<(string, Json)>, k: string, y: Option<Json>, all: seq<(string, Json)>, key: string)
    requires all == front + match y case None => [] case Some(x) => [(k, x)]
    ensures FieldOf(all, key) == if k == key && y.Some? then y else FieldOf(front, key)
  {
    match y
    case Some(x) => FieldOfAppend(front, (k, x), key);
    case None => assert front + [] == front;
  }

  /** Excluded fields are not found. */
  lemma CleanedField(policy: Policy, v: Json, path: string, n: nat, key: string)
    requires v.Object? && n <= |v.fields|
    ensures Excluded(policy, Join(path, key)) ==> FieldOf(SanitizeFields(policy, v, path, n), key) == None
  {
    SurvivingFields(policy, v, path, n, key);
    FieldOfHas(SanitizeFields(policy, v, path, n), key);
  }

  lemma {:induction false} FieldOfHas(fields: seq<(string, Json)>, key: string)
    ensures FieldOf(fields, key).Some? ==> HasField(fields, key)
  {
    if fields != [] {
      var n := |fields| - 1;
      assert fields == fields[..n] + [fields[n]];
      HasFieldAppend(fields[..n], fields[n], key);
      FieldOfHas(fields[..n], key);
    }
  }

  /** Nothing on the way from the key at `from` on is excluded or sensitive. */
  ghost predicate OnlyOpen(policy: Policy, keys: seq<string>, from: nat) {
    forall i :: from <= i < |keys| ==> !policy.sensitiveKey(keys[i]) && !Gone(policy, keys, i)
  }

  lemma {:induction false} ReachSanitized(policy: Policy, v: Json, keys: seq<string>, from: nat)
    requires from <= |keys| && OnlyOpen(policy, keys, from)
    ensures Reach(Sanitize(policy, v, PathOf(keys[..from])), keys[from..]) ==
            match Reach(v, keys[from..]) case None => None case Some(x) => Some(Sanitize(policy, x, PathOf(keys)))
    decreases |keys| - from
  {
    if from == |keys| {
      assert keys[..from] == keys;
    } else if v.Object? {
      OneLevel(policy, v, keys, from);
      if FieldOf(v.fields, keys[from]).Some? {
        ReachSanitized(policy, FieldOf(v.fields, keys[from]).value, keys, from + 1);
      }
    }
  }

  lemma OneLevel(policy: Policy, v: Json, keys: seq<string>, from: nat)
    requires from < |keys| && v.Object?
    ensures keys[from..][1..] == keys[from + 1..]
    ensures FieldOf(Sanitize(policy, v, PathOf(keys[..from])).fields, keys[from]) ==
            match FieldOf(v.fields, keys[from])
            case None => None
            case Some(x) =>
              if Gone(policy, keys, from) then None
              else if policy.sensitiveKey(keys[from]) then Some(Text("[REDACTED]"))
              else Some(Sanitize(policy, x, PathOf(keys[..from + 1])))
  {
    assert v.fields[..|v.fields|] == v.fields;
    FieldOfSanitized(policy, v, PathOf(keys[..from]), |v.fields|, keys[from]);
    assert LooksUp(policy, v, PathOf(keys[..from]), |v.fields|, keys[from]);
    PathSplit(keys, from);
  }

  /** `r` may stand under the keys: nothing on the way is excluded, and under a sensitive key it is only the marker. */
  ghost predicate Allowed(policy: Policy, keys: seq<string>, from: nat, r: Json) {
    forall i :: from <= i < |keys| ==>
      !Gone(policy, keys, i) && (policy.sensitiveKey(keys[i]) ==> i == |keys| - 1 && r == Text("[REDACTED]"))
  }

  /** What is found under keys in the sanitized value was there before and may stand there. */
  lemma {:induction false} NothingLeaks(policy: Policy, v: Json, keys: seq<string>, from: nat, r: Json)
    requires from <= |keys| && Reach(Sanitize(policy, v, PathOf(keys[..from])), keys[from..]) == Some(r)
    ensures Reach(v, keys[from..]).Some? && Allowed(policy, keys, from, r)
    decreases |keys| - from
  {
    if from < |keys| {
      var x := LeakStep(policy, v, keys, from, r);
      if !policy.sensitiveKey(keys[from]) {
        NothingLeaks(policy, x, keys, from + 1, r);
      }
    }
  }

  /** One key on the way to a value that is found in the result. */
  lemma LeakStep(policy: Policy, v: Json, keys: seq<string>, from: nat, r: Json) returns (x: Json)
    requires from < |keys| && Reach(Sanitize(policy, v, PathOf(keys[..from])), keys[from..]) == Some(r)
    ensures !Gone(policy, keys, from) && Reach(v, keys[from..]) == Reach(x, keys[from + 1..])
    ensures policy.sensitiveKey(keys[from]) ==>
              from == |keys| - 1 && r == Text("[REDACTED]") && Reach(v, keys[from..]).Some?
    ensures !policy.sensitiveKey(keys[from]) ==>
              Reach(Sanitize(policy, x, PathOf(keys[..from + 1])), keys[from + 1..]) == Some(r)
  {
    OneLevel(policy, v, keys, from);
    x := FieldOf(v.fields, keys[from]).value;
    if policy.sensitiveKey(keys[from]) {
      LeafEnds(keys[from + 1..], r);
      assert keys[from..][1..] == [];
    }
  }

  /** Object keys against the exclusions alone: a value is found in the result exactly when it was there and no path on
      the way to it is excluded, and then it is the sanitized value. */
  lemma SanitizedReach(policy: Policy, v: Json, keys: seq<string>)
    requires PlainKeys(keys) && keys != [] && "" !in policy.exclusions
    requires forall i :: 0 <= i < |keys| ==> !policy.sensitiveKey(keys[i])
    ensures Reach(Sanitize(policy, v, ""), keys) ==
            if exists k :: 1 <= k <= |keys| && PathOf(keys[..k]) in policy.exclusions then None
            else match Reach(v, keys) case None => None case Some(x) => Some(Sanitize(policy, x, PathOf(keys)))
  {
    ExclusionsReach(policy, keys);
    if Gone(policy, keys, |keys| - 1) {
      ReachGone(policy, v, keys);
    } else {
      ReachOpen(policy, v, keys);
    }
    assert keys[..|keys|] == keys;
  }

  lemma ReachGone(policy: Policy, v: Json, keys: seq<string>)
    requires keys != [] && Gone(policy, keys, |keys| - 1)
    ensures Reach(Sanitize(policy, v, ""), keys) == None
  {
    var r := Reach(Sanitize(policy, v, ""), keys);
    assert keys[..0] == [] && keys[0..] == keys;
    if r.Some? {
      NothingLeaks(policy, v, keys, 0, r.value);
    }
  }

  lemma ReachOpen(policy: Policy, v: Json, keys: seq<string>)
    requires PlainKeys(keys) && keys != [] && !Gone(policy, keys, |keys| - 1)
    requires forall i :: 0 <= i < |keys| ==> !policy.sensitiveKey(keys[i])
    ensures Reach(Sanitize(policy, v, ""), keys) ==
            match Reach(v, keys) case None => None case Some(x) => Some(Sanitize(policy, x, PathOf(keys)))
  {
    assert keys[..0] == [] && keys[0..] == keys;
    forall i | 0 <= i < |keys|
      ensures !Gone(policy, keys, i)
    {
      if Gone(policy, keys, i) {
        ExclusionDescends(policy, keys, i + 1, |keys|);
      }
    }
    ReachSanitized(policy, v, keys, 0);
  }

  /** A text is replaced when it is sensitive, and is otherwise the longest prefix within 4 KiB. */
  lemma TextIsSanitized(policy: Policy, text: string, path: string)
    ensures Sanitize(policy, Text(text), path).Text?
    ensures var r := Sanitize(policy, Text(text), path).text;
      if policy.sensitiveText(text) then r == "[REDACTED]"
      else r <= text && Utf8Size(r) <= 4096 && forall n :: |r| < n <= |text| ==> Utf8Size(text[..n]) > 4096
  {
    RedactedIsShort();
    TruncateIsLongest(text, MAX_EVENT_STRING_BYTES);
  }

  lemma LeafEnds(keys: seq<string>, r: Json)
    requires Reach(Text("[REDACTED]"), keys) == Some(r)
    ensures keys == [] && r == Text("[REDACTED]")
  {
  }

  /** `event_value_was_truncated`: some text anywhere is over the limit. */
  predicate HasLongText(v: Json) {
    match v
    case Text(text) => Utf8Size(text) > MAX_EVENT_STRING_BYTES
    case Array(items) => exists i :: 0 <= i < |items| && HasLongText(items[i])
    case Object(fields) => exists i :: 0 <= i < |fields| && HasLongText(fields[i].1)
    case _ => false
  }

  lemma RedactedIsShort()
    ensures Utf8Size(REDACTED) <= MAX_EVENT_STRING_BYTES
  {
    SizeAtMost(REDACTED);
  }

  lemma {:induction false} SizeAtMost(s: string)
    ensures Utf8Size(s) <= 4 * |s|
  {
    if s != "" {
      SizeAtMost(s[..|s| - 1]);
    }
  }

  /** Without a long text, sanitizing is exclusion and redaction alone. */
  lemma {:induction false} ShortTextsAreOnlyRedacted(policy: Policy, v: Json, path: string)
    requires !HasLongText(v)
    ensures Sanitize(policy, v, path) == Redact(policy, v, path)
    decreases v, Width(v)
  {
    match v
    case Object(fields) => ShortFieldsAreOnlyRedacted(policy, v, path, |fields|);
    case Array(items) =>
      forall i | 0 <= i < |items|
        ensures Sanitize(policy, items[i], Join(path, Decimal(i))) == Redact(policy, items[i], Join(path, Decimal(i)))
      {
        ShortTextsAreOnlyRedacted(policy, items[i], Join(path, Decimal(i)));
      }
    case Text(text) => RedactedIsShort();
    case _ =>
  }

  lemma {:induction false} ShortFieldsAreOnlyRedacted(policy: Policy, v: Json, path: string, n: nat)
    requires v.Object? && n <= |v.fields| && !HasLongText(v)
    ensures SanitizeFields(policy, v, path, n) == RedactFields(policy, v, path, n)
    decreases v, n
  {
    if n > 0 {
      ShortFieldsAreOnlyRedacted(policy, v, path, n - 1);
      assert !HasLongText(v.fields[n - 1].1);
      ShortTextsAreOnlyRedacted(policy, v.fields[n - 1].1, Join(path, v.fields[n - 1].0));
    }
  }

  // ---------- The whole preparation ----------

  function SizeMarker(): Json {
    Object([("reason", Text("size_limit")), ("truncated", Bool(true))])
  }

  const MARKER_BYTES: nat := 40

  lemma {:induction false} PlainSize(s: string)
    requires forall i :: 0 <= i < |s| ==> 'a' <= s[i] <= 'z' || s[i] == '_'
    ensures EscapedSize(s) == |s|
  {
    if s != "" {
      PlainSize(s[..|s| - 1]);
    }
  }

  lemma MarkerSize()
    ensures Size(SizeMarker()) == MARKER_BYTES
  {
    PlainSize("reason");
    PlainSize("size_limit");
    PlainSize("truncated");
    var m := SizeMarker();
    assert FieldsSize(m, 1) == QuotedSize("reason") + 1 + Size(Text("size_limit"));
    assert FieldsSize(m, 2) == FieldsSize(m, 1) + QuotedSize("truncated") + 1 + Size(Bool(true));
  }

  /** What is stored for a value: its sanitized form, or the marker when that is too large. */
  function Prepared(policy: Policy, value: Json, maxBytes: nat): Json {
    var sanitized := Sanitize(policy, value, "");
    if Size(sanitized) > maxBytes then SizeMarker() else sanitized
  }

  /** `prepare_sanitized_json`. The result fits unless it is a marker that does not fit itself; it is sanitized unless
      it is the marker; and when nothing is reported as truncated it is the input after exclusion and redaction. */
  method PrepareSanitized(policy: Policy, value: Json, maxBytes: nat) returns (sanitized: Json, truncated: bool)
    ensures sanitized == Prepared(policy, value, maxBytes)
    ensures Size(sanitized) <= maxBytes <==> Size(Sanitize(policy, value, "")) <= maxBytes || MARKER_BYTES <= maxBytes
    ensures sanitized == SizeMarker() || Sanitized(policy, sanitized, "")
    ensures !truncated ==> sanitized == Redact(policy, value,
                                               "") && Size(sanitized) <= maxBytes && Size(value) <= maxBytes
    ensures truncated <==> Size(value) > maxBytes || HasLongText(value) || Size(Sanitize(policy, value, "")) > maxBytes
  {
    truncated := Size(value) > maxBytes || HasLongText(value);
    sanitized := Sanitize(policy, value, "");
    SanitizeSanitizes(policy, value, "");
    MarkerSize();
    if !HasLongText(value) {
      ShortTextsAreOnlyRedacted(policy, value, "");
    }
    if Size(sanitized) > maxBytes {
      sanitized := SizeMarker();
      truncated := true;
    }
  }

  function Nulls(n: nat): Json {
    Array(seq(n, _ => Null))
  }

  lemma {:induction false} NullsSize(v: Json, n: nat)
    requires v.Array? && n <= |v.items| && forall i :: 0 <= i < n ==> v.items[i] == Null
    ensures ItemsSize(v, n) == 4 * n
    decreases n
  {
    if n > 0 {
      NullsSize(v, n - 1);
    }
  }

  /** An array of nulls is sanitized to itself, whatever is excluded. */
  lemma NullsAreKept(policy: Policy, n: nat, path: string)
    ensures Sanitize(policy, Nulls(n), path) == Nulls(n) && Size(Nulls(n)) >= 4 * n
  {
    NullsSize(Nulls(n), n);
    assert Sanitize(policy, Nulls(n), path).items == Nulls(n).items;
  }

  /** The limit is kept for all values exactly when the marker is within it. */
  lemma LimitIsKeptIff(policy: Policy, maxBytes: nat)
    ensures (forall value :: Size(Prepared(policy, value, maxBytes)) <= maxBytes) <==> maxBytes >= MARKER_BYTES
  {
    MarkerSize();
    if maxBytes < MARKER_BYTES {
      NullsAreKept(policy, MARKER_BYTES, "");
      assert Size(Prepared(policy, Nulls(MARKER_BYTES), maxBytes)) > maxBytes;
    }
  }
}
