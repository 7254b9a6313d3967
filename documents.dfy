/**
 * Turning an uploaded document into a flat, ordered list of statements
 * (`parse_document_content` in backend/app/main.py).
 *
 * The JSON and YAML parsers are not modelled: their outcome is an input,
 * `None` when the parser raised its decode error and `Some(tree)` otherwise.
 * spaCy's sentence splitter is an input too: `None` when no spaCy model is
 * loaded, `Some(texts)` with the sentence texts it produces for the content.
 */
module Documents {
  import opened Wrappers

  /** A value as `json.loads` or `yaml.safe_load` builds it; dictionaries keep insertion order. */
  datatype Json =
    | JNull
    | JBool(b: bool)
    | JInt(i: int)
    | JStr(s: string)
    | JList(items: seq<Json>)
    | JDict(entries: seq<Entry>)

  datatype Entry = Entry(key: string, value: Json)

  predicate IsScalar(v: Json) {
    !v.JList? && !v.JDict?
  }

  /** Python truthiness: `None`, `False`, `0`, `""`, `[]` and `{}` are falsy. */
  predicate Truthy(v: Json) {
    match v
    case JNull => false
    case JBool(b) => b
    case JInt(i) => i != 0
    case JStr(s) => s != ""
    case JList(xs) => xs != []
    case JDict(es) => es != []
  }

  // ---------------------------------------------------------------------
  // str() and repr()
  // ---------------------------------------------------------------------

  /** The number a string of decimal digits spells, most significant digit first. */
  function DecimalValue(s: string): nat {
    if s == [] then 0
    else
      var c := s[|s| - 1];
      DecimalValue(s[..|s| - 1]) * 10 + (if '0' <= c <= '9' then c as int - '0' as int else 0)
  }

  /** `str(n)` for a natural number: its decimal numeral, without leading zeros. */
  function NatToString(n: nat): (s: string)
    ensures |s| >= 1
    ensures forall k :: 0 <= k < |s| ==> '0' <= s[k] <= '9'
    ensures DecimalValue(s) == n
    ensures |s| > 1 ==> s[0] != '0'
  {
    if n < 10 then ["0123456789"[n]]
    else
      var prefix := NatToString(n / 10);
      var s := prefix + ["0123456789"[n % 10]];
      assert s[..|s| - 1] == prefix;
      s
  }

  function IntToString(i: int): string {
    if i < 0 then "-" + NatToString(-i) else NatToString(i)
  }

  /** `str(v)`: a string is itself, everything else is its `repr`. */
  function Str(v: Json): (r: string)
    ensures v.JStr? ==> r == v.s
    ensures v.JInt? && v.i >= 0 ==> r == NatToString(v.i)
    ensures v.JInt? && v.i < 0 ==> r == "-" + NatToString(-v.i)
  {
    if v.JStr? then v.s
    else
      assert v.JInt? ==> Repr(v) == IntToString(v.i);
      Repr(v)
  }

  /** `repr(v)`, with strings quoted by single quotes and no escaping. */
  function Repr(v: Json): string {
    match v
    case JNull => "None"
    case JBool(b) => if b then "True" else "False"
    case JInt(i) => IntToString(i)
    case JStr(s) => "'" + s + "'"
    case JList(xs) => "[" + ReprItems(xs) + "]"
    case JDict(es) => "{" + ReprEntries(es) + "}"
  }

  function ReprItems(xs: seq<Json>): string {
    if xs == [] then ""
    else if |xs| == 1 then Repr(xs[0])
    else Repr(xs[0]) + ", " + ReprItems(xs[1..])
  }

  function ReprEntries(es: seq<Entry>): string {
    if es == [] then ""
    else
      var head := "'" + es[0].key + "': " + Repr(es[0].value);
      if |es| == 1 then head else head + ", " + ReprEntries(es[1..])
  }

  // ---------------------------------------------------------------------
  // Flattening a tree (the nested `recurse` helper)
  // ---------------------------------------------------------------------

  /** The strings of the scalar leaves of `v`, in traversal order. */
  function Flatten(v: Json): seq<string> {
    match v
    case JList(xs) => FlattenItems(xs)
    case JDict(es) => FlattenEntries(es)
    case _ => [Str(v)]
  }

  function FlattenItems(xs: seq<Json>): seq<string> {
    if xs == [] then [] else FlattenItems(xs[..|xs| - 1]) + Flatten(xs[|xs| - 1])
  }

  function FlattenEntries(es: seq<Entry>): seq<string> {
    if es == [] then [] else FlattenEntries(es[..|es| - 1]) + Flatten(es[|es| - 1].value)
  }

  /**
   * `recurse(d)`: walks the dictionary values and list elements in order and
   * appends `str` of every scalar it meets to the captured list, which is
   * threaded through here as `items`.
   */
  method Recurse(d: Json, items: seq<string>) returns (out: seq<string>)
    ensures out == items + Flatten(d)
    decreases d
  {
    match d
    case JDict(es) =>
      out := items;
      var k := 0;
      while k < |es|
        invariant k <= |es|
        invariant out == items + FlattenEntries(es[..k])
      {
        assert es[..k + 1][..k] == es[..k];
        out := Recurse(es[k].value, out);
        k := k + 1;
      }
      assert es[..k] == es;
    case JList(xs) =>
      out := items;
      var k := 0;
      while k < |xs|
        invariant k <= |xs|
        invariant out == items + FlattenItems(xs[..k])
      {
        assert xs[..k + 1][..k] == xs[..k];
        out := Recurse(xs[k], out);
        k := k + 1;
      }
      assert xs[..k] == xs;
    case _ =>
      out := items + [Str(d)];
  }

  lemma {:induction false} FlattenEntriesAppend(a: seq<Entry>, b: seq<Entry>)
    ensures FlattenEntries(a + b) == FlattenEntries(a) + FlattenEntries(b)
    decreases |b|
  {
    if b == [] {
      assert a + b == a;
    } else {
      var b' := b[..|b| - 1];
      assert (a + b)[..|a + b| - 1] == a + b';
      assert (a + b)[|a + b| - 1] == b[|b| - 1];
      FlattenEntriesAppend(a, b');
    }
  }

  lemma {:induction false} FlattenItemsAppend(a: seq<Json>, b: seq<Json>)
    ensures FlattenItems(a + b) == FlattenItems(a) + FlattenItems(b)
    decreases |b|
  {
    if b == [] {
      assert a + b == a;
    } else {
      var b' := b[..|b| - 1];
      assert (a + b)[..|a + b| - 1] == a + b';
      assert (a + b)[|a + b| - 1] == b[|b| - 1];
      FlattenItemsAppend(a, b');
    }
  }

  /** Flattening a dictionary visits its values in order: it distributes over concatenation of entries. */
  lemma FlattenDictInOrder(a: seq<Entry>, b: seq<Entry>)
    ensures Flatten(JDict(a + b)) == Flatten(JDict(a)) + Flatten(JDict(b))
  {
    FlattenEntriesAppend(a, b);
  }

  /** Flattening a list visits its elements in order. */
  lemma FlattenListInOrder(a: seq<Json>, b: seq<Json>)
    ensures Flatten(JList(a + b)) == Flatten(JList(a)) + Flatten(JList(b))
  {
    FlattenItemsAppend(a, b);
  }

  /** The number of scalar leaves of a tree. */
  function LeafCount(v: Json): nat {
    match v
    case JList(xs) => ItemsLeafCount(xs)
    case JDict(es) => EntriesLeafCount(es)
    case _ => 1
  }

  function ItemsLeafCount(xs: seq<Json>): nat {
    if xs == [] then 0 else ItemsLeafCount(xs[..|xs| - 1]) + LeafCount(xs[|xs| - 1])
  }

  function EntriesLeafCount(es: seq<Entry>): nat {
    if es == [] then 0 else EntriesLeafCount(es[..|es| - 1]) + LeafCount(es[|es| - 1].value)
  }

  /** Flattening yields exactly one string per scalar leaf. */
  lemma {:induction false} FlattenLength(v: Json)
    ensures |Flatten(v)| == LeafCount(v)
    decreases v, 1
  {
    match v
    case JList(xs) => FlattenItemsLength(xs);
    case JDict(es) => FlattenEntriesLength(es);
    case _ =>
  }

  lemma {:induction false} FlattenItemsLength(xs: seq<Json>)
    ensures |FlattenItems(xs)| == ItemsLeafCount(xs)
    decreases xs, 0
  {
    if xs != [] {
      FlattenItemsLength(xs[..|xs| - 1]);
      FlattenLength(xs[|xs| - 1]);
    }
  }

  lemma {:induction false} FlattenEntriesLength(es: seq<Entry>)
    ensures |FlattenEntries(es)| == EntriesLeafCount(es)
    decreases es, 0
  {
    if es != [] {
      FlattenEntriesLength(es[..|es| - 1]);
      FlattenLength(es[|es| - 1].value);
    }
  }

  // ---------------------------------------------------------------------
  // A parsed tree at the top level
  // ---------------------------------------------------------------------

  /** `[str(i) for i in data]`: no recursion into the elements. */
  function StrEach(xs: seq<Json>): (r: seq<string>)
    ensures |r| == |xs|
    ensures forall i :: 0 <= i < |xs| ==> r[i] == Str(xs[i])
  {
    if xs == [] then [] else [Str(xs[0])] + StrEach(xs[1..])
  }

  /**
   * What a successfully parsed tree gives: a dictionary is flattened, a list
   * gives `str` of each element, and any other value gives nothing, so that
   * parsing falls through to the next format.
   */
  function TreeItems(data: Json): (r: Option<seq<string>>)
    ensures data.JDict? ==> r == Some(Flatten(data))
    ensures data.JList? ==> r.Some? && |r.value| == |data.items|
                            && forall i :: 0 <= i < |data.items| ==> r.value[i] == Str(data.items[i])
    ensures IsScalar(data) ==> r == None
  {
    match data
    case JDict(_) => Some(Flatten(data))
    case JList(xs) => Some(StrEach(xs))
    case _ => None
  }

  function ParsedItems(parsed: Option<Json>): Option<seq<string>> {
    if parsed.Some? then TreeItems(parsed.value) else None
  }

  // ---------------------------------------------------------------------
  // The plain-text fallback
  // ---------------------------------------------------------------------

  /** The characters Python's `str.strip()` removes (those `str.isspace()` accepts). */
  predicate IsSpace(c: char) {
    var n := c as int;
    (9 <= n <= 13) || (28 <= n <= 32) || n == 0x85 || n == 0xA0 || n == 0x1680
    || (0x2000 <= n <= 0x200A) || n == 0x2028 || n == 0x2029 || n == 0x202F
    || n == 0x205F || n == 0x3000
  }

  predicate IsTrimmed(s: string) {
    s == [] || (!IsSpace(s[0]) && !IsSpace(s[|s| - 1]))
  }

  /** `s.lstrip()`: the suffix left after dropping leading whitespace. */
  function TrimStart(s: string): (r: string)
    ensures |r| <= |s| && r == s[|s| - |r|..]
    ensures forall k :: 0 <= k < |s| - |r| ==> IsSpace(s[k])
    ensures r == [] || !IsSpace(r[0])
  {
    if s != [] && IsSpace(s[0]) then TrimStart(s[1..]) else s
  }

  /** `s.rstrip()`: the prefix left after dropping trailing whitespace. */
  function TrimEnd(s: string): (r: string)
    ensures |r| <= |s| && r == s[..|r|]
    ensures forall k :: |r| <= k < |s| ==> IsSpace(s[k])
    ensures r == [] || !IsSpace(r[|r| - 1])
  {
    if s != [] && IsSpace(s[|s| - 1]) then TrimEnd(s[..|s| - 1]) else s
  }

  /**
   * `s.strip()`: `s` without its leading and trailing whitespace. The contracts
   * of TrimStart and TrimEnd say that only whitespace is removed, and only at the ends.
   */
  function Trim(s: string): (r: string)
    ensures IsTrimmed(r) && |r| <= |s|
  {
    TrimEnd(TrimStart(s))
  }

  /** `s.split(sep)`: the pieces between separators; always at least one piece. */
  function Split(s: string, sep: char): (r: seq<string>)
    ensures |r| >= 1
  {
    if s == [] then [""]
    else
      var rest := Split(s[1..], sep);
      if s[0] == sep then [""] + rest else [[s[0]] + rest[0]] + rest[1..]
  }

  /** `sep.join(parts)`. */
  function Join(parts: seq<string>, sep: char): string {
    if parts == [] then ""
    else if |parts| == 1 then parts[0]
    else parts[0] + [sep] + Join(parts[1..], sep)
  }

  /** Splitting and joining again gives back the original text. */
  lemma {:induction false} JoinSplit(s: string, sep: char)
    ensures Join(Split(s, sep), sep) == s
  {
    if s != [] {
      var rest := Split(s[1..], sep);
      JoinSplit(s[1..], sep);
      if s[0] == sep {
        assert Split(s, sep) == [""] + rest;
        assert ([""] + rest)[1..] == rest;
      } else {
        var parts := [[s[0]] + rest[0]] + rest[1..];
        assert parts[1..] == rest[1..];
        if |rest| > 1 {
          assert rest == [rest[0]] + rest[1..];
          assert Join(rest, sep) == rest[0] + [sep] + Join(rest[1..], sep);
        }
      }
    }
  }

  /** No piece of a split contains the separator. */
  lemma {:induction false} SplitPiecesHaveNoSeparator(s: string, sep: char)
    ensures forall k :: 0 <= k < |Split(s, sep)| ==> sep !in Split(s, sep)[k]
  {
    if s != [] {
      SplitPiecesHaveNoSeparator(s[1..], sep);
    }
  }

  /** `[p.strip() for p in parts if p.strip()]`. */
  function NonBlankTrimmed(parts: seq<string>): (r: seq<string>)
    ensures |r| <= |parts|
  {
    if parts == [] then []
    else
      var t := Trim(parts[0]);
      (if t != "" then [t] else []) + NonBlankTrimmed(parts[1..])
  }

  /** Every kept piece is non-empty and trimmed. */
  lemma {:induction false} NonBlankTrimmedAreTrimmed(parts: seq<string>, k: nat)
    requires k < |NonBlankTrimmed(parts)|
    ensures NonBlankTrimmed(parts)[k] != "" && IsTrimmed(NonBlankTrimmed(parts)[k])
  {
    var t := Trim(parts[0]);
    var rest := NonBlankTrimmed(parts[1..]);
    if t != "" {
      assert NonBlankTrimmed(parts) == [t] + rest;
      if k > 0 {
        NonBlankTrimmedAreTrimmed(parts[1..], k - 1);
      }
    } else {
      assert NonBlankTrimmed(parts) == rest;
      NonBlankTrimmedAreTrimmed(parts[1..], k);
    }
  }

  /** A string is kept iff it is the non-empty trimmed form of some piece. */
  lemma {:induction false} NonBlankTrimmedMembers(parts: seq<string>, x: string)
    ensures x in NonBlankTrimmed(parts) <==> x != "" && exists j :: 0 <= j < |parts| && Trim(parts[j]) == x
  {
    if parts != [] {
      var t := Trim(parts[0]);
      var head := if t != "" then [t] else [];
      assert NonBlankTrimmed(parts) == head + NonBlankTrimmed(parts[1..]);
      InAppend(x, head, NonBlankTrimmed(parts[1..]));
      NonBlankTrimmedMembers(parts[1..], x);
      if x != "" && Trim(parts[0]) != x && x in NonBlankTrimmed(parts) {
        var j :| 0 <= j < |parts[1..]| && Trim(parts[1..][j]) == x;
        assert Trim(parts[j + 1]) == x;
      }
      if x != "" && Trim(parts[0]) != x && (exists j :: 0 <= j < |parts| && Trim(parts[j]) == x) {
        var j :| 0 <= j < |parts| && Trim(parts[j]) == x;
        assert j != 0;
        assert Trim(parts[1..][j - 1]) == x;
      }
    }
  }

  /** An element of a concatenation is an element of one of its parts. */
  lemma InAppend<T>(x: T, a: seq<T>, b: seq<T>)
    ensures x in a + b <==> x in a || x in b
  {
  }

  /** A non-empty sequence is its head followed by its tail, also in front of anything appended. */
  lemma SplitHead<T>(a: seq<T>, b: seq<T>)
    requires a != []
    ensures a == [a[0]] + a[1..]
    ensures a + b == [a[0]] + (a[1..] + b)
    ensures ([a[0]] + (a[1..] + b))[0] == a[0]
    ensures ([a[0]] + (a[1..] + b))[1..] == a[1..] + b
  {
  }

  lemma AppendAssoc<T>(x: seq<T>, y: seq<T>, z: seq<T>)
    ensures x + (y + z) == (x + y) + z
  {
  }

  /** The filter keeps the order of the pieces: filtering a concatenation concatenates the filtered parts. */
  lemma {:induction false} NonBlankTrimmedAppend(a: seq<string>, b: seq<string>)
    ensures NonBlankTrimmed(a + b) == NonBlankTrimmed(a) + NonBlankTrimmed(b)
  {
    if a == [] {
      assert a + b == b;
    } else {
      NonBlankTrimmedAppend(a[1..], b);
      SplitHead(a, b);
      AppendAssoc(if Trim(a[0]) != "" then [Trim(a[0])] else [], NonBlankTrimmed(a[1..]), NonBlankTrimmed(b));
    }
  }

  /** The plain-text reading of `content`. */
  function PlainText(content: string, sentences: Option<seq<string>>): (r: seq<string>)
    ensures |NonBlankTrimmed(Split(content, '\n'))| > 1 ==> r == NonBlankTrimmed(Split(content, '\n'))
    ensures |NonBlankTrimmed(Split(content, '\n'))| <= 1 && sentences.Some? ==> r == NonBlankTrimmed(sentences.value)
    ensures |NonBlankTrimmed(Split(content, '\n'))| <= 1 && sentences.None? ==> r == [Trim(content)]
  {
    var lines := NonBlankTrimmed(Split(content, '\n'));
    if |lines| > 1 then lines
    else if sentences.Some? then NonBlankTrimmed(sentences.value)
    else [Trim(content)]
  }

  /** The list `parse_document_content` returns, stated over the parsers' outcomes. */
  function DocumentItems(content: string, jsonParsed: Option<Json>, yamlParsed: Option<Json>,
                         sentences: Option<seq<string>>): seq<string>
  {
    match ParsedItems(jsonParsed)
    case Some(items) => items
    case None =>
      match ParsedItems(yamlParsed)
      case Some(items) => items
      case None => PlainText(content, sentences)
  }

  /**
   * `parse_document_content`: JSON first, then YAML, then plain text. A document that
   * parses to a scalar, or does not parse, falls through to the next reading.
   */
  method ParseDocumentContent(content: string, jsonParsed: Option<Json>, yamlParsed: Option<Json>,
                              sentences: Option<seq<string>>) returns (items: seq<string>)
    ensures items == DocumentItems(content, jsonParsed, yamlParsed, sentences)
    ensures jsonParsed.Some? && jsonParsed.value.JDict? ==> items == Flatten(jsonParsed.value)
    ensures (jsonParsed.None? || IsScalar(jsonParsed.value)) && (yamlParsed.None? || IsScalar(yamlParsed.value))
            ==> items == PlainText(content, sentences)
  {
    if jsonParsed.Some? {
      var data := jsonParsed.value;
      if data.JDict? {
        items := Recurse(data, []);
        return;
      } else if data.JList? {
        items := StrEach(data.items);
        return;
      }
    }
    if yamlParsed.Some? {
      var data := yamlParsed.value;
      if data.JDict? {
        items := Recurse(data, []);
        return;
      } else if data.JList? {
        items := StrEach(data.items);
        return;
      }
    }
    var lines := NonBlankTrimmed(Split(content, '\n'));
    if |lines| > 1 {
      items := lines;
    } else if sentences.Some? {
      items := NonBlankTrimmed(sentences.value);
    } else {
      items := [Trim(content)];
    }
  }
}
