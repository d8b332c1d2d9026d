/**
 * `canonicalJson`: prints a JSON value with the keys of every object sorted.  Values keep the
 * order of their entries, because the original iterates objects in that order.
 *
 * A number is the text JSON.stringify prints for it.  Strings are sequences of Unicode scalar
 * values, escaped as section 7 of RFC 8259 requires and JSON.stringify does.
 */
module CanonicalJson {
  datatype Entry<T> = Entry(key: string, value: T)

  datatype Value =
    | Null
    | Bool(b: bool)
    | Num(text: string)
    | Str(s: string)
    | Arr(items: seq<Value>)
    | Obj(entries: seq<Entry<Value>>)

  // ---- text ----------------------------------------------------------------------------------

  function Hex(n: nat): char
    requires n < 16
  {
    if n < 10 then ('0' as int + n) as char else ('a' as int + n - 10) as char
  }

  function Escape(c: char): string {
    if c == '\"' then "\\\""
    else if c == '\\' then "\\\\"
    else if c as int == 8 then "\\b"
    else if c == '\t' then "\\t"
    else if c == '\n' then "\\n"
    else if c as int == 12 then "\\f"
    else if c == '\r' then "\\r"
    else if (c as int) < 32 then "\\u00" + [Hex(c as int / 16), Hex(c as int % 16)]
    else [c]
  }

  function EscapeAll(s: string): string {
    if s == "" then "" else Escape(s[0]) + EscapeAll(s[1..])
  }

  function Quote(s: string): string {
    "\"" + EscapeAll(s) + "\""
  }

  function Join(texts: seq<string>): string {
    if texts == [] then ""
    else if |texts| == 1 then texts[0]
    else texts[0] + "," + Join(texts[1..])
  }

  // ---- sorting -------------------------------------------------------------------------------

  type Order = (string, string) -> bool      // `a.localeCompare(b) < 0`

  /** Puts `e` before the first entry whose key is not smaller: earlier entries win ties. */
  function Insert<T>(less: Order, e: Entry<T>, sorted: seq<Entry<T>>): seq<Entry<T>> {
    if sorted == [] || !less(sorted[0].key, e.key) then [e] + sorted
    else [sorted[0]] + Insert(less, e, sorted[1..])
  }

  /** The stable sort of `Array.prototype.sort`. */
  function Sort<T>(less: Order, entries: seq<Entry<T>>): seq<Entry<T>> {
    if entries == [] then [] else Insert(less, entries[0], Sort(less, entries[1..]))
  }

  // ---- the function ----------------------------------------------------------------------------

  function Field(e: Entry<string>): string {
    Quote(e.key) + ":" + e.value
  }

  function Fields(entries: seq<Entry<string>>): seq<string> {
    seq(|entries|, i requires 0 <= i < |entries| => Field(entries[i]))
  }

  function CanonicalJson(less: Order, v: Value): string {
    match v
    case Null => "null"
    case Bool(b) => if b then "true" else "false"
    case Num(text) => text
    case Str(s) => Quote(s)
    case Arr(items) => "[" + Join(seq(|items|, i requires 0 <= i < |items| => CanonicalJson(less, items[i]))) + "]"
    case Obj(entries) =>
      var printed := seq(|entries|, i requires 0 <= i < |entries| =>
                           Entry(entries[i].key, CanonicalJson(less, entries[i].value)));
      "{" + Join(Fields(Sort(less, printed))) + "}"
  }

  // ---- meaning ---------------------------------------------------------------------------------

  datatype Meaning =
    | MNull | MBool(b: bool) | MNum(text: string) | MStr(s: string)
    | MArr(items: seq<Meaning>) | MObj(fields: map<string, Meaning>)

  /** A value up to the order of object keys. */
  function Mean(v: Value): Meaning {
    match v
    case Null => MNull
    case Bool(b) => MBool(b)
    case Num(text) => MNum(text)
    case Str(s) => MStr(s)
    case Arr(items) => MArr(seq(|items|, i requires 0 <= i < |items| => Mean(items[i])))
    case Obj(entries) => MObj(MeanFields(entries))
  }

  function MeanFields(entries: seq<Entry<Value>>): map<string, Meaning> {
    if entries == [] then map[] else MeanFields(entries[1..])[entries[0].key := Mean(entries[0].value)]
  }

  // ---- what JSON values are ----------------------------------------------------------------------

  predicate NumberChar(c: char) {
    '0' <= c <= '9' || c in "+-.eE"
  }

  predicate NumberText(text: string) {
    && text != "" && ('0' <= text[0] <= '9' || text[0] == '-')
    && forall i :: 0 <= i < |text| ==> NumberChar(text[i])
  }

  predicate DistinctKeys<T>(entries: seq<Entry<T>>) {
    forall i, j :: 0 <= i < j < |entries| ==> entries[i].key != entries[j].key
  }

  /** A JSON value: numbers look like numbers, and no object has a key twice. */
  predicate WellFormed(v: Value) {
    match v
    case Num(text) => NumberText(text)
    case Arr(items) => forall i :: 0 <= i < |items| ==> WellFormed(items[i])
    case Obj(entries) => DistinctKeys(entries) && forall i :: 0 <= i < |entries| ==> WellFormed(entries[i].value)
    case _ => true
  }

  // ---- printing is sorting, then writing ------------------------------------------------------------

  function OrderedEntries(less: Order, entries: seq<Entry<Value>>): seq<Entry<Value>> {
    seq(|entries|, i requires 0 <= i < |entries| => Entry(entries[i].key, Ordered(less, entries[i].value)))
  }

  function Ordered(less: Order, v: Value): Value {
    match v
    case Arr(items) => Arr(seq(|items|, i requires 0 <= i < |items| => Ordered(less, items[i])))
    case Obj(entries) => Obj(Sort(less, OrderedEntries(less, entries)))
    case _ => v
  }

  function Print(v: Value): string {
    match v
    case Null => "null"
    case Bool(b) => if b then "true" else "false"
    case Num(text) => text
    case Str(s) => Quote(s)
    case Arr(items) => "[" + Join(Prints(items)) + "]"
    case Obj(entries) => "{" + Join(PrintsOfEntries(entries)) + "}"
  }

  function PrintEntry(e: Entry<Value>): string {
    Quote(e.key) + ":" + Print(e.value)
  }

  function Prints(items: seq<Value>): seq<string> {
    seq(|items|, i requires 0 <= i < |items| => Print(items[i]))
  }

  function PrintsOfEntries(entries: seq<Entry<Value>>): seq<string> {
    seq(|entries|, i requires 0 <= i < |entries| => PrintEntry(entries[i]))
  }

  function PrintedEntries(entries: seq<Entry<Value>>): seq<Entry<string>> {
    seq(|entries|, i requires 0 <= i < |entries| => Entry(entries[i].key, Print(entries[i].value)))
  }

  /** Sorting looks at keys only. */
  lemma {:induction false} InsertPrinted(less: Order, e: Entry<Value>, sorted: seq<Entry<Value>>)
    ensures Insert(less, Entry(e.key, Print(e.value)), PrintedEntries(sorted)) == PrintedEntries(Insert(less, e, sorted))
  {
    if sorted != [] && less(sorted[0].key, e.key) {
      InsertPrinted(less, e, sorted[1..]);
      assert PrintedEntries(sorted)[1..] == PrintedEntries(sorted[1..]);
    }
  }

  lemma {:induction false} SortPrinted(less: Order, entries: seq<Entry<Value>>)
    ensures Sort(less, PrintedEntries(entries)) == PrintedEntries(Sort(less, entries))
  {
    if entries != [] {
      SortPrinted(less, entries[1..]);
      assert PrintedEntries(entries)[1..] == PrintedEntries(entries[1..]);
      InsertPrinted(less, entries[0], Sort(less, entries[1..]));
    }
  }

  lemma {:induction false} CanonicalIsPrintOfOrdered(less: Order, v: Value)
    ensures CanonicalJson(less, v) == Print(Ordered(less, v))
  {
    match v
    case Arr(items) =>
      var ordered := Ordered(less, v).items;
      forall i | 0 <= i < |items| ensures CanonicalJson(less, items[i]) == Print(ordered[i]) {
        CanonicalIsPrintOfOrdered(less, items[i]);
      }
      assert seq(|items|, i requires 0 <= i < |items| => CanonicalJson(less, items[i]))
          == Prints(ordered);
    case Obj(entries) =>
      var printed := seq(|entries|, i requires 0 <= i < |entries| =>
                           Entry(entries[i].key, CanonicalJson(less, entries[i].value)));
      var ordered := OrderedEntries(less, entries);
      forall i | 0 <= i < |entries| ensures printed[i] == Entry(ordered[i].key, Print(ordered[i].value)) {
        CanonicalIsPrintOfOrdered(less, entries[i].value);
      }
      assert printed == PrintedEntries(ordered);
      SortPrinted(less, ordered);
      var sorted := Sort(less, ordered);
      assert Fields(PrintedEntries(sorted)) == PrintsOfEntries(sorted);
    case _ =>
  }

  // ---- unique readability ----------------------------------------------------------------------------

  /** What can follow a printed value. */
  predicate Delimiter(x: string) {
    x == "" || x[0] in ",]}"
  }

  lemma ReadEscape(c: char, d: char, x: string, y: string)
    requires Escape(c) + x == Escape(d) + y
    ensures c == d && x == y
  {
    var a, b := Escape(c) + x, Escape(d) + y;
    assert a[0] == Escape(c)[0] && b[0] == Escape(d)[0];
    if a[0] == '\\' {
      assert a[1] == Escape(c)[1] && b[1] == Escape(d)[1];
      if a[1] == 'u' {
        assert a[4] == Escape(c)[4] && b[4] == Escape(d)[4] && a[5] == Escape(c)[5] && b[5] == Escape(d)[5];
        assert c as int / 16 == d as int / 16 && c as int % 16 == d as int % 16;
      }
    }
    assert c == d;
    assert x == a[|Escape(c)|..] && y == b[|Escape(d)|..];
  }

  lemma EscapedHead(s: string)
    ensures s != "" ==> EscapeAll(s) != "" && EscapeAll(s)[0] == Escape(s[0])[0] && EscapeAll(s)[0] != '\"'
  {}

  /** Sequence facts over plain strings, so that no printed form has to be unfolded for them. */
  lemma Assoc(a: string, b: string, c: string)
    ensures (a + b) + c == a + (b + c)
  {}

  lemma Unwrap(open: string, middle: string, close: string, x: string)
    requires |open| == 1
    ensures (open + middle + close + x)[1..] == middle + (close + x)
  {}

  lemma EscapedFront(s: string, x: string)
    requires s != ""
    ensures EscapeAll(s) + x == Escape(s[0]) + (EscapeAll(s[1..]) + x)
    ensures s == [s[0]] + s[1..]
  {
    Assoc(Escape(s[0]), EscapeAll(s[1..]), x);
  }

  /** The closing quote is where it looks: nothing escaped starts with one. */
  lemma QuoteEnds(s: string, x: string)
    ensures s == "" <==> (EscapeAll(s) + ("\"" + x))[0] == '\"'
  {
    EscapedHead(s);
    if s != "" {
      assert (EscapeAll(s) + ("\"" + x))[0] == EscapeAll(s)[0];
    }
  }

  lemma {:induction false} ReadEscaped(s: string, t: string, x: string, y: string)
    requires EscapeAll(s) + ("\"" + x) == EscapeAll(t) + ("\"" + y)
    ensures s == t && x == y
  {
    QuoteEnds(s, x);
    QuoteEnds(t, y);
    if s == "" {
      assert x == (EscapeAll(s) + ("\"" + x))[1..] && y == (EscapeAll(t) + ("\"" + y))[1..];
    } else {
      EscapedFront(s, "\"" + x);
      EscapedFront(t, "\"" + y);
      ReadEscape(s[0], t[0], EscapeAll(s[1..]) + ("\"" + x), EscapeAll(t[1..]) + ("\"" + y));
      ReadEscaped(s[1..], t[1..], x, y);
    }
  }

  lemma ReadQuoted(s: string, t: string, x: string, y: string)
    requires Quote(s) + x == Quote(t) + y
    ensures s == t && x == y
  {
    Unwrap("\"", EscapeAll(s), "\"", x);
    Unwrap("\"", EscapeAll(t), "\"", y);
    ReadEscaped(s, t, x, y);
  }

  /** A number ends where its characters end. */
  lemma NumberNotShorter(a: string, b: string, x: string, y: string)
    requires NumberText(b) && Delimiter(x) && a + x == b + y
    ensures |b| <= |a|
  {
    var r := a + x;
    assert forall i :: 0 <= i < |b| ==> NumberChar(r[i]) by {
      assert forall i :: 0 <= i < |b| ==> r[i] == (b + y)[i] == b[i];
    }
    if |a| < |r| {
      assert r[|a|] == x[0];
      assert !NumberChar(r[|a|]);
    }
  }

  lemma ReadNumber(a: string, b: string, x: string, y: string)
    requires NumberText(a) && NumberText(b) && Delimiter(x) && Delimiter(y) && a + x == b + y
    ensures a == b && x == y
  {
    NumberNotShorter(a, b, x, y);
    NumberNotShorter(b, a, y, x);
    assert a == (a + x)[..|a|] && b == (b + y)[..|b|];
    assert x == (a + x)[|a|..] && y == (b + y)[|b|..];
  }

  /** What the first character of a printed value says. */
  lemma PrintHead(v: Value)
    requires WellFormed(v)
    ensures Print(v) != ""
    ensures match v
            case Null => Print(v)[0] == 'n'
            case Bool(b) => Print(v)[0] == if b then 't' else 'f'
            case Num(_) => '0' <= Print(v)[0] <= '9' || Print(v)[0] == '-'
            case Str(_) => Print(v)[0] == '\"'
            case Arr(_) => Print(v)[0] == '['
            case Obj(_) => Print(v)[0] == '{'
  {}

  /** What follows the first element of a non-empty list, up to and including the closing character. */
  function Rest(texts: seq<string>, close: char, x: string): string
    requires texts != []
  {
    if |texts| == 1 then [close] + x else "," + (Join(texts[1..]) + ([close] + x))
  }

  lemma JoinFront(texts: seq<string>, close: char, x: string)
    requires texts != [] && close in "]}"
    ensures Join(texts) + ([close] + x) == texts[0] + Rest(texts, close, x)
    ensures Delimiter(Rest(texts, close, x))
  {
    if |texts| > 1 {
      Regroup(texts[0], ",", Join(texts[1..]), [close] + x);
    }
  }

  lemma Regroup(a: string, b: string, c: string, d: string)
    ensures a + b + c + d == a + (b + (c + d))
  {}

  lemma SameWhole<T>(a: seq<T>, b: seq<T>)
    requires a != [] && b != [] && a[0] == b[0] && a[1..] == b[1..]
    ensures a == b
  {
    assert a == [a[0]] + a[1..] && b == [b[0]] + b[1..];
  }

  /** The two lists go on, or end, together. */
  lemma ReadRest(a: seq<string>, b: seq<string>, close: char, x: string, y: string)
    requires a != [] && b != [] && close in "]}" && Rest(a, close, x) == Rest(b, close, y)
    ensures |a| == 1 <==> |b| == 1
    ensures |a| == 1 ==> x == y
    ensures |a| > 1 ==> Join(a[1..]) + ([close] + x) == Join(b[1..]) + ([close] + y)
  {
    var r := Rest(a, close, x);
    if |a| == 1 {
      assert x == r[1..];
      assert |b| == 1 ==> y == r[1..];
    } else {
      assert r[1..] == Join(a[1..]) + ([close] + x);
      assert |b| > 1 ==> r[1..] == Join(b[1..]) + ([close] + y);
    }
  }

  /** A list ends at once exactly when it is empty. */
  lemma ListEnds(texts: seq<string>, close: char, x: string)
    requires forall i :: 0 <= i < |texts| ==> texts[i] != "" && texts[i][0] != close
    ensures texts == [] <==> (Join(texts) + ([close] + x))[0] == close
  {
    if texts != [] {
      assert (Join(texts) + ([close] + x))[0] == texts[0][0];
    }
  }

  /** Two printed lists begin alike: both are empty, or their first elements can be read off. */
  lemma ListFront(a: seq<string>, b: seq<string>, close: char, x: string, y: string)
    requires close in "]}" && Join(a) + ([close] + x) == Join(b) + ([close] + y)
    requires forall i :: 0 <= i < |a| ==> a[i] != "" && a[i][0] != close
    requires forall i :: 0 <= i < |b| ==> b[i] != "" && b[i][0] != close
    ensures a == [] <==> b == []
    ensures a == [] ==> x == y
    ensures a != [] ==>
              && a[0] + Rest(a, close, x) == b[0] + Rest(b, close, y)
              && Delimiter(Rest(a, close, x)) && Delimiter(Rest(b, close, y))
  {
    ListEnds(a, close, x);
    ListEnds(b, close, y);
    if a == [] {
      assert x == (Join(a) + ([close] + x))[1..] && y == (Join(b) + ([close] + y))[1..];
    } else {
      JoinFront(a, close, x);
      JoinFront(b, close, y);
    }
  }

  lemma {:induction false} ReadItems(vs: seq<Value>, ws: seq<Value>, x: string, y: string)
    requires forall i :: 0 <= i < |vs| ==> WellFormed(vs[i])
    requires forall i :: 0 <= i < |ws| ==> WellFormed(ws[i])
    requires Join(Prints(vs)) + ("]" + x) == Join(Prints(ws)) + ("]" + y)
    ensures vs == ws && x == y
    decreases vs, 0
  {
    var a, b := Prints(vs), Prints(ws);
    forall i | 0 <= i < |vs| ensures a[i] != "" && a[i][0] != ']' { PrintHead(vs[i]); }
    forall i | 0 <= i < |ws| ensures b[i] != "" && b[i][0] != ']' { PrintHead(ws[i]); }
    ListFront(a, b, ']', x, y);
    if vs != [] {
      Readable(vs[0], ws[0], Rest(a, ']', x), Rest(b, ']', y));
      ReadRest(a, b, ']', x, y);
      if |vs| > 1 {
        assert a[1..] == Prints(vs[1..]) && b[1..] == Prints(ws[1..]);
        ReadItems(vs[1..], ws[1..], x, y);
      }
      SameWhole(vs, ws);
    }
  }

  lemma EntryFront(key: string, value: string, x: string)
    ensures key + ":" + value + x == key + (":" + (value + x))
    ensures (":" + (value + x))[1..] == value + x
  {}

  lemma EntryHead(e: Entry<Value>)
    ensures PrintEntry(e) != "" && PrintEntry(e)[0] == '\"'
  {}

  lemma {:induction false} ReadEntry(e: Entry<Value>, f: Entry<Value>, x: string, y: string)
    requires WellFormed(e.value) && WellFormed(f.value) && Delimiter(x) && Delimiter(y)
    requires PrintEntry(e) + x == PrintEntry(f) + y
    ensures e == f && x == y
    decreases e, 0
  {
    EntryFront(Quote(e.key), Print(e.value), x);
    EntryFront(Quote(f.key), Print(f.value), y);
    ReadQuoted(e.key, f.key, ":" + (Print(e.value) + x), ":" + (Print(f.value) + y));
    Readable(e.value, f.value, x, y);
  }

  lemma EntryTexts(es: seq<Entry<Value>>)
    ensures |PrintsOfEntries(es)| == |es|
    ensures forall i :: 0 <= i < |es| ==> PrintsOfEntries(es)[i] != "" && PrintsOfEntries(es)[i][0] == '\"'
    ensures es != [] ==>
              && PrintsOfEntries(es)[0] == PrintEntry(es[0])
              && PrintsOfEntries(es)[1..] == PrintsOfEntries(es[1..])
  {
    forall i | 0 <= i < |es| ensures PrintsOfEntries(es)[i] != "" && PrintsOfEntries(es)[i][0] == '\"' {
      EntryHead(es[i]);
    }
  }

  lemma {:induction false} ReadEntries(es: seq<Entry<Value>>, fs: seq<Entry<Value>>, x: string, y: string)
    requires forall i :: 0 <= i < |es| ==> WellFormed(es[i].value)
    requires forall i :: 0 <= i < |fs| ==> WellFormed(fs[i].value)
    requires Join(PrintsOfEntries(es)) + ("}" + x) == Join(PrintsOfEntries(fs)) + ("}" + y)
    ensures es == fs && x == y
    decreases es, 0
  {
    var a, b := PrintsOfEntries(es), PrintsOfEntries(fs);
    EntryTexts(es);
    EntryTexts(fs);
    ListFront(a, b, '}', x, y);
    if es != [] {
      ReadEntry(es[0], fs[0], Rest(a, '}', x), Rest(b, '}', y));
      ReadRest(a, b, '}', x, y);
      if |es| > 1 {
        ReadEntries(es[1..], fs[1..], x, y);
      }
      SameWhole(es, fs);
    }
  }

  /** A value of another kind starts with another character. */
  lemma SameKind(v: Value, w: Value, x: string, y: string)
    requires WellFormed(v) && WellFormed(w) && Print(v) + x == Print(w) + y
    ensures v.Null? == w.Null? && v.Num? == w.Num? && v.Str? == w.Str? && v.Arr? == w.Arr? && v.Obj? == w.Obj?
    ensures v.Bool? ==> v == w
  {
    PrintHead(v);
    PrintHead(w);
    assert (Print(v) + x)[0] == Print(v)[0] && (Print(w) + y)[0] == Print(w)[0];
  }

  lemma DropSame(a: string, x: string, y: string)
    requires a + x == a + y
    ensures x == y
  {
    assert x == (a + x)[|a|..] && y == (a + y)[|a|..];
  }

  /** Unique readability: from a printed value and what follows it both can be recovered. */
  lemma {:induction false} Readable(v: Value, w: Value, x: string, y: string)
    requires WellFormed(v) && WellFormed(w) && Delimiter(x) && Delimiter(y)
    requires Print(v) + x == Print(w) + y
    ensures v == w && x == y
    decreases v, 1
  {
    SameKind(v, w, x, y);
    match v
    case Num(a) => ReadNumber(a, w.text, x, y);
    case Str(s) => ReadQuoted(s, w.s, x, y);
    case Arr(vs) =>
      Unwrap("[", Join(Prints(vs)), "]", x);
      Unwrap("[", Join(Prints(w.items)), "]", y);
      ReadItems(vs, w.items, x, y);
    case Obj(es) =>
      Unwrap("{", Join(PrintsOfEntries(es)), "}", x);
      Unwrap("{", Join(PrintsOfEntries(w.entries)), "}", y);
      ReadEntries(es, w.entries, x, y);
    case _ => DropSame(Print(v), x, y);
  }

  // ---- sorting keeps the meaning -----------------------------------------------------------------------

  predicate HasKey(entries: seq<Entry<Value>>, key: string) {
    exists i :: 0 <= i < |entries| && entries[i].key == key
  }

  lemma {:induction false} InsertMembers(less: Order, e: Entry<Value>, sorted: seq<Entry<Value>>)
    ensures forall x :: x in Insert(less, e, sorted) <==> x == e || x in sorted
    ensures forall k :: HasKey(Insert(less, e, sorted), k) <==> k == e.key || HasKey(sorted, k)
    ensures DistinctKeys(sorted) && !HasKey(sorted, e.key) ==> DistinctKeys(Insert(less, e, sorted))
  {
    var all := Insert(less, e, sorted);
    if sorted == [] || !less(sorted[0].key, e.key) {
      KeysOfPrepend(e, sorted);
    } else {
      InsertMembers(less, e, sorted[1..]);
      KeysOfPrepend(sorted[0], Insert(less, e, sorted[1..]));
      KeysOfPrepend(sorted[0], sorted[1..]);
      assert sorted == [sorted[0]] + sorted[1..];
    }
  }

  lemma KeysOfPrepend(e: Entry<Value>, rest: seq<Entry<Value>>)
    ensures forall k :: HasKey([e] + rest, k) <==> k == e.key || HasKey(rest, k)
    ensures DistinctKeys([e] + rest) <==> DistinctKeys(rest) && !HasKey(rest, e.key)
  {
    var all := [e] + rest;
    assert all[0] == e;
    assert forall i :: 0 <= i < |rest| ==> rest[i] == all[i + 1];
    if DistinctKeys(all) {
      forall i, j | 0 <= i < j < |rest| ensures rest[i].key != rest[j].key {
        assert rest[i] == all[i + 1] && rest[j] == all[j + 1];
      }
      forall i | 0 <= i < |rest| ensures rest[i].key != e.key {
        assert rest[i] == all[i + 1] && e == all[0];
      }
    }
  }

  lemma {:induction false} SortMembers(less: Order, entries: seq<Entry<Value>>)
    ensures forall x :: x in Sort(less, entries) <==> x in entries
    ensures forall k :: HasKey(Sort(less, entries), k) <==> HasKey(entries, k)
    ensures DistinctKeys(entries) ==> DistinctKeys(Sort(less, entries))
  {
    if entries != [] {
      SortMembers(less, entries[1..]);
      InsertMembers(less, entries[0], Sort(less, entries[1..]));
      KeysOfPrepend(entries[0], entries[1..]);
      assert entries == [entries[0]] + entries[1..];
    }
  }

  /** What an object means, key by key. */
  lemma {:induction false} FieldMeans(entries: seq<Entry<Value>>)
    requires DistinctKeys(entries)
    ensures forall k :: k in MeanFields(entries) <==> HasKey(entries, k)
    ensures forall i :: 0 <= i < |entries| ==>
              entries[i].key in MeanFields(entries) && MeanFields(entries)[entries[i].key] == Mean(entries[i].value)
  {
    if entries != [] {
      FieldMeans(entries[1..]);
      KeysOfPrepend(entries[0], entries[1..]);
      assert entries == [entries[0]] + entries[1..];
      forall i | 0 < i < |entries|
        ensures entries[i].key in MeanFields(entries) && MeanFields(entries)[entries[i].key] == Mean(entries[i].value)
      {
        assert entries[i] == entries[1..][i - 1] && entries[0].key != entries[i].key;
      }
    }
  }

  /** The meaning of an object is fixed by its set of entries. */
  lemma SameEntriesSameMeans(a: seq<Entry<Value>>, b: seq<Entry<Value>>)
    requires DistinctKeys(a) && DistinctKeys(b) && forall x :: x in a <==> x in b
    ensures MeanFields(a) == MeanFields(b)
  {
    FieldMeans(a);
    FieldMeans(b);
    forall i | 0 <= i < |a|
      ensures a[i].key in MeanFields(b) && MeanFields(b)[a[i].key] == Mean(a[i].value)
    {
      assert a[i] in b;
    }
    forall i | 0 <= i < |b| ensures b[i].key in MeanFields(a) {
      assert b[i] in a;
    }
  }

  lemma {:induction false} SameMeans(es: seq<Entry<Value>>, fs: seq<Entry<Value>>)
    requires |es| == |fs|
    requires forall i :: 0 <= i < |es| ==> es[i].key == fs[i].key && Mean(es[i].value) == Mean(fs[i].value)
    ensures MeanFields(es) == MeanFields(fs)
  {
    if es != [] {
      SameMeans(es[1..], fs[1..]);
    }
  }

  /** Ordering the keys of a JSON value leaves a JSON value with the same meaning. */
  lemma {:induction false} OrderedKeepsMeaning(less: Order, v: Value)
    requires WellFormed(v)
    ensures WellFormed(Ordered(less, v)) && Mean(Ordered(less, v)) == Mean(v)
  {
    match v
    case Arr(items) =>
      forall i | 0 <= i < |items|
        ensures WellFormed(Ordered(less, items[i])) && Mean(Ordered(less, items[i])) == Mean(items[i])
      {
        OrderedKeepsMeaning(less, items[i]);
      }
    case Obj(entries) =>
      var ordered := OrderedEntries(less, entries);
      forall i | 0 <= i < |entries|
        ensures WellFormed(ordered[i].value) && Mean(ordered[i].value) == Mean(entries[i].value)
      {
        OrderedKeepsMeaning(less, entries[i].value);
      }
      SameMeans(entries, ordered);
      SortMembers(less, ordered);
      var sorted := Sort(less, ordered);
      SameEntriesSameMeans(sorted, ordered);
      forall i | 0 <= i < |sorted| ensures WellFormed(sorted[i].value) {
        assert sorted[i] in sorted;
        var j :| 0 <= j < |ordered| && ordered[j] == sorted[i];
      }
    case _ =>
  }

  /** Equal texts, equal meaning: whatever the comparator, the text determines the value up to key order. */
  lemma TextDeterminesMeaning(less: Order, v: Value, w: Value)
    requires WellFormed(v) && WellFormed(w) && CanonicalJson(less, v) == CanonicalJson(less, w)
    ensures Mean(v) == Mean(w)
  {
    CanonicalIsPrintOfOrdered(less, v);
    CanonicalIsPrintOfOrdered(less, w);
    OrderedKeepsMeaning(less, v);
    OrderedKeepsMeaning(less, w);
    Readable(Ordered(less, v), Ordered(less, w), "", "");
  }

  // ---- equal meaning, equal text: exactly when no keys tie -----------------------------------------------

  ghost predicate StrictOrder(less: Order) {
    && (forall a :: !less(a, a))
    && (forall a, b, c :: less(a, b) && less(b, c) ==> less(a, c))
  }

  predicate Comparable(less: Order, entries: seq<Entry<Value>>) {
    forall i, j :: 0 <= i < j < |entries| ==>
      less(entries[i].key, entries[j].key) || less(entries[j].key, entries[i].key)
  }

  /** The comparator tells apart any two keys of the same object. */
  predicate NoTies(less: Order, v: Value) {
    match v
    case Arr(items) => forall i :: 0 <= i < |items| ==> NoTies(less, items[i])
    case Obj(entries) => Comparable(less, entries) && forall i :: 0 <= i < |entries| ==> NoTies(less, entries[i].value)
    case _ => true
  }

  predicate StrictlySorted(less: Order, entries: seq<Entry<Value>>) {
    forall i, j :: 0 <= i < j < |entries| ==> less(entries[i].key, entries[j].key)
  }

  lemma {:induction false} InsertSorts(less: Order, e: Entry<Value>, sorted: seq<Entry<Value>>)
    requires StrictOrder(less) && StrictlySorted(less, sorted)
    requires forall x :: x in sorted ==> less(x.key, e.key) || less(e.key, x.key)
    ensures StrictlySorted(less, Insert(less, e, sorted))
  {
    if sorted != [] && less(sorted[0].key, e.key) {
      InsertSorts(less, e, sorted[1..]);
      InsertMembers(less, e, sorted[1..]);
      var tail := Insert(less, e, sorted[1..]);
      forall j | 0 <= j < |tail| ensures less(sorted[0].key, tail[j].key) {
        assert tail[j] in tail;
        if tail[j] != e {
          var i :| 0 < i < |sorted| && sorted[i] == tail[j];
        }
      }
    } else if sorted != [] {
      forall j | 0 <= j < |sorted| ensures less(e.key, sorted[j].key) {
        assert sorted[0] in sorted && less(e.key, sorted[0].key);
      }
    }
  }

  lemma {:induction false} SortSorts(less: Order, entries: seq<Entry<Value>>)
    requires StrictOrder(less) && Comparable(less, entries)
    ensures StrictlySorted(less, Sort(less, entries))
  {
    if entries != [] {
      SortSorts(less, entries[1..]);
      SortMembers(less, entries[1..]);
      forall x | x in Sort(less, entries[1..]) ensures less(x.key, entries[0].key) || less(entries[0].key, x.key) {
        assert x in entries[1..];
        var i :| 0 < i < |entries| && entries[i] == x;
      }
      InsertSorts(less, entries[0], Sort(less, entries[1..]));
    }
  }

  lemma HeadIsLeast(less: Order, sorted: seq<Entry<Value>>, e: Entry<Value>)
    requires StrictlySorted(less, sorted) && e in sorted
    ensures e == sorted[0] || less(sorted[0].key, e.key)
  {
    var p :| 0 <= p < |sorted| && sorted[p] == e;
    assert p == 0 || less(sorted[0].key, sorted[p].key);
  }

  lemma SameHead(less: Order, a: seq<Entry<Value>>, b: seq<Entry<Value>>)
    requires StrictOrder(less) && StrictlySorted(less, a) && StrictlySorted(less, b)
    requires a != [] && b != [] && b[0] in a && a[0] in b
    ensures a[0] == b[0]
  {
    HeadIsLeast(less, a, b[0]);
    HeadIsLeast(less, b, a[0]);
  }

  /** There is one sorted arrangement of a set of entries. */
  lemma {:induction false} SortedIsUnique(less: Order, a: seq<Entry<Value>>, b: seq<Entry<Value>>)
    requires StrictOrder(less) && StrictlySorted(less, a) && StrictlySorted(less, b)
    requires forall x :: x in a <==> x in b
    ensures a == b
  {
    assert a != [] ==> a[0] in b;
    assert b != [] ==> b[0] in a;
    if a != [] {
      SameHead(less, a, b);
      forall x ensures x in a[1..] <==> x in b[1..] {
        assert x in a[1..] ==> x in a && less(a[0].key, x.key);
        assert x in b[1..] ==> x in b && less(b[0].key, x.key);
      }
      SortedIsUnique(less, a[1..], b[1..]);
      assert a == [a[0]] + a[1..] && b == [b[0]] + b[1..];
    }
  }

  /** An entry of one object has its counterpart in an object that means the same. */
  lemma Counterpart(es: seq<Entry<Value>>, fs: seq<Entry<Value>>, i: nat) returns (j: nat)
    requires DistinctKeys(es) && DistinctKeys(fs) && MeanFields(es) == MeanFields(fs) && i < |es|
    ensures j < |fs| && fs[j].key == es[i].key && Mean(fs[j].value) == Mean(es[i].value)
  {
    FieldMeans(es);
    FieldMeans(fs);
    assert HasKey(fs, es[i].key);
    j :| 0 <= j < |fs| && fs[j].key == es[i].key;
  }

  /** Two JSON values that mean the same are the same once ordered, if the first has no ties. */
  lemma {:induction false} MeaningDeterminesOrdered(less: Order, v: Value, w: Value)
    requires StrictOrder(less) && WellFormed(v) && WellFormed(w) && NoTies(less, v) && Mean(v) == Mean(w)
    ensures Ordered(less, v) == Ordered(less, w)
  {
    match v
    case Arr(items) =>
      forall i | 0 <= i < |items| ensures Ordered(less, items[i]) == Ordered(less, w.items[i]) {
        assert Mean(v).items[i] == Mean(items[i]) && Mean(w).items[i] == Mean(w.items[i]);
        MeaningDeterminesOrdered(less, items[i], w.items[i]);
      }
    case Obj(es) =>
      var fs := w.entries;
      var a, b := OrderedEntries(less, es), OrderedEntries(less, fs);
      forall x | x in a ensures x in b {
        var i :| 0 <= i < |a| && a[i] == x;
        var j := Counterpart(es, fs, i);
        MeaningDeterminesOrdered(less, es[i].value, fs[j].value);
        assert b[j] == x;
      }
      forall x | x in b ensures x in a {
        var j :| 0 <= j < |b| && b[j] == x;
        var i := Counterpart(fs, es, j);
        MeaningDeterminesOrdered(less, es[i].value, fs[j].value);
        assert a[i] == x;
      }
      SameElementsSortSame(less, a, b);
    case _ =>
  }

  lemma SameElementsSortSame(less: Order, a: seq<Entry<Value>>, b: seq<Entry<Value>>)
    requires StrictOrder(less) && Comparable(less, a) && DistinctKeys(b) && forall x :: x in a <==> x in b
    ensures Sort(less, a) == Sort(less, b)
  {
    forall i, j | 0 <= i < j < |b| ensures less(b[i].key, b[j].key) || less(b[j].key, b[i].key) {
      assert b[i] in a && b[j] in a;
      var p :| 0 <= p < |a| && a[p] == b[i];
      var q :| 0 <= q < |a| && a[q] == b[j];
      assert p != q;
      assert less(a[p].key, a[q].key) || less(a[q].key, a[p].key);
    }
    SortSorts(less, a);
    SortSorts(less, b);
    SortMembers(less, a);
    SortMembers(less, b);
    SortedIsUnique(less, Sort(less, a), Sort(less, b));
  }

  /** The text decides equality up to key order. */
  lemma TextDecidesMeaning(less: Order, v: Value, w: Value)
    requires StrictOrder(less) && WellFormed(v) && WellFormed(w) && NoTies(less, v)
    ensures CanonicalJson(less, v) == CanonicalJson(less, w) <==> Mean(v) == Mean(w)
  {
    if Mean(v) == Mean(w) {
      MeaningDeterminesOrdered(less, v, w);
      CanonicalIsPrintOfOrdered(less, v);
      CanonicalIsPrintOfOrdered(less, w);
    } else if CanonicalJson(less, v) == CanonicalJson(less, w) {
      TextDeterminesMeaning(less, v, w);
    }
  }

  /** In `entries`, `a` comes somewhere before `b`. */
  ghost predicate Precedes(entries: seq<Entry<Value>>, a: Entry<Value>, b: Entry<Value>) {
    exists p, q :: 0 <= p < q < |entries| && entries[p] == a && entries[q] == b
  }

  lemma PrecedesLater(e: Entry<Value>, rest: seq<Entry<Value>>, a: Entry<Value>, b: Entry<Value>)
    requires Precedes(rest, a, b) || (a == e && b in rest)
    ensures Precedes([e] + rest, a, b)
  {
    var all := [e] + rest;
    if Precedes(rest, a, b) {
      var p, q :| 0 <= p < q < |rest| && rest[p] == a && rest[q] == b;
      assert all[p + 1] == a && all[q + 1] == b;
    } else {
      var q :| 0 <= q < |rest| && rest[q] == b;
      assert all[0] == a && all[q + 1] == b;
    }
  }

  lemma {:induction false} InsertKeepsOrder(less: Order, e: Entry<Value>, sorted: seq<Entry<Value>>,
                                            a: Entry<Value>, b: Entry<Value>)
    requires Precedes(sorted, a, b)
    ensures Precedes(Insert(less, e, sorted), a, b)
  {
    if !less(sorted[0].key, e.key) {
      PrecedesLater(e, sorted, a, b);
    } else {
      InsertMembers(less, e, sorted[1..]);
      var p, q :| 0 <= p < q < |sorted| && sorted[p] == a && sorted[q] == b;
      assert sorted[1..][q - 1] == b;
      if p > 0 {
        assert sorted[1..][p - 1] == a;
        InsertKeepsOrder(less, e, sorted[1..], a, b);
      }
      PrecedesLater(sorted[0], Insert(less, e, sorted[1..]), a, b);
    }
  }

  lemma {:induction false} InsertWinsTies(less: Order, e: Entry<Value>, sorted: seq<Entry<Value>>, b: Entry<Value>)
    requires b in sorted && !less(b.key, e.key)
    ensures Precedes(Insert(less, e, sorted), e, b)
  {
    if !less(sorted[0].key, e.key) {
      PrecedesLater(e, sorted, e, b);
    } else {
      assert b in sorted[1..];
      InsertWinsTies(less, e, sorted[1..], b);
      PrecedesLater(sorted[0], Insert(less, e, sorted[1..]), e, b);
    }
  }

  /** Entries whose keys tie keep their order. */
  lemma {:induction false} SortIsStable(less: Order, entries: seq<Entry<Value>>, i: nat, j: nat)
    requires i < j < |entries| && !less(entries[j].key, entries[i].key)
    ensures Precedes(Sort(less, entries), entries[i], entries[j])
  {
    var rest := entries[1..];
    if i == 0 {
      SortMembers(less, rest);
      assert rest[j - 1] == entries[j];
      InsertWinsTies(less, entries[0], Sort(less, rest), entries[j]);
    } else {
      SortIsStable(less, rest, i - 1, j - 1);
      InsertKeepsOrder(less, entries[0], Sort(less, rest), entries[i], entries[j]);
    }
  }

  lemma PrecedesOneWay(entries: seq<Entry<Value>>, a: Entry<Value>, b: Entry<Value>)
    requires DistinctKeys(entries) && Precedes(entries, a, b)
    ensures !Precedes(entries, b, a)
  {
    var p, q :| 0 <= p < q < |entries| && entries[p] == a && entries[q] == b;
    forall p', q' | 0 <= p' < q' < |entries| ensures !(entries[p'] == b && entries[q'] == a) {
      assert entries[p'].key == entries[q].key ==> p' == q;
      assert entries[q'].key == entries[p].key ==> q' == p;
    }
  }

  function ToFront<T>(s: seq<T>, j: nat): seq<T>
    requires j < |s|
  {
    [s[j]] + (s[..j] + s[j + 1..])
  }

  /** Where the element at `p` of `ToFront(s, j)` came from. */
  function From(p: nat, j: nat): nat {
    if p == 0 then j else if p <= j then p - 1 else p
  }

  lemma ToFrontAt(s: seq<Entry<Value>>, j: nat)
    requires j < |s|
    ensures |ToFront(s, j)| == |s|
    ensures forall p :: 0 <= p < |s| ==> ToFront(s, j)[p] == s[From(p, j)]
    ensures forall x :: x in ToFront(s, j) <==> x in s
  {
    var t := ToFront(s, j);
    forall x | x in s ensures x in t {
      var p :| 0 <= p < |s| && s[p] == x;
      assert t[if p == j then 0 else if p < j then p + 1 else p] == x;
    }
  }

  lemma ToFrontDistinct(entries: seq<Entry<Value>>, j: nat)
    requires DistinctKeys(entries) && j < |entries|
    ensures DistinctKeys(ToFront(entries, j))
  {
    var t := ToFront(entries, j);
    forall p, q | 0 <= p < q < |t| ensures t[p].key != t[q].key {
      assert t[p] == entries[From(p, j)] && t[q] == entries[From(q, j)];
      assert From(p, j) < From(q, j) || From(q, j) < From(p, j);
    }
  }

  lemma ToFrontMeans(entries: seq<Entry<Value>>, j: nat)
    requires DistinctKeys(entries) && j < |entries|
    ensures DistinctKeys(ToFront(entries, j)) && MeanFields(ToFront(entries, j)) == MeanFields(entries)
  {
    ToFrontAt(entries, j);
    ToFrontDistinct(entries, j);
    SameEntriesSameMeans(ToFront(entries, j), entries);
  }

  lemma OrderedToFront(less: Order, es: seq<Entry<Value>>, j: nat)
    requires j < |es|
    ensures OrderedEntries(less, ToFront(es, j)) == ToFront(OrderedEntries(less, es), j)
  {
    ToFrontAt(es, j);
    ToFrontAt(OrderedEntries(less, es), j);
  }

  lemma TiedAhead(less: Order, a: seq<Entry<Value>>, i: nat, j: nat)
    requires i < j < |a| && !less(a[i].key, a[j].key)
    ensures Precedes(Sort(less, ToFront(a, j)), a[j], a[i])
  {
    var b := ToFront(a, j);
    assert b[0] == a[j];
    assert b[i + 1] == a[i];
    SortIsStable(less, b, 0, i + 1);
  }

  /** Sorting leaves two tied entries in the order it finds them in. */
  lemma TiesSortApart(less: Order, a: seq<Entry<Value>>, i: nat, j: nat)
    requires DistinctKeys(a) && i < j < |a|
    requires !less(a[i].key, a[j].key) && !less(a[j].key, a[i].key)
    ensures Sort(less, ToFront(a, j)) != Sort(less, a)
  {
    SortMembers(less, a);
    SortIsStable(less, a, i, j);
    PrecedesOneWay(Sort(less, a), a[i], a[j]);
    TiedAhead(less, a, i, j);
  }

  /** Two keys of one object that tie make the text depend on their order. */
  lemma TiedKeysShow(less: Order, es: seq<Entry<Value>>, i: nat, j: nat)
    requires WellFormed(Obj(es)) && i < j < |es|
    requires !less(es[i].key, es[j].key) && !less(es[j].key, es[i].key)
    ensures WellFormed(Obj(ToFront(es, j))) && Mean(Obj(ToFront(es, j))) == Mean(Obj(es))
    ensures Ordered(less, Obj(ToFront(es, j))) != Ordered(less, Obj(es))
  {
    ToFrontAt(es, j);
    ToFrontMeans(es, j);
    OrderedToFront(less, es, j);
    TiesSortApart(less, OrderedEntries(less, es), i, j);
  }

  /** A difference in one value of an object is still there after sorting. */
  lemma ValueShows(less: Order, es: seq<Entry<Value>>, i: nat, w: Value)
    requires WellFormed(Obj(es)) && i < |es| && WellFormed(w)
    requires Mean(w) == Mean(es[i].value) && Ordered(less, w) != Ordered(less, es[i].value)
    ensures WellFormed(Obj(es[i := Entry(es[i].key, w)])) && Mean(Obj(es[i := Entry(es[i].key, w)])) == Mean(Obj(es))
    ensures Ordered(less, Obj(es[i := Entry(es[i].key, w)])) != Ordered(less, Obj(es))
  {
    SameMeans(es[i := Entry(es[i].key, w)], es);
    var a, b := OrderedEntries(less, es), OrderedEntries(less, es[i := Entry(es[i].key, w)]);
    SortMembers(less, a);
    SortMembers(less, b);
    assert a[i] in a;
    assert a[i] !in b by {
      forall j | 0 <= j < |b| ensures b[j] != a[i] {
        assert j != i ==> es[j].key != es[i].key;
      }
    }
  }

  lemma ItemShows(less: Order, items: seq<Value>, i: nat, w: Value)
    requires WellFormed(Arr(items)) && i < |items| && WellFormed(w)
    requires Mean(w) == Mean(items[i]) && Ordered(less, w) != Ordered(less, items[i])
    ensures WellFormed(Arr(items[i := w])) && Mean(Arr(items[i := w])) == Mean(Arr(items))
    ensures Ordered(less, Arr(items[i := w])) != Ordered(less, Arr(items))
  {
    var v, v' := Arr(items), Arr(items[i := w]);
    assert Ordered(less, v').items[i] == Ordered(less, w) && Ordered(less, v).items[i] == Ordered(less, items[i]);
  }

  /** Where keys tie, some value with the same meaning orders differently. */
  lemma {:induction false} TieShows(less: Order, v: Value) returns (w: Value)
    requires WellFormed(v) && !NoTies(less, v)
    ensures WellFormed(w) && Mean(w) == Mean(v) && Ordered(less, w) != Ordered(less, v)
  {
    match v
    case Arr(items) =>
      var i :| 0 <= i < |items| && !NoTies(less, items[i]);
      var item := TieShows(less, items[i]);
      ItemShows(less, items, i, item);
      w := Arr(items[i := item]);
    case Obj(es) =>
      if !Comparable(less, es) {
        var i, j :| 0 <= i < j < |es| && !less(es[i].key, es[j].key) && !less(es[j].key, es[i].key);
        TiedKeysShow(less, es, i, j);
        w := Obj(ToFront(es, j));
      } else {
        var i :| 0 <= i < |es| && !NoTies(less, es[i].value);
        var value := TieShows(less, es[i].value);
        ValueShows(less, es, i, value);
        w := Obj(es[i := Entry(es[i].key, value)]);
      }
  }

  /** No reordering of keys, at any depth, changes the text of `v`. */
  ghost predicate OrderBlind(less: Order, v: Value) {
    forall w :: WellFormed(w) && Mean(w) == Mean(v) ==> CanonicalJson(less, w) == CanonicalJson(less, v)
  }

  /**
   * The text of a value is independent of key order exactly when the comparator ties no two
   * distinct keys of one of its objects.
   */
  lemma OrderBlindIffNoTies(less: Order, v: Value)
    requires StrictOrder(less) && WellFormed(v)
    ensures OrderBlind(less, v) <==> NoTies(less, v)
  {
    if NoTies(less, v) {
      forall w | WellFormed(w) && Mean(w) == Mean(v) ensures CanonicalJson(less, w) == CanonicalJson(less, v) {
        TextDecidesMeaning(less, v, w);
      }
    } else {
      var w := TieShows(less, v);
      DifferentText(less, v, w);
    }
  }

  lemma DifferentText(less: Order, v: Value, w: Value)
    requires WellFormed(v) && WellFormed(w) && Ordered(less, w) != Ordered(less, v)
    ensures CanonicalJson(less, w) != CanonicalJson(less, v)
  {
    CanonicalIsPrintOfOrdered(less, v);
    CanonicalIsPrintOfOrdered(less, w);
    OrderedKeepsMeaning(less, v);
    OrderedKeepsMeaning(less, w);
    if CanonicalJson(less, w) == CanonicalJson(less, v) {
      Readable(Ordered(less, v), Ordered(less, w), "", "");
    }
  }

  /** One accented letter spelled in two ways, which are canonically equivalent and so tie in every locale. */
  const COMPOSED := "\U{00E9}"
  const DECOMPOSED := "e\U{0301}"

  /** Two objects with these keys and the same fields have different texts. */
  lemma AccentsShow(less: Order, x: Value, y: Value)
    requires WellFormed(x) && WellFormed(y)
    requires !less(COMPOSED, DECOMPOSED) && !less(DECOMPOSED, COMPOSED)
    ensures var v, w := Obj([Entry(COMPOSED, x), Entry(DECOMPOSED, y)]), Obj([Entry(DECOMPOSED, y), Entry(COMPOSED, x)]);
            WellFormed(v) && WellFormed(w) && Mean(v) == Mean(w) && CanonicalJson(less, v) != CanonicalJson(less, w)
  {
    var es := [Entry(COMPOSED, x), Entry(DECOMPOSED, y)];
    assert COMPOSED != DECOMPOSED by { assert |COMPOSED| != |DECOMPOSED|; }
    assert ToFront(es, 1) == [Entry(DECOMPOSED, y), Entry(COMPOSED, x)];
    TiedKeysShow(less, es, 0, 1);
    DifferentText(less, Obj(ToFront(es, 1)), Obj(es));
  }
}
