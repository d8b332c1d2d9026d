/**
 * What the text of module CanonicalJson says to a reader that knows only RFC 8259: the grammar of
 * sections 2 to 7, as a relation between texts and values, with strings read back escape by escape.
 */
module JsonText {
  import opened C = CanonicalJson
  import opened Options

  // ---- strings, by section 7 ------------------------------------------------------------------

  function HexDigit(c: char): Option<nat> {
    if '0' <= c <= '9' then Some(c as nat - '0' as nat)
    else if 'a' <= c <= 'f' then Some(c as nat - 'a' as nat + 10)
    else if 'A' <= c <= 'F' then Some(c as nat - 'A' as nat + 10)
    else None
  }

  /** The character of four hexadecimal digits, where that is one by itself. */
  function FromHex(digits: string): Option<char>
    requires |digits| == 4
  {
    var a, b, c, d := HexDigit(digits[0]), HexDigit(digits[1]), HexDigit(digits[2]), HexDigit(digits[3]);
    if a.None? || b.None? || c.None? || d.None? then None
    else
      var n := ((a.value * 16 + b.value) * 16 + c.value) * 16 + d.value;
      if n < 0xD800 || 0xE000 <= n < 0x10000 then Some(n as char) else None
  }

  /** What stands for a character after a backslash. */
  function Escaped(c: char): Option<char> {
    match c
    case '\"' => Some('\"')
    case '\\' => Some('\\')
    case '/' => Some('/')
    case 'b' => Some('\U{0008}')
    case 'f' => Some('\U{000C}')
    case 'n' => Some('\U{000A}')
    case 'r' => Some('\U{000D}')
    case 't' => Some('\U{0009}')
    case _ => None
  }

  function Before(c: Option<char>, rest: Option<string>): Option<string> {
    if c.Some? && rest.Some? then Some([c.value] + rest.value) else None
  }

  /** The string that the text between two quotation marks denotes, if it is well formed. */
  function Unescaped(body: string): Option<string> {
    if body == "" then Some("")
    else if body[0] != '\\' then
      if body[0] == '\"' || body[0] < ' ' then None else Before(Some(body[0]), Unescaped(body[1..]))
    else if |body| >= 6 && body[1] == 'u' then Before(FromHex(body[2..6]), Unescaped(body[6..]))
    else if |body| >= 2 then Before(Escaped(body[1]), Unescaped(body[2..]))
    else None
  }

  predicate DenotesString(text: string, s: string) {
    && |text| >= 2 && text[0] == '\"' && text[|text| - 1] == '\"'
    && Unescaped(text[1..|text| - 1]) == Some(s)
  }

  // ---- values, by sections 2 to 6 ---------------------------------------------------------------

  function Commas(texts: seq<string>): string {
    if texts == [] then ""
    else
      var n := |texts| - 1;
      if n == 0 then texts[0] else Commas(texts[..n]) + "," + texts[n]
  }

  /** The text is one of the value, with object members in this order. */
  ghost predicate Denotes(text: string, v: Value)
    decreases v
  {
    match v
    case Null => text == "null"
    case Bool(b) => text == if b then "true" else "false"
    case Num(digits) => text == digits
    case Str(s) => DenotesString(text, s)
    case Arr(items) =>
      exists texts: seq<string> :: |texts| == |items| && text == "[" + Commas(texts) + "]"
                                   && forall i :: 0 <= i < |items| ==> Denotes(texts[i], items[i])
    case Obj(entries) =>
      exists keys: seq<string>, texts: seq<string> ::
        && |keys| == |texts| == |entries| && text == "{" + Commas(Members(keys, texts)) + "}"
        && forall i :: 0 <= i < |entries| ==> DenotesString(keys[i], entries[i].key) && Denotes(texts[i], entries[i].value)
  }

  function Members(keys: seq<string>, texts: seq<string>): seq<string>
    requires |keys| == |texts|
  {
    seq(|keys|, i requires 0 <= i < |keys| => keys[i] + ":" + texts[i])
  }

  // ---- the text can be read -----------------------------------------------------------------------

  lemma HexReads(n: nat)
    requires n < 16
    ensures HexDigit(Hex(n)) == Some(n)
  {}

  lemma ControlReads(c: char, rest: string)
    requires c < ' '
    ensures var body := "\\u00" + [Hex(c as int / 16), Hex(c as int % 16)] + rest;
            |body| >= 6 && body[0] == '\\' && body[1] == 'u' && body[6..] == rest && FromHex(body[2..6]) == Some(c)
  {
    HexReads(c as int / 16);
    HexReads(c as int % 16);
    var body := "\\u00" + [Hex(c as int / 16), Hex(c as int % 16)] + rest;
    assert body[2..6] == "00" + [Hex(c as int / 16), Hex(c as int % 16)];
  }

  lemma EscapeReads(c: char, rest: string)
    ensures Unescaped(Escape(c) + rest) == Before(Some(c), Unescaped(rest))
  {
    var body := Escape(c) + rest;
    if |Escape(c)| == 1 {
      assert body[1..] == rest;
    } else if |Escape(c)| == 2 {
      assert body[2..] == rest;
    } else {
      ControlReads(c, rest);
    }
  }

  lemma {:induction false} EscapeAllReads(s: string)
    ensures Unescaped(EscapeAll(s)) == Some(s)
  {
    if s != "" {
      EscapeReads(s[0], EscapeAll(s[1..]));
      EscapeAllReads(s[1..]);
      assert [s[0]] + s[1..] == s;
    }
  }

  lemma QuoteReads(s: string)
    ensures DenotesString(Quote(s), s)
  {
    EscapeAllReads(s);
    var text := Quote(s);
    assert text[1..|text| - 1] == EscapeAll(s);
  }

  lemma {:induction false} JoinOneMore(texts: seq<string>, last: string)
    requires texts != []
    ensures Join(texts + [last]) == Join(texts) + "," + last
  {
    if |texts| == 1 {
      assert (texts + [last])[1..] == [last] && Join([last]) == last;
    } else {
      JoinOneMore(texts[1..], last);
      assert (texts + [last])[1..] == texts[1..] + [last];
      assert texts[0] + "," + (Join(texts[1..]) + "," + last) == (texts[0] + "," + Join(texts[1..])) + "," + last;
    }
  }

  lemma {:induction false} JoinIsCommas(texts: seq<string>)
    ensures Join(texts) == Commas(texts)
  {
    if |texts| > 1 {
      var n := |texts| - 1;
      JoinIsCommas(texts[..n]);
      JoinOneMore(texts[..n], texts[n]);
      assert texts[..n] + [texts[n]] == texts;
    }
  }

  lemma {:induction false} PrintReads(v: Value)
    ensures Denotes(Print(v), v)
  {
    match v
    case Str(s) => QuoteReads(s);
    case Arr(items) =>
      forall i | 0 <= i < |items| ensures Denotes(Prints(items)[i], items[i]) { PrintReads(items[i]); }
      JoinIsCommas(Prints(items));
    case Obj(entries) =>
      var keys := seq(|entries|, i requires 0 <= i < |entries| => Quote(entries[i].key));
      var texts := seq(|entries|, i requires 0 <= i < |entries| => Print(entries[i].value));
      forall i | 0 <= i < |entries| ensures DenotesString(keys[i], entries[i].key) && Denotes(texts[i], entries[i].value) {
        QuoteReads(entries[i].key);
        PrintReads(entries[i].value);
      }
      assert PrintsOfEntries(entries) == Members(keys, texts);
      JoinIsCommas(PrintsOfEntries(entries));
    case _ =>
  }

  /** Canonical text is JSON text of the value with its keys sorted. */
  lemma CanonicalReads(less: Order, v: Value)
    ensures Denotes(CanonicalJson(less, v), Ordered(less, v))
  {
    CanonicalIsPrintOfOrdered(less, v);
    PrintReads(Ordered(less, v));
  }
}
