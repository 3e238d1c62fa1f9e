/**
 * JSON-like values as the tap sees them after `response.json()`: the request and
 * response bodies, records, and the `params` and payload dicts. Dicts keep their
 * key order, because records are compared field by field in order. A JSON number
 * is an `Int`: numbers with a fraction or an exponent, which `response.json()`
 * turns into Python floats, have no variant here.
 */
module Json {
  import opened Wrappers
  import Strings

  datatype Json =
    | Null
    | Bool(b: bool)
    | Int(i: int)
    | Str(s: string)
    | Obj(fields: seq<(string, Json)>)
    | Arr(items: seq<Json>)

  /** Python truthiness: `None`, `False`, `0`, `""`, `{}` and `[]` are false. */
  predicate Truthy(v: Json) {
    match v
    case Null => false
    case Bool(b) => b
    case Int(i) => i != 0
    case Str(s) => |s| > 0
    case Obj(fs) => |fs| > 0
    case Arr(xs) => |xs| > 0
  }

  /** The keys of a dict, in order. */
  function Keys(fields: seq<(string, Json)>): (ks: seq<string>)
    ensures |ks| == |fields|
    ensures forall i :: 0 <= i < |fields| ==> ks[i] == fields[i].0
  {
    if |fields| == 0 then [] else [fields[0].0] + Keys(fields[1..])
  }

  /** `d.get(key)`: the value stored under `key`, looked up at its first occurrence. */
  function Get(fields: seq<(string, Json)>, key: string): (r: Option<Json>)
    ensures r.None? <==> key !in Keys(fields)
    ensures r.Some? ==> exists i :: 0 <= i < |fields| && fields[i] == (key, r.value)
  {
    if |fields| == 0 then None
    else if fields[0].0 == key then Some(fields[0].1)
    else
      var r := Get(fields[1..], key);
      assert Keys(fields) == [fields[0].0] + Keys(fields[1..]);
      if r.Some? then
        ghost var i :| 0 <= i < |fields[1..]| && fields[1..][i] == (key, r.value);
        assert fields[i + 1] == (key, r.value);
        r
      else r
  }

  /** `d.get(key, default)`. */
  function GetOr(fields: seq<(string, Json)>, key: string, default: Json): Json {
    match Get(fields, key)
    case Some(v) => v
    case None => default
  }

  /** `d[key] = value`: overwrite the first occurrence in place, or append a new key. */
  function Set(fields: seq<(string, Json)>, key: string, value: Json): (r: seq<(string, Json)>)
    ensures Get(r, key) == Some(value)
    ensures forall k :: k != key ==> Get(r, k) == Get(fields, k)
  {
    if |fields| == 0 then [(key, value)]
    else if fields[0].0 == key then [(key, value)] + fields[1..]
    else [fields[0]] + Set(fields[1..], key, value)
  }

  /** `str(v)`: the text an f-string puts in place of `v`. */
  function PyStr(v: Json): string {
    match v
    case Str(s) => s
    case _ => Repr(v)
  }

  /** The lower-case hex digit `repr` writes for `n`. */
  function HexDigit(n: nat): (c: char)
    requires n < 16
    ensures HexValue(c) == Some(n) && '0' <= c
  {
    if n < 10 then ('0' as int + n) as char else ('a' as int + n - 10) as char
  }

  /** The value of a hex digit in an escape (either case). */
  function HexValue(c: char): Option<nat> {
    if '0' <= c <= '9' then Some(c as int - '0' as int)
    else if 'a' <= c <= 'f' then Some(c as int - 'a' as int + 10)
    else if 'A' <= c <= 'F' then Some(c as int - 'A' as int + 10)
    else None
  }

  /**
   * How `repr` writes one character between quotes `q`: the quote and the
   * backslash are escaped, tab, newline and carriage return get their short
   * escapes, and the other ASCII control characters (and DEL) become `\xhh`.
   */
  function EscapeChar(c: char, q: char): (r: string)
    requires q == '\'' || q == '"'
    ensures forall i :: 0 <= i < |r| ==> Printable(r[i])
  {
    if c == q || c == '\\' then ['\\', c]
    else if c == '\t' then "\\t"
    else if c == '\n' then "\\n"
    else if c == '\r' then "\\r"
    else if c < ' ' || c as int == 0x7f then "\\x" + [HexDigit(c as int / 16), HexDigit(c as int % 16)]
    else [c]
  }

  /** The characters of `s`, each escaped for quotes `q`. */
  /** Not an ASCII control character: what may appear raw between the quotes. */
  predicate Printable(c: char) {
    ' ' <= c && c as int != 0x7f
  }

  /** The characters of `s`, each escaped for quotes `q`; no control character is left raw. */
  function EscapeBody(s: string, q: char): (r: string)
    requires q == '\'' || q == '"'
    ensures forall i :: 0 <= i < |r| ==> Printable(r[i])
  {
    if |s| == 0 then "" else
      var head, tail := EscapeChar(s[0], q), EscapeBody(s[1..], q);
      assert forall i :: 0 <= i < |head + tail| ==> (head + tail)[i] == if i < |head| then head[i] else tail[i - |head|];
      head + tail
  }

  /** `repr` uses double quotes when the text has a single quote and no double quote. */
  function QuoteFor(s: string): (q: char)
    ensures q == '\'' || q == '"'
  {
    if '\'' in s && '"' !in s then '"' else '\''
  }

  /** `repr(s)` of a string. */
  function StrRepr(s: string): (r: string)
    ensures |r| >= 2 && r[0] == r[|r| - 1]
    ensures r[0] == '"' <==> '\'' in s && '"' !in s
    ensures r[0] == '\'' <==> !('\'' in s && '"' !in s)
    ensures forall i :: 0 <= i < |r| ==> Printable(r[i])
  {
    var q := QuoteFor(s);
    [q] + EscapeBody(s, q) + [q]
  }

  /** Reads the body of a string literal back: the escapes `EscapeChar` writes, and plain characters. */
  function Unescape(t: string): Option<string>
    decreases |t|
  {
    if |t| == 0 then Some("")
    else if t[0] != '\\' then Prepend(t[0], Unescape(t[1..]))
    else if |t| < 2 then None
    else if t[1] == 't' then Prepend('\t', Unescape(t[2..]))
    else if t[1] == 'n' then Prepend('\n', Unescape(t[2..]))
    else if t[1] == 'r' then Prepend('\r', Unescape(t[2..]))
    else if t[1] == '\\' || t[1] == '\'' || t[1] == '"' then Prepend(t[1], Unescape(t[2..]))
    else if t[1] == 'x' && |t| >= 4 && HexValue(t[2]).Some? && HexValue(t[3]).Some? then
      Prepend((HexValue(t[2]).value * 16 + HexValue(t[3]).value) as char, Unescape(t[4..]))
    else None
  }

  /** `c` in front of a text read back, or the failure to read it. */
  function Prepend(c: char, rest: Option<string>): Option<string> {
    match rest
    case None => None
    case Some(s) => Some([c] + s)
  }

  /** Reads a quoted string literal back. */
  function Unquote(r: string): Option<string> {
    if |r| < 2 || r[0] != r[|r| - 1] || (r[0] != '\'' && r[0] != '"') then None
    else Unescape(r[1..|r| - 1])
  }

  /** A control character's `\xhh` escape reads back as that character. */
  lemma UnescapeHex(c: char, rest: string)
    requires c < ' ' || c as int == 0x7f
    ensures Unescape("\\x" + [HexDigit(c as int / 16), HexDigit(c as int % 16)] + rest) == Prepend(c, Unescape(rest))
  {
    var t := "\\x" + [HexDigit(c as int / 16), HexDigit(c as int % 16)] + rest;
    assert t[0] == '\\' && t[1] == 'x';
    assert t[4..] == rest;
  }

  /** One escaped character reads back as itself, whatever follows. */
  lemma UnescapeChar(c: char, q: char, rest: string)
    requires q == '\'' || q == '"'
    ensures Unescape(EscapeChar(c, q) + rest) == Prepend(c, Unescape(rest))
  {
    var e := EscapeChar(c, q);
    if c == q || c == '\\' || c == '\t' || c == '\n' || c == '\r' {
      assert (e + rest)[2..] == rest;
    } else if c < ' ' || c as int == 0x7f {
      UnescapeHex(c, rest);
    } else {
      assert (e + rest)[1..] == rest;
    }
  }

  /** Escaping for either quote and reading back gives the original text. */
  lemma {:induction false} UnescapeInvertsEscape(s: string, q: char)
    requires q == '\'' || q == '"'
    ensures Unescape(EscapeBody(s, q)) == Some(s)
  {
    if |s| > 0 {
      UnescapeInvertsEscape(s[1..], q);
      UnescapeChar(s[0], q, EscapeBody(s[1..], q));
      assert [s[0]] + s[1..] == s;
    }
  }

  /** Reading the literal `repr` writes gives the text back: no two texts print the same. */
  lemma StrReprRoundTrip(s: string)
    ensures Unquote(StrRepr(s)) == Some(s)
  {
    var r := StrRepr(s);
    UnescapeInvertsEscape(s, QuoteFor(s));
    assert r[1..|r| - 1] == EscapeBody(s, QuoteFor(s));
  }

  /** `repr(v)`, as used for values inside a dict or list. */
  function Repr(v: Json): string
    decreases v, 1
  {
    match v
    case Null => "None"
    case Bool(b) => if b then "True" else "False"
    case Int(i) => Strings.IntToString(i)
    case Str(s) => StrRepr(s)
    case Obj(fs) => "{" + ReprFields(fs, 0) + "}"
    case Arr(xs) => "[" + ReprItems(xs, 0) + "]"
  }

  /** The entries `fs[i..]`, each as `'key': value`, separated by `, `. */
  function ReprFields(fs: seq<(string, Json)>, i: nat): string
    requires i <= |fs|
    decreases Obj(fs), 0, |fs| - i
  {
    if i == |fs| then ""
    else (if i > 0 then ", " else "") + StrRepr(fs[i].0) + ": " + Repr(fs[i].1) + ReprFields(fs, i + 1)
  }

  /** The items `xs[i..]`, separated by `, `. */
  function ReprItems(xs: seq<Json>, i: nat): string
    requires i <= |xs|
    decreases Arr(xs), 0, |xs| - i
  {
    if i == |xs| then ""
    else (if i > 0 then ", " else "") + Repr(xs[i]) + ReprItems(xs, i + 1)
  }

  /** Text with no quote `q`, no backslash and no control character is written as it is. */
  lemma {:induction false} PlainTextIsUnescaped(s: string, q: char)
    requires q == '\'' || q == '"'
    requires forall i :: 0 <= i < |s| ==> s[i] != q && s[i] != '\\' && Printable(s[i])
    ensures EscapeBody(s, q) == s
  {
    if |s| > 0 {
      PlainTextIsUnescaped(s[1..], q);
      assert [s[0]] + s[1..] == s;
    }
  }

  /** Text with no quote, no backslash and no control character is printed as it is, between single quotes. */
  lemma PlainTextInSingleQuotes(s: string)
    requires forall i :: 0 <= i < |s| ==> s[i] != '\'' && s[i] != '\\' && Printable(s[i])
    ensures StrRepr(s) == "'" + s + "'"
  {
    assert '\'' !in s;
    PlainTextIsUnescaped(s, '\'');
  }

  /** A one-entry dict prints its key's `repr`, a colon and its value's `repr`, in braces. */
  lemma ReprOfOneEntryDict(key: string, value: Json)
    ensures Repr(Obj([(key, value)])) == "{" + StrRepr(key) + ": " + Repr(value) + "}"
  {
    assert ReprFields([(key, value)], 1) == "";
  }

  /** Text with a single quote and no double quote, such as `it's`, is printed in double quotes. */
  lemma QuotedInDoubleQuotes()
    ensures StrRepr("it's") == "\"it's\""
  {
    assert "it's"[2] == '\'';
    assert QuoteFor("it's") == '"';
    PlainTextIsUnescaped("it's", '"');
  }

  /** A newline inside a string is printed as its escape. */
  lemma NewlineIsEscaped()
    ensures StrRepr("a\nb") == "'a\\nb'"
  {
    var q := QuoteFor("a\nb");
    assert q == '\'';
    assert EscapeChar('a', q) == "a";
    assert EscapeChar('\n', q) == "\\n";
    assert EscapeChar('b', q) == "b";
    assert "a\nb"[1..] == "\nb" && "\nb"[1..] == "b" && "b"[1..] == "";
    assert EscapeBody("a\nb", q) == "a" + ("\\n" + ("b" + ""));
  }
}
