/** Python's `json.dumps(obj, ensure_ascii=False)` with its default
    separators `", "` and `": "`, on the JSON values the exports write, and
    the string escaping it applies, with its inverse. */
module Json {
  import opened Wrappers
  import Text

  /** A JSON value. A float is kept as the text Python's `repr` gives it. */
  datatype Value =
    | Null
    | Bool(b: bool)
    | Int(i: int)
    | Float(repr: string)
    | Str(s: string)
    | Array(items: seq<Value>)
    | Object(fields: seq<(string, Value)>)

  /** A lower-case hexadecimal digit. */
  function HexDigit(n: nat): (c: char)
    requires n < 16
  {
    if n < 10 then '0' + n as char else 'a' + (n - 10) as char
  }

  /** The value of a lower-case hexadecimal digit. */
  function HexValue(c: char): (r: Option<nat>)
    ensures r.Some? ==> r.value < 16
  {
    if '0' <= c <= '9' then Some(c as nat - '0' as nat)
    else if 'a' <= c <= 'f' then Some(c as nat - 'a' as nat + 10)
    else None
  }

  lemma HexRoundTrip(n: nat)
    requires n < 16
    ensures HexValue(HexDigit(n)) == Some(n)
  {
  }

  /** How `json.dumps` writes one character of a string. */
  function EscapeChar(c: char): (r: string)
    ensures r != []
    ensures forall i :: 0 <= i < |r| ==> r[i] >= ' '
  {
    if c == '"' then "\\\""
    else if c == '\\' then "\\\\"
    else if c == '\n' then "\\n"
    else if c == '\r' then "\\r"
    else if c == '\t' then "\\t"
    else if c == '\U{8}' then "\\b"
    else if c == '\U{c}' then "\\f"
    else if c < ' ' then "\\u00" + [HexDigit(c as nat / 16), HexDigit(c as nat % 16)]
    else [c]
  }

  function Escape(s: string): (r: string)
    ensures forall i :: 0 <= i < |r| ==> r[i] >= ' '
  {
    if s == [] then [] else EscapeChar(s[0]) + Escape(s[1..])
  }

  /** Reads one escaped character at the start of `t`: the character and
      what follows it. */
  function UnescapeOne(t: string): (r: Option<(char, string)>)
    ensures r.Some? ==> |r.value.1| < |t|
  {
    if t == [] then None
    else if t[0] != '\\' then Some((t[0], t[1..]))
    else if |t| < 2 then None
    else if t[1] == '"' then Some(('"', t[2..]))
    else if t[1] == '\\' then Some(('\\', t[2..]))
    else if t[1] == 'n' then Some(('\n', t[2..]))
    else if t[1] == 'r' then Some(('\r', t[2..]))
    else if t[1] == 't' then Some(('\t', t[2..]))
    else if t[1] == 'b' then Some(('\U{8}', t[2..]))
    else if t[1] == 'f' then Some(('\U{c}', t[2..]))
    else if t[1] == 'u' && |t| >= 6 && t[2] == '0' && t[3] == '0'
            && HexValue(t[4]).Some? && HexValue(t[5]).Some? && HexValue(t[4]).value < 2 then
      Some(((HexValue(t[4]).value * 16 + HexValue(t[5]).value) as char, t[6..]))
    else None
  }

  /** The text an escaped string stands for, or `None` when it is not a
      valid escaped string. */
  function Unescape(t: string): Option<string>
    decreases |t|
  {
    if t == [] then Some([])
    else match UnescapeOne(t)
      case None => None
      case Some((c, rest)) =>
        match Unescape(rest)
        case None => None
        case Some(s) => Some([c] + s)
  }

  lemma EscapeCharRoundTrip(c: char, rest: string)
    ensures UnescapeOne(EscapeChar(c) + rest) == Some((c, rest))
  {
    var e := EscapeChar(c);
    if c < ' ' && c != '\n' && c != '\r' && c != '\t' && c != '\U{8}' && c != '\U{c}' {
      var hi, lo := c as nat / 16, c as nat % 16;
      HexRoundTrip(hi);
      HexRoundTrip(lo);
      assert (e + rest)[6..] == rest;
    } else if c == '"' || c == '\\' || c == '\n' || c == '\r' || c == '\t' || c == '\U{8}' || c == '\U{c}' {
      assert (e + rest)[2..] == rest;
    } else {
      assert (e + rest)[1..] == rest;
    }
  }

  /** Unescaping what `json.dumps` wrote for a string gives the string back. */
  lemma {:induction false} EscapeRoundTrip(s: string)
    ensures Unescape(Escape(s)) == Some(s)
  {
    if s != [] {
      EscapeCharRoundTrip(s[0], Escape(s[1..]));
      EscapeRoundTrip(s[1..]);
      assert Escape(s) == EscapeChar(s[0]) + Escape(s[1..]);
      assert [s[0]] + s[1..] == s;
    }
  }

  /** `json.dumps` of a string. */
  function Quote(s: string): string {
    "\"" + Escape(s) + "\""
  }

  /** `json.dumps(v, ensure_ascii=False)`. */
  function Dumps(v: Value): string
    decreases v
  {
    match v
    case Null => "null"
    case Bool(b) => if b then "true" else "false"
    case Int(i) => Text.IntToString(i)
    case Float(repr) => repr
    case Str(s) => Quote(s)
    case Array(items) =>
      "[" + Text.Join(", ", seq(|items|, k requires 0 <= k < |items| => Dumps(items[k]))) + "]"
    case Object(fields) =>
      "{" + Text.Join(", ", seq(|fields|, k requires 0 <= k < |fields| => Quote(fields[k].0) + ": " + Dumps(fields[k].1))) + "}"
  }

  /** `c` does not occur in `s`. */
  predicate Free(s: string, c: char) {
    forall i :: 0 <= i < |s| ==> s[i] != c
  }

  /** Every float's text is free of newlines, as Python's float `repr`
      always is. */
  predicate PlainFloats(v: Value)
    decreases v
  {
    match v
    case Float(repr) => Free(repr, '\n')
    case Array(items) => forall k :: 0 <= k < |items| ==> PlainFloats(items[k])
    case Object(fields) => forall k :: 0 <= k < |fields| ==> PlainFloats(fields[k].1)
    case _ => true
  }

  lemma {:induction false} JoinFree(sep: string, parts: seq<string>, c: char)
    requires Free(sep, c)
    requires forall k :: 0 <= k < |parts| ==> Free(parts[k], c)
    ensures Free(Text.Join(sep, parts), c)
  {
    if |parts| > 1 {
      JoinFree(sep, parts[1..], c);
      var rest := Text.Join(sep, parts[1..]);
      var s := parts[0] + sep + rest;
      assert Text.Join(sep, parts) == s;
      forall i | 0 <= i < |s| ensures s[i] != c {
        if i < |parts[0]| {
          assert s[i] == parts[0][i];
        } else if i < |parts[0]| + |sep| {
          assert s[i] == sep[i - |parts[0]|];
        } else {
          assert s[i] == rest[i - |parts[0]| - |sep|];
        }
      }
    }
  }

  lemma QuoteFree(s: string)
    ensures Free(Quote(s), '\n')
  {
    var q := Quote(s);
    forall i | 0 <= i < |q| ensures q[i] != '\n' {
      if 0 < i < |q| - 1 {
        assert q[i] == Escape(s)[i - 1];
      }
    }
  }

  lemma DigitsFree(i: int)
    ensures Free(Text.IntToString(i), '\n')
  {
    var r := Text.IntToString(i);
    if i < 0 {
      forall k | 0 <= k < |r| ensures r[k] != '\n' {
        if k > 0 {
          assert r[k] == Text.NatToString(-i)[k - 1];
        }
      }
    }
  }

  lemma ConcatFree(a: string, b: string, c: char)
    requires Free(a, c) && Free(b, c)
    ensures Free(a + b, c)
  {
    forall i | 0 <= i < |a + b| ensures (a + b)[i] != c {
      if i >= |a| {
        assert (a + b)[i] == b[i - |a|];
      }
    }
  }

  /** A dumped value is a single line: `json.dumps` escapes every newline
      inside strings, and the separators hold none. */
  lemma {:induction false} DumpsOneLine(v: Value)
    requires PlainFloats(v)
    ensures Free(Dumps(v), '\n')
    decreases v
  {
    match v
    case Null =>
    case Bool(b) =>
    case Int(i) => DigitsFree(i);
    case Float(repr) =>
    case Str(s) => QuoteFree(s);
    case Array(items) =>
      var parts := seq(|items|, k requires 0 <= k < |items| => Dumps(items[k]));
      forall k | 0 <= k < |items| ensures Free(parts[k], '\n') {
        DumpsOneLine(items[k]);
      }
      JoinFree(", ", parts, '\n');
      ConcatFree("[", Text.Join(", ", parts), '\n');
      ConcatFree("[" + Text.Join(", ", parts), "]", '\n');
    case Object(fields) =>
      var parts := seq(|fields|, k requires 0 <= k < |fields| => Quote(fields[k].0) + ": " + Dumps(fields[k].1));
      forall k | 0 <= k < |fields| ensures Free(parts[k], '\n') {
        DumpsOneLine(fields[k].1);
        QuoteFree(fields[k].0);
        ConcatFree(Quote(fields[k].0), ": ", '\n');
        ConcatFree(Quote(fields[k].0) + ": ", Dumps(fields[k].1), '\n');
      }
      JoinFree(", ", parts, '\n');
      ConcatFree("{", Text.Join(", ", parts), '\n');
      ConcatFree("{" + Text.Join(", ", parts), "}", '\n');
  }
}
