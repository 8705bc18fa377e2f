/**
 * The JSON-shaped values the application passes around (extractions, synthesis
 * sections), with Python dictionaries as insertion-ordered association lists:
 * assigning to a key that is already present keeps its position.
 */
module Values {
  import opened Wrappers
  import opened Text

  datatype Value =
    | Null
    | Bool(b: bool)
    | Int(i: int)
    | Str(s: string)
    | List(items: seq<Value>)
    | Dict(fields: seq<(string, Value)>)

  /** A Python dictionary with string keys, in insertion order. */
  type Fields = seq<(string, Value)>

  /** The "not specified" sentinel the extractions and the report use. */
  const NotSpecified: string := "Non spécifié"

  /** The sentinel holds neither a euro sign nor a `u` of either case. */
  lemma NotSpecifiedLetters()
    ensures forall j :: 0 <= j < |NotSpecified| ==> NotSpecified[j] != '€' && NotSpecified[j] != 'u' && NotSpecified[j] != 'U'
  {
    forall j | 0 <= j < |NotSpecified|
      ensures NotSpecified[j] != '€' && NotSpecified[j] != 'u' && NotSpecified[j] != 'U'
    {
      assert NotSpecified[j] in {'N', 'o', 'n', ' ', 's', 'p', '\U{00E9}', 'c', 'i', 'f'};
    }
  }

  predicate IsUnset(v: Value) {
    v == Str(NotSpecified)
  }

  /** Python truthiness of a value. */
  predicate Truthy(v: Value) {
    match v
    case Null => false
    case Bool(b) => b
    case Int(i) => i != 0
    case Str(s) => s != ""
    case List(xs) => xs != []
    case Dict(m) => m != []
  }

  predicate HasKey(m: Fields, k: string) {
    exists i :: 0 <= i < |m| && m[i].0 == k
  }

  function Keys(m: Fields): (ks: seq<string>)
    ensures |ks| == |m|
    ensures forall i :: 0 <= i < |m| ==> ks[i] == m[i].0
  {
    seq(|m|, i requires 0 <= i < |m| => m[i].0)
  }

  /** `m.get(k)`: the value stored under `k`, if any. */
  function Get(m: Fields, k: string): (r: Option<Value>)
    ensures r.Some? <==> HasKey(m, k)
    ensures r.Some? ==> exists i :: 0 <= i < |m| && m[i] == (k, r.value)
  {
    if |m| == 0 then None
    else if m[0].0 == k then Some(m[0].1)
    else
      var r := Get(m[1..], k);
      assert HasKey(m, k) ==> HasKey(m[1..], k) by {
        if HasKey(m, k) {
          var i :| 0 <= i < |m| && m[i].0 == k;
          assert m[1..][i - 1].0 == k;
        }
      }
      assert r.Some? ==> m[1..][0].0 == m[1].0;
      r
  }

  /** `m.get(k, default)`. */
  function GetOr(m: Fields, k: string, default: Value): Value {
    Get(m, k).GetOr(default)
  }

  /**
   * `m[k] = v`: an existing key keeps its position and takes the new value;
   * a new key goes at the end.
   */
  function Put(m: Fields, k: string, v: Value): (r: Fields)
    ensures |r| == if HasKey(m, k) then |m| else |m| + 1
  {
    if |m| == 0 then [(k, v)]
    else if m[0].0 == k then [(k, v)] + m[1..]
    else
      assert HasKey(m, k) <==> HasKey(m[1..], k) by { HasKeyTail(m, k); }
      [m[0]] + Put(m[1..], k, v)
  }

  lemma HasKeyTail(m: Fields, k: string)
    requires |m| > 0 && m[0].0 != k
    ensures HasKey(m, k) <==> HasKey(m[1..], k)
  {
    if HasKey(m, k) {
      var i :| 0 <= i < |m| && m[i].0 == k;
      assert m[1..][i - 1].0 == k;
    }
    if HasKey(m[1..], k) {
      var i :| 0 <= i < |m| - 1 && m[1..][i].0 == k;
      assert m[i + 1].0 == k;
    }
  }

  /** After `m[k] = v`, reading `k` gives `v`. */
  lemma {:induction false} PutGetSame(m: Fields, k: string, v: Value)
    ensures Get(Put(m, k, v), k) == Some(v)
  {
    if |m| > 0 && m[0].0 != k {
      PutGetSame(m[1..], k, v);
      assert Put(m, k, v)[1..] == Put(m[1..], k, v);
    }
  }

  /** `m[k] = v` leaves every other key's value as it was. */
  lemma {:induction false} PutGetOther(m: Fields, k: string, v: Value, j: string)
    requires j != k
    ensures Get(Put(m, k, v), j) == Get(m, j)
  {
    if |m| > 0 {
      if m[0].0 == k {
        assert Put(m, k, v)[1..] == m[1..];
      } else if m[0].0 != j {
        PutGetOther(m[1..], k, v, j);
        assert Put(m, k, v)[1..] == Put(m[1..], k, v);
      }
    }
  }

  /** Key order after `m[k] = v`: unchanged for an existing key, `k` appended otherwise. */
  lemma {:induction false} PutKeys(m: Fields, k: string, v: Value)
    ensures HasKey(m, k) ==> Keys(Put(m, k, v)) == Keys(m)
    ensures !HasKey(m, k) ==> Keys(Put(m, k, v)) == Keys(m) + [k]
  {
    if |m| > 0 {
      if m[0].0 == k {
        assert HasKey(m, k);
        assert Keys(Put(m, k, v)) == Keys(m);
      } else {
        HasKeyTail(m, k);
        PutKeys(m[1..], k, v);
        assert Keys(Put(m, k, v)) == [m[0].0] + Keys(Put(m[1..], k, v));
        assert Keys(m) == [m[0].0] + Keys(m[1..]);
      }
    } else {
      assert !HasKey(m, k);
    }
  }

  // ---------------------------------------------------------------------
  // `repr` of a string

  /**
   * The characters `repr` prints as they are. Up to U+00FF this is Python's
   * own test; every character beyond Latin-1 counts as printable here.
   */
  predicate IsPrintable(c: char) {
    (' ' <= c < '\U{007F}') || ('\U{00A0}' < c && c != '\U{00AD}')
  }

  /** `repr` quotes with `"` only for a string holding a `'` and no `"`. */
  function QuoteFor(s: string): char {
    if '\'' in s && '"' !in s then '"' else '\''
  }

  function HexDigit(n: nat): char
    requires n < 16
  {
    if n < 10 then ('0' as int + n) as char else ('a' as int + n - 10) as char
  }

  function HexValue(d: char): nat {
    if '0' <= d <= '9' then d as int - '0' as int
    else if 'a' <= d <= 'f' then d as int - 'a' as int + 10
    else 0
  }

  /** How `repr` writes one character inside quotes `q`. */
  function EscapeChar(c: char, q: char): string {
    if c == q || c == '\\' then ['\\', c]
    else if c == '\t' then "\\t"
    else if c == '\n' then "\\n"
    else if c == '\r' then "\\r"
    else if IsPrintable(c) then [c]
    else "\\x" + [HexDigit(c as int / 16), HexDigit(c as int % 16)]
  }

  /** The characters of `s` as `repr` writes them between quotes `q`. */
  function Escaped(s: string, q: char): string
    decreases |s|
  {
    if |s| == 0 then "" else EscapeChar(s[0], q) + Escaped(s[1..], q)
  }

  /** Python's `repr` of a string. */
  function StrRepr(s: string): string {
    [QuoteFor(s)] + Escaped(s, QuoteFor(s)) + [QuoteFor(s)]
  }

  /** Reads the text between the quotes of a string's `repr` back. */
  function Unescape(t: string): string
    decreases |t|
  {
    if |t| == 0 then ""
    else if t[0] != '\\' || |t| == 1 then [t[0]] + Unescape(t[1..])
    else if t[1] == 't' then "\t" + Unescape(t[2..])
    else if t[1] == 'n' then "\n" + Unescape(t[2..])
    else if t[1] == 'r' then "\r" + Unescape(t[2..])
    else if t[1] == 'x' && |t| >= 4 then [(HexValue(t[2]) % 16 * 16 + HexValue(t[3]) % 16) as char] + Unescape(t[4..])
    else [t[1]] + Unescape(t[2..])
  }

  lemma HexDigitValue(n: nat)
    requires n < 16
    ensures HexValue(HexDigit(n)) == n
  {
  }

  /** Reading back one written character. */
  lemma UnescapeChar(c: char, q: char, rest: string)
    requires q == '\'' || q == '"'
    ensures Unescape(EscapeChar(c, q) + rest) == [c] + Unescape(rest)
  {
    var t := EscapeChar(c, q) + rest;
    if c == q || c == '\\' || c == '\t' || c == '\n' || c == '\r' {
      assert t[2..] == rest;
    } else if IsPrintable(c) {
      assert t[1..] == rest;
    } else {
      var n := c as int;
      assert n < 0x100;
      HexDigitValue(n / 16);
      HexDigitValue(n % 16);
      assert t[4..] == rest;
      assert t[2] == HexDigit(n / 16) && t[3] == HexDigit(n % 16);
      assert (n / 16 * 16 + n % 16) as char == c;
    }
  }

  /** Reading back what `repr` wrote between the quotes gives the string. */
  lemma {:induction false} UnescapeEscaped(s: string, q: char)
    requires q == '\'' || q == '"'
    ensures Unescape(Escaped(s, q)) == s
    decreases |s|
  {
    if |s| > 0 {
      UnescapeEscaped(s[1..], q);
      UnescapeChar(s[0], q, Escaped(s[1..], q));
      assert s == [s[0]] + s[1..];
    }
  }

  /** A string of printable characters without `'` or backslash is written as it is. */
  lemma {:induction false} EscapedPlain(s: string, q: char)
    requires forall i :: 0 <= i < |s| ==> IsPrintable(s[i]) && s[i] != q && s[i] != '\\'
    ensures Escaped(s, q) == s
    decreases |s|
  {
    if |s| > 0 {
      EscapedPlain(s[1..], q);
      assert s == [s[0]] + s[1..];
    }
  }

  /**
   * `repr` of a string: quoted with `"` exactly when the string holds a `'`
   * and no `"`, otherwise with `'`; the text between the quotes reads back as
   * the string; a string of printable characters without `'` or backslash is
   * quoted as it is.
   */
  lemma StrReprProperties(s: string)
    ensures var r := StrRepr(s);
      && |r| >= 2 && r[0] == r[|r| - 1]
      && (r[0] == '"' <==> '\'' in s && '"' !in s)
      && (r[0] == '\'' <==> !('\'' in s && '"' !in s))
      && Unescape(r[1..|r| - 1]) == s
    ensures (forall i :: 0 <= i < |s| ==> IsPrintable(s[i]) && s[i] != '\'' && s[i] != '\\') ==>
      StrRepr(s) == "'" + s + "'"
  {
    var q := QuoteFor(s);
    var r := StrRepr(s);
    assert r[1..|r| - 1] == Escaped(s, q);
    UnescapeEscaped(s, q);
    if forall i :: 0 <= i < |s| ==> IsPrintable(s[i]) && s[i] != '\'' && s[i] != '\\' {
      assert '\'' !in s;
      EscapedPlain(s, q);
    }
  }

  /** Python's `repr` of a value. */
  function Repr(v: Value): string
    decreases v
  {
    match v
    case Null => "None"
    case Bool(b) => if b then "True" else "False"
    case Int(i) => IntToString(i)
    case Str(s) => StrRepr(s)
    case List(xs) =>
      "[" + Join(seq(|xs|, i requires 0 <= i < |xs| => Repr(xs[i])), ", ") + "]"
    case Dict(m) =>
      "{" + Join(seq(|m|, i requires 0 <= i < |m| => StrRepr(m[i].0) + ": " + Repr(m[i].1)), ", ") + "}"
  }

  /** A string with an apostrophe and no double quote is printed in double quotes, unescaped. */
  lemma ReprApostropheExample()
    ensures StrRepr("Appartement \U{00E0} l'\U{00E9}tage") == "\"" + "Appartement \U{00E0} l'\U{00E9}tage" + "\""
  {
    var s := "Appartement \U{00E0} l'\U{00E9}tage";
    assert s[15] == '\'';
    assert QuoteFor(s) == '"';
    forall i | 0 <= i < |s|
      ensures IsPrintable(s[i]) && s[i] != '"' && s[i] != '\\'
    {
      assert s[i] in "Aaprtemn \U{00E0}l'\U{00E9}g";
    }
    EscapedPlain(s, '"');
  }

  /** Python's `str` of a value. */
  function PyStr(v: Value): (r: string)
    ensures v.Str? ==> r == v.s
    ensures !v.Str? ==> r != ""
  {
    if v.Str? then v.s else Repr(v)
  }

  /** The name Python gives the type of a value in its error messages. */
  function PyTypeName(v: Value): string {
    match v
    case Null => "NoneType"
    case Bool(_) => "bool"
    case Int(_) => "int"
    case Str(_) => "str"
    case List(_) => "list"
    case Dict(_) => "dict"
  }

  /** `AttributeError` raised by `.get` on something that is not a dictionary. */
  function NoGetMessage(v: Value): string {
    "'" + PyTypeName(v) + "' object has no attribute 'get'"
  }

  /** `TypeError` raised when a value that is not a sequence is iterated. */
  function NotIterableMessage(v: Value): string {
    "'" + PyTypeName(v) + "' object is not iterable"
  }

  /** `TypeError` raised when a value that is not a string is tested with `in` against a string. */
  function NotInStringMessage(v: Value): string {
    "'in <string>' requires string as left operand, not " + PyTypeName(v)
  }
}
