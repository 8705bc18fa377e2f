/**
 * String helpers with the meaning Python gives to the corresponding `str`
 * methods: `lower`, `in`, `startswith`, `endswith`, `replace`, `strip`,
 * `split()` and `join`, plus decimal rendering of integers.
 */
module Text {

  /** Python's `str.lower()` on the letters that carry case in ASCII and Latin-1. */
  function LowerChar(c: char): char {
    if 'A' <= c <= 'Z' then (c as int + 32) as char
    else if '\U{00C0}' <= c <= '\U{00DE}' && c != '\U{00D7}' then (c as int + 32) as char
    else c
  }

  function Lower(s: string): (r: string)
    ensures |r| == |s|
    ensures forall i :: 0 <= i < |s| ==> r[i] == LowerChar(s[i])
  {
    seq(|s|, i requires 0 <= i < |s| => LowerChar(s[i]))
  }

  predicate StartsWith(s: string, prefix: string) {
    |prefix| <= |s| && s[..|prefix|] == prefix
  }

  predicate EndsWith(s: string, suffix: string) {
    |suffix| <= |s| && s[|s| - |suffix|..] == suffix
  }

  /** Python's `sub in s`: `sub` occurs somewhere in `s`. */
  predicate Contains(s: string, sub: string)
    decreases |s|
  {
    StartsWith(s, sub) || (|s| > 0 && Contains(s[1..], sub))
  }

  lemma {:induction false} ContainsAt(s: string, sub: string, i: nat)
    requires i + |sub| <= |s| && s[i..i + |sub|] == sub
    ensures Contains(s, sub)
    decreases i
  {
    if i > 0 {
      assert s[1..][i - 1..i - 1 + |sub|] == sub;
      ContainsAt(s[1..], sub, i - 1);
    }
  }

  lemma {:induction false} ContainsWitness(s: string, sub: string) returns (i: nat)
    requires Contains(s, sub)
    ensures i + |sub| <= |s| && s[i..i + |sub|] == sub
    decreases |s|
  {
    if StartsWith(s, sub) {
      i := 0;
    } else {
      var j := ContainsWitness(s[1..], sub);
      i := j + 1;
      assert s[i..i + |sub|] == s[1..][j..j + |sub|];
    }
  }

  /** A string lacking one of the characters of `sub` does not contain `sub`. */
  lemma AbsentCharNotContained(s: string, sub: string, k: nat)
    requires k < |sub|
    requires forall j :: 0 <= j < |s| ==> s[j] != sub[k]
    ensures !Contains(s, sub)
  {
    if Contains(s, sub) {
      var i := ContainsWitness(s, sub);
    }
  }

  /** Python's `s.replace(pattern, with)`: non-overlapping occurrences, left to right. */
  function Replace(s: string, pattern: string, with: string): string
    requires |pattern| > 0
    decreases |s|
  {
    if |s| == 0 then ""
    else if StartsWith(s, pattern) then with + Replace(s[|pattern|..], pattern, with)
    else [s[0]] + Replace(s[1..], pattern, with)
  }

  /** Removing every occurrence of one character leaves none behind. */
  lemma {:induction false} RemoveCharRemovesAll(s: string, c: char)
    ensures forall i :: 0 <= i < |Replace(s, [c], "")| ==> Replace(s, [c], "")[i] != c
    decreases |s|
  {
    if |s| > 0 {
      RemoveCharRemovesAll(s[1..], c);
    }
  }

  /** Replacing one character by another commutes with concatenation. */
  lemma {:induction false} ReplaceCharConcat(a: string, b: string, c: char, with: string)
    ensures Replace(a + b, [c], with) == Replace(a, [c], with) + Replace(b, [c], with)
    decreases |a|
  {
    if |a| == 0 {
      assert a + b == b;
    } else {
      var ab := a + b;
      assert ab[0] == a[0];
      assert ab[1..] == a[1..] + b;
      ReplaceCharConcat(a[1..], b, c, with);
      var rest := Replace(a[1..], [c], with);
      var head := if a[0] == c then with else [a[0]];
      ReplaceCharStep(ab, c, with);
      ReplaceCharStep(a, c, with);
      assert Replace(ab, [c], with) == head + (rest + Replace(b, [c], with));
      assert Replace(a, [c], with) == head + rest;
    }
  }

  /** One step of replacing a single character. */
  lemma ReplaceCharStep(s: string, c: char, with: string)
    requires |s| > 0
    ensures Replace(s, [c], with) == (if s[0] == c then with else [s[0]]) + Replace(s[1..], [c], with)
  {
    assert StartsWith(s, [c]) <==> s[0] == c by {
      assert s[..1] == [s[0]];
    }
  }

  /** A string without the character is left as it is. */
  lemma {:induction false} ReplaceAbsentChar(s: string, c: char, with: string)
    requires forall i :: 0 <= i < |s| ==> s[i] != c
    ensures Replace(s, [c], with) == s
    decreases |s|
  {
    if |s| > 0 {
      ReplaceAbsentChar(s[1..], c, with);
    }
  }

  /** A string in which the pattern's first character never occurs is left as it is. */
  lemma {:induction false} ReplaceAbsentPattern(s: string, pattern: string, with: string)
    requires |pattern| > 0
    requires forall i :: 0 <= i < |s| ==> s[i] != pattern[0]
    ensures Replace(s, pattern, with) == s
    decreases |s|
  {
    if |s| > 0 {
      ReplaceAbsentPattern(s[1..], pattern, with);
    }
  }

  /** The characters Python's `str.strip()` and `str.split()` treat as whitespace. */
  predicate IsSpace(c: char) {
    c == ' ' || ('\t' <= c <= '\r') || ('\U{001C}' <= c <= '\U{001F}')
    || c == '\U{0085}' || c == '\U{00A0}' || c == '\U{1680}'
    || ('\U{2000}' <= c <= '\U{200A}') || c == '\U{2028}' || c == '\U{2029}'
    || c == '\U{202F}' || c == '\U{205F}' || c == '\U{3000}'
  }

  predicate IsBlank(s: string) {
    forall i :: 0 <= i < |s| ==> IsSpace(s[i])
  }

  /** `s` without its leading whitespace: everything removed is whitespace, and what is left starts with none. */
  function TrimStart(s: string): (r: string)
    ensures |r| <= |s| && EndsWith(s, r)
    ensures IsBlank(s[..|s| - |r|])
    ensures r == [] || !IsSpace(r[0])
    decreases |s|
  {
    if |s| > 0 && IsSpace(s[0]) then TrimStart(s[1..]) else s
  }

  /** `s` without its trailing whitespace: everything removed is whitespace, and what is left ends with none. */
  function TrimEnd(s: string): (r: string)
    ensures |r| <= |s| && StartsWith(s, r)
    ensures IsBlank(s[|r|..])
    ensures r == [] || !IsSpace(r[|r| - 1])
    decreases |s|
  {
    if |s| > 0 && IsSpace(s[|s| - 1]) then TrimEnd(s[..|s| - 1]) else s
  }

  /** Python's `str.strip()` with no argument. */
  function Strip(s: string): string {
    TrimStart(TrimEnd(s))
  }

  /** `Strip(s)` is empty exactly when `s` is made of whitespace only (`not s.strip()`). */
  lemma {:induction false} StripEmptyIffBlank(s: string)
    ensures Strip(s) == [] <==> IsBlank(s)
    decreases |s|
  {
    if |s| > 0 {
      if IsSpace(s[|s| - 1]) {
        StripEmptyIffBlank(s[..|s| - 1]);
        assert IsBlank(s) <==> IsBlank(s[..|s| - 1]) by {
          if IsBlank(s[..|s| - 1]) {
            forall i | 0 <= i < |s| ensures IsSpace(s[i]) {
              if i < |s| - 1 { assert s[i] == s[..|s| - 1][i]; }
            }
          }
        }
      } else {
        assert TrimEnd(s) == s;
        assert !IsBlank(s);
        if |s| > 0 && IsSpace(s[0]) {
          NonBlankTrimStart(s, |s| - 1);
        }
      }
    }
  }

  lemma {:induction false} NonBlankTrimStart(s: string, k: nat)
    requires k < |s| && !IsSpace(s[k])
    ensures TrimStart(s) != []
    decreases |s|
  {
    if IsSpace(s[0]) {
      NonBlankTrimStart(s[1..], k - 1);
    }
  }

  /** A word of `split()`: non-empty and free of whitespace. */
  predicate IsWord(w: string) {
    |w| > 0 && forall i :: 0 <= i < |w| ==> !IsSpace(w[i])
  }

  /** The longest prefix of `s` without whitespace. */
  function LeadingWord(s: string): (w: string)
    ensures |w| <= |s| && s[..|w|] == w
    ensures |s| > 0 && !IsSpace(s[0]) ==> IsWord(w)
    ensures |w| < |s| ==> IsSpace(s[|w|])
    decreases |s|
  {
    if |s| == 0 || IsSpace(s[0]) then "" else [s[0]] + LeadingWord(s[1..])
  }

  /** What occurs in a suffix of `s` occurs in `s`. */
  lemma {:induction false} ContainsInSuffix(s: string, t: string, x: string)
    requires EndsWith(s, t) && Contains(t, x)
    ensures Contains(s, x)
    decreases |s| - |t|
  {
    if |s| == |t| {
      assert s == t;
    } else {
      assert s[1..][|s[1..]| - |t|..] == t;
      ContainsInSuffix(s[1..], t, x);
    }
  }

  lemma SuffixOfSuffix(s: string, t: string, u: string)
    requires EndsWith(s, t) && EndsWith(t, u)
    ensures EndsWith(s, u)
  {
    assert s[|s| - |u|..] == s[|s| - |t|..][|t| - |u|..];
  }

  /**
   * One step of `split()` on a string that is not blank: the first word, and
   * what follows it.
   */
  function NextWord(s: string): (r: (string, string))
    requires TrimStart(s) != []
    ensures IsWord(r.0) && Contains(s, r.0)
    ensures |r.1| < |s| && EndsWith(s, r.1)
  {
    var t := TrimStart(s);
    var w := LeadingWord(t);
    assert StartsWith(t, w);
    ContainsInSuffix(s, t, w);
    assert t[|t| - |t[|w|..]|..] == t[|w|..];
    SuffixOfSuffix(s, t, t[|w|..]);
    (w, t[|w|..])
  }

  /** What occurs in each of `words` occurs in any string that ends with the one they occur in. */
  lemma OccurInSuffix(s: string, t: string, words: seq<string>)
    requires EndsWith(s, t)
    requires forall w :: w in words ==> Contains(t, w)
    ensures forall w :: w in words ==> Contains(s, w)
  {
    forall w | w in words
      ensures Contains(s, w)
    {
      ContainsInSuffix(s, t, w);
    }
  }

  /**
   * Python's `str.split()` with no argument: maximal runs of non-whitespace,
   * each a word that occurs in `s`.
   */
  function SplitWords(s: string): (ws: seq<string>)
    ensures forall w :: w in ws ==> IsWord(w) && Contains(s, w)
    ensures ws == [] <==> IsBlank(s)
    decreases |s|
  {
    if TrimStart(s) == [] then []
    else
      var next := NextWord(s);
      var rest := SplitWords(next.1);
      OccurInSuffix(s, next.1, rest);
      [next.0] + rest
  }

  /** `pads[0] + words[0] + pads[1] + ... + words[n - 1] + pads[n]`. */
  function Interleave(pads: seq<string>, words: seq<string>): string
    requires |pads| == |words| + 1
    decreases |words|
  {
    if |words| == 0 then pads[0] else pads[0] + words[0] + Interleave(pads[1..], words[1..])
  }

  /**
   * `s` is the words separated by whitespace runs `pads`: the runs at either
   * end may be empty, the ones between two words may not.
   */
  predicate SpacedWords(s: string, pads: seq<string>, words: seq<string>) {
    && |pads| == |words| + 1
    && (forall i :: 0 <= i < |pads| ==> IsBlank(pads[i]))
    && (forall i :: 0 < i < |pads| - 1 ==> pads[i] != [])
    && (forall i :: 0 <= i < |words| ==> IsWord(words[i]))
    && Interleave(pads, words) == s
  }

  /** A word followed by nothing or by whitespace is the leading word. */
  lemma {:induction false} LeadingWordOf(w: string, rest: string)
    requires IsWord(w) && (rest == [] || IsSpace(rest[0]))
    ensures LeadingWord(w + rest) == w
    decreases |w|
  {
    if |w| > 1 {
      assert (w + rest)[1..] == w[1..] + rest;
      LeadingWordOf(w[1..], rest);
    } else {
      assert (w + rest)[1..] == rest;
    }
  }

  /** Whitespace in front of a text that does not start with whitespace is what `TrimStart` removes. */
  lemma {:induction false} TrimStartBlankPrefix(pad: string, t: string)
    requires IsBlank(pad) && (t == [] || !IsSpace(t[0]))
    ensures TrimStart(pad + t) == t
    decreases |pad|
  {
    if |pad| > 0 {
      assert (pad + t)[1..] == pad[1..] + t;
      TrimStartBlankPrefix(pad[1..], t);
    }
  }

  /** A whitespace run and a word put in front of a layout make a layout. */
  lemma SpacedWordsCons(pad: string, w: string, rest: string, pads: seq<string>, words: seq<string>)
    requires IsBlank(pad) && IsWord(w) && SpacedWords(rest, pads, words)
    requires words != [] ==> pads[0] != []
    ensures SpacedWords(pad + w + rest, [pad] + pads, [w] + words)
  {
    var ps := [pad] + pads;
    var ws := [w] + words;
    assert ps[1..] == pads && ws[1..] == words;
    forall i | 0 < i < |ps|
      ensures IsBlank(ps[i]) && (i < |ps| - 1 ==> ps[i] != [])
    {
      assert ps[i] == pads[i - 1];
    }
    forall i | 0 < i < |ws|
      ensures IsWord(ws[i])
    {
      assert ws[i] == words[i - 1];
    }
  }

  /** Taking the first whitespace run and word off a layout leaves a layout of the rest. */
  lemma SpacedWordsTail(s: string, pads: seq<string>, words: seq<string>)
    requires SpacedWords(s, pads, words) && words != []
    ensures s == pads[0] + words[0] + Interleave(pads[1..], words[1..])
    ensures SpacedWords(Interleave(pads[1..], words[1..]), pads[1..], words[1..])
    ensures var rest := Interleave(pads[1..], words[1..]); rest == [] || IsSpace(rest[0])
  {
    var ps := pads[1..];
    var ws := words[1..];
    forall i | 0 <= i < |ps|
      ensures IsBlank(ps[i]) && (0 < i < |ps| - 1 ==> ps[i] != [])
    {
      assert ps[i] == pads[i + 1];
    }
    forall i | 0 <= i < |ws|
      ensures IsWord(ws[i])
    {
      assert ws[i] == words[i + 1];
    }
    var rest := Interleave(ps, ws);
    if ws != [] {
      assert IsBlank(pads[1]) && pads[1] != [];
      assert rest == pads[1] + (ws[0] + Interleave(ps[1..], ws[1..]));
      assert rest[0] == pads[1][0];
    } else {
      assert rest == pads[1] && IsBlank(pads[1]);
    }
  }

  /** What `TrimStart` removes is whitespace, and is not empty when `s` starts with whitespace. */
  lemma LeadBlank(s: string)
    ensures IsBlank(s[..|s| - |TrimStart(s)|])
    ensures |s| > 0 && IsSpace(s[0]) ==> |TrimStart(s)| < |s|
  {
    var lead := s[..|s| - |TrimStart(s)|];
    forall i | 0 <= i < |lead|
      ensures IsSpace(lead[i])
    {
      assert lead[i] == s[i];
    }
  }

  /** A text is its leading word followed by a rest that is empty or starts with whitespace. */
  lemma WordAndRest(t: string)
    ensures t == LeadingWord(t) + t[|LeadingWord(t)|..]
    ensures var rest := t[|LeadingWord(t)|..]; rest == [] || IsSpace(rest[0])
  {
    var w := LeadingWord(t);
    assert t[..|w|] == w;
    if |w| < |t| {
      assert t[|w|..][0] == t[|w|];
    }
  }

  /** One step of `split()` cuts `s` into leading whitespace, the word and the rest, which starts with whitespace. */
  lemma NextWordParts(s: string)
    requires TrimStart(s) != []
    ensures var t := TrimStart(s);
      var lead := s[..|s| - |t|];
      var w := LeadingWord(t);
      var rest := t[|w|..];
      && s == lead + w + rest
      && IsBlank(lead)
      && (IsSpace(s[0]) ==> lead != [])
      && (rest == [] || IsSpace(rest[0]))
  {
    var t := TrimStart(s);
    var lead := s[..|s| - |t|];
    LeadBlank(s);
    WordAndRest(t);
    assert s == lead + t;
    Concat3(lead, LeadingWord(t), t[|LeadingWord(t)|..]);
  }

  lemma Concat3(a: string, b: string, c: string)
    ensures a + b + c == a + (b + c)
  {
  }

  /** `split()` of a string that is not blank: its first word, then `split()` of what follows that word. */
  lemma SplitWordsFirst(s: string)
    requires TrimStart(s) != []
    ensures var t := TrimStart(s);
      SplitWords(s) == [LeadingWord(t)] + SplitWords(t[|LeadingWord(t)|..])
  {
  }

  /** A blank string is one whitespace run and no word. */
  lemma SplitPadsBlank(s: string)
    requires TrimStart(s) == []
    ensures SpacedWords(s, [s], SplitWords(s))
  {
    assert IsBlank(s);
  }

  /** What follows the first word of a string that is not blank. */
  function AfterFirstWord(s: string): string
    requires TrimStart(s) != []
  {
    TrimStart(s)[|LeadingWord(TrimStart(s))|..]
  }

  /** A layout of what follows the first word extends, with that word, to a layout of `s`. */
  lemma SplitPadsStep(s: string, restPads: seq<string>, restWords: seq<string>)
    requires TrimStart(s) != []
    requires SpacedWords(AfterFirstWord(s), restPads, restWords)
    requires restWords != [] ==> restPads[0] != []
    ensures var lead := s[..|s| - |TrimStart(s)|];
      && SpacedWords(s, [lead] + restPads, [LeadingWord(TrimStart(s))] + restWords)
      && (IsSpace(s[0]) ==> lead != [])
  {
    var t := TrimStart(s);
    var lead := s[..|s| - |t|];
    var w := LeadingWord(t);
    var rest := t[|w|..];
    NextWordParts(s);
    SpacedWordsConsAt(s, lead, w, rest, restPads, restWords);
  }

  lemma SpacedWordsConsAt(s: string, lead: string, w: string, rest: string, pads: seq<string>, words: seq<string>)
    requires s == lead + w + rest
    requires IsBlank(lead) && IsWord(w) && SpacedWords(rest, pads, words)
    requires words != [] ==> pads[0] != []
    ensures SpacedWords(s, [lead] + pads, [w] + words)
  {
    SpacedWordsCons(lead, w, rest, pads, words);
  }

  /** The whitespace runs around and between the words of `split()`. */
  lemma {:induction false} SplitPads(s: string) returns (pads: seq<string>)
    ensures SpacedWords(s, pads, SplitWords(s))
    ensures |s| > 0 && IsSpace(s[0]) ==> pads[0] != []
    decreases |s|
  {
    if TrimStart(s) == [] {
      SplitPadsBlank(s);
      pads := [s];
    } else {
      var rest := AfterFirstWord(s);
      var restPads := SplitPads(rest);
      assert SplitWords(rest) != [] ==> restPads[0] != [] by {
        if SplitWords(rest) != [] {
          assert !IsBlank(rest);
          NextWordParts(s);
        }
      }
      SplitPadsStep(s, restPads, SplitWords(rest));
      SplitWordsFirst(s);
      pads := [s[..|s| - |TrimStart(s)|]] + restPads;
    }
  }

  /** `split()` cuts `s` into its words and the whitespace runs around them. */
  lemma SplitWordsLayout(s: string)
    ensures exists pads :: SpacedWords(s, pads, SplitWords(s))
  {
    var pads := SplitPads(s);
  }

  /** Whitespace, then a word followed by nothing or by whitespace: `split()` takes that word first. */
  lemma SplitWordsStep(s: string, pad: string, w: string, rest: string)
    requires IsBlank(pad) && IsWord(w) && (rest == [] || IsSpace(rest[0]))
    requires s == pad + (w + rest)
    ensures SplitWords(s) == [w] + SplitWords(rest)
  {
    TrimStartBlankPrefix(pad, w + rest);
    LeadingWordOf(w, rest);
    assert (w + rest)[|w|..] == rest;
    assert NextWord(s) == (w, rest);
  }

  /**
   * The words of `split()` are the only words that `s` is a whitespace-separated
   * sequence of: any such layout has exactly `SplitWords(s)` as its words.
   */
  lemma {:induction false} SplitWordsUnique(s: string, pads: seq<string>, words: seq<string>)
    requires SpacedWords(s, pads, words)
    ensures SplitWords(s) == words
    decreases |words|
  {
    if |words| == 0 {
      assert s == pads[0] && IsBlank(s);
    } else {
      var rest := Interleave(pads[1..], words[1..]);
      SpacedWordsTail(s, pads, words);
      Concat3(pads[0], words[0], rest);
      SplitWordsStep(s, pads[0], words[0], rest);
      SplitWordsUnique(rest, pads[1..], words[1..]);
      HeadTail(words);
    }
  }

  lemma HeadTail(xs: seq<string>)
    requires xs != []
    ensures [xs[0]] + xs[1..] == xs
  {
  }

  /** Python's `sep.join(parts)`. */
  function Join(parts: seq<string>, sep: string): string {
    if |parts| == 0 then ""
    else if |parts| == 1 then parts[0]
    else parts[0] + sep + Join(parts[1..], sep)
  }

  function DigitChar(d: nat): char
    requires d < 10
  {
    "0123456789"[d]
  }

  /** Python's `str(n)` for a natural number. */
  function NatToString(n: nat): (r: string)
    ensures |r| > 0
    decreases n
  {
    if n < 10 then [DigitChar(n)] else NatToString(n / 10) + [DigitChar(n % 10)]
  }

  /** Python's `str(i)` for an integer. */
  function IntToString(i: int): (r: string)
    ensures |r| > 0
  {
    if i < 0 then "-" + NatToString(-i) else NatToString(i)
  }

  /** Three digits, zero-padded. */
  function Pad3(k: nat): string
    requires k < 1000
  {
    [DigitChar(k / 100), DigitChar(k / 10 % 10), DigitChar(k % 10)]
  }

  /** Python's `f"{n:,}"` for a natural number, with `sep` in place of the comma. */
  function GroupedNat(n: nat, sep: char): (r: string)
    ensures |r| > 0
    decreases n
  {
    if n < 1000 then NatToString(n) else GroupedNat(n / 1000, sep) + [sep] + Pad3(n % 1000)
  }

  /** Python's `f"{i:,}"` for an integer, with `sep` in place of the comma. */
  function GroupedInt(i: int, sep: char): string {
    if i < 0 then "-" + GroupedNat(-i, sep) else GroupedNat(i, sep)
  }
}
