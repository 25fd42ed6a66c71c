/** The few Python string operations the scripts rely on: `str.isspace`,
    `str.upper`/`str.lower` (ASCII letters only), `str.split()`,
    `" ".join`, `str.strip()`, `str.endswith` and `str.split(sep)[0]`. */
module Text {

  /** Python's `str.isspace` for one character. */
  predicate IsSpace(c: char) {
    c == ' ' || c == '\t' || c == '\n' || c == '\r'
    || c == '\U{000B}' || c == '\U{000C}'
    || ('\U{001C}' <= c <= '\U{001F}')
    || c == '\U{0085}' || c == '\U{00A0}' || c == '\U{1680}'
    || ('\U{2000}' <= c <= '\U{200A}')
    || c == '\U{2028}' || c == '\U{2029}' || c == '\U{202F}'
    || c == '\U{205F}' || c == '\U{3000}'
  }

  predicate NoSpace(s: string) {
    forall i :: 0 <= i < |s| ==> !IsSpace(s[i])
  }

  function UpperChar(c: char): char {
    if 'a' <= c <= 'z' then (c as int - 'a' as int + 'A' as int) as char else c
  }

  function LowerChar(c: char): char {
    if 'A' <= c <= 'Z' then (c as int - 'A' as int + 'a' as int) as char else c
  }

  /** `s.upper()`, restricted to ASCII letters. */
  function Upper(s: string): (r: string)
    ensures |r| == |s|
    ensures forall i :: 0 <= i < |s| ==> r[i] == UpperChar(s[i])
  {
    seq(|s|, i requires 0 <= i < |s| => UpperChar(s[i]))
  }

  /** `s.lower()`, restricted to ASCII letters. */
  function Lower(s: string): (r: string)
    ensures |r| == |s|
    ensures forall i :: 0 <= i < |s| ==> r[i] == LowerChar(s[i])
  {
    seq(|s|, i requires 0 <= i < |s| => LowerChar(s[i]))
  }

  lemma UpperIdempotent(s: string)
    ensures Upper(Upper(s)) == Upper(s)
  {
    assert forall i :: 0 <= i < |s| ==> Upper(Upper(s))[i] == Upper(s)[i];
  }

  lemma UpperOfLower(s: string)
    ensures Upper(Lower(s)) == Upper(s)
  {
    assert forall i :: 0 <= i < |s| ==> Upper(Lower(s))[i] == Upper(s)[i];
  }

  lemma UpperEmpty(s: string)
    ensures Upper(s) == "" <==> s == ""
  {
  }

  /** Python's `s.split()` with no argument: the maximal runs of
      non-whitespace characters, in order. `cur` is the run being read. */
  function SplitFrom(s: string, cur: string): seq<string>
    decreases |s|
  {
    if s == [] then (if cur == [] then [] else [cur])
    else if IsSpace(s[0]) then (if cur == [] then [] else [cur]) + SplitFrom(s[1..], [])
    else SplitFrom(s[1..], cur + [s[0]])
  }

  function Split(s: string): seq<string> {
    SplitFrom(s, [])
  }

  /** Every piece `split()` returns is non-empty and holds no whitespace. */
  lemma {:induction false} SplitFromWords(s: string, cur: string)
    requires NoSpace(cur)
    ensures forall k :: 0 <= k < |SplitFrom(s, cur)| ==>
              SplitFrom(s, cur)[k] != [] && NoSpace(SplitFrom(s, cur)[k])
    decreases |s|
  {
    if s == [] {
    } else if IsSpace(s[0]) {
      SplitFromWords(s[1..], []);
    } else {
      SplitFromWords(s[1..], cur + [s[0]]);
    }
  }

  lemma SplitWords(s: string)
    ensures forall k :: 0 <= k < |Split(s)| ==> Split(s)[k] != [] && NoSpace(Split(s)[k])
  {
    SplitFromWords(s, []);
  }

  /** `" ".join(words)`. */
  function Join(words: seq<string>): string
    decreases |words|
  {
    if |words| == 0 then ""
    else if |words| == 1 then words[0]
    else words[0] + " " + Join(words[1..])
  }

  lemma JoinEmpty(words: seq<string>)
    requires forall k :: 0 <= k < |words| ==> words[k] != []
    ensures Join(words) == "" <==> words == []
  {
  }

  /** Reading a word without whitespace only extends the current run. */
  lemma {:induction false} SplitFromWord(w: string, rest: string, cur: string)
    requires NoSpace(w)
    ensures SplitFrom(w + rest, cur) == SplitFrom(rest, cur + w)
    decreases |w|
  {
    if w == [] {
      assert w + rest == rest;
      assert cur + w == cur;
    } else {
      assert (w + rest)[0] == w[0];
      assert (w + rest)[1..] == w[1..] + rest;
      SplitFromWord(w[1..], rest, cur + [w[0]]);
      assert cur + [w[0]] + w[1..] == cur + w;
    }
  }

  /** `split()` undoes `" ".join` on non-empty words without whitespace:
      the gloss the translator joins is split back into the same words. */
  lemma {:induction false} SplitJoin(words: seq<string>)
    requires forall k :: 0 <= k < |words| ==> words[k] != [] && NoSpace(words[k])
    ensures Split(Join(words)) == words
    decreases |words|
  {
    if |words| == 0 {
    } else if |words| == 1 {
      SplitFromWord(words[0], [], []);
      assert words[0] + [] == words[0];
      assert [] + words[0] == words[0];
    } else {
      var w, tail := words[0], Join(words[1..]);
      assert Join(words) == w + (" " + tail);
      SplitFromWord(w, " " + tail, []);
      assert [] + w == w;
      assert (" " + tail)[1..] == tail;
      SplitJoin(words[1..]);
      assert [w] + words[1..] == words;
    }
  }

  /** Python's `s.strip()`: drop leading and trailing whitespace. */
  function StripLeft(s: string): (r: string)
    decreases |s|
  {
    if s != [] && IsSpace(s[0]) then StripLeft(s[1..]) else s
  }

  function StripRight(s: string): (r: string)
    decreases |s|
  {
    if s != [] && IsSpace(s[|s| - 1]) then StripRight(s[..|s| - 1]) else s
  }

  function Strip(s: string): string {
    StripRight(StripLeft(s))
  }

  /** Some character of `s` is not whitespace. */
  predicate HasNonSpace(s: string) {
    exists i :: 0 <= i < |s| && !IsSpace(s[i])
  }

  /** `len(s.strip()) > 0` holds exactly when `s` has a non-whitespace character. */
  lemma {:induction false} StripNonEmpty(s: string)
    ensures Strip(s) != [] <==> HasNonSpace(s)
  {
    StripLeftNonEmpty(s);
    StripRightNonEmpty(StripLeft(s));
  }

  lemma {:induction false} StripLeftNonEmpty(s: string)
    ensures HasNonSpace(StripLeft(s)) <==> HasNonSpace(s)
    decreases |s|
  {
    if s != [] && IsSpace(s[0]) {
      var t := s[1..];
      StripLeftNonEmpty(t);
      assert StripLeft(s) == StripLeft(t);
      if HasNonSpace(s) {
        var i :| 0 <= i < |s| && !IsSpace(s[i]);
        assert i > 0 && t[i - 1] == s[i];
      }
      if HasNonSpace(t) {
        var i :| 0 <= i < |t| && !IsSpace(t[i]);
        assert s[i + 1] == t[i];
      }
    }
  }

  lemma {:induction false} StripRightNonEmpty(s: string)
    ensures StripRight(s) != [] <==> HasNonSpace(s)
    decreases |s|
  {
    if s != [] && IsSpace(s[|s| - 1]) {
      var t := s[..|s| - 1];
      StripRightNonEmpty(t);
      if HasNonSpace(s) {
        var i :| 0 <= i < |s| && !IsSpace(s[i]);
        assert i < |s| - 1;
        assert t[i] == s[i];
      }
      if HasNonSpace(t) {
        var i :| 0 <= i < |t| && !IsSpace(t[i]);
        assert s[i] == t[i];
      }
    } else if s != [] {
      assert !IsSpace(s[|s| - 1]);
    }
  }

  predicate EndsWith(s: string, suffix: string) {
    |suffix| <= |s| && s[|s| - |suffix|..] == suffix
  }

  /** `s.split(sep)[0]`: the text before the first `sep`, or all of `s`. */
  function BeforeFirst(s: string, sep: char): (r: string)
    decreases |s|
  {
    if s == [] || s[0] == sep then [] else [s[0]] + BeforeFirst(s[1..], sep)
  }

  lemma {:induction false} BeforeFirstSpec(s: string, sep: char)
    ensures |BeforeFirst(s, sep)| <= |s|
    ensures BeforeFirst(s, sep) == s[..|BeforeFirst(s, sep)|]
    ensures sep !in BeforeFirst(s, sep)
    ensures |BeforeFirst(s, sep)| < |s| ==> s[|BeforeFirst(s, sep)|] == sep
    decreases |s|
  {
    if s != [] && s[0] != sep {
      BeforeFirstSpec(s[1..], sep);
    }
  }

  /** The text before a first separator is recovered exactly. */
  lemma {:induction false} BeforeFirstOfJoined(a: string, sep: char, b: string)
    requires sep !in a
    ensures BeforeFirst(a + [sep] + b, sep) == a
    decreases |a|
  {
    if a != [] {
      BeforeFirstOfJoined(a[1..], sep, b);
      assert (a + [sep] + b)[1..] == a[1..] + [sep] + b;
    }
  }

  /** Decimal rendering of a natural number, as Python's `str(n)`. */
  function NatToString(n: nat): (r: string)
    decreases n
  {
    if n < 10 then [DigitChar(n)] else NatToString(n / 10) + [DigitChar(n % 10)]
  }

  function DigitChar(d: nat): char
    requires d < 10
  {
    ('0' as int + d) as char
  }

  /** `str(n)` consists of decimal digits only. */
  lemma {:induction false} NatToStringDigits(n: nat)
    ensures forall i :: 0 <= i < |NatToString(n)| ==> '0' <= NatToString(n)[i] <= '9'
    decreases n
  {
    if n >= 10 {
      NatToStringDigits(n / 10);
    }
  }
}
