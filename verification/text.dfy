/** The few pieces of Python's `str` behaviour the bot relies on:
    `str.split()` without a separator, `sep.join(parts)`, `str()` of an
    integer and of `None`, and `'@' in text`. */
module PyText {
  import opened Wrappers

  /** `c.isspace()` for a single character: the characters Python 3 treats
      as whitespace when `str.split()` is called without a separator. */
  predicate IsSpace(c: char)
  {
    || c == ' ' || c == '\t' || c == '\n' || c == '\r'
    || c == '\U{B}' || c == '\U{C}'
    || ('\U{1C}' <= c <= '\U{1F}')
    || c == '\U{85}' || c == '\U{A0}' || c == '\U{1680}'
    || ('\U{2000}' <= c <= '\U{200A}')
    || c == '\U{2028}' || c == '\U{2029}' || c == '\U{202F}'
    || c == '\U{205F}' || c == '\U{3000}'
  }

  predicate NoSpace(w: string)
  {
    forall i :: 0 <= i < |w| ==> !IsSpace(w[i])
  }

  /** The leading whitespace of `s` removed. */
  function DropSpaces(s: string): (r: string)
    ensures |r| <= |s| && r == s[|s| - |r|..]
    ensures r == [] || !IsSpace(r[0])
    ensures forall i :: 0 <= i < |s| - |r| ==> IsSpace(s[i])
  {
    if s != [] && IsSpace(s[0]) then DropSpaces(s[1..]) else s
  }

  /** The longest prefix of `s` that holds no whitespace. */
  function TakeWord(s: string): (w: string)
    ensures |w| <= |s| && w == s[..|w|] && NoSpace(w)
    ensures |w| < |s| ==> IsSpace(s[|w|])
    ensures s != [] && !IsSpace(s[0]) ==> |w| >= 1
  {
    if s == [] || IsSpace(s[0]) then [] else [s[0]] + TakeWord(s[1..])
  }

  /** `s.split()`: the maximal runs of non-whitespace characters, in order. */
  function Split(s: string): seq<string>
    decreases |s|
  {
    var t := DropSpaces(s);
    if t == [] then []
    else
      var w := TakeWord(t);
      [w] + Split(t[|w|..])
  }

  lemma {:induction false} TakeWordOfWord(w: string, s: string)
    requires NoSpace(w) && (s == [] || IsSpace(s[0]))
    ensures TakeWord(w + s) == w
  {
    if w != [] {
      assert (w + s)[1..] == w[1..] + s;
      TakeWordOfWord(w[1..], s);
    } else {
      assert w + s == s;
    }
  }

  /** Leading whitespace does not change the words. */
  lemma SplitSkipsSpace(sp: char, rest: string)
    requires IsSpace(sp)
    ensures Split([sp] + rest) == Split(rest)
  {
    assert ([sp] + rest)[1..] == rest;
  }

  /** A word followed by whitespace is the first word of the text. */
  lemma SplitFirstWord(w: string, sp: char, rest: string)
    requires w != [] && NoSpace(w) && IsSpace(sp)
    ensures Split(w + [sp] + rest) == [w] + Split(rest)
  {
    var s := w + [sp] + rest;
    assert s == w + ([sp] + rest);
    TakeWordOfWord(w, [sp] + rest);
    assert s[|w|..] == [sp] + rest;
    SplitSkipsSpace(sp, rest);
  }

  /** A text that is one word and nothing else splits into that word. */
  lemma SplitLastWord(w: string)
    requires w != [] && NoSpace(w)
    ensures Split(w) == [w]
  {
    TakeWordOfWord(w, []);
    assert w + [] == w;
    assert w[|w|..] == [];
  }

  /** `s` with every whitespace character removed. */
  function RemoveSpaces(s: string): string
  {
    if s == [] then []
    else (if IsSpace(s[0]) then [] else [s[0]]) + RemoveSpaces(s[1..])
  }

  /** The words one after the other, nothing between them. */
  function Concat(words: seq<string>): string
  {
    if words == [] then [] else words[0] + Concat(words[1..])
  }

  lemma {:induction false} RemoveSpacesAppend(a: string, b: string)
    ensures RemoveSpaces(a + b) == RemoveSpaces(a) + RemoveSpaces(b)
  {
    if a != [] {
      assert (a + b)[1..] == a[1..] + b;
      RemoveSpacesAppend(a[1..], b);
    } else {
      assert a + b == b;
    }
  }

  lemma {:induction false} RemoveSpacesOfWord(w: string)
    requires NoSpace(w)
    ensures RemoveSpaces(w) == w
  {
    if w != [] {
      RemoveSpacesOfWord(w[1..]);
    }
  }

  /** Every word `split()` returns is non-empty and free of whitespace. */
  lemma {:induction false} SplitWordsAreWords(s: string)
    ensures forall w :: w in Split(s) ==> w != [] && NoSpace(w)
    decreases |s|
  {
    var t := DropSpaces(s);
    if t != [] {
      var w := TakeWord(t);
      var rest := t[|w|..];
      assert Split(s) == [w] + Split(rest);
      assert w != [] && NoSpace(w);
      SplitWordsAreWords(rest);
      forall x | x in [w] + Split(rest)
        ensures x != [] && NoSpace(x)
      {
        if x != w {
          assert x in Split(rest);
        }
      }
    }
  }

  lemma {:induction false} RemoveLeadingSpaces(s: string)
    ensures RemoveSpaces(DropSpaces(s)) == RemoveSpaces(s)
  {
    if s != [] && IsSpace(s[0]) {
      RemoveLeadingSpaces(s[1..]);
    }
  }

  lemma RemoveSpacesAfterWord(t: string)
    ensures RemoveSpaces(t) == TakeWord(t) + RemoveSpaces(t[|TakeWord(t)|..])
  {
    var w := TakeWord(t);
    assert t == w + t[|w|..];
    RemoveSpacesAppend(w, t[|w|..]);
    RemoveSpacesOfWord(w);
  }

  lemma ConcatCons(w: string, words: seq<string>)
    ensures Concat([w] + words) == w + Concat(words)
  {
    assert ([w] + words)[1..] == words;
  }

  /** The words `split()` returns hold, in order, exactly the non-whitespace
      characters of the text: nothing is lost, added or reordered. */
  lemma {:induction false} SplitKeepsNonSpaces(s: string)
    ensures Concat(Split(s)) == RemoveSpaces(s)
    decreases |s|
  {
    var t := DropSpaces(s);
    RemoveLeadingSpaces(s);
    if t != [] {
      var w := TakeWord(t);
      var rest := t[|w|..];
      assert Split(s) == [w] + Split(rest);
      ConcatCons(w, Split(rest));
      RemoveSpacesAfterWord(t);
      SplitKeepsNonSpaces(rest);
    }
  }

  lemma {:induction false} InRemoveSpaces(s: string, c: char)
    requires c in s && !IsSpace(c)
    ensures c in RemoveSpaces(s)
  {
    if s[0] != c {
      InRemoveSpaces(s[1..], c);
    }
  }

  lemma {:induction false} InConcat(words: seq<string>, c: char)
    requires c in Concat(words)
    ensures exists i :: 0 <= i < |words| && c in words[i]
  {
    if c !in words[0] {
      InConcat(words[1..], c);
      var i :| 0 <= i < |words[1..]| && c in words[1..][i];
      assert c in words[i + 1];
    }
  }

  /** A non-whitespace character of the text lands in one of its words. */
  lemma SplitFindsChar(s: string, c: char)
    requires c in s && !IsSpace(c)
    ensures exists i :: 0 <= i < |Split(s)| && c in Split(s)[i]
  {
    InRemoveSpaces(s, c);
    SplitKeepsNonSpaces(s);
    InConcat(Split(s), c);
  }

  /** `sep.join(parts)`. */
  function Join(parts: seq<string>, sep: string): string
  {
    if |parts| == 0 then ""
    else if |parts| == 1 then parts[0]
    else parts[0] + sep + Join(parts[1..], sep)
  }

  /** Joining one more part adds the separator and that part at the end. */
  lemma {:induction false} JoinSnoc(parts: seq<string>, sep: string, last: string)
    requires parts != []
    ensures Join(parts + [last], sep) == Join(parts, sep) + sep + last
  {
    if |parts| > 1 {
      assert (parts + [last])[1..] == parts[1..] + [last];
      JoinSnoc(parts[1..], sep, last);
    }
  }

  function DigitChar(d: nat): (c: char)
    requires d < 10
    ensures '0' <= c <= '9' && c as int - '0' as int == d
  {
    ('0' as int + d) as char
  }

  /** `str(n)` for a natural number: its decimal digits, no leading zero. */
  function NatToString(n: nat): (r: string)
    ensures r != []
  {
    if n < 10 then [DigitChar(n)] else NatToString(n / 10) + [DigitChar(n % 10)]
  }

  /** `str(n)` for a Python `int`: a minus sign before the digits of `-n`
      when `n` is negative. */
  function IntToString(n: int): (r: string)
    ensures r != []
  {
    if n < 0 then "-" + NatToString(-n) else NatToString(n)
  }

  /** The value of a string of decimal digits (the inverse of `NatToString`). */
  function ParseNat(s: string): nat
  {
    if s == [] then 0
    else
      var c := s[|s| - 1];
      ParseNat(s[..|s| - 1]) * 10 + (if '0' <= c <= '9' then c as int - '0' as int else 0)
  }

  /** The value of an optionally signed decimal string (the inverse of `IntToString`). */
  function ParseInt(s: string): int
  {
    if s != [] && s[0] == '-' then -(ParseNat(s[1..]) as int) else ParseNat(s)
  }

  lemma {:induction false} NatToStringDigits(n: nat)
    ensures forall i :: 0 <= i < |NatToString(n)| ==> '0' <= NatToString(n)[i] <= '9'
  {
    if n >= 10 {
      NatToStringDigits(n / 10);
    }
  }

  lemma {:induction false} NatRoundTrip(n: nat)
    ensures ParseNat(NatToString(n)) == n
  {
    if n >= 10 {
      var s := NatToString(n);
      assert s[..|s| - 1] == NatToString(n / 10);
      NatRoundTrip(n / 10);
    }
  }

  /** `str()` of an integer can be read back: distinct chat ids print
      differently. */
  lemma IntRoundTrip(n: int)
    ensures ParseInt(IntToString(n)) == n
  {
    if n < 0 {
      assert IntToString(n)[1..] == NatToString(-n);
      NatRoundTrip(-n);
    } else {
      NatToStringDigits(n);
      NatRoundTrip(n);
    }
  }

  /** `str()` of an integer is digits with an optional leading minus sign:
      never a comma or a space. */
  lemma IntToStringChars(n: int)
    ensures IntToString(n)[0] == '-' || '0' <= IntToString(n)[0] <= '9'
    ensures forall i :: 0 <= i < |IntToString(n)| ==> IntToString(n)[i] != ','
  {
    NatToStringDigits(if n < 0 then -n else n);
  }

  /** `'{}'.format(x)` for a value that may be `None`. */
  function FormatOption(x: Option<string>): string
  {
    match x
    case Some(v) => v
    case None => "None"
  }
}
