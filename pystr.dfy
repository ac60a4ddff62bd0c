/**
 * The few Python string operations the netstat parser is built from:
 * `str.split()` (no argument), `str.split(sep)` for a one-character
 * separator, `sep.join(parts)` and the `%d` rendering of a natural number.
 */
module PyStr {

  /** Python's `str.isspace()` for one character: the separators `str.split()` drops. */
  predicate IsSpace(c: char) {
    ('\t' <= c <= '\r') || ('\U{1C}' <= c <= '\U{1F}') || c == ' '
    || c == '\U{85}' || c == '\U{A0}' || c == '\U{1680}'
    || ('\U{2000}' <= c <= '\U{200A}') || c == '\U{2028}' || c == '\U{2029}'
    || c == '\U{202F}' || c == '\U{205F}' || c == '\U{3000}'
  }

  /** A field `str.split()` can return: non-empty and free of whitespace. */
  predicate IsWord(w: string) {
    w != [] && forall i :: 0 <= i < |w| ==> !IsSpace(w[i])
  }

  /** `sep.join(parts)`. */
  function JoinWith(sep: string, parts: seq<string>): (s: string)
  {
    if parts == [] then ""
    else if |parts| == 1 then parts[0]
    else parts[0] + sep + JoinWith(sep, parts[1..])
  }

  /** Length of the longest whitespace-free prefix of `s`. */
  function WordLength(s: string): (n: nat)
    ensures n <= |s|
    ensures forall i :: 0 <= i < n ==> !IsSpace(s[i])
    ensures n < |s| ==> IsSpace(s[n])
  {
    if s == [] || IsSpace(s[0]) then 0 else 1 + WordLength(s[1..])
  }

  /** `s.split()`: the maximal runs of non-whitespace characters, in order. */
  function Words(s: string): (ws: seq<string>)
    ensures forall k :: 0 <= k < |ws| ==> IsWord(ws[k])
    decreases |s|
  {
    if s == [] then []
    else if IsSpace(s[0]) then Words(s[1..])
    else
      var n := WordLength(s);
      [s[..n]] + Words(s[n..])
  }

  /** `s` with every whitespace character removed. */
  function Squeeze(s: string): string
  {
    if s == [] then ""
    else if IsSpace(s[0]) then Squeeze(s[1..])
    else [s[0]] + Squeeze(s[1..])
  }

  lemma {:induction false} JoinWithCons(sep: string, w: string, rest: seq<string>)
    ensures JoinWith(sep, [w] + rest) == if rest == [] then w else w + sep + JoinWith(sep, rest)
  {
    assert ([w] + rest)[1..] == rest;
  }

  lemma {:induction false} SqueezeAppend(a: string, b: string)
    ensures Squeeze(a + b) == Squeeze(a) + Squeeze(b)
    decreases |a|
  {
    if a != [] {
      assert (a + b)[1..] == a[1..] + b;
      SqueezeAppend(a[1..], b);
    } else {
      assert a + b == b;
    }
  }

  lemma {:induction false} SqueezeWord(w: string)
    requires forall i :: 0 <= i < |w| ==> !IsSpace(w[i])
    ensures Squeeze(w) == w
    decreases |w|
  {
    if w != [] {
      SqueezeWord(w[1..]);
      assert [w[0]] + w[1..] == w;
    }
  }

  lemma JoinNothingCons(w: string, rest: seq<string>)
    ensures JoinWith("", [w] + rest) == w + JoinWith("", rest)
  {
    JoinWithCons("", w, rest);
    if rest == [] {
      assert w + "" == w;
    } else {
      assert w + "" + JoinWith("", rest) == w + JoinWith("", rest);
    }
  }

  /** No character other than whitespace is lost or added by `str.split()`. */
  lemma {:induction false} WordsKeepContent(s: string)
    ensures JoinWith("", Words(s)) == Squeeze(s)
    decreases |s|
  {
    if s == [] {
    } else if IsSpace(s[0]) {
      WordsKeepContent(s[1..]);
    } else {
      var n := WordLength(s);
      var w, t := s[..n], s[n..];
      assert Words(s) == [w] + Words(t);
      JoinNothingCons(w, Words(t));
      WordsKeepContent(t);
      assert s == w + t;
      SqueezeAppend(w, t);
      SqueezeWord(w);
    }
  }

  /** A word followed by nothing or by whitespace splits off as one field. */
  lemma {:induction false} WordsOfWordThen(w: string, t: string)
    requires IsWord(w)
    requires t == [] || IsSpace(t[0])
    ensures Words(w + t) == [w] + Words(t)
  {
    var s := w + t;
    var n := WordLength(s);
    assert forall i :: 0 <= i < |w| ==> s[i] == w[i];
    assert |w| < |s| ==> s[|w|] == t[0];
    assert n == |w|;
    assert s[..n] == w && s[n..] == t;
  }

  /** Splitting what `" ".join` glued together gives the words back. */
  lemma {:induction false} WordsOfJoin(ws: seq<string>)
    requires forall k :: 0 <= k < |ws| ==> IsWord(ws[k])
    ensures Words(JoinWith(" ", ws)) == ws
    decreases |ws|
  {
    if ws == [] {
    } else if |ws| == 1 {
      WordsOfWordThen(ws[0], "");
      assert ws[0] + "" == ws[0];
    } else {
      var rest := JoinWith(" ", ws[1..]);
      assert ws[0] + " " + rest == ws[0] + (" " + rest);
      WordsOfWordThen(ws[0], " " + rest);
      assert (" " + rest)[1..] == rest;
      WordsOfJoin(ws[1..]);
      assert [ws[0]] + ws[1..] == ws;
    }
  }

  /** `" ".join(s.split()).split() == s.split()`: re-normalising whitespace changes nothing. */
  lemma NormalizeWhitespace(s: string)
    ensures Words(JoinWith(" ", Words(s))) == Words(s)
  {
    WordsOfJoin(Words(s));
  }

  /** Index of the first `c` in `s`, or `|s|` when there is none (`str.find` without the -1). */
  function IndexOf(s: string, c: char): (i: nat)
    ensures i <= |s|
    ensures forall k :: 0 <= k < i ==> s[k] != c
    ensures i < |s| ==> s[i] == c
  {
    if s == [] || s[0] == c then 0 else 1 + IndexOf(s[1..], c)
  }

  /** `s.split(sep)` for a one-character separator: always at least one part. */
  function SplitOn(s: string, sep: char): (parts: seq<string>)
    ensures |parts| >= 1
    ensures forall k :: 0 <= k < |parts| ==> sep !in parts[k]
  {
    if s == [] then [""]
    else
      var rest := SplitOn(s[1..], sep);
      if s[0] == sep then [""] + rest
      else [[s[0]] + rest[0]] + rest[1..]
  }

  /** The first part is the text before the first separator. */
  lemma {:induction false} SplitOnHead(s: string, sep: char)
    ensures SplitOn(s, sep)[0] == s[..IndexOf(s, sep)]
    decreases |s|
  {
    if s != [] && s[0] != sep {
      SplitOnHead(s[1..], sep);
    }
  }

  /** After the first separator, splitting carries on with the rest of the text. */
  lemma {:induction false} SplitOnTail(s: string, sep: char)
    requires IndexOf(s, sep) < |s|
    ensures SplitOn(s, sep)[1..] == SplitOn(s[IndexOf(s, sep) + 1..], sep)
    decreases |s|
  {
    if s[0] != sep {
      SplitOnTail(s[1..], sep);
      assert s[1..][IndexOf(s[1..], sep) + 1..] == s[IndexOf(s, sep) + 1..];
    }
  }

  /** There is a second part exactly when the separator occurs. */
  lemma {:induction false} SplitOnHasSecond(s: string, sep: char)
    ensures |SplitOn(s, sep)| >= 2 <==> sep in s
    decreases |s|
  {
    if s != [] {
      SplitOnHasSecond(s[1..], sep);
      assert s == [s[0]] + s[1..];
    }
  }

  /** Growing the first part by one character grows the joined text by that character. */
  lemma JoinWithGrowFirst(sep: string, c: char, parts: seq<string>)
    requires |parts| >= 1
    ensures JoinWith(sep, [[c] + parts[0]] + parts[1..]) == [c] + JoinWith(sep, parts)
  {
    var rest := parts[1..];
    JoinWithCons(sep, [c] + parts[0], rest);
    JoinWithCons(sep, parts[0], rest);
    assert [parts[0]] + rest == parts;
  }

  /** Joining the parts with the separator gives the text back. */
  lemma {:induction false} SplitOnJoin(s: string, sep: char)
    ensures JoinWith([sep], SplitOn(s, sep)) == s
    decreases |s|
  {
    if s != [] {
      var rest := SplitOn(s[1..], sep);
      SplitOnJoin(s[1..], sep);
      if s[0] == sep {
        JoinWithCons([sep], "", rest);
      } else {
        JoinWithGrowFirst([sep], s[0], rest);
      }
      assert s == [s[0]] + s[1..];
    }
  }

  function DigitChar(d: nat): (c: char)
    requires d < 10
    ensures '0' <= c <= '9'
  {
    (('0' as int) + d) as char
  }

  /** Value of a string of decimal digits. */
  function DecimalValue(s: string): nat
    requires forall i :: 0 <= i < |s| ==> '0' <= s[i] <= '9'
  {
    if s == [] then 0
    else 10 * DecimalValue(s[..|s| - 1]) + (s[|s| - 1] as int - '0' as int)
  }

  /** `'%d' % n`: decimal digits, no leading zero. */
  function FormatDecimal(n: nat): (s: string)
    ensures s != []
    ensures forall i :: 0 <= i < |s| ==> '0' <= s[i] <= '9'
    ensures s[0] == '0' ==> s == "0"
  {
    if n < 10 then [DigitChar(n)] else FormatDecimal(n / 10) + [DigitChar(n % 10)]
  }

  /** The rendered number reads back as the number. */
  lemma {:induction false} FormatDecimalValue(n: nat)
    ensures DecimalValue(FormatDecimal(n)) == n
  {
    if n >= 10 {
      var s := FormatDecimal(n);
      assert s[..|s| - 1] == FormatDecimal(n / 10);
      FormatDecimalValue(n / 10);
    }
  }
}
