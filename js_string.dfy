/** The JavaScript string operations the agents use: `trim`, `toLowerCase`,
    `split(/\s+/)`, `join(" ")`, and the decimal rendering of a number in a
    template literal. */
module JsString {

  /** The characters JavaScript's `\s` and `trim` treat as white space: the
      WhiteSpace and LineTerminator code points of ECMAScript. */
  predicate IsWhitespace(c: char) {
    c == '\t' || c == '\n' || c == '\U{000B}' || c == '\U{000C}' || c == '\r' || c == ' '
    || c == '\U{00A0}' || c == '\U{1680}' || ('\U{2000}' <= c <= '\U{200A}')
    || c == '\U{2028}' || c == '\U{2029}' || c == '\U{202F}' || c == '\U{205F}'
    || c == '\U{3000}' || c == '\U{FEFF}'
  }

  predicate NoWhitespace(w: string) {
    forall i :: 0 <= i < |w| ==> !IsWhitespace(w[i])
  }

  /** Neither starts nor ends with white space. */
  predicate Trimmed(s: string) {
    s == [] || (!IsWhitespace(s[0]) && !IsWhitespace(s[|s| - 1]))
  }

  /** Drops the leading white space. */
  function TrimStart(s: string): (r: string)
    ensures |r| <= |s|
    decreases |s|
  {
    if s != [] && IsWhitespace(s[0]) then TrimStart(s[1..]) else s
  }

  /** What `TrimStart` leaves is a suffix of `s` that does not start with
      white space, and every character it dropped was white space. */
  lemma {:induction false} TrimStartSpec(s: string)
    ensures var r := TrimStart(s);
      && |r| <= |s| && r == s[|s| - |r|..]
      && (forall i :: 0 <= i < |s| - |r| ==> IsWhitespace(s[i]))
      && (r == [] || !IsWhitespace(r[0]))
    decreases |s|
  {
    if s != [] && IsWhitespace(s[0]) {
      TrimStartSpec(s[1..]);
    }
  }

  /** Drops the trailing white space. */
  function TrimEnd(s: string): string
    decreases |s|
  {
    if s != [] && IsWhitespace(s[|s| - 1]) then TrimEnd(s[..|s| - 1]) else s
  }

  /** What `TrimEnd` leaves is a prefix of `s` that does not end with white
      space, and every character it dropped was white space. */
  lemma {:induction false} TrimEndSpec(s: string)
    ensures var r := TrimEnd(s);
      && |r| <= |s| && r == s[..|r|]
      && (forall i :: |r| <= i < |s| ==> IsWhitespace(s[i]))
      && (r == [] || !IsWhitespace(r[|r| - 1]))
    decreases |s|
  {
    if s != [] && IsWhitespace(s[|s| - 1]) {
      TrimEndSpec(s[..|s| - 1]);
    }
  }

  /** `String.prototype.trim`. */
  function Trim(s: string): (r: string)
    ensures Trimmed(r)
  {
    var t := TrimStart(s);
    TrimStartSpec(s);
    TrimEndSpec(t);
    var r := TrimEnd(t);
    assert r != [] ==> r[0] == t[0];
    r
  }

  /** A string that neither starts nor ends with white space is its own
      `trim`. */
  lemma TrimOfTrimmed(s: string)
    requires Trimmed(s)
    ensures Trim(s) == s
  {
  }

  /** The lower-case form of a character; only ASCII letters change. */
  function LowerChar(c: char): char {
    if 'A' <= c <= 'Z' then (c as int + 32) as char else c
  }

  /** `String.prototype.toLowerCase`, for ASCII letters. */
  function ToLower(s: string): (r: string)
    ensures |r| == |s|
    decreases |s|
  {
    if s == [] then [] else [LowerChar(s[0])] + ToLower(s[1..])
  }

  /** Lower-casing works character by character. */
  lemma {:induction false} ToLowerAt(s: string, i: nat)
    requires i < |s|
    ensures ToLower(s)[i] == LowerChar(s[i])
    decreases |s|
  {
    if i > 0 {
      ToLowerAt(s[1..], i - 1);
    }
  }

  predicate NoUpperCase(s: string) {
    forall i :: 0 <= i < |s| ==> !('A' <= s[i] <= 'Z')
  }

  /** Lower-casing leaves a string without upper-case letters unchanged. */
  lemma {:induction false} ToLowerOfLowerCase(s: string)
    requires NoUpperCase(s)
    ensures ToLower(s) == s
    decreases |s|
  {
    if s != [] {
      ToLowerOfLowerCase(s[1..]);
      assert s == [s[0]] + s[1..];
    }
  }

  /** Lower-casing distributes over concatenation. */
  lemma {:induction false} ToLowerAppend(a: string, b: string)
    ensures ToLower(a + b) == ToLower(a) + ToLower(b)
    decreases |a|
  {
    if a == [] {
      assert a + b == b;
    } else {
      assert (a + b)[1..] == a[1..] + b;
      ToLowerAppend(a[1..], b);
    }
  }

  /** Words without upper-case letters joined with spaces stay as they are
      under lower-casing. */
  lemma {:induction false} ToLowerOfJoin(words: seq<string>)
    requires forall k :: 0 <= k < |words| ==> NoUpperCase(words[k])
    ensures ToLower(Join(words, " ")) == Join(words, " ")
    decreases |words|
  {
    if |words| == 1 {
      ToLowerOfLowerCase(words[0]);
    } else if |words| > 1 {
      var rest := Join(words[1..], " ");
      ToLowerOfJoin(words[1..]);
      ToLowerOfLowerCase(words[0]);
      ToLowerAppend(words[0] + " ", rest);
      ToLowerAppend(words[0], " ");
    }
  }

  /** `s.split(/\s+/)`, reading `s` with the current word `word` already
      collected: every maximal run of white space separates two words. */
  function SplitFrom(s: string, word: string): seq<string>
    decreases |s|
  {
    if s == [] then [word]
    else if IsWhitespace(s[0]) then [word] + SplitFrom(TrimStart(s[1..]), "")
    else SplitFrom(s[1..], word + [s[0]])
  }

  /** `s.split(/\s+/)`. */
  function SplitWords(s: string): seq<string> {
    SplitFrom(s, "")
  }

  /** `words.join(sep)`. */
  function Join(words: seq<string>, sep: string): string
    decreases |words|
  {
    if words == [] then ""
    else if |words| == 1 then words[0]
    else words[0] + sep + Join(words[1..], sep)
  }

  /** Reading further characters that are not white space only extends
      the current word. */
  lemma {:induction false} SplitFromWord(w: string, rest: string, word: string)
    requires NoWhitespace(w)
    ensures SplitFrom(w + rest, word) == SplitFrom(rest, word + w)
    decreases |w|
  {
    if w == [] {
      assert w + rest == rest;
      assert word + w == word;
    } else {
      assert (w + rest)[0] == w[0];
      assert (w + rest)[1..] == w[1..] + rest;
      assert word + w == (word + [w[0]]) + w[1..];
      SplitFromWord(w[1..], rest, word + [w[0]]);
    }
  }

  /** Reading a string whose last character is not white space, with a
      non-empty word in hand, yields only non-empty words without white
      space. */
  lemma {:induction false} SplitFromWordsTail(s: string, word: string)
    requires (s == [] || !IsWhitespace(s[|s| - 1])) && NoWhitespace(word) && word != []
    ensures forall k :: 0 <= k < |SplitFrom(s, word)| ==>
      SplitFrom(s, word)[k] != [] && NoWhitespace(SplitFrom(s, word)[k])
    decreases |s|
  {
    if s == [] {
    } else if IsWhitespace(s[0]) {
      var t := TrimStart(s);
      TrimStartSpec(s);
      assert t != [] && t[|t| - 1] == s[|s| - 1];
      assert "" + [t[0]] == [t[0]];
      assert SplitFrom(t, "") == SplitFrom(t[1..], [t[0]]);
      assert t[1..] == [] || t[1..][|t[1..]| - 1] == s[|s| - 1];
      SplitFromWordsTail(t[1..], [t[0]]);
    } else {
      var s' := s[1..];
      assert s' == [] || s'[|s'| - 1] == s[|s| - 1];
      SplitFromWordsTail(s', word + [s[0]]);
    }
  }

  /** The words of a trimmed, non-empty string are non-empty and hold no
      white space. */
  lemma SplitWordsClean(s: string)
    requires Trimmed(s) && s != []
    ensures |SplitWords(s)| >= 1
    ensures forall k :: 0 <= k < |SplitWords(s)| ==> SplitWords(s)[k] != [] && NoWhitespace(SplitWords(s)[k])
  {
    assert "" + [s[0]] == [s[0]];
    assert s[1..] == [] || s[1..][|s[1..]| - 1] == s[|s| - 1];
    SplitFromWordsTail(s[1..], [s[0]]);
    SplitFromLength(s, "");
  }

  lemma {:induction false} SplitFromLength(s: string, word: string)
    ensures |SplitFrom(s, word)| >= 1
    decreases |s|
  {
    if s != [] {
      if IsWhitespace(s[0]) {
      } else {
        SplitFromLength(s[1..], word + [s[0]]);
      }
    }
  }

  /** Splitting on white space undoes joining with single spaces, for words
      that are non-empty and hold no white space. */
  lemma {:induction false} SplitJoinRoundTrip(words: seq<string>)
    requires |words| >= 1
    requires forall k :: 0 <= k < |words| ==> words[k] != [] && NoWhitespace(words[k])
    ensures SplitWords(Join(words, " ")) == words
    decreases |words|
  {
    if |words| == 1 {
      SplitFromWord(words[0], "", "");
      assert words[0] + "" == words[0];
      assert "" + words[0] == words[0];
    } else {
      var rest := Join(words[1..], " ");
      JoinStartsWithWord(words[1..]);
      assert Join(words, " ") == words[0] + (" " + rest);
      SplitFromWord(words[0], " " + rest, "");
      assert "" + words[0] == words[0];
      assert (" " + rest)[1..] == rest;
      assert TrimStart(" " + rest) == TrimStart(rest);
      SplitJoinRoundTrip(words[1..]);
      assert SplitFrom(" " + rest, words[0]) == [words[0]] + SplitWords(rest);
      assert words == [words[0]] + words[1..];
    }
  }

  /** `s` with every maximal run of white space replaced by one space. */
  function Collapse(s: string): (r: string)
    ensures |r| <= |s|
    decreases |s|
  {
    if s == [] then []
    else if IsWhitespace(s[0]) then " " + Collapse(TrimStart(s[1..]))
    else [s[0]] + Collapse(s[1..])
  }

  /** Joining what `split` reads, with the word in hand, gives back that word
      followed by the rest with its white space collapsed. */
  lemma {:induction false} SplitFromCollapse(s: string, word: string)
    ensures Join(SplitFrom(s, word), " ") == word + Collapse(s)
    decreases |s|
  {
    if s == [] {
      assert word + [] == word;
    } else if IsWhitespace(s[0]) {
      var t := TrimStart(s[1..]);
      SplitFromLength(t, "");
      SplitFromCollapse(t, "");
      JoinCons(word, SplitFrom(t, ""), "" + Collapse(t));
      assert "" + Collapse(t) == Collapse(t);
      assert Collapse(s) == " " + Collapse(t);
    } else {
      var c := s[0];
      SplitFromCollapse(s[1..], word + [c]);
      assert Collapse(s) == [c] + Collapse(s[1..]);
      assert word + [c] + Collapse(s[1..]) == word + ([c] + Collapse(s[1..]));
    }
  }

  lemma JoinCons(word: string, rest: seq<string>, joined: string)
    requires |rest| >= 1 && Join(rest, " ") == joined
    ensures Join([word] + rest, " ") == word + (" " + joined)
  {
    assert ([word] + rest)[1..] == rest;
  }

  /** The other direction of the round trip: joining the words of any
      string with single spaces gives the string with each run of white
      space collapsed to one space. */
  lemma SplitWordsCollapse(s: string)
    ensures Join(SplitWords(s), " ") == Collapse(s)
  {
    SplitFromCollapse(s, "");
    assert "" + Collapse(s) == Collapse(s);
  }

  lemma {:induction false} JoinStartsWithWord(words: seq<string>)
    requires |words| >= 1 && words[0] != [] && NoWhitespace(words[0])
    ensures Join(words, " ") != [] && !IsWhitespace(Join(words, " ")[0])
  {
    if |words| > 1 {
      assert Join(words, " ")[0] == words[0][0];
    }
  }

  lemma {:induction false} JoinEndsWithWord(words: seq<string>)
    requires |words| >= 1 && words[|words| - 1] != []
    ensures Join(words, " ") != []
    ensures Join(words, " ")[|Join(words, " ")| - 1] == words[|words| - 1][|words[|words| - 1]| - 1]
    decreases |words|
  {
    if |words| > 1 {
      JoinEndsWithWord(words[1..]);
    }
  }

  /** Non-empty words free of white space, joined with single spaces, are
      their own `trim`. */
  lemma JoinIsTrimmed(words: seq<string>)
    requires |words| >= 1
    requires forall k :: 0 <= k < |words| ==> words[k] != [] && NoWhitespace(words[k])
    ensures Trim(Join(words, " ")) == Join(words, " ")
  {
    JoinStartsWithWord(words);
    JoinEndsWithWord(words);
    TrimOfTrimmed(Join(words, " "));
  }

  /** The ASCII digit for `d`. */
  function Digit(d: nat): char
    requires d < 10
  {
    (48 + d) as char
  }

  /** The decimal rendering of a number, as `${n}` produces it. */
  function DecimalString(n: nat): (r: string)
    ensures |r| >= 1 && forall i :: 0 <= i < |r| ==> '0' <= r[i] <= '9'
    ensures (r[0] == '0') == (n == 0)
    decreases n
  {
    if n < 10 then [Digit(n)] else DecimalString(n / 10) + [Digit(n % 10)]
  }

  /** The number a string of decimal digits denotes. */
  function DecimalValue(s: string): nat
    requires forall i :: 0 <= i < |s| ==> '0' <= s[i] <= '9'
    decreases |s|
  {
    if s == [] then 0 else 10 * DecimalValue(s[..|s| - 1]) + (s[|s| - 1] as int - 48)
  }

  /** Reading back a rendered number gives the number. */
  lemma {:induction false} DecimalRoundTrip(n: nat)
    ensures DecimalValue(DecimalString(n)) == n
    decreases n
  {
    var r := DecimalString(n);
    if n >= 10 {
      DecimalRoundTrip(n / 10);
      assert r[..|r| - 1] == DecimalString(n / 10);
    }
  }
}
