/** Python's `str.lower`, `str.split()` and `' '.join` as the song resolver uses them. */
module Text {

  /** `str.isspace()` for one character, as Python defines whitespace for `str.split()`. */
  predicate IsSpace(c: char) {
    c == ' ' || ('\t' <= c <= '\r') || ('\U{1C}' <= c <= '\U{1F}')
    || c == '\U{85}' || c == '\U{A0}' || c == '\U{1680}' || ('\U{2000}' <= c <= '\U{200A}')
    || c == '\U{2028}' || c == '\U{2029}' || c == '\U{202F}' || c == '\U{205F}' || c == '\U{3000}'
  }

  /** A token that `str.split()` can produce: non-empty and free of whitespace. */
  predicate IsWord(w: string) {
    |w| > 0 && forall i :: 0 <= i < |w| ==> !IsSpace(w[i])
  }

  /** Lower-case of one character (ASCII letters only). */
  function LowerChar(c: char): (r: char)
    ensures IsSpace(r) <==> IsSpace(c)
    ensures 'A' <= c <= 'Z' ==> 'a' <= r <= 'z'
  {
    if 'A' <= c <= 'Z' then (c as int + 32) as char else c
  }

  /** `s.lower()`, character by character. */
  function Lower(s: string): (r: string)
    ensures |r| == |s|
    ensures forall i :: 0 <= i < |s| ==> r[i] == LowerChar(s[i])
  {
    seq(|s|, i requires 0 <= i < |s| => LowerChar(s[i]))
  }

  /** Length of the leading run of non-whitespace characters of `s`. */
  function WordLength(s: string): (n: nat)
    ensures n <= |s|
    ensures forall i :: 0 <= i < n ==> !IsSpace(s[i])
    ensures n < |s| ==> IsSpace(s[n])
  {
    if s == [] || IsSpace(s[0]) then 0 else 1 + WordLength(s[1..])
  }

  /** `s.split()` with no separator: the maximal whitespace-free runs, empty tokens dropped. */
  function Split(s: string): (ws: seq<string>)
    ensures forall k :: 0 <= k < |ws| ==> IsWord(ws[k])
    decreases |s|
  {
    if s == [] then []
    else if IsSpace(s[0]) then Split(s[1..])
    else
      var n := WordLength(s);
      [s[..n]] + Split(s[n..])
  }

  /** `' '.join(ws)`: the words in order, one space between neighbours, none around them. */
  function Join(ws: seq<string>): (r: string)
    ensures ws == [] ==> r == ""
    ensures ws != [] ==> |r| >= |ws[0]| && r[..|ws[0]|] == ws[0]
    ensures |ws| > 1 ==> |r| > |ws[0]| && r[|ws[0]|] == ' '
    decreases |ws|
  {
    if ws == [] then "" else if |ws| == 1 then ws[0] else ws[0] + " " + Join(ws[1..])
  }

  lemma {:induction false} WordLengthOfWord(w: string, t: string)
    requires IsWord(w)
    requires t == [] || IsSpace(t[0])
    ensures WordLength(w + t) == |w|
    decreases |w|
  {
    if |w| > 1 {
      WordLengthOfWord(w[1..], t);
      assert (w + t)[1..] == w[1..] + t;
    } else {
      assert (w + t)[1..] == t;
    }
  }

  /** Leading whitespace is dropped: a whitespace character in front does not change the tokens. */
  lemma SplitSpaceFirst(c: char, s: string)
    requires IsSpace(c)
    ensures Split([c] + s) == Split(s)
  {
    assert ([c] + s)[1..] == s;
  }

  /** A word followed by whitespace or by the end of the string is the first token, and the rest is split on its own. */
  lemma SplitWordThenRest(w: string, t: string)
    requires IsWord(w)
    requires t == [] || IsSpace(t[0])
    ensures Split(w + t) == [w] + Split(t)
  {
    var s := w + t;
    WordLengthOfWord(w, t);
    assert s[0] == w[0] && !IsSpace(s[0]);
    assert s[..|w|] == w;
    assert s[|w|..] == t;
  }

  /** Splitting a join of two or more words yields the first word, then the split of the join of the rest. */
  lemma SplitJoinStep(ws: seq<string>)
    requires |ws| > 1 && IsWord(ws[0])
    ensures Split(Join(ws)) == [ws[0]] + Split(Join(ws[1..]))
  {
    var rest := Join(ws[1..]);
    assert Join(ws) == ws[0] + ([' '] + rest);
    SplitWordThenRest(ws[0], [' '] + rest);
    SplitSpaceFirst(' ', rest);
  }

  /** Splitting the space-joined words gives back exactly those words, in order. */
  lemma {:induction false} SplitJoin(ws: seq<string>)
    requires forall k :: 0 <= k < |ws| ==> IsWord(ws[k])
    ensures Split(Join(ws)) == ws
    decreases |ws|
  {
    if |ws| == 1 {
      SplitWordThenRest(ws[0], "");
      assert ws[0] + "" == ws[0];
    } else if |ws| > 1 {
      SplitJoinStep(ws);
      SplitJoin(ws[1..]);
      assert ws == [ws[0]] + ws[1..];
    }
  }
}
