/** The Python `str` operations the pipeline relies on: `split(sep)`, `strip()`,
    `strip(chars)`, `split()` and `sep.join(...)`, with the facts that connect them. */
module PyStrings {

  /** `c.isspace()` in Python: the code points that `str.split()` and `str.strip()`
      with no argument treat as whitespace. */
  predicate IsSpace(c: char) {
    || c == ' '
    || ('\t' <= c <= '\r')
    || ('\U{1C}' <= c <= '\U{1F}')
    || c == '\U{85}' || c == '\U{A0}' || c == '\U{1680}'
    || ('\U{2000}' <= c <= '\U{200A}')
    || c == '\U{2028}' || c == '\U{2029}' || c == '\U{202F}' || c == '\U{205F}' || c == '\U{3000}'
  }

  /** The one character that `strip('"')` removes. */
  predicate IsQuote(c: char) {
    c == '"'
  }

  // ---------------------------------------------------------------------------
  // strip

  /** `s.lstrip(...)`: drops the leading characters that `drop` selects. */
  function TrimStart(s: string, drop: char -> bool): (r: string)
    ensures |r| <= |s|
    ensures r == [] || !drop(r[0])
    ensures r != [] ==> r[|r| - 1] == s[|s| - 1]
  {
    if s != [] && drop(s[0]) then TrimStart(s[1..], drop) else s
  }

  /** `s.rstrip(...)`: drops the trailing characters that `drop` selects. */
  function TrimEnd(s: string, drop: char -> bool): (r: string)
    ensures |r| <= |s|
    ensures r == [] || !drop(r[|r| - 1])
    ensures r != [] ==> r[0] == s[0]
  {
    if s != [] && drop(s[|s| - 1]) then TrimEnd(s[..|s| - 1], drop) else s
  }

  /** `s.strip(...)`: both ends trimmed. */
  function Strip(s: string, drop: char -> bool): (r: string)
    ensures r == [] || (!drop(r[0]) && !drop(r[|r| - 1]))
  {
    TrimEnd(TrimStart(s, drop), drop)
  }

  /** `lstrip` removes a prefix made only of selected characters. */
  lemma {:induction false} TrimStartSuffix(s: string, drop: char -> bool)
    ensures var r := TrimStart(s, drop);
            && r == s[|s| - |r|..]
            && forall k :: 0 <= k < |s| - |r| ==> drop(s[k])
  {
    if s != [] && drop(s[0]) {
      TrimStartSuffix(s[1..], drop);
    }
  }

  /** `rstrip` removes a suffix made only of selected characters. */
  lemma {:induction false} TrimEndPrefix(s: string, drop: char -> bool)
    ensures var r := TrimEnd(s, drop);
            && r == s[..|r|]
            && forall k :: |r| <= k < |s| ==> drop(s[k])
  {
    if s != [] && drop(s[|s| - 1]) {
      TrimEndPrefix(s[..|s| - 1], drop);
    }
  }

  /** What `strip` removes: only selected characters, and only at the two ends. */
  lemma StripInfix(s: string, drop: char -> bool)
    ensures var r, i := Strip(s, drop), |s| - |TrimStart(s, drop)|;
            && i + |r| <= |s| && r == s[i..i + |r|]
            && (forall k :: 0 <= k < i ==> drop(s[k]))
            && (forall k :: i + |r| <= k < |s| ==> drop(s[k]))
  {
    var t := TrimStart(s, drop);
    var i := |s| - |t|;
    var r := TrimEnd(t, drop);
    TrimStartSuffix(s, drop);
    TrimEndPrefix(t, drop);
    assert t == s[i..] && r == t[..|r|];
    assert |r| <= |t| && i + |r| <= |s|;
    forall k | 0 <= k < |r|
      ensures r[k] == s[i + k]
    {
      assert r[k] == t[k] && t[k] == s[i + k];
    }
    assert r == s[i..i + |r|];
    forall k | i + |r| <= k < |s|
      ensures drop(s[k])
    {
      assert s[k] == t[k - i];
    }
  }

  /** Stripping is the identity exactly on strings that already have no selected
      character at either end. */
  lemma StripFixes(s: string, drop: char -> bool)
    ensures Strip(s, drop) == s <==> (s == [] || (!drop(s[0]) && !drop(s[|s| - 1])))
  {
    if s != [] && !drop(s[0]) && !drop(s[|s| - 1]) {
      assert TrimStart(s, drop) == s;
    }
  }

  // ---------------------------------------------------------------------------
  // split(sep) and sep.join(...)

  /** `s.split(sep)` for a one-character separator: the pieces between the separators,
      never an empty list (`"".split("\n") == [""]`). */
  function Split(s: string, sep: char): (parts: seq<string>)
    ensures |parts| >= 1
    ensures forall i :: 0 <= i < |parts| ==> sep !in parts[i]
  {
    if s == [] then [""]
    else
      var rest := Split(s[1..], sep);
      if s[0] == sep then [""] + rest else [[s[0]] + rest[0]] + rest[1..]
  }

  /** `sep.join(parts)`. */
  function Join(parts: seq<string>, sep: string): string {
    if parts == [] then ""
    else if |parts| == 1 then parts[0]
    else parts[0] + sep + Join(parts[1..], sep)
  }

  /** Joining the pieces back with the separator gives the original string. */
  lemma {:induction false} JoinSplit(s: string, sep: char)
    ensures Join(Split(s, sep), [sep]) == s
  {
    if s != [] {
      var rest := Split(s[1..], sep);
      JoinSplit(s[1..], sep);
      if s[0] == sep {
        assert Split(s, sep) == [""] + rest;
        assert ([""] + rest)[1..] == rest;
      } else {
        var parts := [[s[0]] + rest[0]] + rest[1..];
        assert Split(s, sep) == parts;
        if |rest| > 1 {
          assert parts[1..] == rest[1..];
          assert Join(rest, [sep]) == rest[0] + [sep] + Join(rest[1..], [sep]);
        }
      }
    }
  }

  /** Splitting distributes over a separator. */
  lemma {:induction false} SplitAppend(a: string, b: string, sep: char)
    ensures Split(a + [sep] + b, sep) == Split(a, sep) + Split(b, sep)
  {
    if a == [] {
      assert a + [sep] + b == [sep] + b;
      assert ([sep] + b)[1..] == b;
    } else {
      var s := a + [sep] + b;
      assert s[0] == a[0] && s[1..] == a[1..] + [sep] + b;
      SplitAppend(a[1..], b, sep);
    }
  }

  /** A string without the separator is one piece. */
  lemma {:induction false} SplitWithout(s: string, sep: char)
    requires sep !in s
    ensures Split(s, sep) == [s]
  {
    if s != [] {
      SplitWithout(s[1..], sep);
      assert [s[0]] + s[1..] == s;
    }
  }

  /** A first piece without the separator splits off as the first part. */
  lemma SplitFirst(x: string, rest: string, sep: char)
    requires sep !in x
    ensures Split(x + [sep] + rest, sep) == [x] + Split(rest, sep)
  {
    SplitAppend(x, rest, sep);
    SplitWithout(x, sep);
  }

  /** The other round trip: pieces free of the separator come back from splitting their join. */
  lemma {:induction false} SplitJoin(parts: seq<string>, sep: char)
    requires |parts| >= 1
    requires forall i :: 0 <= i < |parts| ==> sep !in parts[i]
    ensures Split(Join(parts, [sep]), sep) == parts
  {
    if |parts| == 1 {
      SplitWithout(parts[0], sep);
    } else {
      SplitJoin(parts[1..], sep);
      SplitAppend(parts[0], Join(parts[1..], [sep]), sep);
      SplitWithout(parts[0], sep);
      assert [parts[0]] + parts[1..] == parts;
    }
  }

  // ---------------------------------------------------------------------------
  // split() and ' '.join(...)

  /** A piece that `split()` can return: non-empty, no whitespace. */
  predicate IsWord(w: string) {
    w != [] && forall k :: 0 <= k < |w| ==> !IsSpace(w[k])
  }

  /** The length of the run of non-whitespace characters that starts `s`. */
  function WordLength(s: string): (n: nat)
    ensures n <= |s|
    ensures forall k :: 0 <= k < n ==> !IsSpace(s[k])
    ensures n < |s| ==> IsSpace(s[n])
  {
    if s == [] || IsSpace(s[0]) then 0 else 1 + WordLength(s[1..])
  }

  /** `s.split()` with no argument: the maximal runs of non-whitespace characters, in order. */
  function Words(s: string): (ws: seq<string>)
    ensures forall i :: 0 <= i < |ws| ==> IsWord(ws[i])
    decreases |s|
  {
    if s == [] then []
    else if IsSpace(s[0]) then Words(s[1..])
    else
      var n := WordLength(s);
      [s[..n]] + Words(s[n..])
  }

  /** `' '.join(s.split())`: whitespace runs collapsed to one space, ends trimmed. The
      result has no leading or trailing whitespace, no whitespace but the plain space,
      and no two spaces in a row. */
  function Collapse(s: string): (c: string)
    ensures Canonical(c)
  {
    JoinCanonical(Words(s));
    Join(Words(s), " ")
  }

  predicate NoLeadingSpace(s: string) {
    s == [] || !IsSpace(s[0])
  }

  predicate NoTrailingSpace(s: string) {
    s == [] || !IsSpace(s[|s| - 1])
  }

  /** The only whitespace character present is the plain space. */
  predicate OnlyPlainSpaces(s: string) {
    forall i :: 0 <= i < |s| && IsSpace(s[i]) ==> s[i] == ' '
  }

  predicate NoDoubleSpace(s: string) {
    forall i :: 0 <= i < |s| - 1 && s[i] == ' ' ==> s[i + 1] != ' '
  }

  /** The shape of a string that `' '.join(text.split())` can produce. */
  predicate Canonical(s: string) {
    NoLeadingSpace(s) && NoTrailingSpace(s) && OnlyPlainSpaces(s) && NoDoubleSpace(s)
  }

  /** The non-whitespace characters of `s`, in order. */
  function NonSpace(s: string): string {
    if s == [] then []
    else (if IsSpace(s[0]) then [] else [s[0]]) + NonSpace(s[1..])
  }

  /** The words glued together with nothing between them. */
  function Concat(ws: seq<string>): string {
    if ws == [] then [] else ws[0] + Concat(ws[1..])
  }

  lemma {:induction false} NonSpaceAppend(a: string, b: string)
    ensures NonSpace(a + b) == NonSpace(a) + NonSpace(b)
  {
    if a != [] {
      assert (a + b)[0] == a[0] && (a + b)[1..] == a[1..] + b;
      NonSpaceAppend(a[1..], b);
    } else {
      assert a + b == b;
    }
  }

  lemma {:induction false} NonSpaceOfWord(w: string)
    requires forall k :: 0 <= k < |w| ==> !IsSpace(w[k])
    ensures NonSpace(w) == w
  {
    if w != [] {
      NonSpaceOfWord(w[1..]);
    }
  }

  /** `split()` loses only whitespace. */
  lemma {:induction false} NonSpaceWords(s: string)
    ensures NonSpace(s) == Concat(Words(s))
    decreases |s|
  {
    if s != [] {
      if IsSpace(s[0]) {
        NonSpaceWords(s[1..]);
      } else {
        var n := WordLength(s);
        assert s == s[..n] + s[n..];
        NonSpaceAppend(s[..n], s[n..]);
        NonSpaceOfWord(s[..n]);
        NonSpaceWords(s[n..]);
        assert ([s[..n]] + Words(s[n..]))[1..] == Words(s[n..]);
      }
    }
  }

  /** Joining words with spaces loses nothing but the spaces. */
  lemma {:induction false} NonSpaceJoin(ws: seq<string>)
    requires forall i :: 0 <= i < |ws| ==> IsWord(ws[i])
    ensures NonSpace(Join(ws, " ")) == Concat(ws)
  {
    if |ws| == 1 {
      NonSpaceOfWord(ws[0]);
      assert Concat(ws) == ws[0] + Concat([]);
    } else if |ws| > 1 {
      NonSpaceJoin(ws[1..]);
      NonSpaceOfWord(ws[0]);
      NonSpaceAppend(ws[0] + " ", Join(ws[1..], " "));
      NonSpaceAppend(ws[0], " ");
      assert NonSpace(" ") == [];
    }
  }

  /** The collapsed text keeps every non-whitespace character of the input, in order. */
  lemma CollapseKeepsText(s: string)
    ensures NonSpace(Collapse(s)) == NonSpace(s)
  {
    NonSpaceWords(s);
    NonSpaceJoin(Words(s));
  }

  /** Words joined with single spaces have the canonical shape. */
  lemma {:induction false} JoinCanonical(ws: seq<string>)
    requires forall i :: 0 <= i < |ws| ==> IsWord(ws[i])
    ensures Canonical(Join(ws, " "))
    ensures ws != [] ==> Join(ws, " ") != [] && Join(ws, " ")[0] == ws[0][0]
  {
    if |ws| > 1 {
      JoinCanonical(ws[1..]);
      var w, t := ws[0], Join(ws[1..], " ");
      var s := w + " " + t;
      assert forall k :: 0 <= k < |w| ==> s[k] == w[k];
      assert s[|w|] == ' ';
      assert forall k :: |w| < k < |s| ==> s[k] == t[k - |w| - 1];
      assert s[|w| + 1] == t[0];
    }
  }

  /** `split()` of a word followed by whitespace or nothing starts with that word. */
  lemma WordsOfWordThen(w: string, t: string)
    requires IsWord(w)
    requires t == [] || IsSpace(t[0])
    ensures Words(w + t) == [w] + Words(t)
  {
    var s := w + t;
    var n := WordLength(s);
    assert forall k :: 0 <= k < |w| ==> s[k] == w[k];
    assert t != [] ==> s[|w|] == t[0];
    assert n == |w|;
    assert s[..n] == w && s[n..] == t;
  }

  /** `split()` recovers the words that `' '.join` glued together. */
  lemma {:induction false} WordsOfJoin(ws: seq<string>)
    requires forall i :: 0 <= i < |ws| ==> IsWord(ws[i])
    ensures Words(Join(ws, " ")) == ws
  {
    if |ws| == 1 {
      WordsOfWordThen(ws[0], "");
      assert ws[0] + "" == ws[0];
    } else if |ws| > 1 {
      var t := Join(ws[1..], " ");
      WordsOfJoin(ws[1..]);
      WordsOfWordThen(ws[0], " " + t);
      assert ws[0] + " " + t == ws[0] + (" " + t);
      assert (" " + t)[1..] == t;
      assert [ws[0]] + ws[1..] == ws;
    }
  }

  /** The first word of `a` is also the first word of `a + t` when that word ends inside
      `a`, or when `t` starts with whitespace. */
  lemma {:induction false} WordLengthAppend(a: string, t: string)
    requires WordLength(a) < |a| || (t != [] && IsSpace(t[0]))
    ensures WordLength(a + t) == WordLength(a)
  {
    if a != [] && !IsSpace(a[0]) {
      WordLengthAppend(a[1..], t);
      assert (a + t)[1..] == a[1..] + t;
    }
  }

  /** A whitespace character separates words: `split()` of `a`, a whitespace character and
      `b` is the words of `a` followed by the words of `b`. With `Words(w) == [w]` for a
      single word (`WordsOfWordThen`), this fixes `split()` on every input. */
  lemma {:induction false} WordsSpace(a: string, c: char, b: string)
    requires IsSpace(c)
    ensures Words(a + [c] + b) == Words(a) + Words(b)
    decreases |a|
  {
    var s := a + [c] + b;
    if a == [] {
      assert s[0] == c && s[1..] == b;
    } else if IsSpace(a[0]) {
      WordsSpace(a[1..], c, b);
      assert s[0] == a[0] && s[1..] == a[1..] + [c] + b;
    } else {
      var n := WordLength(a);
      var t := [c] + b;
      assert s == a + t;
      WordLengthAppend(a, t);
      assert s[0] == a[0] && s[..n] == a[..n];
      assert Words(s) == [a[..n]] + Words(s[n..]);
      assert s[n..] == a[n..] + [c] + b;
      WordsSpace(a[n..], c, b);
      assert Words(a) == [a[..n]] + Words(a[n..]);
    }
  }

  /** Whitespace before a text adds no word. */
  lemma {:induction false} WordsAfterSpaces(p: string, t: string)
    requires forall k :: 0 <= k < |p| ==> IsSpace(p[k])
    ensures Words(p + t) == Words(t)
  {
    if p != [] {
      WordsAfterSpaces(p[1..], t);
      var s := p + t;
      assert s[0] == p[0] && s[1..] == p[1..] + t;
    } else {
      assert p + t == t;
    }
  }

  /** A run of whitespace between two words collapses to one space:
      `' '.join("a\t\tb".split())` is `"a b"`. */
  lemma CollapseSpaceRun(w1: string, ws: string, w2: string)
    requires IsWord(w1) && IsWord(w2)
    requires ws != [] && forall k :: 0 <= k < |ws| ==> IsSpace(ws[k])
    ensures Collapse(w1 + ws + w2) == w1 + " " + w2
  {
    var rest := ws[1..];
    assert w1 + ws + w2 == w1 + [ws[0]] + (rest + w2);
    WordsSpace(w1, ws[0], rest + w2);
    WordsAfterSpaces(rest, w2);
    WordsOfWordThen(w1, "");
    WordsOfWordThen(w2, "");
    assert w1 + "" == w1 && w2 + "" == w2;
    assert Words(w1 + ws + w2) == [w1, w2];
    assert [w1, w2][1..] == [w2];
    assert Join([w1, w2], " ") == w1 + " " + w2;
  }

  /** A single word splits into itself. */
  lemma WordsOfWord(w: string)
    requires IsWord(w)
    ensures Words(w) == [w]
  {
    WordsOfWordThen(w, "");
    assert w + "" == w;
  }

  /** Two tabs between two letters become one space. */
  lemma CollapseTabsExample()
    ensures Collapse("a\t\tb") == "a b"
  {
    CollapseSpaceRun("a", "\t\t", "b");
    assert "a" + "\t\t" + "b" == "a\t\tb";
  }

  /** Collapsing twice is collapsing once. */
  lemma CollapseIdempotent(s: string)
    ensures Collapse(Collapse(s)) == Collapse(s)
  {
    WordsOfJoin(Words(s));
  }

  /** What follows the first word of a canonical string that has a space: one space,
      then a canonical string. */
  lemma CanonicalTail(s: string)
    requires Canonical(s)
    requires WordLength(s) < |s|
    ensures var n := WordLength(s);
            && 0 < n && n + 1 < |s| && s[n] == ' '
            && !IsSpace(s[n + 1]) && Canonical(s[n + 1..])
  {
    var n := WordLength(s);
    assert IsSpace(s[n]) && s[n] == ' ';
    assert n != 0 && n != |s| - 1;
    assert s[n + 1] != ' ';
    var t := s[n + 1..];
    assert forall k :: 0 <= k < |t| ==> t[k] == s[n + 1 + k];
    assert NoLeadingSpace(t) && NoTrailingSpace(t);
    assert OnlyPlainSpaces(t);
    assert NoDoubleSpace(t);
  }

  /** A word, a space and a string that starts with a word collapse word by word. */
  lemma CollapseWordThen(w: string, t: string)
    requires IsWord(w) && t != [] && !IsSpace(t[0])
    ensures Collapse(w + " " + t) == w + " " + Collapse(t)
  {
    assert w + " " + t == w + (" " + t);
    WordsOfWordThen(w, " " + t);
    assert (" " + t)[1..] == t;
    var ws := Words(t);
    assert ws != [];
    assert ([w] + ws)[1..] == ws;
  }

  /** A canonical string collapses to itself. */
  lemma {:induction false} CanonicalCollapses(s: string)
    requires Canonical(s)
    ensures Collapse(s) == s
    decreases |s|
  {
    if s != [] {
      var n := WordLength(s);
      if n == |s| {
        WordsOfWordThen(s, "");
        assert s + "" == s;
      } else {
        CanonicalTail(s);
        var w, t := s[..n], s[n + 1..];
        CanonicalCollapses(t);
        CollapseWordThen(w, t);
        assert s == w + " " + t;
      }
    }
  }

  /** `' '.join(s.split()) == s` exactly when `s` has the canonical shape. */
  lemma CollapseFixes(s: string)
    ensures Collapse(s) == s <==> Canonical(s)
  {
    if Canonical(s) {
      CanonicalCollapses(s);
    }
  }

  /** `s[:n]` in Python, for a non-negative `n`. */
  function Take(s: string, n: nat): (r: string)
    ensures |r| <= n && r <= s
    ensures |s| <= n ==> r == s
    ensures |s| > n ==> |r| == n
  {
    if |s| <= n then s else s[..n]
  }

  /** A prefix of a canonical string keeps every property of the shape but the last:
      the cut can fall just after a space. */
  lemma CanonicalPrefix(s: string, n: nat)
    requires Canonical(s)
    ensures var p := Take(s, n); NoLeadingSpace(p) && OnlyPlainSpaces(p) && NoDoubleSpace(p)
  {
    var p := Take(s, n);
    assert forall i :: 0 <= i < |p| ==> p[i] == s[i];
  }
}
