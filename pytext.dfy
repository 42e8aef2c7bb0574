/**
  Python text behaviour the renderers rely on: ASCII case mapping, Python's
  notion of whitespace, `str.replace`, `str.strip`, `" ".join(s.split())`,
  `re.sub(' +', ' ', s)`, `str.join`, and the Python built-ins whose full
  Unicode semantics lie outside this model (passed in as `Py`).
*/
module PyText {

  datatype Option<+T> = None | Some(value: T)

  /** A name as stored on every diagram element: never empty. */
  type Name = s: string | s != [] witness " "

  /**
    Python built-ins whose definitions are not part of this model:
    `str.isnumeric` on one character, "`int(s, 16)` does not raise", and the
    third-party `stringcase.snakecase`.
  */
  datatype Py = Py(isNumeric: char -> bool, parsesAsHex: string -> bool, snakecase: string -> string)

  predicate IsDigit(c: char) { '0' <= c <= '9' }

  predicate IsHexDigit(c: char) { IsDigit(c) || 'a' <= c <= 'f' || 'A' <= c <= 'F' }

  predicate IsAscii(c: char) { c < 128 as char }

  /** An ASCII character that `int(s, 16)` never accepts anywhere in `s`. */
  predicate NeverInHexLiteral(c: char)
  {
    IsAscii(c) && !IsHexDigit(c) && !IsSpace(c) && c !in "+-_xX"
  }

  /** The little the model assumes of the foreign built-ins. */
  ghost predicate Sound(py: Py)
  {
    && (forall c: char :: IsAscii(c) ==> (py.isNumeric(c) <==> IsDigit(c)))
    && !py.parsesAsHex("")
    && (forall s: string :: AllHexDigits(s) ==> py.parsesAsHex(s))
    && (forall s: string :: HasNonHexChar(s) ==> !py.parsesAsHex(s))
  }

  /** A non-empty run of hexadecimal digits. */
  predicate AllHexDigits(s: string)
  {
    s != [] && forall i :: 0 <= i < |s| ==> IsHexDigit(s[i])
  }

  /** Some character of `s` can never occur in a base-16 literal. */
  predicate HasNonHexChar(s: string)
  {
    exists i :: 0 <= i < |s| && NeverInHexLiteral(s[i])
  }

  /** Python's `str.isspace` on one character. */
  predicate IsSpace(c: char)
  {
    || ('\t' <= c <= '\r') || ('\U{1C}' <= c <= '\U{1F}') || c == ' '
    || c == '\U{85}' || c == '\U{A0}' || c == '\U{1680}' || ('\U{2000}' <= c <= '\U{200A}')
    || c == '\U{2028}' || c == '\U{2029}' || c == '\U{202F}' || c == '\U{205F}' || c == '\U{3000}'
  }

  // ---------------------------------------------------------------- case mapping

  function UpperChar(c: char): (r: char)
    ensures 'a' <= c <= 'z' ==> 'A' <= r <= 'Z'
    ensures !('a' <= c <= 'z') ==> r == c
  {
    if 'a' <= c <= 'z' then (c as int - 32) as char else c
  }

  function LowerChar(c: char): (r: char)
    ensures 'A' <= c <= 'Z' ==> 'a' <= r <= 'z'
    ensures !('A' <= c <= 'Z') ==> r == c
  {
    if 'A' <= c <= 'Z' then (c as int + 32) as char else c
  }

  /** `str.upper` on ASCII letters. */
  function Upper(s: string): (r: string)
    ensures |r| == |s|
    ensures forall i :: 0 <= i < |s| ==> r[i] == UpperChar(s[i])
  {
    seq(|s|, i requires 0 <= i < |s| => UpperChar(s[i]))
  }

  /** `str.lower` on ASCII letters. */
  function Lower(s: string): (r: string)
    ensures |r| == |s|
    ensures forall i :: 0 <= i < |s| ==> r[i] == LowerChar(s[i])
  {
    seq(|s|, i requires 0 <= i < |s| => LowerChar(s[i]))
  }

  // ---------------------------------------------------------------- replace

  /** `s.replace(c, repl)` for a one-character pattern. */
  function ReplaceChar(s: string, c: char, repl: string): (r: string)
    ensures c !in repl ==> c !in r
    ensures c !in s ==> r == s
    ensures |repl| == 1 ==> |r| == |s|
  {
    if s == [] then "" else (if s[0] == c then repl else [s[0]]) + ReplaceChar(s[1..], c, repl)
  }

  /** Replacing one character brings in no character that neither `s` nor the replacement holds. */
  lemma {:induction false} ReplaceCharAddsNothing(s: string, c: char, repl: string, x: char)
    requires x !in s && x !in repl
    ensures x !in ReplaceChar(s, c, repl)
  {
    if s != [] {
      ReplaceCharAddsNothing(s[1..], c, repl, x);
    }
  }

  /** With a one-character replacement, every occurrence of `c` is swapped in place and nothing else moves. */
  lemma {:induction false} ReplaceCharAt(s: string, c: char, d: char)
    ensures var r := ReplaceChar(s, c, [d]);
      |r| == |s| && forall i :: 0 <= i < |s| ==> r[i] == (if s[i] == c then d else s[i])
  {
    if s != [] {
      ReplaceCharAt(s[1..], c, d);
      var r := ReplaceChar(s, c, [d]);
      var rest := ReplaceChar(s[1..], c, [d]);
      assert r == [if s[0] == c then d else s[0]] + rest;
      forall i | 0 <= i < |s| ensures r[i] == (if s[i] == c then d else s[i]) {
        if i > 0 {
          assert r[i] == rest[i - 1] && s[i] == s[1..][i - 1];
        }
      }
    }
  }

  lemma {:induction false} ReplaceCharConcat(a: string, b: string, c: char, repl: string)
    ensures ReplaceChar(a + b, c, repl) == ReplaceChar(a, c, repl) + ReplaceChar(b, c, repl)
  {
    if a == [] {
      assert a + b == b;
    } else {
      var ab := a + b;
      assert ab[0] == a[0] && ab[1..] == a[1..] + b;
      ReplaceCharConcat(a[1..], b, c, repl);
    }
  }

  /** `s.replace(pat, repl)`: every non-overlapping occurrence, left to right. */
  function ReplaceAll(s: string, pat: string, repl: string): string
    requires pat != []
    decreases |s|
  {
    if |s| < |pat| then s
    else if s[..|pat|] == pat then repl + ReplaceAll(s[|pat|..], pat, repl)
    else [s[0]] + ReplaceAll(s[1..], pat, repl)
  }

  /** A string in which the pattern cannot start is left as it is. */
  lemma {:induction false} ReplaceAllAbsent(s: string, pat: string, repl: string)
    requires pat != [] && pat[0] !in s
    ensures ReplaceAll(s, pat, repl) == s
    decreases |s|
  {
    if |s| >= |pat| {
      assert s[..|pat|][0] == s[0];
      ReplaceAllAbsent(s[1..], pat, repl);
      assert [s[0]] + s[1..] == s;
    }
  }

  /** A text starting with the pattern: the replacement, then the rest replaced. */
  lemma ReplaceAllAtStart(pat: string, r: string, repl: string)
    requires pat != []
    ensures ReplaceAll(pat + r, pat, repl) == repl + ReplaceAll(r, pat, repl)
  {
    var s := pat + r;
    assert s[..|pat|] == pat && s[|pat|..] == r;
  }

  /** A text starting with a character that cannot start the pattern keeps that character. */
  lemma ReplaceAllSkip(c: char, t: string, pat: string, repl: string)
    requires pat != [] && c != pat[0]
    ensures ReplaceAll([c] + t, pat, repl) == [c] + ReplaceAll(t, pat, repl)
  {
    var s := [c] + t;
    if |s| >= |pat| {
      assert s[..|pat|][0] == c;
    }
    assert s[1..] == t;
  }

  /** A pattern occurring once, with its first character nowhere else, is replaced once. */
  lemma {:induction false} ReplaceAllOnce(l: string, pat: string, r: string, repl: string)
    requires pat != [] && pat[0] !in l && pat[0] !in r
    ensures ReplaceAll(l + pat + r, pat, repl) == l + repl + r
    decreases |l|
  {
    if l == [] {
      assert l + pat + r == pat + r;
      ReplaceAllAtStart(pat, r, repl);
      ReplaceAllAbsent(r, pat, repl);
    } else {
      var t := l[1..] + pat + r;
      assert l + pat + r == [l[0]] + t;
      ReplaceAllSkip(l[0], t, pat, repl);
      ReplaceAllOnce(l[1..], pat, r, repl);
      assert [l[0]] + (l[1..] + repl + r) == l + repl + r;
    }
  }

  // ---------------------------------------------------------------- str.join

  /** `sep.join(parts)`. */
  function StdJoin(parts: seq<string>, sep: string): string
  {
    if parts == [] then ""
    else if |parts| == 1 then parts[0]
    else parts[0] + sep + StdJoin(parts[1..], sep)
  }

  lemma {:induction false} StdJoinAppend(parts: seq<string>, x: string, sep: string)
    requires parts != []
    ensures StdJoin(parts + [x], sep) == StdJoin(parts, sep) + sep + x
  {
    if |parts| == 1 {
      assert (parts + [x])[1..] == [x];
    } else {
      assert (parts + [x])[1..] == parts[1..] + [x];
      StdJoinAppend(parts[1..], x, sep);
    }
  }

  /** Joining two non-empty lists is joining each and putting one separator between them. */
  /** Two parts joined: the first, the separator, the second. */
  lemma StdJoinPair(x: string, y: string, sep: string)
    ensures StdJoin([x, y], sep) == x + sep + y
  {
    assert [x, y][1..] == [y];
  }

  lemma {:induction false} StdJoinConcat(a: seq<string>, b: seq<string>, sep: string)
    requires a != [] && b != []
    ensures StdJoin(a + b, sep) == StdJoin(a, sep) + sep + StdJoin(b, sep)
  {
    assert (a + b)[0] == a[0];
    if |a| == 1 {
      assert (a + b)[1..] == b;
    } else {
      assert (a + b)[1..] == a[1..] + b;
      StdJoinConcat(a[1..], b, sep);
    }
  }

  /** Every string of `ts` with `p` in front. */
  function Prefixed(p: string, ts: seq<string>): (r: seq<string>)
    ensures |r| == |ts| && forall i :: 0 <= i < |ts| ==> r[i] == p + ts[i]
  {
    seq(|ts|, i requires 0 <= i < |ts| => p + ts[i])
  }

  /**
    Indenting a join: a prefix in front of the whole and after every
    separator puts the prefix in front of every part.
  */
  lemma {:induction false} IndentedJoin(p: string, ts: seq<string>, sep: string)
    requires ts != []
    ensures p + StdJoin(ts, sep + p) == StdJoin(Prefixed(p, ts), sep)
  {
    if |ts| > 1 {
      IndentedJoin(p, ts[1..], sep);
      assert Prefixed(p, ts)[1..] == Prefixed(p, ts[1..]);
      assert p + (ts[0] + (sep + p) + StdJoin(ts[1..], sep + p)) == (p + ts[0]) + sep + (p + StdJoin(ts[1..], sep + p));
    }
  }

  // ---------------------------------------------------------------- str.split(c)

  /** `s.split(c)` for a one-character separator: empty fields are kept. */
  function Split(s: string, c: char): (r: seq<string>)
    ensures r != []
  {
    if s == [] then [""]
    else
      var rest := Split(s[1..], c);
      if s[0] == c then [""] + rest else [[s[0]] + rest[0]] + rest[1..]
  }

  lemma {:induction false} SplitWithout(a: string, c: char)
    requires c !in a
    ensures Split(a, c) == [a]
  {
    if a != [] {
      SplitWithout(a[1..], c);
      assert [a[0]] + a[1..] == a;
    }
  }

  lemma {:induction false} SplitConcat(a: string, c: char, b: string)
    requires c !in a
    ensures Split(a + [c] + b, c) == [a] + Split(b, c)
  {
    if a == [] {
      assert a + [c] + b == [c] + b;
      assert ([c] + b)[1..] == b;
    } else {
      assert (a + [c] + b)[1..] == a[1..] + [c] + b;
      SplitConcat(a[1..], c, b);
      assert [a[0]] + a[1..] == a;
    }
  }

  /** Three parts without the separator, joined by it, split back into the three. */
  lemma SplitThree(a: string, b: string, c: string, sep: char)
    requires sep !in a && sep !in b && sep !in c
    ensures Split(a + [sep] + b + [sep] + c, sep) == [a, b, c]
  {
    SplitWithout(c, sep);
    SplitConcat(b, sep, c);
    assert a + [sep] + b + [sep] + c == a + [sep] + (b + [sep] + c);
    SplitConcat(a, sep, b + [sep] + c);
  }

  /** Splitting a join on a separator that occurs in no part gives the parts back. */
  lemma {:induction false} SplitStdJoin(parts: seq<string>, c: char)
    requires parts != []
    requires forall i :: 0 <= i < |parts| ==> c !in parts[i]
    ensures Split(StdJoin(parts, [c]), c) == parts
  {
    if |parts| == 1 {
      SplitWithout(parts[0], c);
      assert StdJoin(parts, [c]) == parts[0] && [parts[0]] == parts;
    } else {
      var rest := StdJoin(parts[1..], [c]);
      SplitStdJoin(parts[1..], c);
      assert StdJoin(parts, [c]) == parts[0] + [c] + rest;
      SplitConcat(parts[0], c, rest);
      assert [parts[0]] + parts[1..] == parts;
    }
  }

  // ---------------------------------------------------------------- " ".join(s.split())

  /** A non-empty run of non-whitespace characters. */
  predicate IsWord(w: string)
  {
    w != [] && SpaceFree(w)
  }

  predicate SpaceFree(w: string)
  {
    forall i :: 0 <= i < |w| ==> !IsSpace(w[i])
  }

  /** The longest prefix of `s` without whitespace. */
  function Word(s: string): (w: string)
    ensures |w| <= |s| && w == s[..|w|] && SpaceFree(w)
    ensures |w| < |s| ==> IsSpace(s[|w|])
    ensures s != [] && !IsSpace(s[0]) ==> w != []
  {
    if s == [] || IsSpace(s[0]) then "" else [s[0]] + Word(s[1..])
  }

  /** `s.split()`: the maximal runs of non-whitespace characters, in order. */
  function SplitWs(s: string): (r: seq<string>)
    ensures forall i :: 0 <= i < |r| ==> IsWord(r[i])
    decreases |s|
  {
    if s == [] then []
    else if IsSpace(s[0]) then SplitWs(s[1..])
    else var w := Word(s); [w] + SplitWs(s[|w|..])
  }

  /** `" ".join(s.split())`. */
  function Collapse(s: string): string
  {
    StdJoin(SplitWs(s), " ")
  }

  /** The strings that are not empty, in order. */
  function NonEmpty(ws: seq<string>): (r: seq<string>)
    ensures |r| <= |ws|
  {
    if ws == [] then [] else (if ws[0] == [] then [] else [ws[0]]) + NonEmpty(ws[1..])
  }

  function Flatten(ws: seq<string>): string
  {
    if ws == [] then "" else ws[0] + Flatten(ws[1..])
  }

  /** No whitespace other than single spaces between two non-space characters. */
  predicate WellSpaced(r: string)
  {
    forall i :: 0 <= i < |r| && IsSpace(r[i]) ==> r[i] == ' ' && 0 < i < |r| - 1 && !IsSpace(r[i + 1])
  }

  /** `s` without its whitespace characters. */
  function NonSpace(s: string): string
  {
    if s == [] then "" else (if IsSpace(s[0]) then "" else [s[0]]) + NonSpace(s[1..])
  }

  lemma {:induction false} NonSpaceConcat(a: string, b: string)
    ensures NonSpace(a + b) == NonSpace(a) + NonSpace(b)
  {
    if a != [] {
      assert (a + b)[1..] == a[1..] + b;
      NonSpaceConcat(a[1..], b);
    } else {
      assert a + b == b;
    }
  }

  lemma {:induction false} NonSpaceOfSpaceFree(w: string)
    requires SpaceFree(w)
    ensures NonSpace(w) == w
  {
    if w != [] {
      NonSpaceOfSpaceFree(w[1..]);
      assert [w[0]] + w[1..] == w;
    }
  }

  /** The word at the front of `a` is not changed by what follows a whitespace character after `a`. */
  lemma {:induction false} WordBeforeSpace(a: string, c: char, b: string)
    requires IsSpace(c)
    ensures Word(a + [c] + b) == Word(a)
  {
    if a == [] {
      assert (a + [c] + b)[0] == c;
    } else {
      assert (a + [c] + b)[0] == a[0] && (a + [c] + b)[1..] == a[1..] + [c] + b;
      WordBeforeSpace(a[1..], c, b);
    }
  }

  /** Splitting on whitespace distributes over a whitespace character. */
  lemma {:induction false} SplitWsConcat(a: string, c: char, b: string)
    requires IsSpace(c)
    ensures SplitWs(a + [c] + b) == SplitWs(a) + SplitWs(b)
    decreases |a|
  {
    var s := a + [c] + b;
    if a == [] {
      assert s == [c] + b && s[1..] == b;
    } else if IsSpace(a[0]) {
      assert s[0] == a[0] && s[1..] == a[1..] + [c] + b;
      SplitWsConcat(a[1..], c, b);
    } else {
      var w := Word(a);
      assert SplitWs(a) == [w] + SplitWs(a[|w|..]);
      assert SplitWs(s) == [w] + SplitWs(a[|w|..] + [c] + b) by {
        assert s[0] == a[0];
        WordBeforeSpace(a, c, b);
        assert s[|w|..] == a[|w|..] + [c] + b;
      }
      SplitWsConcat(a[|w|..], c, b);
    }
  }

  /** A string without whitespace is one word, or none when it is empty. */
  lemma SplitWsSpaceFree(w: string)
    requires SpaceFree(w)
    ensures SplitWs(w) == if w == [] then [] else [w]
  {
    if w != [] {
      assert Word(w) == w;
      assert w[|w|..] == [];
    }
  }

  /**
    Splitting a join of whitespace-free strings on a whitespace separator
    gives back the strings that are not empty.
  */
  lemma {:induction false} SplitWsOfJoin(ws: seq<string>, c: char)
    requires IsSpace(c)
    requires forall i :: 0 <= i < |ws| ==> SpaceFree(ws[i])
    ensures SplitWs(StdJoin(ws, [c])) == NonEmpty(ws)
  {
    if ws == [] {
    } else if |ws| == 1 {
      SplitWsSpaceFree(ws[0]);
      assert ws[1..] == [];
    } else {
      SplitWsOfJoin(ws[1..], c);
      SplitWsConcat(ws[0], c, StdJoin(ws[1..], [c]));
      SplitWsSpaceFree(ws[0]);
    }
  }

  /** Whitespace removed, a string is the concatenation of its words. */
  lemma {:induction false} NonSpaceIsFlatWords(s: string)
    ensures NonSpace(s) == Flatten(SplitWs(s))
    decreases |s|
  {
    if s != [] {
      if IsSpace(s[0]) {
        NonSpaceIsFlatWords(s[1..]);
      } else {
        var w := Word(s);
        var rest := s[|w|..];
        assert s == w + rest;
        NonSpaceIsFlatWords(rest);
        NonSpaceConcat(w, rest);
        NonSpaceOfSpaceFree(w);
      }
    }
  }

  /** A word, a space and a well-spaced text starting with a non-space character are well spaced. */
  lemma WellSpacedAfterWord(w: string, rest: string)
    requires IsWord(w) && WellSpaced(rest) && rest != [] && !IsSpace(rest[0])
    ensures WellSpaced(w + " " + rest)
  {
    var r := w + " " + rest;
    forall i | 0 <= i < |r| && IsSpace(r[i])
      ensures r[i] == ' ' && 0 < i < |r| - 1 && !IsSpace(r[i + 1])
    {
      if i > |w| {
        assert r[i] == rest[i - |w| - 1];
        if i + 1 < |r| {
          assert r[i + 1] == rest[i - |w|];
        }
      } else if i == |w| {
        assert r[i + 1] == rest[0];
      }
    }
  }

  /** Dropping the whitespace of a word, a space and more keeps the word. */
  lemma NonSpaceAfterWord(w: string, rest: string)
    requires SpaceFree(w)
    ensures NonSpace(w + " " + rest) == w + NonSpace(rest)
  {
    var a := w + " ";
    NonSpaceConcat(w, " ");
    NonSpaceOfSpaceFree(w);
    assert NonSpace(" ") == "";
    assert NonSpace(a) == w;
    NonSpaceConcat(a, rest);
  }

  /** Words joined by single spaces are well spaced, start with the first word and lose nothing but the spaces. */
  lemma {:induction false} JoinWordsShape(ws: seq<string>)
    requires forall i :: 0 <= i < |ws| ==> IsWord(ws[i])
    ensures var r := StdJoin(ws, " ");
      && WellSpaced(r)
      && (ws != [] ==> |ws[0]| <= |r| && r[..|ws[0]|] == ws[0])
      && NonSpace(r) == Flatten(ws)
  {
    if ws == [] {
    } else if |ws| == 1 {
      NonSpaceOfSpaceFree(ws[0]);
      assert ws[1..] == [];
    } else {
      var w, rest := ws[0], StdJoin(ws[1..], " ");
      JoinWordsShape(ws[1..]);
      var r := w + " " + rest;
      assert r == StdJoin(ws, " ");
      assert rest[..|ws[1]|] == ws[1];
      WellSpacedAfterWord(w, rest);
      assert r[..|w|] == w;
      NonSpaceAfterWord(w, rest);
      assert Flatten(ws) == w + Flatten(ws[1..]);
    }
  }

  /** `" ".join(s.split())` leaves single spaces between the words and keeps every other character in order. */
  lemma CollapseShape(s: string)
    ensures WellSpaced(Collapse(s))
    ensures NonSpace(Collapse(s)) == NonSpace(s)
  {
    JoinWordsShape(SplitWs(s));
    NonSpaceIsFlatWords(s);
  }

  /**
    Collapsing a join of whitespace-free strings on a whitespace separator
    joins the strings that are not empty with single spaces.
  */
  lemma CollapseOfJoin(ws: seq<string>, c: char)
    requires IsSpace(c)
    requires forall i :: 0 <= i < |ws| ==> SpaceFree(ws[i])
    ensures Collapse(StdJoin(ws, [c])) == StdJoin(NonEmpty(ws), " ")
  {
    SplitWsOfJoin(ws, c);
  }

  // ---------------------------------------------------------------- strip

  function StripLeft(s: string): (r: string)
    ensures |r| <= |s| && r == s[|s| - |r|..]
    ensures r == [] || !IsSpace(r[0])
  {
    if s == [] || !IsSpace(s[0]) then s else StripLeft(s[1..])
  }

  function StripRight(s: string): (r: string)
    ensures |r| <= |s| && r == s[..|r|]
    ensures r == [] || !IsSpace(r[|r| - 1])
  {
    if s == [] || !IsSpace(s[|s| - 1]) then s else StripRight(s[..|s| - 1])
  }

  /** `str.strip()`. */
  function Strip(s: string): string
  {
    StripRight(StripLeft(s))
  }

  lemma StripKeepsTrimmed(s: string)
    requires s == [] || (!IsSpace(s[0]) && !IsSpace(s[|s| - 1]))
    ensures Strip(s) == s
  {
  }

  /** A collapsed string has nothing left to strip. */
  lemma StripAfterCollapse(s: string)
    ensures Strip(Collapse(s)) == Collapse(s)
  {
    CollapseShape(s);
    StripKeepsTrimmed(Collapse(s));
  }

  // ---------------------------------------------------------------- re.sub(' +', ' ', s)

  /** `re.sub(' +', ' ', s)`: every run of ASCII spaces becomes one space. */
  function Squeeze(s: string): string
  {
    if s == [] then ""
    else if s[0] == ' ' && |s| > 1 && s[1] == ' ' then Squeeze(s[1..])
    else [s[0]] + Squeeze(s[1..])
  }

  /** A run of spaces never crosses a boundary after a non-space, so squeezing splits there. */
  lemma {:induction false} SqueezeConcat(x: string, y: string)
    requires x != [] && x[|x| - 1] != ' '
    ensures Squeeze(x + y) == Squeeze(x) + Squeeze(y)
  {
    var xy := x + y;
    assert xy[0] == x[0] && xy[1..] == x[1..] + y;
    if |x| == 1 {
      assert Squeeze(x) == [x[0]] + Squeeze([]);
      assert x[1..] + y == y;
    } else {
      assert xy[1] == x[1];
      SqueezeConcat(x[1..], y);
    }
  }

  /** A string without two spaces in a row is left as it is. */
  lemma {:induction false} SqueezeNoRuns(s: string)
    requires forall i :: 0 <= i < |s| - 1 ==> !(s[i] == ' ' && s[i + 1] == ' ')
    ensures Squeeze(s) == s
  {
    if s != [] {
      SqueezeNoRuns(s[1..]);
      assert [s[0]] + s[1..] == s;
    }
  }

  /** `s` without its ASCII spaces. */
  function NoBlanks(s: string): string
  {
    if s == [] then "" else (if s[0] == ' ' then "" else [s[0]]) + NoBlanks(s[1..])
  }

  /** No two ASCII spaces in a row. */
  predicate SingleSpaced(r: string)
  {
    forall i :: 0 <= i < |r| - 1 && r[i] == ' ' ==> r[i + 1] != ' '
  }

  lemma {:induction false} SqueezeShape(s: string)
    ensures var r := Squeeze(s);
      && SingleSpaced(r)
      && NoBlanks(r) == NoBlanks(s)
      && (s != [] ==> r != [] && r[0] == s[0] && r[|r| - 1] == s[|s| - 1])
  {
    if s != [] {
      SqueezeShape(s[1..]);
      if !(s[0] == ' ' && |s| > 1 && s[1] == ' ') {
        var rest := Squeeze(s[1..]);
        var r := [s[0]] + rest;
        forall i | 0 <= i < |r| - 1 && r[i] == ' '
          ensures r[i + 1] != ' '
        {
          if i > 0 {
            assert r[i] == rest[i - 1] && r[i + 1] == rest[i];
          } else {
            assert s[1] == rest[0];
          }
        }
      }
    }
  }
}
