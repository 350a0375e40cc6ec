/** Strings as the text pipeline sees them: whitespace, stripping, joining, splitting on a
    character and splitting after a punctuation mark (the two sentence and clause expressions).

    Whitespace is a parameter: any finite set of characters that holds the blank and none of the
    punctuation marks the pipeline splits at. */
module Text {
  const SENTENCE_ENDS: set<char> := {'.', '!', '?'}
  const CLAUSE_ENDS: set<char> := {';', ':', ',', '\U{2014}', '\U{2013}', '-'}

  type Spaces = set<char>

  /** A stretch of a script and the pause after it. */
  datatype Segment = Segment(text: string, pause: int)

  lemma AppendAssoc<T>(a: seq<T>, b: seq<T>, c: seq<T>)
    ensures a + b + c == a + (b + c)
  {
  }

  lemma CutTwice<T>(s: seq<T>, i: nat, j: nat)
    requires i <= j <= |s|
    ensures s == s[..i] + s[i..j] + s[j..]
  {
  }

  /** The characters of `s` that are not whitespace, in order. */
  function Visible(ws: Spaces, s: string): (v: string)
    ensures |v| <= |s|
  {
    if s == "" then "" else (if s[0] in ws then "" else [s[0]]) + Visible(ws, s[1..])
  }

  function Concat(parts: seq<string>): string {
    if parts == [] then "" else parts[0] + Concat(parts[1..])
  }

  function Join(sep: string, parts: seq<string>): string {
    if parts == [] then ""
    else if |parts| == 1 then parts[0]
    else parts[0] + sep + Join(sep, parts[1..])
  }

  function Flatten<T>(parts: seq<seq<T>>): seq<T> {
    if parts == [] then [] else parts[0] + Flatten(parts[1..])
  }

  /** Each part joined by blanks. */
  function JoinEach(parts: seq<seq<string>>): seq<string> {
    if parts == [] then [] else [Join(" ", parts[0])] + JoinEach(parts[1..])
  }

  lemma JoinHead(sep: string, first: string, rest: seq<string>)
    ensures Join(sep, [first] + rest) == if rest == [] then first else first + sep + Join(sep, rest)
  {
    assert ([first] + rest)[1..] == rest;
  }

  lemma {:induction false} JoinLast(sep: string, parts: seq<string>, last: string)
    requires parts != []
    ensures Join(sep, parts + [last]) == Join(sep, parts) + sep + last
  {
    if |parts| > 1 {
      JoinLast(sep, parts[1..], last);
      assert (parts + [last])[1..] == parts[1..] + [last];
      var rest := Join(sep, parts[1..]);
      assert parts[0] + sep + (rest + sep + last) == parts[0] + sep + rest + sep + last;
    } else {
      assert (parts + [last])[1..] == [last];
    }
  }

  lemma {:induction false} FlattenLast<T>(parts: seq<seq<T>>, last: seq<T>)
    ensures Flatten(parts + [last]) == Flatten(parts) + last
  {
    if parts == [] {
      assert [last][1..] == [] && parts + [last] == [last];
    } else {
      FlattenLast(parts[1..], last);
      assert (parts + [last])[1..] == parts[1..] + [last];
      AppendAssoc(parts[0], Flatten(parts[1..]), last);
    }
  }

  lemma {:induction false} VisibleConcat(ws: Spaces, a: string, b: string)
    ensures Visible(ws, a + b) == Visible(ws, a) + Visible(ws, b)
  {
    if a == "" {
      assert a + b == b;
    } else {
      VisibleConcat(ws, a[1..], b);
      assert (a + b)[1..] == a[1..] + b;
      AppendAssoc(if a[0] in ws then "" else [a[0]], Visible(ws, a[1..]), Visible(ws, b));
    }
  }

  lemma {:induction false} ConcatAppend(a: seq<string>, b: seq<string>)
    ensures Concat(a + b) == Concat(a) + Concat(b)
  {
    if a == [] {
      assert a + b == b;
    } else {
      ConcatAppend(a[1..], b);
      assert (a + b)[1..] == a[1..] + b;
      AppendAssoc(a[0], Concat(a[1..]), Concat(b));
    }
  }

  /** The visible characters of a list of strings, read in order. */
  function VisibleAll(ws: Spaces, parts: seq<string>): string {
    if parts == [] then "" else Visible(ws, parts[0]) + VisibleAll(ws, parts[1..])
  }

  lemma {:induction false} VisibleAllAppend(ws: Spaces, a: seq<string>, b: seq<string>)
    ensures VisibleAll(ws, a + b) == VisibleAll(ws, a) + VisibleAll(ws, b)
  {
    if a == [] {
      assert a + b == b;
    } else {
      VisibleAllAppend(ws, a[1..], b);
      assert (a + b)[1..] == a[1..] + b;
      AppendAssoc(Visible(ws, a[0]), VisibleAll(ws, a[1..]), VisibleAll(ws, b));
    }
  }

  lemma {:induction false} VisibleAllCons(ws: Spaces, first: string, rest: seq<string>)
    ensures VisibleAll(ws, [first] + rest) == Visible(ws, first) + VisibleAll(ws, rest)
  {
    assert ([first] + rest)[1..] == rest;
  }

  lemma {:induction false} LastVisible(ws: Spaces, words: seq<string>)
    requires words != []
    ensures VisibleAll(ws, words) == VisibleAll(ws, words[..|words| - 1]) + Visible(ws, words[|words| - 1])
  {
    var before, word := words[..|words| - 1], words[|words| - 1];
    assert words == before + [word];
    VisibleAllAppend(ws, before, [word]);
    assert VisibleAll(ws, [word]) == Visible(ws, word) + VisibleAll(ws, [word][1..]);
  }

  lemma {:induction false} VisibleAllIsConcat(ws: Spaces, parts: seq<string>)
    ensures VisibleAll(ws, parts) == Visible(ws, Concat(parts))
  {
    if parts != [] {
      VisibleConcat(ws, parts[0], Concat(parts[1..]));
      VisibleAllIsConcat(ws, parts[1..]);
    }
  }

  predicate Blank(ws: Spaces, s: string) {
    forall c | c in s :: c in ws
  }

  lemma {:induction false} BlankIsInvisible(ws: Spaces, s: string)
    ensures Blank(ws, s) <==> Visible(ws, s) == ""
  {
    if s != "" {
      BlankIsInvisible(ws, s[1..]);
      assert s == [s[0]] + s[1..];
    }
  }

  /** A blank stretch between two strings shows nothing. */
  lemma {:induction false} VisibleBetween(ws: Spaces, a: string, b: string, c: string)
    requires Blank(ws, b)
    ensures Visible(ws, a + b + c) == Visible(ws, a) + Visible(ws, c)
  {
    VisibleConcat(ws, a + b, c);
    VisibleBlankTail(ws, a, b);
  }

  lemma {:induction false} VisibleBlankTail(ws: Spaces, a: string, b: string)
    requires Blank(ws, b)
    ensures Visible(ws, a + b) == Visible(ws, a)
  {
    VisibleConcat(ws, a, b);
    BlankIsInvisible(ws, b);
  }

  lemma {:induction false} VisibleJoin(ws: Spaces, sep: string, parts: seq<string>)
    requires Blank(ws, sep)
    ensures Visible(ws, Join(sep, parts)) == VisibleAll(ws, parts)
  {
    if |parts| > 1 {
      VisibleBetween(ws, parts[0], sep, Join(sep, parts[1..]));
      VisibleJoin(ws, sep, parts[1..]);
    } else if |parts| == 1 {
      assert VisibleAll(ws, parts[1..]) == "";
    }
  }

  // --- stripping -------------------------------------------------------------

  predicate Trimmed(ws: Spaces, s: string) {
    s != "" ==> s[0] !in ws && s[|s| - 1] !in ws
  }

  function StripLeft(ws: Spaces, s: string): (r: string)
    ensures |r| <= |s| && r == s[|s| - |r|..]
    ensures r != "" ==> r[0] !in ws
  {
    if s != "" && s[0] in ws then StripLeft(ws, s[1..]) else s
  }

  function StripRight(ws: Spaces, s: string): (r: string)
    ensures |r| <= |s| && r == s[..|r|]
    ensures r != "" ==> r[|r| - 1] !in ws
  {
    if s != "" && s[|s| - 1] in ws then StripRight(ws, s[..|s| - 1]) else s
  }

  /** Python's `str.strip()`. */
  function Strip(ws: Spaces, s: string): (r: string)
    ensures Trimmed(ws, r) && |r| <= |s|
  {
    StripRight(ws, StripLeft(ws, s))
  }

  lemma {:induction false} VisibleStripLeft(ws: Spaces, s: string)
    ensures Visible(ws, StripLeft(ws, s)) == Visible(ws, s)
  {
    if s != "" && s[0] in ws {
      VisibleStripLeft(ws, s[1..]);
    }
  }

  lemma {:induction false} VisibleStripRight(ws: Spaces, s: string)
    ensures Visible(ws, StripRight(ws, s)) == Visible(ws, s)
  {
    if s != "" && s[|s| - 1] in ws {
      var front, last := s[..|s| - 1], [s[|s| - 1]];
      VisibleStripRight(ws, front);
      VisibleBlankTail(ws, front, last);
      assert s == front + last;
    }
  }

  lemma {:induction false} VisibleStrip(ws: Spaces, s: string)
    ensures Visible(ws, Strip(ws, s)) == Visible(ws, s)
  {
    VisibleStripLeft(ws, s);
    VisibleStripRight(ws, StripLeft(ws, s));
  }

  lemma {:induction false} StripBlank(ws: Spaces, s: string)
    ensures Strip(ws, s) == "" <==> Blank(ws, s)
    ensures Strip(ws, s) == "" <==> Visible(ws, s) == ""
  {
    BlankIsInvisible(ws, s);
    VisibleStrip(ws, s);
    var t := Strip(ws, s);
    BlankIsInvisible(ws, t);
    if t != "" {
      assert t[0] in t;
    }
  }

  lemma {:induction false} StripLeftTail(ws: Spaces, a: string, b: string)
    requires Blank(ws, b)
    ensures StripLeft(ws, a + b) == if StripLeft(ws, a) == "" then "" else StripLeft(ws, a) + b
  {
    if a != "" {
      assert (a + b)[1..] == a[1..] + b;
      StripLeftTail(ws, a[1..], b);
    } else {
      assert a + b == b;
      if b != "" {
        assert b[0] in b;
        StripLeftTail(ws, "", b[1..]);
        assert "" + b[1..] == b[1..];
      }
    }
  }

  lemma {:induction false} StripRightTail(ws: Spaces, a: string, b: string)
    requires Blank(ws, b)
    ensures StripRight(ws, a + b) == StripRight(ws, a)
  {
    if b == "" {
      assert a + b == a;
    } else {
      var front := b[..|b| - 1];
      assert b[|b| - 1] in b;
      assert (a + b)[..|a + b| - 1] == a + front;
      StripRightTail(ws, a, front);
    }
  }

  /** Blank characters at the right end do not count. */
  lemma {:induction false} StripBlankTail(ws: Spaces, a: string, b: string)
    requires Blank(ws, b)
    ensures Strip(ws, a + b) == Strip(ws, a)
  {
    StripLeftTail(ws, a, b);
    StripRightTail(ws, StripLeft(ws, a), b);
  }

  lemma {:induction false} StripTrimmed(ws: Spaces, s: string)
    requires Trimmed(ws, s)
    ensures Strip(ws, s) == s
  {
  }

  /** The whitespace a text starts with, and that it ends with. */
  function Lead(ws: Spaces, s: string): string {
    if s != "" && s[0] in ws then [s[0]] + Lead(ws, s[1..]) else ""
  }

  function Trail(ws: Spaces, s: string): string {
    if s != "" && s[|s| - 1] in ws then Trail(ws, s[..|s| - 1]) + [s[|s| - 1]] else ""
  }

  predicate StartsVisible(ws: Spaces, s: string) {
    s != "" && s[0] !in ws
  }

  predicate EndsVisible(ws: Spaces, s: string) {
    s != "" && s[|s| - 1] !in ws
  }

  lemma {:induction false} LeadIs(ws: Spaces, s: string)
    ensures Blank(ws, Lead(ws, s)) && Lead(ws, s) + StripLeft(ws, s) == s
    ensures !Blank(ws, s) ==> StartsVisible(ws, StripLeft(ws, s))
  {
    if s != "" && s[0] in ws {
      var rest := s[1..];
      LeadIs(ws, rest);
      AppendAssoc([s[0]], Lead(ws, rest), StripLeft(ws, rest));
      assert [s[0]] + rest == s;
    }
  }

  lemma {:induction false} TrailIs(ws: Spaces, s: string)
    ensures Blank(ws, Trail(ws, s)) && StripRight(ws, s) + Trail(ws, s) == s
    ensures !Blank(ws, s) ==> EndsVisible(ws, StripRight(ws, s))
  {
    if s != "" && s[|s| - 1] in ws {
      var front, last := s[..|s| - 1], [s[|s| - 1]];
      TrailIs(ws, front);
      AppendAssoc(StripRight(ws, front), Trail(ws, front), last);
      assert front + last == s;
    }
  }

  lemma LeadStep(ws: Spaces, c: char, s: string)
    requires c in ws
    ensures StripLeft(ws, [c] + s) == StripLeft(ws, s) && Lead(ws, [c] + s) == [c] + Lead(ws, s)
  {
    assert ([c] + s)[1..] == s;
  }

  lemma TrailStep(ws: Spaces, s: string, c: char)
    requires c in ws
    ensures StripRight(ws, s + [c]) == StripRight(ws, s) && Trail(ws, s + [c]) == Trail(ws, s) + [c]
  {
    assert (s + [c])[..|s|] == s;
  }

  lemma NothingToStrip(ws: Spaces, x: string)
    ensures x == "" || StartsVisible(ws, x) ==> StripLeft(ws, x) == x && Lead(ws, x) == ""
    ensures x == "" || EndsVisible(ws, x) ==> StripRight(ws, x) == x && Trail(ws, x) == ""
  {
  }

  lemma {:induction false} LeadUnique(ws: Spaces, w: string, x: string)
    requires Blank(ws, w) && (x == "" || StartsVisible(ws, x))
    ensures StripLeft(ws, w + x) == x && Lead(ws, w + x) == w
  {
    hide Blank, StripLeft, Lead, StartsVisible;
    if w == "" {
      assert w + x == x;
      NothingToStrip(ws, x);
    } else {
      var c, rest := w[0], w[1..];
      assert w == [c] + rest;
      BlankEnds(ws, w);
      LeadUnique(ws, rest, x);
      LeadLonger(ws, c, rest, x);
    }
  }

  lemma LeadLonger(ws: Spaces, c: char, w: string, x: string)
    requires c in ws && StripLeft(ws, w + x) == x && Lead(ws, w + x) == w
    ensures StripLeft(ws, [c] + w + x) == x && Lead(ws, [c] + w + x) == [c] + w
  {
    hide StripLeft, Lead;
    AppendAssoc([c], w, x);
    LeadStep(ws, c, w + x);
  }

  lemma TrailLonger(ws: Spaces, x: string, w: string, c: char)
    requires c in ws && StripRight(ws, x + w) == x && Trail(ws, x + w) == w
    ensures StripRight(ws, x + (w + [c])) == x && Trail(ws, x + (w + [c])) == w + [c]
  {
    hide StripRight, Trail;
    AppendAssoc(x, w, [c]);
    TrailStep(ws, x + w, c);
  }

  lemma {:induction false} TrailUnique(ws: Spaces, x: string, w: string)
    requires Blank(ws, w) && (x == "" || EndsVisible(ws, x))
    ensures StripRight(ws, x + w) == x && Trail(ws, x + w) == w
  {
    hide Blank, StripRight, Trail, EndsVisible;
    if w == "" {
      assert x + w == x;
      NothingToStrip(ws, x);
    } else {
      var front, last := w[..|w| - 1], w[|w| - 1];
      assert w == front + [last];
      BlankEnds(ws, w);
      TrailUnique(ws, x, front);
      TrailLonger(ws, x, front, last);
    }
  }

  lemma BlankEnds(ws: Spaces, w: string)
    requires Blank(ws, w) && w != ""
    ensures w[0] in ws && Blank(ws, w[1..]) && w[|w| - 1] in ws && Blank(ws, w[..|w| - 1])
  {
    assert w[0] in w && w[|w| - 1] in w;
  }

  lemma {:induction false} StripLeftSum(ws: Spaces, a: string, b: string)
    requires !Blank(ws, a)
    ensures StripLeft(ws, a + b) == StripLeft(ws, a) + b && Lead(ws, a + b) == Lead(ws, a)
  {
    hide StripLeft, Lead;
    var w, x := Lead(ws, a), StripLeft(ws, a);
    LeadIs(ws, a);
    AppendAssoc(w, x, b);
    LeadUnique(ws, w, x + b);
  }

  lemma {:induction false} StripRightSum(ws: Spaces, a: string, b: string)
    requires !Blank(ws, b)
    ensures StripRight(ws, a + b) == a + StripRight(ws, b) && Trail(ws, a + b) == Trail(ws, b)
  {
    hide StripRight, Trail;
    var x, w := StripRight(ws, b), Trail(ws, b);
    TrailIs(ws, b);
    AppendAssoc(a, x, w);
    TrailUnique(ws, a + x, w);
  }

  lemma BlankSum(ws: Spaces, a: string, b: string)
    ensures Blank(ws, a + b) <==> Blank(ws, a) && Blank(ws, b)
  {
    assert forall c | c in a :: c in a + b;
    assert forall c | c in b :: c in a + b;
  }

  /** What a text that is not blank is made of. */
  lemma {:induction false} StripParts(ws: Spaces, s: string)
    requires !Blank(ws, s)
    ensures s == Lead(ws, s) + Strip(ws, s) + Trail(ws, s)
    ensures StartsVisible(ws, Strip(ws, s)) && EndsVisible(ws, Strip(ws, s))
    ensures StripRight(ws, s) == Lead(ws, s) + Strip(ws, s) && StripLeft(ws, s) == Strip(ws, s) + Trail(ws, s)
  {
    hide StripLeft, StripRight, Lead, Trail;
    var l := StripLeft(ws, s);
    LeadIs(ws, s);
    BlankSum(ws, Lead(ws, s), l);
    TrailIs(ws, l);
    StripRightSum(ws, Lead(ws, s), l);
    assert Strip(ws, s) == StripRight(ws, l);
    StartKept(ws, Strip(ws, s), Trail(ws, l));
    AppendAssoc(Lead(ws, s), Strip(ws, s), Trail(ws, l));
  }

  lemma StartKept(ws: Spaces, x: string, w: string)
    requires x != "" && StartsVisible(ws, x + w)
    ensures StartsVisible(ws, x)
  {
    assert (x + w)[0] == x[0];
  }

  /** Stripping two texts side by side, neither of them blank. */
  lemma {:induction false} StripSum(ws: Spaces, a: string, b: string)
    requires !Blank(ws, a) && !Blank(ws, b)
    ensures Strip(ws, a + b) == Strip(ws, a) + (Trail(ws, a) + Lead(ws, b)) + Strip(ws, b)
  {
    hide Strip, StripLeft, StripRight, Lead, Trail, Blank;
    StripParts(ws, a);
    StripParts(ws, b);
    StripLeftSum(ws, a, b);
    StripRightSum(ws, StripLeft(ws, a), b);
    StripIs(ws, a + b);
    Regroup(Strip(ws, a), Trail(ws, a), Lead(ws, b), Strip(ws, b));
  }

  lemma StripIs(ws: Spaces, s: string)
    ensures Strip(ws, s) == StripRight(ws, StripLeft(ws, s))
  {
  }

  lemma Regroup(a: string, b: string, c: string, d: string)
    ensures a + b + (c + d) == a + (b + c) + d
  {
  }

  lemma {:induction false} StripBlankHead(ws: Spaces, w: string, s: string)
    requires Blank(ws, w)
    ensures Strip(ws, w + s) == Strip(ws, s) && StripLeft(ws, w + s) == StripLeft(ws, s)
  {
    hide StripLeft, StripRight, Strip, Lead, Blank;
    LeadIs(ws, s);
    BlankSum(ws, w, Lead(ws, s));
    AppendAssoc(w, Lead(ws, s), StripLeft(ws, s));
    LeadUnique(ws, w + Lead(ws, s), StripLeft(ws, s));
    StripIs(ws, s);
    StripIs(ws, w + s);
  }

  function NonBlank(ws: Spaces, chunks: seq<string>): seq<string> {
    if chunks == [] then []
    else (if Strip(ws, chunks[0]) == "" then [] else [chunks[0]]) + NonBlank(ws, chunks[1..])
  }

  /** Whitespace is single blanks. */
  predicate Folded(ws: Spaces, s: string) {
    forall i | 0 <= i < |s| && s[i] in ws :: s[i] == ' ' && (i + 1 < |s| ==> s[i + 1] !in ws)
  }

  // --- splitting on a character ----------------------------------------------

  /** Python's `text.split(c)` for a single character. */
  function Split(c: char, s: string): (parts: seq<string>)
    ensures parts != []
  {
    if s == "" then [""]
    else
      var rest := Split(c, s[1..]);
      if s[0] == c then [""] + rest else [[s[0]] + rest[0]] + rest[1..]
  }

  lemma {:induction false} JoinSplit(c: char, s: string)
    ensures Join([c], Split(c, s)) == s
  {
    if s != "" {
      JoinSplit(c, s[1..]);
      var rest := Split(c, s[1..]);
      if s[0] == c {
        assert ([""] + rest)[1..] == rest;
        assert s == [c] + s[1..];
      } else {
        assert ([[s[0]] + rest[0]] + rest[1..])[1..] == rest[1..];
        assert s == [s[0]] + s[1..];
      }
    }
  }

  /** The words of a split hold no separator. */
  lemma {:induction false} SplitFree(c: char, s: string)
    ensures forall w | w in Split(c, s) :: c !in w
  {
    if s != "" {
      SplitFree(c, s[1..]);
      var rest := Split(c, s[1..]);
      assert rest[0] in rest && forall w | w in rest[1..] :: w in rest;
    }
  }

  /** Splitting undoes joining when no word holds the separator. */
  lemma {:induction false} SplitJoin(c: char, words: seq<string>)
    requires words != [] && forall w | w in words :: c !in w
    ensures Split(c, Join([c], words)) == words
  {
    var w := words[0];
    assert w in words;
    if |words| == 1 {
      SplitWord(c, w, "");
      assert w + "" == w;
    } else {
      SplitJoin(c, words[1..]);
      var rest := Join([c], words[1..]);
      var tail := [c] + rest;
      SplitWord(c, w, tail);
      assert w + [c] + rest == w + tail;
      assert tail[1..] == rest;
      assert Split(c, tail) == [""] + words[1..];
      assert w + "" == w;
    }
  }

  lemma {:induction false} SplitWord(c: char, w: string, t: string)
    requires c !in w
    ensures Split(c, w + t) == [w + Split(c, t)[0]] + Split(c, t)[1..]
  {
    var rest := Split(c, t);
    if w == "" {
      assert w + t == t && w + rest[0] == rest[0];
    } else {
      assert w[0] in w;
      SplitWord(c, w[1..], t);
      assert (w + t)[1..] == w[1..] + t;
      AppendAssoc([w[0]], w[1..], rest[0]);
      assert [w[0]] + w[1..] == w;
    }
  }

  lemma {:induction false} SplitVisible(ws: Spaces, c: char, s: string)
    requires c in ws
    ensures VisibleAll(ws, Split(c, s)) == Visible(ws, s)
  {
    JoinSplit(c, s);
    VisibleJoin(ws, [c], Split(c, s));
  }

  // --- splitting after a punctuation mark --------------------------------------

  /** A whitespace character right after one of `ends`: where the expression `(?<=[ends])\s+` matches. */
  predicate IsBreak(ws: Spaces, ends: set<char>, s: string, i: int) {
    0 < i < |s| && s[i - 1] in ends && s[i] in ws
  }

  ghost predicate NoBreak(ws: Spaces, ends: set<char>, s: string) {
    forall i :: !IsBreak(ws, ends, s, i)
  }

  function FirstBreak(ws: Spaces, ends: set<char>, s: string, i: nat): (r: nat)
    requires i <= |s|
    ensures i <= r <= |s|
    ensures r < |s| ==> IsBreak(ws, ends, s, r)
    ensures forall j | i <= j < r :: !IsBreak(ws, ends, s, j)
    decreases |s| - i
  {
    if i == |s| || IsBreak(ws, ends, s, i) then i else FirstBreak(ws, ends, s, i + 1)
  }

  function SkipSpaces(ws: Spaces, s: string, i: nat): (r: nat)
    requires i <= |s|
    ensures i <= r <= |s|
    ensures r < |s| ==> s[r] !in ws
    ensures forall j | i <= j < r :: s[j] in ws
    decreases |s| - i
  {
    if i < |s| && s[i] in ws then SkipSpaces(ws, s, i + 1) else i
  }

  /** `re.compile("(?<=[ends])\s+").split(s)`: cut at every maximal run of whitespace that follows
      one of `ends`, dropping the run. */
  function SplitAfter(ws: Spaces, ends: set<char>, s: string): (parts: seq<string>)
    ensures parts != []
    decreases |s|
  {
    var i := FirstBreak(ws, ends, s, 0);
    if i == |s| then [s] else [s[..i]] + SplitAfter(ws, ends, s[SkipSpaces(ws, s, i)..])
  }

  lemma {:induction false} SplitAfterVisible(ws: Spaces, ends: set<char>, s: string)
    ensures VisibleAll(ws, SplitAfter(ws, ends, s)) == Visible(ws, s)
    decreases |s|
  {
    var i := FirstBreak(ws, ends, s, 0);
    if i == |s| {
      assert VisibleAll(ws, [s]) == Visible(ws, s) + VisibleAll(ws, [s][1..]);
    } else {
      var j := SkipSpaces(ws, s, i);
      var head, tail := s[..i], s[j..];
      SplitAfterVisible(ws, ends, tail);
      CutTwice(s, i, j);
      VisibleBetween(ws, head, s[i..j], tail);
      VisibleAllCons(ws, head, SplitAfter(ws, ends, tail));
    }
  }

  // --- words -------------------------------------------------------------------------

  /** The maximal visible stretches of a text, in order: Python's `text.split()`. */
  function Words(ws: Spaces, s: string): (words: seq<string>)
    ensures StartsVisible(ws, s) ==> words != []
  {
    if s == "" then []
    else
      var rest := Words(ws, s[1..]);
      if s[0] in ws then rest
      else if |s| == 1 || s[1] in ws then [[s[0]]] + rest
      else [[s[0]] + rest[0]] + rest[1..]
  }

  function WordsAll(ws: Spaces, parts: seq<string>): seq<string> {
    if parts == [] then [] else Words(ws, parts[0]) + WordsAll(ws, parts[1..])
  }

  /** Between the two there is a blank, or one of them is empty. */
  predicate Separate(ws: Spaces, a: string, b: string) {
    EndsVisible(ws, a) ==> !StartsVisible(ws, b)
  }

  lemma WordsStep(ws: Spaces, c: char, s: string)
    ensures Words(ws, [c] + s) == var rest := Words(ws, s);
                                  if c in ws then rest
                                  else if StartsVisible(ws, s) then [[c] + rest[0]] + rest[1..]
                                  else [[c]] + rest
  {
    assert ([c] + s)[1..] == s;
  }

  lemma {:induction false} WordsSum(ws: Spaces, a: string, b: string)
    requires Separate(ws, a, b)
    ensures Words(ws, a + b) == Words(ws, a) + Words(ws, b)
  {
    hide Words;
    if a == "" {
      assert a + b == b && Words(ws, a) == [] by { NoWords(ws); }
    } else {
      var c, rest := a[0], a[1..];
      assert a == [c] + rest;
      WordsSum(ws, rest, b);
      WordsLonger(ws, c, rest, b);
    }
  }

  lemma {:induction false} WordsLonger(ws: Spaces, c: char, a: string, b: string)
    requires Separate(ws, [c] + a, b) && Words(ws, a + b) == Words(ws, a) + Words(ws, b)
    ensures Words(ws, [c] + a + b) == Words(ws, [c] + a) + Words(ws, b)
  {
    hide Words;
    AppendAssoc([c], a, b);
    WordsStep(ws, c, a);
    WordsStep(ws, c, a + b);
    var x, y := Words(ws, a), Words(ws, b);
    if c !in ws && StartsVisible(ws, a) {
      assert StartsVisible(ws, a + b);
      assert (x + y)[0] == x[0] && (x + y)[1..] == x[1..] + y;
      AppendAssoc([[c] + x[0]], x[1..], y);
    } else if c !in ws {
      assert !StartsVisible(ws, a + b);
      AppendAssoc([[c]], x, y);
    }
  }

  lemma NoWords(ws: Spaces)
    ensures Words(ws, "") == []
  {
  }

  lemma {:induction false} WordsOfBlank(ws: Spaces, s: string)
    ensures Blank(ws, s) <==> Words(ws, s) == []
  {
    if s != "" {
      WordsOfBlank(ws, s[1..]);
      assert s == [s[0]] + s[1..];
      BlankSum(ws, [s[0]], s[1..]);
      assert s[0] in [s[0]];
    }
  }

  lemma {:induction false} WordsBetween(ws: Spaces, a: string, gap: string, b: string)
    requires Blank(ws, gap) && gap != ""
    ensures Words(ws, a + gap + b) == Words(ws, a) + Words(ws, b)
  {
    hide Words, Blank;
    BlankEnds(ws, gap);
    WordsOfBlank(ws, gap);
    WordsSum(ws, a, gap);
    WordsSum(ws, a + gap, b);
  }

  lemma {:induction false} WordsOfStrip(ws: Spaces, s: string)
    ensures Words(ws, Strip(ws, s)) == Words(ws, s)
  {
    hide Words, Blank, Strip, Lead, Trail;
    if Blank(ws, s) {
      StripBlank(ws, s);
      WordsOfBlank(ws, s);
      NoWords(ws);
    } else {
      StripParts(ws, s);
      WordsOfTrim(ws, Lead(ws, s), Strip(ws, s), Trail(ws, s));
      LeadIs(ws, s);
      TrailIs(ws, s);
    }
  }

  lemma BlankIsSeparate(ws: Spaces, s: string)
    requires Blank(ws, s)
    ensures !StartsVisible(ws, s) && !EndsVisible(ws, s)
  {
  }

  lemma {:induction false} WordsOfTrim(ws: Spaces, a: string, s: string, b: string)
    ensures Blank(ws, a) && Blank(ws, b) ==> Words(ws, a + s + b) == Words(ws, s)
  {
    hide Words;
    if Blank(ws, a) && Blank(ws, b) {
      WordsOfBlank(ws, a);
      WordsOfBlank(ws, b);
      BlankIsSeparate(ws, a);
      BlankIsSeparate(ws, b);
      WordsSum(ws, a, s);
      WordsSum(ws, a + s, b);
    }
  }

  lemma {:induction false} WordsAllAppend(ws: Spaces, a: seq<string>, b: seq<string>)
    ensures WordsAll(ws, a + b) == WordsAll(ws, a) + WordsAll(ws, b)
  {
    hide Words;
    if a == [] {
      assert a + b == b;
    } else {
      WordsAllAppend(ws, a[1..], b);
      assert (a + b)[1..] == a[1..] + b;
      AppendAssoc(Words(ws, a[0]), WordsAll(ws, a[1..]), WordsAll(ws, b));
    }
  }

  lemma {:induction false} WordsAllOne(ws: Spaces, s: string)
    ensures WordsAll(ws, [s]) == Words(ws, s) && WordsAll(ws, []) == []
  {
    hide Words;
    assert [s][1..] == [];
    assert WordsAll(ws, [s]) == Words(ws, s) + WordsAll(ws, []);
  }

  lemma {:induction false} LastWords(ws: Spaces, parts: seq<string>)
    requires parts != []
    ensures WordsAll(ws, parts) == WordsAll(ws, parts[..|parts| - 1]) + Words(ws, parts[|parts| - 1])
  {
    hide Words, WordsAll;
    var front, last := parts[..|parts| - 1], parts[|parts| - 1];
    assert parts == front + [last];
    WordsAllAppend(ws, front, [last]);
    WordsAllOne(ws, last);
  }

  /** Joined with space between them, texts keep their words. */
  lemma {:induction false} WordsOfJoin(ws: Spaces, sep: string, parts: seq<string>)
    requires Blank(ws, sep) && sep != ""
    ensures Words(ws, Join(sep, parts)) == WordsAll(ws, parts)
  {
    hide Words, Blank;
    if parts == [] {
      NoWords(ws);
    } else if |parts| == 1 {
      assert parts == [parts[0]];
      WordsAllOne(ws, parts[0]);
    } else {
      WordsOfJoin(ws, sep, parts[1..]);
      WordsBetween(ws, parts[0], sep, Join(sep, parts[1..]));
    }
  }

  lemma {:induction false} WordsOfSplit(ws: Spaces, c: char, s: string)
    requires c in ws
    ensures WordsAll(ws, Split(c, s)) == Words(ws, s)
  {
    hide Words, Split;
    JoinSplit(c, s);
    WordsOfJoin(ws, [c], Split(c, s));
  }

  lemma {:induction false} WordsOfSplitAfter(ws: Spaces, ends: set<char>, s: string)
    ensures WordsAll(ws, SplitAfter(ws, ends, s)) == Words(ws, s)
    decreases |s|
  {
    hide Words;
    var i := FirstBreak(ws, ends, s, 0);
    if i == |s| {
      WordsAllOne(ws, s);
    } else {
      var j := SkipSpaces(ws, s, i);
      var head, gap, tail := s[..i], s[i..j], s[j..];
      WordsOfSplitAfter(ws, ends, tail);
      CutTwice(s, i, j);
      assert s[i] in ws ==> gap != "";
      WordsBetween(ws, head, gap, tail);
      assert ([head] + SplitAfter(ws, ends, tail))[1..] == SplitAfter(ws, ends, tail);
    }
  }

  // --- cutting what is too long -----------------------------------------------------

  predicate Bounded(limit: int, parts: seq<string>) {
    forall part | part in parts :: 0 < |part| <= limit
  }

  /** The slices of `limit` characters cut off an overlong word, and what is left of it. */
  function Slices(limit: nat, word: string): seq<string>
    requires limit > 0
  {
    if |word| > limit then [word[..limit]] + Slices(limit, word[limit..]) else []
  }

  function Residue(limit: nat, word: string): (r: string)
    requires limit > 0
    ensures |r| <= limit
  {
    if |word| > limit then Residue(limit, word[limit..]) else word
  }

  lemma {:induction false} SlicesBounded(limit: nat, word: string)
    requires limit > 0
    ensures Bounded(limit, Slices(limit, word))
  {
    if |word| > limit {
      SlicesBounded(limit, word[limit..]);
    }
  }

  lemma {:induction false} SlicesVisible(ws: Spaces, limit: nat, word: string)
    requires limit > 0
    ensures VisibleAll(ws, Slices(limit, word)) + Visible(ws, Residue(limit, word)) == Visible(ws, word)
  {
    if |word| > limit {
      var head, tail := word[..limit], word[limit..];
      SlicesVisible(ws, limit, tail);
      assert word == head + tail;
      VisibleConcat(ws, head, tail);
      var rest := Slices(limit, tail);
      assert ([head] + rest)[1..] == rest;
      AppendAssoc(Visible(ws, head), VisibleAll(ws, rest), Visible(ws, Residue(limit, tail)));
    }
  }

  // --- words without blanks ----------------------------------------------------------

  /** Every stretch of more than `limit` characters holds a blank: no space-free word is longer. */
  predicate ShortWords(limit: nat, text: string) {
    forall i, j | 0 <= i <= j <= |text| :: j - i > limit ==> ' ' in text[i..j]
  }

  lemma {:induction false} ShortWordsSlice(limit: nat, text: string, a: nat, b: nat)
    requires a <= b <= |text| && ShortWords(limit, text)
    ensures ShortWords(limit, text[a..b])
  {
    forall i, j | 0 <= i <= j <= b - a ensures j - i > limit ==> ' ' in text[a..b][i..j] {
      if j - i > limit {
        assert ' ' in text[a + i..a + j];
        var k :| a + i <= k < a + j && text[k] == ' ';
        assert text[a..b][i..j][k - a - i] == ' ';
      }
    }
  }

  /** In a text of short words, the words of a split are short, so nothing is ever cut. */
  lemma {:induction false} ShortWordsSplit(limit: nat, text: string)
    requires ShortWords(limit, text)
    ensures forall word | word in Split(' ', text) :: |word| <= limit
    decreases |text|
  {
    var i := FirstBlank(text);
    var word := text[..i];
    assert text == word + text[i..];
    SplitWord(' ', word, text[i..]);
    assert word == text[0..i];
    if i == |text| {
      assert Split(' ', text[i..]) == [""];
    } else {
      ShortWordsSlice(limit, text, i + 1, |text|);
      assert text[i + 1..|text|] == text[i..][1..];
      ShortWordsSplit(limit, text[i..][1..]);
    }
    assert word + "" == word;
  }

  function FirstBlank(text: string): (i: nat)
    ensures i <= |text| && ' ' !in text[..i] && (i < |text| ==> text[i] == ' ')
  {
    if text == "" || text[0] == ' ' then 0 else
      assert text[..FirstBlank(text[1..]) + 1] == [text[0]] + text[1..][..FirstBlank(text[1..])];
      FirstBlank(text[1..]) + 1
  }
}
