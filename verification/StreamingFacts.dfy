/** What the splitter of the delta stream makes of a text, however it is cut into deltas: exactly which
    sentences come out, and exactly which cuts leave them as they are in the text. */
module StreamingFacts {
  import opened Text
  import opened PlaybackChunker
  import opened StreamingSplitter

  // --- a text at its first break -------------------------------------------------------------

  /** A stretch without a break that ends a sentence, space, and what follows it. */
  ghost predicate Breaks(ws: Spaces, head: string, gap: string, rest: string) {
    && Ended(head) && NoBreak(ws, SENTENCE_ENDS, head) && Blank(ws, gap) && gap != ""
    && (rest == "" || StartsVisible(ws, rest))
  }

  lemma {:induction false} FirstBreakIs(ws: Spaces, s: string, i: nat)
    requires i <= |s| && (i < |s| ==> IsBreak(ws, SENTENCE_ENDS, s, i))
    requires forall j | 0 <= j < i :: !IsBreak(ws, SENTENCE_ENDS, s, j)
    ensures FirstBreak(ws, SENTENCE_ENDS, s, 0) == i
  {
    var r := FirstBreak(ws, SENTENCE_ENDS, s, 0);
    assert i < r ==> !IsBreak(ws, SENTENCE_ENDS, s, i);
    assert r < i ==> !IsBreak(ws, SENTENCE_ENDS, s, r);
  }

  lemma {:induction false} SkipIs(ws: Spaces, s: string, i: nat, j: nat)
    requires i <= j <= |s| && (forall k | i <= k < j :: s[k] in ws) && (j < |s| ==> s[j] !in ws)
    ensures SkipSpaces(ws, s, i) == j
    decreases j - i
  {
    if i < j {
      SkipIs(ws, s, i + 1, j);
    }
  }

  lemma {:induction false} BreakIsFirst(ws: Spaces, head: string, gap: string, rest: string)
    requires SENTENCE_ENDS !! ws && Breaks(ws, head, gap, rest)
    ensures FirstBreak(ws, SENTENCE_ENDS, head + gap + rest, 0) == |head|
    ensures SkipSpaces(ws, head + gap + rest, |head|) == |head| + |gap|
  {
    var s, n := head + gap + rest, |head|;
    assert s[n] == gap[0] && gap[0] in gap && s[n - 1] == head[n - 1];
    forall j | 0 <= j < n ensures !IsBreak(ws, SENTENCE_ENDS, s, j) {
      assert !IsBreak(ws, SENTENCE_ENDS, head, j);
    }
    FirstBreakIs(ws, s, n);
    forall k | n <= k < n + |gap| ensures s[k] in ws {
      assert s[k] == gap[k - n] && gap[k - n] in gap;
    }
    SkipIs(ws, s, n, n + |gap|);
  }

  lemma CutSum(head: string, gap: string, rest: string)
    ensures var s := head + gap + rest; s[..|head|] == head && s[|head| + |gap|..] == rest
  {
  }

  /** The sentences of such a text. */
  lemma {:induction false} SplitAtBreak(ws: Spaces, head: string, gap: string, rest: string)
    requires SENTENCE_ENDS !! ws && Breaks(ws, head, gap, rest)
    ensures SplitSentences(ws, head + gap + rest) == [Strip(ws, head)] + SplitSentences(ws, rest)
    ensures Strip(ws, head) != ""
  {
    hide Strip, FirstBreak, SkipSpaces, NoBreak, Blank;
    var s := head + gap + rest;
    BreakIsFirst(ws, head, gap, rest);
    CutSum(head, gap, rest);
    EndedIsVisible(ws, head);
    PartsOfText(ws, rest);
    var parts := SplitAfter(ws, SENTENCE_ENDS, rest);
    assert SplitAfter(ws, SENTENCE_ENDS, s) == [head] + parts;
    assert ([head] + parts)[1..] == parts;
  }

  lemma EndedIsVisible(ws: Spaces, s: string)
    requires SENTENCE_ENDS !! ws && Ended(s)
    ensures Strip(ws, s) != "" && !Blank(ws, s) && EndsVisible(ws, s)
  {
    StripBlank(ws, s);
    assert s[|s| - 1] in s && s[|s| - 1] !in ws;
  }

  /** The splitter's second branch finds nothing that its first has not. */
  lemma PartsOfText(ws: Spaces, text: string)
    requires SENTENCE_ENDS !! ws
    ensures SplitSentences(ws, text) == Stripped(ws, SplitAfter(ws, SENTENCE_ENDS, text))
  {
    hide Strip, SplitAfter;
    PartsAreSentences(ws, text);
  }

  lemma {:induction false} SplitUnbroken(ws: Spaces, text: string)
    requires NoBreak(ws, SENTENCE_ENDS, text)
    ensures SplitSentences(ws, text) == if Strip(ws, text) == "" then [] else [Strip(ws, text)]
  {
    hide Strip;
    FirstBreakIs(ws, text, |text|);
    assert SplitAfter(ws, SENTENCE_ENDS, text) == [text] && [text][1..] == [];
    assert Stripped(ws, [text]) == (if Strip(ws, text) == "" then [] else [Strip(ws, text)]) + Stripped(ws, []);
  }

  /** Every text with a break is such a text. */
  lemma {:induction false} TakeApart(ws: Spaces, text: string) returns (head: string, gap: string, rest: string)
    requires SENTENCE_ENDS !! ws && !NoBreak(ws, SENTENCE_ENDS, text)
    ensures text == head + gap + rest && Breaks(ws, head, gap, rest)
  {
    var i := FirstBreak(ws, SENTENCE_ENDS, text, 0);
    var k :| IsBreak(ws, SENTENCE_ENDS, text, k);
    assert i < |text|;
    var j := SkipSpaces(ws, text, i);
    head, gap, rest := text[..i], text[i..j], text[j..];
    CutTwice(text, i, j);
    NoBreakSlice(ws, text, 0, i);
    assert text[0..i] == head;
    assert text[i] in ws ==> j > i;
  }

  lemma {:induction false} NoBreakSum(ws: Spaces, t: string, p: string)
    requires NoBreak(ws, SENTENCE_ENDS, t) && NoBreak(ws, SENTENCE_ENDS, p)
    requires !(Ended(t) && p != "" && p[0] in ws)
    ensures NoBreak(ws, SENTENCE_ENDS, t + p)
  {
    var s := t + p;
    forall j ensures !IsBreak(ws, SENTENCE_ENDS, s, j) {
      if 0 < j < |t| {
        assert s[j] == t[j] && s[j - 1] == t[j - 1] && !IsBreak(ws, SENTENCE_ENDS, t, j);
      } else if |t| < j < |s| {
        assert s[j] == p[j - |t|] && s[j - 1] == p[j - |t| - 1] && !IsBreak(ws, SENTENCE_ENDS, p, j - |t|);
      } else if 0 < j == |t| < |s| {
        assert s[j] == p[0] && s[j - 1] == t[j - 1];
      }
    }
  }

  lemma {:induction false} BlankHasNoBreak(ws: Spaces, w: string)
    requires SENTENCE_ENDS !! ws && Blank(ws, w)
    ensures NoBreak(ws, SENTENCE_ENDS, w) && !Ended(w) && SplitSentences(ws, w) == []
  {
    assert forall j | 0 <= j < |w| :: w[j] in w && w[j] !in SENTENCE_ENDS;
    SplitUnbroken(ws, w);
    StripBlank(ws, w);
  }

  /** Blanks in front do not count. */
  lemma {:induction false} SplitBlankHead(ws: Spaces, w: string, p: string)
    requires SENTENCE_ENDS !! ws && Blank(ws, w)
    ensures SplitSentences(ws, w + p) == SplitSentences(ws, p)
  {
    hide Strip, NoBreak, Blank, SplitSentences, Ended, Breaks;
    BlankHasNoBreak(ws, w);
    if NoBreak(ws, SENTENCE_ENDS, p) {
      NoBreakSum(ws, w, p);
      StripBlankHead(ws, w, p);
      SplitUnbroken(ws, p);
      SplitUnbroken(ws, w + p);
    } else {
      var head, gap, rest := TakeApart(ws, p);
      hide NoBreak;
      BreaksLater(ws, w, head, gap, rest);
      StripBlankHead(ws, w, head);
      SplitAtBreak(ws, head, gap, rest);
      SplitAtBreak(ws, w + head, gap, rest);
      PutBefore(w, head, gap, rest);
    }
  }

  lemma PutBefore(t: string, a: string, b: string, c: string)
    ensures t + (a + b + c) == t + a + b + c
  {
  }

  lemma BreaksLater(ws: Spaces, t: string, head: string, gap: string, rest: string)
    requires Breaks(ws, head, gap, rest) && NoBreak(ws, SENTENCE_ENDS, t) && !(Ended(t) && head[0] in ws)
    ensures Breaks(ws, t + head, gap, rest)
  {
    hide NoBreak;
    NoBreakSum(ws, t, head);
    EndedSum(t, head);
  }

  lemma EndedSum(t: string, p: string)
    ensures p != "" ==> Ended(t + p) == Ended(p)
  {
  }

  lemma {:induction false} SplitOfVisible(ws: Spaces, t: string)
    requires SENTENCE_ENDS !! ws && !Blank(ws, t)
    ensures SplitSentences(ws, t) != []
  {
    StripBlank(ws, t);
  }

  // --- a text after another -----------------------------------------------------------------

  /** The sentences of a text, joined again. */
  function Joined(ws: Spaces, text: string): string {
    Join(" ", SplitSentences(ws, text))
  }

  /** What comes to stand between two texts when the second follows the first. */
  function Between(ws: Spaces, before: string, after: string): string {
    var gap := Trail(ws, before) + Lead(ws, after);
    if Ended(StripRight(ws, before)) && gap != "" then " " else gap
  }

  lemma {:induction false} JoinCons(first: string, rest: seq<string>)
    ensures Join(" ", [first] + rest) == if rest == [] then first else first + " " + Join(" ", rest)
  {
    assert ([first] + rest)[1..] == rest;
  }

  lemma {:induction false} JoinLonger(x: string, y: string, rest: seq<string>)
    ensures Join(" ", [x + y] + rest) == x + Join(" ", [y] + rest)
  {
    hide Join;
    JoinCons(x + y, rest);
    JoinCons(y, rest);
    assert rest != [] ==> x + y + " " + Join(" ", rest) == x + (y + " " + Join(" ", rest));
  }

  lemma {:induction false} JoinedUnbroken(ws: Spaces, text: string)
    requires NoBreak(ws, SENTENCE_ENDS, text)
    ensures Joined(ws, text) == Strip(ws, text)
  {
    hide Strip, NoBreak, SplitSentences;
    SplitUnbroken(ws, text);
  }

  /** One sentence that has ended, space, and something visible. */
  lemma {:induction false} JoinedAtBreak(ws: Spaces, head: string, gap: string, rest: string)
    requires SENTENCE_ENDS !! ws && Breaks(ws, head, gap, rest)
    ensures Joined(ws, head + gap + rest) ==
            if rest == "" then Strip(ws, head) else Strip(ws, head) + " " + Joined(ws, rest)
  {
    hide Strip, NoBreak, SplitSentences, Join, Blank;
    SplitAtBreak(ws, head, gap, rest);
    JoinCons(Strip(ws, head), SplitSentences(ws, rest));
    if rest == "" {
      assert Blank(ws, "") by { EmptyIsBlank(ws); }
      BlankHasNoBreak(ws, rest);
    } else {
      assert !Blank(ws, rest) by { StartIsVisible(ws, rest); }
      SplitOfVisible(ws, rest);
    }
  }

  lemma EmptyIsBlank(ws: Spaces)
    ensures Blank(ws, "")
  {
  }

  lemma StartIsVisible(ws: Spaces, s: string)
    requires StartsVisible(ws, s)
    ensures !Blank(ws, s) && Lead(ws, s) == "" && StripLeft(ws, s) == s
  {
    assert s[0] in s;
  }

  /** Where the first text ends a sentence and there is space between. */
  lemma {:induction false} JoinedAfterEnd(ws: Spaces, head: string, gap: string, p: string)
    requires SENTENCE_ENDS !! ws && !Blank(ws, p) && Ended(head) && NoBreak(ws, SENTENCE_ENDS, head) && Blank(ws, gap)
    requires gap + Lead(ws, p) != ""
    ensures Joined(ws, head + gap + p) == Strip(ws, head) + " " + Joined(ws, p)
    ensures Joined(ws, head + gap) == Strip(ws, head) && Between(ws, head + gap, p) == " "
  {
    hide Strip, NoBreak, SplitSentences, Join, Blank, Lead, Trail, StripLeft, StripRight, Ended;
    var w, x := Lead(ws, p), StripLeft(ws, p);
    LeadIs(ws, p);
    BlankSum(ws, gap, w);
    assert head + gap + p == head + (gap + w) + x;
    JoinedAtBreak(ws, head, gap + w, x);
    SplitBlankHead(ws, w, x);
    EndedIsVisible(ws, head);
    TrailUnique(ws, head, gap);
    if gap == "" {
      assert head + gap == head;
      JoinedUnbroken(ws, head);
    } else {
      assert head + gap + "" == head + gap;
      JoinedAtBreak(ws, head, gap, "");
    }
  }

  /** Where it does not, or there is none. */
  lemma {:induction false} JoinedUnended(ws: Spaces, t: string, p: string)
    requires SENTENCE_ENDS !! ws && !Blank(ws, t) && !Blank(ws, p)
    requires NoBreak(ws, SENTENCE_ENDS, t) && !(Ended(t) && p[0] in ws)
    ensures Joined(ws, t + p) == Joined(ws, t) + Between(ws, t, p) + Joined(ws, p)
  {
    hide Strip, NoBreak, SplitSentences, Join, Blank, Lead, Trail, StripRight, Between;
    VisibleIsSome(ws, p);
    JoinedUnbroken(ws, t);
    GapIsBetween(ws, t, p);
    var gap := Trail(ws, t) + Lead(ws, p);
    if NoBreak(ws, SENTENCE_ENDS, p) {
      NoBreakSum(ws, t, p);
      JoinedUnbroken(ws, p);
      JoinedUnbroken(ws, t + p);
      StripSum(ws, t, p);
    } else {
      var head, more, rest := TakeApart(ws, p);
      EndedIsVisible(ws, head);
      BreaksLater(ws, t, head, more, rest);
      StripSum(ws, t, head);
      LeadOfSum(ws, head, more + rest);
      assert p == head + (more + rest) && t + p == t + head + more + rest;
      SplitAtBreak(ws, head, more, rest);
      SplitAtBreak(ws, t + head, more, rest);
      JoinLonger(Strip(ws, t) + gap, Strip(ws, head), SplitSentences(ws, rest));
    }
  }

  lemma LeadOfSum(ws: Spaces, a: string, b: string)
    requires !Blank(ws, a)
    ensures Lead(ws, a + b) == Lead(ws, a)
  {
    StripLeftSum(ws, a, b);
  }

  lemma {:induction false} GapIsBetween(ws: Spaces, t: string, p: string)
    requires SENTENCE_ENDS !! ws && NoBreak(ws, SENTENCE_ENDS, t) && p != "" && !(Ended(t) && p[0] in ws)
    ensures Between(ws, t, p) == Trail(ws, t) + Lead(ws, p)
  {
    hide StripRight, Trail;
    var r, w := StripRight(ws, t), Trail(ws, t);
    TrailIs(ws, t);
    if w != "" {
      assert t[|r|] == w[0] && w[0] in w;
      assert !IsBreak(ws, SENTENCE_ENDS, t, |r|);
    } else {
      assert r + "" == r;
    }
  }

  lemma VisibleIsSome(ws: Spaces, p: string)
    requires !Blank(ws, p)
    ensures p != ""
  {
  }

  /** The sentences of one text followed by another, neither of them blank. */
  lemma {:induction false} JoinedSum(ws: Spaces, t: string, p: string)
    requires SENTENCE_ENDS !! ws && !Blank(ws, t) && !Blank(ws, p)
    ensures Joined(ws, t + p) == Joined(ws, t) + Between(ws, t, p) + Joined(ws, p)
    decreases |t|
  {
    hide Strip, NoBreak, SplitSentences, Join, Joined, Blank, Lead, Trail, StripRight, Between, StartsVisible;
    VisibleIsSome(ws, p);
    if NoBreak(ws, SENTENCE_ENDS, t) {
      if Ended(t) && p[0] in ws {
        assert t + "" + p == t + p && t + "" == t;
        LeadStarts(ws, p);
        EmptyIsBlank(ws);
        JoinedAfterEnd(ws, t, "", p);
      } else {
        JoinedUnended(ws, t, p);
      }
    } else {
      var head, gap, rest := TakeApart(ws, t);
      if rest == "" {
        assert head + gap + "" == head + gap;
        JoinedAfterEnd(ws, head, gap, p);
      } else {
        StartIsVisible(ws, rest);
        JoinedSum(ws, rest, p);
        AppendAssoc(head + gap, rest, p);
        RestStarts(ws, rest, p);
        JoinedAtBreak(ws, head, gap, rest);
        JoinedAtBreak(ws, head, gap, rest + p);
        BetweenOfTail(ws, head + gap, rest, p);
        PutBefore(Strip(ws, head) + " ", Joined(ws, rest), Between(ws, t, p), Joined(ws, p));
      }
    }
  }

  lemma RestStarts(ws: Spaces, rest: string, p: string)
    requires StartsVisible(ws, rest)
    ensures StartsVisible(ws, rest + p) && rest + p != ""
  {
  }

  lemma LeadStarts(ws: Spaces, p: string)
    requires p != "" && p[0] in ws
    ensures Lead(ws, p) != ""
  {
  }

  lemma {:induction false} BetweenOfTail(ws: Spaces, front: string, rest: string, p: string)
    requires !Blank(ws, rest)
    ensures Between(ws, front + rest, p) == Between(ws, rest, p)
  {
    hide StripRight, Trail;
    StripRightSum(ws, front, rest);
    TrailIs(ws, rest);
    EndedSum(front, StripRight(ws, rest));
  }

  /** Blanks at the end do not count. */
  lemma {:induction false} JoinedBlankTail(ws: Spaces, t: string, w: string)
    requires SENTENCE_ENDS !! ws && Blank(ws, w)
    ensures Joined(ws, t + w) == Joined(ws, t)
    decreases |t|
  {
    hide Strip, NoBreak, SplitSentences, Join, Blank, StartsVisible;
    BlankHasNoBreak(ws, w);
    if NoBreak(ws, SENTENCE_ENDS, t) {
      JoinedUnbroken(ws, t);
      if Ended(t) && w != "" {
        EmptyIsBlank(ws);
        assert t + w + "" == t + w;
        JoinedAtBreak(ws, t, w, "");
      } else {
        if w == "" {
          assert t + w == t;
        } else {
          NoBreakSum(ws, t, w);
          JoinedUnbroken(ws, t + w);
          StripBlankTail(ws, t, w);
        }
      }
    } else {
      var head, gap, rest := TakeApart(ws, t);
      JoinedAtBreak(ws, head, gap, rest);
      if rest == "" {
        BlankSum(ws, gap, w);
        assert head + gap + rest + w == head + (gap + w) + "";
        JoinedAtBreak(ws, head, gap + w, "");
      } else {
        JoinedBlankTail(ws, rest, w);
        RestStarts(ws, rest, w);
        AppendAssoc(head + gap, rest, w);
        JoinedAtBreak(ws, head, gap, rest + w);
      }
    }
  }

  /** Two texts that end with the same character. */
  predicate SameLast(a: string, b: string) {
    a != "" && b != "" && a[|a| - 1] == b[|b| - 1]
  }

  lemma LastLater(x: string, a: string, y: string, b: string)
    requires SameLast(a, b)
    ensures SameLast(x + a, y + b)
  {
  }

  lemma LastVisibleToo(ws: Spaces, a: string, b: string)
    requires SameLast(a, b) && EndsVisible(ws, b)
    ensures EndsVisible(ws, a) && a != "" && b != "" && a[|a| - 1] == b[|b| - 1]
  {
  }

  /** The sentences end with the last visible character of the text. */
  lemma {:induction false} JoinedEnds(ws: Spaces, t: string)
    requires SENTENCE_ENDS !! ws && !Blank(ws, t)
    ensures Joined(ws, t) != "" && StripRight(ws, t) != ""
    ensures Joined(ws, t)[|Joined(ws, t)| - 1] == StripRight(ws, t)[|StripRight(ws, t)| - 1]
    ensures EndsVisible(ws, Joined(ws, t)) && SameLast(Joined(ws, t), StripRight(ws, t))
    decreases |t|
  {
    hide Strip, NoBreak, Joined, Blank, StripLeft, StripRight, Lead, Trail, StartsVisible, EndsVisible;
    hide SameLast;
    TrailIs(ws, t);
    if NoBreak(ws, SENTENCE_ENDS, t) {
      JoinedUnbroken(ws, t);
      StripRightEnds(ws, t);
    } else {
      var head, gap, rest := TakeApart(ws, t);
      JoinedAtBreak(ws, head, gap, rest);
      if rest == "" {
        EndedIsVisible(ws, head);
        assert head + gap + "" == head + gap;
        TrailUnique(ws, head, gap);
        NothingToStrip(ws, head);
        StripRightEnds(ws, head);
      } else {
        StartIsVisible(ws, rest);
        JoinedEnds(ws, rest);
        StripRightSum(ws, head + gap, rest);
        LastLater(Strip(ws, head) + " ", Joined(ws, rest), head + gap, StripRight(ws, rest));
      }
    }
    LastVisibleToo(ws, Joined(ws, t), StripRight(ws, t));
  }

  lemma StripRightEnds(ws: Spaces, t: string)
    requires !Blank(ws, t)
    ensures SameLast(Strip(ws, t), StripRight(ws, t))
  {
    hide Strip, StripLeft, StripRight, Lead, Trail, Blank;
    StripParts(ws, t);
  }

  // --- the stream --------------------------------------------------------------------------------

  /** All sentences so far: emitted, held, and the one in the buffer. */
  function SoFar(ws: Spaces, st: Stream): seq<string> {
    Flatten(st.slices) + st.held + SplitSentences(ws, st.buf)
  }

  /** A sentence whose end has not come. */
  ghost predicate Open(ws: Spaces, s: string) {
    IsSentence(ws, s) && !Ended(s)
  }

  ghost predicate Whole(ws: Spaces, ss: seq<string>) {
    forall s | s in ss :: IsSentence(ws, s) && Ended(s)
  }

  /** What has left the buffer is whole sentences; the buffer has an open one, or nothing visible. */
  ghost predicate InStep(ws: Spaces, st: Stream) {
    Whole(ws, Flatten(st.slices) + st.held) && (Blank(ws, st.buf) || Open(ws, st.buf))
  }

  lemma {:induction false} JoinTwo(a: seq<string>, b: seq<string>)
    requires a != [] && b != []
    ensures Join(" ", a + b) == Join(" ", a) + " " + Join(" ", b)
  {
    hide Join;
    JoinOne(a[0]);
    if |a| == 1 {
      JoinCons(a[0], b);
      assert a == [a[0]];
    } else {
      JoinTwo(a[1..], b);
      JoinCons(a[0], a[1..]);
      JoinCons(a[0], a[1..] + b);
      assert a == [a[0]] + a[1..] && a + b == [a[0]] + (a[1..] + b);
      PutBefore(a[0] + " ", Join(" ", a[1..]), " ", Join(" ", b));
    }
  }

  lemma JoinOne(s: string)
    ensures Join(" ", [s]) == s
  {
  }

  lemma {:induction false} JoinEnds(ss: seq<string>)
    requires ss != [] && ss[|ss| - 1] != ""
    ensures Join(" ", ss) != ""
    ensures Join(" ", ss)[|Join(" ", ss)| - 1] == ss[|ss| - 1][|ss[|ss| - 1]| - 1]
  {
    hide Join;
    var front, last := ss[..|ss| - 1], ss[|ss| - 1];
    assert ss == front + [last];
    JoinOne(last);
    if front != [] {
      JoinTwo(front, [last]);
    }
  }

  /** An open sentence, and what follows it. */
  lemma {:induction false} OpenFacts(ws: Spaces, s: string)
    requires SENTENCE_ENDS !! ws && Open(ws, s)
    ensures SplitSentences(ws, s) == [s] && Joined(ws, s) == s && !Blank(ws, s) && Trail(ws, s) == "" && s != ""
    ensures StripRight(ws, s) == s && EndsVisible(ws, s) && NoBreak(ws, SENTENCE_ENDS, s)
  {
    assert s[0] in s;
    StripTrimmed(ws, s);
    SplitUnbroken(ws, s);
    JoinOne(s);
    NothingToStrip(ws, s);
  }

  /** The last sentence of a text is whole exactly when the text, blanks aside, ends in a sentence mark. */
  lemma {:induction false} LastIsWhole(ws: Spaces, text: string)
    requires SENTENCE_ENDS !! ws && !Blank(ws, text)
    ensures var parts := SplitSentences(ws, text);
            parts != [] && (Ended(parts[|parts| - 1]) <==> Ended(StripRight(ws, text)))
  {
    hide SplitSentences, StripRight, Blank, Join;
    var parts := SplitSentences(ws, text);
    SplitOfVisible(ws, text);
    SplitGivesSentences(ws, text);
    assert IsSentence(ws, parts[|parts| - 1]);
    JoinEnds(parts);
    JoinedEnds(ws, text);
  }

  /** A delta: the sentences so far are those of what left the buffer, and of the buffer with the delta. */
  lemma {:induction false} TakeSplits(ws: Spaces, st: Stream, piece: string)
    requires SENTENCE_ENDS !! ws && InStep(ws, st)
    ensures InStep(ws, Take(ws, st, piece))
    ensures SoFar(ws, Take(ws, st, piece)) == Flatten(st.slices) + st.held + SplitSentences(ws, st.buf + piece)
  {
    hide SplitSentences, Flatten, Strip, StripRight, IsSentence, Ended, Blank;
    var buf := st.buf + piece;
    var parts := SplitSentences(ws, buf);
    EmptyIsBlank(ws);
    BlankHasNoBreak(ws, "");
    SplitGivesSentences(ws, buf);
    if Blank(ws, buf) {
      BlankHasNoBreak(ws, buf);
      assert st.held + [] == st.held;
    } else {
      VisibleIsSome(ws, buf);
      LastIsWhole(ws, buf);
      if OpenEnded(ws, buf) {
        var front, last := parts[..|parts| - 1], parts[|parts| - 1];
        assert parts == front + [last];
        OpenFacts(ws, last);
        assert Flatten(st.slices) + (st.held + front) + [last] == Flatten(st.slices) + st.held + parts;
      } else {
        assert Flatten(st.slices) + (st.held + parts) + [] == Flatten(st.slices) + st.held + parts;
      }
    }
  }

  lemma {:induction false} PopSplits(ws: Spaces, st: Stream, final: bool)
    ensures InStep(ws, st) ==> InStep(ws, Pop(st, final))
    ensures SoFar(ws, Pop(st, final)) == SoFar(ws, st)
    ensures final ==> Pop(st, final).held == []
  {
    hide SplitSentences, Flatten, PopSlices, PopRest;
    var first := st.slices == [];
    PopKeeps(first, final, st.held);
    FlattenAppend(st.slices, PopSlices(first, final, st.held));
    AppendAssoc(Flatten(st.slices), Flatten(PopSlices(first, final, st.held)), PopRest(first, final, st.held));
  }

  /** The text of the stream: a delta follows an open sentence as it stands, without the space that came before
      it, and an ended one after a blank, whether or not there was space. */
  function StreamText(ws: Spaces, pieces: seq<string>): string {
    if pieces == [] then "" else AddPiece(ws, StreamText(ws, pieces[..|pieces| - 1]), pieces[|pieces| - 1])
  }

  function AddPiece(ws: Spaces, before: string, piece: string): string {
    if Strip(ws, piece) == "" then before
    else if before == "" then Joined(ws, piece)
    else before + (if Ended(before) then " " else Lead(ws, piece)) + Joined(ws, piece)
  }

  lemma {:induction false} BlankPiece(ws: Spaces, buf: string, piece: string)
    requires SENTENCE_ENDS !! ws && (Blank(ws, buf) || Open(ws, buf)) && Blank(ws, piece)
    ensures SplitSentences(ws, buf + piece) == SplitSentences(ws, buf)
  {
    hide SplitSentences, Strip;
    BlankHasNoBreak(ws, piece);
    if Blank(ws, buf) {
      BlankSum(ws, buf, piece);
      BlankHasNoBreak(ws, buf);
      BlankHasNoBreak(ws, buf + piece);
    } else {
      OpenFacts(ws, buf);
      NoBreakSum(ws, buf, piece);
      SplitUnbroken(ws, buf);
      SplitUnbroken(ws, buf + piece);
      StripBlankTail(ws, buf, piece);
    }
  }

  /** What a delta adds to the sentences so far. */
  lemma {:induction false} PieceAdds(ws: Spaces, done: seq<string>, buf: string, piece: string)
    requires SENTENCE_ENDS !! ws && Whole(ws, done) && (Blank(ws, buf) || Open(ws, buf))
    ensures Join(" ", done + SplitSentences(ws, buf + piece)) ==
            AddPiece(ws, Join(" ", done + SplitSentences(ws, buf)), piece)
  {
    hide SplitSentences, Join, Strip, Lead, Trail, Blank, IsSentence;
    StripBlank(ws, piece);
    if Blank(ws, piece) {
      BlankPiece(ws, buf, piece);
    } else {
      SplitOfVisible(ws, piece);
      if Blank(ws, buf) {
        BlankHasNoBreak(ws, buf);
        SplitBlankHead(ws, buf, piece);
        assert done + [] == done;
        if done == [] {
          NothingJoined();
          assert done + SplitSentences(ws, piece) == SplitSentences(ws, piece);
        } else {
          JoinTwo(done, SplitSentences(ws, piece));
          WholeEnds(ws, done);
        }
      } else {
        OpenAdds(ws, done, buf, piece);
      }
    }
  }

  lemma NothingJoined()
    ensures Join(" ", []) == ""
  {
  }

  lemma WholeEnds(ws: Spaces, done: seq<string>)
    requires Whole(ws, done) && done != []
    ensures Join(" ", done) != "" && Ended(Join(" ", done))
  {
    hide Join;
    assert done[|done| - 1] in done;
    JoinEnds(done);
  }

  lemma {:induction false} OpenAdds(ws: Spaces, done: seq<string>, buf: string, piece: string)
    requires SENTENCE_ENDS !! ws && Open(ws, buf) && !Blank(ws, piece)
    ensures Join(" ", done + SplitSentences(ws, buf + piece)) ==
            AddPiece(ws, Join(" ", done + SplitSentences(ws, buf)), piece)
  {
    hide SplitSentences, Join, Strip, Lead, Trail, Blank, IsSentence, StripRight;
    StripBlank(ws, piece);
    OpenFacts(ws, buf);
    JoinedSum(ws, buf, piece);
    assert "" + Lead(ws, piece) == Lead(ws, piece);
    JoinEnds(done + [buf]);
    assert !Ended(Join(" ", done + [buf]));
    if done == [] {
      assert done + [buf] == [buf] && done + SplitSentences(ws, buf + piece) == SplitSentences(ws, buf + piece);
      JoinOne(buf);
    } else {
      BlankSum(ws, buf, piece);
      SplitOfVisible(ws, buf + piece);
      JoinTwo(done, [buf]);
      JoinOne(buf);
      JoinTwo(done, SplitSentences(ws, buf + piece));
      PutBefore(Join(" ", done) + " ", buf, Lead(ws, piece), Joined(ws, piece));
    }
  }

  lemma {:induction false} AfterIs(ws: Spaces, pieces: seq<string>)
    requires SENTENCE_ENDS !! ws
    ensures InStep(ws, After(ws, pieces)) && Join(" ", SoFar(ws, After(ws, pieces))) == StreamText(ws, pieces)
    decreases |pieces|
  {
    hide SplitSentences, Join, Take, Pop, AddPiece, Flatten, Blank, IsSentence;
    if pieces == [] {
      NothingYet(ws);
      NothingJoined();
    } else {
      var front, last := pieces[..|pieces| - 1], pieces[|pieces| - 1];
      var st := After(ws, front);
      AfterIs(ws, front);
      TakeSplits(ws, st, last);
      PopSplits(ws, Take(ws, st, last), false);
      PieceAdds(ws, Flatten(st.slices) + st.held, st.buf, last);
    }
  }

  lemma NothingYet(ws: Spaces)
    requires SENTENCE_ENDS !! ws
    ensures InStep(ws, Stream("", [], [])) && SoFar(ws, Stream("", [], [])) == []
  {
    hide SplitSentences;
    BlankHasNoBreak(ws, "");
    assert Flatten<string>([]) == [];
  }

  /** The sentences that come out, with their order and nothing between them but the cuts into scripts. */
  function Sentences(ws: Spaces, pieces: seq<string>): seq<string> {
    Flatten(Finish(ws, After(ws, pieces)).slices)
  }

  lemma {:induction false} SentencesAreSoFar(ws: Spaces, pieces: seq<string>)
    requires SENTENCE_ENDS !! ws
    ensures Sentences(ws, pieces) == SoFar(ws, After(ws, pieces)) && SentenceList(ws, Sentences(ws, pieces))
  {
    hide SplitSentences, Join, Take, Pop, After, Flatten, Blank, Strip;
    AfterIs(ws, pieces);
    var st := After(ws, pieces);
    var last := if Strip(ws, st.buf) == "" then [] else [Strip(ws, st.buf)];
    StripBlank(ws, st.buf);
    if Blank(ws, st.buf) {
      BlankHasNoBreak(ws, st.buf);
    } else {
      OpenFacts(ws, st.buf);
      StripTrimmed(ws, st.buf);
    }
    assert last == SplitSentences(ws, st.buf);
    var st' := st.(buf := "", held := st.held + last);
    BlankHasNoBreak(ws, "") by { EmptyIsBlank(ws); }
    PopSplits(ws, st', true);
    PopBuffer(st', true);
    AppendAssoc(Flatten(st.slices), st.held, last);
    var done, out := Flatten(st.slices) + st.held, Flatten(Pop(st', true).slices);
    assert done + last + [] == done + last && out + [] + [] == out;
    forall i | 0 <= i < |done + last|
      ensures IsSentence(ws, (done + last)[i]) && (i < |done| ==> Ended((done + last)[i]))
    {
      if i < |done| {
        assert done[i] in done;
      }
    }
  }

  lemma PopBuffer(st: Stream, final: bool)
    ensures Pop(st, final).buf == st.buf
  {
  }

  /** However the text is cut into deltas: what comes out are the sentences of the stream's text, each but the
      last ended by its mark. */
  lemma {:induction false} StreamIsSplit(ws: Spaces, pieces: seq<string>)
    requires SENTENCE_ENDS !! ws && ' ' in ws
    ensures SentenceList(ws, Sentences(ws, pieces))
    ensures Join(" ", Sentences(ws, pieces)) == StreamText(ws, pieces)
    ensures Sentences(ws, pieces) == SplitSentences(ws, StreamText(ws, pieces))
  {
    hide SplitSentences, Join, After, Sentences, SoFar, StreamText, SentenceList;
    AfterIs(ws, pieces);
    SentencesAreSoFar(ws, pieces);
    SplitUndoesJoin(ws, Sentences(ws, pieces));
  }

  // --- which cuts leave the sentences alone ------------------------------------------------------

  /** A cut before which a sentence is open must come right after something visible, one before which it has
      ended must have space on one side; and any will do when nothing visible is before or in the delta. */
  predicate CleanCut(ws: Spaces, before: string, piece: string) {
    || Strip(ws, before) == "" || Strip(ws, piece) == ""
    || (if Ended(StripRight(ws, before)) then before[|before| - 1] in ws || piece[0] in ws
        else before[|before| - 1] !in ws)
  }

  lemma {:induction false} ConcatLast(pieces: seq<string>)
    requires pieces != []
    ensures Concat(pieces) == Concat(pieces[..|pieces| - 1]) + pieces[|pieces| - 1]
  {
    var front, last := pieces[..|pieces| - 1], pieces[|pieces| - 1];
    ConcatAppend(front, [last]);
    assert pieces == front + [last] && Concat([last]) == last + Concat([last][1..]);
  }

  /** A clean cut is one where the stream puts between the two texts what stands between them. */
  lemma {:induction false} CleanIsBetween(ws: Spaces, before: string, piece: string)
    requires SENTENCE_ENDS !! ws && !Blank(ws, before) && !Blank(ws, piece)
    ensures CleanCut(ws, before, piece) <==>
            Between(ws, before, piece) == if Ended(StripRight(ws, before)) then " " else Lead(ws, piece)
  {
    hide Strip, StripLeft, StripRight, Lead, Trail;
    StripBlank(ws, before);
    StripBlank(ws, piece);
    VisibleIsSome(ws, before);
    VisibleIsSome(ws, piece);
    TrailIs(ws, before);
    LeadIs(ws, piece);
    TrailOrNot(ws, before);
    LeadOrNot(ws, piece);
    var t, l := Trail(ws, before), Lead(ws, piece);
    assert t + l == l ==> |t + l| == |l|;
    assert t == "" ==> t + l == l;
  }

  lemma TrailOrNot(ws: Spaces, s: string)
    requires s != ""
    ensures Trail(ws, s) == "" <==> s[|s| - 1] !in ws
  {
  }

  lemma LeadOrNot(ws: Spaces, s: string)
    requires s != ""
    ensures Lead(ws, s) == "" <==> s[0] !in ws
  {
  }

  /** Two texts that end visibly are told apart with whatever space follows them. */
  lemma {:induction false} SameBefore(ws: Spaces, a: string, g: string, b: string, h: string, rest: string)
    requires EndsVisible(ws, a) && EndsVisible(ws, b) && Blank(ws, g) && Blank(ws, h)
    ensures a + g + rest == b + h + rest <==> a == b && g == h
  {
    if a + g + rest == b + h + rest {
      assert (a + g + rest)[..|a + g|] == a + g && (b + h + rest)[..|b + h|] == b + h;
      TrailUnique(ws, a, g);
      TrailUnique(ws, b, h);
    }
  }

  lemma {:induction false} BetweenIsBlank(ws: Spaces, before: string, piece: string)
    requires ' ' in ws
    ensures Blank(ws, Between(ws, before, piece)) && Blank(ws, Lead(ws, piece)) && Blank(ws, " ")
  {
    hide StripRight, Lead, Trail;
    TrailIs(ws, before);
    LeadIs(ws, piece);
    BlankSum(ws, Trail(ws, before), Lead(ws, piece));
  }

  /** What is before the delta is the same in the stream as in the text; it ends with the same character. */
  ghost predicate SameEnd(ws: Spaces, stream: string, text: string) {
    && (stream == "" <==> Blank(ws, text))
    && (stream != "" ==> EndsVisible(ws, stream) && (Ended(stream) <==> Ended(StripRight(ws, text))))
  }

  /** One delta keeps stream and text the same exactly when its cut is clean. */
  lemma {:induction false} PieceIsSame(ws: Spaces, stream: string, text: string, piece: string)
    requires SENTENCE_ENDS !! ws && ' ' in ws && SameEnd(ws, stream, text)
    ensures SameEnd(ws, AddPiece(ws, stream, piece), text + piece)
    ensures AddPiece(ws, stream, piece) == Joined(ws, text + piece) <==>
            stream == Joined(ws, text) && CleanCut(ws, text, piece)
  {
    hide Strip, StripLeft, StripRight, Lead, Trail, Blank, Joined, Between, CleanCut, EndsVisible, Ended;
    StripBlank(ws, piece);
    StripBlank(ws, text);
    BlankSum(ws, text, piece);
    if Blank(ws, piece) {
      JoinedBlankTail(ws, text, piece);
      AnyCutIsClean(ws, text, piece);
      if !Blank(ws, text) {
        TrailIs(ws, text);
        BlankSum(ws, Trail(ws, text), piece);
        AppendAssoc(StripRight(ws, text), Trail(ws, text), piece);
        TrailUnique(ws, StripRight(ws, text), Trail(ws, text) + piece);
      }
    } else {
      JoinedEnds(ws, piece);
      StripRightSum(ws, text, piece);
      if Blank(ws, text) {
        JoinedOfBlank(ws, text, piece);
        AnyCutIsClean(ws, text, piece);
        EndedLast(text, StripRight(ws, piece));
        EndedSame(ws, Joined(ws, piece), StripRight(ws, piece));
      } else {
        SumIsSame(ws, stream, text, piece);
      }
    }
  }

  lemma AnyCutIsClean(ws: Spaces, text: string, piece: string)
    requires Blank(ws, piece) || Blank(ws, text)
    ensures CleanCut(ws, text, piece)
  {
    StripBlank(ws, piece);
    StripBlank(ws, text);
  }

  lemma {:induction false} JoinedOfBlank(ws: Spaces, text: string, piece: string)
    requires SENTENCE_ENDS !! ws && Blank(ws, text)
    ensures Joined(ws, text) == "" && Joined(ws, text + piece) == Joined(ws, piece)
  {
    BlankHasNoBreak(ws, text);
    SplitBlankHead(ws, text, piece);
  }

  lemma EndedLast(a: string, b: string)
    ensures b != "" ==> (Ended(a + b) <==> Ended(b))
  {
  }

  lemma EndedSame(ws: Spaces, a: string, b: string)
    requires a != "" && b != "" && a[|a| - 1] == b[|b| - 1]
    ensures Ended(a) <==> Ended(b)
  {
  }

  lemma {:induction false} SumIsSame(ws: Spaces, stream: string, text: string, piece: string)
    requires SENTENCE_ENDS !! ws && ' ' in ws && SameEnd(ws, stream, text) && !Blank(ws, text) && !Blank(ws, piece)
    ensures SameEnd(ws, AddPiece(ws, stream, piece), text + piece)
    ensures AddPiece(ws, stream, piece) == Joined(ws, text + piece) <==>
            stream == Joined(ws, text) && CleanCut(ws, text, piece)
  {
    hide Strip, StripLeft, StripRight, Lead, Trail, Blank, Joined, Between, CleanCut, EndsVisible, Ended;
    StripBlank(ws, piece);
    BlankSum(ws, text, piece);
    JoinedSum(ws, text, piece);
    JoinedEnds(ws, text);
    JoinedEnds(ws, piece);
    BetweenIsBlank(ws, text, piece);
    CleanIsBetween(ws, text, piece);
    var gap := if Ended(stream) then " " else Lead(ws, piece);
    SameBefore(ws, stream, gap, Joined(ws, text), Between(ws, text, piece), Joined(ws, piece));
    EndsLater(ws, stream + gap, Joined(ws, piece));
    StripRightSum(ws, text, piece);
    EndedLast(stream + gap, Joined(ws, piece));
    EndedLast(text, StripRight(ws, piece));
    EndedSame(ws, Joined(ws, piece), StripRight(ws, piece));
  }

  lemma EndsLater(ws: Spaces, a: string, b: string)
    requires EndsVisible(ws, b)
    ensures EndsVisible(ws, a + b) && a + b != ""
  {
  }

  /** The cuts before each delta. */
  predicate CleanCuts(ws: Spaces, pieces: seq<string>) {
    forall k | 0 <= k < |pieces| :: CleanCut(ws, Concat(pieces[..k]), pieces[k])
  }

  lemma {:induction false} StreamIsSame(ws: Spaces, pieces: seq<string>)
    requires SENTENCE_ENDS !! ws && ' ' in ws
    ensures SameEnd(ws, StreamText(ws, pieces), Concat(pieces))
    ensures StreamText(ws, pieces) == Joined(ws, Concat(pieces)) <==> CleanCuts(ws, pieces)
    decreases |pieces|
  {
    hide Joined, CleanCut, SameEnd, AddPiece;
    if pieces == [] {
      assert SameEnd(ws, "", "") by { NothingIsSame(ws); }
      EmptyIsBlank(ws);
      assert "" + "" == "";
      JoinedOfBlank(ws, "", "");
    } else {
      var n := |pieces| - 1;
      var front := pieces[..n];
      StreamIsSame(ws, front);
      ConcatLast(pieces);
      PieceIsSame(ws, StreamText(ws, front), Concat(front), pieces[n]);
      CutsSplit(ws, pieces);
    }
  }

  lemma CutsSplit(ws: Spaces, pieces: seq<string>)
    requires pieces != []
    ensures var n := |pieces| - 1;
            CleanCuts(ws, pieces) <==>
            CleanCuts(ws, pieces[..n]) && CleanCut(ws, Concat(pieces[..n]), pieces[n])
  {
    hide CleanCut, Concat;
    var n := |pieces| - 1;
    forall k | 0 <= k < n ensures pieces[..n][..k] == pieces[..k] && pieces[..n][k] == pieces[k] {
    }
  }

  lemma NothingIsSame(ws: Spaces)
    ensures SameEnd(ws, "", "")
  {
  }

  /** The sentences that come out are those of the text if and only if every cut is clean. */
  lemma {:induction false} StreamIsFaithfulIff(ws: Spaces, pieces: seq<string>)
    requires SENTENCE_ENDS !! ws && ' ' in ws
    ensures Sentences(ws, pieces) == SplitSentences(ws, Concat(pieces)) <==> CleanCuts(ws, pieces)
  {
    hide SplitSentences, Join, Sentences, StreamText, CleanCuts, Concat;
    StreamIsSplit(ws, pieces);
    StreamIsSame(ws, pieces);
    SplitGivesSentences(ws, Concat(pieces));
    SplitUndoesJoin(ws, SplitSentences(ws, Concat(pieces)));
  }

  /** Two deltas that cut otherwise: the space before the second is lost, or a number's point ends a sentence. */
  lemma {:induction false} CutsCanShow()
    ensures Sentences({' '}, ["Hello ", "there."]) != SplitSentences({' '}, "Hello there.")
    ensures Sentences({' '}, ["It is 3.", "5 km."]) != SplitSentences({' '}, "It is 3.5 km.")
  {
    hide SplitSentences, Sentences, CleanCut;
    ShownBy("Hello ", "there.");
    ShownBy("It is 3.", "5 km.");
    assert "Hello " + "there." == "Hello there." && "It is 3." + "5 km." == "It is 3.5 km.";
  }

  lemma {:induction false} ShownBy(a: string, b: string)
    requires a != "" && b != "" && a[0] != ' ' && b[0] != ' '
    requires if a[|a| - 1] == ' ' then |a| > 1 && a[|a| - 2] != ' ' && a[|a| - 2] !in SENTENCE_ENDS else Ended(a)
    ensures Sentences({' '}, [a, b]) != SplitSentences({' '}, a + b)
  {
    hide SplitSentences, Sentences, CleanCut;
    StreamIsFaithfulIff({' '}, [a, b]);
    ConcatLast([a, b]);
    assert [a, b][..1] == [a] && Concat([a]) == a by { ConcatLast([a]); assert [a][..0] == [] && "" + a == a; }
    assert !CleanCut({' '}, a, b) by { Unclean(a, b); }
    assert !CleanCuts({' '}, [a, b]) by {
      assert [a, b][1] == b && !CleanCut({' '}, Concat([a, b][..1]), [a, b][1]);
    }
  }

  lemma {:induction false} Unclean(a: string, b: string)
    requires a != "" && b != "" && a[0] != ' ' && b[0] != ' '
    requires if a[|a| - 1] == ' ' then |a| > 1 && a[|a| - 2] != ' ' && a[|a| - 2] !in SENTENCE_ENDS else Ended(a)
    ensures !CleanCut({' '}, a, b)
  {
    hide Strip;
    var ws := {' '};
    assert a[0] in a && b[0] in b;
    StripBlank(ws, a);
    StripBlank(ws, b);
    if a[|a| - 1] == ' ' {
      var x := a[..|a| - 1];
      assert a == x + " " && EndsVisible(ws, x);
      TrailUnique(ws, x, " ");
    } else {
      NothingToStrip(ws, a);
    }
  }

  // --- another cut ------------------------------------------------------------------------------

  lemma {:induction false} SameFrom(ws: Spaces, a: seq<string>, b: seq<string>, more: seq<string>)
    requires StreamText(ws, a) == StreamText(ws, b)
    ensures StreamText(ws, a + more) == StreamText(ws, b + more)
    decreases |more|
  {
    hide AddPiece;
    if more == [] {
      assert a + more == a && b + more == b;
    } else {
      var n := |more| - 1;
      SameFrom(ws, a, b, more[..n]);
      assert (a + more)[..|a + more| - 1] == a + more[..n] && (b + more)[..|b + more| - 1] == b + more[..n];
    }
  }

  /** Cutting a delta in two after something visible that leaves a sentence open. */
  lemma {:induction false} TwoPieces(ws: Spaces, before: string, first: string, second: string)
    requires SENTENCE_ENDS !! ws && EndsVisible(ws, first) && !Ended(first)
    ensures AddPiece(ws, AddPiece(ws, before, first), second) == AddPiece(ws, before, first + second)
  {
    hide Strip, StripLeft, StripRight, Lead, Trail, Blank, Joined, Ended;
    EndIsVisible(ws, first);
    StripBlank(ws, first);
    StripBlank(ws, second);
    BlankSum(ws, first, second);
    StripBlank(ws, first + second);
    LeadOfSum(ws, first, second);
    JoinedEnds(ws, first);
    NothingToStrip(ws, first);
    EndedSame(ws, Joined(ws, first), first);
    var gap := if before == "" then "" else if Ended(before) then " " else Lead(ws, first);
    assert before == "" ==> before + gap + Joined(ws, first) == Joined(ws, first);
    EndedLast(before + gap, Joined(ws, first));
    if Blank(ws, second) {
      JoinedBlankTail(ws, first, second);
    } else {
      JoinedSum(ws, first, second);
      assert Between(ws, first, second) == Lead(ws, second) by { assert "" + Lead(ws, second) == Lead(ws, second); }
      PutBefore(before + gap, Joined(ws, first), Lead(ws, second), Joined(ws, second));
    }
  }

  lemma EndIsVisible(ws: Spaces, s: string)
    requires EndsVisible(ws, s)
    ensures !Blank(ws, s)
  {
    assert s[|s| - 1] in s;
  }

  /** Wherever such a cut is made, the sentences that come out stay the same. */
  lemma {:induction false} CutChangesNothing(ws: Spaces, before: seq<string>, first: string, second: string,
                                             after: seq<string>)
    requires SENTENCE_ENDS !! ws && ' ' in ws && EndsVisible(ws, first) && !Ended(first)
    ensures Sentences(ws, before + [first, second] + after) == Sentences(ws, before + [first + second] + after)
  {
    hide Sentences, SplitSentences, AddPiece;
    TwoPieces(ws, StreamText(ws, before), first, second);
    var two, one := before + [first, second], before + [first + second];
    assert two[..|two| - 1] == before + [first] && (before + [first])[..|before|] == before;
    assert one[..|one| - 1] == before;
    SameFrom(ws, two, one, after);
    StreamIsSplit(ws, two + after);
    StreamIsSplit(ws, one + after);
  }
}
