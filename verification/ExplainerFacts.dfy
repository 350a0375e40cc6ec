/** What sectioning does to paragraphs and words, and exactly which segments a script is parsed into. */
module ExplainerFacts {
  import opened Text
  import opened Explainer

  const BLANK_LINE: string := "\n\n"

  // --- paragraphs ------------------------------------------------------------------------

  predicate HasBlankLine(s: string) {
    exists i :: 0 <= i < |s| - 1 && s[i] == '\n' == s[i + 1]
  }

  /** What splitting at blank lines gives: joined by them it is the text, there is none within a paragraph, and
      each is taken as far to the left as it can be. */
  predicate SplitAtBlankLines(text: string, paras: seq<string>) {
    && paras != [] && Join(BLANK_LINE, paras) == text
    && (forall k | 0 <= k < |paras| :: !HasBlankLine(paras[k]))
    && (forall k | 0 <= k < |paras| - 1 :: paras[k] == "" || paras[k][|paras[k]| - 1] != '\n')
  }

  lemma {:induction false} LineMore(c: char, s: string)
    requires !HasBlankLine(s) && !(c == '\n' && s != "" && s[0] == '\n')
    ensures !HasBlankLine([c] + s)
  {
    forall i | 0 <= i < |[c] + s| - 1 ensures !(([c] + s)[i] == '\n' == ([c] + s)[i + 1]) {
      assert i > 0 ==> ([c] + s)[i] == s[i - 1] && ([c] + s)[i + 1] == s[i];
      assert i > 0 ==> !(s[i - 1] == '\n' == s[i]);
    }
  }

  /** The text starts as its first paragraph does, or, when that is empty, with the blank line after it. */
  lemma TextStarts(text: string, first: string, rest: seq<string>)
    requires text == if rest == [] then first else first + BLANK_LINE + Join(BLANK_LINE, rest)
    ensures first != "" ==> text != "" && text[0] == first[0]
    ensures first == "" && rest != [] ==> text != "" && text[0] == '\n'
  {
    hide Join;
  }

  lemma JoinMore(c: char, first: string, rest: seq<string>)
    ensures Join(BLANK_LINE, [[c] + first] + rest) == [c] + Join(BLANK_LINE, [first] + rest)
  {
    hide Join;
    JoinHead(BLANK_LINE, first, rest);
    JoinHead(BLANK_LINE, [c] + first, rest);
    AppendAssoc([c], first, BLANK_LINE);
    AppendAssoc([c], first + BLANK_LINE, Join(BLANK_LINE, rest));
  }

  lemma ElsewhereSame(x: string, y: string, rest: seq<string>)
    ensures forall k | 0 < k <= |rest| :: ([x] + rest)[k] == ([y] + rest)[k]
  {
  }

  /** A character more in front of the first paragraph. */
  lemma {:induction false} OneMore(c: char, text: string, first: string, rest: seq<string>)
    requires SplitAtBlankLines(text, [first] + rest) && !(c == '\n' && text != "" && text[0] == '\n')
    ensures SplitAtBlankLines([c] + text, [[c] + first] + rest)
  {
    hide Join, HasBlankLine;
    JoinHead(BLANK_LINE, first, rest);
    TextStarts(text, first, rest);
    JoinMore(c, first, rest);
    assert ([first] + rest)[0] == first;
    LineMore(c, first);
    ElsewhereSame(first, [c] + first, rest);
  }

  lemma {:induction false} ParagraphsAreExact(text: string)
    ensures SplitAtBlankLines(text, Paragraphs(text))
    decreases |text|
  {
    hide SplitAtBlankLines;
    if text == "" {
      assert SplitAtBlankLines("", [""]) by { NoParagraph(); }
    } else if |text| > 1 && text[0] == '\n' && text[1] == '\n' {
      ParagraphsAreExact(text[2..]);
      EmptyFirst(text[2..], Paragraphs(text[2..]));
      assert text == BLANK_LINE + text[2..];
    } else {
      ParagraphsAreExact(text[1..]);
      var paras := Paragraphs(text[1..]);
      assert paras == [paras[0]] + paras[1..];
      OneMore(text[0], text[1..], paras[0], paras[1..]);
      assert text == [text[0]] + text[1..];
    }
  }

  lemma NoParagraph()
    ensures SplitAtBlankLines("", [""])
  {
  }

  lemma {:induction false} EmptyFirst(text: string, paras: seq<string>)
    requires SplitAtBlankLines(text, paras)
    ensures SplitAtBlankLines(BLANK_LINE + text, [""] + paras)
  {
    hide Join, HasBlankLine;
    JoinHead(BLANK_LINE, "", paras);
    assert "" + BLANK_LINE + text == BLANK_LINE + text;
    NoLineFirst(paras);
    assert !HasBlankLine("") by { NoneInNothing(); }
  }

  lemma NoneInNothing()
    ensures !HasBlankLine("")
  {
  }

  lemma NoLineFirst(paras: seq<string>)
    ensures forall k | 0 < k < |[""] + paras| :: ([""] + paras)[k] == paras[k - 1]
  {
  }

  // --- words of the sections -----------------------------------------------------------------

  /** The paragraphs, those over the limit cut. */
  function CutParagraphs(limit: nat, paras: seq<string>): seq<string>
    requires limit > 0
  {
    if paras == [] then []
    else
      var para := paras[|paras| - 1];
      CutParagraphs(limit, paras[..|paras| - 1]) + Slices(limit, para) + [Residue(limit, para)]
  }

  lemma {:induction false} FlushWords(ws: Spaces, st: Sections)
    ensures WordsAll(ws, st.Flush()) == WordsAll(ws, st.out) + Words(ws, st.buf)
  {
    hide Words, WordsAll;
    NoWords(ws);
    WordsAllOne(ws, st.buf);
    if st.buf != "" {
      WordsAllAppend(ws, st.out, [st.buf]);
    }
  }

  lemma {:induction false} AddParagraphWords(ws: Spaces, limit: nat, st: Sections, para: string)
    requires limit > 0 && '\n' in ws
    ensures var st' := AddParagraph(limit, st, para);
            WordsAll(ws, st'.out) + Words(ws, st'.buf) ==
            WordsAll(ws, st.out) + Words(ws, st.buf) + WordsAll(ws, Slices(limit, para)) +
            Words(ws, Residue(limit, para))
  {
    hide Words, WordsAll, Slices, Residue;
    var rest := Residue(limit, para);
    NoWords(ws);
    WordsAllOne(ws, st.buf);
    if |para| > limit {
      FlushWords(ws, st);
      WordsAllAppend(ws, st.Flush(), Slices(limit, para));
    } else {
      NothingCut(limit, para);
      WordsAllOne(ws, "");
      if st.buf != "" {
        WordsAllAppend(ws, st.out, [st.buf]);
        WordsBetween(ws, st.buf, BLANK_LINE, para);
        AppendAssoc(WordsAll(ws, st.out), Words(ws, st.buf), Words(ws, para));
      }
    }
  }

  lemma NothingCut(limit: nat, para: string)
    requires 0 < limit && |para| <= limit
    ensures Slices(limit, para) == [] && Residue(limit, para) == para
  {
  }

  lemma {:induction false} AddParagraphsWords(ws: Spaces, limit: nat, paras: seq<string>)
    requires limit > 0 && '\n' in ws
    ensures var st := AddParagraphs(limit, paras);
            WordsAll(ws, st.out) + Words(ws, st.buf) == WordsAll(ws, CutParagraphs(limit, paras))
    decreases |paras|
  {
    hide Words, WordsAll, AddParagraph, Slices, Residue;
    NoWords(ws);
    WordsAllOne(ws, "");
    if paras != [] {
      var front, para := paras[..|paras| - 1], paras[|paras| - 1];
      AddParagraphsWords(ws, limit, front);
      AddParagraphWords(ws, limit, AddParagraphs(limit, front), para);
      var cut := CutParagraphs(limit, front);
      WordsAllAppend(ws, cut, Slices(limit, para));
      WordsAllAppend(ws, cut + Slices(limit, para), [Residue(limit, para)]);
      WordsAllOne(ws, Residue(limit, para));
    }
  }

  lemma {:induction false} NonBlankWords(ws: Spaces, chunks: seq<string>)
    ensures WordsAll(ws, NonBlank(ws, chunks)) == WordsAll(ws, chunks)
  {
    hide Strip, Words;
    if chunks != [] {
      var first, rest := chunks[0], chunks[1..];
      NonBlankWords(ws, rest);
      StripBlank(ws, first);
      WordsOfBlank(ws, first);
      assert ([first] + NonBlank(ws, rest))[1..] == NonBlank(ws, rest);
      assert [] + NonBlank(ws, rest) == NonBlank(ws, rest) && [] + WordsAll(ws, rest) == WordsAll(ws, rest);
    }
  }

  lemma {:induction false} UncutParagraphs(limit: nat, paras: seq<string>)
    requires limit > 0 && forall para | para in paras :: |para| <= limit
    ensures CutParagraphs(limit, paras) == paras
    decreases |paras|
  {
    if paras != [] {
      var front, para := paras[..|paras| - 1], paras[|paras| - 1];
      assert para in paras && forall p | p in front :: p in paras;
      UncutParagraphs(limit, front);
      assert front + [] + [para] == paras;
    }
  }

  /** The words of the sections, in order, are those of the paragraphs, the overlong ones cut; and when none is
      overlong those of the text: none is broken, and none glued to another. */
  lemma {:induction false} SectionsKeepWords(ws: Spaces, limit: nat, text: string)
    requires limit > 0 && '\n' in ws
    ensures WordsAll(ws, Sectioned(ws, limit, text)) == WordsAll(ws, CutParagraphs(limit, Paragraphs(text)))
    ensures (forall para | para in Paragraphs(text) :: |para| <= limit) ==>
              WordsAll(ws, Sectioned(ws, limit, text)) == Words(ws, text)
  {
    hide Words, WordsAll, NonBlank, AddParagraphs, CutParagraphs, Paragraphs;
    var paras := Paragraphs(text);
    AddParagraphsWords(ws, limit, paras);
    FlushWords(ws, AddParagraphs(limit, paras));
    NonBlankWords(ws, AddParagraphs(limit, paras).Flush());
    if forall para | para in paras :: |para| <= limit {
      UncutParagraphs(limit, paras);
      ParagraphsAreExact(text);
      WordsOfJoin(ws, BLANK_LINE, paras);
    }
  }

  // --- full sections -----------------------------------------------------------------------------

  /** The paragraphs in groups, each joined by blank lines and within the limit, and no group with room for the
      first paragraph of the next. */
  predicate FullGroups(limit: nat, groups: seq<seq<string>>) {
    && (forall k | 0 <= k < |groups| :: groups[k] != [] && |Join(BLANK_LINE, groups[k])| <= limit)
    && (forall k | 0 <= k < |groups| - 1 :: |Join(BLANK_LINE, groups[k])| + 2 + |groups[k + 1][0]| > limit)
  }

  function JoinedBy(sep: string, groups: seq<seq<string>>): seq<string> {
    seq(|groups|, k requires 0 <= k < |groups| => Join(sep, groups[k]))
  }

  /** The loop groups paragraphs that fit, as many as will go. */
  lemma {:induction false} ParagraphsAreGrouped(limit: nat, paras: seq<string>) returns (groups: seq<seq<string>>)
    requires limit > 0 && forall para | para in paras :: 0 < |para| <= limit
    ensures Flatten(groups) == paras && FullGroups(limit, groups)
    ensures AddParagraphs(limit, paras).Flush() == JoinedBy(BLANK_LINE, groups)
    ensures var buf := AddParagraphs(limit, paras).buf;
            (groups == [] <==> buf == "") && (groups != [] ==> Join(BLANK_LINE, groups[|groups| - 1]) == buf)
    decreases |paras|
  {
    hide Join, AddParagraph, FullGroups, JoinedBy, Flatten;
    if paras == [] {
      groups := [];
      NoGroups(limit);
    } else {
      var n := |paras| - 1;
      var front, para := paras[..n], paras[n];
      assert para in paras && forall p | p in front :: p in paras;
      assert paras == front + [para];
      var before := ParagraphsAreGrouped(limit, front);
      var st := AddParagraphs(limit, front);
      if before == [] || |st.buf| + 2 + |para| > limit {
        groups := before + [[para]];
        FlattenLast(before, [para]);
        NewGroup(limit, st, before, para);
      } else {
        var init, last := before[..|before| - 1], before[|before| - 1];
        assert before == init + [last];
        groups := init + [last + [para]];
        FlattenMore(init, last, para);
        SameGroup(limit, st, init, last, para);
      }
    }
  }

  lemma FlattenMore<T>(init: seq<seq<T>>, last: seq<T>, x: T)
    ensures Flatten(init + [last + [x]]) == Flatten(init + [last]) + [x]
  {
    FlattenLast(init, last);
    FlattenLast(init, last + [x]);
  }

  lemma NoGroups(limit: nat)
    ensures FullGroups(limit, []) && Flatten<string>([]) == [] && JoinedBy(BLANK_LINE, []) == []
  {
  }

  lemma {:induction false} NewGroup(limit: nat, st: Sections, before: seq<seq<string>>, para: string)
    requires limit > 0 && 0 < |para| <= limit && FullGroups(limit, before)
    requires st.Flush() == JoinedBy(BLANK_LINE, before) && (before == [] <==> st.buf == "")
    requires before != [] ==> Join(BLANK_LINE, before[|before| - 1]) == st.buf && |st.buf| + 2 + |para| > limit
    ensures var groups := before + [[para]];
            && FullGroups(limit, groups) && Join(BLANK_LINE, [para]) == para
            && AddParagraph(limit, st, para).Flush() == JoinedBy(BLANK_LINE, groups)
            && AddParagraph(limit, st, para).buf == para
  {
    hide Join, FullGroups, JoinedBy;
    NothingCut(limit, para);
    JoinHead(BLANK_LINE, para, []);
    assert [para] + [] == [para];
    FullWithAnother(limit, before, para);
    JoinedByLast(BLANK_LINE, before, [para]);
    assert st.out + [] == st.out;
  }

  lemma {:induction false} FullWithAnother(limit: nat, before: seq<seq<string>>, para: string)
    requires limit > 0 && 0 < |para| <= limit && FullGroups(limit, before) && Join(BLANK_LINE, [para]) == para
    requires before != [] ==> |Join(BLANK_LINE, before[|before| - 1])| + 2 + |para| > limit
    ensures FullGroups(limit, before + [[para]])
  {
    hide Join;
    var groups := before + [[para]];
    assert forall k | 0 <= k < |before| :: groups[k] == before[k];
  }

  lemma {:induction false} JoinedByLast(sep: string, groups: seq<seq<string>>, last: seq<string>)
    ensures JoinedBy(sep, groups + [last]) == JoinedBy(sep, groups) + [Join(sep, last)]
  {
    hide Join;
  }

  lemma {:induction false} SameGroup(limit: nat, st: Sections, init: seq<seq<string>>, last: seq<string>, para: string)
    requires limit > 0 && 0 < |para| <= limit && FullGroups(limit, init + [last])
    requires st.Flush() == JoinedBy(BLANK_LINE, init + [last]) && st.buf != ""
    requires Join(BLANK_LINE, last) == st.buf && |st.buf| + 2 + |para| <= limit
    ensures var groups := init + [last + [para]];
            && FullGroups(limit, groups) && Join(BLANK_LINE, last + [para]) == AddParagraph(limit, st, para).buf
            && AddParagraph(limit, st, para).Flush() == JoinedBy(BLANK_LINE, groups)
            && AddParagraph(limit, st, para).buf != ""
  {
    hide Join;
    NothingCut(limit, para);
    var before, groups := init + [last], init + [last + [para]];
    assert before[|init|] == last && groups[|init|] == last + [para];
    JoinLast(BLANK_LINE, last, para);
    assert forall k | 0 <= k < |init| :: groups[k] == before[k];
    hide JoinedBy;
    JoinedByLast(BLANK_LINE, init, last);
    JoinedByLast(BLANK_LINE, init, last + [para]);
    assert (JoinedBy(BLANK_LINE, init) + [st.buf])[..|init|] == JoinedBy(BLANK_LINE, init) by {
      assert |JoinedBy(BLANK_LINE, init)| == |init| by { JoinedBySize(BLANK_LINE, init); }
    }
    assert (st.out + [st.buf])[..|init|] == st.out;
    assert st.out + [] == st.out;
  }

  lemma JoinedBySize(sep: string, groups: seq<seq<string>>)
    ensures |JoinedBy(sep, groups)| == |groups|
  {
  }

  /** A text of paragraphs that are not blank and within the limit: its sections are those paragraphs in order,
      in groups, and no section has room for the first paragraph of the next. */
  lemma {:induction false} SectionsAreFull(ws: Spaces, limit: nat, text: string) returns (groups: seq<seq<string>>)
    requires limit > 0 && forall para | para in Paragraphs(text) :: |para| <= limit && !Blank(ws, para)
    ensures Flatten(groups) == Paragraphs(text) && FullGroups(limit, groups)
    ensures Sectioned(ws, limit, text) == JoinedBy(BLANK_LINE, groups)
  {
    hide Paragraphs, FullGroups, AddParagraphs, Join;
    var paras := Paragraphs(text);
    forall para | para in paras ensures 0 < |para| {
      assert para == "" ==> Blank(ws, para);
    }
    groups := ParagraphsAreGrouped(limit, paras);
    GroupsShow(ws, limit, paras, groups);
    NothingIsBlank(ws, JoinedBy(BLANK_LINE, groups));
  }

  lemma {:induction false} GroupsShow(ws: Spaces, limit: nat, paras: seq<string>, groups: seq<seq<string>>)
    requires Flatten(groups) == paras && FullGroups(limit, groups) && forall para | para in paras :: !Blank(ws, para)
    ensures forall k | 0 <= k < |groups| :: !Blank(ws, Join(BLANK_LINE, groups[k]))
  {
    hide Blank;
    forall k | 0 <= k < |groups| ensures !Blank(ws, Join(BLANK_LINE, groups[k])) {
      InFlatten(groups, k);
      assert groups[k][0] in paras;
      FirstShows(ws, groups[k]);
    }
  }

  lemma {:induction false} InFlatten<T>(groups: seq<seq<T>>, k: nat)
    requires k < |groups|
    ensures forall x | x in groups[k] :: x in Flatten(groups)
  {
    if k > 0 {
      InFlatten(groups[1..], k - 1);
    }
  }

  lemma FirstShows(ws: Spaces, group: seq<string>)
    requires group != [] && !Blank(ws, group[0])
    ensures !Blank(ws, Join(BLANK_LINE, group))
  {
    var c :| c in group[0] && c !in ws;
    assert c in Join(BLANK_LINE, group);
  }

  lemma {:induction false} NothingIsBlank(ws: Spaces, chunks: seq<string>)
    requires forall k | 0 <= k < |chunks| :: !Blank(ws, chunks[k])
    ensures NonBlank(ws, chunks) == chunks
  {
    hide Strip, Blank;
    if chunks != [] {
      StripBlank(ws, chunks[0]);
      NothingIsBlank(ws, chunks[1..]);
    }
  }

  // --- the parsed segments ----------------------------------------------------------------------

  /** The segment made of the text part at `k`, with the pause that follows it, if any. */
  function SegmentAt(ws: Spaces, digits: map<char, nat>, parts: seq<string>, k: nat): Segment
    requires k < |parts|
  {
    Segment(Strip(ws, parts[k]), if k + 1 < |parts| then Value(digits, parts[k + 1]) else 0)
  }

  /** The place holds text, not digits, and the text is not blank. */
  predicate Speaks(ws: Spaces, parts: seq<string>, k: nat) {
    k < |parts| && k % 2 == 0 && Strip(ws, parts[k]) != ""
  }

  /** The segments are those of the text parts that are not blank, in order. */
  ghost predicate Names(ws: Spaces, digits: map<char, nat>, parts: seq<string>, segments: seq<Segment>, ks: seq<nat>) {
    && |ks| == |segments|
    && (forall j | 0 <= j < |ks| :: Speaks(ws, parts, ks[j]) && segments[j] == SegmentAt(ws, digits, parts, ks[j]))
    && (forall i, j | 0 <= i < j < |ks| :: ks[i] < ks[j])
    && (forall k: nat | Speaks(ws, parts, k) :: k in ks)
  }

  /** A script is parsed into exactly one segment for each text between its markers that is not blank, with the
      pause of the marker that follows, or none after the last. */
  lemma {:induction false} ParseIsExact(ws: Spaces, digits: map<char, nat>, parts: seq<string>) returns (ks: seq<nat>)
    ensures Names(ws, digits, parts, ParseParts(ws, digits, parts), ks)
    decreases |parts|
  {
    hide Strip, Value, Names, ParseOne;
    if parts == [] {
      ks := [];
      assert Names(ws, digits, [], [], []) by { NamesNone(ws, digits); }
    } else {
      var rest := if |parts| <= 2 then [] else parts[2..];
      var later := ParseIsExact(ws, digits, rest);
      ks := seq(|later|, j requires 0 <= j < |later| => later[j] + 2);
      var segments := ParseParts(ws, digits, rest);
      NamesLater(ws, digits, parts, rest, segments, later, ks);
      ParseOneIs(ws, parts[0], if |parts| > 1 then Value(digits, parts[1]) else 0);
      if Strip(ws, parts[0]) == "" {
        NamesBlank(ws, digits, parts, segments, ks);
        assert [] + segments == segments;
      } else {
        NamesFirst(ws, digits, parts, segments, ks);
        ks := [0] + ks;
      }
    }
  }

  lemma NamesNone(ws: Spaces, digits: map<char, nat>)
    ensures Names(ws, digits, [], [], [])
  {
  }

  /** The segments of what comes after the first text and its marker. */
  ghost predicate NamesFrom(ws: Spaces, digits: map<char, nat>, parts: seq<string>, segments: seq<Segment>,
                            ks: seq<nat>) {
    && |ks| == |segments|
    && (forall j | 0 <= j < |ks| ::
          ks[j] > 0 && Speaks(ws, parts, ks[j]) && segments[j] == SegmentAt(ws, digits, parts, ks[j]))
    && (forall i, j | 0 <= i < j < |ks| :: ks[i] < ks[j])
    && (forall k: nat | k > 0 && Speaks(ws, parts, k) :: k in ks)
  }

  /** The parts after the first text and marker. */
  predicate Later(parts: seq<string>, rest: seq<string>) {
    parts != [] && rest == if |parts| <= 2 then [] else parts[2..]
  }

  lemma LaterSpeaks(ws: Spaces, digits: map<char, nat>, parts: seq<string>, rest: seq<string>, k: nat)
    requires Later(parts, rest)
    ensures Speaks(ws, rest, k) <==> Speaks(ws, parts, k + 2)
    ensures Speaks(ws, rest, k) ==>
              k < |rest| && SegmentAt(ws, digits, rest, k) == SegmentAt(ws, digits, parts, k + 2)
  {
    hide Strip, Value;
  }

  lemma SecondIsMarker(ws: Spaces, parts: seq<string>)
    ensures !Speaks(ws, parts, 1)
  {
    hide Strip;
  }

  lemma {:induction false} NamesLater(ws: Spaces, digits: map<char, nat>, parts: seq<string>, rest: seq<string>,
                                      segments: seq<Segment>, later: seq<nat>, ks: seq<nat>)
    requires Later(parts, rest) && Names(ws, digits, rest, segments, later)
    requires |ks| == |later| && forall j | 0 <= j < |later| :: ks[j] == later[j] + 2
    ensures NamesFrom(ws, digits, parts, segments, ks)
  {
    hide Speaks, SegmentAt, Later;
    forall j | 0 <= j < |ks| ensures ks[j] > 0 && Speaks(ws, parts, ks[j]) && ks[j] < |parts| &&
                                     segments[j] == SegmentAt(ws, digits, parts, ks[j])
    {
      LaterSpeaks(ws, digits, parts, rest, later[j]);
      WhereSpoken(ws, parts, ks[j]);
    }
    forall k: nat | k > 0 && Speaks(ws, parts, k) ensures k in ks {
      SecondIsMarker(ws, parts);
      if k >= 2 {
        LaterSpeaks(ws, digits, parts, rest, k - 2);
        var j :| 0 <= j < |later| && later[j] == k - 2;
        assert ks[j] == k;
      }
    }
  }

  lemma {:induction false} NamesBlank(ws: Spaces, digits: map<char, nat>, parts: seq<string>, segments: seq<Segment>,
                                      ks: seq<nat>)
    requires parts != [] && NamesFrom(ws, digits, parts, segments, ks) && Strip(ws, parts[0]) == ""
    ensures Names(ws, digits, parts, segments, ks)
  {
    hide Strip, Value, SegmentAt;
  }

  lemma {:induction false} NamesFirst(ws: Spaces, digits: map<char, nat>, parts: seq<string>, segments: seq<Segment>,
                                      ks: seq<nat>)
    requires parts != [] && NamesFrom(ws, digits, parts, segments, ks) && Strip(ws, parts[0]) != ""
    ensures Names(ws, digits, parts, [SegmentAt(ws, digits, parts, 0)] + segments, [0] + ks)
  {
    hide Strip, Value, SegmentAt, Speaks, NamesFrom;
    var all, segs := [0] + ks, [SegmentAt(ws, digits, parts, 0)] + segments;
    FirstSpeaks(ws, parts);
    SizesAgree(ws, digits, parts, segments, ks);
    forall j | 0 <= j < |all| ensures Speaks(ws, parts, all[j]) && all[j] < |parts| &&
                                      segs[j] == SegmentAt(ws, digits, parts, all[j])
    {
      if j > 0 {
        assert all[j] == ks[j - 1] && segs[j] == segments[j - 1];
        NamesOne(ws, digits, parts, segments, ks, j - 1);
        WhereSpoken(ws, parts, all[j]);
      }
    }
    forall i, j | 0 <= i < j < |all| ensures all[i] < all[j] {
      assert all[j] == ks[j - 1] && (i > 0 ==> all[i] == ks[i - 1]);
      NamesInOrder(ws, digits, parts, segments, ks, i, j);
    }
    forall k: nat | Speaks(ws, parts, k) ensures k in all {
      NamesEach(ws, digits, parts, segments, ks, k);
    }
  }

  lemma SizesAgree(ws: Spaces, digits: map<char, nat>, parts: seq<string>, segments: seq<Segment>, ks: seq<nat>)
    requires parts != [] && NamesFrom(ws, digits, parts, segments, ks)
    ensures |ks| == |segments|
  {
  }

  lemma NamesOne(ws: Spaces, digits: map<char, nat>, parts: seq<string>, segments: seq<Segment>, ks: seq<nat>, j: nat)
    requires parts != [] && NamesFrom(ws, digits, parts, segments, ks) && j < |ks|
    ensures |ks| == |segments| && ks[j] > 0 && Speaks(ws, parts, ks[j])
    ensures segments[j] == SegmentAt(ws, digits, parts, ks[j])
  {
    hide SegmentAt;
  }

  lemma NamesInOrder(ws: Spaces, digits: map<char, nat>, parts: seq<string>, segments: seq<Segment>, ks: seq<nat>,
                     i: nat, j: nat)
    requires parts != [] && NamesFrom(ws, digits, parts, segments, ks) && i < j <= |ks|
    ensures if i == 0 then ks[j - 1] > 0 else ks[i - 1] < ks[j - 1]
  {
    hide Speaks, SegmentAt;
  }

  lemma NamesEach(ws: Spaces, digits: map<char, nat>, parts: seq<string>, segments: seq<Segment>, ks: seq<nat>, k: nat)
    requires parts != [] && NamesFrom(ws, digits, parts, segments, ks) && Speaks(ws, parts, k)
    ensures k == 0 || k in ks
  {
    hide Speaks, SegmentAt;
  }

  lemma FirstSpeaks(ws: Spaces, parts: seq<string>)
    requires parts != [] && Strip(ws, parts[0]) != ""
    ensures Speaks(ws, parts, 0)
  {
  }

  lemma WhereSpoken(ws: Spaces, parts: seq<string>, k: nat)
    requires Speaks(ws, parts, k)
    ensures k < |parts|
  {
  }
}
