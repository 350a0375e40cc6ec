/** Sectioning of the source text and parsing of the pause-marked script:
    `src/narrator/processors/explainer.py`. */
module Explainer {
  import opened Text

  // --- sectionize ------------------------------------------------------------------

  /** Python's `text.split("\n\n")`. */
  function Paragraphs(text: string): (paras: seq<string>)
    ensures paras != []
  {
    if text == "" then [""]
    else if |text| > 1 && text[0] == '\n' && text[1] == '\n' then [""] + Paragraphs(text[2..])
    else [[text[0]] + Paragraphs(text[1..])[0]] + Paragraphs(text[1..])[1..]
  }

  /** The loop's variables. */
  datatype Sections = Sections(out: seq<string>, buf: string) {
    function Flush(): seq<string> {
      if buf == "" then out else out + [buf]
    }
  }

  /** A paragraph over the limit is cut after the buffer is emptied; the rest joins the buffer if it fits. */
  function AddParagraph(limit: nat, st: Sections, para: string): Sections
    requires limit > 0
  {
    var cut := if |para| > limit then Sections(st.Flush() + Slices(limit, para), "") else st;
    var rest := Residue(limit, para);
    if cut.buf == "" then Sections(cut.out, rest)
    else if |cut.buf| + 2 + |rest| > limit then Sections(cut.out + [cut.buf], rest)
    else Sections(cut.out, cut.buf + "\n\n" + rest)
  }

  function AddParagraphs(limit: nat, paras: seq<string>): Sections
    requires limit > 0
  {
    if paras == [] then Sections([], "")
    else AddParagraph(limit, AddParagraphs(limit, paras[..|paras| - 1]), paras[|paras| - 1])
  }

  function Sectioned(ws: Spaces, limit: nat, text: string): seq<string>
    requires limit > 0
  {
    NonBlank(ws, AddParagraphs(limit, Paragraphs(text)).Flush())
  }

  method Sectionize(ws: Spaces, limit: nat, text: string) returns (sections: seq<string>)
    requires limit > 0
    ensures sections == Sectioned(ws, limit, text)
  {
    hide AddParagraph, NonBlank, Paragraphs;
    var paras := Paragraphs(text);
    var out, buf := [], "";
    for k := 0 to |paras|
      invariant Sections(out, buf) == AddParagraphs(limit, paras[..k])
    {
      assert paras[..k + 1][..k] == paras[..k];
      out, buf := SectionParagraph(limit, out, buf, paras[k]);
    }
    assert paras[..|paras|] == paras;
    if buf != "" {
      out := out + [buf];
    }
    sections := NonBlank(ws, out);
  }

  /** One turn of the loop. */
  method SectionParagraph(limit: nat, out0: seq<string>, buf0: string, para0: string)
    returns (out: seq<string>, buf: string)
    requires limit > 0
    ensures Sections(out, buf) == AddParagraph(limit, Sections(out0, buf0), para0)
  {
    out, buf := out0, buf0;
    var para := para0;
    ghost var flushed := if |para0| > limit then Sections(out0, buf0).Flush() else out0;
    while |para| > limit
      invariant Residue(limit, para) == Residue(limit, para0)
      invariant if |para0| <= limit then para == para0 && out == out0 && buf == buf0
                else if para == para0 then out == out0 && buf == buf0
                else buf == "" && flushed + Slices(limit, para0) == out + Slices(limit, para)
    {
      if buf != "" {
        out := out + [buf];
        buf := "";
      }
      AppendAssoc(out, [para[..limit]], Slices(limit, para[limit..]));
      out := out + [para[..limit]];
      para := para[limit..];
    }
    if buf == "" {
      buf := para;
    } else if |buf| + 2 + |para| > limit {
      out := out + [buf];
      buf := para;
    } else {
      buf := buf + "\n\n" + para;
    }
  }

  /** What the sections show is what the text shows, and none is over the limit. */
  ghost predicate GoodSections(ws: Spaces, limit: nat, st: Sections, shown: string) {
    && Bounded(limit, st.out) && |st.buf| <= limit
    && VisibleAll(ws, st.out) + Visible(ws, st.buf) == shown
  }

  lemma {:induction false} FlushSections(ws: Spaces, limit: nat, st: Sections, shown: string)
    requires GoodSections(ws, limit, st, shown)
    ensures Bounded(limit, st.Flush()) && VisibleAll(ws, st.Flush()) == shown
    ensures GoodSections(ws, limit, Sections(st.Flush(), ""), shown)
  {
    hide Visible, VisibleAll;
    BlankIsInvisible(ws, "");
    if st.buf != "" {
      VisibleAllAppend(ws, st.out, [st.buf]);
      VisibleAllCons(ws, st.buf, []);
      VisibleAllIsConcat(ws, []);
      BlankIsInvisible(ws, Concat([]));
      assert [st.buf] + [] == [st.buf];
    }
  }

  lemma {:induction false} AddSlices(ws: Spaces, limit: nat, st: Sections, shown: string, para: string)
    requires limit > 0 && st.buf == "" && GoodSections(ws, limit, st, shown)
    ensures GoodSections(ws, limit, Sections(st.out + Slices(limit, para), Residue(limit, para)),
                         shown + Visible(ws, para))
  {
    hide Visible, VisibleAll, Slices, Residue;
    BlankIsInvisible(ws, "");
    SlicesBounded(limit, para);
    SlicesVisible(ws, limit, para);
    VisibleAllAppend(ws, st.out, Slices(limit, para));
    AppendAssoc(VisibleAll(ws, st.out), VisibleAll(ws, Slices(limit, para)), Visible(ws, Residue(limit, para)));
  }

  lemma {:induction false} AddParagraphGood(ws: Spaces, limit: nat, st: Sections, shown: string, para: string)
    requires limit > 0 && '\n' in ws && GoodSections(ws, limit, st, shown)
    ensures GoodSections(ws, limit, AddParagraph(limit, st, para), shown + Visible(ws, para))
  {
    hide Visible, VisibleAll;
    if |para| > limit {
      FlushSections(ws, limit, st, shown);
      AddSlices(ws, limit, Sections(st.Flush(), ""), shown, para);
    } else if st.buf == "" {
      AddSlices(ws, limit, st, shown, para);
      assert st.out + [] == st.out;
    } else if |st.buf| + 2 + |para| > limit {
      FlushSections(ws, limit, st, shown);
      AddSlices(ws, limit, Sections(st.Flush(), ""), shown, para);
      assert st.Flush() + [] == st.Flush();
    } else {
      VisibleBetween(ws, st.buf, "\n\n", para);
      AppendAssoc(VisibleAll(ws, st.out), Visible(ws, st.buf), Visible(ws, para));
    }
  }

  lemma {:induction false} AddParagraphsGood(ws: Spaces, limit: nat, paras: seq<string>)
    requires limit > 0 && '\n' in ws
    ensures GoodSections(ws, limit, AddParagraphs(limit, paras), VisibleAll(ws, paras))
    decreases |paras|
  {
    hide AddParagraph, Visible;
    if paras == [] {
      BlankIsInvisible(ws, "");
    } else {
      var front, last := paras[..|paras| - 1], paras[|paras| - 1];
      AddParagraphsGood(ws, limit, front);
      AddParagraphGood(ws, limit, AddParagraphs(limit, front), VisibleAll(ws, front), last);
      LastVisible(ws, paras);
    }
  }

  lemma {:induction false} ParagraphsShow(ws: Spaces, text: string)
    requires '\n' in ws
    ensures VisibleAll(ws, Paragraphs(text)) == Visible(ws, text)
    decreases |text|
  {
    if text == "" {
      VisibleAllCons(ws, "", []);
      assert [""] + [] == [""];
    } else if |text| > 1 && text[0] == '\n' && text[1] == '\n' {
      ParagraphsShow(ws, text[2..]);
      VisibleAllCons(ws, "", Paragraphs(text[2..]));
      assert text[1..][1..] == text[2..];
    } else {
      var rest := Paragraphs(text[1..]);
      ParagraphsShow(ws, text[1..]);
      ConsFirst(ws, text[0], rest);
    }
  }

  lemma {:induction false} ConsFirst(ws: Spaces, c: char, rest: seq<string>)
    requires rest != []
    ensures VisibleAll(ws, [[c] + rest[0]] + rest[1..]) == (if c in ws then "" else [c]) + VisibleAll(ws, rest)
  {
    VisibleAllCons(ws, [c] + rest[0], rest[1..]);
    assert ([c] + rest[0])[1..] == rest[0];
    AppendAssoc(if c in ws then "" else [c], Visible(ws, rest[0]), VisibleAll(ws, rest[1..]));
  }

  lemma {:induction false} NonBlankShows(ws: Spaces, limit: nat, chunks: seq<string>)
    requires Bounded(limit, chunks)
    ensures VisibleAll(ws, NonBlank(ws, chunks)) == VisibleAll(ws, chunks)
    ensures forall chunk | chunk in NonBlank(ws, chunks) :: |chunk| <= limit && !Blank(ws, chunk)
  {
    hide Strip, Visible;
    if chunks != [] {
      var first, rest := chunks[0], chunks[1..];
      assert first in chunks && forall chunk | chunk in rest :: chunk in chunks;
      NonBlankShows(ws, limit, rest);
      StripBlank(ws, first);
      VisibleAllCons(ws, first, NonBlank(ws, rest));
      assert [] + NonBlank(ws, rest) == NonBlank(ws, rest);
    }
  }

  /** For every text and positive limit: no section is blank or over the limit, and read in order the
      sections show exactly what the text shows, whatever the length of its paragraphs. */
  lemma {:induction false} SectionsAreGood(ws: Spaces, limit: nat, text: string)
    requires limit > 0 && '\n' in ws
    ensures forall section | section in Sectioned(ws, limit, text) :: |section| <= limit && !Blank(ws, section)
    ensures VisibleAll(ws, Sectioned(ws, limit, text)) == Visible(ws, text)
  {
    hide NonBlank, AddParagraphs, Paragraphs, Visible, VisibleAll;
    var st := AddParagraphs(limit, Paragraphs(text));
    AddParagraphsGood(ws, limit, Paragraphs(text));
    ParagraphsShow(ws, text);
    FlushSections(ws, limit, st, Visible(ws, text));
    NonBlankShows(ws, limit, st.Flush());
  }

  // --- _parse_script ------------------------------------------------------------------

  /** The decimal digits and their values. The ten ASCII ones are among them; brackets are not. */
  ghost predicate IsDigits(digits: map<char, nat>) {
    && '[' !in digits && ']' !in digits
    && forall k: nat {:trigger DIGITS[k]} | k < 10 :: DIGITS[k] in digits && digits[DIGITS[k]] == k
  }

  const DIGITS: string := "0123456789"
  const MARK: string := "[pause:"

  function Value(digits: map<char, nat>, s: string): nat {
    if s == "" then 0
    else Value(digits, s[..|s| - 1]) * 10 + if s[|s| - 1] in digits then digits[s[|s| - 1]] else 0
  }

  function DigitsEnd(digits: map<char, nat>, s: string, i: nat): (j: nat)
    requires i <= |s|
    ensures i <= j <= |s|
    ensures forall k | i <= k < j :: s[k] in digits
    ensures j < |s| ==> s[j] !in digits
    decreases |s| - i
  {
    if i < |s| && s[i] in digits then DigitsEnd(digits, s, i + 1) else i
  }

  /** A whole marker `[pause:ms]` starts at `i`. */
  predicate MarkerAt(digits: map<char, nat>, s: string, i: nat) {
    && i + |MARK| <= |s| && s[i..i + |MARK|] == MARK
    && var j := DigitsEnd(digits, s, i + |MARK|); i + |MARK| < j < |s| && s[j] == ']'
  }

  function FirstMarker(digits: map<char, nat>, s: string, i: nat): (r: nat)
    requires i <= |s|
    ensures i <= r <= |s|
    ensures r < |s| ==> MarkerAt(digits, s, r)
    ensures forall k: nat | i <= k < r :: !MarkerAt(digits, s, k)
    decreases |s| - i
  {
    if i == |s| || MarkerAt(digits, s, i) then i else FirstMarker(digits, s, i + 1)
  }

  /** What the marker expression splits a text into: text, digits, text, digits, ..., text. */
  function SplitMarkers(digits: map<char, nat>, s: string): (parts: seq<string>)
    ensures |parts| % 2 == 1
    decreases |s|
  {
    var i := FirstMarker(digits, s, 0);
    if i == |s| then [s]
    else
      var j := DigitsEnd(digits, s, i + |MARK|);
      [s[..i], s[i + |MARK|..j]] + SplitMarkers(digits, s[j + 1..])
  }

  function ParseParts(ws: Spaces, digits: map<char, nat>, parts: seq<string>): seq<Segment> {
    if parts == [] then []
    else ParseOne(ws, parts[0], if |parts| > 1 then Value(digits, parts[1]) else 0) +
         if |parts| <= 2 then [] else ParseParts(ws, digits, parts[2..])
  }

  function ParseOne(ws: Spaces, raw: string, pause: int): seq<Segment> {
    if Strip(ws, raw) == "" then [] else [Segment(Strip(ws, raw), pause)]
  }

  method ParseScript(ws: Spaces, digits: map<char, nat>, text: string) returns (segments: seq<Segment>)
    ensures segments == ParseParts(ws, digits, SplitMarkers(digits, text))
  {
    hide Strip, SplitMarkers, Value, ParseOne;
    var parts := SplitMarkers(digits, text);
    segments := [];
    var i := 0;
    while i < |parts|
      invariant i <= |parts| + 1
      invariant segments + ParseFrom(ws, digits, parts, i) == ParseParts(ws, digits, parts)
    {
      var chunk := Strip(ws, parts[i]);
      var pause := if i + 1 < |parts| then Value(digits, parts[i + 1]) else 0;
      ParseStep(ws, digits, parts, i);
      AppendAssoc(segments, ParseOne(ws, parts[i], pause), ParseFrom(ws, digits, parts, i + 2));
      ghost var before := segments;
      if chunk != "" {
        segments := segments + [Segment(chunk, pause)];
      }
      assert segments == before + ParseOne(ws, parts[i], pause) by { ParseOneIs(ws, parts[i], pause); }
      i := i + 2;
    }
  }

  function ParseFrom(ws: Spaces, digits: map<char, nat>, parts: seq<string>, i: nat): seq<Segment> {
    if i >= |parts| then [] else ParseParts(ws, digits, parts[i..])
  }

  lemma {:induction false} ParseOneIs(ws: Spaces, raw: string, pause: int)
    ensures ParseOne(ws, raw, pause) == if Strip(ws, raw) == "" then [] else [Segment(Strip(ws, raw), pause)]
  {
  }

  lemma {:induction false} ParseStep(ws: Spaces, digits: map<char, nat>, parts: seq<string>, i: nat)
    requires i < |parts|
    ensures ParseFrom(ws, digits, parts, i) ==
            ParseOne(ws, parts[i], if i + 1 < |parts| then Value(digits, parts[i + 1]) else 0) +
            ParseFrom(ws, digits, parts, i + 2)
  {
    hide ParseOne, Value;
    var now := parts[i..];
    if i + 2 <= |parts| {
      assert now[2..] == parts[i + 2..];
    }
  }

  // --- printing, and the round trip ---------------------------------------------------------

  function Decimal(n: nat): string {
    if n < 10 then [DIGITS[n]] else Decimal(n / 10) + [DIGITS[n % 10]]
  }

  function Print(segments: seq<Segment>): string
    requires forall seg | seg in segments :: seg.pause >= 0
  {
    if segments == [] then ""
    else segments[0].text + (MARK + Decimal(segments[0].pause) + "]") + Print(segments[1..])
  }

  lemma {:induction false} DecimalValue(digits: map<char, nat>, n: nat)
    requires IsDigits(digits)
    ensures Decimal(n) != "" && (forall c | c in Decimal(n) :: c in digits) && Value(digits, Decimal(n)) == n
  {
    if n < 10 {
      assert Decimal(n)[..0] == "" && Value(digits, "") == 0;
      assert DIGITS[n] in digits;
    } else {
      DecimalValue(digits, n / 10);
      assert DIGITS[n % 10] in digits;
      var front := Decimal(n / 10);
      assert Decimal(n)[..|Decimal(n)| - 1] == front;
    }
  }

  lemma {:induction false} DigitsEndIs(digits: map<char, nat>, s: string, i: nat, j: nat)
    requires i <= j < |s| && (forall k | i <= k < j :: s[k] in digits) && s[j] !in digits
    ensures DigitsEnd(digits, s, i) == j
    decreases j - i
  {
    if i < j {
      DigitsEndIs(digits, s, i + 1, j);
    }
  }

  /** A marker that starts inside a text followed by a bracket lies inside that text. */
  lemma {:induction false} MarkerInside(digits: map<char, nat>, text: string, rest: string, i: nat)
    requires IsDigits(digits) && i < |text| && rest != "" && rest[0] == '['
    requires MarkerAt(digits, text + rest, i)
    ensures MarkerAt(digits, text, i)
  {
    var s := text + rest;
    var j := DigitsEnd(digits, s, i + |MARK|);
    assert s[|text|] == '[';
    forall k | i < k <= j ensures s[k] != '[' {
      if k < i + |MARK| {
        assert s[k] == s[i..i + |MARK|][k - i];
      }
    }
    assert j < |text|;
    assert forall k | i <= k <= j :: text[k] == s[k];
    assert text[i..i + |MARK|] == s[i..i + |MARK|];
    DigitsEndIs(digits, text, i + |MARK|, j);
  }

  predicate MarkerFree(digits: map<char, nat>, text: string) {
    forall i: nat | i < |text| :: !MarkerAt(digits, text, i)
  }

  lemma {:induction false} MarkerFollows(digits: map<char, nat>, text: string, ms: string, rest: string)
    requires IsDigits(digits) && MarkerFree(digits, text)
    requires ms != "" && forall c | c in ms :: c in digits
    ensures var s := text + (MARK + ms + "]") + rest;
            && FirstMarker(digits, s, 0) == |text| && |text| < |s|
            && DigitsEnd(digits, s, |text| + |MARK|) == |text| + |MARK| + |ms|
  {
    var tail := MARK + ms + "]" + rest;
    var s := text + (MARK + ms + "]") + rest;
    assert s == text + tail;
    var j := |text| + |MARK| + |ms|;
    assert s[|text|..|text| + |MARK|] == MARK;
    assert forall k | |text| + |MARK| <= k < j :: s[k] == ms[k - |text| - |MARK|];
    assert s[j] == ']';
    DigitsEndIs(digits, s, |text| + |MARK|, j);
    assert MarkerAt(digits, s, |text|);
    var r := FirstMarker(digits, s, 0);
    if r < |text| {
      MarkerInside(digits, text, tail, r);
    }
  }

  /** The parts put together again, with the markers between them. */
  function Rejoined(parts: seq<string>): string {
    if |parts| < 2 then Join("", parts)
    else parts[0] + (MARK + parts[1] + "]") + Rejoined(parts[2..])
  }

  /** Text without a marker and the digits of one, in turn. */
  predicate Alternate(digits: map<char, nat>, parts: seq<string>) {
    && parts != [] && MarkerFree(digits, parts[0])
    && (|parts| > 1 ==>
          parts[1] != "" && (forall c | c in parts[1] :: c in digits) && Alternate(digits, parts[2..]))
  }

  /** The marker expression takes the text apart at its markers and nowhere else, and loses nothing. */
  lemma {:induction false} SplitMarkersAlternates(digits: map<char, nat>, s: string)
    ensures Alternate(digits, SplitMarkers(digits, s)) && Rejoined(SplitMarkers(digits, s)) == s
    decreases |s|
  {
    hide FirstMarker, DigitsEnd, MarkerFree, Alternate, Rejoined;
    var i := FirstMarker(digits, s, 0);
    MarkerFreeBefore(digits, s, i);
    if i == |s| {
      assert s[..i] == s;
      AlternateOne(digits, s);
    } else {
      var j := DigitsEnd(digits, s, i + |MARK|);
      SplitMarkersAlternates(digits, s[j + 1..]);
      AlternateMore(digits, s[..i], s[i + |MARK|..j], SplitMarkers(digits, s[j + 1..]));
      CutApart(s, i, j);
    }
  }

  lemma AlternateOne(digits: map<char, nat>, text: string)
    requires MarkerFree(digits, text)
    ensures Alternate(digits, [text]) && Rejoined([text]) == text
  {
    hide MarkerFree;
  }

  lemma {:induction false} AlternateMore(digits: map<char, nat>, text: string, ms: string, rest: seq<string>)
    requires MarkerFree(digits, text) && ms != "" && (forall c | c in ms :: c in digits) && Alternate(digits, rest)
    ensures Alternate(digits, [text, ms] + rest)
    ensures Rejoined([text, ms] + rest) == text + (MARK + ms + "]") + Rejoined(rest)
  {
    hide MarkerFree;
    assert ([text, ms] + rest)[2..] == rest;
  }

  lemma CutApart(s: string, i: nat, j: nat)
    requires i + |MARK| <= j < |s| && s[i..i + |MARK|] == MARK && s[j] == ']'
    ensures s == s[..i] + (MARK + s[i + |MARK|..j] + "]") + s[j + 1..]
  {
    assert s[j..j + 1] == "]";
  }

  lemma {:induction false} MarkerFreeBefore(digits: map<char, nat>, s: string, i: nat)
    requires i <= |s| && forall k: nat | k < i :: !MarkerAt(digits, s, k)
    ensures MarkerFree(digits, s[..i])
  {
    hide MarkerAt;
    forall k: nat | k < i ensures !MarkerAt(digits, s[..i], k) {
      MarkerLater(digits, s, i, k);
    }
  }

  /** A marker in a front part of the text is one in the text. */
  lemma {:induction false} MarkerLater(digits: map<char, nat>, s: string, i: nat, k: nat)
    requires k < i <= |s|
    ensures MarkerAt(digits, s[..i], k) ==> MarkerAt(digits, s, k)
  {
    hide DigitsEnd;
    if MarkerAt(digits, s[..i], k) {
      DigitsEndIs(digits, s, k + |MARK|, DigitsEnd(digits, s[..i], k + |MARK|));
      assert s[..i][k..k + |MARK|] == s[k..k + |MARK|];
    }
  }

  ghost predicate Printable(ws: Spaces, digits: map<char, nat>, segments: seq<Segment>) {
    forall seg | seg in segments ::
      seg.pause >= 0 && seg.text != "" && Trimmed(ws, seg.text) && MarkerFree(digits, seg.text)
  }

  lemma {:induction false} SplitPrint(ws: Spaces, digits: map<char, nat>, seg: Segment, rest: string)
    requires IsDigits(digits) && Printable(ws, digits, [seg])
    ensures SplitMarkers(digits, seg.text + (MARK + Decimal(seg.pause) + "]") + rest) ==
            [seg.text, Decimal(seg.pause)] + SplitMarkers(digits, rest)
  {
    hide Decimal, IsDigits, MarkerFree, FirstMarker, DigitsEnd;
    assert seg in [seg];
    DecimalValue(digits, seg.pause);
    var ms := Decimal(seg.pause);
    MarkerFollows(digits, seg.text, ms, rest);
    CutMarker(seg.text, ms, rest);
  }

  lemma {:induction false} CutMarker(text: string, ms: string, rest: string)
    ensures var s := text + (MARK + ms + "]") + rest;
            var i, j := |text| + |MARK|, |text| + |MARK| + |ms|;
            s[..|text|] == text && s[i..j] == ms && s[j + 1..] == rest
  {
  }

  /** Printing a list of segments and parsing the result gives the list back. */
  lemma {:induction false} ParsePrint(ws: Spaces, digits: map<char, nat>, segments: seq<Segment>)
    requires IsDigits(digits) && Printable(ws, digits, segments)
    ensures ParseParts(ws, digits, SplitMarkers(digits, Print(segments))) == segments
  {
    hide Strip, Decimal, IsDigits, SplitMarkers, ParseParts, ParseOne, Value, MarkerFree;
    if segments == [] {
      ParseNothing(ws, digits);
    } else {
      var seg, later := segments[0], segments[1..];
      assert seg in segments && forall s | s in later :: s in segments;
      ParsePrint(ws, digits, later);
      SplitPrint(ws, digits, seg, Print(later));
      StripTrimmed(ws, seg.text);
      DecimalValue(digits, seg.pause);
      ParseMore(ws, digits, seg.text, Decimal(seg.pause), SplitMarkers(digits, Print(later)));
      ParseOneIs(ws, seg.text, seg.pause);
      assert segments == [seg] + later;
    }
  }

  lemma {:induction false} ParseMore(ws: Spaces, digits: map<char, nat>, text: string, ms: string, rest: seq<string>)
    requires rest != []
    ensures ParseParts(ws, digits, [text, ms] + rest) ==
            ParseOne(ws, text, Value(digits, ms)) + ParseParts(ws, digits, rest)
  {
    hide ParseOne, Value;
    assert ([text, ms] + rest)[2..] == rest;
  }

  lemma {:induction false} ParseNothing(ws: Spaces, digits: map<char, nat>)
    ensures ParseParts(ws, digits, SplitMarkers(digits, "")) == []
  {
    assert SplitMarkers(digits, "") == [""];
  }
}
