/** The sentence-safe chunker: `src/narrator/pipeline/chunker.py`.

    The functions give the text each stage yields; the methods run the source's loops and are proved
    to yield it. Bounds, conservation and the optimality of the packing are then proved about the
    functions. */
module ScriptChunker {
  import opened Text

  // --- _pack -------------------------------------------------------------------

  /** What the packing loop still emits, with `buf` pending and `units` to come. */
  function PackFrom(target: int, buf: string, units: seq<string>): seq<string>
    decreases |units|
  {
    if units == [] then
      if buf == "" then [] else [buf]
    else if buf == "" then
      PackFrom(target, units[0], units[1..])
    else if |buf| + 1 + |units[0]| > target then
      [buf] + PackFrom(target, units[0], units[1..])
    else
      PackFrom(target, buf + " " + units[0], units[1..])
  }

  function Pack(target: int, units: seq<string>): seq<string> {
    PackFrom(target, "", units)
  }

  method PackUnits(target: int, units: seq<string>) returns (out: seq<string>)
    ensures out == Pack(target, units)
  {
    out := [];
    var buf := "";
    for i := 0 to |units|
      invariant out + PackFrom(target, buf, units[i..]) == Pack(target, units)
    {
      var unit := units[i];
      assert units[i..][1..] == units[i + 1..];
      if buf == "" {
        buf := unit;
      } else if |buf| + 1 + |unit| > target {
        AppendAssoc(out, [buf], PackFrom(target, unit, units[i + 1..]));
        out := out + [buf];
        buf := unit;
      } else {
        buf := buf + " " + unit;
      }
    }
    if buf != "" {
      out := out + [buf];
    }
  }

  // A chunk may hold one unit of any length, or several whose join fits the target.
  predicate Fits(target: int, part: seq<string>) {
    |part| == 1 || (|part| > 1 && |Join(" ", part)| <= target)
  }

  /** An order-preserving contiguous partition of `units` into parts that may each be a chunk. */
  predicate IsPartition(target: int, units: seq<string>, parts: seq<seq<string>>) {
    Flatten(parts) == units && forall part | part in parts :: Fits(target, part)
  }

  predicate NonEmpty(units: seq<string>) {
    forall unit | unit in units :: unit != ""
  }

  /** The partition behind the packing: `cur` is the part being filled. */
  function GroupFrom(target: int, cur: seq<string>, units: seq<string>): seq<seq<string>>
    decreases |units|
  {
    if units == [] then
      if cur == [] then [] else [cur]
    else if cur == [] || |Join(" ", cur)| + 1 + |units[0]| <= target then
      GroupFrom(target, cur + [units[0]], units[1..])
    else
      [cur] + GroupFrom(target, [units[0]], units[1..])
  }

  lemma {:induction false} GroupIsPartition(target: int, cur: seq<string>, units: seq<string>)
    requires cur == [] || Fits(target, cur)
    ensures IsPartition(target, cur + units, GroupFrom(target, cur, units))
    decreases |units|
  {
    if units == [] {
      if cur != [] {
        assert Flatten([cur]) == cur + Flatten([cur][1..]);
      }
      assert cur + units == cur;
    } else if cur == [] || |Join(" ", cur)| + 1 + |units[0]| <= target {
      if cur != [] {
        JoinLast(" ", cur, units[0]);
      }
      GroupIsPartition(target, cur + [units[0]], units[1..]);
      assert cur + [units[0]] + units[1..] == cur + units;
    } else {
      GroupIsPartition(target, [units[0]], units[1..]);
      var rest := GroupFrom(target, [units[0]], units[1..]);
      assert ([cur] + rest)[1..] == rest;
      assert [units[0]] + units[1..] == units;
    }
  }

  lemma {:induction false} JoinNonEmpty(parts: seq<string>)
    requires parts != [] && NonEmpty(parts)
    ensures Join(" ", parts) != ""
  {
    assert parts[0] in parts;
  }

  /** The chunks are the joined parts of that partition. */
  lemma {:induction false} PackJoinsGroups(target: int, cur: seq<string>, units: seq<string>)
    requires NonEmpty(cur) && NonEmpty(units)
    ensures PackFrom(target, Join(" ", cur), units) == JoinEach(GroupFrom(target, cur, units))
    decreases |units|
  {
    if cur != [] {
      JoinNonEmpty(cur);
    }
    if units == [] {
      if cur != [] {
        assert [cur][1..] == [];
      }
    } else {
      assert units[0] in units && forall u | u in units[1..] :: u in units;
      if cur == [] || |Join(" ", cur)| + 1 + |units[0]| <= target {
        if cur != [] {
          JoinLast(" ", cur, units[0]);
        }
        PackJoinsGroups(target, cur + [units[0]], units[1..]);
      } else {
        PackJoinsGroups(target, [units[0]], units[1..]);
        var rest := GroupFrom(target, [units[0]], units[1..]);
        assert ([cur] + rest)[1..] == rest;
      }
    }
  }

  /** A part that fits still fits after losing units at its front. */
  lemma {:induction false} SuffixJoin(part: seq<string>, k: nat)
    requires k < |part|
    ensures |Join(" ", part[k..])| <= |Join(" ", part)|
  {
    if k > 0 {
      SuffixJoin(part[1..], k - 1);
      assert part[1..][k - 1..] == part[k..];
    } else {
      assert part[0..] == part;
    }
  }

  lemma {:induction false} PrefixJoin(part: seq<string>, k: nat)
    requires 0 < k <= |part|
    ensures |Join(" ", part[..k])| <= |Join(" ", part)|
  {
    if k < |part| {
      JoinLast(" ", part[..|part| - 1], part[|part| - 1]);
      assert part[..|part| - 1] + [part[|part| - 1]] == part;
      PrefixJoin(part[..|part| - 1], k);
      assert part[..|part| - 1][..k] == part[..k];
    } else {
      assert part[..k] == part;
    }
  }

  lemma {:induction false} SuffixFits(target: int, part: seq<string>, k: nat)
    requires k < |part| && Fits(target, part)
    ensures Fits(target, part[k..])
  {
    if |part| > 1 {
      SuffixJoin(part, k);
    }
  }

  lemma TakeDrop<T>(a: seq<T>, b: seq<T>)
    ensures (a + b)[..|a|] == a && (a + b)[|a|..] == b
  {
  }

  /** The greedy packing stays ahead of any other. It has `cur` in its open part and `units` to come;
      the other packing has already placed the first `done` units of `cur` elsewhere and places the
      rest in `parts`. */
  lemma {:induction false} GreedyStaysAhead(target: int, cur: seq<string>, units: seq<string>, done: nat,
                                            parts: seq<seq<string>>)
    requires cur != [] && done <= |cur|
    requires IsPartition(target, cur[done..] + units, parts)
    ensures |GroupFrom(target, cur, units)| <= |parts| + if done == 0 then 0 else 1
    decreases |units|, |parts|
  {
    var ahead := cur[done..] + units;
    if units == [] {
      assert done == 0 ==> ahead == cur;
    } else if |Join(" ", cur)| + 1 + |units[0]| <= target {
      assert (cur + [units[0]])[done..] + units[1..] == ahead;
      GreedyStaysAhead(target, cur + [units[0]], units[1..], done, parts);
    } else {
      var first, rest := parts[0], parts[1..];
      assert first in parts && forall p | p in rest :: p in parts;
      TakeDrop(first, Flatten(rest));
      if |first| <= |cur| - done {
        assert ahead[|first|..] == cur[done + |first|..] + units;
        GreedyStaysAhead(target, cur, units, done + |first|, rest);
      } else {
        ReachesPast(target, cur, units, done, first);
        var k := |first| - (|cur| - done);
        var parts' := [units[..k]] + rest;
        assert ahead[|first|..] == units[k..];
        assert parts'[1..] == rest;
        assert units[..k] + units[k..] == units;
        assert [units[0]][0..] + units[1..] == units;
        GreedyStaysAhead(target, [units[0]], units[1..], 0, parts');
      }
    }
  }

  /** No part that fits starts with a full open part and goes on. */
  lemma {:induction false} StartsFull(target: int, cur: seq<string>, units: seq<string>, part: seq<string>)
    requires cur != [] && units != [] && |Join(" ", cur)| + 1 + |units[0]| > target
    requires |cur| < |part| <= |cur| + |units| && part == (cur + units)[..|part|]
    ensures !Fits(target, part)
  {
    JoinLast(" ", cur, units[0]);
    PrefixJoin(part, |cur| + 1);
    assert part[..|cur| + 1] == cur + [units[0]];
  }

  /** A part that reaches past a full open part starts after it does, and keeps its own end. */
  lemma {:induction false} ReachesPast(target: int, cur: seq<string>, units: seq<string>, done: nat,
                                       first: seq<string>)
    requires cur != [] && units != [] && done <= |cur|
    requires |Join(" ", cur)| + 1 + |units[0]| > target && Fits(target, first)
    requires |cur| - done < |first| <= |cur| - done + |units|
    requires first == (cur[done..] + units)[..|first|]
    ensures done > 0 && Fits(target, units[..|first| - (|cur| - done)])
  {
    var k := |first| - (|cur| - done);
    if done == 0 {
      StartsFull(target, cur, units, first);
    }
    SuffixFits(target, first, |cur| - done);
    assert first == cur[done..] + units[..k];
    TakeDrop(cur[done..], units[..k]);
  }

  /** The packing joins the parts of a valid partition of the units. */
  lemma {:induction false} PackingIsPartition(target: int, units: seq<string>) returns (parts: seq<seq<string>>)
    requires NonEmpty(units)
    ensures IsPartition(target, units, parts) && Pack(target, units) == JoinEach(parts)
    ensures |Pack(target, units)| == |parts|
  {
    parts := GroupFrom(target, [], units);
    GroupIsPartition(target, [], units);
    assert [] + units == units;
    PackJoinsGroups(target, [], units);
    JoinEachLength(parts);
  }

  /** No valid partition of the units has fewer parts than the packing has chunks. */
  lemma {:induction false} PackingIsOptimal(target: int, units: seq<string>, other: seq<seq<string>>)
    requires NonEmpty(units) && IsPartition(target, units, other)
    ensures |Pack(target, units)| <= |other|
  {
    PackJoinsGroups(target, [], units);
    JoinEachLength(GroupFrom(target, [], units));
    if units != [] {
      assert [units[0]][0..] + units[1..] == units;
      GreedyStaysAhead(target, [units[0]], units[1..], 0, other);
      assert [] + [units[0]] == [units[0]];
    }
  }

  lemma {:induction false} JoinEachLength(parts: seq<seq<string>>)
    ensures |JoinEach(parts)| == |parts|
  {
    if parts != [] {
      JoinEachLength(parts[1..]);
    }
  }

  // --- _hard_wrap ----------------------------------------------------------------

  /** The loop's two variables. */
  datatype Wrapping = Wrapping(out: seq<string>, buf: string) {
    function Flush(): seq<string> {
      if buf == "" then out else out + [buf]
    }
  }

  function WrapWord(ws: Spaces, hardMax: nat, w: Wrapping, word: string): Wrapping
    requires hardMax > 0
  {
    var sliced := w.out + Slices(hardMax, word);
    var residue := Residue(hardMax, word);
    var candidate := Strip(ws, w.buf + " " + residue);
    if |candidate| > hardMax then Wrapping(Wrapping(sliced, w.buf).Flush(), residue)
    else Wrapping(sliced, candidate)
  }

  function WrapWords(ws: Spaces, hardMax: nat, words: seq<string>): Wrapping
    requires hardMax > 0
  {
    if words == [] then Wrapping([], "")
    else WrapWord(ws, hardMax, WrapWords(ws, hardMax, words[..|words| - 1]), words[|words| - 1])
  }

  function HardWrap(ws: Spaces, hardMax: nat, text: string): seq<string>
    requires hardMax > 0
  {
    WrapWords(ws, hardMax, Split(' ', text)).Flush()
  }

  method HardWrapText(ws: Spaces, hardMax: nat, text: string) returns (out: seq<string>)
    requires hardMax > 0
    ensures out == HardWrap(ws, hardMax, text)
  {
    hide WrapWord, Split;
    out := [];
    var buf := "";
    var words := Split(' ', text);
    for i := 0 to |words|
      invariant Wrapping(out, buf) == WrapWords(ws, hardMax, words[..i])
    {
      assert words[..i + 1][..i] == words[..i];
      out, buf := WrapOne(ws, hardMax, out, buf, words[i]);
    }
    assert words[..|words|] == words;
    if buf != "" {
      out := out + [buf];
    }
  }

  /** One turn of the loop. */
  method WrapOne(ws: Spaces, hardMax: nat, out0: seq<string>, buf0: string, word0: string)
    returns (out: seq<string>, buf: string)
    requires hardMax > 0
    ensures Wrapping(out, buf) == WrapWord(ws, hardMax, Wrapping(out0, buf0), word0)
  {
    hide Strip;
    out, buf := out0, buf0;
    var word := word0;
    while |word| > hardMax
      invariant out0 + Slices(hardMax, word0) == out + Slices(hardMax, word)
      invariant Residue(hardMax, word) == Residue(hardMax, word0)
    {
      AppendAssoc(out, [word[..hardMax]], Slices(hardMax, word[hardMax..]));
      out := out + [word[..hardMax]];
      word := word[hardMax..];
    }
    var candidate := Strip(ws, buf + " " + word);
    if |candidate| > hardMax {
      if buf != "" {
        out := out + [buf];
      }
      buf := word;
    } else {
      buf := candidate;
    }
  }

  // --- _split_monster, _chunk_segment ---------------------------------------------

  /** What one clause of an overlong sentence becomes. */
  function ClausePieces(ws: Spaces, hardMax: nat, raw: string): seq<string>
    requires hardMax > 0
  {
    var clause := Strip(ws, raw);
    if clause == "" then [] else if |clause| <= hardMax then [clause] else HardWrap(ws, hardMax, clause)
  }

  function AllClausePieces(ws: Spaces, hardMax: nat, clauses: seq<string>): seq<string>
    requires hardMax > 0
  {
    if clauses == [] then []
    else AllClausePieces(ws, hardMax, clauses[..|clauses| - 1]) + ClausePieces(ws, hardMax, clauses[|clauses| - 1])
  }

  method SplitMonster(ws: Spaces, hardMax: nat, sentence: string) returns (out: seq<string>)
    requires hardMax > 0
    ensures out == AllClausePieces(ws, hardMax, SplitAfter(ws, CLAUSE_ENDS, sentence))
  {
    hide Strip, SplitAfter, HardWrap;
    out := [];
    var clauses := SplitAfter(ws, CLAUSE_ENDS, sentence);
    for i := 0 to |clauses|
      invariant out == AllClausePieces(ws, hardMax, clauses[..i])
    {
      assert clauses[..i + 1][..i] == clauses[..i];
      var clause := Strip(ws, clauses[i]);
      if clause == "" {
        continue;
      }
      if |clause| <= hardMax {
        out := out + [clause];
      } else {
        var pieces := HardWrapText(ws, hardMax, clause);
        out := out + pieces;
      }
    }
    assert clauses[..|clauses|] == clauses;
  }

  /** The units of a segment: its non-blank sentences, the overlong ones split further. */
  function SentenceUnits(ws: Spaces, hardMax: nat, sentence: string): seq<string>
    requires hardMax > 0
  {
    if Strip(ws, sentence) == "" then []
    else if |sentence| <= hardMax then [Strip(ws, sentence)]
    else AllClausePieces(ws, hardMax, SplitAfter(ws, CLAUSE_ENDS, sentence))
  }

  function AllUnits(ws: Spaces, hardMax: nat, sentences: seq<string>): seq<string>
    requires hardMax > 0
  {
    if sentences == [] then []
    else AllUnits(ws, hardMax, sentences[..|sentences| - 1]) + SentenceUnits(ws, hardMax, sentences[|sentences| - 1])
  }

  function Units(ws: Spaces, hardMax: nat, text: string): seq<string>
    requires hardMax > 0
  {
    AllUnits(ws, hardMax, SplitAfter(ws, SENTENCE_ENDS, Strip(ws, text)))
  }

  method ChunkSegment(ws: Spaces, target: int, hardMax: nat, text: string) returns (chunks: seq<string>)
    requires hardMax > 0
    ensures chunks == Pack(target, Units(ws, hardMax, text))
  {
    var units := CollectUnits(ws, hardMax, SplitAfter(ws, SENTENCE_ENDS, Strip(ws, text)));
    chunks := PackUnits(target, units);
  }

  /** The loop over a segment's sentences. */
  method CollectUnits(ws: Spaces, hardMax: nat, sentences: seq<string>) returns (units: seq<string>)
    requires hardMax > 0
    ensures units == AllUnits(ws, hardMax, sentences)
  {
    units := [];
    for i := 0 to |sentences|
      invariant units == AllUnits(ws, hardMax, sentences[..i])
    {
      var sentence := sentences[i];
      assert sentences[..i + 1][..i] == sentences[..i];
      if Strip(ws, sentence) != "" {
        if |sentence| <= hardMax {
          units := units + [Strip(ws, sentence)];
        } else {
          var pieces := SplitMonster(ws, hardMax, sentence);
          units := units + pieces;
        }
      }
    }
    assert sentences[..|sentences|] == sentences;
  }

  // --- split -----------------------------------------------------------------------

  datatype Chunk = Chunk(idx: int, text: string, pause: int)

  /** The chunks of one segment's texts: consecutive numbers, the pause on the last one. */
  function Number(texts: seq<string>, idx: int, pause: int): (chunks: seq<Chunk>)
    ensures |chunks| == |texts|
  {
    seq(|texts|, i requires 0 <= i < |texts| => Chunk(idx + i, texts[i], if i == |texts| - 1 then pause else 0))
  }

  function AllChunks(ws: Spaces, target: int, hardMax: nat, segments: seq<Segment>): seq<Chunk>
    requires hardMax > 0
  {
    if segments == [] then []
    else
      AddSegment(ws, target, hardMax, AllChunks(ws, target, hardMax, segments[..|segments| - 1]),
                 segments[|segments| - 1])
  }

  function AddSegment(ws: Spaces, target: int, hardMax: nat, before: seq<Chunk>, seg: Segment): seq<Chunk>
    requires hardMax > 0
  {
    before + Number(Pack(target, Units(ws, hardMax, seg.text)), |before| + 1, seg.pause)
  }

  method SplitScript(ws: Spaces, target: int, hardMax: nat, segments: seq<Segment>) returns (chunks: seq<Chunk>)
    requires hardMax > 0
    ensures chunks == AllChunks(ws, target, hardMax, segments)
  {
    chunks := [];
    var idx := 1;
    for s := 0 to |segments|
      invariant idx == |chunks| + 1
      invariant chunks == AllChunks(ws, target, hardMax, segments[..s])
    {
      assert segments[..s + 1][..s] == segments[..s];
      chunks, idx := SplitSegment(ws, target, hardMax, chunks, idx, segments[s]);
    }
    assert segments[..|segments|] == segments;
  }

  /** The loop body: the segment's texts become chunks. */
  method SplitSegment(ws: Spaces, target: int, hardMax: nat, before: seq<Chunk>, first: int, seg: Segment)
    returns (chunks: seq<Chunk>, idx: int)
    requires hardMax > 0 && first == |before| + 1
    ensures chunks == AddSegment(ws, target, hardMax, before, seg) && idx == |chunks| + 1
  {
    var texts := ChunkSegment(ws, target, hardMax, seg.text);
    chunks, idx := AppendTexts(before, texts, first, seg.pause);
  }

  method AppendTexts(before: seq<Chunk>, texts: seq<string>, first: int, segPause: int)
    returns (chunks: seq<Chunk>, idx: int)
    ensures chunks == before + Number(texts, first, segPause) && idx == first + |texts|
  {
    chunks, idx := before, first;
    for i := 0 to |texts|
      invariant idx == first + i
      invariant chunks == before + Number(texts, first, segPause)[..i]
    {
      var pause := if i == |texts| - 1 then segPause else 0;
      chunks := chunks + [Chunk(idx, texts[i], pause)];
      idx := idx + 1;
    }
  }
}
