/** What the sentence-safe chunker guarantees: bounds, numbering, and which characters survive in
    which order. */
module ScriptChunkerFacts {
  import opened Text
  import opened ScriptChunker

  // --- _hard_wrap: bounds and conservation ---------------------------------------

  lemma {:induction false} WrapWordBounded(ws: Spaces, hardMax: nat, w: Wrapping, word: string)
    requires hardMax > 0 && Bounded(hardMax, w.out) && |w.buf| <= hardMax
    ensures Bounded(hardMax, WrapWord(ws, hardMax, w, word).out) && |WrapWord(ws, hardMax, w, word).buf| <= hardMax
  {
    SlicesBounded(hardMax, word);
  }

  lemma {:induction false} WrapBounded(ws: Spaces, hardMax: nat, words: seq<string>)
    requires hardMax > 0
    ensures Bounded(hardMax, WrapWords(ws, hardMax, words).out) && |WrapWords(ws, hardMax, words).buf| <= hardMax
  {
    if words != [] {
      WrapBounded(ws, hardMax, words[..|words| - 1]);
      WrapWordBounded(ws, hardMax, WrapWords(ws, hardMax, words[..|words| - 1]), words[|words| - 1]);
    }
  }

  /** Something visible is cut off the word, or left over from it. */
  predicate CutVisible(ws: Spaces, hardMax: nat, word: string)
    requires hardMax > 0
  {
    VisibleAll(ws, Slices(hardMax, word)) != ""
  }

  predicate LeftVisible(ws: Spaces, hardMax: nat, word: string)
    requires hardMax > 0
  {
    Visible(ws, Residue(hardMax, word)) != ""
  }

  lemma {:induction false} CandidateVisible(ws: Spaces, buf: string, residue: string)
    requires ' ' in ws
    ensures Visible(ws, Strip(ws, buf + " " + residue)) == Visible(ws, buf) + Visible(ws, residue)
    ensures Visible(ws, residue) == "" ==> |Strip(ws, buf + " " + residue)| <= |buf|
  {
    hide Strip, Visible;
    VisibleStrip(ws, buf + " " + residue);
    VisibleBetween(ws, buf, " ", residue);
    if Visible(ws, residue) == "" {
      BlankIsInvisible(ws, residue);
      AppendAssoc(buf, " ", residue);
      StripBlankTail(ws, buf, " " + residue);
    }
  }

  lemma {:induction false} FlushVisible(ws: Spaces, w: Wrapping)
    ensures VisibleAll(ws, w.Flush()) == VisibleAll(ws, w.out) + Visible(ws, w.buf)
  {
    if w.buf != "" {
      VisibleAllAppend(ws, w.out, [w.buf]);
      assert VisibleAll(ws, [w.buf]) == Visible(ws, w.buf) + VisibleAll(ws, [w.buf][1..]);
    }
  }

  /** The word does not fit after what is pending. */
  predicate Flushes(ws: Spaces, hardMax: nat, w: Wrapping, word: string)
    requires hardMax > 0
  {
    |Strip(ws, w.buf + " " + Residue(hardMax, word))| > hardMax
  }

  /** What one word adds to the visible text: its slices go out before the pending buffer does. */
  predicate Adds<T(==)>(flush: bool, out: seq<T>, buf: seq<T>, slices: seq<T>, residue: seq<T>,
                        out': seq<T>, buf': seq<T>) {
    if flush then out' == out + slices + buf && buf' == residue && residue != []
    else out' == out + slices && buf' == buf + residue
  }

  lemma {:induction false} WrapWordVisible(ws: Spaces, hardMax: nat, w: Wrapping, word: string, w': Wrapping)
    requires ' ' in ws && hardMax > 0 && |w.buf| <= hardMax && w' == WrapWord(ws, hardMax, w, word)
    ensures Adds(Flushes(ws, hardMax, w, word), VisibleAll(ws, w.out), Visible(ws, w.buf),
                 VisibleAll(ws, Slices(hardMax, word)), Visible(ws, Residue(hardMax, word)),
                 VisibleAll(ws, w'.out), Visible(ws, w'.buf))
  {
    hide Strip, Visible, VisibleAll, Slices, Residue;
    VisibleAllAppend(ws, w.out, Slices(hardMax, word));
    CandidateVisible(ws, w.buf, Residue(hardMax, word));
    FlushVisible(ws, Wrapping(w.out + Slices(hardMax, word), w.buf));
  }

  /** The last word of a list, and what it adds. */
  lemma {:induction false} LastWord(ws: Spaces, hardMax: nat, words: seq<string>)
    returns (before: seq<string>, word: string, out: string, buf: string, slices: string, residue: string)
    requires ' ' in ws && hardMax > 0 && words != []
    ensures words == before + [word]
    ensures out == VisibleAll(ws, WrapWords(ws, hardMax, before).out)
    ensures buf == Visible(ws, WrapWords(ws, hardMax, before).buf)
    ensures slices == VisibleAll(ws, Slices(hardMax, word)) && residue == Visible(ws, Residue(hardMax, word))
    ensures VisibleAll(ws, words) == VisibleAll(ws, before) + (slices + residue)
    ensures Adds(Flushes(ws, hardMax, WrapWords(ws, hardMax, before), word), out, buf, slices, residue,
                 VisibleAll(ws, WrapWords(ws, hardMax, words).out), Visible(ws, WrapWords(ws, hardMax, words).buf))
  {
    hide WrapWord, Flushes, Strip, Visible, VisibleAll, Slices, Residue;
    before, word := words[..|words| - 1], words[|words| - 1];
    var w := WrapWords(ws, hardMax, before);
    out, buf := VisibleAll(ws, w.out), Visible(ws, w.buf);
    slices, residue := VisibleAll(ws, Slices(hardMax, word)), Visible(ws, Residue(hardMax, word));
    WrapBounded(ws, hardMax, before);
    WrapWordVisible(ws, hardMax, w, word, WrapWords(ws, hardMax, words));
    SlicesVisible(ws, hardMax, word);
    LastVisible(ws, words);
  }

  // --- _hard_wrap: order -------------------------------------------------------------

  /** The buffer shows something exactly when some word left something visible. */
  lemma {:induction false} BufferVisible(ws: Spaces, hardMax: nat, words: seq<string>)
    requires ' ' in ws && hardMax > 0
    ensures Visible(ws, WrapWords(ws, hardMax, words).buf) != "" <==>
            exists i | 0 <= i < |words| :: LeftVisible(ws, hardMax, words[i])
    decreases |words|
  {
    hide WrapWord, VisibleAll, Slices, Residue, Flushes;
    if words != [] {
      var before, word, out, buf, slices, residue := LastWord(ws, hardMax, words);
      BufferVisible(ws, hardMax, before);
      assert forall i | 0 <= i < |before| :: words[i] == before[i];
      assert LeftVisible(ws, hardMax, words[|words| - 1]) <==> residue != "";
    }
  }

  /** The guard of the failing branch: no word from which visible slices are cut follows a word that
      leaves something visible in the buffer. */
  predicate InOrder(ws: Spaces, hardMax: nat, words: seq<string>)
    requires hardMax > 0
  {
    forall i, j | 0 <= i < j < |words| :: CutVisible(ws, hardMax, words[j]) ==> !LeftVisible(ws, hardMax, words[i])
  }

  lemma {:induction false} AddsConserves<T>(flush: bool, out: seq<T>, buf: seq<T>, slices: seq<T>, residue: seq<T>,
                                            out': seq<T>, buf': seq<T>, all: seq<T>)
    requires Adds(flush, out, buf, slices, residue, out', buf')
    requires multiset(out) + multiset(buf) == multiset(all)
    ensures multiset(out') + multiset(buf') == multiset(all + (slices + residue))
  {
    if !flush {
      assert multiset(out') + multiset(buf') == multiset(out) + multiset(slices) + multiset(buf) + multiset(residue);
    } else {
      assert multiset(out') == multiset(out) + multiset(slices) + multiset(buf);
    }
    assert multiset(all + (slices + residue)) == multiset(all) + (multiset(slices) + multiset(residue));
  }

  lemma AddsInOrder<T>(flush: bool, out: seq<T>, buf: seq<T>, slices: seq<T>, residue: seq<T>,
                       out': seq<T>, buf': seq<T>)
    requires Adds(flush, out, buf, slices, residue, out', buf') && (slices == [] || buf == [])
    ensures out' + buf' == out + buf + (slices + residue)
  {
  }

  /** Two lists that differ at a place both have. */
  ghost predicate Diverge<T>(a: seq<T>, b: seq<T>) {
    exists k :: 0 <= k < |a| && k < |b| && a[k] != b[k]
  }

  predicate Distinct<T(==)>(s: seq<T>) {
    forall i, j | 0 <= i < j < |s| :: s[i] != s[j]
  }

  lemma {:induction false} DivergeExtends<T>(a: seq<T>, b: seq<T>, a': seq<T>, b': seq<T>)
    requires Diverge(a, b) && a <= a' && b <= b'
    ensures Diverge(a', b')
  {
    var k :| 0 <= k < |a| && k < |b| && a[k] != b[k];
    assert a'[k] != b'[k];
  }

  lemma AddsOutOfOrder<T>(flush: bool, out: seq<T>, buf: seq<T>, slices: seq<T>, residue: seq<T>,
                          out': seq<T>, buf': seq<T>)
    requires Adds(flush, out, buf, slices, residue, out', buf') && slices != [] && buf != []
    requires Distinct(out + buf + (slices + residue))
    ensures Diverge(out', out + buf + (slices + residue))
  {
    var all := out + buf + (slices + residue);
    assert all[|out|] == buf[0] && all[|out| + |buf|] == slices[0];
    assert out'[|out|] == slices[0];
  }

  // --- _hard_wrap: where each character goes ------------------------------------------

  /** The numbers from `lo` up to and not including `hi`. */
  function Range(lo: nat, hi: nat): (r: seq<nat>)
    requires lo <= hi
    ensures |r| == hi - lo && forall k | 0 <= k < |r| :: r[k] == lo + k
  {
    seq(hi - lo, k requires 0 <= k => lo + k)
  }

  /** The places, among the visible characters of the text, of those that are out and those in the buffer. */
  datatype Places = Places(out: seq<nat>, buf: seq<nat>)

  /** The loop's turn for one word, carrying places along: `n` visible characters come before the word. */
  function WordPlaces(ws: Spaces, hardMax: nat, w: Wrapping, p: Places, word: string, n: nat): Places
    requires hardMax > 0
  {
    var cut := n + |VisibleAll(ws, Slices(hardMax, word))|;
    var slices, residue := Range(n, cut), Range(cut, cut + |Visible(ws, Residue(hardMax, word))|);
    if Flushes(ws, hardMax, w, word) then Places(p.out + slices + p.buf, residue)
    else Places(p.out + slices, p.buf + residue)
  }

  function WrapPlaces(ws: Spaces, hardMax: nat, words: seq<string>): Places
    requires hardMax > 0
  {
    if words == [] then Places([], [])
    else
      var before := words[..|words| - 1];
      WordPlaces(ws, hardMax, WrapWords(ws, hardMax, before), WrapPlaces(ws, hardMax, before), words[|words| - 1],
                 |VisibleAll(ws, before)|)
  }

  /** The place each visible character of the wrapped text had before. */
  function HardWrapPlaces(ws: Spaces, hardMax: nat, text: string): seq<nat>
    requires hardMax > 0
  {
    var p := WrapPlaces(ws, hardMax, Split(' ', text));
    p.out + p.buf
  }

  predicate Within(places: seq<nat>, n: nat) {
    forall k | 0 <= k < |places| :: places[k] < n
  }

  /** What is at the given places. */
  function Pick<T>(s: seq<T>, places: seq<nat>): (t: seq<T>)
    requires Within(places, |s|)
    ensures |t| == |places| && forall k | 0 <= k < |t| :: t[k] == s[places[k]]
  {
    seq(|places|, k requires 0 <= k < |places| => s[places[k]])
  }

  lemma {:induction false} PickSum<T>(s: seq<T>, p: seq<nat>, q: seq<nat>)
    requires Within(p, |s|) && Within(q, |s|)
    ensures Within(p + q, |s|) && Pick(s, p + q) == Pick(s, p) + Pick(s, q)
  {
  }

  lemma {:induction false} PickMore(s: string, more: string, p: seq<nat>)
    requires Within(p, |s|)
    ensures Within(p, |s + more|) && Pick(s + more, p) == Pick(s, p)
  {
  }

  lemma {:induction false} PickRange<T>(all: seq<T>, lo: nat, hi: nat)
    requires lo <= hi <= |all|
    ensures Within(Range(lo, hi), |all|) && Pick(all, Range(lo, hi)) == all[lo..hi]
  {
  }

  lemma RangeSum(lo: nat, mid: nat, hi: nat)
    requires lo <= mid <= hi
    ensures Range(lo, mid) + Range(mid, hi) == Range(lo, hi)
  {
  }

  lemma WithoutOne<T>(q: seq<T>, j: nat)
    requires j < |q|
    ensures multiset(q) == multiset(q[..j] + q[j + 1..]) + multiset{q[j]}
    ensures multiset(q[..j] + q[j + 1..]) == multiset(q) - multiset{q[j]}
  {
    assert q == q[..j] + [q[j]] + q[j + 1..];
  }

  lemma {:induction false} PickOne<T>(s: seq<T>, q: seq<nat>, j: nat)
    requires Within(q, |s|) && j < |q|
    ensures var q' := q[..j] + q[j + 1..];
            Within(q', |s|) && multiset(Pick(s, q)) == multiset(Pick(s, q')) + multiset{s[q[j]]}
  {
    assert Pick(s, q[..j] + q[j + 1..]) == Pick(s, q)[..j] + Pick(s, q)[j + 1..];
    WithoutOne(Pick(s, q), j);
  }

  /** Places in another order pick the same things in another order. */
  lemma {:induction false} PickPermutes<T>(s: seq<T>, p: seq<nat>, q: seq<nat>)
    requires multiset(p) == multiset(q) && Within(p, |s|) && Within(q, |s|)
    ensures multiset(Pick(s, p)) == multiset(Pick(s, q))
    decreases |p|
  {
    if p == [] {
      assert |multiset(p)| == |multiset(q)| == |q|;
    } else {
      hide Pick, Within;
      assert p[0] in multiset(q);
      var j :| 0 <= j < |q| && q[j] == p[0];
      WithoutOne(p, 0);
      WithoutOne(q, j);
      PickOne(s, p, 0);
      PickOne(s, q, j);
      PickPermutes(s, p[..0] + p[1..], q[..j] + q[j + 1..]);
    }
  }

  /** The last word of a list, and what it adds to the places. */
  lemma {:induction false} LastPlaces(ws: Spaces, hardMax: nat, words: seq<string>)
    returns (flush: bool, slices: seq<nat>, residue: seq<nat>)
    requires ' ' in ws && hardMax > 0 && words != []
    ensures var before, word := words[..|words| - 1], words[|words| - 1];
            var p, p' := WrapPlaces(ws, hardMax, before), WrapPlaces(ws, hardMax, words);
            var n, s := |VisibleAll(ws, before)|, |VisibleAll(ws, Slices(hardMax, word))|;
            && flush == Flushes(ws, hardMax, WrapWords(ws, hardMax, before), word)
            && slices == Range(n, n + s) && residue == Range(n + s, n + s + |Visible(ws, Residue(hardMax, word))|)
            && Adds(flush, p.out, p.buf, slices, residue, p'.out, p'.buf)
  {
    hide Strip, Visible, VisibleAll, Slices, Residue, WrapWords;
    var before, word := words[..|words| - 1], words[|words| - 1];
    var n, cut := |VisibleAll(ws, before)|, |VisibleAll(ws, before)| + |VisibleAll(ws, Slices(hardMax, word))|;
    flush := Flushes(ws, hardMax, WrapWords(ws, hardMax, before), word);
    slices, residue := Range(n, cut), Range(cut, cut + |Visible(ws, Residue(hardMax, word))|);
    WrapBounded(ws, hardMax, before);
    CandidateVisible(ws, WrapWords(ws, hardMax, before).buf, Residue(hardMax, word));
  }

  /** The places say where the characters came from, and leave none out. */
  ghost predicate Tracks(v: string, out: string, buf: string, p: Places) {
    && Within(p.out, |v|) && Within(p.buf, |v|) && Pick(v, p.out) == out && Pick(v, p.buf) == buf
    && multiset(p.out) + multiset(p.buf) == multiset(Range(0, |v|))
  }

  /** What is added to the places is added to the characters there. */
  lemma {:induction false} AddsPicks(flush: bool, all: string, p: Places, slices: seq<nat>, residue: seq<nat>,
                                     p': Places)
    requires Adds(flush, p.out, p.buf, slices, residue, p'.out, p'.buf)
    requires Within(p.out, |all|) && Within(p.buf, |all|) && Within(slices, |all|) && Within(residue, |all|)
    ensures Within(p'.out, |all|) && Within(p'.buf, |all|)
    ensures Pick(all, p'.out) == Pick(all, p.out) + Pick(all, slices) + if flush then Pick(all, p.buf) else ""
    ensures Pick(all, p'.buf) == (if flush then "" else Pick(all, p.buf)) + Pick(all, residue)
  {
    hide Pick, Within;
    PickSum(all, p.out, slices);
    if flush {
      PickSum(all, p.out + slices, p.buf);
    } else {
      PickSum(all, p.buf, residue);
    }
  }

  lemma AddsForm<T>(flush: bool, out: seq<T>, buf: seq<T>, slices: seq<T>, residue: seq<T>, out': seq<T>, buf': seq<T>)
    requires Adds(flush, out, buf, slices, residue, out', buf')
    ensures out' == out + slices + (if flush then buf else []) && buf' == (if flush then [] else buf) + residue
  {
  }

  lemma {:induction false} AddsShow(flush: bool, v: string, out: string, buf: string, p: Places,
                                    s: string, r: string, out': string, buf': string, p': Places)
    requires Within(p.out, |v|) && Within(p.buf, |v|) && Pick(v, p.out) == out && Pick(v, p.buf) == buf
    requires Adds(flush, out, buf, s, r, out', buf')
    requires Adds(flush, p.out, p.buf, Range(|v|, |v| + |s|), Range(|v| + |s|, |v| + |s| + |r|), p'.out, p'.buf)
    ensures var all := v + (s + r);
            Within(p'.out, |all|) && Within(p'.buf, |all|) && Pick(all, p'.out) == out' && Pick(all, p'.buf) == buf'
  {
    hide Pick, Range, Within, Adds;
    var all, n, cut := v + (s + r), |v|, |v| + |s|;
    PickRange(all, n, cut);
    PickRange(all, cut, |all|);
    CutSum(v, s, r);
    PickMore(v, s + r, p.out);
    PickMore(v, s + r, p.buf);
    AddsPicks(flush, all, p, Range(n, cut), Range(cut, |all|), p');
    AddsForm(flush, out, buf, s, r, out', buf');
  }

  lemma {:induction false} AddsTracks(flush: bool, v: string, out: string, buf: string, p: Places,
                                      s: string, r: string, out': string, buf': string, p': Places)
    requires Tracks(v, out, buf, p) && Adds(flush, out, buf, s, r, out', buf')
    requires Adds(flush, p.out, p.buf, Range(|v|, |v| + |s|), Range(|v| + |s|, |v| + |s| + |r|), p'.out, p'.buf)
    ensures Tracks(v + (s + r), out', buf', p')
  {
    hide Pick, Range, Within, Adds;
    AddsShow(flush, v, out, buf, p, s, r, out', buf', p');
    var n, cut, end := |v|, |v| + |s|, |v| + |s| + |r|;
    AddsCover(flush, p, n, cut, end, p');
  }

  lemma {:induction false} AddsCover(flush: bool, p: Places, n: nat, cut: nat, end: nat, p': Places)
    requires n <= cut <= end && multiset(p.out) + multiset(p.buf) == multiset(Range(0, n))
    requires Adds(flush, p.out, p.buf, Range(n, cut), Range(cut, end), p'.out, p'.buf)
    ensures multiset(p'.out) + multiset(p'.buf) == multiset(Range(0, end))
  {
    hide Range;
    AddsConserves(flush, p.out, p.buf, Range(n, cut), Range(cut, end), p'.out, p'.buf, Range(0, n));
    RangeSum(n, cut, end);
    RangeSum(0, n, end);
  }

  lemma CutSum(v: string, s: string, r: string)
    ensures var all := v + (s + r); all[|v|..|v| + |s|] == s && all[|v| + |s|..|all|] == r
  {
  }

  lemma {:induction false} WrapTracks(ws: Spaces, hardMax: nat, words: seq<string>)
    requires ' ' in ws && hardMax > 0
    ensures var w := WrapWords(ws, hardMax, words);
            Tracks(VisibleAll(ws, words), VisibleAll(ws, w.out), Visible(ws, w.buf), WrapPlaces(ws, hardMax, words))
    decreases |words|
  {
    hide WrapWord, WordPlaces, Visible, VisibleAll, Slices, Residue, Tracks, Flushes, Adds;
    if words == [] {
      NothingTracks(ws);
    } else {
      var before, word, out, buf, slices, residue := LastWord(ws, hardMax, words);
      assert before == words[..|words| - 1];
      WrapTracks(ws, hardMax, before);
      var flush, cut, left := LastPlaces(ws, hardMax, words);
      AddsTracks(flush, VisibleAll(ws, before), out, buf, WrapPlaces(ws, hardMax, before), slices, residue,
                 VisibleAll(ws, WrapWords(ws, hardMax, words).out), Visible(ws, WrapWords(ws, hardMax, words).buf),
                 WrapPlaces(ws, hardMax, words));
    }
  }

  lemma NothingTracks(ws: Spaces)
    ensures Tracks(VisibleAll(ws, []), VisibleAll(ws, []), Visible(ws, ""), Places([], []))
  {
  }

  lemma TracksLength(v: string, out: string, buf: string, p: Places)
    requires Tracks(v, out, buf, p)
    ensures |p.out| == |out| && |p.buf| == |buf|
  {
  }

  lemma {:induction false} WrapKeepsOrder(ws: Spaces, hardMax: nat, words: seq<string>)
    requires ' ' in ws && hardMax > 0 && InOrder(ws, hardMax, words)
    ensures var p := WrapPlaces(ws, hardMax, words); p.out + p.buf == Range(0, |VisibleAll(ws, words)|)
    decreases |words|
  {
    hide WrapWord, WrapWords, WrapPlaces, WordPlaces, Visible, VisibleAll, Slices, Residue, Flushes, Tracks, Range;
    if words == [] {
      NothingPlaced(ws, hardMax);
    } else {
      var before, word, out, buf, slices, residue := LastWord(ws, hardMax, words);
      assert before == words[..|words| - 1] && forall i | 0 <= i < |before| :: words[i] == before[i];
      WrapKeepsOrder(ws, hardMax, before);
      BufferVisible(ws, hardMax, before);
      WrapTracks(ws, hardMax, before);
      var p, p' := WrapPlaces(ws, hardMax, before), WrapPlaces(ws, hardMax, words);
      TracksLength(VisibleAll(ws, before), out, buf, p);
      assert slices != "" ==> CutVisible(ws, hardMax, words[|words| - 1]);
      var flush, cut, left := LastPlaces(ws, hardMax, words);
      AddsInOrder(flush, p.out, p.buf, cut, left, p'.out, p'.buf);
      RangeSum(|VisibleAll(ws, before)|, |VisibleAll(ws, before)| + |slices|, |VisibleAll(ws, words)|);
      RangeSum(0, |VisibleAll(ws, before)|, |VisibleAll(ws, words)|);
    }
  }

  lemma NothingPlaced(ws: Spaces, hardMax: nat)
    requires hardMax > 0
    ensures WrapPlaces(ws, hardMax, []) == Places([], []) && Range(0, |VisibleAll(ws, [])|) == []
  {
  }

  lemma {:induction false} WrapBreaksOrder(ws: Spaces, hardMax: nat, words: seq<string>)
    requires ' ' in ws && hardMax > 0 && !InOrder(ws, hardMax, words)
    ensures Diverge(WrapPlaces(ws, hardMax, words).out, Range(0, |VisibleAll(ws, words)|))
    decreases |words|
  {
    hide WrapWord, WrapWords, WrapPlaces, Visible, VisibleAll, Slices, Residue, Flushes;
    var before, word, out, buf, slices, residue := LastWord(ws, hardMax, words);
    assert before == words[..|words| - 1] && forall i | 0 <= i < |before| :: words[i] == before[i];
    var flush, cut, left := LastPlaces(ws, hardMax, words);
    var p, p' := WrapPlaces(ws, hardMax, before), WrapPlaces(ws, hardMax, words);
    var n, all := |VisibleAll(ws, before)|, Range(0, |VisibleAll(ws, words)|);
    assert all == Range(0, n) + (cut + left);
    if !InOrder(ws, hardMax, before) {
      WrapBreaksOrder(ws, hardMax, before);
      DivergeExtends(p.out, Range(0, n), p'.out, all);
    } else {
      var i, j :| 0 <= i < j < |words| && CutVisible(ws, hardMax, words[j]) && LeftVisible(ws, hardMax, words[i]);
      assert j == |words| - 1;
      WrapKeepsOrder(ws, hardMax, before);
      BufferVisible(ws, hardMax, before);
      WrapTracks(ws, hardMax, before);
      AddsOutOfOrder(flush, p.out, p.buf, cut, left, p'.out, p'.buf);
    }
  }

  /** What is shown is `v` with each character taken once from the place given, and each is at the place it had
      if and only if `still`. */
  predicate Moves(v: string, shown: string, places: seq<nat>, still: bool) {
    && Within(places, |v|) && multiset(places) == multiset(Range(0, |v|)) && shown == Pick(v, places)
    && (places == Range(0, |v|) <==> still)
  }

  /** Every visible character of the text comes out once, and each at the place it had if and only if no cut
      word follows a left-over. */
  lemma {:induction false} HardWrapMoves(ws: Spaces, hardMax: nat, text: string)
    requires ' ' in ws && hardMax > 0
    ensures Moves(Visible(ws, text), VisibleAll(ws, HardWrap(ws, hardMax, text)), HardWrapPlaces(ws, hardMax, text),
                  InOrder(ws, hardMax, Split(' ', text)))
  {
    hide WrapWords, WrapPlaces, Visible, VisibleAll, Split;
    var words := Split(' ', text);
    var w, p := WrapWords(ws, hardMax, words), WrapPlaces(ws, hardMax, words);
    SplitVisible(ws, ' ', text);
    FlushVisible(ws, w);
    WrapTracks(ws, hardMax, words);
    PickSum(Visible(ws, text), p.out, p.buf);
    if InOrder(ws, hardMax, words) {
      WrapKeepsOrder(ws, hardMax, words);
    } else {
      WrapBreaksOrder(ws, hardMax, words);
    }
  }

  /** Hard wrapping: every piece is non-empty and within the limit, and the visible characters all survive. */
  lemma {:induction false} HardWrapConserves(ws: Spaces, hardMax: nat, text: string)
    requires ' ' in ws && hardMax > 0
    ensures Bounded(hardMax, HardWrap(ws, hardMax, text))
    ensures multiset(VisibleAll(ws, HardWrap(ws, hardMax, text))) == multiset(Visible(ws, text))
  {
    hide WrapWords, Visible, VisibleAll, Split, HardWrapPlaces, InOrder, Moves;
    WrapBounded(ws, hardMax, Split(' ', text));
    HardWrapMoves(ws, hardMax, text);
    MovedIsKept(Visible(ws, text), VisibleAll(ws, HardWrap(ws, hardMax, text)), HardWrapPlaces(ws, hardMax, text),
                InOrder(ws, hardMax, Split(' ', text)));
  }

  /** What moves survives: always as a multiset, in order when it is still, and in a text of distinct characters
      only then. */
  lemma {:induction false} MovedIsKept(v: string, shown: string, places: seq<nat>, still: bool)
    requires Moves(v, shown, places, still)
    ensures multiset(shown) == multiset(v) && (still ==> shown == v) && (Distinct(v) && shown == v ==> still)
  {
    hide Pick, Range, Within, Distinct;
    PickRange(v, 0, |v|);
    assert v[0..|v|] == v;
    PickPermutes(v, places, Range(0, |v|));
    if Distinct(v) && !still {
      PickMoves(v, places);
    }
  }

  /** In a text of distinct characters a moved character shows. */
  lemma {:induction false} PickMoves(v: string, places: seq<nat>)
    requires Distinct(v) && Within(places, |v|) && places != Range(0, |v|)
    ensures Pick(v, places) != v
  {
    if |places| == |v| {
      var k :| 0 <= k < |v| && places[k] != Range(0, |v|)[k];
      assert Pick(v, places)[k] == v[places[k]] && v[places[k]] != v[k];
    }
  }

  /** So the order survives when no cut word follows a left-over, and a text of distinct characters shows it
      when it does not. */
  lemma {:induction false} HardWrapOrder(ws: Spaces, hardMax: nat, text: string)
    requires ' ' in ws && hardMax > 0
    ensures InOrder(ws, hardMax, Split(' ', text)) ==> VisibleAll(ws, HardWrap(ws, hardMax, text)) == Visible(ws, text)
    ensures Distinct(Visible(ws, text)) && VisibleAll(ws, HardWrap(ws, hardMax, text)) == Visible(ws, text) ==>
              InOrder(ws, hardMax, Split(' ', text))
  {
    hide HardWrap, HardWrapPlaces, Visible, VisibleAll, Split, InOrder, Moves, Distinct;
    HardWrapMoves(ws, hardMax, text);
    MovedIsKept(Visible(ws, text), VisibleAll(ws, HardWrap(ws, hardMax, text)), HardWrapPlaces(ws, hardMax, text),
                InOrder(ws, hardMax, Split(' ', text)));
  }

  /** A concrete text whose order is lost: at a limit of two, "a bcd" comes out with "bc" before "a". */
  lemma {:induction false} OverlongWordOvertakes()
    ensures VisibleAll({' '}, HardWrap({' '}, 2, "a bcd")) != Visible({' '}, "a bcd")
  {
    hide HardWrap, WrapWords, Visible, Split, Join;
    var words := ["a", "bcd"];
    HardWrapOrder({' '}, 2, "a bcd");
    SplitExample();
    SplitJoin(' ', words);
    VisibleExample();
    CutExample();
    assert CutVisible({' '}, 2, words[1]) && LeftVisible({' '}, 2, words[0]);
  }

  lemma {:induction false} SplitExample()
    ensures Join(" ", ["a", "bcd"]) == "a bcd"
  {
    assert ["a", "bcd"][1..] == ["bcd"];
  }

  lemma {:induction false} VisibleExample()
    ensures Visible({' '}, "a bcd") == "abcd"
  {
    assert "a bcd"[1..] == " bcd" && " bcd"[1..] == "bcd" && "bcd"[1..] == "cd" && "cd"[1..] == "d" && "d"[1..] == "";
    assert Visible({' '}, "cd") == "cd";
    assert Visible({' '}, " bcd") == "bcd";
  }

  lemma {:induction false} CutExample()
    ensures CutVisible({' '}, 2, "bcd") && LeftVisible({' '}, 2, "a")
  {
    assert "bcd"[..2] == "bc" && "bc"[1..] == "c" && "c"[1..] == "";
    assert Visible({' '}, "bc") == "bc";
    VisibleAllCons({' '}, "bc", Slices(2, "bcd"[2..]));
  }

  // --- units: where each character goes ----------------------------------------------------

  /** The same places after `n` others. */
  function Shift(places: seq<nat>, n: nat): (r: seq<nat>)
    ensures |r| == |places| && forall k | 0 <= k < |r| :: r[k] == places[k] + n
  {
    seq(|places|, k requires 0 <= k < |places| => places[k] + n)
  }

  function ClausePlaces(ws: Spaces, hardMax: nat, raw: string): seq<nat>
    requires hardMax > 0
  {
    if |Strip(ws, raw)| > hardMax then HardWrapPlaces(ws, hardMax, Strip(ws, raw)) else Range(0, |Visible(ws, raw)|)
  }

  function AllClausePlaces(ws: Spaces, hardMax: nat, clauses: seq<string>): seq<nat>
    requires hardMax > 0
  {
    if clauses == [] then []
    else
      var before := clauses[..|clauses| - 1];
      AllClausePlaces(ws, hardMax, before) +
      Shift(ClausePlaces(ws, hardMax, clauses[|clauses| - 1]), |VisibleAll(ws, before)|)
  }

  function SentencePlaces(ws: Spaces, hardMax: nat, sentence: string): seq<nat>
    requires hardMax > 0
  {
    if |sentence| > hardMax then AllClausePlaces(ws, hardMax, SplitAfter(ws, CLAUSE_ENDS, sentence))
    else Range(0, |Visible(ws, sentence)|)
  }

  function AllSentencePlaces(ws: Spaces, hardMax: nat, sentences: seq<string>): seq<nat>
    requires hardMax > 0
  {
    if sentences == [] then []
    else
      var before := sentences[..|sentences| - 1];
      AllSentencePlaces(ws, hardMax, before) +
      Shift(SentencePlaces(ws, hardMax, sentences[|sentences| - 1]), |VisibleAll(ws, before)|)
  }

  /** The place each visible character of a segment's units had in the segment. */
  function SegmentPlaces(ws: Spaces, hardMax: nat, text: string): seq<nat>
    requires hardMax > 0
  {
    AllSentencePlaces(ws, hardMax, SplitAfter(ws, SENTENCE_ENDS, Strip(ws, text)))
  }

  /** In a clause that is wrapped, no word is cut that follows a left-over. */
  predicate ClauseInOrder(ws: Spaces, hardMax: nat, raw: string)
    requires hardMax > 0
  {
    |Strip(ws, raw)| > hardMax ==> InOrder(ws, hardMax, Split(' ', Strip(ws, raw)))
  }

  predicate SentenceInOrder(ws: Spaces, hardMax: nat, sentence: string)
    requires hardMax > 0
  {
    |sentence| > hardMax ==>
      forall clause | clause in SplitAfter(ws, CLAUSE_ENDS, sentence) :: ClauseInOrder(ws, hardMax, clause)
  }

  /** No clause of an overlong sentence is wrapped out of order. */
  predicate SegmentInOrder(ws: Spaces, hardMax: nat, text: string)
    requires hardMax > 0
  {
    forall sentence | sentence in SplitAfter(ws, SENTENCE_ENDS, Strip(ws, text)) ::
      SentenceInOrder(ws, hardMax, sentence)
  }

  lemma StillMoves(v: string)
    ensures Moves(v, v, Range(0, |v|), true)
  {
    PickRange(v, 0, |v|);
  }

  /** Two texts side by side. */
  lemma {:induction false} MovesAppend(v0: string, s0: string, p0: seq<nat>, b0: bool,
                                       v1: string, s1: string, p1: seq<nat>, b1: bool)
    requires Moves(v0, s0, p0, b0) && Moves(v1, s1, p1, b1)
    ensures Moves(v0 + v1, s0 + s1, p0 + Shift(p1, |v0|), b0 && b1)
  {
    hide Pick, Range;
    var a, n := |v0|, |v0| + |v1|;
    PickShifted(v0, v1, p1);
    PickMore(v0, v1, p0);
    PickSum(v0 + v1, p0, Shift(p1, a));
    ShiftPermutes(p1, a, |v1|);
    RangeSum(0, a, n);
    assert multiset(p0 + Shift(p1, a)) == multiset(Range(0, n));
    SideBySide(p0, p1, a, |v1|);
  }

  lemma {:induction false} PickShifted(v0: string, v1: string, p: seq<nat>)
    requires Within(p, |v1|)
    ensures Within(Shift(p, |v0|), |v0 + v1|) && Pick(v0 + v1, Shift(p, |v0|)) == Pick(v1, p)
  {
    assert forall k | 0 <= k < |v1| :: (v0 + v1)[k + |v0|] == v1[k];
  }

  lemma {:induction false} ShiftPermutes(p: seq<nat>, a: nat, b: nat)
    requires Within(p, b) && multiset(p) == multiset(Range(0, b))
    ensures multiset(Shift(p, a)) == multiset(Range(a, a + b))
  {
    assert Pick(Range(a, a + b), p) == Shift(p, a);
    PickRange(Range(a, a + b), 0, b);
    PickPermutes(Range(a, a + b), p, Range(0, b));
    assert Range(a, a + b)[0..b] == Range(a, a + b);
  }

  lemma {:induction false} SideBySide(p0: seq<nat>, p1: seq<nat>, a: nat, b: nat)
    requires multiset(p0) == multiset(Range(0, a)) && multiset(p1) == multiset(Range(0, b))
    ensures p0 + Shift(p1, a) == Range(0, a + b) <==> p0 == Range(0, a) && p1 == Range(0, b)
  {
    assert |p0| == |multiset(p0)| == |multiset(Range(0, a))| == a;
    assert |p1| == |multiset(p1)| == |multiset(Range(0, b))| == b;
    if p0 + Shift(p1, a) == Range(0, a + b) {
      forall k | 0 <= k < a ensures p0[k] == k {
        assert (p0 + Shift(p1, a))[k] == k;
      }
      forall k | 0 <= k < b ensures p1[k] == k {
        assert (p0 + Shift(p1, a))[a + k] == a + k;
      }
    }
  }

  // --- units, packing, script -----------------------------------------------------------

  /** What holds of the pieces some text is cut into: their size, and where its characters are in them. */
  ghost predicate GoodPieces(ws: Spaces, limit: nat, text: string, pieces: seq<string>,
                             places: seq<nat>, still: bool) {
    Bounded(limit, pieces) && Moves(text, VisibleAll(ws, pieces), places, still)
  }

  lemma {:induction false} GoodAppend(ws: Spaces, limit: nat, t0: string, s0: seq<string>, p0: seq<nat>, b0: bool,
                                      t1: string, s1: seq<string>, p1: seq<nat>, b1: bool)
    requires GoodPieces(ws, limit, t0, s0, p0, b0) && GoodPieces(ws, limit, t1, s1, p1, b1)
    ensures GoodPieces(ws, limit, t0 + t1, s0 + s1, p0 + Shift(p1, |t0|), b0 && b1)
  {
    hide VisibleAll, Moves;
    VisibleAllAppend(ws, s0, s1);
    MovesAppend(t0, VisibleAll(ws, s0), p0, b0, t1, VisibleAll(ws, s1), p1, b1);
  }

  lemma {:induction false} GoodSingle(ws: Spaces, limit: nat, text: string)
    requires 0 < |text| <= limit
    ensures GoodPieces(ws, limit, Visible(ws, text), [text], Range(0, |Visible(ws, text)|), true)
  {
    hide Moves, Visible;
    VisibleAllCons(ws, text, []);
    assert [text] + [] == [text];
    assert VisibleAll(ws, [text]) == Visible(ws, text);
    StillMoves(Visible(ws, text));
  }

  lemma {:induction false} GoodNone(ws: Spaces, limit: nat, places: seq<nat>, still: bool, shown: string)
    requires Moves("", shown, places, still)
    ensures GoodPieces(ws, limit, "", [], places, still)
  {
  }

  lemma {:induction false} GoodClause(ws: Spaces, hardMax: nat, clause: string)
    requires ' ' in ws && hardMax > 0
    ensures GoodPieces(ws, hardMax, Visible(ws, clause), ClausePieces(ws, hardMax, clause),
                       ClausePlaces(ws, hardMax, clause), ClauseInOrder(ws, hardMax, clause))
  {
    hide Strip, Visible, VisibleAll, HardWrap, HardWrapPlaces, InOrder, Moves, Split;
    var stripped := Strip(ws, clause);
    VisibleStrip(ws, clause);
    if stripped == "" {
      StripBlank(ws, clause);
      StillMoves("");
      GoodNone(ws, hardMax, Range(0, 0), true, "");
    } else if |stripped| <= hardMax {
      GoodSingle(ws, hardMax, stripped);
    } else {
      HardWrapConserves(ws, hardMax, stripped);
      HardWrapMoves(ws, hardMax, stripped);
    }
  }

  lemma {:induction false} GoodClauses(ws: Spaces, hardMax: nat, clauses: seq<string>)
    requires ' ' in ws && hardMax > 0
    ensures GoodPieces(ws, hardMax, VisibleAll(ws, clauses), AllClausePieces(ws, hardMax, clauses),
                       AllClausePlaces(ws, hardMax, clauses),
                       forall clause | clause in clauses :: ClauseInOrder(ws, hardMax, clause))
    decreases |clauses|
  {
    hide ClausePieces, ClausePlaces, ClauseInOrder, Visible, Moves;
    if clauses == [] {
      StillMoves("");
      GoodNone(ws, hardMax, Range(0, 0), true, "");
    } else {
      var before, last := clauses[..|clauses| - 1], clauses[|clauses| - 1];
      assert clauses == before + [last];
      GoodClauses(ws, hardMax, before);
      GoodClause(ws, hardMax, last);
      LastVisible(ws, clauses);
      GoodAppend(ws, hardMax, VisibleAll(ws, before), AllClausePieces(ws, hardMax, before),
                 AllClausePlaces(ws, hardMax, before),
                 forall clause | clause in before :: ClauseInOrder(ws, hardMax, clause),
                 Visible(ws, last), ClausePieces(ws, hardMax, last), ClausePlaces(ws, hardMax, last),
                 ClauseInOrder(ws, hardMax, last));
    }
  }

  lemma {:induction false} GoodSentence(ws: Spaces, hardMax: nat, sentence: string)
    requires ' ' in ws && hardMax > 0
    ensures GoodPieces(ws, hardMax, Visible(ws, sentence), SentenceUnits(ws, hardMax, sentence),
                       SentencePlaces(ws, hardMax, sentence), SentenceInOrder(ws, hardMax, sentence))
  {
    hide Strip, Visible, VisibleAll, AllClausePieces, AllClausePlaces, ClauseInOrder, SplitAfter, Moves;
    VisibleStrip(ws, sentence);
    StripBlank(ws, sentence);
    if |sentence| > hardMax {
      var clauses := SplitAfter(ws, CLAUSE_ENDS, sentence);
      SplitAfterVisible(ws, CLAUSE_ENDS, sentence);
      GoodClauses(ws, hardMax, clauses);
      if Strip(ws, sentence) == "" {
        GoodNone(ws, hardMax, AllClausePlaces(ws, hardMax, clauses), SentenceInOrder(ws, hardMax, sentence),
                 VisibleAll(ws, AllClausePieces(ws, hardMax, clauses)));
      }
    } else if Strip(ws, sentence) == "" {
      StillMoves("");
      GoodNone(ws, hardMax, Range(0, 0), true, "");
    } else {
      GoodSingle(ws, hardMax, Strip(ws, sentence));
    }
  }

  lemma {:induction false} GoodSentences(ws: Spaces, hardMax: nat, sentences: seq<string>)
    requires ' ' in ws && hardMax > 0
    ensures GoodPieces(ws, hardMax, VisibleAll(ws, sentences), AllUnits(ws, hardMax, sentences),
                       AllSentencePlaces(ws, hardMax, sentences),
                       forall sentence | sentence in sentences :: SentenceInOrder(ws, hardMax, sentence))
    decreases |sentences|
  {
    hide SentenceUnits, SentencePlaces, SentenceInOrder, Visible, Moves;
    if sentences == [] {
      StillMoves("");
      GoodNone(ws, hardMax, Range(0, 0), true, "");
    } else {
      var before, last := sentences[..|sentences| - 1], sentences[|sentences| - 1];
      assert sentences == before + [last];
      GoodSentences(ws, hardMax, before);
      GoodSentence(ws, hardMax, last);
      LastVisible(ws, sentences);
      GoodAppend(ws, hardMax, VisibleAll(ws, before), AllUnits(ws, hardMax, before),
                 AllSentencePlaces(ws, hardMax, before),
                 forall sentence | sentence in before :: SentenceInOrder(ws, hardMax, sentence),
                 Visible(ws, last), SentenceUnits(ws, hardMax, last), SentencePlaces(ws, hardMax, last),
                 SentenceInOrder(ws, hardMax, last));
    }
  }

  /** The units of a segment are non-empty, within the hard limit, and hold each of its visible characters once,
      all of them at their places if and only if no clause is wrapped out of order. */
  lemma {:induction false} UnitsAreGood(ws: Spaces, hardMax: nat, text: string)
    requires ' ' in ws && hardMax > 0
    ensures GoodPieces(ws, hardMax, Visible(ws, text), Units(ws, hardMax, text),
                       SegmentPlaces(ws, hardMax, text), SegmentInOrder(ws, hardMax, text))
  {
    hide Visible, VisibleAll, AllUnits, AllSentencePlaces, SentenceInOrder, SplitAfter, GoodPieces, Strip;
    VisibleStrip(ws, text);
    SplitAfterVisible(ws, SENTENCE_ENDS, Strip(ws, text));
    GoodSentences(ws, hardMax, SplitAfter(ws, SENTENCE_ENDS, Strip(ws, text)));
  }

  function Max(a: int, b: int): int {
    if a > b then a else b
  }

  /** Packing keeps the visible text and never grows a chunk past the larger of target and limit. */
  lemma {:induction false} PackFacts(ws: Spaces, target: int, limit: nat, buf: string, units: seq<string>)
    requires ' ' in ws && Bounded(limit, units) && |buf| <= Max(target, limit)
    ensures Bounded(Max(target, limit), PackFrom(target, buf, units))
    ensures VisibleAll(ws, PackFrom(target, buf, units)) == Visible(ws, buf) + VisibleAll(ws, units)
    decreases |units|
  {
    hide Visible, VisibleAll;
    if units == [] {
      VisibleAllCons(ws, buf, []);
      assert [buf] + [] == [buf];
      BlankIsInvisible(ws, "");
    } else {
      var unit, rest := units[0], units[1..];
      assert unit in units && forall u | u in rest :: u in units;
      assert units == [unit] + rest;
      VisibleAllCons(ws, unit, rest);
      if buf == "" {
        PackFacts(ws, target, limit, unit, rest);
        BlankIsInvisible(ws, "");
      } else if |buf| + 1 + |unit| > target {
        PackFacts(ws, target, limit, unit, rest);
        VisibleAllCons(ws, buf, PackFrom(target, unit, rest));
      } else {
        PackFacts(ws, target, limit, buf + " " + unit, rest);
        VisibleBetween(ws, buf, " ", unit);
        AppendAssoc(Visible(ws, buf), Visible(ws, unit), VisibleAll(ws, rest));
      }
    }
  }

  /** The texts of one segment's chunks. */
  function SegmentTexts(ws: Spaces, target: int, hardMax: nat, seg: Segment): seq<string>
    requires hardMax > 0
  {
    Pack(target, Units(ws, hardMax, seg.text))
  }

  /** Chunks of a segment: non-empty, bounded, and with its visible characters where its units have them. */
  lemma {:induction false} SegmentIsGood(ws: Spaces, target: int, hardMax: nat, seg: Segment)
    requires ' ' in ws && hardMax > 0
    ensures GoodPieces(ws, Max(target, hardMax), Visible(ws, seg.text), SegmentTexts(ws, target, hardMax, seg),
                       SegmentPlaces(ws, hardMax, seg.text), SegmentInOrder(ws, hardMax, seg.text))
  {
    hide Visible, VisibleAll, Units, PackFrom, SegmentPlaces, SegmentInOrder, Moves;
    UnitsAreGood(ws, hardMax, seg.text);
    PackFacts(ws, target, hardMax, "", Units(ws, hardMax, seg.text));
    BlankIsInvisible(ws, "");
    assert VisibleAll(ws, SegmentTexts(ws, target, hardMax, seg)) == VisibleAll(ws, Units(ws, hardMax, seg.text));
  }

  function AllTexts(segments: seq<Segment>): string {
    if segments == [] then "" else AllTexts(segments[..|segments| - 1]) + segments[|segments| - 1].text
  }

  function ChunkTexts(chunks: seq<Chunk>): seq<string> {
    seq(|chunks|, i requires 0 <= i < |chunks| => chunks[i].text)
  }

  /** The place each visible character of the chunks had in the script. */
  function ScriptPlaces(ws: Spaces, hardMax: nat, segments: seq<Segment>): seq<nat>
    requires hardMax > 0
  {
    if segments == [] then []
    else
      var before := segments[..|segments| - 1];
      ScriptPlaces(ws, hardMax, before) +
      Shift(SegmentPlaces(ws, hardMax, segments[|segments| - 1].text), |Visible(ws, AllTexts(before))|)
  }

  predicate ScriptInOrder(ws: Spaces, hardMax: nat, segments: seq<Segment>)
    requires hardMax > 0
  {
    forall seg | seg in segments :: SegmentInOrder(ws, hardMax, seg.text)
  }

  lemma {:induction false} AddSegmentTexts(ws: Spaces, target: int, hardMax: nat, before: seq<Chunk>, seg: Segment)
    requires hardMax > 0
    ensures ChunkTexts(AddSegment(ws, target, hardMax, before, seg)) ==
            ChunkTexts(before) + SegmentTexts(ws, target, hardMax, seg)
  {
    hide Units, PackFrom;
  }

  /** The whole script: every chunk is non-empty and bounded, every visible character is in the chunks once, and
      each at the place it had if and only if no clause is wrapped out of order. */
  lemma {:induction false} ScriptIsGood(ws: Spaces, target: int, hardMax: nat, segments: seq<Segment>)
    requires ' ' in ws && hardMax > 0
    ensures GoodPieces(ws, Max(target, hardMax), Visible(ws, AllTexts(segments)),
                       ChunkTexts(AllChunks(ws, target, hardMax, segments)),
                       ScriptPlaces(ws, hardMax, segments), ScriptInOrder(ws, hardMax, segments))
    decreases |segments|
  {
    hide Visible, SegmentTexts, VisibleAll, SegmentPlaces, SegmentInOrder, Moves, AddSegment;
    if segments == [] {
      BlankIsInvisible(ws, "");
      StillMoves("");
      GoodNone(ws, Max(target, hardMax), Range(0, 0), true, "");
    } else {
      var before, last := segments[..|segments| - 1], segments[|segments| - 1];
      assert segments == before + [last];
      ScriptIsGood(ws, target, hardMax, before);
      SegmentIsGood(ws, target, hardMax, last);
      VisibleConcat(ws, AllTexts(before), last.text);
      GoodAppend(ws, Max(target, hardMax), Visible(ws, AllTexts(before)),
                 ChunkTexts(AllChunks(ws, target, hardMax, before)), ScriptPlaces(ws, hardMax, before),
                 ScriptInOrder(ws, hardMax, before),
                 Visible(ws, last.text), SegmentTexts(ws, target, hardMax, last),
                 SegmentPlaces(ws, hardMax, last.text), SegmentInOrder(ws, hardMax, last.text));
      AddSegmentTexts(ws, target, hardMax, AllChunks(ws, target, hardMax, before), last);
    }
  }

  /** So the visible characters of a script survive as a multiset; in order when no clause is wrapped out of
      order, as when no space-free word exceeds the hard limit; and a script of distinct characters shows it
      when one is. */
  lemma {:induction false} ScriptKeeps(ws: Spaces, target: int, hardMax: nat, segments: seq<Segment>)
    requires ' ' in ws && hardMax > 0
    ensures var v := Visible(ws, AllTexts(segments));
            var shown := VisibleAll(ws, ChunkTexts(AllChunks(ws, target, hardMax, segments)));
            && multiset(shown) == multiset(v)
            && (ScriptInOrder(ws, hardMax, segments) ==> shown == v)
            && (Distinct(v) && shown == v ==> ScriptInOrder(ws, hardMax, segments))
            && ((forall seg | seg in segments :: ShortWords(hardMax, seg.text)) ==> shown == v)
  {
    hide Visible, VisibleAll, AllChunks, AllTexts, ScriptPlaces, Moves, Distinct, ShortWords, SegmentInOrder;
    ScriptIsGood(ws, target, hardMax, segments);
    MovedIsKept(Visible(ws, AllTexts(segments)), VisibleAll(ws, ChunkTexts(AllChunks(ws, target, hardMax, segments))),
                ScriptPlaces(ws, hardMax, segments), ScriptInOrder(ws, hardMax, segments));
    if forall seg | seg in segments :: ShortWords(hardMax, seg.text) {
      forall seg | seg in segments ensures SegmentInOrder(ws, hardMax, seg.text) {
        ShortSegment(ws, hardMax, seg.text);
      }
    }
  }

  // --- short words are in order -------------------------------------------------------------

  lemma {:induction false} ShortWordsStrip(ws: Spaces, hardMax: nat, text: string)
    requires ShortWords(hardMax, text)
    ensures ShortWords(hardMax, Strip(ws, text))
  {
    var l := StripLeft(ws, text);
    assert text[|text| - |l|..|text|] == l;
    ShortWordsSlice(hardMax, text, |text| - |l|, |text|);
    var r := StripRight(ws, l);
    assert l[0..|r|] == r;
    ShortWordsSlice(hardMax, l, 0, |r|);
  }

  lemma {:induction false} ShortWordsSplitAfter(ws: Spaces, ends: set<char>, hardMax: nat, text: string)
    requires ShortWords(hardMax, text)
    ensures forall part | part in SplitAfter(ws, ends, text) :: ShortWords(hardMax, part)
    decreases |text|
  {
    var i := FirstBreak(ws, ends, text, 0);
    if i < |text| {
      var j := SkipSpaces(ws, text, i);
      ShortWordsSlice(hardMax, text, 0, i);
      ShortWordsSlice(hardMax, text, j, |text|);
      assert text[0..i] == text[..i] && text[j..|text|] == text[j..];
      ShortWordsSplitAfter(ws, ends, hardMax, text[j..]);
    }
  }

  lemma {:induction false} ShortClause(ws: Spaces, hardMax: nat, clause: string)
    requires hardMax > 0 && ShortWords(hardMax, clause)
    ensures ClauseInOrder(ws, hardMax, clause)
  {
    hide ShortWords, Split, Strip, CutVisible;
    var words := Split(' ', Strip(ws, clause));
    ShortWordsStrip(ws, hardMax, clause);
    ShortWordsSplit(hardMax, Strip(ws, clause));
    forall j | 0 <= j < |words| ensures !CutVisible(ws, hardMax, words[j]) {
      assert words[j] in words;
      ShortWordUncut(ws, hardMax, words[j]);
    }
  }

  lemma {:induction false} ShortWordUncut(ws: Spaces, hardMax: nat, word: string)
    requires hardMax > 0 && |word| <= hardMax
    ensures !CutVisible(ws, hardMax, word)
  {
  }

  lemma {:induction false} ShortSegment(ws: Spaces, hardMax: nat, text: string)
    requires hardMax > 0 && ShortWords(hardMax, text)
    ensures SegmentInOrder(ws, hardMax, text)
  {
    hide ShortWords, SplitAfter, Strip, ClauseInOrder;
    ShortWordsStrip(ws, hardMax, text);
    ShortWordsSplitAfter(ws, SENTENCE_ENDS, hardMax, Strip(ws, text));
    forall sentence | sentence in SplitAfter(ws, SENTENCE_ENDS, Strip(ws, text))
      ensures SentenceInOrder(ws, hardMax, sentence)
    {
      ShortWordsSplitAfter(ws, CLAUSE_ENDS, hardMax, sentence);
      forall clause | clause in SplitAfter(ws, CLAUSE_ENDS, sentence) ensures ClauseInOrder(ws, hardMax, clause) {
        ShortClause(ws, hardMax, clause);
      }
    }
  }

  // --- numbering --------------------------------------------------------------------------------

  /** The pauses a script's chunks carry: each segment's own on its last chunk, none elsewhere. */
  function Pauses(ws: Spaces, target: int, hardMax: nat, segments: seq<Segment>): seq<int>
    requires hardMax > 0
  {
    if segments == [] then []
    else
      var last := segments[|segments| - 1];
      var n := |SegmentTexts(ws, target, hardMax, last)|;
      Pauses(ws, target, hardMax, segments[..|segments| - 1]) + if n == 0 then [] else seq(n - 1, i => 0) + [last.pause]
  }

  /** Chunks are numbered 1 to n and each segment's pause sits on its last chunk only. */
  lemma {:induction false} ScriptNumbering(ws: Spaces, target: int, hardMax: nat, segments: seq<Segment>)
    requires hardMax > 0
    ensures var chunks := AllChunks(ws, target, hardMax, segments);
            && (forall k | 0 <= k < |chunks| :: chunks[k].idx == k + 1)
            && |Pauses(ws, target, hardMax, segments)| == |chunks|
            && (forall k | 0 <= k < |chunks| :: chunks[k].pause == Pauses(ws, target, hardMax, segments)[k])
    decreases |segments|
  {
    hide Units, PackFrom;
    if segments != [] {
      ScriptNumbering(ws, target, hardMax, segments[..|segments| - 1]);
    }
  }
}
