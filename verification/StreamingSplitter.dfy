/** The splitter inside `_cloud_narrate` (`narration/src/narration/pipeline.py`): text arrives in
    deltas, whole sentences are held back, and scripts are emitted as soon as enough are held. */
module StreamingSplitter {
  import opened Text
  import opened PlaybackChunker

  // --- pop_chunks ------------------------------------------------------------------

  /** How many of `n` held sentences the next script takes; zero when it has to wait. */
  function PopTake(first: bool, final: bool, n: nat): (take: nat)
    ensures take <= n
  {
    if first then
      if n < 2 && !final then 0 else if n < 2 then n else 2
    else if final then
      if n < 4 then n else 4
    else if n >= 3 then 3 else 0
  }

  function PopSlices(first: bool, final: bool, held: seq<string>): seq<seq<string>>
    decreases |held|
  {
    var take := PopTake(first, final, |held|);
    if take == 0 then [] else [held[..take]] + PopSlices(false, final, held[take..])
  }

  function PopRest(first: bool, final: bool, held: seq<string>): seq<string>
    decreases |held|
  {
    var take := PopTake(first, final, |held|);
    if take == 0 then held else PopRest(false, final, held[take..])
  }

  method PopChunks(held0: seq<string>, scripts0: seq<string>, final: bool)
    returns (held: seq<string>, scripts: seq<string>)
    ensures scripts == scripts0 + JoinEach(PopSlices(scripts0 == [], final, held0))
    ensures held == PopRest(scripts0 == [], final, held0)
  {
    held, scripts := held0, scripts0;
    hide Join;
    while held != []
      invariant scripts0 + JoinEach(PopSlices(scripts0 == [], final, held0)) ==
                scripts + JoinEach(PopSlices(scripts == [], final, held))
      invariant PopRest(scripts0 == [], final, held0) == PopRest(scripts == [], final, held)
      decreases |held|
    {
      if scripts == [] && |held| < 2 && !final {
        return;
      }
      var take;
      if scripts == [] {
        take := if |held| < 2 then |held| else 2;
      } else if |held| >= 3 || final {
        take := if final then if |held| < 4 then |held| else 4 else 3;
      } else {
        return;
      }
      PopStep(scripts, held, final, take);
      scripts := scripts + [Join(" ", held[..take])];
      held := held[take..];
    }
  }

  lemma {:induction false} PopStep(scripts: seq<string>, held: seq<string>, final: bool, take: nat)
    requires take == PopTake(scripts == [], final, |held|) && take > 0
    ensures scripts + JoinEach(PopSlices(scripts == [], final, held)) ==
            (scripts + [Join(" ", held[..take])]) + JoinEach(PopSlices(false, final, held[take..]))
    ensures PopRest(scripts == [], final, held) == PopRest(false, final, held[take..])
  {
    hide Join;
    var later := PopSlices(false, final, held[take..]);
    assert ([held[..take]] + later)[1..] == later;
    AppendAssoc(scripts, [Join(" ", held[..take])], JoinEach(later));
  }

  // --- the delta loop ----------------------------------------------------------------

  /** The loop's variables; the emitted scripts are the joins of `slices`. */
  datatype Stream = Stream(buf: string, held: seq<string>, slices: seq<seq<string>>) {
    function Scripts(): seq<string> {
      JoinEach(slices)
    }
  }

  predicate OpenEnded(ws: Spaces, buf: string) {
    buf != "" && !Ended(StripRight(ws, buf))
  }

  /** The delta is appended and whole sentences move to the held ones. */
  function Take(ws: Spaces, st: Stream, piece: string): Stream {
    var buf := st.buf + piece;
    var parts := SplitSentences(ws, buf);
    if !OpenEnded(ws, buf) then st.(buf := "", held := st.held + parts)
    else if parts == [] then st.(buf := buf)
    else st.(buf := parts[|parts| - 1], held := st.held + parts[..|parts| - 1])
  }

  function Pop(st: Stream, final: bool): Stream {
    st.(held := PopRest(st.slices == [], final, st.held),
        slices := st.slices + PopSlices(st.slices == [], final, st.held))
  }

  /** The variables after a list of deltas, and after the stream has ended. */
  function After(ws: Spaces, pieces: seq<string>): Stream {
    if pieces == [] then Stream("", [], [])
    else Pop(Take(ws, After(ws, pieces[..|pieces| - 1]), pieces[|pieces| - 1]), false)
  }

  function Finish(ws: Spaces, st: Stream): Stream {
    Pop(st.(buf := "", held := st.held + if Strip(ws, st.buf) == "" then [] else [Strip(ws, st.buf)]), true)
  }

  /** One task for each script, holding that script: the dictionary the source fills. */
  predicate OneTaskEach(tasks: map<nat, string>, scripts: seq<string>) {
    && (forall i | i in tasks :: i < |scripts|)
    && (forall i: nat | i < |scripts| :: i in tasks && tasks[i] == scripts[i])
  }

  method LaunchTasks(tasks0: map<nat, string>, started: nat, scripts: seq<string>) returns (tasks: map<nat, string>)
    requires started <= |scripts| && OneTaskEach(tasks0, scripts[..started])
    ensures OneTaskEach(tasks, scripts)
    ensures forall i | i in tasks0 :: tasks[i] == tasks0[i]
  {
    tasks := tasks0;
    var n := started;
    while n < |scripts|
      invariant started <= n <= |scripts|
      invariant OneTaskEach(tasks, scripts[..n])
      invariant forall i | i in tasks0 :: i < started && i in tasks && tasks[i] == tasks0[i]
    {
      tasks := tasks[n := scripts[n]];
      n := n + 1;
    }
    assert scripts[..n] == scripts;
  }

  /** The source's variables hold the value `st`. */
  predicate Tracks(st: Stream, buf: string, held: seq<string>, scripts: seq<string>) {
    st.buf == buf && st.held == held && st.Scripts() == scripts
  }

  /** One turn of the loop, up to the launching of tasks. */
  method FeedDelta(ws: Spaces, ghost st: Stream, buf0: string, held0: seq<string>, scripts0: seq<string>, piece: string)
    returns (buf: string, held: seq<string>, scripts: seq<string>)
    requires Tracks(st, buf0, held0, scripts0)
    ensures Tracks(Pop(Take(ws, st, piece), false), buf, held, scripts)
    ensures scripts0 <= scripts
  {
    hide SplitSentences, PopSlices, PopRest, JoinEach;
    buf, held, scripts := buf0 + piece, held0, scripts0;
    var parts := SplitSentences(ws, buf);
    if buf != "" && !Ended(StripRight(ws, buf)) {
      assert held + [] == held;
      held := held + if parts == [] then [] else parts[..|parts| - 1];
      buf := if parts == [] then buf else parts[|parts| - 1];
    } else {
      held := held + parts;
      buf := "";
    }
    PopScripts(Take(ws, st, piece), false);
    held, scripts := PopChunks(held, scripts, false);
  }

  /** What follows the loop: the rest of the buffer is held and everything held is emitted. */
  method FlushStream(ws: Spaces, ghost st: Stream, buf: string, held0: seq<string>, scripts0: seq<string>)
    returns (held: seq<string>, scripts: seq<string>)
    requires Tracks(st, buf, held0, scripts0)
    ensures scripts == Finish(ws, st).Scripts()
    ensures scripts0 <= scripts
  {
    hide Strip, PopSlices, PopRest, JoinEach;
    held := held0;
    assert held + [] == held;
    if Strip(ws, buf) != "" {
      held := held + [Strip(ws, buf)];
    }
    PopScripts(st.(buf := "", held := held), true);
    held, scripts := PopChunks(held, scripts0, true);
  }

  /** The whole stream: the scripts emitted and the tasks launched for them. */
  method NarrateStream(ws: Spaces, pieces: seq<string>) returns (scripts: seq<string>, tasks: map<nat, string>)
    ensures scripts == Finish(ws, After(ws, pieces)).Scripts()
    ensures OneTaskEach(tasks, scripts)
  {
    hide Take, Pop, Finish, OneTaskEach;
    scripts, tasks := [], map[];
    var buf, held := "", [];
    assert OneTaskEach(tasks, scripts) by { NoTasks(); }
    for i := 0 to |pieces|
      invariant Tracks(After(ws, pieces[..i]), buf, held, scripts)
      invariant OneTaskEach(tasks, scripts)
    {
      assert pieces[..i + 1][..i] == pieces[..i];
      var n, before := |scripts|, scripts;
      buf, held, scripts := FeedDelta(ws, After(ws, pieces[..i]), buf, held, scripts, pieces[i]);
      assert scripts[..n] == before;
      tasks := LaunchTasks(tasks, n, scripts);
    }
    assert pieces[..|pieces|] == pieces;
    var n, before := |scripts|, scripts;
    held, scripts := FlushStream(ws, After(ws, pieces), buf, held, scripts);
    assert scripts[..n] == before;
    tasks := LaunchTasks(tasks, n, scripts);
  }

  lemma {:induction false} NoTasks()
    ensures OneTaskEach(map[], [])
  {
  }

  lemma {:induction false} JoinEachAppend(a: seq<seq<string>>, b: seq<seq<string>>)
    ensures JoinEach(a + b) == JoinEach(a) + JoinEach(b)
  {
    hide Join;
    if a == [] {
      assert a + b == b;
    } else {
      JoinEachAppend(a[1..], b);
      assert (a + b)[1..] == a[1..] + b;
      AppendAssoc([Join(" ", a[0])], JoinEach(a[1..]), JoinEach(b));
    }
  }

  lemma {:induction false} PopScripts(st: Stream, final: bool)
    ensures Pop(st, final).Scripts() == st.Scripts() + JoinEach(PopSlices(st.Scripts() == [], final, st.held))
    ensures st.slices == [] <==> st.Scripts() == []
  {
    hide PopSlices, PopRest;
    JoinEachAppend(st.slices, PopSlices(st.slices == [], final, st.held));
    JoinEachAt(st.slices);
  }

  // --- what is kept --------------------------------------------------------------------

  lemma {:induction false} VisibleJoinEach(ws: Spaces, slices: seq<seq<string>>)
    requires ' ' in ws
    ensures VisibleAll(ws, JoinEach(slices)) == VisibleAll(ws, Flatten(slices))
  {
    hide Join, Visible;
    if slices != [] {
      VisibleJoinEach(ws, slices[1..]);
      VisibleJoin(ws, " ", slices[0]);
      VisibleAllAppend(ws, slices[0], Flatten(slices[1..]));
      VisibleAllCons(ws, Join(" ", slices[0]), JoinEach(slices[1..]));
    }
  }

  lemma {:induction false} VisibleStripped(ws: Spaces, parts: seq<string>)
    ensures VisibleAll(ws, Stripped(ws, parts)) == VisibleAll(ws, parts)
  {
    hide Strip, Visible, VisibleAll;
    if parts == [] {
      assert Stripped(ws, parts) == parts;
    } else {
      VisibleStripped(ws, parts[1..]);
      VisibleStrip(ws, parts[0]);
      StripBlank(ws, parts[0]);
      KeepFirst(ws, Strip(ws, parts[0]), Stripped(ws, parts[1..]));
      VisibleAllCons(ws, parts[0], parts[1..]);
      assert parts == [parts[0]] + parts[1..];
    }
  }

  lemma {:induction false} KeepFirst(ws: Spaces, s: string, rest: seq<string>)
    requires s == "" <==> Visible(ws, s) == ""
    ensures VisibleAll(ws, (if s != "" then [s] else []) + rest) == Visible(ws, s) + VisibleAll(ws, rest)
  {
    hide Visible;
    if s != "" {
      VisibleAllCons(ws, s, rest);
    } else {
      assert [] + rest == rest;
    }
  }

  lemma {:induction false} VisibleSentences(ws: Spaces, text: string)
    ensures VisibleAll(ws, SplitSentences(ws, text)) == Visible(ws, text)
  {
    hide Strip, Visible, SplitAfter, Stripped;
    SplitAfterVisible(ws, SENTENCE_ENDS, text);
    VisibleStripped(ws, SplitAfter(ws, SENTENCE_ENDS, text));
    VisibleStrip(ws, text);
    StripBlank(ws, text);
    VisibleAllCons(ws, Strip(ws, text), []);
    assert [Strip(ws, text)] + [] == [Strip(ws, text)];
  }

  /** Everything visible that the stream holds: emitted, held and buffered. */
  function Shown(ws: Spaces, st: Stream): string {
    VisibleAll(ws, Flatten(st.slices)) + VisibleAll(ws, st.held) + Visible(ws, st.buf)
  }

  lemma {:induction false} FlattenAppend<T>(a: seq<seq<T>>, b: seq<seq<T>>)
    ensures Flatten(a + b) == Flatten(a) + Flatten(b)
  {
    if a == [] {
      assert a + b == b;
    } else {
      FlattenAppend(a[1..], b);
      assert (a + b)[1..] == a[1..] + b;
      AppendAssoc(a[0], Flatten(a[1..]), Flatten(b));
    }
  }

  lemma {:induction false} PopKeeps(first: bool, final: bool, held: seq<string>)
    ensures Flatten(PopSlices(first, final, held)) + PopRest(first, final, held) == held
    ensures final ==> PopRest(first, final, held) == []
    decreases |held|
  {
    var take := PopTake(first, final, |held|);
    if take > 0 {
      var later := PopSlices(false, final, held[take..]);
      PopKeeps(false, final, held[take..]);
      assert ([held[..take]] + later)[1..] == later;
      AppendAssoc(held[..take], Flatten(later), PopRest(false, final, held[take..]));
      assert held[..take] + held[take..] == held;
    }
  }

  lemma {:induction false} PopShows(ws: Spaces, st: Stream, final: bool)
    ensures Shown(ws, Pop(st, final)) == Shown(ws, st)
    ensures final ==> Pop(st, final).held == []
  {
    hide VisibleAll, Visible, Flatten, PopSlices, PopRest;
    var slices, rest := PopSlices(st.slices == [], final, st.held), PopRest(st.slices == [], final, st.held);
    PopKeeps(st.slices == [], final, st.held);
    FlattenAppend(st.slices, slices);
    VisibleAllAppend(ws, Flatten(st.slices), Flatten(slices));
    VisibleAllAppend(ws, Flatten(slices), rest);
    AppendAssoc(VisibleAll(ws, Flatten(st.slices)), VisibleAll(ws, Flatten(slices)), VisibleAll(ws, rest));
  }

  lemma {:induction false} TakeShows(ws: Spaces, st: Stream, piece: string)
    ensures Shown(ws, Take(ws, st, piece)) == Shown(ws, st) + Visible(ws, piece)
  {
    hide VisibleAll, Visible, Flatten, SplitSentences, OpenEnded;
    var buf := st.buf + piece;
    var parts := SplitSentences(ws, buf);
    VisibleConcat(ws, st.buf, piece);
    VisibleSentences(ws, buf);
    BlankIsInvisible(ws, "");
    var out, held := VisibleAll(ws, Flatten(st.slices)), VisibleAll(ws, st.held);
    AppendAssoc(out + held, Visible(ws, st.buf), Visible(ws, piece));
    if !OpenEnded(ws, buf) {
      VisibleAllAppend(ws, st.held, parts);
      AppendAssoc(out, held, VisibleAll(ws, parts));
    } else if parts != [] {
      var front, last := parts[..|parts| - 1], parts[|parts| - 1];
      LastVisible(ws, parts);
      VisibleAllAppend(ws, st.held, front);
      AppendAssoc(out, held, VisibleAll(ws, front));
      AppendAssoc(out + held, VisibleAll(ws, front), Visible(ws, last));
    }
  }

  lemma {:induction false} AfterShows(ws: Spaces, pieces: seq<string>)
    ensures Shown(ws, After(ws, pieces)) == VisibleAll(ws, pieces)
    decreases |pieces|
  {
    hide Shown, Take, Pop;
    if pieces == [] {
      ShowsNothing(ws);
    } else {
      var front, last := pieces[..|pieces| - 1], pieces[|pieces| - 1];
      AfterShows(ws, front);
      TakeShows(ws, After(ws, front), last);
      PopShows(ws, Take(ws, After(ws, front), last), false);
      LastVisible(ws, pieces);
    }
  }

  lemma {:induction false} ShowsNothing(ws: Spaces)
    ensures Shown(ws, Stream("", [], [])) == ""
  {
  }

  /** However the text is cut into deltas, the scripts show exactly its visible characters, in order. */
  lemma {:induction false} StreamConserves(ws: Spaces, pieces: seq<string>)
    requires ' ' in ws
    ensures VisibleAll(ws, Finish(ws, After(ws, pieces)).Scripts()) == Visible(ws, Concat(pieces))
  {
    hide VisibleAll, Visible, Flatten, PopSlices, PopRest, Strip, After, JoinEach;
    var st := After(ws, pieces);
    var last := Strip(ws, st.buf);
    var st' := st.(buf := "", held := st.held + if last == "" then [] else [last]);
    AfterShows(ws, pieces);
    VisibleAllIsConcat(ws, pieces);
    FlushShows(ws, st);
    PopShows(ws, st', true);
    VisibleJoinEach(ws, Pop(st', true).slices);
    BlankIsInvisible(ws, "");
    VisibleAllIsConcat(ws, []);
    BlankIsInvisible(ws, Concat([]));
  }

  lemma {:induction false} FlushShows(ws: Spaces, st: Stream)
    ensures var last := Strip(ws, st.buf);
            Shown(ws, st.(buf := "", held := st.held + if last == "" then [] else [last])) == Shown(ws, st)
  {
    hide VisibleAll, Visible, Flatten, Strip;
    var last := Strip(ws, st.buf);
    VisibleStrip(ws, st.buf);
    StripBlank(ws, st.buf);
    BlankIsInvisible(ws, "");
    if last != "" {
      VisibleAllAppend(ws, st.held, [last]);
      VisibleAllCons(ws, last, []);
      VisibleAllIsConcat(ws, []);
      BlankIsInvisible(ws, Concat([]));
      assert [last] + [] == [last];
      AppendAssoc(VisibleAll(ws, Flatten(st.slices)), VisibleAll(ws, st.held), Visible(ws, last));
    } else {
      assert st.held + [] == st.held;
    }
  }

  // --- what is emitted -------------------------------------------------------------------

  lemma {:induction false} AfterGrows(ws: Spaces, pieces: seq<string>, more: seq<string>)
    ensures After(ws, pieces).slices <= After(ws, pieces + more).slices
    decreases |more|
  {
    hide Take, PopSlices, PopRest;
    if more == [] {
      assert pieces + more == pieces;
    } else {
      var front := more[..|more| - 1];
      AfterGrows(ws, pieces, front);
      assert (pieces + more)[..|pieces + more| - 1] == pieces + front;
      TakeKeepsSlices(ws, After(ws, pieces + front), more[|more| - 1]);
    }
  }

  lemma {:induction false} TakeKeepsSlices(ws: Spaces, st: Stream, piece: string)
    ensures Take(ws, st, piece).slices == st.slices
  {
  }

  /** A script, once emitted, keeps its place and its text in everything that follows. */
  lemma {:induction false} ScriptsNeverChange(ws: Spaces, pieces: seq<string>, more: seq<string>)
    ensures After(ws, pieces).Scripts() <= After(ws, pieces + more).Scripts()
    ensures After(ws, pieces).Scripts() <= Finish(ws, After(ws, pieces + more)).Scripts()
  {
    hide After, JoinEach, PopSlices, PopRest, Strip;
    AfterGrows(ws, pieces, more);
    JoinEachPrefix(After(ws, pieces).slices, After(ws, pieces + more).slices);
    JoinEachPrefix(After(ws, pieces).slices, Finish(ws, After(ws, pieces + more)).slices);
  }

  lemma {:induction false} JoinEachPrefix(a: seq<seq<string>>, b: seq<seq<string>>)
    requires a <= b
    ensures JoinEach(a) <= JoinEach(b)
  {
    JoinEachAppend(a, b[|a|..]);
    assert a + b[|a|..] == b;
  }

  /** Full scripts: two sentences in the first and three in every other while the text comes in, two and four
      once it has ended; only the last of all may have fewer. */
  ghost predicate GoodScripts(slices: seq<seq<string>>, flushed: nat) {
    forall k | 0 <= k < |slices| :: GoodSize(k == 0, k >= flushed, k == |slices| - 1, |slices[k]|)
  }

  predicate GoodSize(first: bool, final: bool, last: bool, n: nat) {
    var full := if first then 2 else if final then 4 else 3;
    if final && last then 1 <= n <= full else n == full
  }

  /** What one round of popping emits. */
  ghost predicate GoodPops(first: bool, final: bool, slices: seq<seq<string>>) {
    forall k | 0 <= k < |slices| :: GoodSize(first && k == 0, final, k == |slices| - 1, |slices[k]|)
  }

  lemma {:induction false} PopSizes(first: bool, final: bool, held: seq<string>)
    ensures GoodPops(first, final, PopSlices(first, final, held))
    ensures final ==> PopRest(first, final, held) == []
    ensures !final ==> |PopRest(first, final, held)| < if first && PopSlices(first, final, held) == [] then 2 else 3
    decreases |held|
  {
    var take := PopTake(first, final, |held|);
    if take > 0 {
      var now, later := held[..take], PopSlices(false, final, held[take..]);
      PopSizes(false, final, held[take..]);
      assert final && take < (if first then 2 else 4) ==> held[take..] == [] && later == [];
      assert later == [] ==> !final || held[take..] == [] by {
        if later == [] && held[take..] != [] {
          assert PopTake(false, final, |held[take..]|) == 0;
        }
      }
      forall k | 0 <= k < |[now] + later|
        ensures GoodSize(first && k == 0, final, k == |later|, |([now] + later)[k]|)
      {
        if k > 0 {
          assert ([now] + later)[k] == later[k - 1];
        }
      }
    }
  }

  lemma {:induction false} AfterSizes(ws: Spaces, pieces: seq<string>)
    ensures GoodScripts(After(ws, pieces).slices, |After(ws, pieces).slices|)
    ensures |After(ws, pieces).held| < if After(ws, pieces).slices == [] then 2 else 3
    decreases |pieces|
  {
    hide Take, PopSlices, PopRest;
    if pieces != [] {
      var front := pieces[..|pieces| - 1];
      AfterSizes(ws, front);
      TakeKeepsSlices(ws, After(ws, front), pieces[|pieces| - 1]);
      var st := Take(ws, After(ws, front), pieces[|pieces| - 1]);
      PopSizes(st.slices == [], false, st.held);
      var later := PopSlices(st.slices == [], false, st.held);
      assert forall k | |st.slices| <= k < |st.slices| + |later| :: (st.slices + later)[k] == later[k - |st.slices|];
    }
  }

  /** While the text comes in no script waits that could be full; and once it has ended only the last is not. */
  lemma {:induction false} StreamSizes(ws: Spaces, pieces: seq<string>)
    ensures |After(ws, pieces).held| < if After(ws, pieces).slices == [] then 2 else 3
    ensures GoodScripts(Finish(ws, After(ws, pieces)).slices, |After(ws, pieces).slices|)
  {
    hide After, PopSlices, PopRest, Strip;
    AfterSizes(ws, pieces);
    var st := After(ws, pieces);
    var held := st.held + if Strip(ws, st.buf) == "" then [] else [Strip(ws, st.buf)];
    PopSizes(st.slices == [], true, held);
    var later := PopSlices(st.slices == [], true, held);
    assert forall k | |st.slices| <= k < |st.slices| + |later| :: (st.slices + later)[k] == later[k - |st.slices|];
  }
}
