# Narrator and narration: a verified model

Two services turn articles into speech. *narrator* (`src/narrator`) cuts a script into chunks,
synthesises each chunk to a wav file through a content-addressed cache, and keeps a manifest so that a
job that died can be resumed. *narration* (`narration/src/narration`) writes a spoken script for an
article, streams it sentence by sentence to a speech engine, and lets the reader drop an article at any
moment. This project models their stateful and text-cutting core in Dafny and proves what the two
services rely on, for every input, every run and every interleaving.

| files | model |
|---|---|
| `Text.dfy` | strings, stripping, splitting and joining, the two sentence expressions as scanners |
| `ScriptChunker.dfy`, `ScriptChunkerFacts.dfy`, `ScriptWords.dfy` | the sentence-safe chunker of narrator: sizes, places, and what becomes of words and sentences |
| `Sanitizer.dfy` | repeat collapse, long-token breaking and whitespace folding |
| `Explainer.dfy`, `ExplainerFacts.dfy` | sectioning and the pause-marker parser |
| `PlaybackChunker.dfy`, `StreamingSplitter.dfy`, `StreamingFacts.dfy` | the playback chunks of narration, the splitter of its delta stream, and when cutting the stream into deltas can be heard |
| `Files.dfy` | paths, inodes and bytes, with hard links |
| `Cache.dfy`, `CacheRuns.dfy` | the synthesis cache, its eviction, and whole runs of it |
| `Synth.dfy` | the resumable, concurrent synthesis stage as a machine of interruptible steps |
| `SynthControl.dfy`, `SynthRuns.dfy` | dispatch, manifest and locks in every run: exactly once, bounded loss, resuming, preemption, cancellation |
| `SynthWorks.dfy` | that the stage gets anywhere: no worker blocks the others for good, steps run out, every run can be completed |
| `SynthFiles.dfy`, `SynthLimits.dfy`, `SynthBreaks.dfy` | crash-safe resume, exactly which steps it does not survive, and runs that take such steps |
| `SynthOne.dfy` | `_synth_one` as imperative code, shown to run on that machine |
| `Gate.dfy`, `Breaker.dfy`, `BreakerRace.dfy`, `PipelineBreaker.dfy` | the fairness gate, the two circuit breakers, and the race of callers to be the probe |
| `EnqueuePolicy.dfy`, `Drop.dfy`, `DropRuns.dfy`, `DropWorks.dfy`, `DropLimits.dfy` | the race between a job, a drop, requests and listeners: what never happens, what does, and where that ends |
| `Delete.dfy` | the retry-and-verify deletion loop by itself |

How to read the model:

- Whitespace is a parameter `ws`: any finite set of characters that holds the blank and, where it
  matters, the newline and none of the punctuation marks. "Visible" means not whitespace.
- Code that loops or changes fields is a method or a class, proved equal to a specification function on
  values; what the program promises is proved about that function.
- Concurrent code is a machine. An action is what happens between two points at which the process can
  be interrupted; a run is any legal sequence of actions; a crash is an action that can come anywhere.
- Clocks, file-system and network answers, link failures and engine replies are parameters or choices of
  the run, never assumed to be kind.
- A SHA-256 digest is the text it was taken of. One job's chunk hash and its cache key determine each
  other, because model, voice and speed are fixed for a job.

Some promises do not hold without a condition. The model keeps the code as it is and states when they hold:

- Placeholders, and the copies that replace failed links, are written in place, under names others read. An
  entry can be marked done with something else than its audio when such a write goes to an inode that
  somebody relies on, or when a half-copied file is taken from the cache or left there. As long as
  half-written bytes can be told from whole ones, the steps that do that are exactly those that lose the
  invariant (`SynthLimits.StepIsSoundIff`), and the runs without them are exactly those that keep it
  throughout (`SynthLimits.RunIsSoundIff`). Six runs show the harm (`SynthBreaks.PromiseCanBreak`,
  `SynthBreaks.PromiseCanBreakLater`, `SynthBreaks.PromiseCanBreakBack`, `SynthBreaks.HalfCopyCanBeTaken`,
  `SynthBreaks.HalfCopyCanBeLeft`, `SynthBreaks.TwinsCanBreak`), and when links serve and no placeholder goes over a shared file there is none
  (`SynthLimits.UnsharedRunIsSafe`).
- A probe that ends in an error the breaker does not count leaves it half open for ever, and nothing else
  does as long as `_enter` is one step (`Breaker.StuckIffProbeLost`, `Breaker.HalfOpenIsForever`). When it is not,
  a second caller can claim the probe key that the first has just cleared and leave a healthy breaker half open
  (`BreakerRace.LateClaimSticks`).
- The streamed scripts are the sentences of the whole text if and only if every delta boundary is clean: a delta that
  ends with a sentence mark ends a sentence there, and space at the end of an unfinished one is lost
  (`StreamingFacts.StreamIsFaithfulIff`, `StreamingFacts.CutsCanShow`).
- The hard wrap emits slices of an overlong word before the words waiting in its buffer, so the characters of
  a script change places exactly when, in a clause that is wrapped, such a word comes while words wait
  (`ScriptChunkerFacts.HardWrapMoves`, `ScriptChunkerFacts.ScriptIsGood`,
  `ScriptChunkerFacts.OverlongWordOvertakes`).
- An index row keeps the size of its first file, so row and file agree after a step exactly when it does
  not replace an empty cached file (`CacheRuns.StepKeepsSizesIff`, `CacheRuns.SizesCanDiffer`).
- A drop cannot remove what a synthesis task writes after its job stopped waiting for it, nor what a job
  writes after the drop when the job's own deletion is exhausted. Nothing else remains
  (`DropRuns.RemainsIff`, `DropLimits.StragglerOutlivesDrop`, `DropLimits.ExhaustedSweepOutlivesDrop`).
- One job at a time works on an article only while its lock does not expire, and late progress of a failed job can
  leave an article waiting for nobody (`DropRuns.OneAtATime`, `DropLimits.ExpiryLetsTwoIn`,
  `DropLimits.LateProgressStrands`); a job that finds its article dropped between taking the lock and its try keeps
  the lock (`DropWorks.EarlyAbortKeepsLock`).

## Model

| member | source | states |
|---|---|---|
| SynthFiles.CrashSafeResume | src/narrator/pipeline/synth.py:97-136 | after any number of runs with any chunk texts and any number of workers, each cut short anywhere, an entry the manifest on disk marks done has a chunk file holding audio made for exactly its hash, and every cache file that is not being copied likewise, provided no step writes in place what somebody relies on, takes a half-copied file from the cache or leaves one there |
| SynthFiles.StepIsSound | src/narrator/pipeline/synth.py:217-295 | the invariant behind it, kept by each such interruptible step of every worker, other jobs' use of the cache, eviction, loading, ending and crashing; links, unlinks and the two ends of an in-place write are steps of their own |
| SynthFiles.ReloadIsGood | src/narrator/pipeline/synth.py:114-128 | a reloaded manifest claims no entry done that the old one did not justify |
| SynthLimits.StepIsSoundIff | src/narrator/core/cache.py:29-39 | as long as what the writes under way have put into their files is no whole audio or placeholder, and what a step begins to write is strange to those who rely on that inode (not audio made for their hash, nor what they are writing there), a step keeps the invariant if and only if it is such a one: no write in place to an inode that a cache file, an entry done on disk or in memory, a worker with its audio or another write under way relies on; no half-copied file taken from the cache; none left there |
| SynthLimits.EndIsSoundIff | src/narrator/pipeline/wavtools.py:16-25 | for the end of a placeholder or of a copy, in this job or another, the first of these two is enough |
| SynthLimits.RunIsSoundIff | src/narrator/pipeline/synth.py:217-295 | so a whole run keeps the invariant after every step if and only if all its steps are such |
| SynthLimits.UnsharedIsCareful | src/narrator/pipeline/wavtools.py:16-25 | while links serve, a placeholder written over a file that shares its inode with no other is always such a step |
| SynthLimits.UnsharedRunIsSafe | src/narrator/pipeline/synth.py:229-237 | every run in which links serve and placeholders are written only over such files keeps the promise, with any number of workers, other jobs and crashes |
| SynthLimits.WrittenAnewIsOwn | src/narrator/pipeline/synth.py:54-59 | a chunk that another job persists anew shares its inode with nobody: a placeholder over it reaches no other path |
| SynthLimits.CopyCompletes | src/narrator/core/cache.py:29-39 | a copy into the cache, undisturbed, leaves the whole audio under the key and every file that did not share the old cache file's inode as it was |
| SynthBreaks.CachedBytesBecomeAudio | src/narrator/pipeline/synth.py:239-245 | a legal run makes whatever looks like a wav under a key in the cache the audio of a done entry |
| SynthBreaks.PromiseCanBreak | src/narrator/pipeline/synth.py:229-237 | a concrete legal run, for any audio and any placeholder, after which a done entry's file holds the placeholder of another job |
| SynthBreaks.PromiseCanBreakLater | src/narrator/core/cache.py:52-60 | another, in which no entry is done when the placeholder is written, and the cache hands it out a run later |
| SynthBreaks.PromiseCanBreakBack | src/narrator/core/cache.py:62-73 | another, in which this job synthesised and stored the chunk itself, and another job takes it from the cache and then writes its placeholder over it |
| SynthBreaks.HalfCopyCanBeTaken | src/narrator/core/cache.py:35-39 | another, with no crash at all: a cache file still being copied is taken for audio |
| SynthBreaks.HalfCopyCanBeLeft | src/narrator/core/cache.py:75-84 | another, in which the copying process has died and its half-done copy stays |
| SynthBreaks.TwinsCanBreak | src/narrator/core/cache.py:31-39 | another, in one job alone: two workers with the same text clear the same cache file, one links its chunk there and is saved as done, the other finds the name taken, copies over that chunk and dies; a resumed job reuses what is left if it looks like a wav |
| SynthRuns.ExactlyOnce | src/narrator/pipeline/synth.py:150-202 | a run that ends normally and uncancelled started each pending entry once, in order, called the engine for no reused entry, left every entry done or failed, changed no other entry, and wrote just that to disk |
| SynthRuns.NeverTwice | src/narrator/pipeline/synth.py:169-184 | in every run, however disturbed, no entry is started twice and no two workers hold the same entry |
| SynthRuns.LossIsBounded | src/narrator/pipeline/synth.py:184-192 | at every instant at most as many entries as there are workers are done in memory and not on disk, and what the disk calls done is done |
| SynthRuns.CompleteIsResumed | src/narrator/pipeline/synth.py:97-136 | run again after a complete run whose done chunks have valid wavs, a job redoes exactly the chunks that failed |
| SynthRuns.CrashIsResumed | src/narrator/pipeline/synth.py:97-136 | run again after a crash at any instant, or after a worker raised and the others ended, it redoes exactly what the disk does not call done, and of the chunks done by then at most as many as there were workers |
| SynthRuns.EngineIsLogged | src/narrator/pipeline/synth.py:229-280 | at every instant the engine has been called for no entry that is skipped, taken from the cache or not yet attempted, and for every entry between two attempts, with engine audio, or failed |
| SynthRuns.FastPendingIsGate | src/narrator/core/gate.py:30-37 | the counter a bulk run waits for is the fairness gate's, after any steps |
| SynthWorks.WorkersRunOut | src/narrator/pipeline/synth.py:169-187 | in one run all workers together take at most twenty-five steps for each pending entry and one each, however they are interleaved and whatever else happens |
| SynthWorks.EveryRunCanEnd | src/narrator/pipeline/synth.py:169-202 | from every reachable state of a run, unless a worker has raised, a fast job is in the way or a cache file about to be linked was evicted, the workers alone can bring the run to its normal end, and if no chunk has failed, with every chunk done |
| SynthWorks.EveryJobCanComplete | src/narrator/pipeline/synth.py:139-202 | so a job started over any texts, with whatever is on disk, in the cache and in the files, can be completed with every chunk done on disk |
| SynthWorks.CancelledJobCanComplete | src/narrator/pipeline/synth.py:172-195 | and so can one cancelled at any instant of any run, once the flag is cleared and it is started again |
| SynthWorks.RaisingLetsGo | src/narrator/pipeline/synth.py:169-187 | a worker that raises, wherever it is with an entry, leaves both locks, the files, the manifest and the other workers alone |
| SynthRuns.Preemption | src/narrator/core/gate.py:57-74 | while a fast job stays pending, a bulk run starts at most one further chunk, for every number of workers and across crashes and reruns |
| SynthRuns.Cancellation | src/narrator/pipeline/synth.py:172-183 | while the cancel flag stays set, any run starts at most one further chunk |
| SynthControl.ControlStep | src/narrator/pipeline/synth.py:169-187 | every step of a worker keeps the places apart, the two locks with their holders, the log of started entries, and the disk manifest an image of the one in memory |
| SynthControl.PendingFacts | src/narrator/pipeline/synth.py:151-151 | the pending list holds each entry that is not done once, in order |
| SynthControl.ResumeRedoesExactly | src/narrator/pipeline/synth.py:114-128 | a chunk is left out of what is to be redone if and only if the old manifest has its hash at its place as done and its file is there and a valid wav; the rest is redone once each, in order; and reloading again changes nothing |
| SynthControl.BrokenFilesAreRedone | src/narrator/pipeline/wavtools.py:28-42 | a chunk whose file is gone, shorter than 1024 bytes, or without the two tags is redone whatever the manifest says; the placeholder of a skipped chunk counts as its audio |
| Synth.LoadOrCreateManifest | src/narrator/pipeline/synth.py:97-136 | the loop over the chunks builds that manifest, and an unreadable one counts as none |
| SynthOne.Synthesizer.SynthOne | src/narrator/pipeline/synth.py:217-280 | one chunk, run undisturbed, is a legal run of the machine that ends with the status, file, cache entry and number of attempts its inputs call for |
| SynthOne.Synthesizer.AskEngine | src/narrator/pipeline/synth.py:247-280 | the attempts end at the first answer that is not worth another one, or after six |
| SynthOne.Synthesizer.Answer | src/narrator/pipeline/synth.py:250-274 | audio, an unspeakable text with and without a recovery, an open breaker and a retryable error each leave the worker and the files as they should |
| SynthOne.Synthesizer.Keep | src/narrator/pipeline/synth.py:267-270 | the chunk file holds the answer, and the cache holds it unless something was there or the text was cleaned harder |
| SynthOne.Synthesizer.TakeFromCache | src/narrator/pipeline/synth.py:239-245 | on a hit the chunk file holds the cached bytes, linked or copied |
| SynthOne.Synthesizer.Store | src/narrator/core/cache.py:75-84 | the cache holds the chunk's bytes, linked or copied, and the chunk file still does |
| SynthOne.Synthesizer.WriteSilence | src/narrator/pipeline/wavtools.py:16-25 | the placeholder ends complete, whatever the file held on the way |
| SynthOne.FirstAnswer | src/narrator/pipeline/synth.py:248-266 | every answer before the one that counts was retryable, and that one is not |
| SynthOne.StepsAreGetAndPut | src/narrator/core/cache.py:62-84 | undisturbed and with linking, the machine's cache steps do to the files what `get` and `put` do |
| Files.LinkOrCopyFacts | src/narrator/core/cache.py:29-39 | linking or copying gives the destination the source's bytes and leaves every other path its own |
| Cache.TTSCache.Get | src/narrator/core/cache.py:62-73 | a hit exactly when the cached file is a valid wav; a bad file costs its row and stays |
| Cache.TTSCache.Put | src/narrator/core/cache.py:75-84 | a non-empty cached file is kept, otherwise the source is linked; the row is stamped |
| Cache.TTSCache.CacheTotalSize | src/narrator/core/state.py:305-309 | the sum of the row sizes |
| Cache.TTSCache.CacheLru | src/narrator/core/state.py:311-318 | the oldest rows, oldest first, as many as asked for or all |
| Cache.TTSCache.EvictToLimit | src/narrator/core/cache.py:86-113 | terminates, removes a shortest least-recently-used prefix whose removal meets the limit, returns its length, for every batch size and whatever files cannot be unlinked |
| Cache.TTSCache.EvictBatch | src/narrator/core/cache.py:97-110 | one batch keeps that account and stops as soon as the limit is met |
| Cache.EvictionIsSimple | src/narrator/core/cache.py:86-113 | with stamps in a strict order that prefix is what removing the oldest row again and again removes |
| CacheRuns.RunAgrees | src/narrator/core/cache.py:62-113 | after any run each key's file is the first non-empty audio stored for it since its last eviction, or absent |
| CacheRuns.CacheIsTransparent | src/narrator/core/cache.py:62-73 | so a `get` hits exactly when that audio is a valid wav, and delivers it |
| CacheRuns.ChunksAreSafe | src/narrator/pipeline/synth.py:54-59 | no get, put, eviction or replacement of another chunk changes a chunk file once handed out |
| CacheRuns.StampsAreLastUses | src/narrator/core/state.py:287-293 | after any run each row's stamp is the time of the last hit or put of its key since the row was made |
| CacheRuns.EvictionFollowsUse | src/narrator/core/cache.py:86-113 | so of two rows the one used earlier is evicted before the other |
| CacheRuns.JustUsedGoesLast | src/narrator/core/cache.py:62-84 | and with a clock that moves on, an entry just fetched or stored is evicted only when every other row has gone before it |
| CacheRuns.StepKeepsSizesIff | src/narrator/core/state.py:287-293 | a step keeps every row's size equal to its file's if and only if it does not replace an empty cached file |
| CacheRuns.SizesCanDiffer | src/narrator/core/cache.py:75-84 | a concrete run comes to such a step: an empty chunk stored, then one that is not, under one key |
| CacheRuns.RowSizesAreFileSizes | src/narrator/core/cache.py:75-84 | in every run that stores only non-empty audio, every row's size is its file's size |
| ScriptChunker.PackingIsPartition | src/narrator/pipeline/chunker.py:89-103 | the packed chunks are the units, in order and without gap, each group within the target when joined by blanks or a single unit |
| ScriptChunker.PackingIsOptimal | src/narrator/pipeline/chunker.py:89-103 | and no such grouping has fewer |
| ScriptChunker.PackUnits | src/narrator/pipeline/chunker.py:89-103 | the loop computes that packing |
| ScriptChunker.HardWrapText | src/narrator/pipeline/chunker.py:71-87 | the loop computes the hard wrap |
| ScriptChunkerFacts.HardWrapConserves | src/narrator/pipeline/chunker.py:71-87 | its pieces are non-empty, within the hard limit, and hold the same visible characters |
| ScriptChunkerFacts.HardWrapMoves | src/narrator/pipeline/chunker.py:74-84 | every visible character comes out once, and each at the place it had if and only if no overlong word is cut while words wait |
| ScriptChunkerFacts.HardWrapOrder | src/narrator/pipeline/chunker.py:74-84 | so the order survives in that case, and a text of distinct characters shows it when it does not |
| ScriptChunkerFacts.OverlongWordOvertakes | src/narrator/pipeline/chunker.py:75-77 | a concrete text whose order is lost |
| ScriptChunkerFacts.UnitsAreGood | src/narrator/pipeline/chunker.py:49-69 | sentences, clauses and wrapped pieces are non-empty, within the limit, and hold every visible character of the segment once, each at its place if and only if no clause is wrapped out of order |
| ScriptChunkerFacts.PackFacts | src/narrator/pipeline/chunker.py:89-103 | packing keeps the visible characters in order and stays within the larger of target and hard limit |
| ScriptChunkerFacts.SegmentIsGood | src/narrator/pipeline/chunker.py:49-57 | so do a segment's chunks, within the larger of target and hard limit |
| ScriptChunkerFacts.ScriptIsGood | src/narrator/pipeline/chunker.py:35-46 | and a whole script's: chunks non-empty and bounded, every visible character in them once, and each at the place it had if and only if no overlong word is cut while words wait, in any clause that is wrapped |
| ScriptChunkerFacts.ScriptKeeps | src/narrator/pipeline/chunker.py:35-46 | so the visible characters survive as a multiset, in order in that case and whenever no space-free word exceeds the hard limit, and a script of distinct characters shows it when they do not |
| ScriptChunkerFacts.ScriptNumbering | src/narrator/pipeline/chunker.py:37-45 | indices run from 1 without gap, and a segment's pause sits on its last chunk only |
| ScriptWords.HardWrapWords | src/narrator/pipeline/chunker.py:71-87 | the words of the wrapped text are those the limit cuts its words into, none glued to another, in order unless an overlong word overtakes |
| ScriptWords.HardWrapIsPacking | src/narrator/pipeline/chunker.py:71-87 | a text of single blanks and words within the limit is wrapped by packing its words, so joining the pieces by blanks gives it back |
| ScriptWords.ScriptKeepsWords | src/narrator/pipeline/chunker.py:35-46 | the words of a script's chunks, in order, are the words of the script, when none exceeds the hard limit |
| ScriptWords.SentencesStayWhole | src/narrator/pipeline/chunker.py:49-69 | every sentence within the hard limit stands whole in one chunk, and so does, of a longer one, every clause within it |
| ScriptChunker.SplitScript | src/narrator/pipeline/chunker.py:35-46 | the loop over the segments computes those chunks |
| ScriptChunker.ChunkSegment | src/narrator/pipeline/chunker.py:49-57 | the loop over the sentences computes a segment's chunks |
| ScriptChunker.SplitMonster | src/narrator/pipeline/chunker.py:59-69 | the loop over the clauses computes their pieces |
| Sanitizer.TidyIsNormal | src/narrator/pipeline/sanitize.py:60-63 | the three stages leave no run of four equal characters, single inner blanks, no outer space, no token over 40 characters |
| Sanitizer.TidyFixesExactlyNormal | src/narrator/pipeline/sanitize.py:60-63 | the stages leave a text alone if and only if it has that form |
| Sanitizer.TidyIsIdempotent | src/narrator/pipeline/sanitize.py:53-63 | applying them again changes nothing |
| Sanitizer.CollapseCutsRuns | src/narrator/pipeline/sanitize.py:60-60 | the maximal runs of the collapsed text are those of the text, each cut to three |
| Sanitizer.BreakIsExact | src/narrator/pipeline/sanitize.py:43-50 | every token becomes pieces that put together are the token, all of forty characters but the last |
| Sanitizer.TidyIsWords | src/narrator/pipeline/sanitize.py:60-63 | so the three stages give the words of the collapsed and broken text joined by single blanks |
| Sanitizer.BreakText | src/narrator/pipeline/sanitize.py:43-50 | the loop breaks every token into pieces of 40 |
| Explainer.SectionsAreGood | src/narrator/processors/explainer.py:111-132 | sections are not blank, no longer than the limit, and read in order hold exactly the text's visible characters |
| ExplainerFacts.ParagraphsAreExact | src/narrator/processors/explainer.py:112-112 | paragraphs joined by blank lines are the text, none holds a blank line, and each blank line is cut as far left as it can be |
| ExplainerFacts.SectionsKeepWords | src/narrator/processors/explainer.py:111-132 | the words of the sections, in order, are those of the paragraphs with the overlong ones cut, hence of the text when none is overlong |
| ExplainerFacts.SectionsAreFull | src/narrator/processors/explainer.py:124-132 | paragraphs within the limit stand whole in their sections, in order, joined by blank lines, and no section has room for the next paragraph |
| Explainer.Sectionize | src/narrator/processors/explainer.py:111-132 | the loops terminate for every positive limit and compute those sections |
| Explainer.ParsePrint | src/narrator/processors/explainer.py:214-224 | printing trimmed, non-empty, marker-free segments with their pauses and parsing gives the segments back |
| ExplainerFacts.ParseIsExact | src/narrator/processors/explainer.py:214-224 | exactly one segment for each text between markers that is not blank, in order, with the value of the marker after it, or none after the last |
| Explainer.ParseScript | src/narrator/processors/explainer.py:214-224 | the loop over the split text computes the parse |
| Explainer.SplitMarkersAlternates | src/narrator/processors/explainer.py:31-31 | the marker expression takes a text apart into marker-free text and digits in turn, and the parts put together again are the text |
| PlaybackChunker.SplitUndoesJoin | narration/src/narration/chunker.py:10-12 | splitting sentences joined by blanks gives the sentences back |
| PlaybackChunker.SplitGivesSentences | narration/src/narration/chunker.py:10-12 | what the splitter returns is such a list |
| PlaybackChunker.PlaybackFacts | narration/src/narration/chunker.py:15-33 | splitting each playback chunk returns the slice packed into it, the slices concatenate to the sentences of the text, and their sizes are exactly these: two first, then threes, with a four or a two and a three at the end when three does not divide the rest |
| PlaybackChunker.PackPlaybackChunks | narration/src/narration/chunker.py:15-33 | the loop computes those chunks |
| StreamingSplitter.StreamConserves | narration/src/narration/pipeline.py:389-409 | however the text is cut into deltas, the scripts hold its visible characters in order |
| StreamingSplitter.ScriptsNeverChange | narration/src/narration/pipeline.py:327-339 | scripts once emitted stay, at the same place |
| StreamingSplitter.StreamSizes | narration/src/narration/pipeline.py:327-339 | the first script holds exactly two held sentences, later ones exactly three while text comes in and four at its end, the last of all perhaps fewer; and fewer than two, later three, are ever held back |
| StreamingFacts.StreamIsSplit | narration/src/narration/pipeline.py:389-411 | for every cutting into deltas the sentences of the scripts are the split of one text, each but the last ending with a sentence mark |
| StreamingFacts.StreamIsFaithfulIff | narration/src/narration/pipeline.py:393-400 | they are the sentences of the deltas put together if and only if every cut between them is clean |
| StreamingFacts.CutsCanShow | narration/src/narration/pipeline.py:394-396 | two concrete cuttings that can be heard: a blank lost after an unfinished word, a number split at its point |
| StreamingFacts.CutChangesNothing | narration/src/narration/pipeline.py:394-396 | cutting a delta after a visible character that ends no sentence, inside a word for instance, changes nothing |
| StreamingSplitter.NarrateStream | narration/src/narration/pipeline.py:388-411 | the delta loop computes those scripts and starts exactly one task for each |
| StreamingSplitter.PopChunks | narration/src/narration/pipeline.py:327-339 | the pop loop moves the right number of held sentences |
| StreamingSplitter.LaunchTasks | narration/src/narration/pipeline.py:401-403 | each new script gets one task and no started task is replaced |
| Gate.SynthGate.FastExit | src/narrator/core/gate.py:33-37 | one less, never below zero |
| Gate.BulkWaitTurn | src/narrator/core/gate.py:57-74 | returns at the first reading without a fast job, and stalls and resumes once if it had to wait |
| Gate.CounterIsLargestStretch | src/narrator/core/gate.py:30-37 | after any entries and exits, matched or not, the counter is the largest number of entries less exits over any recent stretch |
| Gate.CounterIsJobsInside | src/narrator/core/gate.py:48-55 | with no exit before its entry it is the number of fast jobs inside |
| Breaker.BreakerIsItsHistory | src/narrator/core/breaker.py:74-133 | over calls that do not overlap, the keys are the history: open exactly from the threshold-th counted failure since the last success, the base cooldown doubled by each failed probe up to the maximum, a call let through exactly by the history's rule |
| Breaker.AdmissionFollowsRule | src/narrator/core/breaker.py:87-103 | so the calls let through can be computed from the calls alone |
| Breaker.StuckIffProbeLost | src/narrator/core/breaker.py:129-131 | the breaker ends half open if and only if some probe ended in an uncounted error |
| Breaker.HalfOpenIsForever | src/narrator/core/breaker.py:102-103 | and then nobody is let through again, whatever comes |
| Breaker.OverlapIsCoherent | src/narrator/core/breaker.py:74-118 | with calls overlapping and ending late and the probe key expiring at any time: closed exactly below the threshold, no probe key unless half open, cooldown between base and maximum |
| Breaker.OneProbePerPeriod | src/narrator/core/breaker.py:91-103 | each half-open period lets exactly one caller through, the one that begins it |
| Breaker.OverlapIsItsHistory | src/narrator/core/breaker.py:74-133 | and every key is then told from the history: mode, failure count, opening time, cooldown and the expiry of the probe key, with late failures reopening at the base cooldown |
| BreakerRace.EnterIsLookClaimSet | src/narrator/core/breaker.py:87-103 | with its look, its claim of the probe key and its change of the state apart, `_enter` undisturbed does what the one-step form says |
| BreakerRace.NobodyElseIsProbe | src/narrator/core/breaker.py:94-99 | however many callers have found the cooldown over, nobody gets to be the probe while the probe key stands |
| BreakerRace.SecondClaim | src/narrator/core/breaker.py:94-99 | a second caller becomes a probe exactly from the whole seconds of the cooldown and thirty more after the first |
| BreakerRace.LateClaimSticks | src/narrator/core/breaker.py:91-103 | a concrete interleaving of two callers that closes the breaker and leaves it half open, refusing everybody from then on |
| Breaker.CircuitBreaker.Guard | src/narrator/core/breaker.py:120-133 | one guarded call changes the keys as the specification says and is let through accordingly |
| PipelineBreaker.BreakerIsItsHistory | narration/src/narration/breaker.py:43-83 | over any history with a clock that does not run backwards, `is_open` holds exactly when the last opening has no later success or reset and is younger than the cooldown, and a failure opens the breaker exactly when the distinct articles that failed recently reach the threshold |
| PipelineBreaker.PipelineBreaker.RecordFailure | narration/src/narration/breaker.py:68-80 | adds the article unless open, restarts the expiry, and reports whether it opened the breaker |
| PipelineBreaker.PipelineBreaker.IsOpen | narration/src/narration/breaker.py:43-57 | answers, and resets a breaker whose cooldown is over |
| PipelineBreaker.PipelineBreaker.RecordSuccess | narration/src/narration/breaker.py:59-66 | clears everything and reports whether it closed an open breaker |
| DropRuns.RemovedStaysRemoved | narration/src/narration/pipeline.py:117-126 | an article once deleted as removed keeps that status in every interleaving of jobs, drops, requests and listeners |
| DropRuns.DropWins | narration/src/narration/pipeline.py:566-598 | once an article is removed and every job that was writing and every deletion has ended, what remains of opus, metadata, script, temporary files and cache record is exactly what abandoned tasks wrote and exhausted deletions left |
| DropRuns.RemainsIff | narration/src/narration/delete.py:46-75 | told from the schedule alone: a file remains if and only if an abandoned task wrote it and nothing touched it later, or an exhausted deletion left it and nothing touched it and no deletion began its list later |
| DropRuns.GoneForGood | narration/src/narration/pipeline.py:146-153 | from then on a file is there if and only if it was and nobody has removed it, or an abandoned task has written it since: no job waiting or requested later brings anything back |
| DropRuns.StepKeepsAnswered | narration/src/narration/pipeline.py:270-300 | the invariant behind it: on a removed article every artifact has a thread that will sweep it before it ends |
| DropRuns.LockIsReleased | narration/src/narration/pipeline.py:174-183 | a job that entered the try has given the lock back when it is over; only the check before the try leaves it behind |
| DropRuns.OneAtATime | narration/src/narration/pipeline.py:174-183 | while no lock expires, at most one job is between taking the lock and giving it back, and it is the holder |
| DropWorks.UndisturbedJobIsReady | narration/src/narration/pipeline.py:134-269 | whatever was there before and whatever a job writes, erases and reports, a request for which one is due starts it, and undisturbed it ends with the article ready, exactly its files added, and the lock free |
| DropWorks.FailedJobFallsBack | narration/src/narration/pipeline.py:276-300 | and one that fails ends with a fallback and the lock free |
| DropWorks.ReturningJobBinds | narration/src/narration/pipeline.py:152-179 | a job that returns early, for a cache hit, an open breaker, a held lock or want of memory, binds just that status, or none |
| DropWorks.SweepClears | narration/src/narration/delete.py:46-68 | an undisturbed deletion ends with success and leaves nothing, in whatever order it takes the files |
| DropWorks.DropClears | narration/src/narration/pipeline.py:567-598 | an undisturbed drop from any state leaves the article removed and, if its record has the key, nothing of its audio |
| DropWorks.DropRetries | narration/src/narration/delete.py:46-75 | one that fails up to four times and then goes through does so too; after five failures it reports failure and leaves every file |
| DropWorks.RefusedJobCleans | narration/src/narration/pipeline.py:149-154 | a job that starts on a deleted article clears it and is over without the lock |
| DropWorks.DroppedJobCleans | narration/src/narration/pipeline.py:272-300 | one that finds its article deleted inside its try clears it, gives the lock back and is over |
| DropWorks.EarlyAbortKeepsLock | narration/src/narration/pipeline.py:174-182 | one that finds it deleted before its try clears it and is over with the lock still taken |
| DropWorks.DroppedJobStops | narration/src/narration/pipeline.py:128-132 | once a job has checked, or handled an error, with its article deleted, it writes and publishes nothing more, in every interleaving |
| DropWorks.ListeningSettles | narration/src/narration/pipeline.py:539-564 | a listener changes no status, and settles an article for later requests exactly when it brings the key to one without a record or ready without a key |
| DropLimits.StragglerOutlivesDrop | narration/src/narration/pipeline.py:361-411 | a concrete run in which job and drop have ended well and a temporary file appears afterwards |
| DropLimits.ExhaustedSweepOutlivesDrop | narration/src/narration/pipeline.py:296-300 | a concrete run in which the drop succeeds, the job writes its opus file, and the job's own last deletion fails five times |
| DropLimits.ExpiryLetsTwoIn | narration/src/narration/pipeline.py:174-175 | a concrete run in which a lock expires, two jobs are inside their try, and the first to end gives away the other's lock |
| DropLimits.LateProgressStrands | narration/src/narration/pipeline.py:341-360 | a concrete run after which nobody is at work, the article is said to be generating, and no request starts a job |
| EnqueuePolicy.EnqueueIsSafe | narration/src/narration/enqueue_policy.py:13-30 | a request never disturbs ready or running audio, never revives a removed article, and revives another deleted one only by force |
| EnqueuePolicy.EnqueueIsExact | narration/src/narration/enqueue_policy.py:13-30 | a job is started if and only if the audio is not there, the breaker closed, the lock free, and the article unknown, ready without a key, a fallback, failed, or deleted for another reason than removal and forced; and the record after each request: kept when settled, otherwise ready, a fallback or queued |
| Delete.Store.DeleteArtifacts | narration/src/narration/delete.py:31-75 | it succeeds if and only if some attempt meets no fault in what the earlier ones left, and then in the first such attempt; success leaves nothing and clears the mark of failure; exhaustion leaves what the attempts left, and the mark, or raises when Redis fails at that too |
| Delete.Store.Try | narration/src/narration/delete.py:46-68 | one attempt removes what is listed before the first stuck file, and the record only if no file is stuck |
| Delete.FixedOrder | narration/src/narration/delete.py:47-58 | of the four fixed files an attempt leaves exactly those from the first stuck one on, in the order opus, high definition, metadata, script, and no temporary file goes before them |
| Delete.SuccessNeeds | narration/src/narration/delete.py:46-75 | one attempt without any fault is enough, and a file stuck in every attempt or Redis failing in every one exhausts it |
| Delete.Store.UnlinkAll | narration/src/narration/delete.py:56-58 | removes exactly the listed files before the first stuck one, and takes an absent one as success |

## Left out

- SynthFiles.CrashSafeResume: assumes one live run per job, so a run ends only when all its workers have, although after an open breaker the code can return while siblings still work; and that other jobs put or copy into the cache only audio made for the key they put it under. What a file holds between the two ends of an in-place write is one arbitrary value.
- CacheRuns.CacheIsTransparent: is about calls that do not overlap; overlapping ones, and calls cut short, belong to the synthesis machine.
- Gate.BulkWaitTurn: asks that some reading finds no fast job, since the wait otherwise goes on for ever.
- Breaker.BreakerIsItsHistory: asks for a positive threshold and for cooldowns that are not negative, as configured; times are real numbers.
- PipelineBreaker.BreakerIsItsHistory: asks for a positive cooldown, since Redis deletes a key whose expiry is not in the future.
- DropRuns.DropWins: one cache key per article, the article record never expires, a job is not killed between two steps, and Redis answers the reads of the record.
- Chunk opus files: `delete_artifacts` does not list them, so they are not among the artifacts.
- Host touch and the job status route bind the article record after an await without looking again; both are outside the drop protocol.
- Interleavings of single Redis commands inside one breaker operation (except `_enter` of the shared one), `_set_article`, one enqueue decision with its short hold of the lock, `mark_listened`, and a drop's read-and-bind: each is one step, and stale reads inside them would break the claims.
- Manifest entries carry hash and status; file name, duration, attempts, cache-hit flag and progress events are not modelled, nor is the failed-chunk percentage that decides how a finished run is reported.
- Temporary names used for atomic replacement (`.tmp`): replacing a file is one step.
- Corruption of cached files from outside.
- The URL, email, emoji, control-character and Unicode normalisation stages of the sanitiser, the non-Latin ratio, and JSON repair and grounding in the explainer: regular-expression detail.
- Unicode digits beyond a given digit map, and Python's limit on the length of an integer literal, in pause markers.
- `pack_chunks` of narration, which the pipeline does not use.
- The lifecycle of narrator jobs, reconciliation, HTTP routes, metrics, alerts, audio encoding and quality checks, voice and lane choice, back-off arithmetic: glue code, or functions whose result one reads off their bodies.
