# Verified models of nanoclaw's core algorithms

This project models the parts of nanoclaw whose correctness is not obvious from reading one
function, and proves what they promise. Nothing was executed: every statement below is a
contract that Dafny's verifier checks.

| part | modules |
|---|---|
| the Markdown memory corpus: disk, discovery, cache, loads running beside writers | `Storage`, `Corpus`, `CorpusFreshness`, `CorpusRuns`, `CorpusStale`, `CorpusMiss`, `CorpusTorn`, `CorpusLoad`, `CorpusContents` |
| the overlapping chunker | `Chunker` |
| the bounded-parallel runner that returns results in order | `OrderedTasks` |
| the sandbox policy of a plugin tool | `Sandbox` |
| reading a document window by window | `Paging` |
| grid tables, note boxes and grouped digits | `GridTable`, `GridContents`, `TokenCount` |
| the generated memory index | `MemoryIndex`, `IndexEntries`, `IndexContents` |
| agent profiles | `Profiles`, `NameList` |
| the kernel release scanner | `KernelRelease`, `Decimal` |
| shared ground | `Prelude`, `Order`, `Text` |

## How the parts are modelled

**The corpus cache** is a step system. A disk is a tree of directories and files in which every
creation, deletion or replacement gives the entry and its directory a stamp that was never used
before, and an in-place write stamps the file alone. A step of a run is one change by a writer,
one lookup, one probe of one directory or one document, one discovery, one fingerprint, one read
or one insertion; any number of loads and writers interleave freely, and a load may fail at any
point. Glob matching, ignore rules and document decoding are fixed functions that nothing is
assumed about. `CorpusLoad.CorpusCache` is the same cache as an object, for a load during which
the disk holds still.

**The runner** is a step system whose scheduler chooses every start and every completion.
Everything else is functions for code made of expressions and methods with loops for code that
works step by step, each method proved against a specification.

Strings are sequences of characters; where the source counts bytes (chunk costs, the index budget,
file lengths) the model counts the UTF-8 length of each character. Integers are
unbounded except where the width matters: the chunker's budgets wrap around as `usize` does in a
release build, and the kernel scanner rejects numbers beyond `u64`. Error messages are
constructors of a datatype.

## What does not hold

Five natural expectations are false of the code. The code is modelled as it is, a witness is
given, and the exact condition is proved.

- A cache hit need not equal a load from scratch: a file that appears at a configured extra path
  is not noticed when no walk records the directory that holds it. `CorpusStale.StaleRun` builds
  such a run, and `CorpusStale.LinearizableIffCovered` proves that all hits on all runs are sound
  exactly for the keys whose extra paths lie in recorded directories.
- A stored document need not be one that the disk ever held: a load takes a file's time before it
  reads its text, so a write in between gives the new text with the old time. `CorpusTorn.TornRun`
  builds such a run, and `CorpusTorn.WholeIffInsensitive` proves that every stored document is one
  of a load from scratch since the discovery exactly if the decoder cannot tell such a mixture from
  both originals, on any path that can be found.
- A table need not be a rectangle: titles, headers and footers are written uncut and unsanitized
  (`GridTable.LongTitleSticksOut`). `GridTable.TableIsRectangular` proves for every table that it
  is one exactly if it has columns and these texts fit the span and hold no line break.
- Restricting sandbox roots twice need not intersect twice: an empty result, fed back as a base,
  reads as no limit (`Sandbox.RestrictTwiceFails`). `Sandbox.RestrictTwice` gives the exact
  condition on the three lists.
- The index can exceed 200 lines when descriptions hold line breaks: two memories with
  descriptions of 120 characters are enough (`IndexEntries.TallHooksBreakBudget`).
  `IndexEntries.RenderedBudgetIff` reads the number of lines off the entries, and
  `MemoryIndex.LineBudgetIff` says for every list of lines, written whole or shortened, exactly
  when the budget is kept.

Two more surprises are stated for all inputs: a role whose configured name has surrounding
whitespace can never be selected (`Profiles.RoleReachableIff`), and a profile text that is blank
still hides the text below it (`Profiles.StatedTextHides`).

## Model

| member | source | states |
|---|---|---|
| `Storage.EditIsLater` | crates/memory/src/corpus.rs:816-892 | after any permitted change, whatever still carries an old stamp is the same node, and a directory with an old stamp holds the same names of the same kinds |
| `Storage.EditMeans` | crates/memory/src/corpus.rs:816-892 | what a change does: its path holds the file or directory put there under the new stamp or nothing, its directory gets the new stamp unless a file is rewritten in place, and all else is as it was |
| `Storage.FileUntouched` | crates/memory/src/corpus.rs:816-836 | a file fingerprint taken earlier and still showing proves that the file was not touched in between |
| `Storage.DirUntouched` | crates/memory/src/corpus.rs:838-892 | a directory fingerprint taken earlier and still showing showed all along, and names and kinds in it are unchanged |
| `Corpus.RelInjective` | crates/memory/src/corpus.rs:490-495 | two files of a workspace never share a relative path, so the documents map loses none |
| `Corpus.CachedStable` | crates/memory/src/corpus.rs:342-352 | whatever writers do, a cached document whose fingerprint shows is what the disk holds |
| `Corpus.PartStable` | crates/memory/src/corpus.rs:271-318 | the invariant of a finished or half-built cache entry survives every change of the disk |
| `CorpusFreshness.DiscoveryAgrees` | crates/memory/src/corpus.rs:354-361 | matching directory fingerprints prove that a discovery would find the same candidates and directories again |
| `CorpusFreshness.CandidateFacts` | crates/memory/src/corpus.rs:411-481 | every discovered candidate is a present file inside the workspace that the include filter accepts, so a load on a quiet disk skips none |
| `CorpusFreshness.VanishedIsDoomed` | crates/memory/src/corpus.rs:276-296 | a candidate that is gone by the time it is fingerprinted has left a directory fingerprint that can never show again |
| `CorpusFreshness.StillWanted` | crates/memory/src/corpus.rs:505-523 | a candidate that is still a file is still accepted by the include filter, whatever changed since its discovery |
| `CorpusFreshness.MatchingEntryIsFresh` | crates/memory/src/corpus.rs:258-269 | an entry that passes both freshness tests holds exactly the documents of a load from scratch |
| `CorpusFreshness.StaleHit` | crates/memory/src/corpus.rs:442-481 | for an extra path in an unrecorded directory: a disk, a change and an entry that passes both tests and is wrong |
| `CorpusFreshness.HitsSoundIffCovered` | crates/memory/src/corpus.rs:258-269 | passing both tests implies equality with the load from scratch if and only if every extra path's directory is recorded |
| `CorpusRuns.StepKeepsInv` | crates/memory/src/corpus.rs:241-330 | every step of every load and writer keeps the invariant of disk, cache and loads |
| `CorpusRuns.RunKeepsInv` | crates/memory/src/corpus.rs:241-330 | the invariant holds in every state of every run |
| `CorpusRuns.LaterProbe` | crates/memory/src/corpus.rs:354-361 | a directory that matches at its probe already matched when the check began |
| `CorpusRuns.LaterDocProbe` | crates/memory/src/corpus.rs:363-373 | a document that matches at its probe already matched when the check began |
| `CorpusRuns.CheckBegan` | crates/memory/src/corpus.rs:258-269 | the disk a check refers to is the disk of the run at its first probe: the load had looked the entry up and its next step entered the check on that disk |
| `CorpusRuns.HitIsLinearizable` | crates/memory/src/corpus.rs:258-269 | on every run a hit returns what a load from scratch would have returned at its first probe, even if files changed during the check |
| `CorpusRuns.CachedCurrentOrDead` | crates/memory/src/corpus.rs:276-328 | at every moment of every run each cached document is current or carries a fingerprint its file will never show again, also when a slow load overwrites a newer entry |
| `CorpusRuns.OnlyFinishedLoadsStore` | crates/memory/src/corpus.rs:319-328 | the cache changes only when a load that went through all its candidates inserts its entry; a failing load stores nothing |
| `CorpusStale.CheckPasses` | crates/memory/src/corpus.rs:354-361 | a check that meets only matching directories goes through all of them |
| `CorpusStale.StaleRun` | crates/memory/src/corpus.rs:442-481 | for every uncovered extra path there is a run whose hit equals no load from scratch at any moment since its load began |
| `CorpusStale.LinearizableIffCovered` | crates/memory/src/corpus.rs:241-330 | over all runs: every hit for a key equals the load from scratch at its first probe if and only if its extra paths lie in recorded directories |
| `CorpusMiss.AdvanceOnTrack` | crates/memory/src/corpus.rs:276-312 | one step of a rebuilding load keeps its documents equal to those of a load from scratch, whether it skips, reuses, reads or fails |
| `CorpusMiss.MissIsFresh` | crates/memory/src/corpus.rs:271-328 | on every run, if the disk stays the same from a load's discovery to its insertion, what it stores is the load from scratch of that disk, whatever other loads do meanwhile |
| `CorpusMiss.MissFailsRightly` | crates/memory/src/corpus.rs:276-303 | if such a load fails by a step of its own, the load from scratch fails too |
| `CorpusMiss.QuietLoadIsFresh` | crates/memory/src/corpus.rs:241-330 | a load that sees one disk for as long as it lives returns the load from scratch of that disk, hit or rebuilt, whatever other loads do; only a hit needs its extra paths to be covered |
| `CorpusTorn.UntouchedIsWhole` | crates/memory/src/corpus.rs:278-303 | a file that is the same at its fingerprint and its read gives the document of a load from scratch, whatever the decoder |
| `CorpusTorn.ReadIsWhole` | crates/memory/src/corpus.rs:278-303 | if the decoder cannot tear the path, what is read is the document of the disk at the fingerprint or of the disk at the read |
| `CorpusTorn.TimelessIsInsensitive` | crates/memory/src/corpus.rs:375-396 | a decoder that does not look at the time tears nothing |
| `CorpusTorn.WholeUntil` | crates/memory/src/corpus.rs:276-312 | then on every run all documents a load has collected, reused or read, were held by some disk since its discovery |
| `CorpusTorn.TornRun` | crates/memory/src/corpus.rs:278-303 | for every findable path that can be torn there is a run that stores a document no disk held |
| `CorpusTorn.WholeIffInsensitive` | crates/memory/src/corpus.rs:271-328 | over all runs: every stored document is one of a load from scratch of some disk since the discovery if and only if no findable path can be torn |
| `CorpusLoad.FreshLoadAscends` | crates/memory/src/corpus.rs:313-318 | the corpus comes back strictly ascending by path, hence without duplicates |
| `CorpusLoad.ReuseIsPair` | crates/memory/src/corpus.rs:342-352 | a document is reused exactly if the previous entry holds its path with its current fingerprint |
| `CorpusLoad.CorpusCache.constructor` | crates/memory/src/corpus.rs:241-257 | the cache starts empty |
| `CorpusLoad.CorpusCache.DirectoriesAreFresh` | crates/memory/src/corpus.rs:354-361 | the loop with early exit decides whether all recorded directories match |
| `CorpusLoad.CorpusCache.DocumentsAreFresh` | crates/memory/src/corpus.rs:363-373 | the loop with early exit decides whether all cached documents match |
| `CorpusLoad.CorpusCache.CanReturn` | crates/memory/src/corpus.rs:258-269 | a found entry is returned exactly if directories and documents match |
| `CorpusLoad.CorpusCache.Obtain` | crates/memory/src/corpus.rs:297-302 | reusing or reading gives the document, or the error, of a load from scratch, and reads exactly if the pair of path and fingerprint is not held |
| `CorpusLoad.CorpusCache.Fetch` | crates/memory/src/corpus.rs:278-303 | any path: skipped when gone or not wanted, refused outside the workspace, otherwise the document of a load from scratch; exactly when its text is read |
| `CorpusLoad.CorpusCache.CollectNext` | crates/memory/src/corpus.rs:277-311 | one turn of the loop, skips included, extends the collected documents as the load from scratch does, or fails with its error |
| `CorpusLoad.CorpusCache.Collect` | crates/memory/src/corpus.rs:276-312 | the loop collects the documents of the load from scratch and reads only what is not held |
| `CorpusLoad.CorpusCache.Rebuild` | crates/memory/src/corpus.rs:271-318 | a miss returns exactly the load from scratch, errors included, and its entry would be hit at once |
| `CorpusLoad.CorpusCache.Load` | crates/memory/src/corpus.rs:241-330 | an entry is a hit exactly if it is held under the key and all its recorded directories and documents show their fingerprints; a hit reads nothing and leaves the cache alone; a miss returns the load from scratch, reads exactly the candidates not held, and changes the cache at its key only; an error changes nothing |
| `CorpusContents.CandidateIff` | crates/memory/src/corpus.rs:411-481 | a discovery finds a path if and only if it is a file that the walk from the root reaches and the include patterns accept, or that a configured path, relative or absolute, names, or that is reached from one and has a name ending in .md |
| `CorpusContents.WantedIff` | crates/memory/src/corpus.rs:505-523 | the filter a candidate has to pass again before it is read: matched by the include patterns, configured itself, or below a configured directory |
| `CorpusContents.DiscoverIff` | crates/memory/src/corpus.rs:411-481 | a discovery fails if and only if a configured path lies outside the workspace, and names such a path |
| `CorpusContents.DirectoryIff` | crates/memory/src/corpus.rs:398-481 | the directories recorded are the root, present or not, and those reached from the root or from a configured directory, each with its fingerprint |
| `CorpusContents.FingerprintIff` | crates/memory/src/corpus.rs:816-836 | two files show the same fingerprint exactly if their times and their lengths in bytes agree |
| `CorpusContents.DirectoryFingerprintIff` | crates/memory/src/corpus.rs:838-892 | two paths show the same directory fingerprint exactly if presence, kind and time agree |
| `CorpusContents.FreshLoadOkIff` | crates/memory/src/corpus.rs:241-330 | a load from scratch succeeds exactly if no configured path leaves the workspace and every file that belongs decodes |
| `CorpusContents.FreshLoadIff` | crates/memory/src/corpus.rs:241-330 | the documents of a load from scratch are exactly those decoded from the files that belong |
| `CorpusContents.FreshLoadError` | crates/memory/src/corpus.rs:241-330 | a failing load names a configured path outside the workspace or a file that belongs and does not decode |
| `Chunker.WindowEnd` | crates/memory/src/corpus.rs:156-165 | the inner loop yields the greedy maximal window: one line or within budget, and no further line fits |
| `Chunker.NextStart` | crates/memory/src/corpus.rs:182-200 | the rewind loop shares nothing after a one-line window, and otherwise one line or as many as the overlap budget takes |
| `Chunker.ChunkDocument` | crates/memory/src/corpus.rs:149-202 | the loop terminates and its chunks are cut along such windows from the first line to the last |
| `Chunker.ChunkBudgets` | crates/memory/src/corpus.rs:145-202 | in numbers: with four bytes a token modulo 2^64 and at least 32 bytes a chunk, every chunk is one line or fits with a line ending and could not take the next line; neighbours share nothing after one line, and otherwise one line or as many as the overlap budget takes; text, path and snapshot of a chunk are those of its first to last line |
| `Chunker.CorpusBudgets` | crates/memory/src/corpus.rs:141-205 | so are the chunks that carry the path of any document of a corpus |
| `Chunker.ChunkCorpus` | crates/memory/src/corpus.rs:141-205 | the chunks of a corpus are those of its documents, in order |
| `Chunker.EndsNeverDecrease` | crates/memory/src/corpus.rs:154-201 | chunk ends never decrease, although a rewound chunk may add no line |
| `Chunker.StartsIncrease` | crates/memory/src/corpus.rs:154-201 | chunk starts strictly increase |
| `Chunker.ChunkCount` | crates/memory/src/corpus.rs:154-201 | there are at most as many chunks as lines |
| `Chunker.NoLineSkipped` | crates/memory/src/corpus.rs:154-201 | every line lies in some chunk |
| `Chunker.WindowingUnique` | crates/memory/src/corpus.rs:154-201 | the stated budgets and overlaps leave exactly one way to split a document |
| `Chunker.RoundTrip` | crates/memory/src/corpus.rs:167-176 | text and start line of the chunks rebuild the exact line list |
| `Chunker.CorpusRoundTrip` | crates/memory/src/corpus.rs:141-205 | every document of a corpus is rebuilt from the chunks that carry its path |
| `Text.Lines` | crates/memory/src/corpus.rs:483-488 | the lines of a text hold no line feed, and only the empty text has none |
| `Text.LinesRebuild` | crates/memory/src/corpus.rs:483-488 | lines and their endings make up the text; an ending is LF or CRLF, a carriage return before LF belongs to it, and only a non-empty last line goes without |
| `Text.TrimIff` | crates/config/src/core.rs:839-844 | trimming leaves the part from the first to the last character that is not whitespace, and nothing of a blank text |
| `Text.WhitespaceIff` | crates/config/src/core.rs:839-844 | the 25 code points that count as whitespace |
| `Text.Utf8RoundTrip` | crates/memory/src/corpus.rs:816-836 | the bytes counted for a character are those of its encoding in section 3 of RFC 3629, which decodes back to it |
| `Text.WellFormedLength` | crates/memory/src/corpus.rs:816-836 | every well-formed encoding of a character has the length counted |
| `OrderedTasks.StepKeepsInv` | crates/mcp/src/client.rs:156-175 | each start, completion and return keeps: at most max(limit, 1) in flight, no task started twice, started tasks are a prefix |
| `OrderedTasks.RunKeepsInv` | crates/mcp/src/client.rs:156-175 | that holds in every state of every schedule |
| `OrderedTasks.RunWithinLimit` | crates/mcp/src/client.rs:156-175 | on every run at most as many tasks are in flight as the limit says, and at most one if it says zero |
| `OrderedTasks.StartOpenIff` | crates/mcp/src/client.rs:156-175 | the next task, and none but the next, can start exactly if one is left and fewer are in flight than the limit, or none if the limit is 0 |
| `OrderedTasks.CompleteOpenIff` | crates/mcp/src/client.rs:156-175 | exactly the tasks in flight can complete; a success joins the completed ones, a failure ends the run with its error |
| `OrderedTasks.Progress` | crates/mcp/src/client.rs:156-175 | some step is open until the end, also with a limit of 0 |
| `OrderedTasks.RunIsBounded` | crates/mcp/src/client.rs:156-175 | every schedule ends within 2n + 1 steps |
| `OrderedTasks.SortByIndexSorted` | crates/mcp/src/client.rs:171-175 | the final sort orders by index |
| `OrderedTasks.SortedIsByPosition` | crates/mcp/src/client.rs:164-175 | after the sort, position k holds the outcome of task k, whatever the order of completion |
| `OrderedTasks.ScheduleIndependent` | crates/mcp/src/client.rs:156-175 | a list comes back exactly if all tasks succeed, and is the list of their values in order; otherwise the error of a task and no list |
| `OrderedTasks.Enumerate` | crates/mcp/src/client.rs:76-88 | the callers pair each task with its position |
| `OrderedTasks.CollectOrdered` | crates/mcp/src/client.rs:164-175 | the collecting loop and sort, for any order of completion; the first error to arrive is returned |
| `Sandbox.UnionMeans` | crates/core/src/custom_tools.rs:853-860 | a union of root lists covers what either list covers |
| `Sandbox.OverlapsOf` | crates/core/src/custom_tools.rs:842-848 | the inner loop collects the smaller root of every comparable pair |
| `Sandbox.RestrictPathRoots` | crates/core/src/custom_tools.rs:832-851 | the nested loops return the specified list |
| `Sandbox.RestrictedIsIntersection` | crates/core/src/custom_tools.rs:832-851 | a path lies under a returned root if and only if the base allows it, an empty base setting no limit, and a desired root covers it |
| `Sandbox.RestrictedCanonical` | crates/core/src/custom_tools.rs:832-851 | the output does not depend on order or repetition of the inputs and is strictly ascending |
| `Sandbox.RestrictTwice` | crates/core/src/custom_tools.rs:832-851 | restricting twice intersects twice if and only if nothing is desired the second time or some base root and some first root are comparable |
| `Sandbox.RestrictedLeaves` | crates/core/src/custom_tools.rs:832-851 | something is left exactly if something is desired and the base is empty or comparable with it |
| `Sandbox.RestrictTwiceFails` | crates/core/src/custom_tools.rs:832-851 | a base, disjoint roots and the same roots again: a path is let through that the base does not allow |
| `Sandbox.NetworkIsMeet` | crates/core/src/custom_tools.rs:802-830 | a destination is permitted if and only if both sides permit it, with an empty allowlist collapsing to Off |
| `Sandbox.NetworkLaws` | crates/core/src/custom_tools.rs:802-830 | the combination is commutative, associative and idempotent in meaning |
| `Sandbox.ToolMode` | crates/core/src/custom_tools.rs:781-792 | the mode is no looser than the base and is ReadOnly exactly if nothing is writable or the base is ReadOnly |
| `Sandbox.PolicyIsIntersection` | crates/core/src/custom_tools.rs:711-769 | path by path, outside the plugin's own tree reading, writing and executing need both the base and the matching grant; protected paths stay |
| `Sandbox.PolicyIsNoLooser` | crates/core/src/custom_tools.rs:711-800 | mode and host escape never get looser, and no surviving write root forces ReadOnly |
| `Sandbox.PolicyNetwork` | crates/core/src/custom_tools.rs:711-830 | by the grant: with none nothing is reached, with all what the base permits, with domains what the base permits among them |
| `Sandbox.PolicyKeeps` | crates/core/src/custom_tools.rs:711-800 | without a plugin the policy is the base; with one its protected paths and what it says on an unavailable sandbox stay |
| `Sandbox.NetworkContents` | crates/core/src/custom_tools.rs:802-830 | an open side gives the other; two allowlists give the entries in both, and Off exactly if there are none |
| `Sandbox.KeepSplits` | crates/core/src/custom_tools.rs:802-830 | entries that stay keep their order |
| `Sandbox.KeepOne` | crates/core/src/custom_tools.rs:802-830 | a single entry stays exactly if the other list holds it |
| `Sandbox.PolicyListsAscend` | crates/core/src/custom_tools.rs:711-769 | the root lists of a policy are strictly ascending |
| `Sandbox.WritableStaysReadable` | crates/core/src/custom_tools.rs:711-769 | if what the base lets be written can be read, so it is in the result |
| `Paging.PartTexts` | crates/mcp/src/bridge.rs:738-757 | a resource has text exactly if all its parts do, part by part |
| `Paging.ExtractText` | crates/mcp/src/bridge.rs:738-757 | extracted text is trimmed and never blank |
| `Paging.ExtractTextIff` | crates/mcp/src/bridge.rs:738-757 | there is text exactly if every part is text, inline resource text or JSON and they are not all blank, and it is these with an empty line between each two, trimmed |
| `Paging.Clamp` | crates/mcp/src/bridge.rs:446-462 | the effective page size: 32,768 if none is asked for, the size asked for from 1 to 262,144, the nearer bound otherwise |
| `Paging.PageFacts` | crates/mcp/src/bridge.rs:446-475 | a window starts where it is asked to, at 0 by default and at the end if asked for more; it lies in the text, remaining is exact, the preview is the window, and there is a cursor exactly if something remains |
| `Paging.FollowCovers` | crates/mcp/src/bridge.rs:446-475 | following the cursor with any page size at each step ends, and the previews concatenate to the text |
| `Paging.FollowLinks` | crates/mcp/src/bridge.rs:446-475 | neighbouring windows touch and only the last has no cursor |
| `Paging.ReadsNeeded` | crates/mcp/src/bridge.rs:446-475 | with a fixed effective size m a text takes exactly ceil(total / m) reads |
| `GridTable.SanitizedIsOneLine` | apps/code-agent/src/main.rs:3742-3749 | a sanitized cell is neither empty nor broken over lines |
| `GridTable.TruncateCell` | apps/code-agent/src/main.rs:3751-3764 | the pushing loop cuts to the cap and marks the cut |
| `GridTable.WriteTableBorder` | apps/code-agent/src/main.rs:3689-3706 | the writer sends the specified border |
| `GridTable.WriteTableRow` | apps/code-agent/src/main.rs:3726-3740 | the writer sends the specified row, for cell and width lists of any lengths |
| `GridTable.CellFitsColumn` | apps/code-agent/src/main.rs:3553-3585 | a cell fits its column although width and cell are cut against different caps |
| `GridTable.ShownRowFits` | apps/code-agent/src/main.rs:3553-3585 | every shown cell is one line and fits the width computed for its column |
| `GridTable.RenderedLineIff` | apps/code-agent/src/main.rs:3689-3768 | a line laid out to span and widths comes out as one line of the common width exactly if its texts fit and hold no line break |
| `GridTable.TableLineIff` | apps/code-agent/src/main.rs:3531-3600 | line by line: borders and data rows always have width sum + 3n + 1, the header row and the full-width texts exactly under their condition |
| `GridTable.TableIsRectangular` | apps/code-agent/src/main.rs:3531-3600 | every table: all lines have width sum + 3n + 1 if and only if there are columns and title, headers and footers hold no line break and fit the span |
| `GridTable.LongTitleSticksOut` | apps/code-agent/src/main.rs:3717-3724 | a title of five characters over one narrow column breaks the rectangle |
| `GridTable.WriteTitledGridTable` | apps/code-agent/src/main.rs:3531-3600 | which shapes are refused and how, and otherwise exactly the lines of the table |
| `GridTable.BoxIsRectangular` | apps/code-agent/src/main.rs:3602-3634 | every note box: a rectangle if and only if its texts fit the span and hold no line break |
| `GridTable.WriteTitledNoteBox` | apps/code-agent/src/main.rs:3602-3634 | the span loop finds the width of the widest text and the box is drawn to it |
| `GridContents.WordsAreRuns` | apps/code-agent/src/main.rs:3742-3743 | splitting at whitespace finds the maximal runs of other characters, all of them and in order |
| `GridContents.SanitizeMeans` | apps/code-agent/src/main.rs:3742-3749 | a cell shows these words with one space between each two, and a dash if it is blank |
| `GridContents.TruncatedMeans` | apps/code-agent/src/main.rs:3751-3764 | a cell that is too long keeps its beginning and ends in an ellipsis, at exactly the cap |
| `GridContents.ColumnWidth` | apps/code-agent/src/main.rs:3553-3562 | a column is exactly as wide as its header or its longest cell, cut to the larger of its cap and its header |
| `GridContents.BorderMeans` | apps/code-agent/src/main.rs:3689-3706 | character by character: the corner, then over each column a rule that ends in a joint or the other corner |
| `GridContents.RowMeans` | apps/code-agent/src/main.rs:3726-3740 | character by character: cell i stands one space after the edge of column i, padded to the next edge |
| `GridContents.SpanMeans` | apps/code-agent/src/main.rs:3708-3724 | the same for the lines across the whole width |
| `GridContents.TableIsLaidOut` | apps/code-agent/src/main.rs:3563-3600 | line by line: top edge, title, headers between their edges, the rows in order with their cells cut, then the bottom edge or the footer's title, rule, lines and edge, with the box characters written out |
| `GridContents.BoxIsLaidOut` | apps/code-agent/src/main.rs:3602-3634 | the same for a note box |
| `TokenCount.FormatTokenCount` | apps/code-agent/src/main.rs:4353-4363 | pushing digits from the end with commas and reversing is grouping from the front |
| `TokenCount.RoundTrip` | apps/code-agent/src/main.rs:4353-4363 | dropping the commas and parsing gives the count back |
| `TokenCount.GroupedLength` | apps/code-agent/src/main.rs:4353-4363 | d digits take d + (d - 1) / 3 characters |
| `TokenCount.GroupsOfThree` | apps/code-agent/src/main.rs:4353-4363 | all groups but the first have three digits and the first has one to three |
| `MemoryIndex.Shorten` | crates/memory/src/auto_index.rs:244-257 | popping lines until the note fits finds the longest prefix that fits |
| `MemoryIndex.FinalizeIndex` | crates/memory/src/auto_index.rs:238-258 | the index is the full join, or the longest prefix of at most 198 lines with the note, or the note alone |
| `MemoryIndex.LongestFitIsThreshold` | crates/memory/src/auto_index.rs:244-257 | a prefix fits with the note exactly up to the length chosen |
| `MemoryIndex.WithinBytes` | crates/memory/src/auto_index.rs:18-20 | the result never exceeds 25,000 bytes, for any entries |
| `MemoryIndex.WithinBudgets` | crates/memory/src/auto_index.rs:238-258 | with entries of one line each the result also has at most 200 lines |
| `MemoryIndex.IndexShows` | crates/memory/src/auto_index.rs:238-258 | the lines an index shows, whole or shortened, computed from the lines put in, their line breaks and the note |
| `MemoryIndex.LineBudgetIff` | crates/memory/src/auto_index.rs:238-258 | for every list of lines the budget is kept if and only if the line breaks within the lines that are kept fit into what these and the note leave of 200 |
| `IndexContents.IndexMeans` | crates/memory/src/auto_index.rs:238-258 | in numbers: all lines if they are at most 200 in 25,000 bytes, otherwise the most of the first 198 that fit with the note, an empty line apart |
| `IndexContents.NoteMeans` | crates/memory/src/auto_index.rs:239-239 | the text of the note |
| `IndexEntries.HookFacts` | crates/memory/src/auto_index.rs:225-236 | a hook is trimmed, keeps its start, never exceeds its cap and ends in an ellipsis where it is cut |
| `IndexEntries.LatestIsLast` | crates/memory/src/auto_index.rs:174-180 | the summary names the note updated last, and of several the last one |
| `IndexEntries.LinkedBreaks` | crates/memory/src/auto_index.rs:159-166 | the line breaks of an entry are those of its title, its target and its hook |
| `IndexEntries.RenderAutoMemoryIndex` | crates/memory/src/auto_index.rs:121-156 | the pushing loop and the final shortening give the index of the specified lines |
| `IndexEntries.RenderedWithinBudgets` | crates/memory/src/auto_index.rs:121-156 | any number of memories with single-line titles, paths and descriptions gives at most 200 lines and 25,000 bytes |
| `IndexEntries.TallHooksBreakBudget` | crates/memory/src/auto_index.rs:121-156 | two semantic memories as they are collected, with descriptions of 120 characters, give an index of more than 200 lines |
| `IndexEntries.RenderedBudgetIff` | crates/memory/src/auto_index.rs:121-156 | an index that is not cut shows twelve fixed lines, one per durable memory, and one per line break in the titles, paths and hooks listed and in the two summaries; so exactly when it keeps the budget |
| `IndexContents.HookMeans` | crates/memory/src/auto_index.rs:200-214 | the hook of an entry: its description, else the text of its type |
| `IndexContents.ScopeHookMeans` | crates/memory/src/auto_index.rs:214-223 | without description and type: the text of its scope, coordination notes apart |
| `IndexContents.EntryIsPresented` | crates/memory/src/auto_index.rs:159-166 | an entry's line: its title as a link to its path within the memory directory, a dash, and its trimmed hook in at most 120 characters |
| `IndexContents.DurableSplits` | crates/memory/src/auto_index.rs:131-140 | what is listed of two lists one after the other is what is listed of each |
| `IndexContents.DurableOne` | crates/memory/src/auto_index.rs:131-140 | of single memories the procedural and semantic ones are listed, the index itself apart |
| `IndexContents.ScopedSplits` | crates/memory/src/auto_index.rs:174-178 | the notes of a scope, likewise |
| `IndexContents.ScopedOne` | crates/memory/src/auto_index.rs:174-178 | a single memory is among the notes of its own scope only |
| `IndexContents.AgeIff` | crates/memory/src/auto_index.rs:179-182 | which of two memories was changed later, with 0 for a missing time |
| `IndexContents.SummaryMeans` | crates/memory/src/auto_index.rs:168-198 | a summary counts the notes of its scope and presents the one changed last, with its kind and time |
| `IndexEntries.LinesSnoc` | crates/memory/src/auto_index.rs:145-147 | each memory listed adds its line after those before |
| `IndexContents.RenderedMeans` | crates/memory/src/auto_index.rs:121-156 | the index: its headings, the durable memories or a line that says there are none, and the two summaries, in this order |
| `NameList.NormalizeList` | crates/config/src/core.rs:846-918 | the loop with its set of seen names computes the normalised list |
| `NameList.NormalizedMeans` | crates/config/src/core.rs:846-918 | that list is the only one holding the trimmed first occurrence of every non-blank name, in order |
| `NameList.CleanIsFixed` | crates/config/src/core.rs:846-918 | a list is unchanged if and only if its names are trimmed, non-blank and distinct |
| `NameList.NormalizedIdempotent` | crates/config/src/core.rs:846-918 | normalising twice is normalising once |
| `Profiles.InsertAll` | crates/config/src/core.rs:819-821 | inserting key by key is map union, whatever the order of the keys |
| `Profiles.MergeJsonObjects` | crates/config/src/core.rs:801-828 | the loop over the layers merges them or reports a layer that is no object |
| `Profiles.MergedLookup` | crates/config/src/core.rs:801-828 | for every key the overlay wins, then the middle, then the base |
| `Profiles.LookupIff` | crates/config/src/core.rs:801-828 | what a layer names: the fields of an object, and nothing if it is absent or no object |
| `Profiles.MergedAbsent` | crates/config/src/core.rs:823-827 | the result is absent exactly if no layer names a key |
| `Profiles.MergedOkIff` | crates/config/src/core.rs:801-828 | merging fails exactly if a layer is there and is no object |
| `Profiles.LayeringLaw` | crates/config/src/core.rs:449-530 | resolving through an overlay equals resolving the flattened profile, errors included, for every configuration |
| `Profiles.FlattenAssociative` | crates/config/src/core.rs:449-530 | stacks of layers need no brackets |
| `Profiles.ResolvedFields` | crates/config/src/core.rs:449-530 | which layer wins: model, sandbox, limits, temperature and compaction are those of the overlay, else the base, else the model, eight messages kept by default, and the resolved limits agree with each other |
| `Profiles.ResolvedParams` | crates/config/src/core.rs:516-521 | which layer wins for every parameter key |
| `Profiles.StatedListReplaces` | crates/config/src/core.rs:478-495 | the first allowlist stated is used whole, as the first occurrences of its names; an explicitly empty one stays present |
| `Profiles.StatedTextHides` | crates/config/src/core.rs:469-479 | the first prompt or effort stated is the one used, and a blank one resolves to none |
| `Profiles.ResolvedHolds` | crates/config/src/core.rs:449-530 | every field of a resolved profile at once: texts trimmed, lists as first occurrences, parameters key by key, each from the first layer that states it |
| `Profiles.Validate` | crates/config/src/core.rs:573-646 | the checks of a configuration, loop by loop, accept exactly what the later statements assume of it |
| `Profiles.ValidateModel` | crates/config/src/core.rs:711-758 | the checks of one model |
| `Profiles.SubagentHolds` | crates/config/src/core.rs:429-438 | a subagent's profile is named after the role text asked for without the whitespace at its ends, and every field comes from the role configured under that text, else the defaults, else the model |
| `Profiles.RoleIsUsed` | crates/config/src/core.rs:429-438 | asking for a configured role with any whitespace around its name gives that role's profile |
| `Profiles.PrimaryHolds` | crates/config/src/core.rs:424-427 | likewise for the primary agent, with no role in between |
| `Profiles.SubagentResolvesIff` | crates/config/src/core.rs:429-438 | for a validated configuration and whatever role a request asks for: exactly when a subagent resolves; a role's own model is always known, the default's model and the limits need not be sound |
| `Profiles.PrimaryResolvesIff` | crates/config/src/core.rs:424-427 | for a validated configuration: exactly when the primary agent resolves |
| `Profiles.UnknownRoleIsDefault` | crates/config/src/core.rs:429-438 | a request that asks for no configured role, blank or unknown, resolves or fails like no role, but for the profile's name |
| `Profiles.RoleReachableIff` | crates/config/src/core.rs:429-438 | some request resolves under a configured role if and only if its name has no whitespace at its ends and its model and limits fit |
| `KernelRelease.RunsAre` | apps/sched-claw/src/doctor.rs:1098-1109 | digit runs are maximal and everything else is skipped |
| `KernelRelease.ScanNumbers` | apps/sched-claw/src/doctor.rs:1096-1116 | the scan gives the first up to three digit runs as numbers, and nothing exactly if one of these overflows u64 |
| `KernelRelease.ParseKernelRelease` | apps/sched-claw/src/doctor.rs:1095-1121 | the scan with its early break returns the first two runs as major and minor and the third, or 0 if there is none, as patch; none exactly if there are fewer than two or one of these overflows u64 |
| `KernelRelease.RoundTrip` | apps/sched-claw/src/doctor.rs:1095-1121 | a printed a.b.c followed by anything that does not start with a digit reads as a, b and c and as nothing else |
| `KernelRelease.ReadBack` | apps/sched-claw/src/doctor.rs:1095-1121 | printing and parsing gives the version back, for all u64 numbers |
| `Decimal.PrintCanonical` | apps/code-agent/src/main.rs:4353-4354 | printed numbers have no zero in front |
| `Decimal.PrintValue` | apps/code-agent/src/main.rs:4353-4354 | printing the value of such digits gives them back, so parsing and printing are inverse |

## Left out

- Real file systems: symbolic links, coarse or missing modification times, stamps beyond u64, `..` components, renames of directories, non-UTF-8 names.
- Ignore files and glob matching: fixed predicates here, so an ignore file edited between two loads and an invalid glob pattern are not covered.
- The directory walk as a race with writers: one discovery is one step, and the include filter is evaluated with the fingerprint.
- YAML, TOML and JSON decoding, front matter, titles, metadata and SHA-256: uninterpreted functions of path, text and time.
- The text that a chunk is indexed under: a function of the chunk and its document that nothing here depends on.
- The debug-build panic on overflow of the chunk budgets: the wrap-around of a release build is modelled.
- MCP transports, child processes, type conversions and the fallback for optional methods: thin mappings.
- Process spawning, timeouts and output capture of custom tools: foreign calls.
- Case-insensitive or subdomain matching of network entries: the combination itself compares entries literally.
- Collecting and ordering the memories of the index, and the sectioned key-value table: reading files and display only. Printing a time is a parameter.
- Internal profiles, environment overrides and plugin slots of the configuration: the same combinators with fewer fields.
- Provider, base URL and capabilities of a model: copied unchanged.
- `CorpusLoad.CorpusCache.Load`: a load on a disk that holds still; loads beside writers are `CorpusRuns`, `CorpusStale` and `CorpusMiss`.
- `CorpusRuns.HitIsLinearizable`: needs the extra paths' directories to be recorded, because without that it is false, as `CorpusStale.LinearizableIffCovered` shows.
- `OrderedTasks.CollectOrdered`: takes the order of completion as a parameter; the polling of the stream is the step system.
- Promotion, retention, mailbox and transcript: they rest on other components or are single library calls.
