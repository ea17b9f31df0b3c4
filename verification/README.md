# Mission Control: models and proofs

A Dafny model of the parts of Mission Control where the logic is hard, with proofs of what they
promise. It covers eight parts.

* **The PDF writer of the post-mortem report** (`Latin1`, `TextWrap`, `TextMeaning`, `PdfSyntax`, `PdfWriter`,
  `PdfReader`, `PdfObjects`, `PdfContent`, `PdfRoundTrip`, `PdfReport`, `PdfResults`). The writer
  wraps, paginates, escapes, numbers objects, patches a placeholder and emits byte offsets. `PdfReader`
  is an independent reader of the part of ISO 32000-1 that such files use (sections 7.2, 7.3, 7.5.4,
  7.5.5, 7.7.3 and 9.4): it starts at `startxref`, follows the table and the trailer to the page tree
  and runs the content streams. Reading what was written gives the wrapped lines back, and these are
  the lines of the text, with their tabs expanded.
* **The managed block of the Codex configuration** (`ConfigEditor`, `ConfigMatching`,
  `ConfigRoundTrip`, `ConfigLines`, `ConfigWords`, `ConfigResults`): when stripping undoes inserting,
  and which of the user's lines survive it. `ConfigReading` and `ConfigWritten` are an independent reader
  of the part of TOML 1.0.0 that the block uses, and what it reads off a written configuration;
  `ConfigNewlines` is about line ends.
* **The benchmark harness** (`HarnessTasks`, `HarnessWork`, `HarnessSteps`, `HarnessPoll`, `HarnessResults`,
  `HarnessLaunch`, `HarnessRetry`, `HarnessScores`): the poll loop with its grace loop against a server
  that may do anything between two polls, and the retry loop that keeps the best attempt.
* **The exact tree mirror** (`TreeMirror`).
* **The prompt files and their check** (`Prompts`, `PromptResults`, `PromptSections`).
* **The single-flight authentication jobs** (`CodexAuth`, `CodexOutcomes`): coroutines as atomic sections in any order.
* **The repair loop for model answers** (`ModelAnswers`, `ModelContract`, `ModelCoercion`,
  `ModelRepair`).
* **Smaller printers and protocols**: the Markdown of the report (`MarkdownReport`, `MarkdownTables`), the
  skill pages and the parser that reads them for the index (`SkillPages`, `SkillSections`), the live display's two threads
  (`DisplayThreads`).

`Text`, `TextLines` and `Sorting` hold the Python string operations, texts line by line, and the stable
sort that the others use.

The environment is a parameter everywhere: the server's answers, the clock, the login process and the
model are arbitrary functions, so a statement about a method or a run holds for every behaviour of
them. A loop in the program is a method with a loop here, proved against a specification function or
a step function; the statements about whole runs are lemmas about those.

## What the proofs found

* The cross-reference table is well formed and readable exactly as long as every object starts below
  byte 10^10; from there on an entry has more than twenty bytes (`PdfResults.ReadsBack`,
  `PdfResults.HugeText`).
* A configuration that holds the server's header as its last line, without a line feed, keeps it: the
  pattern needs the line feed, which stripping then adds. For such a file inserting twice differs from
  inserting once (`ConfigResults.LeftoverServer`). The exact condition is that the stripped text has
  neither a start marker line nor the header flush left.
* That all of the user's lines survive stripping when no server header stands flush left outside a
  managed block is false. The white space behind an end marker goes with the block, and so does the
  indentation of the line that follows: an indented server header there becomes flush left and is
  removed with everything behind it (`ConfigResults.IndentedHeaderIsLost`), and an indented start marker
  there no longer begins a line, so its block stays (`ConfigResults.IndentedStartStays`). A block whose
  end marker is missing stays too, and its header takes what follows
  (`ConfigResults.UnclosedBlockIsCut`). Every text is made of the user's lines and of blocks
  (`ConfigWords.EveryTextIsDoc`); the lines survive if and only if every block right behind another one
  is flush left, and none of the ended lines reads as the header -- the first one behind a block without
  its indentation (`ConfigWords.UserLinesSurvive`). Only where such a block is not found and the user's
  own lines hold a start marker as well, the words may be there by chance
  (`ConfigResults.SameWordsByChance`).
* The block that is written reads back as its arguments exactly when none of them holds a control
  character: those are written unescaped, which a string in TOML must not hold (`ConfigReading.ReadBlock`).
* The complaint about an edit that is no object is never made: such entries are dropped before the check
  (`ModelContract.ReasonIsTrue`).
* The agents never decide which tasks the harness tries: `assigned` is a startable status, so the test
  whether an assigned task may be relaunched is never the deciding one
  (`HarnessResults.AgentsDoNotMatter`).
* In the retry loop the branch that forces `validation_succeeded` is dead. The one that forces
  `patch_applied` is not: it is taken exactly when the last of several attempts has no patch, ran checks
  and failed fewer of them than the best before it (`HarnessRetry.RunSingleTask`,
  `HarnessRetry.CreditedRun`).
* An authentication job that an exception drops stays the current job for good, and no other can be
  started; if no job was dropped, the service can always become free again
  (`CodexAuth.FreeUnlessDropped`, `CodexAuth.DroppedRun`).
* A prompt catalog without repeated names passes its own check exactly when no prompt with aliases has
  the tool-sequence marker in its title, name or an alias (`PromptResults.SyncPasses`); a catalog that
  does not is `PromptResults.MarkedCatalog`.
* A coerced answer to a prompt that asks for edits fails the very check that led to the coercion if it
  lists tests and recommends a code change (`ModelCoercion.CoercedPasses`, `ModelCoercion.FixIsClaimed`).
* The fourth answer of a model is not checked. An answer that would pass goes unused exactly when it is
  a fourth one (`ModelRepair.OverlookedExactly`, `ModelRepair.OverlookedTrial`).
* A line that goes on with an ordered list begins one exactly when it has two digits: `1. item` begins a
  paragraph (`MarkdownReport.OrderedBegins`).
* The parser that makes the index reads a numbered step of a skill page as an item only from the tenth
  on (`SkillSections.NumberedItem`).
* A table with a line feed in a header is never read back, while a line feed in a cell is read as a
  space (`MarkdownTables.HeaderFeeds`).

## Model

| member | source | states |
|---|---|---|
| TextWrap.WrapTextLines | scripts/generate_token_spike_postmortem.py:978-993 | The wrapping loop computes the wrapped lines of the split text, line after line, an empty line staying one empty line. |
| TextWrap.Wrap | scripts/generate_token_spike_postmortem.py:984-992 | Wrapping a line loses nothing: the pieces joined are the line with tabs expanded, and each has between one and `width` characters. |
| TextWrap.WrapIsGreedy | scripts/generate_token_spike_postmortem.py:984-992 | Filling is greedy: a line ends only where the next word or gap does not fit, and nothing that fits on a line of its own is cut; a longer one is cut where the line is full. |
| TextWrap.WrapAllFits | scripts/generate_token_spike_postmortem.py:978-993 | Whatever the text, no wrapped line is longer than `width` or holds a line break. |
| TextMeaning.SplitTells | scripts/generate_token_spike_postmortem.py:980 | The lines of a text with their breaks between them are the text; a carriage return with a line feed is one break, and only the last line may go without. |
| TextMeaning.LineBreaksAre | scripts/generate_token_spike_postmortem.py:980 | A text is split at the ten characters that `str.splitlines` knows. |
| TextMeaning.BlanksAre | scripts/generate_token_spike_postmortem.py:984-992 | A line is wrapped at the six characters that the library takes for white space. |
| TextMeaning.ExpandsTabs | scripts/generate_token_spike_postmortem.py:984-992 | In the expanded line the characters of the line stand in order, and each tab is one to eight blanks that end at a multiple of eight columns since the last line end. |
| TextMeaning.NoTabsNoChange | scripts/generate_token_spike_postmortem.py:984-992 | A line without tabs is not changed. |
| TextMeaning.WrapAllTells | scripts/generate_token_spike_postmortem.py:978-993 | The wrapped lines of a text are those of its lines, one after the other; those of one line together are the line with its tabs expanded, and the line itself if it has none. |
| PdfWriter.PageStream | scripts/generate_token_spike_postmortem.py:1033-1043 | The loop over a page's lines encodes the page's content stream. |
| PdfWriter.AddContents | scripts/generate_token_spike_postmortem.py:1032-1049 | Content objects are appended in page order and get consecutive numbers. |
| PdfWriter.AddPages | scripts/generate_token_spike_postmortem.py:1056-1062 | Each page object refers to the page tree, the font and its own content. |
| PdfWriter.PatchKids | scripts/generate_token_spike_postmortem.py:1064-1068 | Replacing the placeholder in the page-tree object puts the kids there and changes nothing else. |
| PdfWriter.BuildObjects | scripts/generate_token_spike_postmortem.py:1017-1070 | The list of objects, with the placeholder patched in place, is the specified one. |
| PdfWriter.WriteObjects | scripts/generate_token_spike_postmortem.py:1075-1080 | The objects are written one after another, each offset noted being the length written before it. |
| PdfWriter.WriteEntries | scripts/generate_token_spike_postmortem.py:1084-1085 | The table's entries are written in the order of the objects. |
| PdfWriter.WriteTextPdf | scripts/generate_token_spike_postmortem.py:1000-1091 | The whole writer produces the encoding of the specified file for the wrapped lines. |
| PdfContent.EscapesEach | scripts/generate_token_spike_postmortem.py:996-997 | Three replacements in a row escape each character once: no escape is escaped again. |
| PdfContent.ReadEscaped | scripts/generate_token_spike_postmortem.py:996-997 | Reading an escaped literal string gives the string back, for every string without carriage returns. |
| PdfContent.StreamLexes | scripts/generate_token_spike_postmortem.py:1033-1043 | A content stream reads as its operators, in order, with the lines as strings. |
| PdfContent.ExecuteLines | scripts/generate_token_spike_postmortem.py:1036-1041 | Running the operators shows the lines in order, each one leading below the one before. |
| PdfObjects.PageLexes | scripts/generate_token_spike_postmortem.py:1056-1062 | The bytes of a page object are the tokens of its value, with the type, the parent, the media box, the resources and the contents in it. |
| PdfRoundTrip.ReadPlain | scripts/generate_token_spike_postmortem.py:1075-1080 | An object whose bytes are the tokens of a value is read as that value from the place where it stands. |
| PdfRoundTrip.ObjectAtOffset | scripts/generate_token_spike_postmortem.py:1075-1080 | At the offset noted for an object stand exactly its `id 0 obj` line and the object. |
| PdfRoundTrip.XrefStands | scripts/generate_token_spike_postmortem.py:1081-1091 | At the position written behind `startxref` stands the cross-reference table. |
| PdfRoundTrip.EntryIsTwentyBytes | scripts/generate_token_spike_postmortem.py:1084-1085 | An entry has its twenty bytes exactly when the offset is below 10^10. |
| PdfRoundTrip.ReadPrintedXref | scripts/generate_token_spike_postmortem.py:1081-1085 | The table reads back as the offsets if they are all below 10^10, and not at all otherwise. |
| PdfRoundTrip.FindStart | scripts/generate_token_spike_postmortem.py:1086-1091 | The last `startxref` of the file is the one the writer wrote, whatever the lines say. |
| PdfRoundTrip.ReadContents | scripts/generate_token_spike_postmortem.py:1043-1049 | `/Length` is the stream's byte count: reading that many bytes ends at `endstream`. |
| PdfReport.Numbering | scripts/generate_token_spike_postmortem.py:1019-1070 | Which object has which number: font, contents, tree, pages, catalog, so every reference names the object meant. |
| PdfReport.ReadsTree | scripts/generate_token_spike_postmortem.py:1052-1070 | From the catalog the reader reaches every page through the kids, and `/Count` is their number. |
| PdfResults.LossyObjects | scripts/generate_token_spike_postmortem.py:1019-1025 | Encoding to Latin-1 turns characters above 255 into question marks in the lines and touches nothing else. |
| PdfResults.ReadsBack | scripts/generate_token_spike_postmortem.py:1000-1091 | For every text the reader gets the wrapped lines back from the bytes, page by page and each at its place, if all offsets are below 10^10; otherwise the file cannot be read. |
| PdfResults.TextReadsBack | scripts/generate_token_spike_postmortem.py:978-1091 | What is read off the file is the text itself: its lines, each with its tabs expanded and cut into pieces, in order, with question marks only for characters above 255. |
| PdfResults.HugeText | scripts/generate_token_spike_postmortem.py:1084-1085 | A text of six times 10^11 empty lines, whose file cannot be read. |
| PdfResults.PagesPartition | scripts/generate_token_spike_postmortem.py:1008-1012 | The pages part the lines into runs of one to sixty, all but the last full. |
| PdfResults.LinesOnPage | scripts/generate_token_spike_postmortem.py:1002-1041 | Every line stands at the left margin, within the page's margins, one leading below the line before. |
| PdfResults.TableInFixedFormat | scripts/generate_token_spike_postmortem.py:1084-1085 | The entries together have twenty bytes each exactly when all offsets are below 10^10. |
| MarkdownReport.RowReadsBack | scripts/generate_token_spike_postmortem.py:406-413 | A printed table row reads back as the same cells exactly when there are cells and each is trimmed, on one line and without a bar. |
| MarkdownReport.CutBlocks | scripts/generate_token_spike_postmortem.py:880-931 | The block loop ends and takes every line exactly once, in order; each block is begun by its first line and is as long as its inner loop allows. |
| MarkdownReport.KindTells | scripts/generate_token_spike_postmortem.py:883-929 | What a line begins, by its first characters: a title of its level, a table, a list, an ordered list, code, or nothing if it is blank. |
| MarkdownReport.EntryTaken | scripts/generate_token_spike_postmortem.py:894-925 | A line that begins a block of several lines passes the test of that block's inner loop, so the loop takes it. |
| MarkdownReport.OrderedBegins | scripts/generate_token_spike_postmortem.py:911-916 | A line that goes on with an ordered list begins one if and only if its second character is a digit, and otherwise begins a paragraph. |
| MarkdownReport.SingleDigitBeginsNothing | scripts/generate_token_spike_postmortem.py:911-916 | So a line with a single-digit number, whatever the digit, goes on with an ordered list but begins a paragraph. |
| MarkdownTables.MdTable | scripts/generate_token_spike_postmortem.py:406-413 | The printing loop joins the header line, the rule and the rows, the headers as they are. |
| MarkdownTables.RenderRows | scripts/generate_token_spike_postmortem.py:945-956 | The reading loop takes the first row for the headers and those behind the second for the body, and needs two rows. |
| MarkdownTables.TableReads | scripts/generate_token_spike_postmortem.py:406-413 | A printed table is read as its headers and its cells without line feeds if and only if these are trimmed, on one line and without a bar, and no row is empty. |
| MarkdownTables.TableReadsBack | scripts/generate_token_spike_postmortem.py:406-413 | It reads back as just what was printed if and only if the headers and the cells themselves are so. |
| MarkdownTables.HeaderFeeds | scripts/generate_token_spike_postmortem.py:406-413 | With a line feed in a header no table with these headers is read. |
| ConfigMatching.FootOfLines | scripts/mission_control_manage.py:504-506 | The lazy scan for the end marker runs over any lines that do not start with it, takes the first that does, and the white space behind it. |
| ConfigRoundTrip.TidyForm | scripts/mission_control_manage.py:516-519 | Tidying gives a trimmed text with one line feed at its end, and tidying again changes nothing. |
| ConfigRoundTrip.UpsertIsFresh | scripts/mission_control_manage.py:522-543 | The new text begins with the stripped text, and the inserted block with its white space is all that follows. |
| ConfigRoundTrip.HeadTakesSolid | scripts/mission_control_manage.py:504-507 | A start marker left in the user's text starts a block that swallows the marker, and may swallow the inserted block. |
| ConfigLines.TidyLines | scripts/mission_control_manage.py:516-519 | Tidying ends every line, trims the first and the last of those that are not blank and keeps the others as they are. |
| ConfigLines.ServersFed | scripts/mission_control_manage.py:510-514 | A server header is found exactly when one of the ended lines reads so. |
| ConfigLines.HeadsFed | scripts/mission_control_manage.py:504-506 | A start marker line is found exactly when one of the ended lines is one, up to its indentation. |
| ConfigWords.UserLinesSurvive | scripts/mission_control_manage.py:501-519 | In a text of user lines and managed blocks, if every block right behind another is flush left and no ended line that is left reads as the header, stripping leaves just the lines, the first behind a block without its indentation, the first and the last trimmed; and only then do the lines that are not blank survive, but for a block that is not found in a text whose own lines hold a start marker; the text is changed if and only if there was a block or such a header. |
| ConfigWords.CleanOfKept | scripts/mission_control_manage.py:501-519 | If the lines survive, the stripped text is clean exactly when none of those that are left is a marker once the first and the last are trimmed. |
| ConfigWords.EveryTextIsDoc | scripts/mission_control_manage.py:504-507 | Every text without carriage returns is made of user lines, managed blocks and lines behind them that begin none. |
| ConfigResults.StripAfterUpsert | scripts/mission_control_manage.py:501-573 | Stripping, and removing the registration, undo inserting if and only if the stripped text has no start marker line and no server header flush left. |
| ConfigResults.UpsertTwice | scripts/mission_control_manage.py:522-543 | Inserting twice is inserting once if and only if the same holds. |
| ConfigResults.BlockLinesAreBody | scripts/mission_control_manage.py:469-498 | For arguments on one line, escaped as the program escapes them, no line of the block ends it early. |
| ConfigReading.ReadEscaped | scripts/mission_control_manage.py:107-108 | An escaped text reads back as it was if and only if it holds no control characters. |
| ConfigReading.PosixTextIs | scripts/mission_control_manage.py:103-104 | The posix text has slashes for backslashes and is the same otherwise. |
| ConfigReading.ReadBlock | scripts/mission_control_manage.py:469-501 | The block reads back as its arguments, if and only if they hold no control characters: `command` is the Python, `cwd` and the first variable the repository, the other variables the Python, host and port; and the plugin's table is there exactly when a plugin is given. |
| ConfigWritten.WrittenReadsBack | scripts/mission_control_manage.py:469-501 | The same, read off the whole configuration after the block was inserted, whatever it held before. |
| ConfigNewlines.EndsReadAlike | scripts/mission_control_manage.py:503-504 | A file with the line ends of any system is read as the same text. |
| ConfigNewlines.FeedsReplaced | scripts/mission_control_manage.py:503-504 | Replacing line ends undoes writing each line feed with a return before it. |
| ConfigResults.LawsForUserTexts | scripts/mission_control_manage.py:501-573 | For a text of user lines and managed blocks both laws hold exactly if the stripped text is clean; if the lines survive, that is said by the lines themselves, and all words of the user's lines are there after inserting and stripping. |
| ConfigResults.LeftoverServer | scripts/mission_control_manage.py:510-519 | A file with the bare server header and no line feed: it survives stripping, and inserting twice differs from inserting once. |
| ConfigResults.IndentedHeaderIsLost | scripts/mission_control_manage.py:504-514 | A block, an indented header behind it and another line: stripping leaves nothing. |
| ConfigResults.UnclosedBlockIsCut | scripts/mission_control_manage.py:504-514 | A block without its end marker: its lines do not survive. |
| ConfigResults.SameWordsByChance | scripts/mission_control_manage.py:504-514 | A block that is not found and a start marker among the user's lines: the lines of the block left standing read as the lines that are lost. |
| ConfigResults.IndentedStartStays | scripts/mission_control_manage.py:504-514 | A block and an indented block right behind it: the second one is not found and the user's line does not survive as the only one. |
| HarnessTasks.CandidatesFacts | scripts/run_swe_bench_harness.py:1579-1617 | The candidates are exactly the tasks that may be started, each as often as it is listed, sorted by status rank, priority and identifier. |
| HarnessWork.UnderwayIsExecuting | scripts/run_swe_bench_harness.py:1365-1415 | A task is being executed exactly when one is working, or one is assigned, waits for no other and has its dependencies finished, and the first agent listed for it has it as its current task. |
| HarnessWork.ReadyIsCandidate | scripts/run_swe_bench_harness.py:1500-1617 | A task may be started exactly when it is in the backlog, assigned or waiting on paths, has its dependencies finished, is not superseded, and if it was started before came back without an agent, failed or was sent back. |
| HarnessPoll.AttemptAutoStart | scripts/run_swe_bench_harness.py:1620-1681 | The launch loop comes to what the specification says, and books the accepted start in the set and the counter. |
| HarnessPoll.MainCycle | scripts/run_swe_bench_harness.py:1824-1914 | One pass of the main loop is one step of the state machine, whatever the server answers; the time of the last progress moves with every cycle that counts as progress. |
| HarnessPoll.MainLoop | scripts/run_swe_bench_harness.py:1824-1916 | The main loop ends; it makes no more cycles than poll intervals fit into the task timeout, and one, and overruns it by no more than an interval and the calls of the last pass; it stops for idleness only when nothing counted as progress for the idle timeout. |
| HarnessPoll.GraceCycle | scripts/run_swe_bench_harness.py:1945-2007 | One pass of the grace loop is one grace step, and sleeps once or twice. |
| HarnessPoll.GraceLoop | scripts/run_swe_bench_harness.py:1944-2007 | The grace loop ends within the grace period, two poll intervals and the time of the calls of its last pass. |
| HarnessPoll.GraceSeconds | scripts/run_swe_bench_harness.py:1772-1775 | The grace period is between 30 and 900 seconds, whatever the configuration. |
| HarnessPoll.PollRun | scripts/run_swe_bench_harness.py:1805-2019 | The whole run is a main run followed by a grace run if time ran out; what it returns; and it ends within the task timeout, the grace period, three poll intervals and the time of the calls of each loop's last pass and between the loops. |
| HarnessResults.StartsJustified | scripts/run_swe_bench_harness.py:1594-1681 | Every start request goes to a task of the snapshot whose dependencies are finished there, while none is executed; requests follow the order of the candidates; at most one is accepted and it is the last; if none is accepted, waited for or blocking, every justified task was requested. |
| HarnessResults.WorkStartsNothing | scripts/run_swe_bench_harness.py:1861-1876 | While a task is being worked on, no start is requested in either loop, and the main loop sleeps or has converged. |
| HarnessResults.ReadyIsRequested | scripts/run_swe_bench_harness.py:1861-1876 | While none is, and a task is ready and within the budget, a start is requested, the first one for a ready task that comes before all others. |
| HarnessLaunch.GoesAwayIs | scripts/run_swe_bench_harness.py:1524-1572 | A refusal is waited out exactly when the task was claimed in between, no worker is free while some are at work, or the paths are taken by work that goes on. |
| HarnessLaunch.LaunchTells | scripts/run_swe_bench_harness.py:1620-1681 | Which candidates were requested, which answers passed them over, and from them whether one was started, is waited for, something went on, and which reason is noted. |
| HarnessLaunch.VerdictTells | scripts/run_swe_bench_harness.py:1855-1916 | How a cycle of the main loop ends, in the words of its snapshot: only validation is left, work goes on, all tasks are over, none is ready and help is due or not. |
| HarnessLaunch.GraceTells | scripts/run_swe_bench_harness.py:1945-2007 | How a cycle of the grace loop ends. |
| HarnessLaunch.ChangedTells | scripts/run_swe_bench_harness.py:1848-1854 | A poll sees a change exactly if its snapshot has other tasks, other statuses or another number of events than that of the poll before. |
| HarnessLaunch.FirstChangedTells | scripts/run_swe_bench_harness.py:1848-1854 | The first poll sees a change exactly if there are tasks or events. |
| HarnessLaunch.ProgressTells | scripts/run_swe_bench_harness.py:1824-1900 | A cycle counts as progress exactly if something was answered or approved, a change was seen, the answer to a start request shows that something goes on, or the manager is asked for help. |
| HarnessResults.AgentsDoNotMatter | scripts/run_swe_bench_harness.py:1600-1615 | The agents make no difference to the candidates. |
| HarnessResults.BudgetKept | scripts/run_swe_bench_harness.py:1633-1653 | Over both loops the counter is the size of the started set and never exceeds the budget, taken as at least zero. |
| HarnessResults.StartedAre | scripts/run_swe_bench_harness.py:1648-1653 | A task is in the started set exactly when some cycle of the run started it. |
| HarnessResults.DependencyOrder | scripts/run_swe_bench_harness.py:1744-1748 | If finished tasks stay finished, then whenever a task and one that it depends on are both started, every start of the latter comes in an earlier cycle. |
| HarnessResults.RecoveriesBounded | scripts/run_swe_bench_harness.py:1851-1900 | Recovery is requested at most twice, and twice more for every change seen. |
| HarnessResults.DeadlockStays | scripts/run_swe_bench_harness.py:1876-1884 | A noted deadlock reason stays, and then the run ends unless a task is executed, started or waited for. |
| HarnessResults.NoRecoveryAfterDeadlock | scripts/run_swe_bench_harness.py:1876-1900 | After a deadlock reason is noted, recovery is never requested again in the run. |
| HarnessResults.ExitsAreQuiet | scripts/run_swe_bench_harness.py:1861-1914 | Except for convergence the loop never ends while a task is executed or when a start was accepted; the idle exit has requested every justified task. |
| HarnessRetry.RunAttempts | scripts/run_swe_bench_harness.py:2525-2570 | The loop over the attempts keeps the best and latest, and ends as `Stopped` says: at the limit, or with neither the last attempt nor the best one worth building on. |
| HarnessRetry.RunSingleTask | scripts/run_swe_bench_harness.py:2514-2626 | The selected attempt has the greatest score, the latest among equals; the loop stops at the first resolved attempt, which is selected; validation is never credited beyond the selected attempt, and a patch exactly when the last of several attempts has none, ran checks and failed fewer than the best before it. |
| HarnessRetry.BestGrows | scripts/run_swe_bench_harness.py:2546-2551 | Comparing the new score with the kept one keeps the best, and latest, of all attempts. |
| HarnessRetry.ResultsAreAttempts | scripts/run_swe_bench_harness.py:2412-2446 | An attempt is resolved exactly when its validation succeeded, and that takes a patch and checks. |
| HarnessScores.ResultTells | scripts/run_swe_bench_harness.py:2393-2446 | An attempt is resolved and validated exactly if it changed files, ran checks and all of them ended in time with code 0; it failed in validation exactly if it ended in time, changed files and failed a check. |
| HarnessScores.WorthRetrying | scripts/run_swe_bench_harness.py:635-645 | An attempt is worth building on exactly in that case. |
| HarnessScores.SelectedTells | scripts/run_swe_bench_harness.py:662-681 | The selected attempt is one that no other is better than and that all later ones are worse than: resolved, validated and checked first, then with fewer failures, a patch, a difference in more than form, and completed. |
| HarnessScores.ChangedTells | scripts/run_swe_bench_harness.py:2578-2585 | The changed files of all attempts are named once each, without blank names, those of earlier attempts first. |
| HarnessRetry.UnpatchedWins | scripts/run_swe_bench_harness.py:635-678 | An attempt without a patch takes the place of one whose patch failed its checks if and only if it ran checks and failed fewer. |
| HarnessRetry.CreditedRun | scripts/run_swe_bench_harness.py:2604-2611 | A run of two attempts in which the patch of the first one is credited to the second. |
| TreeMirror.Folder.Fill | scripts/mission_control_bundle.py:41-53 | Without a clash of kinds copying succeeds and gives the target all of the source, leaving the rest as it was. |
| TreeMirror.FilesOfIs | scripts/mission_control_bundle.py:41-53 | What is said to be copied are the files of the source, in the order of the walk. |
| TreeMirror.NothingBelow | scripts/mission_control_bundle.py:55-61 | In reverse order of paths, a path to be removed has nothing below it left, and removing it removes just that path. |
| TreeMirror.Folder.Prune | scripts/mission_control_bundle.py:55-61 | Pruning keeps exactly the expected paths, and every path it removes is still there when it gets to it. |
| TreeMirror.Folder.CopyTreeExact | scripts/mission_control_bundle.py:39-62 | The mirror succeeds and equals the source exactly when no path is a file on one side and a directory on the other; whenever it gets to the end, the paths are those of the source. |
| Prompts.PromptDirectory.Sync | scripts/mission_control_bundle.py:118-132 | After syncing, the directory holds for every stem the text written last for it, and nothing else, whatever it held before. |
| Prompts.Validate | scripts/validate-mission-control-prompts.py:26-64 | The complaints are exactly the flaws: files that are missing or too many, prompts missing or blank, aliases missing, without their two lines, or with another text behind the marker; the check fails to split exactly if an alias it looks at, or its prompt, lacks the marker. |
| PromptResults.RenderParts | scripts/mission_control_bundle.py:87-115 | A rendered text is a head that depends on the stem and a tail that does not. |
| PromptSections.SectionsRead | scripts/mission_control_bundle.py:87-115 | The sections of a written prompt read back as its tools, resources, safety notes and text, for every prompt whose title, names and items are on one line and whose description and safety notes begin no section. |
| PromptSections.PurposeRead | scripts/mission_control_bundle.py:107-108 | The description, if there is one, stands under its own heading. |
| PromptSections.TitleTells | scripts/mission_control_bundle.py:87-89 | The title that a prompt without one gets is its name, with blanks for underscores and hyphens, a capital where a letter begins a word, and small letters elsewhere. |
| PromptResults.SyncPasses | scripts/validate-mission-control-prompts.py:37-64 | For a catalog without repeated names, the written files pass the check if and only if no prompt with aliases has the marker in its title, name or an alias. |
| PromptResults.MarkedCatalog | scripts/validate-mission-control-prompts.py:37-64 | A catalog without repeated names, with the marker in a title, whose written files do not pass. |
| PromptResults.SyncAndValidate | scripts/validate-mission-control-prompts.py:37-64 | Writing both directories and checking them reports nothing exactly under that condition. |
| CodexAuth.CodexAuthService.CurrentJob | apps/server/src/codex_auth.py:48-55 | The current job, dropping an identifier that names none. |
| CodexAuth.CodexAuthService.StartJob | apps/server/src/codex_auth.py:114-136 | A job is started exactly when all jobs are through. |
| CodexAuth.CodexAuthService.ReadLine | apps/server/src/codex_auth.py:164-174 | A reader's turn with a line is one step: a line that is not blank goes to the reader's list and to the output shown. |
| CodexAuth.CodexAuthService.FinishJob | apps/server/src/codex_auth.py:184-202 | The last section ends the job by the exit code and frees the service. |
| CodexAuth.AlwaysSingleFlight | apps/server/src/codex_auth.py:114-202 | Under every interleaving at most one job is not through, the active identifier names it, and so it is never stale. |
| CodexAuth.TerminalIsFinal | apps/server/src/codex_auth.py:138-202 | A job that is through is never touched again. |
| CodexAuth.DroppedForGood | apps/server/src/codex_auth.py:138-202 | A job dropped by an exception stays the current one, and no job is ever added again. |
| CodexAuth.CanBecomeFree | apps/server/src/codex_auth.py:138-202 | From every reachable state without a dropped job, some continuation of the run frees the service. |
| CodexAuth.FreeUnlessDropped | apps/server/src/codex_auth.py:114-202 | The service can become free again, and start any new job, if and only if no job was dropped. |
| CodexAuth.DroppedRun | apps/server/src/codex_auth.py:138-157 | A run of three sections that drops a job, after which the service cannot become free again. |
| CodexAuth.OutputIsMerge | apps/server/src/codex_auth.py:157-176 | Under every interleaving of the readers the output is the last twenty lines of all that was read, and each reader has its own lines in order. |
| CodexAuth.NothingLost | apps/server/src/codex_auth.py:157-184 | The two lists together hold every line read exactly once. |
| CodexOutcomes.StatusTells | apps/server/src/codex_auth.py:138-202 | Over every run, a job is succeeded exactly if its process ended with code 0, and failed exactly if the process could not be started or ended with another code; its exit code is the one with which the process ended. |
| CodexOutcomes.MessageTells | apps/server/src/codex_auth.py:138-202 | Its message is the text it was started with, the last line read, the reason why the process could not be started, and in the end the sign-out text for a logout that ended with 0 and otherwise the last line read of the error stream, or of the other one if that was silent. |
| CodexOutcomes.OutputTells | apps/server/src/codex_auth.py:168-169 | The output shown is the last twenty lines read, or all of them. |
| ModelAnswers.NormalTwice | scripts/ollama_adapter.py:177-225 | Normalizing an answer twice is normalizing it once. |
| ModelContract.AcceptedExactly | scripts/ollama_adapter.py:285-330 | The check accepts an answer if and only if it is an object and, for a prompt that asks for edits, has a report and a list whose objects are edits with a path and a change that is written out, claims no finished change without an edit, and on a non-editing task has neither edits nor files nor such a claim. |
| ModelContract.ReasonIsTrue | scripts/ollama_adapter.py:285-330 | Every complaint is true of the answer. |
| ModelContract.TextsAre | scripts/ollama_adapter.py:403-405 | The texts taken from a list are those of its items that are not blank. |
| ModelCoercion.EvidenceClaimsNothing | scripts/ollama_adapter.py:235-251 | The summary that coercion writes adds no claim of a code change to the recommendation it stands before. |
| ModelCoercion.CoercedPasses | scripts/ollama_adapter.py:285-330 | A coerced answer has no edits and no changed files, and passes the check again unless the prompt asks for edits and it lists tests and recommends a code change. |
| ModelCoercion.CoercedTells | scripts/ollama_adapter.py:392-426 | The coerced report keeps its other fields; the complaint is its last blocker unless it was one already, and the summary that is given up its last risk if tests were run. |
| ModelCoercion.FixIsClaimed | scripts/ollama_adapter.py:285-330 | An answer with one test and the recommendation to fix something, whose coerced form is complained about. |
| ModelRepair.CandidateModels | scripts/ollama_adapter.py:92-106 | The candidates are distinct and not none, begin with the selected model, contain every available one outside the strict case, and come in this order: the selected, the requested and the default one, then better ones first, and of equally good ones the one listed first. |
| ModelRepair.StrongestIsBest | scripts/ollama_adapter.py:86-89 | The strongest model is an available one that no other beats. |
| ModelRepair.SelectTells | scripts/ollama_adapter.py:77-89 | Which model is selected: the one asked for, unless it is the default one or none; the default one if no available one is above it, and otherwise the first one that none is above. |
| ModelRepair.TryModel | scripts/ollama_adapter.py:438-446 | A candidate is asked up to four times; every answer but the last is not acceptable, and the fourth is not checked. |
| ModelRepair.OverlookedExactly | scripts/ollama_adapter.py:438-456 | An answer that would pass goes unused exactly when it is the fourth, behind three that failed; then it is coerced if the task is a non-editing one and it has a report, and otherwise the candidate fails. |
| ModelRepair.OverlookedTrial | scripts/ollama_adapter.py:438-456 | A trial whose fourth answer would pass and goes unused. |
| ModelRepair.Repair | scripts/ollama_adapter.py:429-464 | What is printed is itself acceptable, or is the coerced payload; candidates that failed precede the one that settled it; each costs at most four requests; a run that fails had a good answer exactly if a fourth one was good. |
| SkillPages.SectionIs | scripts/generate-mission-control-skills.py:2053-2060 | In a page of plain lines a section reads as its own lines, stripped: neither an earlier mention nor a later heading is taken for its bounds. |
| SkillPages.ItemsOfSection | scripts/generate-mission-control-skills.py:2063-2071 | The items read from a section are those of its lines; stripping and splitting lose none. |
| SkillSections.EverySectionReads | scripts/generate-mission-control-skills.py:1941-1973 | Each of the nine sections of a printed page, found line by line, holds what it should: the purpose, the uses, the numbered steps, the tools and resources, the output, the approval, what never to do, the fallback and the example, for fields on one line that begin no section. |
| SkillSections.FrontReads | scripts/generate-mission-control-skills.py:1944-1951 | The page begins with its front matter: the name, the description, and then the title. |
| SkillSections.NumberedItem | scripts/generate-mission-control-skills.py:2067-2070 | A numbered step is read as a list item if and only if its number has two digits. |
| SkillPages.SummaryReadsBack | scripts/generate-mission-control-skills.py:2074-2089 | The summary read off the page printed for a skill has its purpose, its first use and the first four of its tools and then resources, for every skill in which no heading that is searched for occurs in a field in front of it, the purpose is not a heading, and what is read is on one line and trimmed. |
| DisplayThreads.Shared.End | scripts/mission_control_manage.py:3291-3299 | The end of a fetch stores its payload or its error and counts it, under the lock. |
| DisplayThreads.ShowsCompleted | scripts/mission_control_manage.py:3268-3322 | Under every interleaving a rendering shows the number of completed fetches, the latest payload, and an error exactly if the latest fetch failed. |
| DisplayThreads.BusyWhileFetching | scripts/mission_control_manage.py:3285-3300 | The display says that it is fetching exactly from the beginning of a fetch to the next end of one. |
| DisplayThreads.LaterSeesMore | scripts/mission_control_manage.py:3316-3322 | What one rendering has seen is the beginning of what a later one has, so counts never decrease. |

## Left out

* PDF: names with `#` escapes, hexadecimal strings, streams with an indirect length and incremental
  updates, which the writer never produces, are not read.
* Wrapping: hyphenation and indentation options of the library, which the report switches off or does
  not use.
* HTML output: escaping, inline code and the tags around the blocks; a block keeps its source lines.
  Digits other than ASCII count as no digits in the test for an ordered list.
* Configuration: reading and writing the file, dry runs and the status texts; the marketplace list,
  whose entries are replaced one by one.
* ConfigReading: escapes by code point, numbers, dates, comments and the other forms of values and strings,
  which the writer never produces, are not read.
* PromptSections.SectionsRead: a description or safety notes with a line that begins a section end
  their own section early, so they are left out.
* ConfigWords.UserLinesSurvive: if a block is not found and the user's own lines hold a start marker, it is
  not said when the words are there all the same; ConfigResults.SameWordsByChance shows that they may be.
* ConfigEditor.UniversalNewlines: the file is taken to be decoded text; undecodable bytes, which the
  program drops, are not modelled.
* Harness: HTTP calls, persistence of snapshots, the trajectory, the texts of hints; the keyword tests
  on titles, waiting reasons and messages are flags of the task or message.
* HarnessTasks.Candidate: statuses are compared as the server writes them; a status with other case or
  spaces counts as another status.
* HarnessResults.DependencyOrder: assumes that task identifiers are distinct in each snapshot, as in
  the server's table.
* TreeMirror.Folder.CopyTreeExact: source and target are taken to be disjoint trees, and the target
  itself to be a directory; links, permissions and times are not modelled.
* Prompts.TitleCase: ASCII only; a file is read back as it was written, so names with carriage returns
  are not modelled, nor names with a slash.
* CodexAuth: the log file, the probe of the login status and time stamps; a cancelled coroutine is a
  dropped one.
* ModelAnswers.RepairReason: the tolerant JSON parser, the way Python shows values that are not
  strings, and the tests for placeholder texts are parameters; lower case is that of ASCII.
* ModelRepair.Repair: exceptions other than the one the loop catches end the program.
* SkillPages: the interface file beside each page and the index that is made of the summaries; the
  title made from the name is a field of the skill.
* The wiki and documentation generators, the dashboard and terminal rendering, the database, device
  and application profiles, and the second provider's copy of the repair loop.
