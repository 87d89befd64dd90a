# Segmented audit-report pipeline — a Dafny model

This project models the core of an audit-report generator for a gas
distribution district. The generator asks a language model for the report
one sub-call at a time and keeps every answer in a cache on disk. It runs
the chapter sub-calls in two waves, reports progress to a web front-end
and assembles the answers into a Word document. It also converts the
project's analysis notebooks for Colab, fixes their cells, and produces
the report's charts in six groups.

The modules follow the source files:

| module | file | what it holds |
|---|---|---|
| `Wrappers` | — | `Option` and `Result` |
| `Text` | — | Python string semantics: `split`, `join`, `strip`, `replace`, `in` |
| `Report` | `src/gerar_relatorio_auditoria.py` | the cache, `generate_subcall`, `parse_synthesis`, `full_text`, the two waves of the chapter phase (class `Workspace`) |
| `Runner` | `src/web/pipeline_runner.py` | `STEP_MAP`, the progress state machine (class `PipelineRunner`) |
| `Client` | `src/gemini_client.py` | request assembly and the retry loops (class `GeminiAuditClient`) |
| `Latex` | `src/docx_builder.py` | `_latex_to_unicode` |
| `Docx` | `src/docx_builder.py` | inline runs, pipe tables, the Markdown parser, chapter layout, output cells (class `DocumentBuilder`) |
| `Notebooks` | `src/corrigir_notebooks.py` | `get_source`/`set_source` and the guarded cell rewrites (class `Cell`) |
| `Colab` | `colab/convert_to_colab.py` | `is_config_cell` and `convert_notebook` |
| `Graphs` | `src/graph_generator.py` | `GENERATORS` and `gerar_todos_graficos` |

The model abstracts the system as follows:
- The cache is a `map` from key to text.
- The language model is an oracle from sub-call to reply.
- The Gemini service is a function from attempt number to outcome.
- The event streams and the logs of calls and sleeps are sequences that the methods append to.
- A document is a sequence of abstract blocks: headings, equations, tables, paragraphs of runs, pictures, page breaks and output lines.
- A wave of the thread pool is all of its tasks, run one at a time in an arbitrary order (`IsSchedule`: a permutation of the task indices).

Imperative code stays imperative. Each loop of the source is a `method` with its invariants, and each is proved against a function that specifies it. The lemmas state the source's promises about those functions.

## Model

| member | source | states |
|---|---|---|
| Report.LoadAfterSave | src/gerar_relatorio_auditoria.py:126-140 | after `save_cache`, `load_cache` gives the text back exactly when it is longer than 50 characters; other keys read as before |
| Report.Placeholder | src/gerar_relatorio_auditoria.py:192-195 | the assembly-only placeholder is `[`, the key, then the fixed 36-character notice |
| Report.SubcallStep | src/gerar_relatorio_auditoria.py:171-218 | assembly-only mode never calls the client or writes the cache and returns the cached text or the placeholder; when the cache is consulted, a usable hit is returned unchanged with no call and no write; otherwise the client is called exactly once, and its answer is saved under the key and returned, or its error propagates with the cache unchanged |
| Report.SubcallEvents | src/gerar_relatorio_auditoria.py:182-217 | a sub-call first emits `step_start` for its key; it emits one `step_complete` for the key, last, exactly when it returns |
| Report.ResumeAfterGenerate | src/gerar_relatorio_auditoria.py:185-215 | an answer generated and cached is returned by a later resumed or assembly-only call without calling the client |
| Report.SubcallLocal | src/gerar_relatorio_auditoria.py:185-218 | a sub-call reads the cache only at its own key |
| Report.FindHeading | src/gerar_relatorio_auditoria.py:153-157 | the search finds the first case-insensitive `### Parecer Regulat` heading at or after the index, or reports that there is none |
| Report.ParseAtSeparator | src/gerar_relatorio_auditoria.py:143-151 | with the separator present, the text is split at its first occurrence and both halves are stripped |
| Report.ParseAtHeading | src/gerar_relatorio_auditoria.py:153-157 | without a separator, the split is at the first verdict heading, and the verdict starts with that heading |
| Report.ParseFallback | src/gerar_relatorio_auditoria.py:158-161 | with neither marker, the whole stripped text is the introduction and the verdict is empty |
| Report.ParseStripped | src/gerar_relatorio_auditoria.py:143-162 | both halves are always stripped |
| Report.ChapterParts | src/gerar_relatorio_auditoria.py:91-106 | a chapter has at most six parts, none of them empty |
| Report.FullTextEmpty | src/gerar_relatorio_auditoria.py:91-106 | the chapter's text is empty exactly when every field is empty |
| Report.FullTextStartsWithIntro | src/gerar_relatorio_auditoria.py:91-106 | the introduction comes first |
| Report.FullTextEndsWithVerdict | src/gerar_relatorio_auditoria.py:91-106 | the verdict comes last, under its heading |
| Report.ChapterKeyInjective | src/gerar_relatorio_auditoria.py:525-565 | cache keys `capN_<part>` of different chapters or parts differ |
| Report.Wave1Distinct | src/gerar_relatorio_auditoria.py:525-542 | wave 1's keys are distinct and its first task is the chapter 1 content |
| Report.Wave1Holds | src/gerar_relatorio_auditoria.py:525-542 | wave 1 holds the chapter 1 content and every chapter's methodology and data tasks; it holds a chapter's graphs task exactly when that chapter has graph files |
| Report.Wave1Only | src/gerar_relatorio_auditoria.py:525-542 | wave 1 holds nothing else |
| Report.GraphsOnlyWithFiles | src/gerar_relatorio_auditoria.py:534-537 | a graphs task belongs to its own chapter, and that chapter has graph files |
| Report.GraphsKeyAbsent | src/gerar_relatorio_auditoria.py:534-537 | a chapter without graph files has no graphs key in wave 1 |
| Report.Wave2 | src/gerar_relatorio_auditoria.py:551-565 | wave 2 is the chapter 1 synthesis followed by the syntheses of chapters 2 to 7 |
| Report.Wave2Distinct | src/gerar_relatorio_auditoria.py:551-565 | wave 2's keys are distinct |
| Report.InitialChapters | src/gerar_relatorio_auditoria.py:512-513 | each of the seven chapters starts with its title and empty texts |
| Report.AfterWave1 | src/gerar_relatorio_auditoria.py:544-549 | each chapter takes its own wave-1 texts, and a missing key reads as empty |
| Report.AfterWave2 | src/gerar_relatorio_auditoria.py:567-570 | each chapter takes its parsed synthesis |
| Report.FirstFailureIff | src/gerar_relatorio_auditoria.py:538-542 | collecting a wave's answers meets a failure exactly when a task run so far raised, and the error met is that task's error |
| Report.WaveFailsIff | src/gerar_relatorio_auditoria.py:538-542 | a wave fails exactly when some task of it raises |
| Report.WaveResultValues | src/gerar_relatorio_auditoria.py:538-542 | a successful wave maps every task's key to the text that task returned |
| Report.WaveScheduleIndependent | src/gerar_relatorio_auditoria.py:527-542 | the cache writes, success and texts of a wave do not depend on the order the pool runs its tasks |
| Report.CollectedScheduleIndependent | src/gerar_relatorio_auditoria.py:527-542 | the collected texts do not depend on the schedule |
| Report.WaveEventsKeys | src/gerar_relatorio_auditoria.py:527-542 | a wave emits only step events of its own tasks, and a `step_complete` for every task that returned |
| Report.WaveCallsTasks | src/gerar_relatorio_auditoria.py:527-542 | the client is called only for the wave's own tasks |
| Report.NextTask | src/gerar_relatorio_auditoria.py:527-542 | each task, whatever its place in the schedule, sees the cache as it was before the wave at its own key |
| Report.PhaseWaves | src/gerar_relatorio_auditoria.py:525-570 | a successful chapter phase had a successful wave 1; wave 2 ran on the chapters filled from wave 1, against the cache wave 1 left |
| Report.PhaseChapterTexts | src/gerar_relatorio_auditoria.py:544-549 | each of chapters 2 to 7 holds the texts its wave-1 sub-calls returned |
| Report.PhaseFirstChapter | src/gerar_relatorio_auditoria.py:544-549 | chapter 1 holds the content its wave-1 sub-call returned |
| Report.PhaseSyntheses | src/gerar_relatorio_auditoria.py:551-570 | each chapter's introduction and verdict are the parse of its synthesis, which was fed that chapter's wave-1 texts |
| Report.PhaseEventsOrder | src/gerar_relatorio_auditoria.py:525-573 | the phase opens with `phase_start`, runs every wave-1 step before any synthesis step, and ends with `phase_complete` |
| Report.PhaseStopsAfterWave1 | src/gerar_relatorio_auditoria.py:538-542 | when a wave-1 task raises, the phase fails before wave 2 and emits no synthesis event |
| Report.WaveFailureError | src/gerar_relatorio_auditoria.py:538-542 | a raising task makes the wave fail with the error of some task that raised |
| Report.PhaseWave1Failed | src/gerar_relatorio_auditoria.py:538-542 | a failed wave 1 ends the phase with wave 1's error, cache, events and calls |
| Report.Workspace.GenerateSubcall | src/gerar_relatorio_auditoria.py:171-218 | the call updates the cache, the event log and the client log as `SubcallStep` and `SubcallEvents` say |
| Report.Workspace.RunWave | src/gerar_relatorio_auditoria.py:527-542 | running the tasks in the given schedule returns the wave's result and leaves the cache, events and calls its specification gives |
| Report.Workspace.RunChapterPhase | src/gerar_relatorio_auditoria.py:497-573 | the two waves run in sequence; result, cache, events and calls are those of `ChapterPhase` |
| Report.Workspace.BuildWave1 | src/gerar_relatorio_auditoria.py:525-537 | the submission loop builds exactly wave 1 |
| Report.Workspace.AssignWave1 | src/gerar_relatorio_auditoria.py:544-549 | the assignment loop fills every chapter from the wave-1 texts |
| Report.Workspace.AssignWave2 | src/gerar_relatorio_auditoria.py:567-570 | the assignment loop fills every chapter from its parsed synthesis |
| Runner.StepMapFacts | src/web/pipeline_runner.py:13-63 | there are 35 steps and every step's phase has a name |
| Runner.LookupSpec | src/web/pipeline_runner.py:132-137 | a step is found at its first entry in the table, or not at all when no entry names it |
| Runner.Progress | src/web/pipeline_runner.py:116-121 | progress is never negative, and it is at most 1 exactly when at most 35 steps are complete |
| Runner.StepStartPhases | src/web/pipeline_runner.py:132-150 | a `step_start` sets the current step and the step's phase, and emits `phase_start` right before its own event exactly when the phase changes |
| Runner.UnknownStep | src/web/pipeline_runner.py:132-150 | an unknown step keeps the phase, uses its id as label and has no chapter |
| Runner.StepCompleteCounts | src/web/pipeline_runner.py:152-164 | a `step_complete` appends the step, clears the current step and reports the new count out of 35 |
| Runner.PhaseEventsForwarded | src/web/pipeline_runner.py:166-167 | `phase_complete` is forwarded unchanged; the pipeline's own `phase_start` is ignored |
| Runner.ReplayCompleted | src/web/pipeline_runner.py:152-164 | the completed list grows by the completed steps, in order |
| Runner.ReplayNotTerminal | src/web/pipeline_runner.py:123-167 | progress events are never terminal |
| Runner.Delivered | src/web/pipeline_runner.py:192-201 | `events()` yields a prefix of the queue that stops right after the first terminal event |
| Runner.RunDeliversAll | src/web/pipeline_runner.py:169-201 | a run's queue is delivered whole, and its only terminal event is its last |
| Runner.PipelineRunner.Start | src/web/pipeline_runner.py:89-110 | `start` sets running and resets every other field, draining the queue |
| Runner.PipelineRunner.TryStart | src/web/app.py:115-116 | a second run is refused while one is running, and the runner is not touched |
| Runner.PipelineRunner.Cancel | src/web/pipeline_runner.py:112-114 | `cancel` sets the flag and nothing else |
| Runner.PipelineRunner.OnProgress | src/web/pipeline_runner.py:123-167 | after `cancel` the callback raises without changing anything; otherwise it updates the tracked fields and queues the events `OnEvent` gives |
| Runner.PipelineRunner.Run | src/web/pipeline_runner.py:169-190 | the callbacks handle the raw events up to the first one that raises; `_run` then queues exactly one terminal event, chosen by how the pipeline call ended: `done` when it returned, `cancelled` when `PipelineCancelled` reached it, `error` for any other exception, whose message is stored; the run ends not running |
| Runner.PipelineRunner.Feed | src/web/pipeline_runner.py:123-167 | the pipeline's events are handled until a cancelled callback raises |
| Runner.PipelineRunner.Status | src/web/pipeline_runner.py:203-216 | the snapshot reports the completed steps, their count, 35 steps in all, progress as count over 35, the current step and phase, the flags and the error |
| Client.ExistingImages | src/gemini_client.py:66-75 | only images that exist on disk are attached, each one listed |
| Client.ExistingImagesComplete | src/gemini_client.py:66-75 | every listed image that exists is attached |
| Client.ContentsOrder | src/gemini_client.py:60-81 | the PDF comes first, only when requested and uploaded; then images; then the single prompt text, last |
| Client.FirstAnswer | src/gemini_client.py:84-100 | the first attempt that succeeds, with every attempt before it failed |
| Client.AnalyzeAnswered | src/gemini_client.py:84-100 | `analyze_section` succeeds exactly when some attempt does; it returns that reply's text, or empty when there is none, after one call per attempt and one final `BASE_DELAY` sleep |
| Client.AnalyzeErrors | src/gemini_client.py:104-114 | a failure follows three failed attempts and reports the last error, or the exhaustion message when the last error was throttling |
| Client.AnalyzeSleeps | src/gemini_client.py:97-112 | every sleep before a retry is at least `RETRY_BACKOFF`, and a success sleeps `BASE_DELAY` last |
| Client.AnalyzeCallsBound | src/gemini_client.py:84-114 | at most three calls, and at least one |
| Client.AnalyzeAllThrottled | src/gemini_client.py:104-107 | three throttled attempts sleep 15, 30 and 45 seconds, then fail after exactly three calls |
| Client.AnalyzeRetriesError | src/gemini_client.py:108-112 | another error before the last attempt sleeps `RETRY_BACKOFF` and retries |
| Client.FirstImage | src/gemini_client.py:132-140 | an image is found exactly when some part holds one |
| Client.ImageSaved | src/gemini_client.py:116-158 | `generate_image` saves the first image of the first attempt that ends without an exception, gives up without retrying on a response without an image, and returns false when every attempt raised |
| Client.ImageWriteFailureRetried | src/gemini_client.py:132-156 | a response whose image cannot be written goes through the `except` branch: a back-off and another attempt, or false on the last attempt |
| Client.ImageCallsBound | src/gemini_client.py:116-158 | at most three calls |
| Client.GeminiAuditClient.UploadPdf | src/gemini_client.py:30-46 | the uploaded file is remembered for later requests |
| Client.GeminiAuditClient.BuildContents | src/gemini_client.py:60-81 | the loop builds exactly the specified contents |
| Client.GeminiAuditClient.AnalyzeSection | src/gemini_client.py:48-114 | the retry loop returns the specified result and logs one identical request per call and the specified sleeps |
| Client.GeminiAuditClient.ScanParts | src/gemini_client.py:132-140 | the scan finds the first image |
| Client.GeminiAuditClient.SaveFirstImage | src/gemini_client.py:132-144 | the first image of a response is written unless the write raises, which is passed on; `BASE_DELAY` is slept only when nothing was raised |
| Client.GeminiAuditClient.GenerateImage | src/gemini_client.py:116-158 | the image is saved exactly when the specification finds one, write failures retried like call failures; requests and sleeps are logged |
| Latex.SubstituteNoSlash | src/docx_builder.py:460-466 | the command substitutions leave text without backslashes alone |
| Latex.DropCommandSlashesKeeps | src/docx_builder.py:515 | dropping command backslashes keeps every other character, in order |
| Latex.DropCommandSlashesFront | src/docx_builder.py:515 | a backslash before a letter is dropped |
| Latex.CollapseSpacesSpec | src/docx_builder.py:517 | after the collapse no two spaces are adjacent, and a leading space is kept |
| Latex.DropBracesSpec | src/docx_builder.py:512-513 | no brace is left |
| Latex.LatexToUnicodeClean | src/docx_builder.py:455-518 | the result has no brace, no two spaces in a row and no leading or trailing whitespace |
| Latex.TailPlain | src/docx_builder.py:468-518 | plain text goes through every step after the substitutions unchanged |
| Latex.FracExample | src/docx_builder.py:464 | `\frac{a}{b}` becomes `(a)/(b)` |
| Latex.SqrtExample | src/docx_builder.py:466 | `\sqrt{x}` becomes `√(x)` |
| Docx.InlineMatch | src/docx_builder.py:545 | an inline match at a position is non-empty and lies within the text |
| Docx.InlinePartsSpec | src/docx_builder.py:545-567 | the parts of the inline split give the text back, and each matched part becomes a formatted run of its inner text |
| Docx.MatchRun | src/docx_builder.py:552-565 | `***x***` is bold italic, `**x**` bold, `*x*` italic, `$x$` an inline equation, each holding the inner slice |
| Docx.PlainRuns | src/docx_builder.py:545-567 | text without `*` or `$` is one plain run, or none when empty |
| Docx.DocumentBuilder.AddFormattedRuns | src/docx_builder.py:542-567 | the loop produces exactly the specified runs, skipping empty parts |
| Docx.TableShape | src/docx_builder.py:569-621 | a table always has a header, and every row has one cell per header cell; fewer than two lines give no table |
| Docx.SeparatedTable | src/docx_builder.py:574-590 | with a separator second line, the body rows start at the third line |
| Docx.UnwrapBoldCell | src/docx_builder.py:611 | `**x**` in a cell loses its markers |
| Docx.TableRoundTrip | src/docx_builder.py:569-621 | a table written as pipe rows with a separator row reads back as the same table |
| Docx.DocumentBuilder.AddMarkdownTable | src/docx_builder.py:569-621 | the table's blocks are appended |
| Docx.DocumentBuilder.CollectRows | src/docx_builder.py:580-584 | the loop collects the cells of each body line and drops lines without cells |
| Docx.DocumentBuilder.FillRows | src/docx_builder.py:606-612 | every row is fitted to the header: extra cells are ignored, missing ones left empty |
| Docx.Classify | src/docx_builder.py:372-453 | a display equation starts with `$$`; a heading has level 2 to 4 |
| Docx.ParseStep | src/docx_builder.py:367-453 | every iteration strictly advances the line index |
| Docx.BlankAndRulesAddNothing | src/docx_builder.py:372-374 | blank lines and `---`/`***`/`___` produce no block |
| Docx.LoneHashIsParagraph | src/docx_builder.py:400-453 | a line starting with `# ` is no heading: it becomes a paragraph |
| Docx.EquationStep | src/docx_builder.py:377-384 | `$$l$$` on one line is a single equation |
| Docx.UnclosedEquation | src/docx_builder.py:385-398 | an equation never closed takes every remaining line |
| Docx.HeadingStep | src/docx_builder.py:400-417 | a heading line gives a heading of its level |
| Docx.SectionRoundTrip | src/docx_builder.py:363-453 | simple blocks written one per line read back as the same blocks |
| Docx.DocumentBuilder.ScanEquation | src/docx_builder.py:385-398 | the loop collects the lines up to the one that closes the equation, or to the end |
| Docx.DocumentBuilder.CollectTable | src/docx_builder.py:425-431 | the loop collects the maximal run of table rows |
| Docx.DocumentBuilder.AddSectionFromMarkdown | src/docx_builder.py:363-453 | the parser's loop appends exactly the blocks of the section |
| Docx.SubsectionWithoutHeading | src/docx_builder.py:739-755 | text whose first line is no heading is parsed whole |
| Docx.SubsectionWithHeading | src/docx_builder.py:739-755 | only a heading on the first line is dropped |
| Docx.DocumentBuilder.DropFirstHeading | src/docx_builder.py:742-752 | the flag-driven loop drops the first line only when it is a heading |
| Docx.DocumentBuilder.AddSubsectionContent | src/docx_builder.py:739-755 | the subsection's blocks are appended; nothing when the rest is blank |
| Docx.DataTableCells | src/docx_builder.py:268-310 | every data-table cell lands at its row and column, empty when the row is short |
| Docx.GraphShownOrReported | src/docx_builder.py:623-645 | a chart that exists is shown with its caption; a missing one gives the "not found" notice |
| Docx.JoinPathInside | src/docx_builder.py:625 | a relative chart name lands inside the charts directory |
| Docx.ChapterOrder | src/docx_builder.py:663-737 | the chapter opens with its title, and its parts come in the fixed order |
| Docx.ChapterContents | src/docx_builder.py:663-737 | the subsections written are the non-blank ones in order; every chart and every diagram is placed |
| Docx.SubsectionWritten | src/docx_builder.py:714-737 | a subsection writes its heading and content, or nothing when blank |
| Docx.DocumentBuilder.AddChapterStructured | src/docx_builder.py:663-737 | the chapter's blocks are appended in the specified order |
| Docx.TextBlocksLines | src/docx_builder.py:854-880 | the lines written are the first 80, or all of them when there are fewer |
| Docx.TextBlocksNotice | src/docx_builder.py:855-889 | an output ends with a notice exactly when lines were cut, and the notice counts them |
| Docx.OutputShownWhole | src/docx_builder.py:836-880 | a short output is written whole |
| Docx.OutputTruncated | src/docx_builder.py:854-889 | a longer output writes exactly its first 80 lines, then a notice counting the rest |
| Docx.DocumentBuilder.AddOutputCell | src/docx_builder.py:808-889 | the loop appends the blocks of every output |
| Notebooks.SourceRoundTrip | src/corrigir_notebooks.py:25-41 | what `set_source` stores, `get_source` reads back |
| Notebooks.SourceLinesShape | src/corrigir_notebooks.py:32-41 | `set_source` stores one line per newline and one more; every line but the last ends with its only newline, and the last has none |
| Notebooks.MakedirsImportsOs | src/corrigir_notebooks.py:43-50 | after the block is added the source imports `os`, so a second call changes nothing |
| Notebooks.SavefigBeforeFirstShow | src/corrigir_notebooks.py:52-61 | the call goes right before the first `plt.show()` only; without one the text is unchanged |
| Notebooks.SavefigPresentAfter | src/corrigir_notebooks.py:52-61 | once inserted, a second call for the same chart changes nothing |
| Notebooks.ApproxReplaced | src/corrigir_notebooks.py:63-70 | no `≈` is left, each became `~` in place, and every other character is kept |
| Notebooks.FixTextSettles | src/corrigir_notebooks.py:72-79 | replacing a character by text without it leaves none of it |
| Notebooks.Cell.SetSource | src/corrigir_notebooks.py:32-41 | the loop stores the text's lines, and `get_source` then gives the text |
| Notebooks.Cell.AddOsMakedirs | src/corrigir_notebooks.py:43-50 | the block is added, and true returned, exactly when `import os` is absent |
| Notebooks.Cell.AddSavefig | src/corrigir_notebooks.py:52-61 | false and no change when the line is present; otherwise the inserted text is written back and true returned |
| Notebooks.Cell.FixApproxChar | src/corrigir_notebooks.py:63-70 | true exactly when the source held `≈`, which is then replaced |
| Notebooks.Cell.FixText | src/corrigir_notebooks.py:72-79 | true exactly when the old text occurs, every occurrence then replaced; otherwise no change |
| Colab.ConfigCellIff | colab/convert_to_colab.py:95-104 | a cell is a configuration cell exactly when two different indicators occur in it |
| Colab.ConvertCellSpec | colab/convert_to_colab.py:144-157 | non-code cells pass unchanged; a code cell's text has the `mkdir` call replaced by the comment, its source kept in its own form; cells without the call are untouched |
| Colab.ConvertEachAt | colab/convert_to_colab.py:133-157 | each kept cell is converted in place, in order |
| Colab.ConvertedWithoutConfig | colab/convert_to_colab.py:130-157 | without a configuration cell, every cell is kept, converted, and nothing is reported |
| Colab.ConvertedWithConfig | colab/convert_to_colab.py:130-157 | only the first configuration code cell is replaced, in place, by the fixed cells; later ones are kept and converted |
| Colab.ConvertedFlagAndLength | colab/convert_to_colab.py:130-164 | the flag is set exactly when a configuration code cell exists, and the count grows by two exactly then |
| Colab.SetupCellIsConfig | colab/convert_to_colab.py:31-69 | the Colab setup cell is itself a configuration cell: it holds `from pathlib import Path` and `EXCEL_DEFAULT` |
| Colab.ReconvertedFlag | colab/convert_to_colab.py:130-164 | when the fixed cells hold a configuration cell, converting the output of a conversion that replaced one replaces one again |
| Colab.ConvertedTwice | colab/convert_to_colab.py:31-69 | converting a converted notebook again replaces its Colab setup cell |
| Colab.ConvertNotebook | colab/convert_to_colab.py:115-164 | the loop produces the specified cells and flag, and the metadata gains the `colab` entry |
| Graphs.InvokedInOrder | src/graph_generator.py:680-720 | the generators run in list order, one call each, and stop only when an exception escapes |
| Graphs.GatheredFiles | src/graph_generator.py:707-723 | the files gathered are those of the generators that ran and did not raise, in order |
| Graphs.EscapeAfterErrorReport | src/graph_generator.py:711-720 | an exception escapes only from the except branch's callback, after the group's error was reported |
| Graphs.EscapeIsFinal | src/graph_generator.py:709-723 | once an exception has escaped, nothing more runs |
| Graphs.NoCallbackRun | src/graph_generator.py:709-723 | without a callback every generator runs and all the files of those that did not raise are returned |
| Graphs.QuietCallbackRun | src/graph_generator.py:711-720 | a callback that never raises is called once per group, with the files, or with an error and no files when the generator raised |
| Graphs.GenerateAll | src/graph_generator.py:690-723 | the loop returns the specified result, calls and invocations |

## Left out

- Concurrency: each wave runs its tasks one at a time in an arbitrary schedule. The interleaving of events from concurrent tasks, the lock and the asyncio polling of `events()` are not modelled.
- Report: the executive summary, conclusions and document assembly of `run_pipeline` are not modelled. Only the chapter phase (lines 497-573) is.
- Report: the `call_count` tally and the logging are left out; the client calls themselves are logged by `Workspace`.
- The Gemini SDK, the upload of the PDF and `time.sleep`: the service is a function from attempt to outcome, and sleeps are recorded, not waited for.
- Clocks: timestamps and elapsed times are not modelled.
- Client.ExistingImages: file existence is a parameter.
- Client.GeminiAuditClient.SaveFirstImage: a write that raises leaves the files as they were; a file that `open` truncated before `write` raised is not modelled.
- Client.FirstImage: image bytes are a field of the response part; base64 decoding is not modelled.
- Docx: styles, shading, fonts, sizes, the cover page, headers and footers, `add_code_cell`, the MathML/OMML path of equations and the PyMuPDF appendix are left out. A document is a sequence of abstract blocks.
- Docx.DocumentBuilder.AddOutputCell: an image output is a flag saying whether its data decodes; the picture itself is not modelled.
- Docx.Classify: the numbered-item regex `^(\d+)\.\s+(.+)` is modelled for ASCII digits and the whitespace set of `Text`; Unicode digits and spaces are not.
- Docx.SectionRoundTrip: the round trip is stated for simple blocks, meaning headings, single-line equations and plain paragraphs; tables and formatted runs have their own round trips.
- Text: Python's `str.isspace` and `\s` are a fixed set of whitespace characters; Unicode case folding is replaced by ASCII lower case, as the heading regex only matches ASCII letters.
- Notebooks.FixTextSettles: stated for a single replaced character; for longer texts, a replacement can recreate the pattern.
- Notebook file I/O and `copy.deepcopy`: notebooks are immutable values, so the input cannot be mutated.
- Colab: a cell's keys other than `cell_type` and `source` are one opaque `rest`. Metadata values are their JSON text. A cell without a source reads as an empty list.
- Graphs: the plotting, the Excel loading and the output directory are left out. Each generator is its outcome, a file list or an error message.
- Graphs: the logger is left out.
- Graphs: the callback's behaviour is a list of replies: none, or the message it raises.
- Runner: the worker thread and the pipeline call are the sequence of raw events the pipeline produces, with the index at which `cancel` happens and how the pipeline call ends: it returns, lets `PipelineCancelled` through, or raises another exception. Which of these a given pipeline picks after a callback raised is not modelled.
- Runner.PipelineRunner.TryStart: the HTTP 409 answer of the web layer is modelled as a refusal on the runner.
- web/app.py routes, the browser UI, prompts, data extraction and presentation scripts are not part of this model.
