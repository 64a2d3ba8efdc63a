# Customer contract risk analyzer — a Dafny model of its analysis engine

The customer contract risk analyzer answers a list of legal questions about a contract
and grades each answer as an "Alto", "Medio", "Bajo" or "Sin evaluar" risk. A FastAPI
backend runs the analysis as a batch job. The job writes its progress, one JSON record
per analysis, to a progress file after every question. Streamlit pages poll that file,
show the processes in course and the history of finished analyses, and export them as
Word reports. A small SQLite table `analisis` keeps the bookkeeping of every analysis.

This project models that core in Dafny and proves what it promises:

- `Records` (records.dfy): the progress record, the states of the progress file, and
  the progress file as a class whose every `json.dump` is counted and may fail. A run is
  a plan of dumps and exceptions, and `Execute` gives what a poller sees.
- `WorkerAnswer` and `Worker` (worker_answer.dfy, worker.dfy): the risk normaliser of
  `analizar_pregunta_texto`, the fallbacks of `analizar_pregunta`, the full runs, and the
  single and global overwrites of fastapi_backend/worker.py.
- `WorkerBackup` (worker_backup.dfy): the older engine, with its Spanish-only normaliser,
  its demo answerer, its column fallbacks and its loops that absorb failures.
- `MainApi` (main_api.dfy): the status endpoint with its legacy-list migration, the
  re-run guards and the record changes they make, cancellation, and the process list.
- `Batch` (batch.dfy): the simulated analyser that writes the bare legacy list.
- `Historico`, `HistoricoMarkdown` and `HistoricoInline` (historico*.dfy): risk labels
  and tallies, pagination, section grouping, the markdown block classifier and the
  inline `**` / `*` / backtick segmenter of the history page.
- `Procesos` (procesos.dfy): the percentage, completion and status cascade, and the
  page, model and remaining-time labels of the processes page.
- `DocumentAnalyzer` (document_analyzer.dfy): the dialog progress, the global
  re-analysis payload, the quick date filters and the history pagination.
- `NuevoAnalisis` (nuevo_analisis.dfy): the default analysis name, the name field and
  the upload request.
- `AnalisisDb` and `LegacyAnalisisDb` (analisis_db.dfy, legacy_analisis_db.dfy): the
  `analisis` table as a class over a map from id to row. The newer module and its older
  copy both open the same database file, so they operate on the same object.
- `Text` (text.dfy): the Python string operations the code relies on, on ASCII text.

The language model, the PDF text, the spreadsheet rows, the clock and the contents of
files are parameters. The loops that update the record and write the file are methods.
Each method is proved against a function that states the sequence of contents it
dumps. Lemmas then state what a poller can see after each step.

## Model

| member | source | states |
|---|---|---|
| Records.ProgressFile.Dump | fastapi_backend/worker.py:115-116 | a dump either leaves the new content or, when it raises once the file is open, a truncated file; every dump is counted and recorded |
| Records.Execute | fastapi_backend/worker.py:115-155 | a run writes at most one content per step of its plan, and all of them when nothing raises |
| Records.ExecuteFaultFree | fastapi_backend/worker.py:115-155 | a run in which no dump fails and nothing raises writes its plan verbatim |
| Records.ExecuteUntilThrow | fastapi_backend/worker.py:120-158 | a run whose dumps succeed until a statement raises writes every content before it and ends with that exception |
| Records.ExecuteFollowsPlan | fastapi_backend/worker.py:115-155 | every content written before the first failure is the planned one, in order |
| Records.ExecuteFailedPrefix | fastapi_backend/worker.py:157-158 | once a step has raised, the rest of the plan is never reached |
| Records.ProgressFile.Delete | fastapi_backend/main.py:412-413 | deleting the progress file leaves it missing; the dump count and the history of written contents are unchanged |
| WorkerAnswer.ExtractRisk | fastapi_backend/worker.py:473-488 | the risk of a raw answer: "Medio" unless the upper-cased text holds a marker, and then the first line holding one decides; ExtractIsScan, FirstMarkerDecides, FirstMarkerLineDecides and NoMarkerDefault state this |
| WorkerAnswer.Normalize | fastapi_backend/worker.py:470-500 | the stored answer: the text with every verdict line removed, rejoined and stripped, with the risk of ExtractRisk; CleanedHasNoMarker, NormalizeIdempotent and VerdictRoundTrip state what it keeps |
| WorkerAnswer.AnalyzeText | fastapi_backend/worker.py:416-510 | one question against plain text: a missing key gives the key error with "Alto", a failing model call gives "Error al procesar la pregunta: " and its message with "Alto", otherwise the normalised model answer; an answer below "Alto" comes only from a successful call |
| WorkerAnswer.AnalyzeQuestion | fastapi_backend/worker.py:26-82 | one question against the PDF text: a missing key, an unreadable PDF, a PDF without text or a failing model each give an "Alto" answer saying so, otherwise the normalised model answer; AnalyzeQuestionOutcomes states each case |
| WorkerAnswer.KeepLines | fastapi_backend/worker.py:492-495 | keeps, in order, exactly the lines that carry neither "RISK:" nor "RIESGO:"; a text with no verdict line is kept whole |
| WorkerAnswer.AnswerRow | fastapi_backend/worker.py:497-500 | the stored answer has exactly the keys "Respuesta" and "Riesgo", the second being the label of the level |
| WorkerAnswer.MarkerInTextIffInLine | fastapi_backend/worker.py:473-477 | the upper-cased answer holds a marker exactly when one of its lines does |
| WorkerAnswer.ScanWithoutMarker | fastapi_backend/worker.py:470-488 | with no verdict line the risk stays at the default "Medio" |
| WorkerAnswer.ExtractIsScan | fastapi_backend/worker.py:473-488 | the whole-text test in front of the line scan never changes the risk |
| WorkerAnswer.FirstMarkerDecides | fastapi_backend/worker.py:475-488 | only the first verdict line, top to bottom, decides the risk (the loop breaks there) |
| WorkerAnswer.FirstMarkerLineDecides | fastapi_backend/worker.py:470-488 | the same, stated on the raw answer split at line breaks |
| WorkerAnswer.NoMarkerDefault | fastapi_backend/worker.py:470-500 | an answer without any marker is stored stripped, with risk "Medio" |
| WorkerAnswer.CleanedHasNoMarker | fastapi_backend/worker.py:492-498 | the cleaned answer contains no "RISK:" or "RIESGO:" anywhere |
| WorkerAnswer.NormalizeIdempotent | fastapi_backend/worker.py:470-500 | normalising a cleaned answer again keeps its text and gives "Medio" |
| WorkerAnswer.VerdictLineFacts | fastapi_backend/worker.py:455-460 | each closing line the prompt asks for is one line, holds a marker and is read back as its own level |
| WorkerAnswer.VerdictHigh | fastapi_backend/worker.py:478-480 | "RISK: HIGH" is read as "Alto" |
| WorkerAnswer.VerdictLow | fastapi_backend/worker.py:478-482 | "RISK: LOW" is read as "Bajo": it names neither HIGH nor ALTO |
| WorkerAnswer.VerdictMedium | fastapi_backend/worker.py:478-484 | "RISK: MEDIUM" is read as "Medio": it names no higher or lower level |
| WorkerAnswer.VerdictNotEvaluated | fastapi_backend/worker.py:478-486 | "RISK: NOT EVALUATED" is read as "Sin evaluar": it names no other level, although its patterns come last in the cascade |
| WorkerAnswer.VerdictRoundTrip | fastapi_backend/worker.py:460-500 | an answer body followed by the closing line of level r normalises to the stripped body with risk r |
| WorkerAnswer.PdfTextBlankIffNoPage | fastapi_backend/worker.py:53-65 | the extracted context is blank exactly when no page could be read; a read page always adds its header |
| WorkerAnswer.AnalyzeQuestionOutcomes | fastapi_backend/worker.py:26-82 | a missing key, an unreadable PDF and a PDF with no readable page each give an "Alto" answer saying so; otherwise the answer is the normalised model output or the model's error, also "Alto" |
| Worker.Results | fastapi_backend/worker.py:121-138 | one result per question, in order, each the answer plus the question's "Pregunta" and "Sección" (default "Sin sección") |
| Worker.SnapshotNext | fastapi_backend/worker.py:140-145 | each pass of the loop turns the snapshot after k questions into the snapshot after k+1 |
| Worker.RunPlan | fastapi_backend/worker.py:105-155 | a run that reads its inputs dumps exactly the initial record, one snapshot per question and the final record |
| Worker.RunQuestions | fastapi_backend/worker.py:104-155 | the loop performs that plan on the progress file until the first failed dump |
| Worker.AnalyzeDocument | fastapi_backend/worker.py:84-169 | the file sees the plan's dumps up to the first exception, then the error record |
| Worker.AnalyzeCustom | fastapi_backend/worker.py:171-241 | the same for questions given by the caller, read with the keys "pregunta" and "seccion" |
| Worker.RunWithFallback | fastapi_backend/worker.py:90-169 | the body shared by both full runs, with the handler that writes the error record |
| Worker.PersistedAfterQuestion | fastapi_backend/worker.py:138-145 | after question i is dumped, the file is "en_progreso" with progreso i+1 and the first i+1 results in order |
| Worker.FinalCompletes | fastapi_backend/worker.py:148-155 | the final record is "completado" with progreso, total_preguntas and num_resultados equal to the number of questions |
| Worker.FullRunFaultFree | fastapi_backend/worker.py:104-155 | with no exception a poller sees the initial record, each snapshot in turn, then the final record |
| Worker.ErrorRecord | fastapi_backend/worker.py:157-166 | the file a failed full run leaves: estado "error", the message, no results and the time under "fecha_error" only, and none of the progress or question fields |
| Worker.FullRunFailureDiscards | fastapi_backend/worker.py:157-169 | a failed full run ends with the error record, which holds no results, unless that dump fails too |
| Worker.MarkFailed | fastapi_backend/worker.py:297-314 | the handler re-reads the file and marks an object it finds as failed; anything else is left alone |
| Worker.MarkedKeepsData | fastapi_backend/worker.py:303-307 | the handler changes only estado, error and fecha_modificacion |
| Worker.PyIndex | fastapi_backend/worker.py:257-272 | the entry Python's indexing reaches: the index itself, len+index for a negative index, or IndexError |
| Worker.RerunSingle | fastapi_backend/worker.py:243-315 | the single overwrite performs its plan and, on an exception, the handler |
| Worker.SingleRejectsBeforeModel | fastapi_backend/worker.py:256-260 | an index past the results is rejected before the contract or the model is used |
| Worker.Patched | fastapi_backend/worker.py:272-291 | the results keep their length, the entry at the index becomes the patched one and every other entry is kept; estado becomes "completado", num_resultados the length, ultima_pregunta_reanalizada the question number and fecha_modificacion the time; the original questions, the error and tipo_reanalisis are kept |
| Worker.PatchedChangesOneEntry | fastapi_backend/worker.py:272-291 | a successful single overwrite sets six keys of one entry, keeps the rest of that entry and every other entry, and updates only four keys of the record |
| Worker.SingleOverwriteOutcome | fastapi_backend/worker.py:253-295 | with the guard passed and no failing dump, the file ends holding the patched record, a negative index patching entry len+index |
| Worker.SingleFailureMarksOriginal | fastapi_backend/worker.py:297-314 | a single overwrite that raises before its dump marks the record it read, keeping all its results |
| Worker.Answerable | fastapi_backend/worker.py:352-360 | the loop gets through exactly the leading questions that have both "pregunta" and "seccion" |
| Worker.AllAnswerable | fastapi_backend/worker.py:352-360 | every question is answered exactly when every question has both keys |
| Worker.GlobalResults | fastapi_backend/worker.py:352-375 | one new result per answerable question, in order |
| Worker.GlobalSnapshotNext | fastapi_backend/worker.py:375-382 | each pass turns the snapshot after k questions into the one after k+1 |
| Worker.GlobalRunPlan | fastapi_backend/worker.py:352-395 | after the first record: a snapshot per answerable question, then the KeyError or the final record |
| Worker.RerunGlobal | fastapi_backend/worker.py:317-414 | the global overwrite performs its plan and, on an exception, the handler |
| Worker.GlobalLoop | fastapi_backend/worker.py:352-395 | the question loop performs the rest of the plan after the first dump |
| Worker.GlobalQuestion | fastapi_backend/worker.py:353-382 | one pass answers question idx and dumps the snapshot that records it |
| Worker.GlobalFinish | fastapi_backend/worker.py:384-395 | the final dump of a global overwrite in which every question had both keys |
| Worker.GlobalStartFacts | fastapi_backend/worker.py:328-344 | the first record is "reanalisis_en_progreso", "global", progreso 0, the new total and no results, every other key kept |
| Worker.GlobalFinalFacts | fastapi_backend/worker.py:384-395 | the final record is "completado", counts the questions and new results, and keeps the new questions as preguntas_originales |
| Worker.GlobalSnapshotFacts | fastapi_backend/worker.py:375-382 | a snapshot holds the first k new results and counts them |
| Worker.GlobalResultFacts | fastapi_backend/worker.py:355-371 | each new result is tagged "global" and carries its question, section and answer |
| Worker.GlobalCompletes | fastapi_backend/worker.py:328-395 | with both keys everywhere and no exception, a poller sees the first record, each snapshot and the final record, and nothing else |
| Worker.GlobalFailureKeepsPartial | fastapi_backend/worker.py:352-414 | a question without both keys stops the overwrite, and the handler marks the last snapshot, keeping the results before it |
| WorkerBackup.BackupRisk | fastapi_backend/worker_backup.py:92-104 | "Medio" unless the exact-case "RIESGO:" occurs in the answer; then the first line whose upper-cased text holds it decides; BackupFirstVerdictDecides, BackupFirstVerdictLineDecides and LowerCaseVerdictIgnored state this |
| WorkerBackup.BackupNormalize | fastapi_backend/worker_backup.py:92-112 | the backup engine's answer: the lines opening with a verdict dropped and the rest stripped, only when the exact-case token occurs, else the raw text; BackupIgnoresOtherCase and IndentedVerdictSurvives state where it differs from the main engine |
| WorkerBackup.DropVerdictLines | fastapi_backend/worker_backup.py:111 | every kept line is a line of the input that does not open with "RIESGO:" once upper-cased, and every such line is kept |
| WorkerBackup.DropVerdictLinesAppend | fastapi_backend/worker_backup.py:111 | one more line is kept after the kept lines of the list exactly when it does not open with a verdict, so the cleanup keeps order and repetitions |
| WorkerBackup.DropVerdictLinesNone | fastapi_backend/worker_backup.py:111 | lines with no verdict line among them are kept as they are |
| WorkerBackup.BackupFirstVerdictDecides | fastapi_backend/worker_backup.py:94-104 | the first line holding "RIESGO:" (any case) decides the level and the scan stops there |
| WorkerBackup.BackupFirstVerdictLineDecides | fastapi_backend/worker_backup.py:92-104 | on a raw answer holding the exact-case token, the level is the one of its first verdict line |
| WorkerBackup.BackupIgnoresOtherCase | fastapi_backend/worker_backup.py:92-112 | without the exact-case "RIESGO:" the answer is kept verbatim, unstripped, with the default "Medio" |
| WorkerBackup.IndentedVerdictSurvives | fastapi_backend/worker_backup.py:108-112 | an indented verdict line is not removed by the cleanup and is brought to the front by the final strip |
| WorkerBackup.LowerCaseVerdictIgnored | fastapi_backend/worker_backup.py:93-104 | a lower-case verdict is neither read nor removed, so the risk stays "Medio" |
| WorkerBackup.BackupAnalyze | fastapi_backend/worker_backup.py:26-125 | a missing API key gives the fixed "Alto" error answer; a failing model call gives "Error al analizar la pregunta: ..." with "Alto"; it never raises |
| WorkerBackup.DemoAnswer | fastapi_backend/worker_backup.py:134-173 | the demo answerer raises exactly when the call does; otherwise it returns the raw answer with risk "Alto" or "Bajo" |
| WorkerBackup.DemoRiskOnlyQuestion | fastapi_backend/worker_backup.py:166 | the demo risk depends on the question alone, and is "Alto" exactly when its lower-cased text contains "terminate" |
| WorkerBackup.FirstFilled | fastapi_backend/worker_backup.py:243-245 | `a or b or ... or ""` is "" exactly when every column is empty, and otherwise the first non-empty one |
| WorkerBackup.Question | fastapi_backend/worker_backup.py:242-251 | the kept question has exactly the keys "Número", "Pregunta" and "Sección" |
| WorkerBackup.SectionFallback | fastapi_backend/worker_backup.py:245 | the section is the accented column when filled, otherwise the unaccented one, otherwise "" |
| WorkerBackup.NumberFallback | fastapi_backend/worker_backup.py:243 | the number is the first filled of the three spellings of the number column, otherwise "" |
| WorkerBackup.CustomQuestion | fastapi_backend/worker_backup.py:362-367 | a custom question keeps exactly the keys "Número", "Pregunta" and "Sección" |
| WorkerBackup.ResultRow | fastapi_backend/worker_backup.py:300-307 | each result carries its question, the answer text and the risk label, and is marked "✅ Completado" whatever the answer |
| WorkerBackup.BackupResults | fastapi_backend/worker_backup.py:265-307 | exactly one result per question |
| WorkerBackup.Prefix | fastapi_backend/worker_backup.py:183-318 | up to the answer of question i the run dumps three records and then two per question |
| WorkerBackup.Planned | fastapi_backend/worker_backup.py:183-331 | a run that gets past its inputs plans 2n+4 dumps |
| WorkerBackup.DumpAfter | fastapi_backend/worker_backup.py:272-283 | one guarded dump: the file holds the new content or is left truncated, and the failure is reported, not raised |
| WorkerBackup.AnalyzeDocumentBackup | fastapi_backend/worker_backup.py:175-333 | the file goes through exactly the contents the plan of the run writes, with failed dumps leaving it truncated |
| WorkerBackup.QuestionsBackup | fastapi_backend/worker_backup.py:240-331 | after the question sheet is read: an unguarded dump of the question list that ends the run when it fails, then the question loop |
| WorkerBackup.QuestionList | fastapi_backend/worker_backup.py:240-251 | `preguntas_originales` holds the question of every sheet row, in order |
| WorkerBackup.BackupLoop | fastapi_backend/worker_backup.py:264-331 | the question loop and the final dump write every planned content, the last being the "completado" record |
| WorkerBackup.BackupQuestion | fastapi_backend/worker_backup.py:265-321 | one pass adds the next result and two dumps |
| WorkerBackup.BackupFaultFree | fastapi_backend/worker_backup.py:253-331 | with no failed dump, after question k the file holds the first k results, each completed and carrying its question; at the end it holds all of them with the question list |
| WorkerBackup.BackupAbsorbsQuestionFailure | fastapi_backend/worker_backup.py:284-299 | a question whose answerer raises is stored as "Alto" with "Error al procesar la pregunta: ..." and the run goes on |
| WorkerBackup.BackupAbsorbsDumpFailures | fastapi_backend/worker_backup.py:183-333 | once the question list is on disk, failed dumps never shorten the run, and the last content is the final record unless that dump fails |
| WorkerBackup.FirstRaise | fastapi_backend/worker_backup.py:373-385 | the index of the first question whose answerer raises: every earlier one answers |
| WorkerBackup.CustomRunPlan | fastapi_backend/worker_backup.py:369-399 | the custom run dumps one snapshot per answered question and stops at the first question that raises |
| WorkerBackup.AnalyzeCustomBackup | fastapi_backend/worker_backup.py:336-399 | the custom run writes exactly its plan: a read failure gives the error record, and any raise ends the background task |
| WorkerBackup.CustomQuestionList | fastapi_backend/worker_backup.py:359-367 | `preguntas_originales` of a custom run holds every custom question, in order |
| WorkerBackup.CustomLoop | fastapi_backend/worker_backup.py:369-399 | the custom loop has no handler: the first raise ends it after the snapshots of the earlier answers |
| MainApi.StatusAsWritten | fastapi_backend/main.py:168-208 | a bare legacy list is reported as a corrupt file; every other file state gets the reply of Status |
| MainApi.Status | fastapi_backend/main.py:170-208 | the record is echoed, unchanged, exactly when the file is a dictionary with an estado; "not started" exactly when there is no file; every summary except the one migrated from a legacy list has no results and 0% |
| MainApi.SingleDecision | fastapi_backend/main.py:216-276 | without a file the request is refused as having no original; it goes ahead exactly when the file is a dictionary, the contract is found, the questions are listed and the index is within the list, negative indices counting from the end; then estado is "reanalisis_en_progreso", the worker gets the index and the results are kept |
| MainApi.GlobalDecision | fastapi_backend/main.py:284-318 | without a file the request is refused as having no original; it goes ahead exactly when the file is a dictionary and the contract is found; then the worker gets the edited questions (none when the body has none), which are also stored, and the re-run is marked "global" |
| MainApi.LegacyReportedCorrupt | fastapi_backend/main.py:176-208 | as written, every bare-list file is reported as corrupt, while the legacy migration would report it otherwise |
| MainApi.LegacyCounterexample | fastapi_backend/main.py:178 | one completed row in a bare list: reported "error" as written, "completado" with the migration reachable |
| MainApi.StatusWithoutRecord | fastapi_backend/main.py:170-208 | a missing file is "no_iniciado" and an unreadable one is "error" with "Archivo de progreso corrupto", both with no results and 0 percent |
| MainApi.StatusEchoes | fastapi_backend/main.py:181-192 | a record with `estado` is returned unchanged with its percentage; `total_preguntas` defaults to 1 and a non-positive total gives 0 |
| MainApi.StatusWithoutEstado | fastapi_backend/main.py:202-204 | a record without `estado` is "error" with its message when it has one, otherwise "en_progreso", with no results |
| MainApi.LegacyMigration | fastapi_backend/main.py:194-200 | a bare list is "completado" at 100 percent exactly when it is non-empty and every row is completed, otherwise "en_progreso" at 0; the rows are returned |
| MainApi.StatusDuringRun | fastapi_backend/main.py:181-192 | a poller during a full run sees the record as written, at k out of the number of questions |
| MainApi.StatusAtEnd | fastapi_backend/main.py:181-192 | at the end of a full run every question is counted and the status is "completado" |
| MainApi.StatusAfterFailure | fastapi_backend/main.py:181-192 | a failed run is reported with its message and no progress |
| MainApi.Rebuilt | fastapi_backend/main.py:232-237 | the question list rebuilt from the results has one entry per result, holding exactly its question and section |
| MainApi.Commit | fastapi_backend/main.py:257-276 | a rejected request writes nothing; an accepted one writes the updated record once and queues the background task only when that write succeeds |
| MainApi.RerunQuestion | fastapi_backend/main.py:210-276 | a single re-run either answers its rejection with nothing written, or writes the marked record and queues the background task exactly when the write succeeds |
| MainApi.RerunGlobalRequest | fastapi_backend/main.py:278-318 | the same for a global re-run |
| MainApi.SingleRangeCheck | fastapi_backend/main.py:239-240 | 400 exactly when there is no question list or the index is at least its length; a negative index within range passes, and then only a missing contract rejects |
| MainApi.RerunWithoutRecord | fastapi_backend/main.py:220-223 | with no progress file both re-runs answer 404 before anything else |
| MainApi.SingleAccepted | fastapi_backend/main.py:242-268 | an accepted single re-run marks the record and changes nothing else in it; the background task carries the index and the edited texts when non-empty, the stored ones otherwise |
| MainApi.RebuiltIndexReachesWorker | fastapi_backend/main.py:229-246 | when the question list is rebuilt from the results, a non-negative index the endpoint accepts is one the background task patches |
| MainApi.GlobalAccepted | fastapi_backend/main.py:285-318 | an accepted global re-run stores the edited list, marks the record and hands the same list to the background task; without a contract file it is a 404 |
| MainApi.ContractFile.Delete | fastapi_backend/main.py:417-418 | after `unlink` the contract file is gone |
| MainApi.CancelOutcome | fastapi_backend/main.py:370-438 | a process is cancelled exactly when its file exists and its state is not "completado", and the reply gives that earlier state; otherwise the answer is 404 without a file and 400 for a completed one |
| MainApi.Cancel | fastapi_backend/main.py:370-438 | a cancellation deletes the progress file and the contract file, and leaves both when it is rejected |
| MainApi.CancelRules | fastapi_backend/main.py:386-430 | a cancellation succeeds exactly when the file exists and its `estado` is not "completado"; an unreadable file counts as "desconocido"; the reply never lists a deleted file |
| MainApi.CancelDuringRun | fastapi_backend/main.py:404-408 | a full run can be cancelled at any point before its final record and not after |
| MainApi.Readable | fastapi_backend/main.py:123-150 | at most one summary per file |
| MainApi.InsertByDate | fastapi_backend/main.py:153 | an insertion adds exactly the element, and the list then starts with it or with the old first entry |
| MainApi.InsertByDateSorted | fastapi_backend/main.py:153 | inserting into a newest-first list keeps it newest first |
| MainApi.SortNewestFirst | fastapi_backend/main.py:153 | the sort yields a newest-first permutation of its input |
| MainApi.ListProcesses | fastapi_backend/main.py:114-156 | the listing is newest first and holds exactly the summaries of the readable files |
| MainApi.ReadableSummaries | fastapi_backend/main.py:123-150 | a summary is listed exactly when some file holding an object gives it |
| MainApi.ReadableSource | fastapi_backend/main.py:123-150 | every summary in the listing is that of some file of the directory |
| MainApi.ReadableHolds | fastapi_backend/main.py:123-150 | every file that parses to an object has its summary in the listing |
| MainApi.ListedDuringRun | fastapi_backend/main.py:128-146 | a run in progress is listed with as many results as questions answered; an unreadable or bare-list file is skipped |
| Batch.SimulatedAnswer | src/pages/analizador_batch.py:8-13 | the simulated answer has exactly the keys "Respuesta" and "Riesgo" |
| Batch.AnswerQuotesQuestion | src/pages/analizador_batch.py:11 | the answer is the fixed lead, the first 40 characters of the question (all of it when shorter) and "..." |
| Batch.RiskIsAltoOrBajo | src/pages/analizador_batch.py:12 | the risk is "Alto" exactly when the lower-cased question contains "terminate", and "Bajo" otherwise |
| Batch.AnswerIgnoresContext | src/pages/analizador_batch.py:8-13 | neither the section nor the contract text changes the answer |
| Batch.RiskIgnoresCase | src/pages/analizador_batch.py:12 | writing the question in capitals does not change the risk |
| Batch.MissingColumn | src/pages/analizador_batch.py:22-24 | none exactly when the row has all three columns; otherwise the first one it lacks, in reading order |
| Batch.BatchResult | src/pages/analizador_batch.py:26-37 | the result of a complete row has exactly the six keys of a result |
| Batch.Complete | src/pages/analizador_batch.py:21-24 | the number of leading rows that have every column: each of them is complete and the next one is not |
| Batch.BatchResults | src/pages/analizador_batch.py:21-39 | one result per row the loop gets through |
| Batch.RunBatch | src/pages/analizador_batch.py:15-42 | the script dumps exactly its plan: a bare list after each row, stopping at an unreadable sheet, a failed dump or the first incomplete row |
| Batch.BatchStep | src/pages/analizador_batch.py:22-39 | one pass appends the result of the next row |
| Batch.ResultCopiesRow | src/pages/analizador_batch.py:26-37 | each result copies its row's number, question and section, is marked "✅ Completed" and carries the simulated answer |
| Batch.BatchFaultFree | src/pages/analizador_batch.py:21-42 | with every column present and no failed dump, the k-th dump writes a bare list of exactly the first k results and the script ends normally |
| Batch.BatchStopsAtIncompleteRow | src/pages/analizador_batch.py:22-24 | a row lacking a column ends the script with the KeyError of the first missing column; the file keeps the results of the rows before it |
| Batch.BatchNeverCompletes | src/pages/analizador_batch.py:30 | the status endpoint's migration never reports a batch file as completed, since the rows are marked "✅ Completed" and it looks for "✅ Completado" |
| Historico.CanonicalOfLabel | src/pages/modules/historico_analisis.py:299-306 | the stored label of every level is read back as that level |
| Historico.CanonicalOfEnglish | src/pages/modules/historico_analisis.py:299-304 | "High", "medium" and "LOW" are read as the matching Spanish levels |
| Historico.CanonicalIgnoresCase | src/pages/modules/historico_analisis.py:299-306 | the case of a risk text never changes its level |
| Historico.Level | src/pages/modules/historico_analisis.py:293-306 | the level shown for a result: the first filled of "Riesgo", "RISK" and "risk", stripped and read without case in Spanish or English, "Sin evaluar" otherwise; CanonicalOfLabel, CanonicalOfEnglish, CanonicalIgnoresCase and LevelFallback state this |
| Historico.ReportLevel | src/pages/modules/historico_analisis.py:1434-1440 | a stored "Riesgo" that is one of the four labels is counted under itself; any other value or a missing key counts as "Sin evaluar", so a level other than that is exactly the stored text |
| Historico.LevelFallback | src/pages/modules/historico_analisis.py:293-296 | "Riesgo" decides when filled; "RISK" only when "Riesgo" is absent or empty; a result with none of the three is not evaluated |
| Historico.ReportAgreesOnLabels | src/pages/modules/historico_analisis.py:1434-1440 | the summary and the Word report count a result whose "Riesgo" is a stored label under the same level |
| Historico.ReportIgnoresEnglish | src/pages/modules/historico_analisis.py:1436-1440 | an English label is counted by the summary but falls under "Sin evaluar" in the Word report |
| Historico.CountLevel | src/pages/modules/historico_analisis.py:288-306 | a counter never exceeds the number of results |
| Historico.TallySums | src/pages/modules/historico_analisis.py:288-306 | every result is counted under exactly one level: the four counters add up to the number of results |
| Historico.Tally | src/pages/modules/historico_analisis.py:288-306 | the counting loop gives each level's count, and the counts add up to the number of results |
| Historico.CompletedCount | src/pages/modules/historico_analisis.py:285 | the "Completadas" metric never exceeds the number of results |
| Historico.BatchResultsCounted | src/pages/modules/historico_analisis.py:285 | every result of the batch script is counted as completed |
| Historico.BackupResultsNotCounted | src/pages/modules/historico_analisis.py:285 | no result of the analysis engine is counted, since they are marked "✅ Completado" |
| Historico.PageCount | src/pages/modules/historico_analisis.py:1051 | there is always at least one page |
| Historico.PagesCoverItems | src/pages/modules/historico_analisis.py:1051 | the pages hold every item and only the only page of an empty list is empty |
| Historico.ClampPage | src/pages/modules/historico_analisis.py:1052-1055 | the stored page is brought into [1, pages]: kept when in range, otherwise the nearer end |
| Historico.PageWindow | src/pages/modules/historico_analisis.py:1056-1058 | a page shows at most ten items, and the first one of its range when there is one |
| Historico.ItemOnItsPage | src/pages/modules/historico_analisis.py:1051-1058 | every item is shown on exactly the page k / 10 + 1, at position k % 10, and the clamp keeps that page |
| Historico.Navigate | src/pages/modules/historico_analisis.py:1128-1158 | from a page in range every button stays in range; "previous" and "next" leave the page where it is exactly on the first and on the last page |
| Historico.NavigateStaysInRange | src/pages/modules/historico_analisis.py:1128-1158 | the first, previous, next and last buttons never take the page out of range |
| Historico.ShownQuestionRule | src/pages/modules/historico_analisis.py:1492-1497 | the original question is replaced only by a re-analysis that brought new text, and then by that text; a result without a section keeps the original one |
| Historico.Entries | src/pages/modules/historico_analisis.py:1490-1509 | `zip` gives as many entries as the shorter list, each built from its pair |
| Historico.GroupBySection | src/pages/modules/historico_analisis.py:1489-1509 | the grouping loop keeps the sections in order of first appearance, each with its items in order |
| Historico.GroupStep | src/pages/modules/historico_analisis.py:1499-1509 | one more entry appends its section if new and its item to that section only |
| Historico.ItemsOfNewSection | src/pages/modules/historico_analisis.py:1499-1500 | a section not seen yet has no items |
| Historico.SectionsDistinct | src/pages/modules/historico_analisis.py:1499-1500 | the sections are distinct and are exactly those of the entries |
| Historico.ItemsOfSection | src/pages/modules/historico_analisis.py:1502-1509 | an item is listed under a section exactly when its entry has that section, in question order |
| Historico.SizeSumStep | src/pages/modules/historico_analisis.py:1499-1509 | adding an entry adds one item under its section and none under the others |
| Historico.GroupsCoverEntries | src/pages/modules/historico_analisis.py:1489-1512 | the report lists every entry exactly once: the items of all sections add up to the number of entries |
| Historico.EntriesNumbered | src/pages/modules/historico_analisis.py:1503 | the report numbers the questions 1, 2, ... in list order |
| HistoricoInline.CutTurn | src/pages/modules/historico_analisis.py:1864-1876 | one turn of the bold (or code) loop: up to the closing marker, with a shorter rest, or the whole rest when there is none |
| HistoricoInline.BoldLoop | src/pages/modules/historico_analisis.py:1860-1881 | the first pass equals the cut as written at "**" |
| HistoricoInline.CodeLoop | src/pages/modules/historico_analisis.py:1914-1929 | the inner loop of the third pass equals the cut as written at the backtick |
| HistoricoInline.UnmatchedTwice | src/pages/modules/historico_analisis.py:1873-1881 | an opening marker without a closing one makes the rest of the text come out twice |
| HistoricoInline.CutRoundTrip | src/pages/modules/historico_analisis.py:1864-1881 | the corrected cut loses and repeats nothing: with the markers put back, its segments spell the text |
| HistoricoInline.CutAsWrittenRepeats | src/pages/modules/historico_analisis.py:1864-1881 | the cut as written emits the same segments as the corrected one and only repeats the last |
| HistoricoInline.CutClean | src/pages/modules/historico_analisis.py:1864-1872 | the cut emits plain segments and segments of its kind, and these never hold the marker |
| HistoricoInline.ItalicLoop | src/pages/modules/historico_analisis.py:1890-1905 | the inner loop of the second pass equals the italic cut of its text |
| HistoricoInline.ItalicSplitRoundTrip | src/pages/modules/historico_analisis.py:1891-1905 | with the stars put back around the italic segments, the italic cut spells its text |
| HistoricoInline.ItalicSplitKinds | src/pages/modules/historico_analisis.py:1891-1905 | the italic cut emits plain and italic segments, and italic text holds no "*" |
| HistoricoInline.ItalicAll | src/pages/modules/historico_analisis.py:1884-1905 | the second pass cuts each plain segment and passes bold ones through, in order |
| HistoricoInline.ItalicPassRoundTrip | src/pages/modules/historico_analisis.py:1884-1905 | over plain and bold segments, the second pass loses and repeats nothing |
| HistoricoInline.ItalicPassKinds | src/pages/modules/historico_analisis.py:1884-1905 | the second pass keeps bold segments as they were and emits no code |
| HistoricoInline.CodeAll | src/pages/modules/historico_analisis.py:1908-1929 | the third pass cuts each plain segment at backticks, as written, and passes bold and italic ones through |
| HistoricoInline.CodePassRoundTrip | src/pages/modules/historico_analisis.py:1908-1929 | with the corrected cut, the third pass loses and repeats nothing |
| HistoricoInline.CodePassKinds | src/pages/modules/historico_analisis.py:1908-1929 | the third pass keeps bold and italic segments as they were, and its code holds no backtick |
| HistoricoInline.RunsFilled | src/pages/modules/historico_analisis.py:1932-1936 | every run is a segment of the sequence, and none is empty |
| HistoricoInline.AddRuns | src/pages/modules/historico_analisis.py:1932-1936 | one run per non-empty segment, in order |
| HistoricoInline.SegmentsAsWritten | src/pages/modules/historico_analisis.py:1846-1929 | the bold, italic and code passes as written, where an unmatched opener repeats the rest of the text; UnmatchedBoldExample, UnmatchedCodeExample and CutAsWrittenRepeats state this |
| HistoricoInline.Segments | src/pages/modules/historico_analisis.py:1846-1929 | the three passes with an unmatched opener kept once as plain text; SegmentsRoundTrip states that the segments with their markers put back give the text, and SegmentsClean that no segment holds its own marker |
| HistoricoInline.FormatRuns | src/pages/modules/historico_analisis.py:1846-1946 | the runs of a paragraph are the non-empty segments of the three passes as written |
| HistoricoInline.SegmentsRoundTrip | src/pages/modules/historico_analisis.py:1846-1929 | the corrected segmentation loses and repeats nothing: with the markers put back, the segments spell the text |
| HistoricoInline.SegmentsClean | src/pages/modules/historico_analisis.py:1846-1929 | formatted text never holds its own markers (no "**" in bold, no "*" in italic, no backtick in code), as written and as corrected |
| HistoricoInline.UnmatchedBoldExample | src/pages/modules/historico_analisis.py:1873-1881 | "a**b" gives the runs "a", "b", "a", "b" as written, and "a", "b" as corrected |
| HistoricoInline.UnmatchedCodeExample | src/pages/modules/historico_analisis.py:1924-1929 | "a`b" gives the whole text twice as written, once as corrected |
| HistoricoMarkdown.RunEnd | src/pages/modules/historico_analisis.py:1766-1769 | the end of a list run lies between its start and the end of the text |
| HistoricoMarkdown.RunEndMaximal | src/pages/modules/historico_analisis.py:1766-1769 | the run is maximal: every line in it is of the kind, and the line after it is not |
| HistoricoMarkdown.Items | src/pages/modules/historico_analisis.py:1765-1769 | one item per line of the run |
| HistoricoMarkdown.FenceEnd | src/pages/modules/historico_analisis.py:1823-1825 | the end of a code block lies between its first line and the end of the text |
| HistoricoMarkdown.FenceEndFirst | src/pages/modules/historico_analisis.py:1823-1828 | no line before the end of the code is a fence, and the code ends at a fence or at the end of the text |
| HistoricoMarkdown.Step | src/pages/modules/historico_analisis.py:1753-1844 | each pass consumes at least one line and adds at most one block |
| HistoricoMarkdown.CollectList | src/pages/modules/historico_analisis.py:1765-1769 | the list loop stops at the end of the run and collects the item of each of its lines |
| HistoricoMarkdown.CollectCode | src/pages/modules/historico_analisis.py:1820-1825 | the code loop stops at the next fence or the end, collecting the lines in between unchanged |
| HistoricoMarkdown.Turn | src/pages/modules/historico_analisis.py:1754-1844 | one pass of the loop adds the blocks and moves to the line that `Step` gives |
| HistoricoMarkdown.Blocks | src/pages/modules/historico_analisis.py:1742-1845 | the blocks of a markdown text, none for the empty text; BlocksAtMostLines bounds them by the lines and the loop of MarkdownToWord is proved to build them |
| HistoricoMarkdown.MarkdownToWord | src/pages/modules/historico_analisis.py:1742-1845 | the blocks added to the document are the blocks of the text |
| HistoricoMarkdown.HeadingLevels | src/pages/modules/historico_analisis.py:1795-1815 | a heading of one to three "#" becomes a Word heading of level h + 2, a deeper one an emphasised paragraph; the pass consumes that line alone |
| HistoricoMarkdown.ListStep | src/pages/modules/historico_analisis.py:1763-1792 | a list line opens a list taking every following line of its kind, one item per line without its marker, up to the first line of another kind |
| HistoricoMarkdown.ListItemFilled | src/pages/modules/historico_analisis.py:1767 | no list item is empty |
| HistoricoMarkdown.FenceStep | src/pages/modules/historico_analisis.py:1818-1838 | a fence opens a code block that takes the lines up to the next fence or the end; the next pass starts after the closing fence; with no line between, nothing is added |
| HistoricoMarkdown.CodeKeepsLines | src/pages/modules/historico_analisis.py:1831-1832 | the code of a block splits back into the lines it was taken from |
| HistoricoMarkdown.BlocksAtMostLines | src/pages/modules/historico_analisis.py:1753-1844 | a text never gives more blocks than it has lines |
| Procesos.TruncDiv | src/pages/modules/procesos_en_curso.py:254 | `int(a / b)` truncates toward zero: the quotient brackets a from below for a non-negative a and from above for a negative one |
| Procesos.PercentBounds | src/pages/modules/procesos_en_curso.py:254 | with no more answers than questions, the percentage is between 0 and 100 |
| Procesos.PercentFull | src/pages/modules/procesos_en_curso.py:254 | the percentage reaches 100 exactly when every question has an answer |
| Procesos.ReadProgress | src/pages/modules/procesos_en_curso.py:233-276 | an unreadable or non-object progress file reads as 0 percent, with no data and empty status and re-run type |
| Procesos.FinishedFileCompletes | src/pages/modules/procesos_en_curso.py:256-293 | a file whose estado is "completado" finishes the process whatever the API says |
| Procesos.RunCompletes | src/pages/modules/procesos_en_curso.py:243-293 | a run that is not an individual re-run finishes exactly when the API says so or every question has an answer |
| Procesos.IndividualInProgress | src/pages/modules/procesos_en_curso.py:260-290 | an individual re-run in progress shows 50 percent and finishes only when the API says so |
| Procesos.Completed | src/pages/modules/procesos_en_curso.py:280-293 | a process is finished when the API says "completado", or at 100% unless it is an individual re-run whose file is not yet "completado"; FinishedFileCompletes, RunCompletes and IndividualInProgress state this |
| Procesos.StatusLabel | src/pages/modules/procesos_en_curso.py:301-331 | the badge named by the first condition that holds; FinishedBadgeOnOpenProcess, FileNeverQueued and IndividualShowsReprocessing state its cases |
| Procesos.FinishedBadgeOnOpenProcess | src/pages/modules/procesos_en_curso.py:278-304 | a card shown as "Completado" for an unfinished process is an individual re-run whose count reached the total while its file says neither finished nor in progress |
| Procesos.FileNeverQueued | src/pages/modules/procesos_en_curso.py:318-326 | a process with a progress file is never shown as queued |
| Procesos.IndividualShowsReprocessing | src/pages/modules/procesos_en_curso.py:305-309 | an individual re-run in progress that the API does not report finished is shown as "Reprocesando" |
| Procesos.ParseInt | src/pages/modules/procesos_en_curso.py:403-407 | `int` of a text: spaces around, an optional sign and decimal digits, no number otherwise; ParseIntToString states that it reads back every number it prints |
| Procesos.DigitsOfNat | src/pages/modules/procesos_en_curso.py:405 | the decimal text of a natural number is all digits and reads back as the number |
| Procesos.ParseIntToString | src/pages/modules/procesos_en_curso.py:403-407 | `int` of the decimal text of any integer gives the integer back |
| Procesos.PagesTotal | src/pages/modules/procesos_en_curso.py:402-427 | the page total: the sum over the documents when positive, else total_paginas read as a number; PagesPrecedence, PagesSumAppend and PagesSumIgnores state this |
| Procesos.PagesSumAppend | src/pages/modules/procesos_en_curso.py:422-426 | the page sum adds up over a split of the entries |
| Procesos.PagesSumIgnores | src/pages/modules/procesos_en_curso.py:422-426 | entries that are not objects count for nothing |
| Procesos.PagesPrecedence | src/pages/modules/procesos_en_curso.py:402-428 | a positive document sum wins over total_paginas; otherwise a numeric total_paginas text gives back its number |
| Procesos.PagesLabel | src/pages/modules/procesos_en_curso.py:430-435 | the page label; PagesLabelCases states its three cases |
| Procesos.PagesLabelCases | src/pages/modules/procesos_en_curso.py:430-435 | singular for one page, the plural for zero or more than one, and "Sin datos" exactly for an unknown or negative total |
| Procesos.LlmLabel | src/pages/modules/procesos_en_curso.py:437-444 | the model label, provider first when both are set; LlmLabelPrefersFile and LlmLabelNone state this |
| Procesos.LlmLabelPrefersFile | src/pages/modules/procesos_en_curso.py:394-440 | the label ends with the model the progress file gives, before the API's; a provider only comes in front of it |
| Procesos.LlmLabelNone | src/pages/modules/procesos_en_curso.py:437-444 | with no model and no provider anywhere the label is "Sin datos" |
| Procesos.RemainingTime | src/pages/modules/procesos_en_curso.py:579-589 | thirty seconds per unanswered question, in seconds under a minute and in minutes and seconds from then on; RemainingTimeParts states the minutes and seconds |
| Procesos.RemainingTimeParts | src/pages/modules/procesos_en_curso.py:579-589 | from a minute on, one minute per two questions left, and 30 seconds more when an odd number is left |
| DocumentAnalyzer.CountCompleted | src/pages/document_analyzer.py:59 | the number of completed results never exceeds the number of results |
| DocumentAnalyzer.DialogPercent | src/pages/document_analyzer.py:57-61 | the dialog's percentage of answered questions; DialogPercentAsProcesos, DialogPercentOfResults and DialogPercentOfOriginals state it |
| DocumentAnalyzer.DialogPercentAsProcesos | src/pages/document_analyzer.py:57-61 | the dialog's percentage is the one the process page computes from the same counts |
| DocumentAnalyzer.DialogPercentOfResults | src/pages/document_analyzer.py:57-61 | counted over the results themselves, the percentage is between 0 and 100, and is 100 exactly when there are results and all are completed |
| DocumentAnalyzer.DialogPercentOfOriginals | src/pages/document_analyzer.py:57-61 | counted over a non-empty list of original questions, the percentage is between 0 and 100, and is 100 exactly when every question has a completed result |
| DocumentAnalyzer.EditKeyInjective | src/pages/document_analyzer.py:96 | two questions never share an edit key |
| DocumentAnalyzer.Payload | src/pages/document_analyzer.py:93-105 | one entry per question |
| DocumentAnalyzer.BuildPayload | src/pages/document_analyzer.py:93-105 | the loop collects one entry per question, in order |
| DocumentAnalyzer.PayloadEntries | src/pages/document_analyzer.py:96-105 | each entry has exactly the keys numero, pregunta and seccion, with the question's number and section, and the edited text exactly when the session holds one for that position |
| DocumentAnalyzer.EditChangesOneEntry | src/pages/document_analyzer.py:96-105 | editing question k in the session changes the text of entry k and nothing else in the payload |
| DocumentAnalyzer.QuickRange | src/pages/document_analyzer.py:1717-1729 | every quick range ends today; "Hoy" is that day alone; "Esta semana" starts on a Monday less than seven days back |
| DocumentAnalyzer.QuickRangesNest | src/pages/document_analyzer.py:1719-1729 | every quick range holds today and lies within the last thirty days; "Este mes" starts no earlier than "Últimos 30 días" |
| DocumentAnalyzer.QuickStepAsWritten | src/pages/document_analyzer.py:1731-1734 | as written, a quick range never changes the key the page reads, and the page reruns exactly when that key differs from the range; "Seleccionar" clears the key and reruns exactly when it was set |
| DocumentAnalyzer.QuickStep | src/pages/document_analyzer.py:1731-1734 | with one key, the applied range becomes the chosen quick range, or none for "Seleccionar", the other key is untouched, and the page reruns exactly when the filters change |
| DocumentAnalyzer.QuickFilterLoops | src/pages/document_analyzer.py:1731-1734 | as written, a chosen quick filter never reaches the key the page reads: the key is unchanged and each rerun asks for another rerun, for ever |
| DocumentAnalyzer.QuickFilterSettles | src/pages/document_analyzer.py:1731-1734 | with the key fixed, the range is applied in one run, and the rerun changes nothing and stops |
| DocumentAnalyzer.SeleccionarClears | src/pages/document_analyzer.py:1735-1739 | "Seleccionar..." removes the applied range and reruns exactly when there was one, in both versions |
| DocumentAnalyzer.DateBounds | src/pages/document_analyzer.py:1775-1779 | both bounds come from a pair; a single date gives the lower bound alone; anything else gives none |
| DocumentAnalyzer.AppliedRangeBounds | src/pages/document_analyzer.py:1770-1776 | an applied range bounds the history on both sides whatever the widget shows |
| DocumentAnalyzer.QuickFilterBounds | src/pages/document_analyzer.py:1715-1779 | as written a quick filter leaves the bounds to the widget; with the key fixed they are the quick range |
| DocumentAnalyzer.TotalPages | src/pages/document_analyzer.py:1793 | at least one page, and exactly enough pages for the items |
| DocumentAnalyzer.ClampPage | src/pages/document_analyzer.py:1796-1797 | a page past the end moves back to the last one, and a page in range is kept |
| DocumentAnalyzer.Window | src/pages/document_analyzer.py:1801-1802 | a page's window starts at (p - 1) * per, is non-empty, lies within the list and holds at most per items |
| DocumentAnalyzer.WindowsTile | src/pages/document_analyzer.py:1800-1802 | each page starts where the one before ends, the first at the start of the list and the last at its end |
| DocumentAnalyzer.PageOfItem | src/pages/document_analyzer.py:1793-1802 | item i is on page i / per + 1, which exists |
| DocumentAnalyzer.PageSliceAsWritten | src/pages/document_analyzer.py:1800-1863 | as written, showing a page raises exactly when the history is empty |
| DocumentAnalyzer.PageSlice | src/pages/document_analyzer.py:1800-1863 | with the bounds defined for an empty history, a page holds at most per items, agrees with the code wherever that does not raise, and is empty for an empty history |
| DocumentAnalyzer.PageSliceShowsItem | src/pages/document_analyzer.py:1792-1863 | every item of the history appears on its page, at its offset within it |
| DocumentAnalyzer.EmptyHistoryRaises | src/pages/document_analyzer.py:1793-1863 | the empty history has one page, and showing it raises NameError for the unbound `inicio` as written |
| DocumentAnalyzer.Session.QuickFilterAsWritten | src/pages/document_analyzer.py:1714-1739 | the quick-filter code as written, on the session, leaving the page alone |
| DocumentAnalyzer.Session.QuickFilter | src/pages/document_analyzer.py:1714-1739 | the corrected quick filter applies the chosen range to the key the page reads |
| DocumentAnalyzer.Session.ClearFilters | src/pages/document_analyzer.py:1743-1747 | the clear button drops the applied range, keeps everything else, and reruns |
| DocumentAnalyzer.Session.PreparePage | src/pages/document_analyzer.py:1789-1797 | the page starts at 1 and is moved back within the pages; the date filters are untouched |
| NuevoAnalisis.ProcessedAll | src/pages/modules/nuevo_analisis.py:109-121 | one record per chosen file |
| NuevoAnalisis.ProcessFiles | src/pages/modules/nuevo_analisis.py:103-121 | the loop keeps one record per chosen file, in order, a single file being wrapped in a list |
| NuevoAnalisis.ProcessedKeepsFiles | src/pages/modules/nuevo_analisis.py:111-121 | each record keeps its file's name and bytes, and a type that is never empty and is the browser's when it gave one |
| NuevoAnalisis.Names | src/pages/modules/nuevo_analisis.py:179 | one name per record |
| NuevoAnalisis.DefaultName | src/pages/modules/nuevo_analisis.py:10-15 | the first file's stem, or "Analisis", then "_" and the date; DefaultNameParts and DefaultFirstFileOnly state this |
| NuevoAnalisis.DefaultNameParts | src/pages/modules/nuevo_analisis.py:10-15 | the default name is a non-empty base, an underscore and the date; the base is the first file's name without directory and extension when that is not empty |
| NuevoAnalisis.DefaultFirstFileOnly | src/pages/modules/nuevo_analisis.py:10-15 | only the first file's name counts |
| NuevoAnalisis.Sync | src/pages/modules/nuevo_analisis.py:184-187 | after the reset rule, the last default written is the current one |
| NuevoAnalisis.EditSurvivesRerun | src/pages/modules/nuevo_analisis.py:184-187 | a new default replaces the field; the same default again leaves it alone, so an edit survives every rerun until the files change the default |
| NuevoAnalisis.NameToSend | src/pages/modules/nuevo_analisis.py:194 | the stripped typed name, or the default when only spaces were typed; NameToSendFilled states that with the default name it is never empty and that a typed name is sent stripped |
| NuevoAnalisis.NameToSendFilled | src/pages/modules/nuevo_analisis.py:194 | the name sent is never empty, and what the user typed is sent without surrounding spaces |
| NuevoAnalisis.FreshFilesSendDefault | src/pages/modules/nuevo_analisis.py:184-194 | right after the files change, the name sent is the new default, stripped |
| NuevoAnalisis.FilesPayload | src/pages/modules/nuevo_analisis.py:206-212 | one part per record |
| NuevoAnalisis.Request | src/pages/modules/nuevo_analisis.py:206-220 | the posted request: one file part per chosen file and the two form fields; RequestOnePartPerFile, RequestNamesAreDefaultNames, AttachmentFlagRoundTrip and RequestForm state it |
| NuevoAnalisis.RequestOnePartPerFile | src/pages/modules/nuevo_analisis.py:206-216 | one part per chosen file, in order, each under "files" with that file's name and bytes |
| NuevoAnalisis.RequestNamesAreDefaultNames | src/pages/modules/nuevo_analisis.py:179-212 | the names in the parts are the names the default name was built from |
| NuevoAnalisis.AttachmentFlagRoundTrip | src/pages/modules/nuevo_analisis.py:205-218 | the flag is "true" or "false", and reads back as the truthiness of the session value |
| NuevoAnalisis.RequestForm | src/pages/modules/nuevo_analisis.py:217-220 | the form carries exactly the flag and the name to send |
| NuevoAnalisis.NameField.SyncDefault | src/pages/modules/nuevo_analisis.py:184-187 | the reset rule on the session's two keys |
| NuevoAnalisis.NameField.Type | src/pages/modules/nuevo_analisis.py:189-193 | typing sets the field's text and leaves the last default alone |
| AnalisisDb.Init | src/db/analisis_db.py:7-22 | after initialisation the table and the results column exist |
| AnalisisDb.InitIdempotent | src/db/analisis_db.py:7-22 | initialising twice is initialising once; an existing table keeps its rows, a new one has none |
| AnalisisDb.Save | src/db/analisis_db.py:24-29 | `INSERT OR REPLACE`; SaveUpserts and SaveThenResults state what the table holds afterwards |
| AnalisisDb.SaveUpserts | src/db/analisis_db.py:24-29 | a save fails exactly when the table or the results column is missing; otherwise exactly one row has the id, holding what was given and nothing of the row it replaced, and every other row is unchanged |
| AnalisisDb.UpdateEstado | src/db/analisis_db.py:31-39 | the status update, with the results when given; UpdateEstadoOnlyMatching and UpdateEstadoKeepsResults state what changes |
| AnalisisDb.UpdateEstadoOnlyMatching | src/db/analisis_db.py:31-39 | an update fails exactly when the table is missing, or results are given and their column is not there; otherwise ids are kept, an unknown id changes nothing, other rows are untouched, and the matching row takes the status and the results when given |
| AnalisisDb.UpdateResultados | src/db/analisis_db.py:49-54 | the results update; UpdateResultadosOnlyResults states what changes |
| AnalisisDb.UpdateResultadosOnlyResults | src/db/analisis_db.py:49-54 | updating the results changes only the results of the matching row |
| AnalisisDb.InsertByCreated | src/db/analisis_db.py:44 | inserting into a newest-first list of distinct ids keeps it so and adds exactly the element |
| AnalisisDb.SelectNewestFirst | src/db/analisis_db.py:41-47 | the query returns each kept row once, newest first |
| AnalisisDb.SaveThenResults | src/db/analisis_db.py:24-29 | results saved as text that parses are read back as the parsed value; a row saved without results reads back as None |
| AnalisisDb.UpdateEstadoKeepsResults | src/db/analisis_db.py:31-39 | changing the status alone never fails on an existing table and keeps the stored results readable |
| AnalisisDb.Table.InitDb | src/db/analisis_db.py:7-22 | `init_db` on the database file |
| AnalisisDb.Table.Guardar | src/db/analisis_db.py:24-29 | `guardar_analisis` on the file: the error and an unchanged table, or the saved state |
| AnalisisDb.Table.ActualizarEstado | src/db/analisis_db.py:31-39 | `actualizar_estado_analisis` on the file: the error and an unchanged table, or the updated state |
| AnalisisDb.Table.ActualizarResultados | src/db/analisis_db.py:49-54 | `actualizar_resultados_analisis` on the file: the error and an unchanged table, or the updated state |
| AnalisisDb.Table.ObtenerPendientes | src/db/analisis_db.py:41-47 | the pending list fails exactly when there is no table; otherwise it holds exactly the pending rows, each once, newest first |
| AnalisisDb.IsPending | src/db/analisis_db.py:44 | the pending filter, which keeps NULL and every status but "✅ Completado" and "❌ Cancelado"; CompletedStaysPending and PendingRulesDiffer state which statuses it keeps |
| AnalisisDb.CompletedStaysPending | src/db/analisis_db.py:44 | a row marked "✅ Completed" stays pending; only the Spanish spelling takes a row out of the pending list |
| LegacyAnalisisDb.LegacyInit | src/pages/analisis_db.py:8-18 | after the older initialisation the table exists, and the results column exists only if it did before |
| LegacyAnalisisDb.LegacyInitIdempotent | src/pages/analisis_db.py:8-18 | the older initialisation is idempotent and keeps an existing table; combined with the newer one in either order it gives the newer one's result |
| LegacyAnalisisDb.LegacySave | src/pages/analisis_db.py:22-27 | the legacy upsert without results; LegacySaveUpserts states it and relates it to Save |
| LegacyAnalisisDb.LegacySaveUpserts | src/pages/analisis_db.py:22-27 | the older save fails exactly when the table is missing; otherwise it upserts by id, drops any results the row held and leaves other rows alone; where the newer save works it is that save without results |
| LegacyAnalisisDb.LegacyUpdateEstado | src/pages/analisis_db.py:31-36 | the legacy status update; LegacyUpdateIsUpdate states that it is the newer update without results |
| LegacyAnalisisDb.LegacyUpdateIsUpdate | src/pages/analisis_db.py:31-36 | the older status update is the newer one without results; an unknown id changes nothing |
| LegacyAnalisisDb.LegacyIsPending | src/pages/analisis_db.py:43 | the legacy pending filter; PendingRulesDiffer states where it disagrees with the newer one |
| LegacyAnalisisDb.PendingRulesDiffer | src/pages/analisis_db.py:43 | the two pending lists disagree on exactly three statuses: "✅ Completado" and "❌ Cancelado" are pending only for the older module, "✅ Completed" only for the newer |
| LegacyAnalisisDb.LegacyInitDb | src/pages/analisis_db.py:8-18 | the older `init_db` on the shared file |
| LegacyAnalisisDb.LegacyGuardar | src/pages/analisis_db.py:22-27 | the older `guardar_analisis` on the shared file |
| LegacyAnalisisDb.LegacyActualizarEstado | src/pages/analisis_db.py:31-36 | the older `actualizar_estado_analisis` on the shared file |
| LegacyAnalisisDb.LegacyPendientes | src/pages/analisis_db.py:40-46 | the older pending list holds exactly the rows not marked "✅ Completed", each once, newest first |
| AnalisisDb.Results | src/db/analisis_db.py:56-64 | the stored results parsed; ResultsCases states when it fails and when it gives none |
| AnalisisDb.ResultsCases | src/db/analisis_db.py:56-64 | reading results fails only without the table or column or on text that does not parse; it is None exactly for a missing id and for NULL or empty text, otherwise the parsed stored value |
| AnalisisDb.Table.ObtenerResultados | src/db/analisis_db.py:56-64 | the method reads the file's results as the result function says, changing nothing |

## Left out

- The calls to the language models (Gemini, Azure, Vertex) are an oracle parameter: a function from the section, the question and the context to a raw answer or an exception.
- PDF text extraction with PyPDF2 is a parameter: the text of each page. Reading the spreadsheet with pandas is a parameter: the question rows.
- Reading and writing files: the progress file is a class whose state is the parsed content. Encodings and `errors="replace"` decoding are not modelled.
- The wall clock: every timestamp written by `time.strftime` or `datetime.now` is a parameter. Today's date for the quick filters is its proleptic Gregorian day number together with its day of the month; the weekday is derived from the day number.
- Floating-point values are not modelled: the rounded percentage of the status endpoint (fastapi_backend/main.py:185), the KB size of an uploaded file, and float progress values read by the processes page.
- MainApi.StatusEchoes: the percentage is stated as the exact ratio of progress to total, not as the float that `round(..., 1)` gives.
- Records.Row: every spreadsheet cell is a string, "" when empty. pandas reads an empty cell as NaN, a truthy float, and a numeric cell as a number; those cell values are not modelled, and the members below that read cells state their contracts for string cells only.
- FirstFilled (WorkerBackup.FirstFilled): `a or b or ""` is modelled on string cells, where an empty cell is skipped. An empty pandas cell is NaN, which is truthy and would be kept, and a numeric 0 is falsy and would be skipped; neither is captured.
- Question (WorkerBackup.Question): a NaN question cell would be kept, and then `pregunta[:50]` at fastapi_backend/worker_backup.py:270 would raise TypeError outside any handler and end the background task; the model does not capture that.
- SectionFallback (WorkerBackup.SectionFallback): an empty section cell is NaN in pandas, so the fallback to the unaccented column and to "" does not happen for it as the contract states; only string cells are modelled.
- NumberFallback (WorkerBackup.NumberFallback): a NaN number cell would be kept and a number cell holding 0 would fall through to the next spelling; only string cells are modelled.
- WorkerBackup.QuestionsBackup: the question rows are string cells, so the NaN cases above are not part of its result.
- WorkerAnswer.AnalyzeQuestionOutcomes: the question is a string. A NaN question would make `pregunta[:50]` at fastapi_backend/worker.py:31 raise before the `try`, so the whole run would end in the failure record instead of an "Alto" answer; this is not captured.
- Batch.SimulatedAnswer: the question is a string; a NaN question cell would make the slice at src/pages/analizador_batch.py:11 raise and stop the script.
- Dump (Records.ProgressFile.Dump): a fault is taken to strike after `open(..., "w")` has emptied the file, so it leaves a truncated file. An `open` that itself raises (a missing directory, no permission) would leave the previous content, and that outcome is not modelled.
- Procesos.ParseInt: only ASCII decimal digits with an optional sign are read; `int` also accepts single underscores between digits (`int("1_000")` is 1000) and non-ASCII digits, which the model reads as no number, so such a `total_paginas` text shows "Sin datos" in the model.
- Procesos.Show: lists and objects are shown as empty text rather than their Python `repr`, and floats are not among the JSON values.
- `str.upper`, `str.lower`, `str.isspace` and the `\d` of the markdown list pattern are modelled on ASCII only.
- fastapi_backend/worker_backup.py does not compile as it stands: `analizar_pregunta_texto` (line 401) opens a `try:` at line 409, and the file ends at line 468 with no `except` or `finally` block, so Python rejects the whole module and none of its functions can be imported. The model treats each of the module's other functions as complete, and takes the text answerer of that unfinished function as the parameter `textAnswer` of `WorkerBackup.Answerer`.
- FastAPI routing, CORS, `/health` and the scheduling of background tasks are left out. The concurrency between a running job and its pollers is reduced to the sequence of file contents a poller can observe.
- Streamlit rendering, HTML and CSS, dialogs and widgets are left out. Only the session keys the modelled logic reads and writes are kept.
- The styling of the Word report (fonts, sizes, colours) is left out. The report is modelled as its list of blocks and runs.
- SQLite connections, cursors and commits are left out. The creation time of a row is a parameter. Rows with the same creation time may be listed in any order, as SQLite does not fix that order either.
- The statistics queries of the history and processes pages and the HTTP polling of the API from the pages are left out.

## Findings

| source | as written | input that shows it | evidently intended | confidence | as-written member | corrected member |
|---|---|---|---|---|---|---|
| fastapi_backend/main.py:178 | the log line calls `data.get` before the type checks, so a bare legacy list raises AttributeError and is reported as a corrupt file | a progress file holding `[{"Estado": "✅ Completado"}]` gives estado "error" | the legacy list migrates to "completado" at 100 | not executed | MainApi.LegacyCounterexample | MainApi.LegacyMigration |
| src/pages/document_analyzer.py:1800-1802, 1863 | `inicio` and `fin` are bound only when the history is non-empty, but the slice reads them always | an empty history raises NameError (`inicio` is not defined) | an empty history shows an empty page | not executed | DocumentAnalyzer.EmptyHistoryRaises | DocumentAnalyzer.PageSliceShowsItem |
| src/pages/document_analyzer.py:1732-1734 | a chosen quick range is stored under `filtro_fecha_aplicada`, but the check and the filter read `filtro_fecha_aplicado` | choosing "Hoy" with no range applied reruns the page, which finds the same state and reruns again | the range is applied in one run and the rerun stops | not executed | DocumentAnalyzer.QuickFilterLoops | DocumentAnalyzer.QuickFilterSettles |
| src/pages/modules/historico_analisis.py:1873-1881, 1924-1929 | an opening `**` or backtick without a closing one appends the remaining text inside the loop and again after it | "a**b" gives the runs "a", "b", "a", "b"; "a`b" gives "a`b" twice | every character of the text appears once | not executed | HistoricoInline.UnmatchedBoldExample | HistoricoInline.SegmentsRoundTrip |
