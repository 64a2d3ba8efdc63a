/** The previous version of the batch engine (fastapi_backend/worker_backup.py): a
    normaliser that only knows the Spanish verdict, a demo answerer, and the two run
    loops. In the first loop a progress dump or a question that raises does not stop
    the run; in the second every exception ends it. */
module WorkerBackup {
  import opened Text
  import opened Records
  import opened WorkerAnswer

  // ---------------------------------------------------------------------------
  // The normaliser

  /** A verdict line: its upper-cased text contains "RIESGO:". */
  predicate HasVerdict(line: string) {
    Contains(Upper(line), "RIESGO:")
  }

  /** The level a verdict line decides; "Medio" when it names none. */
  function BackupLevel(line: string): Risk {
    var u := Upper(line);
    if Contains(u, "ALTO") then Alto else if Contains(u, "BAJO") then Bajo else Medio
  }

  /** The first verdict line decides and stops the scan. */
  function BackupScan(lines: seq<string>): Risk {
    if lines == [] then Medio
    else if HasVerdict(lines[0]) then BackupLevel(lines[0])
    else BackupScan(lines[1..])
  }

  /** The lines are scanned only when the raw answer holds "RIESGO:" in exactly that case. */
  function BackupRisk(raw: string): Risk {
    if Contains(raw, "RIESGO:") then BackupScan(Split(raw, '\n')) else Medio
  }

  /** A line removed by the cleanup: its upper-cased text starts with "RIESGO:". */
  predicate OpensWithVerdict(line: string) {
    StartsWith(Upper(line), "RIESGO:")
  }

  /** The lines that do not open with a verdict, in order. */
  function DropVerdictLines(lines: seq<string>): (r: seq<string>)
    ensures forall k :: 0 <= k < |r| ==> r[k] in lines && !OpensWithVerdict(r[k])
    ensures forall k :: 0 <= k < |lines| && !OpensWithVerdict(lines[k]) ==> lines[k] in r
  {
    if lines == [] then []
    else
      var rest := DropVerdictLines(lines[1..]);
      assert forall k :: 1 <= k < |lines| ==> lines[k] == lines[1..][k - 1];
      if OpensWithVerdict(lines[0]) then rest else [lines[0]] + rest
  }

  /** The cleanup of a list of lines and one more: the kept lines of the list, in
      order, then the new line unless it opens with a verdict. With the empty list
      giving [], this fixes the order and the multiplicity of what is kept. */
  lemma {:induction false} DropVerdictLinesAppend(lines: seq<string>, line: string)
    ensures DropVerdictLines(lines + [line]) == DropVerdictLines(lines) + (if OpensWithVerdict(line) then [] else [line])
  {
    if lines == [] {
      assert lines + [line] == [line];
    } else {
      assert (lines + [line])[1..] == lines[1..] + [line];
      DropVerdictLinesAppend(lines[1..], line);
    }
  }

  /** Without verdict lines, nothing is dropped. */
  lemma {:induction false} DropVerdictLinesNone(lines: seq<string>)
    requires forall k :: 0 <= k < |lines| ==> !OpensWithVerdict(lines[k])
    ensures DropVerdictLines(lines) == lines
  {
    if lines != [] {
      DropVerdictLinesNone(lines[1..]);
    }
  }

  /** The cleanup runs only when the exact-case token is present; otherwise the raw
      answer is kept as it is, not even stripped. */
  function BackupClean(raw: string): string {
    if Contains(raw, "RIESGO:") then Strip(Join(DropVerdictLines(Split(raw, '\n')), "\n")) else raw
  }

  function BackupNormalize(raw: string): Answer {
    Answer(BackupClean(raw), BackupRisk(raw))
  }

  /** Only the first verdict line decides, when the exact-case token is present. */
  lemma {:induction false} BackupFirstVerdictDecides(lines: seq<string>, k: int)
    requires 0 <= k < |lines| && HasVerdict(lines[k])
    requires forall j :: 0 <= j < k ==> !HasVerdict(lines[j])
    ensures BackupScan(lines) == BackupLevel(lines[k])
  {
    if k > 0 {
      BackupFirstVerdictDecides(lines[1..], k - 1);
    }
  }

  /** The same, stated on the raw answer. */
  lemma BackupFirstVerdictLineDecides(raw: string, k: int)
    requires Contains(raw, "RIESGO:")
    requires 0 <= k < |Split(raw, '\n')| && HasVerdict(Split(raw, '\n')[k])
    requires forall j :: 0 <= j < k ==> !HasVerdict(Split(raw, '\n')[j])
    ensures BackupRisk(raw) == BackupLevel(Split(raw, '\n')[k])
  {
    BackupFirstVerdictDecides(Split(raw, '\n'), k);
  }

  /** Without the exact-case token nothing is read or removed. */
  lemma BackupIgnoresOtherCase(raw: string)
    requires !Contains(raw, "RIESGO:")
    ensures BackupNormalize(raw) == Answer(raw, Medio)
  {
  }

  /** An indented verdict line survives the cleanup, and stripping brings it to the
      start of the answer; the current normaliser removes it. */
  lemma IndentedVerdictSurvives()
    ensures BackupNormalize(" RIESGO: ALTO") == Answer("RIESGO: ALTO", Alto)
    ensures Normalize(" RIESGO: ALTO") == Answer("", Alto)
  {
    var raw := " RIESGO: ALTO";
    assert '\n' !in raw;
    assert Split(raw, '\n') == [raw];
    assert Upper(raw) == raw;
    assert OccursAt(raw, "RIESGO:", 1);
    assert OccursAt(Upper(raw), "ALTO", 9);
    assert Upper(raw)[0] == ' ';
    assert !OpensWithVerdict(raw);
    assert DropVerdictLines([raw]) == [raw];
    assert Join([raw], "\n") == raw;
    assert StripRight(raw) == raw;
    assert StripLeft(raw) == raw[1..];
    assert raw[1..] == "RIESGO: ALTO";
    assert IsMarkerLine(raw);
    assert KeepLines([raw]) == [];
    assert Join([], "\n") == "";
  }

  /** A lower-case verdict is ignored and left in the answer; the current normaliser
      reads it. */
  lemma LowerCaseVerdictIgnored()
    ensures BackupNormalize("riesgo: alto") == Answer("riesgo: alto", Medio)
    ensures Normalize("riesgo: alto").riesgo == Alto
  {
    var raw := "riesgo: alto";
    forall i | 0 <= i
      ensures !OccursAt(raw, "RIESGO:", i)
    {
      if i + 7 <= |raw| {
        assert raw[i..i + 7][0] == raw[i] != 'R';
      }
    }
    assert '\n' !in raw;
    assert Split(raw, '\n') == [raw];
    assert Upper(raw) == "RIESGO: ALTO";
    assert OccursAt(Upper(raw), "RIESGO:", 0);
    assert OccursAt(Upper(raw), "ALTO", 8);
    assert IsMarkerLine(raw);
  }

  // ---------------------------------------------------------------------------
  // The answerers

  /** The model asked one question about the contract at hand: the raw answer, or the
      text of the exception the call raised. */
  type Oracle = (string, string) -> Result<string>

  /** `analizar_pregunta` of this version: a missing key or a failing call becomes an
      "Alto" answer; otherwise the normalised output. It never raises. */
  function BackupAnalyze(env: Env, oracle: Oracle, pregunta: string, seccion: string): (a: Answer)
    ensures env.apiKey == "" ==> a == Answer(KeyError, Alto)
    ensures env.apiKey != "" && oracle(pregunta, seccion).Err? ==>
      a == Answer("Error al analizar la pregunta: " + oracle(pregunta, seccion).message, Alto)
  {
    if env.apiKey == "" then Answer(KeyError, Alto)
    else match oracle(pregunta, seccion)
      case Err(m) => Answer("Error al analizar la pregunta: " + m, Alto)
      case Ok(raw) => BackupNormalize(raw)
  }

  /** The demo risk: "Alto" when the lower-cased question mentions "terminate". */
  function DemoRisk(pregunta: string): Risk {
    if Contains(Lower(pregunta), "terminate") then Alto else Bajo
  }

  /** `analizar_pregunta_llm`: the raw answer with the demo risk; the call's exception
      is not caught. */
  function DemoAnswer(oracle: Oracle, pregunta: string, seccion: string): (r: Result<Answer>)
    ensures r.Err? <==> oracle(pregunta, seccion).Err?
    ensures r.Ok? ==> r.value.respuesta == oracle(pregunta, seccion).value && r.value.riesgo in {Alto, Bajo}
  {
    match oracle(pregunta, seccion)
    case Err(m) => Err(m)
    case Ok(raw) => Ok(Answer(raw, DemoRisk(pregunta)))
  }

  /** The demo risk depends on the question alone: two questions whose lower-cased
      texts agree get the same risk, whatever the section or the answer. */
  lemma DemoRiskOnlyQuestion(o1: Oracle, o2: Oracle, p: string, s1: string, s2: string)
    requires o1(p, s1).Ok? && o2(p, s2).Ok?
    ensures DemoAnswer(o1, p, s1).value.riesgo == DemoAnswer(o2, p, s2).value.riesgo
    ensures DemoAnswer(o1, p, s1).value.riesgo == Alto <==> Contains(Lower(p), "terminate")
  {
  }

  // ---------------------------------------------------------------------------
  // Reading the inputs

  /** The contract file: its name, and the text of the exception when reading it raises. */
  datatype Contract = Contract(name: string, readError: Option<string>)

  /** The suffix, lower-cased, selects the PDF path; anything else is read as text. */
  predicate UsesPdf(name: string) {
    Lower(Suffix(name)) == ".pdf"
  }

  /** The answerer of one question. The PDF path cannot raise; the text path is a
      parameter that may, since `analizar_pregunta_texto` breaks off inside its `try`
      block at the end of the file and is not part of this model. */
  function Answerer(c: Contract, env: Env, oracle: Oracle, textAnswer: (string, string) -> Result<Answer>)
    : (string, string) -> Result<Answer>
  {
    if UsesPdf(c.name) then (p: string, s: string) => Ok(BackupAnalyze(env, oracle, p, s)) else textAnswer
  }

  /** `row.get(k1) or row.get(k2) or ... or ""`: the first non-empty column. */
  function FirstFilled(row: Row, keys: seq<string>): (v: string)
    ensures v == "" <==> forall i :: 0 <= i < |keys| ==> Get(row, keys[i], "") == ""
    ensures v != "" ==> exists i :: 0 <= i < |keys| && v == Get(row, keys[i], "") &&
                                    forall j :: 0 <= j < i ==> Get(row, keys[j], "") == ""
  {
    if keys == [] then ""
    else if Get(row, keys[0], "") != "" then Get(row, keys[0], "")
    else
      var v := FirstFilled(row, keys[1..]);
      assert forall i :: 1 <= i < |keys| ==> keys[i] == keys[1..][i - 1];
      assert v != "" ==> exists i :: 1 <= i < |keys| && v == Get(row, keys[i], "") &&
                                    forall j :: 0 <= j < i ==> Get(row, keys[j], "") == "";
      v
  }

  const NumberColumns := ["Número de Pregunta", "Numero de Pregunta", "Nº de Pregunta"]
  const SectionColumns := ["Sección", "Seccion"]

  /** The question as the engine keeps it, with the column fallbacks applied. */
  function Question(row: Row): (q: Row)
    ensures q.Keys == {"Número", "Pregunta", "Sección"}
  {
    map["Número" := FirstFilled(row, NumberColumns), "Pregunta" := FirstFilled(row, ["Pregunta"]),
        "Sección" := FirstFilled(row, SectionColumns)]
  }

  /** The section falls back to the unaccented column, then to "". */
  lemma SectionFallback(row: Row)
    ensures Get(row, "Sección", "") != "" ==> Question(row)["Sección"] == row["Sección"]
    ensures Get(row, "Sección", "") == "" ==> Question(row)["Sección"] == Get(row, "Seccion", "")
  {
    var tail: seq<string> := ["Seccion"];
    assert SectionColumns[0] == "Sección" && SectionColumns[1..] == tail;
    assert FirstFilled(row, tail) == Get(row, "Seccion", "") by {
      assert tail[0] == "Seccion" && tail[1..] == [];
    }
  }

  /** The number column: the first of three spellings that is filled, else "". */
  lemma NumberFallback(row: Row)
    ensures var n := Question(row)["Número"];
      (Get(row, "Número de Pregunta", "") != "" ==> n == row["Número de Pregunta"]) &&
      (Get(row, "Número de Pregunta", "") == "" && Get(row, "Numero de Pregunta", "") != "" ==> n == row["Numero de Pregunta"]) &&
      (Get(row, "Número de Pregunta", "") == "" && Get(row, "Numero de Pregunta", "") == "" ==> n == Get(row, "Nº de Pregunta", ""))
  {
    var tail: seq<string> := ["Numero de Pregunta", "Nº de Pregunta"];
    var last: seq<string> := ["Nº de Pregunta"];
    assert NumberColumns[0] == "Número de Pregunta" && NumberColumns[1..] == tail;
    assert tail[0] == "Numero de Pregunta" && tail[1..] == last;
    assert FirstFilled(row, last) == Get(row, "Nº de Pregunta", "") by {
      assert last[0] == "Nº de Pregunta" && last[1..] == [];
    }
  }

  /** The question list of a run over custom questions. */
  function CustomQuestion(c: Row): (q: Row)
    ensures q.Keys == {"Número", "Pregunta", "Sección"}
  {
    map["Número" := Get(c, "numero", ""), "Pregunta" := Get(c, "pregunta", ""), "Sección" := Get(c, "seccion", "")]
  }

  // ---------------------------------------------------------------------------
  // The results and the records written

  /** The answer stored for one question: an exception becomes an "Alto" answer. */
  function AnswerOf(out: Result<Answer>): Answer {
    match out
    case Ok(a) => a
    case Err(m) => Answer("Error al procesar la pregunta: " + m, Alto)
  }

  /** The result of question `q`, marked completed whatever its answer. */
  function ResultRow(q: Row, a: Answer): (row: Row)
    ensures row.Keys == {"Número", "Pregunta", "Sección", "Estado", "Respuesta", "Riesgo"}
    ensures row["Estado"] == "✅ Completado" && row["Pregunta"] == Get(q, "Pregunta", "")
    ensures row["Respuesta"] == a.respuesta && row["Riesgo"] == RiskLabel(a.riesgo)
  {
    map["Número" := Get(q, "Número", ""), "Pregunta" := Get(q, "Pregunta", ""), "Sección" := Get(q, "Sección", ""),
        "Estado" := "✅ Completado", "Respuesta" := a.respuesta, "Riesgo" := RiskLabel(a.riesgo)]
  }

  /** The answerer's output for question `q`. */
  function Ask(answer: (string, string) -> Result<Answer>, q: Row): Result<Answer> {
    answer(Get(q, "Pregunta", ""), Get(q, "Sección", ""))
  }

  /** One result per question, in order. */
  function BackupResults(po: seq<Row>, answer: (string, string) -> Result<Answer>): (rs: seq<Row>)
    ensures |rs| == |po|
  {
    seq(|po|, i requires 0 <= i < |po| => ResultRow(po[i], AnswerOf(Ask(answer, po[i]))))
  }

  const Starting := Empty.(estado := Some("iniciando"), resultados := Some([]), mensaje := Some("Iniciando análisis del documento..."))
  const Reading := Empty.(estado := Some("en_progreso"), resultados := Some([]), mensaje := Some("Leyendo archivo de preguntas..."))

  function ReadFailure(msg: string): Record {
    Empty.(estado := Some("error"), resultados := Some([]), error := Some(msg))
  }

  function Progress(po: seq<Row>, done: seq<Row>, mensaje: string): Record {
    Empty.(estado := Some("en_progreso"), preguntasOriginales := Some(po), resultados := Some(done), mensaje := Some(mensaje))
  }

  function Preparing(po: seq<Row>): Record {
    Progress(po, [], "Preparando análisis de " + IntToString(|po|) + " preguntas...")
  }

  /** Written before question `|done| + 1` is asked. */
  function Analyzing(po: seq<Row>, done: seq<Row>, pregunta: string): Record {
    Progress(po, done, "Analizando pregunta " + IntToString(|done| + 1) + "/" + IntToString(|po|) + ": " +
                       Head(pregunta, 30) + "...")
  }

  /** Written after question `|done|` is answered. */
  function Completed(po: seq<Row>, done: seq<Row>): Record {
    Progress(po, done, "Completadas " + IntToString(|done|) + "/" + IntToString(|po|) + " preguntas")
  }

  function Done(po: seq<Row>, rs: seq<Row>): Record {
    Empty.(estado := Some("completado"), preguntasOriginales := Some(po), resultados := Some(rs),
           mensaje := Some("Análisis completado exitosamente - " + IntToString(|rs|) + " preguntas procesadas"))
  }

  /** The contents dumped once the question list is known, up to the answer of
      question `i`: the first three records, then two per question. */
  function Prefix(po: seq<Row>, rs: seq<Row>, i: nat): (cs: seq<FileState>)
    requires i <= |rs| && |rs| == |po|
    ensures |cs| == 3 + 2 * i
  {
    if i == 0 then [Dict(Starting), Dict(Reading), Dict(Preparing(po))]
    else Prefix(po, rs, i - 1) + [Dict(Analyzing(po, rs[..i - 1], Get(po[i - 1], "Pregunta", "")))]
                               + [Dict(Completed(po, rs[..i]))]
  }

  /** Every content the first loop dumps, in order, when it gets past its inputs. */
  function Planned(po: seq<Row>, rs: seq<Row>): (cs: seq<FileState>)
    requires |rs| == |po|
    ensures |cs| == 2 * |po| + 4
  {
    Prefix(po, rs, |po|) + [Dict(Done(po, rs))]
  }

  /** The contents a sequence of dumps leaves, each numbered from `n` on, when every
      failure is absorbed. */
  function Outcomes(cs: seq<FileState>, n: nat, faults: map<nat, string>): (ws: seq<FileState>)
    ensures |ws| == |cs|
  {
    seq(|cs|, k requires 0 <= k < |cs| => Outcome(cs[k], n + k, faults))
  }

  /** What the first loop writes. Only the dump of the question list is unguarded: when
      it raises, the run ends; every other failed dump leaves the file truncated and
      the run goes on. */
  function BackupWrites(c: Contract, questions: Result<seq<Row>>, answer: (string, string) -> Result<Answer>,
                        n: nat, faults: map<nat, string>): seq<FileState>
  {
    if c.readError.Some? then
      Outcomes([Dict(Starting), Dict(ReadFailure("Error leyendo contrato: " + c.readError.value))], n, faults)
    else if questions.Err? then
      Outcomes([Dict(Starting), Dict(Reading), Dict(ReadFailure("Error leyendo preguntas: " + questions.message))], n, faults)
    else
      var po := seq(|questions.value|, i requires 0 <= i < |questions.value| => Question(questions.value[i]));
      var rs := BackupResults(po, answer);
      if n + 2 in faults then Outcomes(Prefix(po, rs, 0), n, faults) else Outcomes(Planned(po, rs), n, faults)
  }

  /** One more dump, absorbed or not. */
  method DumpAfter(f: ProgressFile, c: FileState, ghost cs: seq<FileState>, ghost n0: nat, ghost w0: seq<FileState>)
    returns (err: Option<string>)
    requires f.writes == w0 + Outcomes(cs, n0, f.faults) && f.count == n0 + |cs|
    modifies f
    ensures f.writes == w0 + Outcomes(cs + [c], n0, f.faults) && f.count == n0 + |cs| + 1
    ensures f.state == Outcome(c, n0 + |cs|, f.faults) && f.writes[|f.writes| - 1] == f.state
    ensures err.Some? <==> n0 + |cs| in f.faults
  {
    err := f.Dump(c);
    assert Outcomes(cs + [c], n0, f.faults) == Outcomes(cs, n0, f.faults) + [Outcome(c, n0 + |cs|, f.faults)];
  }

  /** `analizar_documento` of this version. */
  method AnalyzeDocumentBackup(f: ProgressFile, c: Contract, questions: Result<seq<Row>>, env: Env, oracle: Oracle,
                               textAnswer: (string, string) -> Result<Answer>)
    modifies f
    ensures var ws := BackupWrites(c, questions, Answerer(c, env, oracle, textAnswer), old(f.count), f.faults);
      f.writes == old(f.writes) + ws && f.count == old(f.count) + |ws| && f.state == After(old(f.state), ws)
  {
    var answer := Answerer(c, env, oracle, textAnswer);
    BackupRun(f, c, questions, answer);
  }

  /** The first run with the answering function chosen. */
  method BackupRun(f: ProgressFile, c: Contract, questions: Result<seq<Row>>, answer: (string, string) -> Result<Answer>)
    modifies f
    ensures var ws := BackupWrites(c, questions, answer, old(f.count), f.faults);
      f.writes == old(f.writes) + ws && f.count == old(f.count) + |ws| && f.state == After(old(f.state), ws)
  {
    ghost var n0, w0, s0 := f.count, f.writes, f.state;
    assert Outcomes([], n0, f.faults) == [];
    var _ := DumpAfter(f, Dict(Starting), [], n0, w0);
    ghost var ws: seq<FileState>;
    if c.readError.Some? {
      ws := DumpReadFailure(f, [Dict(Starting)], "Error leyendo contrato: " + c.readError.value, n0, w0, s0);
      BackupWritesUnreadable(c, questions, answer, n0, f.faults);
    } else {
      ws := BackupAfterContract(f, questions, answer, n0, w0, s0);
      if questions.Err? {
        BackupWritesNoQuestions(c, questions, answer, n0, f.faults);
      } else {
        BackupWritesQuestions(c, questions, answer, n0, f.faults, seq(|questions.value|, i requires 0 <= i < |questions.value| => Question(questions.value[i])));
      }
    }
  }

  /** After a non-empty sequence of writes the file holds the last one. */
  lemma AfterLast(s0: FileState, ws: seq<FileState>)
    requires ws != []
    ensures After(s0, ws) == ws[|ws| - 1]
  {
  }

  /** The first run once the contract has been read: the question sheet, then the
      questions. */
  method BackupAfterContract(f: ProgressFile, questions: Result<seq<Row>>,
                             answer: (string, string) -> Result<Answer>, ghost n0: nat, ghost w0: seq<FileState>, ghost s0: FileState)
    returns (ghost ws: seq<FileState>)
    requires f.writes == w0 + Outcomes([Dict(Starting)], n0, f.faults) && f.count == n0 + 1
    modifies f
    ensures questions.Err? ==>
      ws == Outcomes([Dict(Starting), Dict(Reading)] + [Dict(ReadFailure("Error leyendo preguntas: " + questions.message))], n0, f.faults)
    ensures questions.Ok? ==> var po := seq(|questions.value|, i requires 0 <= i < |questions.value| => Question(questions.value[i]));
      ws == (if n0 + 2 in f.faults then Outcomes(Prefix(po, BackupResults(po, answer), 0), n0, f.faults)
             else Outcomes(Planned(po, BackupResults(po, answer)), n0, f.faults))
    ensures f.writes == w0 + ws && f.count == n0 + |ws| && f.state == After(s0, ws)
  {
    var _ := DumpAfter(f, Dict(Reading), [Dict(Starting)], n0, w0);
    assert [Dict(Starting)] + [Dict(Reading)] == [Dict(Starting), Dict(Reading)];
    if questions.Err? {
      ws := DumpReadFailure(f, [Dict(Starting), Dict(Reading)], "Error leyendo preguntas: " + questions.message, n0, w0, s0);
    } else {
      var po := QuestionList(questions.value);
      ws := QuestionsBackup(f, po, answer, n0, w0);
      AfterLast(s0, ws);
    }
  }

  /** The error record written when an input cannot be read, after the dumps `cs`. */
  method DumpReadFailure(f: ProgressFile, cs: seq<FileState>, message: string, ghost n0: nat, ghost w0: seq<FileState>, ghost s0: FileState)
    returns (ghost ws: seq<FileState>)
    requires f.writes == w0 + Outcomes(cs, n0, f.faults) && f.count == n0 + |cs|
    modifies f
    ensures ws == Outcomes(cs + [Dict(ReadFailure(message))], n0, f.faults)
    ensures f.writes == w0 + ws && f.count == n0 + |ws| && f.state == After(s0, ws)
  {
    var _ := DumpAfter(f, Dict(ReadFailure(message)), cs, n0, w0);
    ws := Outcomes(cs + [Dict(ReadFailure(message))], n0, f.faults);
    AfterLast(s0, ws);
  }

  /** The writes of a run whose contract cannot be read. */
  lemma BackupWritesUnreadable(c: Contract, questions: Result<seq<Row>>, answer: (string, string) -> Result<Answer>,
                               n: nat, faults: map<nat, string>)
    requires c.readError.Some?
    ensures BackupWrites(c, questions, answer, n, faults) ==
            Outcomes([Dict(Starting)] + [Dict(ReadFailure("Error leyendo contrato: " + c.readError.value))], n, faults)
  {
    assert [Dict(Starting)] + [Dict(ReadFailure("Error leyendo contrato: " + c.readError.value))] ==
           [Dict(Starting), Dict(ReadFailure("Error leyendo contrato: " + c.readError.value))];
  }

  /** The writes of a run whose question sheet cannot be read. */
  lemma BackupWritesNoQuestions(c: Contract, questions: Result<seq<Row>>, answer: (string, string) -> Result<Answer>,
                                n: nat, faults: map<nat, string>)
    requires c.readError.None? && questions.Err?
    ensures BackupWrites(c, questions, answer, n, faults) ==
            Outcomes([Dict(Starting), Dict(Reading)] + [Dict(ReadFailure("Error leyendo preguntas: " + questions.message))], n, faults)
  {
    assert [Dict(Starting), Dict(Reading)] + [Dict(ReadFailure("Error leyendo preguntas: " + questions.message))] ==
           [Dict(Starting), Dict(Reading), Dict(ReadFailure("Error leyendo preguntas: " + questions.message))];
  }

  /** The writes of a run that gets past its inputs. */
  lemma BackupWritesQuestions(c: Contract, questions: Result<seq<Row>>, answer: (string, string) -> Result<Answer>,
                              n: nat, faults: map<nat, string>, po: seq<Row>)
    requires c.readError.None? && questions.Ok?
    requires po == seq(|questions.value|, i requires 0 <= i < |questions.value| => Question(questions.value[i]))
    ensures BackupWrites(c, questions, answer, n, faults) ==
            (if n + 2 in faults then Outcomes(Prefix(po, BackupResults(po, answer), 0), n, faults)
             else Outcomes(Planned(po, BackupResults(po, answer)), n, faults))
  {
  }

  /** The part of the first run after the question sheet has been read. */
  method QuestionsBackup(f: ProgressFile, po: seq<Row>, answer: (string, string) -> Result<Answer>,
                         ghost n0: nat, ghost w0: seq<FileState>)
    returns (ghost ws: seq<FileState>)
    requires f.writes == w0 + Outcomes([Dict(Starting), Dict(Reading)], n0, f.faults) && f.count == n0 + 2
    modifies f
    ensures ws == (if n0 + 2 in f.faults then Outcomes(Prefix(po, BackupResults(po, answer), 0), n0, f.faults)
                   else Outcomes(Planned(po, BackupResults(po, answer)), n0, f.faults))
    ensures f.writes == w0 + ws && f.count == n0 + |ws| && ws != [] && f.state == ws[|ws| - 1]
  {
    ghost var cs := Prefix(po, BackupResults(po, answer), 0);
    var err := DumpAfter(f, Dict(Preparing(po)), [Dict(Starting), Dict(Reading)], n0, w0);
    assert [Dict(Starting), Dict(Reading)] + [Dict(Preparing(po))] == cs;
    if err.Some? {
      ws := Outcomes(cs, n0, f.faults);
      OutcomesLast(cs, n0, f.faults);
      return;
    }
    BackupLoop(f, po, answer, n0, w0);
    ghost var planned := Planned(po, BackupResults(po, answer));
    ws := Outcomes(planned, n0, f.faults);
    assert planned[|planned| - 1] == Dict(Done(po, BackupResults(po, answer)));
    OutcomesLast(planned, n0, f.faults);
  }

  /** `preguntas_originales`: the question of every row of the sheet, in order. */
  method QuestionList(rows: seq<Row>) returns (po: seq<Row>)
    ensures po == seq(|rows|, i requires 0 <= i < |rows| => Question(rows[i]))
  {
    po := [];
    for i := 0 to |rows|
      invariant |po| == i
      invariant forall j :: 0 <= j < i ==> po[j] == Question(rows[j])
    {
      po := po + [Question(rows[i])];
    }
  }

  /** The last of a sequence of absorbed dumps. */
  lemma OutcomesLast(cs: seq<FileState>, n: nat, faults: map<nat, string>)
    requires cs != []
    ensures Outcomes(cs, n, faults)[|cs| - 1] == Outcome(cs[|cs| - 1], n + |cs| - 1, faults)
  {
  }


  /** The question loop of the first run, once the question list is on disk. */
  method BackupLoop(f: ProgressFile, po: seq<Row>, answer: (string, string) -> Result<Answer>,
                    ghost n0: nat, ghost w0: seq<FileState>)
    requires f.writes == w0 + Outcomes(Prefix(po, BackupResults(po, answer), 0), n0, f.faults) && f.count == n0 + 3
    modifies f
    ensures f.writes == w0 + Outcomes(Planned(po, BackupResults(po, answer)), n0, f.faults)
    ensures f.count == n0 + 2 * |po| + 4 && f.state == Outcome(Dict(Done(po, BackupResults(po, answer))), n0 + 2 * |po| + 3, f.faults)
  {
    ghost var rs := BackupResults(po, answer);
    var resultados := [];
    for i := 0 to |po|
      invariant resultados == rs[..i]
      invariant f.writes == w0 + Outcomes(Prefix(po, rs, i), n0, f.faults) && f.count == n0 + 3 + 2 * i
    {
      resultados := BackupQuestion(f, po, answer, resultados, i, n0, w0);
    }
    assert resultados == rs;
    var _ := DumpAfter(f, Dict(Done(po, resultados)), Prefix(po, rs, |po|), n0, w0);
  }

  /** One pass of the question loop: the record announcing question `i`, the answer,
      and the record counting it done. */
  method BackupQuestion(f: ProgressFile, po: seq<Row>, answer: (string, string) -> Result<Answer>,
                        done: seq<Row>, i: nat, ghost n0: nat, ghost w0: seq<FileState>)
    returns (resultados: seq<Row>)
    requires i < |po| && done == BackupResults(po, answer)[..i]
    requires f.writes == w0 + Outcomes(Prefix(po, BackupResults(po, answer), i), n0, f.faults)
    requires f.count == n0 + 3 + 2 * i
    modifies f
    ensures resultados == BackupResults(po, answer)[..i + 1]
    ensures f.writes == w0 + Outcomes(Prefix(po, BackupResults(po, answer), i + 1), n0, f.faults)
    ensures f.count == n0 + 3 + 2 * (i + 1)
  {
    ghost var rs := BackupResults(po, answer);
    ghost var cs := Prefix(po, rs, i);
    var pregunta := Get(po[i], "Pregunta", "");
    var analyzing := Dict(Analyzing(po, done, pregunta));
    var _ := DumpAfter(f, analyzing, cs, n0, w0);
    var salida := answer(pregunta, Get(po[i], "Sección", ""));
    var r := ResultRow(po[i], AnswerOf(salida));
    assert r == rs[i];
    TakeSnoc(rs, i);
    resultados := done + [r];
    var completed := Dict(Completed(po, resultados));
    var _ := DumpAfter(f, completed, cs + [analyzing], n0, w0);
    assert cs + [analyzing] + [completed] == Prefix(po, rs, i + 1);
  }

  /** With no failed dump, the file goes through every planned content: after question
      `k` it holds exactly the first `k` results, each marked completed and carrying its
      question; at the end it holds all of them with the question list. */
  lemma BackupFaultFree(po: seq<Row>, answer: (string, string) -> Result<Answer>, k: int)
    requires 0 < k <= |po|
    ensures var rs := BackupResults(po, answer);
      var last := Prefix(po, rs, k)[2 * k + 2];
      last.Dict? && last.rec.resultados == Some(rs[..k]) && last.rec.estado == Some("en_progreso") &&
      |rs[..k]| == k && rs[k - 1]["Estado"] == "✅ Completado" && rs[k - 1]["Pregunta"] == Get(po[k - 1], "Pregunta", "")
    ensures var rs := BackupResults(po, answer);
      var cs := Planned(po, rs);
      cs[|cs| - 1] == Dict(Done(po, rs)) && Done(po, rs).estado == Some("completado") &&
      Done(po, rs).preguntasOriginales == Some(po) && Done(po, rs).resultados == Some(rs)
  {
  }

  /** A question whose answerer raises is stored as an "Alto" answer with the message,
      and the run goes on to the next question. */
  lemma BackupAbsorbsQuestionFailure(po: seq<Row>, answer: (string, string) -> Result<Answer>, k: int)
    requires 0 <= k < |po| && Ask(answer, po[k]).Err?
    ensures var r := BackupResults(po, answer)[k];
      r["Riesgo"] == "Alto" && r["Respuesta"] == "Error al procesar la pregunta: " + Ask(answer, po[k]).message
  {
  }

  /** Once the question list is on disk, failed dumps do not shorten the run: there
      are always two dumps per question and a final one, and the last is the final
      record unless that dump itself fails. */
  lemma BackupAbsorbsDumpFailures(c: Contract, rows: seq<Row>, answer: (string, string) -> Result<Answer>,
                                  n: nat, faults: map<nat, string>)
    requires c.readError.None? && n + 2 !in faults
    ensures var ws := BackupWrites(c, Ok(rows), answer, n, faults);
      var po := seq(|rows|, i requires 0 <= i < |rows| => Question(rows[i]));
      |ws| == 2 * |rows| + 4 &&
      ws[|ws| - 1] == Outcome(Dict(Done(po, BackupResults(po, answer))), n + 2 * |rows| + 3, faults)
  {
    var po := seq(|rows|, i requires 0 <= i < |rows| => Question(rows[i]));
    BackupWritesQuestions(c, Ok(rows), answer, n, faults, po);
    PlannedWritesLast(po, BackupResults(po, answer), n, faults);
  }

  /** The writes of a full first run end with the final record, as written or
      truncated. */
  lemma PlannedWritesLast(po: seq<Row>, rs: seq<Row>, n: nat, faults: map<nat, string>)
    requires |rs| == |po|
    ensures var ws := Outcomes(Planned(po, rs), n, faults);
      |ws| == 2 * |po| + 4 && ws[|ws| - 1] == Outcome(Dict(Done(po, rs)), n + 2 * |po| + 3, faults)
  {
    assert Planned(po, rs)[2 * |po| + 3] == Dict(Done(po, rs));
    OutcomesLast(Planned(po, rs), n, faults);
  }

  // ---------------------------------------------------------------------------
  // The run over custom questions: analizar_documento_con_preguntas_custom

  /** The index of the first question whose answerer raises, or the number of questions. */
  function FirstRaise(po: seq<Row>, answer: (string, string) -> Result<Answer>): (m: nat)
    ensures m <= |po|
    ensures forall j :: 0 <= j < m ==> Ask(answer, po[j]).Ok?
    ensures m < |po| ==> Ask(answer, po[m]).Err?
  {
    if po == [] then 0
    else if Ask(answer, po[0]).Err? then 0
    else
      var m := FirstRaise(po[1..], answer);
      assert forall j :: 1 <= j < |po| ==> po[j] == po[1..][j - 1];
      1 + m
  }

  function CustomSnapshot(po: seq<Row>, done: seq<Row>): Record {
    Empty.(estado := Some("en_progreso"), preguntasOriginales := Some(po), resultados := Some(done))
  }

  function CustomFinal(po: seq<Row>, rs: seq<Row>): Record {
    Empty.(estado := Some("completado"), preguntasOriginales := Some(po), resultados := Some(rs))
  }

  /** The steps of the run once the contract is read: the empty record, one snapshot
      per answered question, then the final record, or the exception of the first
      question that raised. */
  function CustomRunPlan(po: seq<Row>, answer: (string, string) -> Result<Answer>): (plan: seq<Step>)
    ensures |plan| == FirstRaise(po, answer) + 2
  {
    var m := FirstRaise(po, answer);
    var rs := BackupResults(po, answer);
    seq(m + 2, j requires 0 <= j < m + 2 =>
      if j <= m then Put(Dict(CustomSnapshot(po, rs[..j])))
      else if m < |po| then Throw(Ask(answer, po[m]).message)
      else Put(Dict(CustomFinal(po, rs))))
  }

  /** Step `j` of the plan, up to the first answer that raises: a snapshot of the
      first `j` results. */
  lemma CustomPlanPut(po: seq<Row>, answer: (string, string) -> Result<Answer>, j: nat)
    requires j <= FirstRaise(po, answer)
    ensures CustomRunPlan(po, answer)[j] == Put(Dict(CustomSnapshot(po, BackupResults(po, answer)[..j])))
  {
  }

  /** The last step of the plan: the exception of the answer that raises, or the
      final record. */
  lemma CustomPlanEnd(po: seq<Row>, answer: (string, string) -> Result<Answer>)
    ensures var m := FirstRaise(po, answer);
      CustomRunPlan(po, answer)[m + 1] ==
        (if m < |po| then Throw(Ask(answer, po[m]).message) else Put(Dict(CustomFinal(po, BackupResults(po, answer)))))
  {
  }

  function CustomPlan(c: Contract, custom: seq<Row>, answer: (string, string) -> Result<Answer>): seq<Step> {
    if c.readError.Some? then [Put(Dict(ReadFailure("Error leyendo contrato: " + c.readError.value)))]
    else CustomRunPlan(seq(|custom|, i requires 0 <= i < |custom| => CustomQuestion(custom[i])), answer)
  }

  /** `analizar_documento_con_preguntas_custom` of this version; `err` is the exception
      that ends the background task, if any. */
  method AnalyzeCustomBackup(f: ProgressFile, c: Contract, custom: seq<Row>, env: Env, oracle: Oracle,
                             textAnswer: (string, string) -> Result<Answer>) returns (err: Option<string>)
    modifies f
    ensures Ran(f, CustomPlan(c, custom, Answerer(c, env, oracle, textAnswer)), old(f.count), old(f.writes), old(f.state), err)
  {
    ghost var n0, w0, s0 := f.count, f.writes, f.state;
    var answer := Answerer(c, env, oracle, textAnswer);
    ghost var plan := CustomPlan(c, custom, answer);
    RanNothing(f);
    assert plan[..0] == [];
    if c.readError.Some? {
      err := DumpNext(f, Dict(ReadFailure("Error leyendo contrato: " + c.readError.value)), plan, 0, n0, w0, s0);
      RanStopped(f, plan, 1, n0, w0, s0, err);
      return;
    }
    var po := CustomQuestionList(custom);
    err := CustomLoop(f, po, answer, plan, n0, w0, s0);
  }

  /** One pass of the loop over the custom questions: the answer, then the snapshot
      with it; `stop` when the answerer raised or the dump failed. */
  method CustomTurn(f: ProgressFile, po: seq<Row>, answer: (string, string) -> Result<Answer>, done: seq<Row>, i: nat,
                    ghost plan: seq<Step>, ghost n0: nat, ghost w0: seq<FileState>, ghost s0: FileState)
    returns (resultados: seq<Row>, err: Option<string>, stop: bool)
    requires plan == CustomRunPlan(po, answer)
    requires i < |po| && i <= FirstRaise(po, answer) && done == BackupResults(po, answer)[..i]
    requires Ran(f, plan[..i + 1], n0, w0, s0, None)
    modifies f
    ensures stop ==> Ran(f, plan, n0, w0, s0, err)
    ensures !stop ==> i < FirstRaise(po, answer) && resultados == BackupResults(po, answer)[..i + 1] &&
                      err == None && Ran(f, plan[..i + 2], n0, w0, s0, None)
  {
    ghost var m := FirstRaise(po, answer);
    ghost var rs := BackupResults(po, answer);
    var salida := Ask(answer, po[i]);
    if salida.Err? {
      assert i == m;
      CustomPlanEnd(po, answer);
      RanThrow(f, plan, i + 1, n0, w0, s0);
      RanStopped(f, plan, i + 2, n0, w0, s0, Some(salida.message));
      return done, Some(salida.message), true;
    }
    assert i < m;
    var r := ResultRow(po[i], salida.value);
    assert r == rs[i];
    TakeSnoc(rs, i);
    resultados := done + [r];
    CustomPlanPut(po, answer, i + 1);
    err := DumpNext(f, Dict(CustomSnapshot(po, resultados)), plan, i + 1, n0, w0, s0);
    stop := err.Some?;
    if stop {
      RanStopped(f, plan, i + 2, n0, w0, s0, err);
    }
  }

  /** `preguntas_originales` of a run over custom questions. */
  method CustomQuestionList(custom: seq<Row>) returns (po: seq<Row>)
    ensures po == seq(|custom|, i requires 0 <= i < |custom| => CustomQuestion(custom[i]))
  {
    po := [];
    for i := 0 to |custom|
      invariant |po| == i
      invariant forall j :: 0 <= j < i ==> po[j] == CustomQuestion(custom[j])
    {
      po := po + [CustomQuestion(custom[i])];
    }
  }

  /** The loop over the custom questions: a snapshot after each answer, and no
      handler around the answerer. */
  method CustomLoop(f: ProgressFile, po: seq<Row>, answer: (string, string) -> Result<Answer>,
                    ghost plan: seq<Step>, ghost n0: nat, ghost w0: seq<FileState>, ghost s0: FileState)
    returns (err: Option<string>)
    requires plan == CustomRunPlan(po, answer) && Ran(f, plan[..0], n0, w0, s0, None)
    modifies f
    ensures Ran(f, plan, n0, w0, s0, err)
  {
    ghost var m := FirstRaise(po, answer);
    ghost var rs := BackupResults(po, answer);
    CustomPlanPut(po, answer, 0);
    assert rs[..0] == [];
    err := DumpNext(f, Dict(CustomSnapshot(po, [])), plan, 0, n0, w0, s0);
    if err.Some? {
      RanStopped(f, plan, 1, n0, w0, s0, err);
      return;
    }
    var resultados := [];
    for i := 0 to |po|
      invariant i <= m
      invariant resultados == rs[..i]
      invariant Ran(f, plan[..i + 1], n0, w0, s0, None)
    {
      var stop;
      resultados, err, stop := CustomTurn(f, po, answer, resultados, i, plan, n0, w0, s0);
      if stop {
        return;
      }
    }
    assert resultados == rs && m == |po|;
    CustomPlanEnd(po, answer);
    err := DumpNext(f, Dict(CustomFinal(po, resultados)), plan, |po| + 1, n0, w0, s0);
    RanStopped(f, plan, |po| + 2, n0, w0, s0, err);
  }
}
