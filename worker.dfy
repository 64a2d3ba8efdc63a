/** The batch engine (fastapi_backend/worker.py): the full run over a question list,
    the overwrite of one question and the overwrite of all questions, each rewriting
    the progress file as it goes. The methods are proved against plan functions: the
    sequence of dumps a run intends, which `Records.Execute` cuts at the first
    exception. */
module Worker {
  import opened Text
  import opened Records
  import opened WorkerAnswer

  /** The keys a question row is read with: the spreadsheet's columns, or the keys of
      the questions a client sends. */
  datatype Keys = Keys(pregunta: string, seccion: string)

  const SheetKeys := Keys("Pregunta", "Sección")
  const CustomKeys := Keys("pregunta", "seccion")

  /** `analizar_pregunta` once the contract has been read: from a question and its
      section to the answer stored for them. */
  type Analyzer = (string, string) -> Answer

  function AnalyzerFor(env: Env, pdf: Pages, model: Model): Analyzer {
    (pregunta, seccion) => AnalyzeQuestion(env, pdf, model, pregunta, seccion)
  }

  /** Reading the contract's bytes: the exception, or the analyser bound to them. */
  function ContractAnalyzer(contract: Result<Pages>, env: Env, model: Model): Result<Analyzer> {
    match contract
    case Err(m) => Err(m)
    case Ok(pdf) => Ok(AnalyzerFor(env, pdf, model))
  }

  // ---------------------------------------------------------------------------
  // Full run: analizar_documento and analizar_documento_con_preguntas_custom

  /** The entry stored for one question: the answer, plus its question and section. */
  function ResultFor(analyze: Analyzer, keys: Keys, q: Row): Row {
    var pregunta := Get(q, keys.pregunta, "");
    var seccion := Get(q, keys.seccion, "Sin sección");
    AnswerRow(analyze(pregunta, seccion)) + map["Pregunta" := pregunta, "Sección" := seccion]
  }

  function Results(analyze: Analyzer, keys: Keys, qs: seq<Row>): (rs: seq<Row>)
    ensures |rs| == |qs|
    ensures forall k :: 0 <= k < |qs| ==> rs[k] == ResultFor(analyze, keys, qs[k])
  {
    seq(|qs|, k requires 0 <= k < |qs| => ResultFor(analyze, keys, qs[k]))
  }

  /** The record written before the first question. */
  function Initial(qs: seq<Row>, now: string): Record {
    Empty.(estado := Some("en_progreso"), progreso := Some(0), totalPreguntas := Some(|qs|),
           resultados := Some([]), preguntasOriginales := Some(qs), extra := map["fecha_inicio" := now])
  }

  /** The record written after the first `k` questions. */
  function Snapshot(qs: seq<Row>, rs: seq<Row>, k: nat, now: string): Record
    requires k <= |rs|
  {
    var init := Initial(qs, now);
    if k == 0 then init
    else init.(progreso := Some(k), resultados := Some(rs[..k]), extra := init.extra["fecha_modificacion" := now])
  }

  /** One more question answered. */
  lemma SnapshotNext(qs: seq<Row>, rs: seq<Row>, k: nat, now: string)
    requires k < |rs|
    ensures var s := Snapshot(qs, rs, k, now);
      s.(progreso := Some(k + 1), resultados := Some(rs[..k + 1]), extra := s.extra["fecha_modificacion" := now])
        == Snapshot(qs, rs, k + 1, now)
  {
    var init := Initial(qs, now);
    if k > 0 {
      assert init.extra["fecha_modificacion" := now]["fecha_modificacion" := now] == init.extra["fecha_modificacion" := now];
    }
  }

  /** The record written at the end of a run. */
  function Final(qs: seq<Row>, rs: seq<Row>, now: string): Record {
    var last := Snapshot(qs, rs, |rs|, now);
    last.(estado := Some("completado"), numResultados := Some(|rs|), extra := last.extra["fecha_finalizacion" := now])
  }

  /** The record that replaces everything when a full run fails. */
  function ErrorRecord(msg: string, now: string): (r: Record)
    ensures r.estado == Some("error") && r.error == Some(msg) && r.resultados == Some([])
    ensures r.progreso.None? && r.totalPreguntas.None? && r.preguntasOriginales.None? && r.numResultados.None?
    ensures r.extra.Keys == {"fecha_error"} && r.extra["fecha_error"] == now
  {
    Empty.(estado := Some("error"), resultados := Some([]), error := Some(msg), extra := map["fecha_error" := now])
  }

  /** The dumps of a run that reads its inputs successfully: the initial record, one
      snapshot per question and the final record. */
  function RunPlan(qs: seq<Row>, rs: seq<Row>, now: string): (plan: seq<Step>)
    requires |rs| == |qs|
    ensures |plan| == |qs| + 2
  {
    seq(|qs| + 2, j requires 0 <= j < |qs| + 2 =>
      Put(Dict(if j <= |qs| then Snapshot(qs, rs, j, now) else Final(qs, rs, now))))
  }

  /** The plan of a full run: reading the questions or the contract can raise first. */
  function FullRunPlan(questions: Result<seq<Row>>, contract: Result<Analyzer>, keys: Keys, now: string): seq<Step> {
    match questions
    case Err(m) => [Throw(m)]
    case Ok(qs) =>
      match contract
      case Err(m) => [Throw(m)]
      case Ok(analyze) => RunPlan(qs, Results(analyze, keys, qs), now)
  }

  /** The dumps a full run performs: its plan up to the first exception, then the error
      record. */
  function FullRunWrites(plan: seq<Step>, n: nat, faults: map<nat, string>, now: string): seq<FileState> {
    var x := Execute(plan, n, faults);
    x.0 + (if x.1.Some? then [Outcome(Dict(ErrorRecord(x.1.value, now)), n + |x.0|, faults)] else [])
  }

  /** The question loop with its dumps; returns the exception that stopped it. */
  method RunQuestions(f: ProgressFile, qs: seq<Row>, analyze: Analyzer, keys: Keys, now: string)
    returns (err: Option<string>)
    modifies f
    ensures Ran(f, RunPlan(qs, Results(analyze, keys, qs), now), old(f.count), old(f.writes), old(f.state), err)
  {
    ghost var rs := Results(analyze, keys, qs);
    ghost var plan := RunPlan(qs, rs, now);
    ghost var n0, w0, s0 := f.count, f.writes, f.state;
    RanNothing(f);
    var data := Initial(qs, now);
    err := DumpNext(f, Dict(data), plan, 0, n0, w0, s0);
    var resultados: seq<Row> := [];
    var idx := 0;
    while idx < |qs| && err.None?
      invariant 0 <= idx <= |qs|
      invariant resultados == rs[..idx]
      invariant data == Snapshot(qs, rs, idx, now)
      invariant Ran(f, plan[..idx + 1], n0, w0, s0, err)
    {
      var resultado := ResultFor(analyze, keys, qs[idx]);
      resultados := resultados + [resultado];
      assert resultados == rs[..idx + 1];
      SnapshotNext(qs, rs, idx, now);
      data := data.(progreso := Some(idx + 1), resultados := Some(resultados),
                    extra := data.extra["fecha_modificacion" := now]);
      err := DumpNext(f, Dict(data), plan, idx + 1, n0, w0, s0);
      idx := idx + 1;
    }
    if err.None? {
      assert data == Snapshot(qs, rs, |rs|, now);
      data := data.(estado := Some("completado"), numResultados := Some(|resultados|),
                    extra := data.extra["fecha_finalizacion" := now]);
      assert data == Final(qs, rs, now);
      assert plan[|qs| + 1] == Put(Dict(data));
      err := DumpNext(f, Dict(data), plan, |qs| + 1, n0, w0, s0);
      RanStopped(f, plan, |qs| + 2, n0, w0, s0, err);
    } else {
      RanStopped(f, plan, idx + 1, n0, w0, s0, err);
    }
  }

  /** `analizar_documento`: the questions come from the spreadsheet, which is read
      before the contract. */
  method AnalyzeDocument(f: ProgressFile, questions: Result<seq<Row>>, contract: Result<Pages>,
                         env: Env, model: Model, now: string)
    modifies f
    ensures var w := FullRunWrites(FullRunPlan(questions, ContractAnalyzer(contract, env, model), SheetKeys, now),
                                   old(f.count), f.faults, now);
      f.writes == old(f.writes) + w && f.state == After(old(f.state), w)
  {
    RunWithFallback(f, questions, ContractAnalyzer(contract, env, model), SheetKeys, now);
  }

  /** `analizar_documento_con_preguntas_custom`: the questions are given. */
  method AnalyzeCustom(f: ProgressFile, preguntas: seq<Row>, contract: Result<Pages>,
                       env: Env, model: Model, now: string)
    modifies f
    ensures var w := FullRunWrites(FullRunPlan(Ok(preguntas), ContractAnalyzer(contract, env, model), CustomKeys, now),
                                   old(f.count), f.faults, now);
      f.writes == old(f.writes) + w && f.state == After(old(f.state), w)
  {
    RunWithFallback(f, Ok(preguntas), ContractAnalyzer(contract, env, model), CustomKeys, now);
  }

  /** The body both full runs share, with the handler that writes the error record. */
  method RunWithFallback(f: ProgressFile, questions: Result<seq<Row>>, contract: Result<Analyzer>, keys: Keys, now: string)
    modifies f
    ensures var w := FullRunWrites(FullRunPlan(questions, contract, keys, now), old(f.count), f.faults, now);
      f.writes == old(f.writes) + w && f.state == After(old(f.state), w)
  {
    var err: Option<string>;
    ghost var plan := FullRunPlan(questions, contract, keys, now);
    ghost var n0 := f.count;
    if questions.Err? {
      err := Some(questions.message);
    } else if contract.Err? {
      err := Some(contract.message);
    } else {
      err := RunQuestions(f, questions.value, contract.value, keys, now);
    }
    if err.Some? {
      var _ := f.Dump(Dict(ErrorRecord(err.value, now)));
    }
  }

  /** After question `i` is persisted the record counts `i + 1` answered questions and
      holds their results in question order, each with its question and section. */
  lemma PersistedAfterQuestion(qs: seq<Row>, analyze: Analyzer, keys: Keys, now: string, i: int, k: int)
    requires 0 <= k <= i < |qs|
    ensures var s := Snapshot(qs, Results(analyze, keys, qs), i + 1, now);
      && s.estado == Some("en_progreso") && s.progreso == Some(i + 1)
      && s.totalPreguntas == Some(|qs|) && s.preguntasOriginales == Some(qs)
      && s.resultados.Some? && |s.resultados.value| == i + 1
      && s.resultados.value[k]["Pregunta"] == Get(qs[k], keys.pregunta, "")
      && s.resultados.value[k]["Sección"] == Get(qs[k], keys.seccion, "Sin sección")
  {
  }

  /** The final record: "completado", with progreso, total_preguntas and num_resultados
      all equal to the number of questions. */
  lemma FinalCompletes(qs: seq<Row>, analyze: Analyzer, keys: Keys, now: string)
    ensures var s := Final(qs, Results(analyze, keys, qs), now);
      && s.estado == Some("completado")
      && s.progreso == s.totalPreguntas == s.numResultados == Some(|qs|)
      && s.resultados == Some(Results(analyze, keys, qs))
  {
    var rs := Results(analyze, keys, qs);
    assert rs[..|rs|] == rs;
  }

  /** When nothing raises, a poller sees the initial record, then the snapshot after each
      question in turn, then the final record. */
  lemma FullRunFaultFree(qs: seq<Row>, analyze: Analyzer, keys: Keys, now: string,
                         n: nat, faults: map<nat, string>)
    requires forall k :: n <= k < n + |qs| + 2 ==> k !in faults
    ensures var w := FullRunWrites(FullRunPlan(Ok(qs), Ok(analyze), keys, now), n, faults, now);
      var rs := Results(analyze, keys, qs);
      && |w| == |qs| + 2
      && (forall k :: 0 <= k <= |qs| ==> w[k] == Dict(Snapshot(qs, rs, k, now)))
      && w[|qs| + 1] == Dict(Final(qs, rs, now))
  {
    var rs := Results(analyze, keys, qs);
    ExecuteFaultFree(RunPlan(qs, rs, now), n, faults);
  }

  /** A failed full run leaves an error record with no results, whatever had been
      persisted before (unless that last dump fails too). */
  lemma FullRunFailureDiscards(plan: seq<Step>, n: nat, faults: map<nat, string>, now: string)
    requires Execute(plan, n, faults).1.Some?
    ensures var w := FullRunWrites(plan, n, faults, now);
      var last := w[|w| - 1];
      last == Corrupt ||
      (last.Dict? && last.rec.estado == Some("error") && last.rec.resultados == Some([]) &&
       last.rec.error == Execute(plan, n, faults).1 && last.rec.progreso.None? &&
       last.rec.preguntasOriginales.None?)
  {
  }

  // ---------------------------------------------------------------------------
  // The handler shared by both overwrites

  /** The record as the handler leaves it: only estado, error and fecha_modificacion change. */
  function Marked(r: Record, msg: string, now: string): Record {
    r.(estado := Some("error"), error := Some(msg), extra := r.extra["fecha_modificacion" := now])
  }

  /** The handler re-reads the file; if that yields an object it marks it as failed
      and dumps it, otherwise it gives up silently. */
  function MarkError(current: FileState, msg: string, n: nat, faults: map<nat, string>, now: string): seq<FileState> {
    if current.Dict? then [Outcome(Dict(Marked(current.rec, msg, now)), n, faults)] else []
  }

  /** The dumps of an overwrite: its plan up to the first exception, then the handler. */
  function RerunWrites(start: FileState, plan: seq<Step>, n: nat, faults: map<nat, string>,
                       prefix: string, now: string): seq<FileState> {
    var x := Execute(plan, n, faults);
    x.0 + (if x.1.Some? then MarkError(After(start, x.0), prefix + x.1.value, n + |x.0|, faults, now) else [])
  }

  /** The `except` branch of both overwrites: re-read the file and, if it holds an
      object, mark it as failed. */
  method MarkFailed(f: ProgressFile, err: Option<string>, prefix: string, now: string,
                    ghost plan: seq<Step>, ghost n0: nat, ghost w0: seq<FileState>, ghost s0: FileState)
    requires Ran(f, plan, n0, w0, s0, err)
    modifies f
    ensures var w := RerunWrites(s0, plan, n0, f.faults, prefix, now);
      f.writes == w0 + w && f.state == After(s0, w)
  {
    if err.Some? {
      var current := f.state;
      if current.Dict? {
        var _ := f.Dump(Dict(Marked(current.rec, prefix + err.value, now)));
      }
    }
  }

  /** The handler changes nothing but estado, error and fecha_modificacion. */
  lemma MarkedKeepsData(r: Record, msg: string, now: string)
    ensures var m := Marked(r, msg, now);
      && m.estado == Some("error") && m.error == Some(msg)
      && m.resultados == r.resultados && m.progreso == r.progreso && m.totalPreguntas == r.totalPreguntas
      && m.preguntasOriginales == r.preguntasOriginales && m.numResultados == r.numResultados
      && m.tipoReanalisis == r.tipoReanalisis && m.preguntasEditadas == r.preguntasEditadas
      && m.ultimaReanalizada == r.ultimaReanalizada && m.mensaje == r.mensaje
      && m.extra.Keys == r.extra.Keys + {"fecha_modificacion"}
      && forall k :: k in r.extra && k != "fecha_modificacion" ==> m.extra[k] == r.extra[k]
  {
  }

  // ---------------------------------------------------------------------------
  // Single overwrite: reanalizar_pregunta_individual_sobreescribir

  /** What the background task receives: `num_pregunta`, `pregunta` and `seccion`, each possibly absent. */
  datatype SingleRequest = SingleRequest(num: Option<int>, pregunta: Option<string>, seccion: Option<string>)

  /** The position Python's `xs[i]` reads in a list of length `len` (a negative index
      counts from the end), or -1 when it raises IndexError. */
  function PyIndex(i: int, len: nat): (pos: int)
    ensures -1 <= pos < len
    ensures 0 <= i < len ==> pos == i
    ensures i < 0 && 0 <= len + i ==> pos == len + i
    ensures pos == -1 <==> (i >= len || len + i < 0)
  {
    if 0 <= i < len then i else if i < 0 && 0 <= len + i then len + i else -1
  }

  function NotFound(num: int): string {
    "No existe resultado para la pregunta " + IntToString(num)
  }

  /** The entry after `.update`: six keys set, every other key kept. */
  function PatchEntry(entry: Row, pregunta: string, seccion: string, a: Answer, now: string): Row {
    entry + map["Pregunta" := pregunta, "Sección" := seccion, "Respuesta" := a.respuesta,
                "Riesgo" := RiskLabel(a.riesgo), "reanalizado_en" := now, "tipo_reanalisis" := "individual"]
  }

  /** The record after the entry at `pos` is replaced and the metadata updated. */
  function Patched(r: Record, pos: int, num: int, entry: Row, now: string): (p: Record)
    requires r.resultados.Some? && 0 <= pos < |r.resultados.value|
    ensures p.resultados.Some? && |p.resultados.value| == |r.resultados.value|
    ensures p.resultados.value[pos] == entry
    ensures forall i :: 0 <= i < |r.resultados.value| && i != pos ==> p.resultados.value[i] == r.resultados.value[i]
    ensures p.estado == Some("completado")
    ensures p.numResultados == Some(|r.resultados.value|) && p.ultimaReanalizada == Some(num)
    ensures "fecha_modificacion" in p.extra && p.extra["fecha_modificacion"] == now
    ensures p.preguntasOriginales == r.preguntasOriginales && p.error == r.error && p.tipoReanalisis == r.tipoReanalisis
  {
    var rs := r.resultados.value[pos := entry];
    r.(resultados := Some(rs), estado := Some("completado"), extra := r.extra["fecha_modificacion" := now],
       ultimaReanalizada := Some(num), numResultados := Some(|rs|))
  }

  function NumOf(req: SingleRequest): int {
    match req.num
    case Some(n) => n
    case None => 0
  }

  /** The plan of a single overwrite, from the file content it reads. */
  function SinglePlan(state: FileState, req: SingleRequest, contract: Result<Analyzer>, now: string): seq<Step> {
    var num := NumOf(req);
    match state
    case Missing => [Throw("FileNotFoundError")]
    case Corrupt => [Throw("JSONDecodeError")]
    case LegacyList(_) => [Throw(NotFound(num))]
    case Dict(r) =>
      if r.resultados.None? || |r.resultados.value| <= num then [Throw(NotFound(num))]
      else if contract.Err? then [Throw(contract.message)]
      else if req.pregunta.None? then [Throw("'pregunta'")]
      else if req.seccion.None? then [Throw("'seccion'")]
      else
        var rs := r.resultados.value;
        var pos := PyIndex(num, |rs|);
        if pos < 0 then [Throw("list index out of range")]
        else
          var a := contract.value(req.pregunta.value, req.seccion.value);
          [Put(Dict(Patched(r, pos, num, PatchEntry(rs[pos], req.pregunta.value, req.seccion.value, a, now), now)))]
  }

  const SinglePrefix := "Error en re-análisis individual: "

  method RerunSingle(f: ProgressFile, req: SingleRequest, contract: Result<Pages>, env: Env, model: Model, now: string)
    modifies f
    ensures var w := RerunWrites(old(f.state), SinglePlan(old(f.state), req, ContractAnalyzer(contract, env, model), now),
                                 old(f.count), f.faults, SinglePrefix, now);
      f.writes == old(f.writes) + w && f.state == After(old(f.state), w)
  {
    var analyzer := ContractAnalyzer(contract, env, model);
    ghost var plan := SinglePlan(f.state, req, analyzer, now);
    ghost var n0, w0, s0 := f.count, f.writes, f.state;
    RanNothing(f);
    var state := f.state;
    var num := NumOf(req);
    var err: Option<string>;
    ghost var dumped := false;
    if state.Missing? {
      err := Some("FileNotFoundError");
    } else if state.Corrupt? {
      err := Some("JSONDecodeError");
    } else if state.LegacyList? {
      err := Some(NotFound(num));
    } else if state.rec.resultados.None? || |state.rec.resultados.value| <= num {
      err := Some(NotFound(num));
    } else if analyzer.Err? {
      err := Some(analyzer.message);
    } else if req.pregunta.None? {
      err := Some("'pregunta'");
    } else if req.seccion.None? {
      err := Some("'seccion'");
    } else {
      var a := analyzer.value(req.pregunta.value, req.seccion.value);
      var rs := state.rec.resultados.value;
      var pos := PyIndex(num, |rs|);
      if pos < 0 {
        err := Some("list index out of range");
      } else {
        var entry := PatchEntry(rs[pos], req.pregunta.value, req.seccion.value, a, now);
        err := DumpNext(f, Dict(Patched(state.rec, pos, num, entry, now)), plan, 0, n0, w0, s0);
        dumped := true;
      }
    }
    if !dumped {
      assert plan == [Throw(err.value)];
      RanThrow(f, plan, 0, n0, w0, s0);
    }
    assert plan[..1] == plan;
    MarkFailed(f, err, SinglePrefix, now, plan, n0, w0, s0);
  }

  /** An index the record has no result for is rejected before the contract is read or
      the model is asked: the outcome depends on neither. */
  lemma SingleRejectsBeforeModel(r: Record, req: SingleRequest, c1: Result<Analyzer>, c2: Result<Analyzer>, now: string)
    requires r.resultados.None? || |r.resultados.value| <= NumOf(req)
    ensures SinglePlan(Dict(r), req, c1, now) == SinglePlan(Dict(r), req, c2, now)
                                                     == [Throw(NotFound(NumOf(req)))]
  {
  }

  /** A successful single overwrite replaces exactly one entry: the six keys it sets take
      their new values, the entry's other keys and every other entry are kept, and of
      the record only estado, fecha_modificacion, ultima_pregunta_reanalizada and
      num_resultados change. */
  lemma PatchedChangesOneEntry(r: Record, pos: int, num: int, pregunta: string, seccion: string,
                               a: Answer, now: string)
    requires r.resultados.Some? && 0 <= pos < |r.resultados.value|
    ensures var old_rs := r.resultados.value;
      var p := Patched(r, pos, num, PatchEntry(old_rs[pos], pregunta, seccion, a, now), now);
      var rs := p.resultados.value;
      && |rs| == |old_rs|
      && (forall j :: 0 <= j < |rs| && j != pos ==> rs[j] == old_rs[j])
      && rs[pos]["Pregunta"] == pregunta && rs[pos]["Sección"] == seccion
      && rs[pos]["Respuesta"] == a.respuesta && rs[pos]["Riesgo"] == RiskLabel(a.riesgo)
      && rs[pos]["reanalizado_en"] == now && rs[pos]["tipo_reanalisis"] == "individual"
      && (forall k :: k in old_rs[pos] && k !in {"Pregunta", "Sección", "Respuesta", "Riesgo", "reanalizado_en", "tipo_reanalisis"}
            ==> rs[pos][k] == old_rs[pos][k])
      && p.estado == Some("completado") && p.numResultados == Some(|rs|) && p.ultimaReanalizada == Some(num)
      && p.progreso == r.progreso && p.totalPreguntas == r.totalPreguntas
      && p.preguntasOriginales == r.preguntasOriginales && p.tipoReanalisis == r.tipoReanalisis
      && p.error == r.error && p.mensaje == r.mensaje && p.preguntasEditadas == r.preguntasEditadas
  {
  }

  /** With the guard passed, a contract, both keys and no failing dump, the file ends up
      holding the patched record; a negative index in [-len, -1] patches entry
      len + index, as Python's indexing does. */
  lemma SingleOverwriteOutcome(r: Record, req: SingleRequest, analyze: Analyzer, now: string,
                               n: nat, faults: map<nat, string>)
    requires r.resultados.Some? && 0 <= |r.resultados.value| + NumOf(req) && NumOf(req) < |r.resultados.value|
    requires req.pregunta.Some? && req.seccion.Some? && n !in faults
    ensures var rs := r.resultados.value;
      var pos := if NumOf(req) >= 0 then NumOf(req) else |rs| + NumOf(req);
      var a := analyze(req.pregunta.value, req.seccion.value);
      RerunWrites(Dict(r), SinglePlan(Dict(r), req, Ok(analyze), now), n, faults, SinglePrefix, now)
        == [Dict(Patched(r, pos, NumOf(req), PatchEntry(rs[pos], req.pregunta.value, req.seccion.value, a, now), now))]
  {
    ExecuteOne(SinglePlan(Dict(r), req, Ok(analyze), now)[0], n, faults);
  }

  /** A single overwrite that raises before its dump marks the record it read, which
      keeps all its results. */
  lemma SingleFailureMarksOriginal(r: Record, req: SingleRequest, contract: Result<Analyzer>, now: string,
                                   n: nat, faults: map<nat, string>)
    requires SinglePlan(Dict(r), req, contract, now)[0].Throw?
    requires n !in faults
    ensures var msg := SinglePlan(Dict(r), req, contract, now)[0].message;
      RerunWrites(Dict(r), SinglePlan(Dict(r), req, contract, now), n, faults, SinglePrefix, now)
        == [Dict(Marked(r, SinglePrefix + msg, now))]
  {
  }

  // ---------------------------------------------------------------------------
  // Global overwrite: reanalizar_documento_global_sobreescribir

  /** The first record of a global overwrite: the old record with five keys updated
      and its results cleared. */
  function GlobalStart(r: Record, edits: seq<Row>, now: string): Record {
    r.(estado := Some("reanalisis_en_progreso"), extra := r.extra["fecha_modificacion" := now],
       tipoReanalisis := Some("global"), progreso := Some(0), totalPreguntas := Some(|edits|),
       resultados := Some([]))
  }

  predicate HasKeys(e: Row) {
    "pregunta" in e && "seccion" in e
  }

  /** `str(KeyError(key))` for the first key the question lacks. */
  function MissingKey(e: Row): string {
    if "pregunta" !in e then "'pregunta'" else "'seccion'"
  }

  /** The number of leading questions that have both keys: the loop raises KeyError at
      the first one that does not. */
  function Answerable(edits: seq<Row>): (m: nat)
    ensures m <= |edits|
    ensures forall k :: 0 <= k < m ==> HasKeys(edits[k])
    ensures m < |edits| ==> !HasKeys(edits[m])
  {
    if edits == [] || !HasKeys(edits[0]) then 0 else 1 + Answerable(edits[1..])
  }

  /** Every question can be answered exactly when every question has both keys. */
  lemma {:induction false} AllAnswerable(edits: seq<Row>)
    ensures Answerable(edits) == |edits| <==> forall k :: 0 <= k < |edits| ==> HasKeys(edits[k])
  {
    if edits != [] && forall k :: 0 <= k < |edits| ==> HasKeys(edits[k]) {
      assert HasKeys(edits[0]);
      assert forall k :: 0 <= k < |edits[1..]| ==> HasKeys(edits[1..][k]) by {
        forall k | 0 <= k < |edits[1..]| ensures HasKeys(edits[1..][k]) {
          assert edits[1..][k] == edits[k + 1];
        }
      }
      AllAnswerable(edits[1..]);
    }
  }

  function GlobalResult(analyze: Analyzer, e: Row, now: string): Row
    requires HasKeys(e)
  {
    AnswerRow(analyze(e["pregunta"], e["seccion"]))
      + map["Pregunta" := e["pregunta"], "Sección" := e["seccion"], "reanalizado_en" := now, "tipo_reanalisis" := "global"]
  }

  function GlobalResults(analyze: Analyzer, edits: seq<Row>, now: string): (rs: seq<Row>)
    ensures |rs| == Answerable(edits)
    ensures forall k :: 0 <= k < |rs| ==> rs[k] == GlobalResult(analyze, edits[k], now)
  {
    var m := Answerable(edits);
    seq(m, k requires 0 <= k < m => GlobalResult(analyze, edits[k], now))
  }

  function GlobalSnapshot(start: Record, rs: seq<Row>, k: nat, now: string): Record
    requires k <= |rs|
  {
    if k == 0 then start else start.(progreso := Some(k), resultados := Some(rs[..k]), extra := start.extra["fecha_modificacion" := now])
  }

  function GlobalFinal(start: Record, rs: seq<Row>, edits: seq<Row>, now: string): Record {
    var last := GlobalSnapshot(start, rs, |rs|, now);
    last.(estado := Some("completado"), progreso := Some(|edits|), numResultados := Some(|rs|),
          extra := last.extra["fecha_modificacion" := now], preguntasOriginales := Some(edits))
  }

  /** One more question answered in a global overwrite. */
  lemma GlobalSnapshotNext(start: Record, rs: seq<Row>, k: nat, now: string)
    requires k < |rs|
    requires start.extra["fecha_modificacion" := now] == start.extra
    ensures var s := GlobalSnapshot(start, rs, k, now);
      s.(progreso := Some(k + 1), resultados := Some(rs[..k + 1]), extra := s.extra["fecha_modificacion" := now])
        == GlobalSnapshot(start, rs, k + 1, now)
  {
  }

  /** The dumps of a global overwrite once the first record is written: a snapshot per
      answerable question, then the KeyError of the first question without both keys,
      or the final record. */
  function GlobalRunPlan(start: Record, rs: seq<Row>, edits: seq<Row>, now: string): (plan: seq<Step>)
    requires |rs| <= |edits|
    ensures |plan| == |rs| + 2
  {
    var m := |rs|;
    seq(m + 2, j requires 0 <= j < m + 2 =>
      if j <= m then Put(Dict(GlobalSnapshot(start, rs, j, now)))
      else if m < |edits| then Throw(MissingKey(edits[m]))
      else Put(Dict(GlobalFinal(start, rs, edits, now))))
  }

  /** The plan of a global overwrite, from the file content it reads. */
  function GlobalPlan(state: FileState, edits: seq<Row>, contract: Result<Analyzer>, now: string): seq<Step> {
    match state
    case Missing => [Throw("FileNotFoundError")]
    case Corrupt => [Throw("JSONDecodeError")]
    case LegacyList(_) => [Throw("AttributeError")]
    case Dict(r) =>
      var start := GlobalStart(r, edits, now);
      match contract
      case Err(m) => [Put(Dict(start)), Throw(m)]
      case Ok(analyze) => GlobalRunPlan(start, GlobalResults(analyze, edits, now), edits, now)
  }

  const GlobalPrefix := "Error en re-análisis global: "

  method RerunGlobal(f: ProgressFile, edits: seq<Row>, contract: Result<Pages>, env: Env, model: Model, now: string)
    modifies f
    ensures var w := RerunWrites(old(f.state), GlobalPlan(old(f.state), edits, ContractAnalyzer(contract, env, model), now),
                                 old(f.count), f.faults, GlobalPrefix, now);
      f.writes == old(f.writes) + w && f.state == After(old(f.state), w)
  {
    var analyzer := ContractAnalyzer(contract, env, model);
    ghost var plan := GlobalPlan(f.state, edits, analyzer, now);
    ghost var n0, w0, s0 := f.count, f.writes, f.state;
    RanNothing(f);
    var state := f.state;
    var err: Option<string>;
    if state.Missing? || state.Corrupt? || state.LegacyList? {
      err := Some(if state.Missing? then "FileNotFoundError" else if state.Corrupt? then "JSONDecodeError" else "AttributeError");
      RanThrow(f, plan, 0, n0, w0, s0);
      assert plan[..1] == plan;
    } else {
      var start := GlobalStart(state.rec, edits, now);
      assert plan[0] == Put(Dict(start));
      err := DumpNext(f, Dict(start), plan, 0, n0, w0, s0);
      if err.Some? {
        RanStopped(f, plan, 1, n0, w0, s0, err);
      } else if analyzer.Err? {
        RanThrow(f, plan, 1, n0, w0, s0);
        err := Some(analyzer.message);
        RanStopped(f, plan, 2, n0, w0, s0, err);
      } else {
        err := GlobalLoop(f, start, edits, analyzer.value, now, plan, n0, w0, s0);
      }
    }
    MarkFailed(f, err, GlobalPrefix, now, plan, n0, w0, s0);
  }

  /** The question loop of the global overwrite, after the first dump succeeded. */
  method GlobalLoop(f: ProgressFile, start: Record, edits: seq<Row>, analyze: Analyzer, now: string,
                    ghost plan: seq<Step>, ghost n0: nat, ghost w0: seq<FileState>, ghost s0: FileState)
    returns (err: Option<string>)
    requires start.extra["fecha_modificacion" := now] == start.extra
    requires plan == GlobalRunPlan(start, GlobalResults(analyze, edits, now), edits, now)
    requires Ran(f, plan[..1], n0, w0, s0, None)
    modifies f
    ensures Ran(f, plan, n0, w0, s0, err)
  {
    ghost var rs := GlobalResults(analyze, edits, now);
    ghost var m := |rs|;
    var data := start;
    var nuevos: seq<Row> := [];
    var idx := 0;
    err := None;
    while idx < |edits| && err.None?
      invariant 0 <= idx <= m
      invariant nuevos == rs[..idx]
      invariant data == GlobalSnapshot(start, rs, idx, now)
      invariant Ran(f, plan[..idx + 1], n0, w0, s0, err)
    {
      var e := edits[idx];
      if "pregunta" !in e || "seccion" !in e {
        assert idx == m;
        RanThrow(f, plan, idx + 1, n0, w0, s0);
        RanStopped(f, plan, idx + 2, n0, w0, s0, Some(MissingKey(e)));
        return Some(MissingKey(e));
      }
      nuevos, data, err := GlobalQuestion(f, start, edits, analyze, now, nuevos, data, idx, plan, n0, w0, s0);
      idx := idx + 1;
    }
    if err.None? {
      assert idx == m == |edits|;
      assert nuevos == rs by {
        assert rs[..m] == rs;
      }
      err := GlobalFinish(f, start, edits, analyze, now, nuevos, data, plan, n0, w0, s0);
    } else {
      RanStopped(f, plan, idx + 1, n0, w0, s0, err);
    }
  }

  /** One pass of the loop of a global overwrite: the answer of question `idx` and the
      snapshot that records it. */
  method GlobalQuestion(f: ProgressFile, start: Record, edits: seq<Row>, analyze: Analyzer, now: string,
                        done: seq<Row>, before: Record, idx: nat,
                        ghost plan: seq<Step>, ghost n0: nat, ghost w0: seq<FileState>, ghost s0: FileState)
    returns (nuevos: seq<Row>, data: Record, err: Option<string>)
    requires start.extra["fecha_modificacion" := now] == start.extra
    requires plan == GlobalRunPlan(start, GlobalResults(analyze, edits, now), edits, now)
    requires idx < |GlobalResults(analyze, edits, now)| && done == GlobalResults(analyze, edits, now)[..idx]
    requires before == GlobalSnapshot(start, GlobalResults(analyze, edits, now), idx, now)
    requires Ran(f, plan[..idx + 1], n0, w0, s0, None)
    modifies f
    ensures nuevos == GlobalResults(analyze, edits, now)[..idx + 1]
    ensures data == GlobalSnapshot(start, GlobalResults(analyze, edits, now), idx + 1, now)
    ensures Ran(f, plan[..idx + 2], n0, w0, s0, err)
  {
    ghost var rs := GlobalResults(analyze, edits, now);
    var resultado := GlobalResult(analyze, edits[idx], now);
    TakeSnoc(rs, idx);
    nuevos := done + [resultado];
    GlobalSnapshotNext(start, rs, idx, now);
    data := before.(progreso := Some(idx + 1), resultados := Some(nuevos),
                    extra := before.extra["fecha_modificacion" := now]);
    err := DumpNext(f, Dict(data), plan, idx + 1, n0, w0, s0);
  }

  /** The final record of a global overwrite in which every question had both keys. */
  method GlobalFinish(f: ProgressFile, start: Record, edits: seq<Row>, analyze: Analyzer, now: string,
                      nuevos: seq<Row>, last: Record,
                      ghost plan: seq<Step>, ghost n0: nat, ghost w0: seq<FileState>, ghost s0: FileState)
    returns (err: Option<string>)
    requires plan == GlobalRunPlan(start, GlobalResults(analyze, edits, now), edits, now)
    requires |GlobalResults(analyze, edits, now)| == |edits| && nuevos == GlobalResults(analyze, edits, now)
    requires last == GlobalSnapshot(start, nuevos, |nuevos|, now)
    requires Ran(f, plan[..|edits| + 1], n0, w0, s0, None)
    modifies f
    ensures Ran(f, plan, n0, w0, s0, err)
  {
    var data := last.(estado := Some("completado"), progreso := Some(|edits|), numResultados := Some(|nuevos|),
                      extra := last.extra["fecha_modificacion" := now], preguntasOriginales := Some(edits));
    assert data == GlobalFinal(start, nuevos, edits, now);
    assert plan[|edits| + 1] == Put(Dict(data));
    err := DumpNext(f, Dict(data), plan, |edits| + 1, n0, w0, s0);
    RanStopped(f, plan, |edits| + 2, n0, w0, s0, err);
  }


  /** The first record a global overwrite persists: "reanalisis_en_progreso", "global",
      progreso 0, the new total and no results; every other key of the old record is kept. */
  lemma GlobalStartFacts(r: Record, edits: seq<Row>, now: string)
    ensures var s := GlobalStart(r, edits, now);
      && s.estado == Some("reanalisis_en_progreso") && s.tipoReanalisis == Some("global")
      && s.progreso == Some(0) && s.totalPreguntas == Some(|edits|) && s.resultados == Some([])
      && s.preguntasOriginales == r.preguntasOriginales && s.numResultados == r.numResultados
      && s.error == r.error && s.mensaje == r.mensaje && s.preguntasEditadas == r.preguntasEditadas
      && s.ultimaReanalizada == r.ultimaReanalizada
      && forall k :: k in r.extra && k != "fecha_modificacion" ==> k in s.extra && s.extra[k] == r.extra[k]
  {
  }

  /** The final record of a global overwrite: "completado", progreso equal to the
      number of questions, num_resultados equal to the number of new results, the new
      questions kept as preguntas_originales, and exactly the new results. */
  lemma GlobalFinalFacts(r: Record, rs: seq<Row>, edits: seq<Row>, now: string)
    ensures var s := GlobalFinal(GlobalStart(r, edits, now), rs, edits, now);
      && s.estado == Some("completado") && s.progreso == Some(|edits|) && s.numResultados == Some(|rs|)
      && s.preguntasOriginales == Some(edits) && s.resultados == Some(rs) && s.tipoReanalisis == Some("global")
  {
    if |rs| > 0 {
      assert rs[..|rs|] == rs;
    }
  }

  /** A snapshot of a global overwrite holds the first `k` new results and counts them. */
  lemma GlobalSnapshotFacts(r: Record, rs: seq<Row>, edits: seq<Row>, k: nat, now: string)
    requires k <= |rs|
    ensures var s := GlobalSnapshot(GlobalStart(r, edits, now), rs, k, now);
      && s.estado == Some("reanalisis_en_progreso") && s.progreso == Some(k) && s.resultados == Some(rs[..k])
      && s.totalPreguntas == Some(|edits|)
  {
    if k == 0 {
      assert rs[..0] == [];
    }
  }

  /** Each new result is tagged "global" and carries the question and section it answers. */
  lemma GlobalResultFacts(analyze: Analyzer, edits: seq<Row>, now: string, k: int)
    requires 0 <= k < |GlobalResults(analyze, edits, now)|
    ensures HasKeys(edits[k])
    ensures var g := GlobalResults(analyze, edits, now)[k];
      && g["tipo_reanalisis"] == "global" && g["reanalizado_en"] == now
      && g["Pregunta"] == edits[k]["pregunta"] && g["Sección"] == edits[k]["seccion"]
      && g["Respuesta"] == analyze(edits[k]["pregunta"], edits[k]["seccion"]).respuesta
  {
  }

  /** When every question has both keys and nothing raises, a poller sees the first
      record, a snapshot per question and the final record, and nothing else. */
  lemma GlobalCompletes(r: Record, edits: seq<Row>, analyze: Analyzer, now: string,
                        n: nat, faults: map<nat, string>)
    requires forall k :: 0 <= k < |edits| ==> HasKeys(edits[k])
    requires forall k :: n <= k < n + |edits| + 2 ==> k !in faults
    ensures var start := GlobalStart(r, edits, now);
      var rs := GlobalResults(analyze, edits, now);
      var w := RerunWrites(Dict(r), GlobalRunPlan(start, rs, edits, now), n, faults, GlobalPrefix, now);
      && |rs| == |edits| && |w| == |edits| + 2
      && (forall k :: 0 <= k <= |edits| ==> w[k] == Dict(GlobalSnapshot(start, rs, k, now)))
      && w[|edits| + 1] == Dict(GlobalFinal(start, rs, edits, now))
  {
    var start := GlobalStart(r, edits, now);
    var rs := GlobalResults(analyze, edits, now);
    AllAnswerable(edits);
    var plan := GlobalRunPlan(start, rs, edits, now);
    ExecuteFaultFree(plan, n, faults);
  }

  /** A question without "pregunta" or "seccion" stops the overwrite; the handler then
      marks the last persisted snapshot, so the results of the questions before it stay. */
  lemma GlobalFailureKeepsPartial(r: Record, edits: seq<Row>, analyze: Analyzer, now: string,
                                  n: nat, faults: map<nat, string>)
    requires Answerable(edits) < |edits|
    requires forall k :: n <= k < n + |edits| + 2 ==> k !in faults
    ensures var start := GlobalStart(r, edits, now);
      var rs := GlobalResults(analyze, edits, now);
      var w := RerunWrites(Dict(r), GlobalRunPlan(start, rs, edits, now), n, faults, GlobalPrefix, now);
      && |w| == |rs| + 2
      && (forall k :: 0 <= k <= |rs| ==> w[k] == Dict(GlobalSnapshot(start, rs, k, now)))
      && w[|rs| + 1] == Dict(Marked(GlobalSnapshot(start, rs, |rs|, now), GlobalPrefix + MissingKey(edits[|rs|]), now))
  {
    var start := GlobalStart(r, edits, now);
    var rs := GlobalResults(analyze, edits, now);
    var m := |rs|;
    var plan := GlobalRunPlan(start, rs, edits, now);
    GlobalThrowExecute(start, rs, edits, now, n, faults);
    var x := Execute(plan, n, faults);
    var marked := Marked(GlobalSnapshot(start, rs, m, now), GlobalPrefix + MissingKey(edits[m]), now);
    assert After(Dict(r), x.0) == Dict(GlobalSnapshot(start, rs, m, now));
    assert MarkError(After(Dict(r), x.0), GlobalPrefix + x.1.value, n + |x.0|, faults, now) == [Dict(marked)];
  }

  /** A global overwrite that stops at question `|rs|`, with no failed dump: the
      snapshots before it, then the exception. */
  lemma GlobalThrowExecute(start: Record, rs: seq<Row>, edits: seq<Row>, now: string, n: nat, faults: map<nat, string>)
    requires |rs| < |edits|
    requires forall k :: n <= k < n + |rs| + 2 ==> k !in faults
    ensures var x := Execute(GlobalRunPlan(start, rs, edits, now), n, faults);
      && x.1 == Some(MissingKey(edits[|rs|]))
      && |x.0| == |rs| + 1
      && forall k :: 0 <= k <= |rs| ==> x.0[k] == Dict(GlobalSnapshot(start, rs, k, now))
  {
    var plan := GlobalRunPlan(start, rs, edits, now);
    assert plan[|plan| - 1] == Throw(MissingKey(edits[|rs|]));
    ExecuteUntilThrow(plan, n, faults);
  }

}
