/** The API server's endpoints over the progress files: the status poll, the two
    re-run requests, cancellation and the process list (fastapi_backend/main.py). */
module MainApi {
  import opened Text
  import opened Records
  import opened Worker

  // ---------------------------------------------------------------------------
  // Status: obtener_estado

  /** `porcentaje`. The source computes `round(progreso / total * 100, 1)`, a float;
      the model keeps the two integers it is computed from. */
  datatype Percent = Zero | Hundred | Ratio(progreso: int, total: int)

  /** The answer to a status poll: the stored record with `porcentaje` added, or a
      summary object built by the server. */
  datatype StatusReply =
    | Echo(rec: Record, porcentaje: Percent)
    | Summary(estado: string, resultados: seq<Row>, error: Option<string>, porcentaje: Percent)

  const NotStarted := Summary("no_iniciado", [], None, Zero)
  const Corrupted := Summary("error", [], Some("Archivo de progreso corrupto"), Zero)

  /** `data.get(key, default)` for a numeric key. */
  function IntOr(o: Option<int>, default: int): int {
    if o.Some? then o.value else default
  }

  /** The status of an object record. */
  function DictStatus(r: Record): StatusReply {
    if r.estado.Some? then
      var progreso := IntOr(r.progreso, 0);
      var total := IntOr(r.totalPreguntas, 1);
      Echo(r, if total > 0 then Ratio(progreso, total) else Zero)
    else if r.error.Some? then Summary("error", [], r.error, Zero)
    else Summary("en_progreso", [], None, Zero)
  }

  predicate RowCompleted(row: Row) {
    "Estado" in row && row["Estado"] == "✅ Completado"
  }

  /** The migration of the bare list written by the oldest engine. */
  function LegacyStatus(rows: seq<Row>): StatusReply {
    var completado := (forall i :: 0 <= i < |rows| ==> RowCompleted(rows[i])) && |rows| > 0;
    Summary(if completado then "completado" else "en_progreso", rows, None, if completado then Hundred else Zero)
  }

  /** The status as the endpoint computes it: the log line evaluates `data.get` before
      the type checks, so a bare list raises AttributeError and is reported as a
      corrupt file; the legacy branch is never reached. */
  function StatusAsWritten(s: FileState): (r: StatusReply)
    ensures s.LegacyList? ==> r == Corrupted
    ensures !s.LegacyList? ==> r == Status(s)
  {
    match s
    case Missing => NotStarted
    case Corrupt => Corrupted
    case LegacyList(_) => Corrupted
    case Dict(r) => DictStatus(r)
  }

  /** The status with the legacy migration reachable, as the endpoint intends. */
  function Status(s: FileState): (r: StatusReply)
    ensures r.Echo? <==> s.Dict? && s.rec.estado.Some?
    ensures r.Echo? ==> r.rec == s.rec
    ensures r == NotStarted <==> s.Missing?
    ensures r.Summary? && !s.LegacyList? ==> r.resultados == [] && r.porcentaje == Zero
  {
    match s
    case Missing => NotStarted
    case Corrupt => Corrupted
    case LegacyList(rows) => LegacyStatus(rows)
    case Dict(r) => DictStatus(r)
  }

  /** Every legacy list is reported as corrupt, although the migration would give it
      a status of its own. */
  lemma LegacyReportedCorrupt(rows: seq<Row>)
    ensures StatusAsWritten(LegacyList(rows)) == Corrupted
    ensures Status(LegacyList(rows)).estado != StatusAsWritten(LegacyList(rows)).estado
  {
  }

  /** The smallest witness: one completed row. */
  lemma LegacyCounterexample()
    ensures var rows := [map["Estado" := "✅ Completado"]];
      StatusAsWritten(LegacyList(rows)).estado == "error" && Status(LegacyList(rows)).estado == "completado"
  {
    var rows: seq<Row> := [map["Estado" := "✅ Completado"]];
    assert RowCompleted(rows[0]);
  }

  /** A missing file has not started; an unreadable one is reported as an error. */
  lemma StatusWithoutRecord(s: FileState)
    requires !s.Dict? && !s.LegacyList?
    ensures Status(s).Summary? && Status(s).resultados == [] && Status(s).porcentaje == Zero
    ensures Status(s).estado == (if s.Missing? then "no_iniciado" else "error")
    ensures Status(s).error == (if s.Missing? then None else Some("Archivo de progreso corrupto"))
  {
  }

  /** A record with `estado` comes back unchanged with its percentage; `total_preguntas`
      defaults to 1 and a non-positive total gives 0. */
  lemma StatusEchoes(r: Record)
    requires r.estado.Some?
    ensures Status(Dict(r)).Echo? && Status(Dict(r)).rec == r
    ensures var total := if r.totalPreguntas.Some? then r.totalPreguntas.value else 1;
      Status(Dict(r)).porcentaje == (if total <= 0 then Zero else Ratio(IntOr(r.progreso, 0), total))
  {
  }

  /** A record without `estado` is an error when it carries one, otherwise in progress;
      none of its results are returned. */
  lemma StatusWithoutEstado(r: Record)
    requires r.estado.None?
    ensures Status(Dict(r)) == Summary(if r.error.Some? then "error" else "en_progreso", [], r.error, Zero)
  {
  }

  /** The legacy migration: complete, at 100, exactly when the list is non-empty and
      every row is marked completed; otherwise in progress at 0. The rows are returned. */
  lemma LegacyMigration(rows: seq<Row>)
    ensures Status(LegacyList(rows)).Summary? && Status(LegacyList(rows)).resultados == rows
    ensures Status(LegacyList(rows)).estado == "completado" <==>
            |rows| > 0 && forall i :: 0 <= i < |rows| ==> "Estado" in rows[i] && rows[i]["Estado"] == "✅ Completado"
    ensures Status(LegacyList(rows)).porcentaje == (if Status(LegacyList(rows)).estado == "completado" then Hundred else Zero)
    ensures Status(LegacyList(rows)).estado in {"completado", "en_progreso"}
  {
  }

  /** A poller during a full run sees the record as written: after `k` questions,
      `k` out of the number of questions. */
  lemma StatusDuringRun(qs: seq<Row>, rs: seq<Row>, k: nat, now: string)
    requires k <= |rs| && |qs| > 0
    ensures Status(Dict(Snapshot(qs, rs, k, now))) == Echo(Snapshot(qs, rs, k, now), Ratio(k, |qs|))
  {
  }

  /** At the end of a full run every question is counted. */
  lemma StatusAtEnd(qs: seq<Row>, rs: seq<Row>, now: string)
    requires |rs| == |qs| > 0
    ensures Status(Dict(Final(qs, rs, now))) == Echo(Final(qs, rs, now), Ratio(|qs|, |qs|))
    ensures Final(qs, rs, now).estado == Some("completado")
  {
  }

  /** A failed full run is reported with its message and no progress. */
  lemma StatusAfterFailure(msg: string, now: string)
    ensures Status(Dict(ErrorRecord(msg, now))) == Echo(ErrorRecord(msg, now), Ratio(0, 1))
    ensures ErrorRecord(msg, now).error == Some(msg)
  {
  }

  // ---------------------------------------------------------------------------
  // Re-run requests: reanalizar_pregunta and reanalizar_global

  /** An HTTP answer: the status code and the message or error text. */
  datatype Reply = Reply(code: int, message: string)

  /** What a re-run request decides from the file it reads, before writing: a
      rejection, or the record to write and the background task to queue. */
  datatype Decision<T> = Reject(reply: Reply) | Proceed(update: Record, task: T)

  const NoOriginal := Reply(404, "No existe el análisis original")
  const NoContract := Reply(404, "No existe el contrato original")
  const OutOfRange := Reply(400, "Pregunta no encontrada o índice fuera de rango")
  const SingleStarted := "Re-análisis individual iniciado (sobreescribiendo análisis original)"
  const GlobalStarted := "Reanálisis global iniciado (sobreescribiendo análisis original)"

  /** The edited question and section of a single re-run request, each possibly absent. */
  datatype Edit = Edit(pregunta: Option<string>, seccion: Option<string>)

  /** `edited or default`: an absent or empty edit falls back to the stored text. */
  function OrElse(edited: Option<string>, default: string): string {
    if edited.Some? && edited.value != "" then edited.value else default
  }

  /** The question list rebuilt from the results: question and section of each entry. */
  function Rebuilt(rs: seq<Row>): (qs: seq<Row>)
    ensures |qs| == |rs|
    ensures forall i :: 0 <= i < |rs| ==>
      qs[i].Keys == {"Pregunta", "Sección"} && qs[i]["Pregunta"] == Get(rs[i], "Pregunta", "") &&
      qs[i]["Sección"] == Get(rs[i], "Sección", "")
  {
    seq(|rs|, i requires 0 <= i < |rs| => map["Pregunta" := Get(rs[i], "Pregunta", ""), "Sección" := Get(rs[i], "Sección", "")])
  }

  /** The questions a single re-run may pick from: `preguntas_originales` when the key
      exists, otherwise rebuilt from a non-empty `resultados`. */
  function QuestionList(r: Record): Option<seq<Row>> {
    if r.preguntasOriginales.Some? then r.preguntasOriginales
    else if r.resultados.Some? && r.resultados.value != [] then Some(Rebuilt(r.resultados.value))
    else None
  }

  /** The decision of a single re-run of question `num`. `contractFound` says whether a
      contract file of the analysis exists. */
  function SingleDecision(state: FileState, num: int, body: Edit, contractFound: bool, now: string): (d: Decision<SingleRequest>)
    ensures state.Missing? ==> d == Reject(NoOriginal)
    ensures d.Proceed? <==>
      (state.Dict? && contractFound && QuestionList(state.rec).Some? &&
       -|QuestionList(state.rec).value| <= num < |QuestionList(state.rec).value|)
    ensures d.Proceed? ==>
      (d.update.estado == Some("reanalisis_en_progreso") && d.task.num == Some(num) &&
       d.update.resultados == state.rec.resultados)
  {
    match state
    case Missing => Reject(NoOriginal)
    case Corrupt => Reject(Reply(500, "JSONDecodeError"))
    case LegacyList(_) => Reject(OutOfRange)
    case Dict(r) =>
      var qs := QuestionList(r);
      if qs.None? || qs.value == [] || num >= |qs.value| then Reject(OutOfRange)
      else
        var pos := PyIndex(num, |qs.value|);
        if pos < 0 then Reject(Reply(500, "list index out of range"))
        else if !contractFound then Reject(NoContract)
        else
          var q := qs.value[pos];
          Proceed(r.(estado := Some("reanalisis_en_progreso"), extra := r.extra["fecha_modificacion" := now],
                     tipoReanalisis := Some("individual_pregunta_" + IntToString(num))),
                  SingleRequest(Some(num), Some(OrElse(body.pregunta, Get(q, "Pregunta", ""))),
                                Some(OrElse(body.seccion, Get(q, "Sección", "")))))
  }

  /** The decision of a global re-run; `edits` is the request's `preguntas`, if sent. */
  function GlobalDecision(state: FileState, edits: Option<seq<Row>>, contractFound: bool, now: string): (d: Decision<seq<Row>>)
    ensures state.Missing? ==> d == Reject(NoOriginal)
    ensures d.Proceed? <==> state.Dict? && contractFound
    ensures d.Proceed? ==>
      (d.task == (if edits.Some? then edits.value else []) &&
       d.update.preguntasEditadas == Some(d.task) && d.update.tipoReanalisis == Some("global"))
  {
    var es := if edits.Some? then edits.value else [];
    if state.Missing? then Reject(NoOriginal)
    else if !contractFound then Reject(NoContract)
    else match state
      case Corrupt => Reject(Reply(500, "JSONDecodeError"))
      case LegacyList(_) => Reject(Reply(500, "list indices must be integers or slices, not str"))
      case Dict(r) =>
        Proceed(r.(estado := Some("reanalisis_en_progreso"), extra := r.extra["fecha_modificacion" := now],
                   tipoReanalisis := Some("global"), preguntasEditadas := Some(es)), es)
  }

  /** Write the decided record, then accept, unless the dump raises. */
  method Commit<T>(f: ProgressFile, d: Decision<T>, started: string) returns (reply: Reply, task: Option<T>)
    modifies f
    ensures d.Reject? ==> reply == d.reply && task.None? && f.state == old(f.state) &&
                          f.count == old(f.count) && f.writes == old(f.writes)
    ensures d.Proceed? ==> f.count == old(f.count) + 1 && f.writes == old(f.writes) + [f.state]
    ensures d.Proceed? && old(f.count) in f.faults ==>
              f.state == Corrupt && reply == Reply(500, f.faults[old(f.count)]) && task.None?
    ensures d.Proceed? && old(f.count) !in f.faults ==>
              f.state == Dict(d.update) && reply == Reply(200, started) && task == Some(d.task)
  {
    if d.Reject? {
      return d.reply, None;
    }
    var err := f.Dump(Dict(d.update));
    if err.Some? {
      reply, task := Reply(500, err.value), None;
    } else {
      reply, task := Reply(200, started), Some(d.task);
    }
  }

  /** `POST /reanalisar_pregunta/{id}/{num}`: the background task is queued only once the updated
      record is on disk. */
  method RerunQuestion(f: ProgressFile, num: int, body: Edit, contractFound: bool, now: string)
    returns (reply: Reply, task: Option<SingleRequest>)
    modifies f
    ensures var d := SingleDecision(old(f.state), num, body, contractFound, now);
      (d.Reject? ==> reply == d.reply && task.None? && f.state == old(f.state) && f.writes == old(f.writes)) &&
      (d.Proceed? ==>
        f.writes == old(f.writes) + [f.state] &&
        (task.Some? <==> f.state == Dict(d.update)) && (task.Some? ==> task == Some(d.task)))
  {
    var d := SingleDecision(f.state, num, body, contractFound, now);
    reply, task := Commit(f, d, SingleStarted);
  }

  /** `POST /reanalisar_global/{id}`. */
  method RerunGlobalRequest(f: ProgressFile, edits: Option<seq<Row>>, contractFound: bool, now: string)
    returns (reply: Reply, task: Option<seq<Row>>)
    modifies f
    ensures var d := GlobalDecision(old(f.state), edits, contractFound, now);
      (d.Reject? ==> reply == d.reply && task.None? && f.state == old(f.state) && f.writes == old(f.writes)) &&
      (d.Proceed? ==>
        f.writes == old(f.writes) + [f.state] &&
        (task.Some? <==> f.state == Dict(d.update)) && (task.Some? ==> task == Some(d.task)))
  {
    var d := GlobalDecision(f.state, edits, contractFound, now);
    reply, task := Commit(f, d, GlobalStarted);
  }

  /** The single re-run's range check: 400 exactly when there is no question list or
      the index is at least its length; negative indices pass it. */
  lemma SingleRangeCheck(r: Record, num: int, body: Edit, contractFound: bool, now: string)
    ensures var qs := QuestionList(r);
      SingleDecision(Dict(r), num, body, contractFound, now) == Reject(OutOfRange) <==>
        qs.None? || qs.value == [] || num >= |qs.value|
    ensures var qs := QuestionList(r);
      qs.Some? && -|qs.value| <= num < |qs.value| ==>
        (SingleDecision(Dict(r), num, body, contractFound, now).Proceed? <==> contractFound)
  {
  }

  /** The file is checked before anything else: no record, 404. */
  lemma RerunWithoutRecord(num: int, body: Edit, edits: Option<seq<Row>>, contractFound: bool, now: string)
    ensures SingleDecision(Missing, num, body, contractFound, now) == Reject(NoOriginal)
    ensures GlobalDecision(Missing, edits, contractFound, now) == Reject(NoOriginal)
  {
  }

  /** An accepted single re-run marks the record and changes nothing else in it; the
      task names the index and the edited texts when they are non-empty, otherwise the
      stored ones. */
  lemma SingleAccepted(r: Record, num: int, body: Edit, now: string)
    requires SingleDecision(Dict(r), num, body, true, now).Proceed?
    ensures var d := SingleDecision(Dict(r), num, body, true, now);
      var u := d.update;
      u.estado == Some("reanalisis_en_progreso") &&
      u.tipoReanalisis == Some("individual_pregunta_" + IntToString(num)) &&
      u.resultados == r.resultados && u.preguntasOriginales == r.preguntasOriginales &&
      u.progreso == r.progreso && u.totalPreguntas == r.totalPreguntas && u.error == r.error &&
      u.numResultados == r.numResultados && u.extra.Keys == r.extra.Keys + {"fecha_modificacion"}
    ensures var d := SingleDecision(Dict(r), num, body, true, now);
      var qs := QuestionList(r).value;
      var q := qs[if num >= 0 then num else |qs| + num];
      d.task.num == Some(num) &&
      d.task.pregunta == Some(if body.pregunta.Some? && body.pregunta.value != "" then body.pregunta.value else Get(q, "Pregunta", "")) &&
      d.task.seccion == Some(if body.seccion.Some? && body.seccion.value != "" then body.seccion.value else Get(q, "Sección", ""))
  {
  }

  /** When the question list is rebuilt from the results, a non-negative index the
      server accepts is one the background task accepts too: it patches that entry. */
  lemma RebuiltIndexReachesWorker(r: Record, num: int, body: Edit, now: string, analyze: Analyzer)
    requires r.preguntasOriginales.None? && 0 <= num
    requires SingleDecision(Dict(r), num, body, true, now).Proceed?
    ensures var d := SingleDecision(Dict(r), num, body, true, now);
      |SinglePlan(Dict(d.update), d.task, Ok(analyze), now)| == 1 &&
      SinglePlan(Dict(d.update), d.task, Ok(analyze), now)[0].Put?
  {
  }

  /** An accepted global re-run stores the edited list and marks the record; the background task
      receives the same list. */
  lemma GlobalAccepted(r: Record, edits: Option<seq<Row>>, now: string)
    ensures var d := GlobalDecision(Dict(r), edits, true, now);
      var es := if edits.Some? then edits.value else [];
      d.Proceed? && d.task == es && d.update.preguntasEditadas == Some(es) &&
      d.update.estado == Some("reanalisis_en_progreso") && d.update.tipoReanalisis == Some("global") &&
      d.update.resultados == r.resultados && d.update.preguntasOriginales == r.preguntasOriginales
    ensures GlobalDecision(Dict(r), edits, false, now) == Reject(NoContract)
  {
  }

  // ---------------------------------------------------------------------------
  // Cancellation: cancelar_proceso

  /** A contract file kept next to the progress files. */
  class ContractFile {
    var present: bool

    constructor ()
      ensures present
    {
      present := true;
    }

    /** `path.unlink()` */
    method Delete()
      modifies this
      ensures !present
    {
      present := false;
    }
  }

  /** `estado_actual`: the record's `estado`, or "desconocido" when it has none or the
      file cannot be read as an object. */
  function CurrentState(s: FileState): string {
    match s
    case Dict(r) => if r.estado.Some? then r.estado.value else "desconocido"
    case _ => "desconocido"
  }

  /** The answer to a cancellation. `progresoListed` and `contratoListed` are whether
      `archivos_eliminados` names each file; it is computed after the deletion. */
  datatype CancelReply =
    | CancelRejected(reply: Reply)
    | Cancelled(mensaje: string, estadoAnterior: string, progresoListed: bool, contratoListed: bool)

  function CancelOutcome(s: FileState, id: string): (r: CancelReply)
    ensures r.Cancelled? <==> !s.Missing? && CurrentState(s) != "completado"
    ensures r.Cancelled? ==> r.estadoAnterior == CurrentState(s)
    ensures r.CancelRejected? ==> r.reply.code == (if s.Missing? then 404 else 400)
  {
    if s.Missing? then CancelRejected(Reply(404, "Proceso " + id + " no encontrado"))
    else if CurrentState(s) == "completado" then CancelRejected(Reply(400, "No se puede cancelar un proceso ya completado"))
    else Cancelled("Proceso " + id + " cancelado exitosamente", CurrentState(s), false, false)
  }

  /** `DELETE /proceso/{id}`; `contract` is the first contract file of the analysis, if any. */
  method Cancel(f: ProgressFile, contract: ContractFile?, id: string) returns (reply: CancelReply)
    modifies f, contract
    ensures reply == CancelOutcome(old(f.state), id)
    ensures reply.Cancelled? ==> f.state == Missing && (contract != null ==> !contract.present)
    ensures reply.CancelRejected? ==> f.state == old(f.state) && (contract != null ==> contract.present == old(contract.present))
    ensures f.writes == old(f.writes) && f.count == old(f.count)
  {
    if f.state.Missing? {
      return CancelRejected(Reply(404, "Proceso " + id + " no encontrado"));
    }
    var estadoActual := CurrentState(f.state);
    if estadoActual == "completado" {
      return CancelRejected(Reply(400, "No se puede cancelar un proceso ya completado"));
    }
    f.Delete();
    if contract != null && contract.present {
      contract.Delete();
    }
    var progresoListed := !f.state.Missing?;
    var contratoListed := contract != null && contract.present;
    reply := Cancelled("Proceso " + id + " cancelado exitosamente", estadoActual, progresoListed, contratoListed);
  }

  /** Only a record whose `estado` is "completado" cannot be cancelled; an unreadable or
      legacy file counts as "desconocido" and can be. */
  lemma CancelRules(s: FileState, id: string)
    ensures CancelOutcome(s, id).Cancelled? <==> !s.Missing? && !(s.Dict? && s.rec.estado == Some("completado"))
    ensures CancelOutcome(s, id).Cancelled? && !s.Dict? ==> CancelOutcome(s, id).estadoAnterior == "desconocido"
    ensures CancelOutcome(s, id).Cancelled? ==> !CancelOutcome(s, id).progresoListed && !CancelOutcome(s, id).contratoListed
  {
  }

  /** A full run can be cancelled at any point before its final record, and not after. */
  lemma CancelDuringRun(qs: seq<Row>, rs: seq<Row>, k: nat, now: string, id: string)
    requires k <= |rs|
    ensures CancelOutcome(Dict(Snapshot(qs, rs, k, now)), id).Cancelled?
    ensures CancelOutcome(Dict(Snapshot(qs, rs, k, now)), id).estadoAnterior == "en_progreso"
    ensures CancelOutcome(Dict(Final(qs, rs, now)), id).CancelRejected?
  {
  }

  // ---------------------------------------------------------------------------
  // Process list: listar_procesos

  /** A `*.json` file of the progress directory: its name, content and modification
      time. The ISO timestamp the source sorts on is taken to order like the time. */
  datatype ProgressEntry = ProgressEntry(name: string, content: FileState, mtime: int)

  datatype ProcessInfo = ProcessInfo(
    archivo: string, id: string, estado: string, fechaModificacion: int,
    numResultados: Option<int>, numPreguntas: Option<int>, mensaje: Option<string>)

  /** The summary of one file, or None when reading it raises: unparsable text, or a
      bare list, which has no `.get`. */
  function InfoOf(e: ProgressEntry): Option<ProcessInfo> {
    match e.content
    case Dict(r) =>
      Some(ProcessInfo(e.name, Stem(e.name), if r.estado.Some? then r.estado.value else "desconocido", e.mtime,
                       if r.resultados.Some? then Some(|r.resultados.value|) else None,
                       if r.preguntasOriginales.Some? then Some(|r.preguntasOriginales.value|) else None,
                       r.mensaje))
    case _ => None
  }

  /** The summaries of the readable files, in directory order. */
  function Readable(files: seq<ProgressEntry>): (infos: seq<ProcessInfo>)
    ensures |infos| <= |files|
  {
    if files == [] then []
    else
      var last := InfoOf(files[|files| - 1]);
      Readable(files[..|files| - 1]) + (if last.Some? then [last.value] else [])
  }

  predicate NewestFirst(infos: seq<ProcessInfo>) {
    forall i, j :: 0 <= i < j < |infos| ==> infos[i].fechaModificacion >= infos[j].fechaModificacion
  }

  /** An entry at least as recent as the first of a sorted list can go in front. */
  lemma ConsNewestFirst(h: ProcessInfo, rest: seq<ProcessInfo>)
    requires NewestFirst(rest) && (rest != [] ==> rest[0].fechaModificacion <= h.fechaModificacion)
    ensures NewestFirst([h] + rest)
  {
    var l := [h] + rest;
    forall i, j | 0 <= i < j < |l|
      ensures l[i].fechaModificacion >= l[j].fechaModificacion
    {
      if i == 0 {
        assert l[j] == rest[j - 1];
        if j > 1 {
          assert rest[0].fechaModificacion >= rest[j - 1].fechaModificacion;
        }
      } else {
        assert l[i] == rest[i - 1] && l[j] == rest[j - 1];
      }
    }
  }

  /** Insert after every entry at least as recent, as a stable sort does. */
  function InsertByDate(infos: seq<ProcessInfo>, x: ProcessInfo): (r: seq<ProcessInfo>)
    ensures multiset(r) == multiset(infos) + multiset{x}
    ensures |r| == |infos| + 1
    ensures r[0] == x || (infos != [] && r[0] == infos[0])
    decreases |infos|
  {
    if infos == [] || infos[0].fechaModificacion < x.fechaModificacion then [x] + infos
    else
      var rest := InsertByDate(infos[1..], x);
      assert infos == [infos[0]] + infos[1..];
      [infos[0]] + rest
  }

  /** Inserting into a list sorted newest first keeps it sorted. */
  lemma {:induction false} InsertByDateSorted(infos: seq<ProcessInfo>, x: ProcessInfo)
    requires NewestFirst(infos)
    ensures NewestFirst(InsertByDate(infos, x))
    decreases |infos|
  {
    if infos == [] || infos[0].fechaModificacion < x.fechaModificacion {
      ConsNewestFirst(x, infos);
    } else {
      assert NewestFirst(infos[1..]) by {
        forall i, j | 0 <= i < j < |infos[1..]|
          ensures infos[1..][i].fechaModificacion >= infos[1..][j].fechaModificacion
        {
          assert infos[1..][i] == infos[i + 1] && infos[1..][j] == infos[j + 1];
        }
      }
      InsertByDateSorted(infos[1..], x);
      var rest := InsertByDate(infos[1..], x);
      assert |infos| > 1 ==> infos[0].fechaModificacion >= infos[1].fechaModificacion;
      ConsNewestFirst(infos[0], rest);
    }
  }

  /** `procesos.sort(key=fecha_modificacion, reverse=True)` */
  method SortNewestFirst(infos: seq<ProcessInfo>) returns (sorted: seq<ProcessInfo>)
    ensures NewestFirst(sorted)
    ensures multiset(sorted) == multiset(infos)
  {
    sorted := [];
    for i := 0 to |infos|
      invariant NewestFirst(sorted)
      invariant multiset(sorted) == multiset(infos[..i])
    {
      InsertByDateSorted(sorted, infos[i]);
      sorted := InsertByDate(sorted, infos[i]);
      assert infos[..i + 1] == infos[..i] + [infos[i]];
    }
    assert infos[..|infos|] == infos;
  }

  /** `GET /procesos`: one summary per readable file, newest first. */
  method ListProcesses(files: seq<ProgressEntry>) returns (procesos: seq<ProcessInfo>)
    ensures NewestFirst(procesos)
    ensures multiset(procesos) == multiset(Readable(files))
  {
    var found := [];
    for i := 0 to |files|
      invariant found == Readable(files[..i])
    {
      assert files[..i + 1][..i] == files[..i];
      var info := InfoOf(files[i]);
      if info.Some? {
        found := found + [info.value];
      }
    }
    assert files[..|files|] == files;
    procesos := SortNewestFirst(found);
  }

  /** A file is listed exactly when it holds an object, and each summary counts the
      results and questions its file holds. */
  lemma ReadableSummaries(files: seq<ProgressEntry>, x: ProcessInfo)
    ensures x in Readable(files) <==> exists e :: e in files && InfoOf(e) == Some(x)
  {
    if x in Readable(files) {
      var k := ReadableSource(files, x);
      assert files[k] in files;
    }
    if e :| e in files && InfoOf(e) == Some(x) {
      var k :| 0 <= k < |files| && files[k] == e;
      ReadableHolds(files, k);
    }
  }

  /** Every listed summary comes from a file of the list. */
  lemma {:induction false} ReadableSource(files: seq<ProgressEntry>, x: ProcessInfo) returns (k: int)
    requires x in Readable(files)
    ensures 0 <= k < |files| && InfoOf(files[k]) == Some(x)
    decreases |files|
  {
    var init := files[..|files| - 1];
    if x in Readable(init) {
      k := ReadableSource(init, x);
    } else {
      k := |files| - 1;
    }
  }

  /** Every readable file of the list is listed. */
  lemma {:induction false} ReadableHolds(files: seq<ProgressEntry>, k: int)
    requires 0 <= k < |files| && InfoOf(files[k]).Some?
    ensures InfoOf(files[k]).value in Readable(files)
    decreases |files|
  {
    if k < |files| - 1 {
      ReadableHolds(files[..|files| - 1], k);
    }
  }

  /** A run in progress is listed with as many results as questions answered. */
  lemma ListedDuringRun(name: string, qs: seq<Row>, rs: seq<Row>, k: nat, now: string, mtime: int)
    requires k <= |rs|
    ensures var info := InfoOf(ProgressEntry(name, Dict(Snapshot(qs, rs, k, now)), mtime));
      info.Some? && info.value.estado == "en_progreso" && info.value.numResultados == Some(k) &&
      info.value.numPreguntas == Some(|qs|) && info.value.id == Stem(name)
    ensures InfoOf(ProgressEntry(name, Corrupt, mtime)).None? && InfoOf(ProgressEntry(name, LegacyList(rs), mtime)).None?
  {
  }
}
