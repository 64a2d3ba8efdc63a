/** The stand-alone batch script: a simulated answerer and a loop that rewrites the
    progress file as a bare JSON list after every question. */
module Batch {
  import opened Text
  import opened Records
  import MainApi

  // ---------------------------------------------------------------------------
  // The simulated answerer: analizar_pregunta

  /** The simulated answer of a question. The section and the contract text are
      accepted and ignored. */
  function SimulatedAnswer(pregunta: string, seccion: string, texto: string): (r: Row)
    ensures r.Keys == {"Respuesta", "Riesgo"}
  {
    map["Respuesta" := "Respuesta a: " + Head(pregunta, 40) + "...",
        "Riesgo" := if Contains(Lower(pregunta), "terminate") then "Alto" else "Bajo"]
  }

  const AnswerLead := "Respuesta a: "

  /** The answer quotes the question: between the fixed lead and the trailing dots
      stand the first 40 characters of the question, or all of it when shorter. */
  lemma AnswerQuotesQuestion(pregunta: string, seccion: string, texto: string)
    ensures var a := SimulatedAnswer(pregunta, seccion, texto)["Respuesta"];
      |a| == |AnswerLead| + (if |pregunta| < 40 then |pregunta| else 40) + 3 &&
      a[..|AnswerLead|] == AnswerLead && a[|a| - 3..] == "..." &&
      a[|AnswerLead|..|a| - 3] == pregunta[..|a| - |AnswerLead| - 3]
  {
    var h := Head(pregunta, 40);
    var a := AnswerLead + h + "...";
    assert a == SimulatedAnswer(pregunta, seccion, texto)["Respuesta"];
    assert a[..|AnswerLead|] == AnswerLead;
    assert a[|a| - 3..] == "...";
    assert a[|AnswerLead|..|a| - 3] == h;
  }

  /** The risk is one of two labels, and "Alto" exactly when the lower-cased question
      mentions "terminate". */
  lemma RiskIsAltoOrBajo(pregunta: string, seccion: string, texto: string)
    ensures var r := SimulatedAnswer(pregunta, seccion, texto)["Riesgo"];
      (r == "Alto" <==> Contains(Lower(pregunta), "terminate")) &&
      (r == "Bajo" <==> !Contains(Lower(pregunta), "terminate"))
  {
  }

  /** The answer depends on the question alone: neither the section nor the contract
      text changes it. */
  lemma AnswerIgnoresContext(pregunta: string, s1: string, t1: string, s2: string, t2: string)
    ensures SimulatedAnswer(pregunta, s1, t1) == SimulatedAnswer(pregunta, s2, t2)
  {
  }

  /** Lower-casing an upper-cased text gives the lower-cased text. */
  lemma LowerOfUpper(s: string)
    ensures Lower(Upper(s)) == Lower(s)
  {
    assert forall i :: 0 <= i < |s| ==> LowerChar(UpperChar(s[i])) == LowerChar(s[i]);
  }

  /** Writing the question in capitals does not change the risk. */
  lemma RiskIgnoresCase(pregunta: string, seccion: string, texto: string)
    ensures SimulatedAnswer(Upper(pregunta), seccion, texto)["Riesgo"] == SimulatedAnswer(pregunta, seccion, texto)["Riesgo"]
  {
    LowerOfUpper(pregunta);
  }

  // ---------------------------------------------------------------------------
  // The loop: main

  /** The contract text the script passes to the answerer. */
  const ContractText := "Texto simulado del contrato..."

  /** The columns each row is read from, in the order the loop reads them. */
  const Columns := ["Número de Pregunta", "Pregunta", "Sección"]

  /** The first column the row lacks, in reading order: reading it raises KeyError. */
  function MissingColumn(row: Row): (k: Option<string>)
    ensures k.None? <==> forall i :: 0 <= i < |Columns| ==> Columns[i] in row
    ensures k.Some? ==>
              k.value !in row &&
              exists i :: 0 <= i < |Columns| && Columns[i] == k.value && forall j :: 0 <= j < i ==> Columns[j] in row
  {
    assert Columns[0] == "Número de Pregunta" && Columns[1] == "Pregunta" && Columns[2] == "Sección";
    if "Número de Pregunta" !in row then Some("Número de Pregunta")
    else if "Pregunta" !in row then Some("Pregunta")
    else if "Sección" !in row then Some("Sección")
    else None
  }

  /** The text of the KeyError raised for a missing column. */
  function KeyErrorText(key: string): string {
    "'" + key + "'"
  }

  /** The result stored for a complete row. */
  function BatchResult(row: Row): (r: Row)
    requires MissingColumn(row).None?
    ensures r.Keys == {"Número", "Pregunta", "Sección", "Estado", "Respuesta", "Riesgo"}
  {
    var salida := SimulatedAnswer(row["Pregunta"], row["Sección"], ContractText);
    map["Número" := row["Número de Pregunta"], "Pregunta" := row["Pregunta"], "Sección" := row["Sección"],
        "Estado" := "✅ Completed", "Respuesta" := salida["Respuesta"], "Riesgo" := salida["Riesgo"]]
  }

  /** The number of leading rows with every column: the loop raises at the first row
      that lacks one. */
  function Complete(rows: seq<Row>): (m: nat)
    ensures m <= |rows|
    ensures forall k :: 0 <= k < m ==> MissingColumn(rows[k]).None?
    ensures m < |rows| ==> MissingColumn(rows[m]).Some?
  {
    if rows == [] || MissingColumn(rows[0]).Some? then 0 else 1 + Complete(rows[1..])
  }

  /** The results of the rows the loop gets through. */
  function BatchResults(rows: seq<Row>): (rs: seq<Row>)
    ensures |rs| == Complete(rows)
  {
    var m := Complete(rows);
    seq(m, k requires 0 <= k < m => BatchResult(rows[k]))
  }

  /** The steps of a run: the question sheet cannot be read, or one dump of the list
      so far per complete row, then the KeyError of the first incomplete row. */
  function BatchPlan(sheet: Result<seq<Row>>): (plan: seq<Step>)
  {
    match sheet
    case Err(m) => [Throw(m)]
    case Ok(rows) =>
      var rs := BatchResults(rows);
      var m := |rs|;
      seq(if m < |rows| then m + 1 else m, j requires 0 <= j < (if m < |rows| then m + 1 else m) =>
        if j < m then Put(LegacyList(rs[..j + 1])) else Throw(KeyErrorText(MissingColumn(rows[m]).value)))
  }

  /** `main`: `sheet` is the question sheet as read, or the exception reading it raised;
      `err` is the exception that ends the script, if any. */
  method RunBatch(f: ProgressFile, sheet: Result<seq<Row>>) returns (err: Option<string>)
    modifies f
    ensures Ran(f, BatchPlan(sheet), old(f.count), old(f.writes), old(f.state), err)
  {
    ghost var n0, w0, s0 := f.count, f.writes, f.state;
    ghost var plan := BatchPlan(sheet);
    RanNothing(f);
    assert plan[..0] == [];
    if sheet.Err? {
      RanThrow(f, plan, 0, n0, w0, s0);
      RanStopped(f, plan, 1, n0, w0, s0, Some(sheet.message));
      return Some(sheet.message);
    }
    var rows := sheet.value;
    ghost var rs := BatchResults(rows);
    var results := [];
    err := None;
    var i := 0;
    while i < |rows| && err.None?
      invariant 0 <= i <= |rs|
      invariant results == rs[..i]
      invariant Ran(f, plan[..i], n0, w0, s0, err)
    {
      var row := rows[i];
      var missing := MissingColumn(row);
      if missing.Some? {
        RanThrow(f, plan, i, n0, w0, s0);
        RanStopped(f, plan, i + 1, n0, w0, s0, Some(KeyErrorText(missing.value)));
        return Some(KeyErrorText(missing.value));
      }
      results := BatchStep(rows, results, i);
      err := DumpNext(f, LegacyList(results), plan, i, n0, w0, s0);
      i := i + 1;
    }
    RanStopped(f, plan, i, n0, w0, s0, err);
  }

  /** One pass of the loop: the result of row `i` appended to the list. */
  method BatchStep(rows: seq<Row>, done: seq<Row>, i: nat) returns (results: seq<Row>)
    requires i < |rows| && MissingColumn(rows[i]).None?
    requires i <= Complete(rows) && done == BatchResults(rows)[..i]
    ensures i < Complete(rows) && results == BatchResults(rows)[..i + 1]
  {
    var row := rows[i];
    var result := map["Número" := row["Número de Pregunta"], "Pregunta" := row["Pregunta"],
                      "Sección" := row["Sección"], "Estado" := "✅ Completed", "Respuesta" := "", "Riesgo" := ""];
    var salida := SimulatedAnswer(row["Pregunta"], row["Sección"], ContractText);
    result := result["Respuesta" := salida["Respuesta"]];
    result := result["Riesgo" := salida["Riesgo"]];
    assert result == BatchResult(row);
    TakeSnoc(BatchResults(rows), i);
    results := done + [result];
  }

  // ---------------------------------------------------------------------------
  // What the runs write

  /** One result per row, in order, copying the row's columns and marked completed
      in English. */
  lemma ResultCopiesRow(rows: seq<Row>, k: int)
    requires 0 <= k < Complete(rows)
    ensures var r := BatchResults(rows)[k];
      r["Número"] == rows[k]["Número de Pregunta"] && r["Pregunta"] == rows[k]["Pregunta"] &&
      r["Sección"] == rows[k]["Sección"] && r["Estado"] == "✅ Completed" &&
      r["Respuesta"] == SimulatedAnswer(rows[k]["Pregunta"], "", "")["Respuesta"]
  {
  }

  /** With no failed dump and every column present, the `k`-th dump writes a bare list
      of exactly the first `k` results, and the run ends without an exception. */
  lemma BatchFaultFree(rows: seq<Row>, n: nat, faults: map<nat, string>, k: int)
    requires Complete(rows) == |rows|
    requires forall j :: n <= j < n + |rows| ==> j !in faults
    requires 1 <= k <= |rows|
    ensures Execute(BatchPlan(Ok(rows)), n, faults).1 == None
    ensures var ws := Execute(BatchPlan(Ok(rows)), n, faults).0;
      |ws| == |rows| && ws[k - 1] == LegacyList(BatchResults(rows)[..k]) && |ws[k - 1].rows| == k
  {
    var plan := BatchPlan(Ok(rows));
    ExecuteFaultFree(plan, n, faults);
  }

  /** A row without one of the columns stops the script with the KeyError of the
      first missing one: the file keeps the list of the rows before it. */
  lemma BatchStopsAtIncompleteRow(rows: seq<Row>, n: nat, faults: map<nat, string>)
    requires Complete(rows) < |rows|
    requires forall j :: n <= j < n + |rows| ==> j !in faults
    ensures var x := Execute(BatchPlan(Ok(rows)), n, faults);
      x.1 == Some(KeyErrorText(MissingColumn(rows[Complete(rows)]).value)) &&
      |x.0| == Complete(rows) &&
      (Complete(rows) > 0 ==> x.0[|x.0| - 1] == LegacyList(BatchResults(rows)))
  {
    var plan := BatchPlan(Ok(rows));
    var m := Complete(rows);
    ExecuteUntilThrow(plan, n, faults);
    if m > 0 {
      assert BatchResults(rows)[..m] == BatchResults(rows);
    }
  }

  /** The status endpoint's migration of a bare list never reports a batch file as
      completed: the rows are marked "✅ Completed", and the migration looks for
      "✅ Completado". */
  lemma BatchNeverCompletes(rows: seq<Row>, k: int)
    requires 1 <= k <= Complete(rows)
    ensures MainApi.Status(LegacyList(BatchResults(rows)[..k])).estado == "en_progreso"
  {
    var written := BatchResults(rows)[..k];
    assert written[0]["Estado"] == "✅ Completed";
    assert !MainApi.RowCompleted(written[0]);
  }
}
