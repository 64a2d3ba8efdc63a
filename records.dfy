/** The JSON progress record shared by the batch engine, the API and the UI pages,
    and the progress file it is written to. */
module Records {

  datatype Option<T> = None | Some(value: T)

  /** A value, or the text of the exception that prevented it. */
  datatype Result<T> = Ok(value: T) | Err(message: string)

  /** The risk levels an answer is classified into. */
  datatype Risk = Alto | Medio | Bajo | SinEvaluar

  /** The label stored under "Riesgo". */
  function RiskLabel(r: Risk): string {
    match r
    case Alto => "Alto"
    case Medio => "Medio"
    case Bajo => "Bajo"
    case SinEvaluar => "Sin evaluar"
  }

  /** A JSON object whose values are strings: a question row read from the
      spreadsheet, or one entry of `resultados`. Every spreadsheet cell is taken to
      be text, "" when empty; the NaN and numeric cells of pandas are not modelled. */
  type Row = map<string, string>

  /** `row.get(key, default)`. */
  function Get(row: Row, key: string, default: string): (v: string)
    ensures key in row ==> v == row[key]
    ensures key !in row ==> v == default
  {
    if key in row then row[key] else default
  }

  /** The progress record. Every key the engine or its readers interpret has a field
      (`None` when the key is absent); `extra` holds the other keys, such as the
      timestamps `fecha_inicio`, `fecha_modificacion`, `fecha_finalizacion` and
      `fecha_error`, which nothing interprets. */
  datatype Record = Record(
    estado: Option<string>,
    progreso: Option<int>,
    totalPreguntas: Option<int>,
    resultados: Option<seq<Row>>,
    preguntasOriginales: Option<seq<Row>>,
    preguntasEditadas: Option<seq<Row>>,
    numResultados: Option<int>,
    error: Option<string>,
    tipoReanalisis: Option<string>,
    ultimaReanalizada: Option<int>,
    mensaje: Option<string>,
    extra: map<string, string>)

  /** `{}` */
  const Empty := Record(None, None, None, None, None, None, None, None, None, None, None, map[])

  /** What `json.load` finds in the progress file: no file, text that does not parse,
      the bare list of the oldest engine, or an object. */
  datatype FileState = Missing | Corrupt | LegacyList(rows: seq<Row>) | Dict(rec: Record)

  /** One step of a run: a `json.dump` of a new file content, or an exception raised
      by something other than the dump. */
  datatype Step = Put(content: FileState) | Throw(message: string)

  /** The progress file on disk. Every `json.dump` is numbered; `faults` maps the
      numbers of the dumps that raise to their exception text. A dump that raises
      has already truncated the file, so it leaves it `Corrupt`; an `open` that
      raises before truncating is not modelled. `writes` is the
      sequence of contents a poller could observe, one per dump. */
  class ProgressFile {
    var state: FileState
    var count: nat
    const faults: map<nat, string>
    ghost var writes: seq<FileState>

    constructor (initial: FileState, faults: map<nat, string>)
      ensures state == initial && count == 0 && this.faults == faults && writes == []
    {
      state := initial;
      count := 0;
      this.faults := faults;
      writes := [];
    }

    /** `with open(path, "w") as f: json.dump(content, f)` */
    method Dump(content: FileState) returns (err: Option<string>)
      modifies this
      ensures count == old(count) + 1
      ensures err == (if old(count) in faults then Some(faults[old(count)]) else None)
      ensures state == (if err.Some? then Corrupt else content)
      ensures writes == old(writes) + [state]
    {
      if count in faults {
        err := Some(faults[count]);
        state := Corrupt;
      } else {
        err := None;
        state := content;
      }
      count := count + 1;
      writes := writes + [state];
    }

    /** `path.unlink()` */
    method Delete()
      modifies this
      ensures state == Missing && count == old(count) && writes == old(writes)
    {
      state := Missing;
    }
  }

  /** The file contents a run leaves behind when it performs `plan` from dump number
      `n` on: the steps are carried out in order until a dump or another statement
      raises; the second component is the exception, if any. */
  function Execute(plan: seq<Step>, n: nat, faults: map<nat, string>): (r: (seq<FileState>, Option<string>))
    ensures |r.0| <= |plan|
    ensures r.1.None? ==> |r.0| == |plan|
    decreases |plan|
  {
    if plan == [] then ([], None)
    else match plan[0]
      case Throw(m) => ([], Some(m))
      case Put(c) =>
        if n in faults then ([Corrupt], Some(faults[n]))
        else
          var rest := Execute(plan[1..], n + 1, faults);
          ([c] + rest.0, rest.1)
  }

  /** The content of a dump numbered `n`. */
  function Outcome(c: FileState, n: nat, faults: map<nat, string>): FileState {
    if n in faults then Corrupt else c
  }

  /** The effect of one more step after a run that ended as `before`, the step's
      dump (if it is one) being numbered `n`. */
  function Then(before: (seq<FileState>, Option<string>), s: Step, n: nat, faults: map<nat, string>): (seq<FileState>, Option<string>) {
    if before.1.Some? then before
    else match s
      case Throw(m) => (before.0, Some(m))
      case Put(c) => (before.0 + [Outcome(c, n, faults)], if n in faults then Some(faults[n]) else None)
  }

  /** Executing a plan and then one more step. */
  lemma {:induction false} ExecuteSnoc(plan: seq<Step>, s: Step, n: nat, faults: map<nat, string>)
    ensures Execute(plan + [s], n, faults) ==
            Then(Execute(plan, n, faults), s, n + |Execute(plan, n, faults).0|, faults)
    decreases |plan|
  {
    if plan == [] {
      assert plan + [s] == [s];
      assert [s][1..] == [];
      if s.Put? && n !in faults {
        assert Execute([s], n, faults) == ([s.content] + [], None);
        assert [s.content] + [] == [] + [s.content];
      } else if s.Put? {
        assert [] + [Corrupt] == [Corrupt];
      }
    } else {
      assert (plan + [s])[0] == plan[0];
      assert (plan + [s])[1..] == plan[1..] + [s];
      if plan[0].Put? && n !in faults {
        ExecuteSnoc(plan[1..], s, n + 1, faults);
        var c := plan[0].content;
        var rest := Execute(plan[1..], n + 1, faults);
        assert Execute(plan, n, faults) == ([c] + rest.0, rest.1);
        if rest.1.None? && s.Put? {
          var o := Outcome(s.content, n + 1 + |rest.0|, faults);
          assert [c] + rest.0 + [o] == [c] + (rest.0 + [o]);
        }
      }
    }
  }

  /** A plan of one step. */
  lemma ExecuteOne(s: Step, n: nat, faults: map<nat, string>)
    ensures Execute([s], n, faults) == Then(([], None), s, n, faults)
  {
    ExecuteSnoc([], s, n, faults);
    assert [] + [s] == [s];
  }

  /** A run in which no dump faults and nothing raises writes its plan verbatim. */
  lemma {:induction false} ExecuteFaultFree(plan: seq<Step>, n: nat, faults: map<nat, string>)
    requires forall k :: 0 <= k < |plan| ==> plan[k].Put?
    requires forall k :: n <= k < n + |plan| ==> k !in faults
    ensures Execute(plan, n, faults).1 == None
    ensures Execute(plan, n, faults).0 == seq(|plan|, k requires 0 <= k < |plan| => plan[k].content)
    decreases |plan|
  {
    if plan != [] {
      ExecuteFaultFree(plan[1..], n + 1, faults);
    }
  }

  /** A run whose dumps all succeed until its last step raises. */
  lemma ExecuteUntilThrow(plan: seq<Step>, n: nat, faults: map<nat, string>)
    requires plan != [] && plan[|plan| - 1].Throw?
    requires forall k :: 0 <= k < |plan| - 1 ==> plan[k].Put?
    requires forall k :: n <= k < n + |plan| - 1 ==> k !in faults
    ensures Execute(plan, n, faults).1 == Some(plan[|plan| - 1].message)
    ensures Execute(plan, n, faults).0 == seq(|plan| - 1, k requires 0 <= k < |plan| - 1 => plan[k].content)
  {
    var init := plan[..|plan| - 1];
    ExecuteFaultFree(init, n, faults);
    ExecuteSnoc(init, plan[|plan| - 1], n, faults);
    assert init + [plan[|plan| - 1]] == plan;
  }

  /** Every content written before the first failure is the planned one, in order. */
  lemma {:induction false} ExecuteFollowsPlan(plan: seq<Step>, n: nat, faults: map<nat, string>, k: int)
    requires 0 <= k < |Execute(plan, n, faults).0|
    ensures k < |plan|
    ensures k < |Execute(plan, n, faults).0| - 1 || Execute(plan, n, faults).1.None? ==>
            plan[k].Put? && Execute(plan, n, faults).0[k] == plan[k].content
    decreases |plan|
  {
    if k > 0 {
      ExecuteFollowsPlan(plan[1..], n + 1, faults, k - 1);
    }
  }

  /** Once a step has raised, the rest of the plan is never reached. */
  lemma {:induction false} ExecuteFailedPrefix(plan: seq<Step>, rest: seq<Step>, n: nat, faults: map<nat, string>)
    requires Execute(plan, n, faults).1.Some?
    ensures Execute(plan + rest, n, faults) == Execute(plan, n, faults)
    decreases |plan|
  {
    assert plan != [];
    assert (plan + rest)[0] == plan[0];
    assert (plan + rest)[1..] == plan[1..] + rest;
    if plan[0].Put? && n !in faults {
      ExecuteFailedPrefix(plan[1..], rest, n + 1, faults);
    }
  }

  /** Taking one more element of a sequence. */
  lemma TakeSnoc<T>(s: seq<T>, i: nat)
    requires i < |s|
    ensures s[..i + 1] == s[..i] + [s[i]]
  {
  }

  /** The file content after a sequence of dumps. */
  function After(start: FileState, writes: seq<FileState>): FileState {
    if writes == [] then start else writes[|writes| - 1]
  }

  /** Since the file held `s0` with `w0` written and `n0` dumps done, the run has
      carried out `plan` and stopped with `err`. */
  ghost predicate Ran(f: ProgressFile, plan: seq<Step>, n0: nat, w0: seq<FileState>, s0: FileState, err: Option<string>)
    reads f
  {
    var x := Execute(plan, n0, f.faults);
    f.writes == w0 + x.0 && err == x.1 && f.count == n0 + |x.0| && f.state == After(s0, x.0)
  }

  /** The empty plan has been carried out at the start. */
  lemma RanNothing(f: ProgressFile)
    ensures Ran(f, [], f.count, f.writes, f.state, None)
  {
  }

  /** Carrying out one more dump of the plan. */
  method DumpNext(f: ProgressFile, c: FileState, ghost plan: seq<Step>, ghost k: nat,
                  ghost n0: nat, ghost w0: seq<FileState>, ghost s0: FileState) returns (err: Option<string>)
    requires k < |plan| && plan[k] == Put(c)
    requires Ran(f, plan[..k], n0, w0, s0, None)
    modifies f
    ensures Ran(f, plan[..k + 1], n0, w0, s0, err)
  {
    ExecuteSnoc(plan[..k], plan[k], n0, f.faults);
    assert plan[..k + 1] == plan[..k] + [plan[k]];
    err := f.Dump(c);
  }

  /** A statement of the plan raises. */
  lemma RanThrow(f: ProgressFile, plan: seq<Step>, k: nat, n0: nat, w0: seq<FileState>, s0: FileState)
    requires k < |plan| && plan[k].Throw?
    requires Ran(f, plan[..k], n0, w0, s0, None)
    ensures Ran(f, plan[..k + 1], n0, w0, s0, Some(plan[k].message))
  {
    ExecuteSnoc(plan[..k], plan[k], n0, f.faults);
    assert plan[..k + 1] == plan[..k] + [plan[k]];
  }

  /** A run that stopped has carried out the whole plan, as far as the file can tell. */
  lemma RanStopped(f: ProgressFile, plan: seq<Step>, k: nat, n0: nat, w0: seq<FileState>, s0: FileState, err: Option<string>)
    requires k <= |plan| && Ran(f, plan[..k], n0, w0, s0, err)
    requires err.Some? || k == |plan|
    ensures Ran(f, plan, n0, w0, s0, err)
  {
    if k < |plan| {
      ExecuteFailedPrefix(plan[..k], plan[k..], n0, f.faults);
      assert plan[..k] + plan[k..] == plan;
    } else {
      assert plan[..k] == plan;
    }
  }
}
