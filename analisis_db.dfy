/** The SQLite table `analisis` that records each analysis: its id, file name,
    status, creation time and, once the column exists, its results as JSON text.
    The state of the database file is a class; each operation is a pure function
    on the table's value, which the methods apply. */
module AnalisisDb {
  import opened Records
  import Procesos

  /** One row. `None` is SQL NULL; `createdAt` is the `CURRENT_TIMESTAMP` taken when
      the row was inserted. */
  datatype DbRow = DbRow(filename: Option<string>, estado: Option<string>, resultados: Option<string>, createdAt: int)

  /** The database: whether the table exists, whether it has the column
      `resultados_json`, and the rows by id. */
  datatype DbState = DbState(table: bool, column: bool, rows: map<string, DbRow>)

  /** A table that does not exist has no rows and no column, and rows have no
      results before the column exists. */
  predicate Valid(s: DbState) {
    (!s.table ==> s.rows == map[] && !s.column) &&
    (!s.column ==> forall id :: id in s.rows ==> s.rows[id].resultados.None?)
  }

  const NoTable := "no such table: analisis"
  /** The errors SQLite raises when the results column is missing: in an UPDATE, and
      in the column list of an INSERT. */
  const NoColumn := "no such column: resultados_json"
  const NoColumnNamed := "table analisis has no column named resultados_json"

  // ---------------------------------------------------------------------------
  // init_db

  /** Create the table if absent, then add the column if missing. */
  function Init(s: DbState): (r: DbState)
    ensures r.table && r.column
  {
    var t := if s.table then s else DbState(true, false, map[]);
    if t.column then t else t.(column := true)
  }

  /** Initialising twice is initialising once, and an existing table keeps its rows. */
  lemma InitIdempotent(s: DbState)
    requires Valid(s)
    ensures Init(Init(s)) == Init(s) && Valid(Init(s))
    ensures s.table ==> Init(s).rows == s.rows
    ensures !s.table ==> Init(s).rows == map[]
  {
  }

  // ---------------------------------------------------------------------------
  // guardar_analisis

  /** `INSERT OR REPLACE`: the row is replaced whole, creation time included. */
  function Save(s: DbState, id: string, filename: Option<string>, estado: Option<string>,
                resultados: Option<string>, now: int): Result<DbState>
  {
    if !s.table then Err(NoTable)
    else if !s.column then Err(NoColumnNamed)
    else Ok(s.(rows := s.rows[id := DbRow(filename, estado, resultados, now)]))
  }

  /** After a save exactly one row has the id, holding what was given and nothing
      of the row it replaces; every other row is as it was. */
  lemma SaveUpserts(s: DbState, id: string, filename: Option<string>, estado: Option<string>,
                    resultados: Option<string>, now: int)
    requires Valid(s)
    ensures var r := Save(s, id, filename, estado, resultados, now);
      (r.Err? <==> !(s.table && s.column)) &&
      (r.Ok? ==>
        Valid(r.value) && r.value.table == s.table && r.value.column == s.column &&
        r.value.rows.Keys == s.rows.Keys + {id} &&
        r.value.rows[id] == DbRow(filename, estado, resultados, now) &&
        forall k :: k in s.rows && k != id ==> r.value.rows[k] == s.rows[k])
  {
  }

  // ---------------------------------------------------------------------------
  // actualizar_estado_analisis and actualizar_resultados_analisis

  /** `UPDATE ... WHERE id=?`: the change applied to the matching row, if any. */
  function UpdateRow(rows: map<string, DbRow>, id: string, estado: Option<Option<string>>,
                     resultados: Option<Option<string>>): map<string, DbRow>
  {
    if id !in rows then rows
    else
      var old_ := rows[id];
      rows[id := old_.(estado := if estado.Some? then estado.value else old_.estado,
                       resultados := if resultados.Some? then resultados.value else old_.resultados)]
  }

  /** The status changes, and the results too when they are given. */
  function UpdateEstado(s: DbState, id: string, estado: Option<string>, resultados: Option<string>): Result<DbState> {
    if !s.table then Err(NoTable)
    else if resultados.Some? && !s.column then Err(NoColumn)
    else Ok(s.(rows := UpdateRow(s.rows, id, Some(estado), if resultados.Some? then Some(resultados) else None)))
  }

  /** Only the results change. */
  function UpdateResultados(s: DbState, id: string, resultados: Option<string>): Result<DbState> {
    if !s.table then Err(NoTable)
    else if !s.column then Err(NoColumn)
    else Ok(s.(rows := UpdateRow(s.rows, id, None, Some(resultados))))
  }

  /** An update keeps the ids; an unknown id changes nothing; other rows are
      untouched; the matching row keeps its file name and creation time and takes
      the given status, and the given results when there are any. */
  lemma UpdateEstadoOnlyMatching(s: DbState, id: string, estado: Option<string>, resultados: Option<string>)
    requires Valid(s)
    ensures var r := UpdateEstado(s, id, estado, resultados);
      (r.Err? <==> !s.table || (resultados.Some? && !s.column)) &&
      (r.Ok? ==>
        Valid(r.value) && r.value.rows.Keys == s.rows.Keys &&
        (id !in s.rows ==> r.value == s) &&
        (forall k :: k in s.rows && k != id ==> r.value.rows[k] == s.rows[k]) &&
        (id in s.rows ==>
          r.value.rows[id].estado == estado && r.value.rows[id].filename == s.rows[id].filename &&
          r.value.rows[id].createdAt == s.rows[id].createdAt &&
          r.value.rows[id].resultados == (if resultados.Some? then resultados else s.rows[id].resultados)))
  {
  }

  /** Updating the results leaves every status, file name and creation time as it
      was, and changes the results of the matching row only. */
  lemma UpdateResultadosOnlyResults(s: DbState, id: string, resultados: Option<string>)
    requires Valid(s)
    ensures var r := UpdateResultados(s, id, resultados);
      (r.Err? <==> !(s.table && s.column)) &&
      (r.Ok? ==>
        Valid(r.value) && r.value.rows.Keys == s.rows.Keys &&
        (forall k :: k in s.rows ==>
          r.value.rows[k].estado == s.rows[k].estado && r.value.rows[k].filename == s.rows[k].filename &&
          r.value.rows[k].createdAt == s.rows[k].createdAt &&
          r.value.rows[k].resultados == (if k == id then resultados else s.rows[k].resultados)))
  {
  }

  // ---------------------------------------------------------------------------
  // obtener_analisis_pendientes

  /** `(estado != '✅ Completado' AND estado != '❌ Cancelado') OR estado IS NULL`. */
  predicate IsPending(estado: Option<string>) {
    estado.None? || (estado.value != "✅ Completado" && estado.value != "❌ Cancelado")
  }

  /** A row of a query result: `(id, filename, estado)`, with the creation time the
      rows are ordered by (the query does not return it). */
  datatype Listed = Listed(id: string, filename: Option<string>, estado: Option<string>, createdAt: int)

  function ListedOf(id: string, row: DbRow): Listed {
    Listed(id, row.filename, row.estado, row.createdAt)
  }

  predicate NewestFirst(res: seq<Listed>) {
    forall i, j :: 0 <= i < j < |res| ==> res[i].createdAt >= res[j].createdAt
  }

  predicate DistinctIds(res: seq<Listed>) {
    forall i, j :: 0 <= i < j < |res| ==> res[i].id != res[j].id
  }

  /** Insert after every row at least as recent. */
  function InsertByCreated(res: seq<Listed>, x: Listed): (r: seq<Listed>)
    requires NewestFirst(res) && DistinctIds(res)
    requires forall y :: y in res ==> y.id != x.id
    ensures NewestFirst(r) && DistinctIds(r)
    ensures forall y :: y in r <==> y in res || y == x
  {
    if res == [] || res[0].createdAt < x.createdAt then [x] + res
    else
      var rest := InsertByCreated(res[1..], x);
      assert forall y :: y in res <==> y == res[0] || y in res[1..];
      forall j | 0 <= j < |rest|
        ensures rest[j].createdAt <= res[0].createdAt && rest[j].id != res[0].id
      {
        assert rest[j] in rest;
        if rest[j] != x {
          var k :| 0 <= k < |res[1..]| && res[1..][k] == rest[j];
          assert res[k + 1] == rest[j];
        }
      }
      [res[0]] + rest
  }

  /** `SELECT id, filename, estado FROM analisis WHERE keep(estado) ORDER BY created_at
      DESC`: each kept row once, newest first; rows created in the same second come
      in an order the query leaves open. */
  method SelectNewestFirst(rows: map<string, DbRow>, keep: Option<string> -> bool) returns (res: seq<Listed>)
    ensures NewestFirst(res) && DistinctIds(res)
    ensures forall x :: x in res <==> x.id in rows && keep(rows[x.id].estado) && x == ListedOf(x.id, rows[x.id])
  {
    res := [];
    var left := rows.Keys;
    while left != {}
      invariant left <= rows.Keys
      invariant NewestFirst(res) && DistinctIds(res)
      invariant forall x :: x in res <==>
        x.id in rows && x.id !in left && keep(rows[x.id].estado) && x == ListedOf(x.id, rows[x.id])
      decreases |left|
    {
      var id :| id in left;
      left := left - {id};
      if keep(rows[id].estado) {
        res := InsertByCreated(res, ListedOf(id, rows[id]));
      }
    }
  }

  // ---------------------------------------------------------------------------
  // obtener_resultados_analisis

  /** The stored results parsed, `None` for a missing id or NULL or empty text; `decode`
      is `json.loads`, `None` where it raises. */
  function Results(s: DbState, id: string, decode: string -> Option<Procesos.Value>): Result<Option<Procesos.Value>> {
    if !s.table then Err(NoTable)
    else if !s.column then Err(NoColumn)
    else if id !in s.rows || s.rows[id].resultados.None? || s.rows[id].resultados.value == "" then Ok(None)
    else
      var v := decode(s.rows[id].resultados.value);
      if v.Some? then Ok(Some(v.value)) else Err("JSONDecodeError")
  }

  /** Reading the results fails only when the table or the column is missing or the
      stored text does not parse; it gives None exactly for a missing id and for NULL
      or empty text, and otherwise the parsed value. */
  lemma ResultsCases(s: DbState, id: string, decode: string -> Option<Procesos.Value>)
    ensures var r := Results(s, id, decode);
      var stored := s.table && s.column && id in s.rows && s.rows[id].resultados.Some? && s.rows[id].resultados.value != "";
      (r.Err? <==> !s.table || !s.column || (stored && decode(s.rows[id].resultados.value).None?)) &&
      (r == Ok(None) <==> s.table && s.column && !stored) &&
      (r.Ok? && r.value.Some? ==> stored && decode(s.rows[id].resultados.value) == r.value)
  {
  }

  /** Results saved as text that parses are read back as the parsed value; a row
      saved without results reads back as None. */
  lemma SaveThenResults(s: DbState, id: string, filename: Option<string>, estado: Option<string>,
                        j: Option<string>, now: int, decode: string -> Option<Procesos.Value>)
    requires s.table && s.column
    ensures var s1 := Save(s, id, filename, estado, j, now).value;
      (j.Some? && j.value != "" && decode(j.value).Some? ==> Results(s1, id, decode) == Ok(decode(j.value))) &&
      (j.None? ==> Results(s1, id, decode) == Ok(None))
  {
  }

  /** Changing the status alone keeps the stored results readable. */
  lemma UpdateEstadoKeepsResults(s: DbState, id: string, estado: Option<string>,
                                 decode: string -> Option<Procesos.Value>)
    requires s.table
    ensures UpdateEstado(s, id, estado, None).Ok?
    ensures Results(UpdateEstado(s, id, estado, None).value, id, decode) == Results(s, id, decode)
  {
  }

  // ---------------------------------------------------------------------------
  // The database file

  /** The file `analisis.db`, shared with the older module of the same name. */
  class Table {
    var table: bool
    var column: bool
    var rows: map<string, DbRow>

    function State(): DbState
      reads this
    {
      DbState(table, column, rows)
    }

    /** A database file not created yet. */
    constructor ()
      ensures State() == DbState(false, false, map[])
    {
      table := false;
      column := false;
      rows := map[];
    }

    /** Replaces the contents by a new value. */
    method Store(s: DbState)
      modifies this
      ensures State() == s
    {
      table, column, rows := s.table, s.column, s.rows;
    }

    /** `init_db`. */
    method InitDb()
      modifies this
      ensures State() == Init(old(State()))
    {
      if !table {
        table, column, rows := true, false, map[];
      }
      if !column {
        column := true;
      }
    }

    /** `guardar_analisis`; `err` is the exception raised, if any. */
    method Guardar(id: string, filename: Option<string>, estado: Option<string>, resultados: Option<string>, now: int)
      returns (err: Option<string>)
      modifies this
      ensures var r := Save(old(State()), id, filename, estado, resultados, now);
        (r.Err? ==> err == Some(r.message) && State() == old(State())) &&
        (r.Ok? ==> err == None && State() == r.value)
    {
      if !table {
        return Some(NoTable);
      }
      if !column {
        return Some(NoColumnNamed);
      }
      rows := rows[id := DbRow(filename, estado, resultados, now)];
      err := None;
    }

    /** `actualizar_estado_analisis`. */
    method ActualizarEstado(id: string, estado: Option<string>, resultados: Option<string>) returns (err: Option<string>)
      modifies this
      ensures var r := UpdateEstado(old(State()), id, estado, resultados);
        (r.Err? ==> err == Some(r.message) && State() == old(State())) &&
        (r.Ok? ==> err == None && State() == r.value)
    {
      if !table {
        return Some(NoTable);
      }
      if resultados.Some? && !column {
        return Some(NoColumn);
      }
      if id in rows {
        var row := rows[id];
        rows := rows[id := row.(estado := estado, resultados := if resultados.Some? then resultados else row.resultados)];
      }
      err := None;
    }

    /** `actualizar_resultados_analisis`. */
    method ActualizarResultados(id: string, resultados: Option<string>) returns (err: Option<string>)
      modifies this
      ensures var r := UpdateResultados(old(State()), id, resultados);
        (r.Err? ==> err == Some(r.message) && State() == old(State())) &&
        (r.Ok? ==> err == None && State() == r.value)
    {
      if !table {
        return Some(NoTable);
      }
      if !column {
        return Some(NoColumn);
      }
      if id in rows {
        rows := rows[id := rows[id].(resultados := resultados)];
      }
      err := None;
    }

    /** `obtener_resultados_analisis`; `decode` is `json.loads`. */
    method ObtenerResultados(id: string, decode: string -> Option<Procesos.Value>) returns (r: Result<Option<Procesos.Value>>)
      ensures r == Results(State(), id, decode)
    {
      if !table {
        return Err(NoTable);
      }
      if !column {
        return Err(NoColumn);
      }
      if id !in rows || rows[id].resultados.None? || rows[id].resultados.value == "" {
        return Ok(None);
      }
      var v := decode(rows[id].resultados.value);
      if v.Some? {
        r := Ok(Some(v.value));
      } else {
        r := Err("JSONDecodeError");
      }
    }

    /** `obtener_analisis_pendientes`. */
    method ObtenerPendientes() returns (r: Result<seq<Listed>>)
      ensures r.Err? <==> !table
      ensures r.Ok? ==>
        NewestFirst(r.value) && DistinctIds(r.value) &&
        forall x :: x in r.value <==> x.id in rows && IsPending(rows[x.id].estado) && x == ListedOf(x.id, rows[x.id])
    {
      if !table {
        return Err(NoTable);
      }
      var res := SelectNewestFirst(rows, e => IsPending(e));
      return Ok(res);
    }
  }

  /** A row the process page marks "✅ Completed" stays pending here: only the Spanish
      spelling takes a row out of the pending list. */
  lemma CompletedStaysPending(s: DbState, id: string)
    requires s.table && id in s.rows
    ensures UpdateEstado(s, id, Some("✅ Completed"), None).Ok?
    ensures IsPending(UpdateEstado(s, id, Some("✅ Completed"), None).value.rows[id].estado)
    ensures !IsPending(UpdateEstado(s, id, Some("✅ Completado"), None).value.rows[id].estado)
  {
  }
}
