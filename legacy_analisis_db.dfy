/** The older module over the same `analisis.db` file: it knows no results column,
    and its pending list leaves out only rows marked "✅ Completed". */
module LegacyAnalisisDb {
  import opened Records
  import opened AnalisisDb

  /** `init_db`: creates the table if absent and nothing more. */
  function LegacyInit(s: DbState): (r: DbState)
    ensures r.table && r.column == (s.table && s.column)
  {
    if s.table then s else DbState(true, false, map[])
  }

  /** Initialising is idempotent and keeps an existing table as it is; run with the
      newer initialisation, in either order, the result is the newer one's. */
  lemma LegacyInitIdempotent(s: DbState)
    requires Valid(s)
    ensures LegacyInit(LegacyInit(s)) == LegacyInit(s) && Valid(LegacyInit(s))
    ensures s.table ==> LegacyInit(s) == s
    ensures Init(LegacyInit(s)) == Init(s) && LegacyInit(Init(s)) == Init(s)
  {
  }

  /** `guardar_analisis`: `INSERT OR REPLACE` of the three columns; the results of a
      replaced row become NULL. */
  function LegacySave(s: DbState, id: string, filename: Option<string>, estado: Option<string>, now: int): Result<DbState> {
    if !s.table then Err(NoTable)
    else Ok(s.(rows := s.rows[id := DbRow(filename, estado, None, now)]))
  }

  /** A save upserts by id and drops any results the row held; other rows are as they
      were. Where the newer module can save, the legacy save is its save without
      results. */
  lemma LegacySaveUpserts(s: DbState, id: string, filename: Option<string>, estado: Option<string>, now: int)
    requires Valid(s)
    ensures var r := LegacySave(s, id, filename, estado, now);
      (r.Err? <==> !s.table) &&
      (r.Ok? ==>
        Valid(r.value) && r.value.rows.Keys == s.rows.Keys + {id} &&
        r.value.rows[id] == DbRow(filename, estado, None, now) &&
        (forall k :: k in s.rows && k != id ==> r.value.rows[k] == s.rows[k]))
    ensures s.column ==> LegacySave(s, id, filename, estado, now) == Save(s, id, filename, estado, None, now)
  {
  }

  /** `actualizar_estado_analisis`: only the status of the matching row. */
  function LegacyUpdateEstado(s: DbState, id: string, estado: Option<string>): Result<DbState> {
    if !s.table then Err(NoTable)
    else if id in s.rows then Ok(s.(rows := s.rows[id := s.rows[id].(estado := estado)]))
    else Ok(s)
  }

  /** The legacy update is the newer one without results: the status of the matching
      row changes, and an unknown id changes nothing. */
  lemma LegacyUpdateIsUpdate(s: DbState, id: string, estado: Option<string>)
    ensures LegacyUpdateEstado(s, id, estado) == UpdateEstado(s, id, estado, None)
    ensures id !in s.rows && s.table ==> LegacyUpdateEstado(s, id, estado) == Ok(s)
  {
  }

  /** `estado != '✅ Completed' OR estado IS NULL`. */
  predicate LegacyIsPending(estado: Option<string>) {
    estado.None? || estado.value != "✅ Completed"
  }

  /** The two pending lists disagree on exactly three statuses: the newer module drops
      "✅ Completado" and "❌ Cancelado" and keeps "✅ Completed"; the legacy module
      does the opposite. */
  lemma PendingRulesDiffer(e: Option<string>)
    ensures IsPending(e) != LegacyIsPending(e) <==>
      e == Some("✅ Completado") || e == Some("❌ Cancelado") || e == Some("✅ Completed")
    ensures e == Some("❌ Cancelado") ==> LegacyIsPending(e) && !IsPending(e)
  {
  }

  /** `init_db` on the shared file. */
  method LegacyInitDb(t: Table)
    modifies t
    ensures t.State() == LegacyInit(old(t.State()))
  {
    if !t.table {
      t.Store(DbState(true, false, map[]));
    }
  }

  /** `guardar_analisis` on the shared file; `err` is the exception raised, if any. */
  method LegacyGuardar(t: Table, id: string, filename: Option<string>, estado: Option<string>, now: int)
    returns (err: Option<string>)
    modifies t
    ensures var r := LegacySave(old(t.State()), id, filename, estado, now);
      (r.Err? ==> err == Some(r.message) && t.State() == old(t.State())) &&
      (r.Ok? ==> err == None && t.State() == r.value)
  {
    if !t.table {
      return Some(NoTable);
    }
    t.Store(DbState(t.table, t.column, t.rows[id := DbRow(filename, estado, None, now)]));
    err := None;
  }

  /** `actualizar_estado_analisis` on the shared file. */
  method LegacyActualizarEstado(t: Table, id: string, estado: Option<string>) returns (err: Option<string>)
    modifies t
    ensures var r := LegacyUpdateEstado(old(t.State()), id, estado);
      (r.Err? ==> err == Some(r.message) && t.State() == old(t.State())) &&
      (r.Ok? ==> err == None && t.State() == r.value)
  {
    if !t.table {
      return Some(NoTable);
    }
    if id in t.rows {
      t.Store(DbState(t.table, t.column, t.rows[id := t.rows[id].(estado := estado)]));
    }
    err := None;
  }

  /** `obtener_analisis_pendientes` on the shared file. */
  method LegacyPendientes(t: Table) returns (r: Result<seq<Listed>>)
    ensures r.Err? <==> !t.table
    ensures r.Ok? ==>
      NewestFirst(r.value) && DistinctIds(r.value) &&
      forall x :: x in r.value <==> x.id in t.rows && LegacyIsPending(t.rows[x.id].estado) && x == ListedOf(x.id, t.rows[x.id])
  {
    if !t.table {
      return Err(NoTable);
    }
    var res := SelectNewestFirst(t.rows, e => LegacyIsPending(e));
    return Ok(res);
  }
}
