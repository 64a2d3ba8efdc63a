/** The analysis page: the progress shown in the detail dialog, the payload of the
    global re-analysis, and the history list with its quick date filters, date
    bounds and pagination. The page's session state is the class `Session`. */
module DocumentAnalyzer {
  import opened Text
  import opened Records
  import Procesos

  // ---------------------------------------------------------------------------
  // The detail dialog: progress

  const Completado := "✅ Completado"

  /** The questions the dialog counts: `preguntas_originales` when present and not
      empty, else `resultados`, else none. */
  function DialogQuestions(originales: Option<seq<Row>>, resultados: Option<seq<Row>>): seq<Row> {
    if originales.Some? && originales.value != [] then originales.value
    else if resultados.Some? then resultados.value
    else []
  }

  /** The number of results whose "Estado" is "✅ Completado". */
  function CountCompleted(rs: seq<Row>): (n: nat)
    ensures n <= |rs|
  {
    if rs == [] then 0
    else (if "Estado" in rs[0] && rs[0]["Estado"] == Completado then 1 else 0) + CountCompleted(rs[1..])
  }

  /** `int(100 * num_completadas / max(1, total))`: the numerator is never negative,
      so the truncation is a floor. */
  function DialogPercent(originales: Option<seq<Row>>, resultados: Option<seq<Row>>): int {
    var rs := if resultados.Some? then resultados.value else [];
    var total := |DialogQuestions(originales, resultados)|;
    (100 * CountCompleted(rs)) / (if total > 0 then total else 1)
  }

  /** The dialog's percentage is the one the process page computes from the same
      counts. */
  lemma DialogPercentAsProcesos(originales: Option<seq<Row>>, resultados: Option<seq<Row>>)
    ensures var rs := if resultados.Some? then resultados.value else [];
      var total := |DialogQuestions(originales, resultados)|;
      total > 0 ==> DialogPercent(originales, resultados) == Procesos.Percent(CountCompleted(rs), total)
  {
  }

  /** Without a non-empty list of original questions, the questions are the results
      themselves: the percentage lies between 0 and 100, and is 100 exactly when
      every result is completed (or there is none). */
  lemma DialogPercentOfResults(resultados: Option<seq<Row>>)
    ensures var rs := if resultados.Some? then resultados.value else [];
      var p := DialogPercent(None, resultados);
      0 <= p <= 100 && (p == 100 <==> rs != [] && CountCompleted(rs) == |rs|)
  {
    var rs := if resultados.Some? then resultados.value else [];
    if rs != [] {
      DialogPercentAsProcesos(None, resultados);
      Procesos.PercentBounds(CountCompleted(rs), |rs|);
      Procesos.PercentFull(CountCompleted(rs), |rs|);
    }
  }

  /** With a non-empty list of original questions and no more completed results
      than questions, the percentage lies between 0 and 100 and is 100 exactly when
      there are as many completed results as questions. */
  lemma DialogPercentOfOriginals(originales: seq<Row>, resultados: Option<seq<Row>>)
    requires originales != []
    requires CountCompleted(if resultados.Some? then resultados.value else []) <= |originales|
    ensures var n := CountCompleted(if resultados.Some? then resultados.value else []);
      var p := DialogPercent(Some(originales), resultados);
      0 <= p <= 100 && (p == 100 <==> n == |originales|)
  {
    var n := CountCompleted(if resultados.Some? then resultados.value else []);
    DialogPercentAsProcesos(Some(originales), resultados);
    Procesos.PercentBounds(n, |originales|);
    Procesos.PercentFull(n, |originales|);
  }

  // ---------------------------------------------------------------------------
  // The global re-analysis payload

  /** The session key of the edited text of question `idx`. */
  function EditKey(idx: nat): string {
    "preg_modal_" + NatToString(idx)
  }

  /** Two questions never share an edit key. */
  lemma EditKeyInjective(i: nat, j: nat)
    requires EditKey(i) == EditKey(j)
    ensures i == j
  {
    var p := "preg_modal_";
    assert NatToString(i) == EditKey(i)[|p|..];
    assert NatToString(j) == EditKey(j)[|p|..];
    Procesos.DigitsOfNat(i);
    Procesos.DigitsOfNat(j);
  }

  /** The entry of question `preg` at position `idx`: its number, the text edited in
      the session when there is one (else its own text), and its own section. */
  function PayloadEntry(preg: Row, idx: nat, session: map<string, string>): Row {
    map["numero" := Get(preg, "Número", ""),
        "pregunta" := Get(session, EditKey(idx), Get(preg, "Pregunta", "")),
        "seccion" := Get(preg, "Sección", "")]
  }

  /** The list `preguntas_para_reanalisar`. */
  function Payload(preguntas: seq<Row>, session: map<string, string>): (ps: seq<Row>)
    ensures |ps| == |preguntas|
  {
    seq(|preguntas|, k requires 0 <= k < |preguntas| => PayloadEntry(preguntas[k], k, session))
  }

  /** The loop that collects the questions to re-analyse, one entry per question in
      order. */
  method BuildPayload(preguntas: seq<Row>, session: map<string, string>) returns (payload: seq<Row>)
    ensures payload == Payload(preguntas, session)
  {
    payload := [];
    var idx := 0;
    while idx < |preguntas|
      invariant 0 <= idx <= |preguntas|
      invariant payload == Payload(preguntas, session)[..idx]
    {
      var preg := preguntas[idx];
      var editKey := "preg_modal_" + NatToString(idx);
      var preguntaActual := if editKey in session then session[editKey] else Get(preg, "Pregunta", "");
      var seccionActual := Get(preg, "Sección", "");
      TakeSnoc(Payload(preguntas, session), idx);
      payload := payload + [map["numero" := Get(preg, "Número", ""), "pregunta" := preguntaActual,
                                "seccion" := seccionActual]];
      idx := idx + 1;
    }
  }

  /** Every entry carries the question's number and section; its text is the edited
      one exactly when the session holds an edit for that position. */
  lemma PayloadEntries(preguntas: seq<Row>, session: map<string, string>, k: int)
    requires 0 <= k < |preguntas|
    ensures var e := Payload(preguntas, session)[k];
      e.Keys == {"numero", "pregunta", "seccion"} &&
      e["numero"] == Get(preguntas[k], "Número", "") && e["seccion"] == Get(preguntas[k], "Sección", "") &&
      (EditKey(k) in session ==> e["pregunta"] == session[EditKey(k)]) &&
      (EditKey(k) !in session ==> e["pregunta"] == Get(preguntas[k], "Pregunta", ""))
  {
  }

  /** Editing question `k` in the session changes the text of entry `k` and nothing
      else in the payload. */
  lemma EditChangesOneEntry(preguntas: seq<Row>, session: map<string, string>, k: nat, t: string)
    requires k < |preguntas|
    ensures var before := Payload(preguntas, session);
      Payload(preguntas, session[EditKey(k) := t]) == before[k := before[k]["pregunta" := t]]
  {
    var before := Payload(preguntas, session);
    var after := Payload(preguntas, session[EditKey(k) := t]);
    forall j | 0 <= j < |preguntas| && j != k
      ensures after[j] == before[j]
    {
      if EditKey(j) == EditKey(k) {
        EditKeyInjective(j, k);
      }
    }
    assert after[k] == before[k]["pregunta" := t];
    assert |after| == |before[k := before[k]["pregunta" := t]]|;
  }

  // ---------------------------------------------------------------------------
  // The history: quick date filters

  /** A date is its proleptic Gregorian ordinal (`date.toordinal()`); the clock gives
      today's ordinal and its day of the month. */
  datatype Clock = Clock(ordinal: int, day: int)

  predicate ValidClock(c: Clock) {
    1 <= c.day <= 31 && c.day <= c.ordinal
  }

  /** `date.weekday()`: 0 for Monday; the ordinal 1 is a Monday. */
  function Weekday(d: int): int {
    (d - 1) % 7
  }

  /** A pair of dates `(desde, hasta)`. */
  datatype Range = Range(start: int, end: int)

  datatype Quick = Seleccionar | Hoy | EstaSemana | EsteMes | Ultimos30

  /** The range a quick filter stands for. */
  function QuickRange(q: Quick, c: Clock): (r: Range)
    requires ValidClock(c) && q != Seleccionar
    ensures r.start <= r.end == c.ordinal
    ensures q == Hoy ==> r.start == r.end
    ensures q == EstaSemana ==> Weekday(r.start) == 0 && r.end - r.start < 7
  {
    match q
    case Hoy => Range(c.ordinal, c.ordinal)
    case EstaSemana => Range(c.ordinal - Weekday(c.ordinal), c.ordinal)
    case EsteMes => Range(c.ordinal - (c.day - 1), c.ordinal)
    case Ultimos30 => Range(c.ordinal - 30, c.ordinal)
  }

  /** Every quick range holds today and lies within the last thirty days, and each
      one starts no later than the narrower ones before it in the menu. */
  lemma QuickRangesNest(c: Clock)
    requires ValidClock(c)
    ensures QuickRange(Ultimos30, c).start <= QuickRange(EsteMes, c).start
    ensures QuickRange(EstaSemana, c).start <= QuickRange(Hoy, c).start
    ensures forall q :: q != Seleccionar ==>
      QuickRange(Ultimos30, c).start <= QuickRange(q, c).start <= c.ordinal == QuickRange(q, c).end
  {
  }

  /** The two session keys the quick filter touches: `filtro_fecha_aplicado`, which
      every reader uses, and `filtro_fecha_aplicada`, which the filter writes. */
  datatype Filters = Filters(aplicado: Option<Range>, aplicada: Option<Range>)

  /** One run of the quick-filter code as written: the new keys and whether the page
      reruns. */
  function QuickStepAsWritten(s: Filters, q: Quick, c: Clock): (r: (Filters, bool))
    requires ValidClock(c)
    ensures q != Seleccionar ==> r.0.aplicado == s.aplicado
    ensures q != Seleccionar ==> (r.1 <==> s.aplicado != Some(QuickRange(q, c)))
    ensures q == Seleccionar ==> r.0.aplicado.None? && (r.1 <==> s.aplicado.Some?)
  {
    if q != Seleccionar then
      var r := QuickRange(q, c);
      if s.aplicado != Some(r) then (s.(aplicada := Some(r)), true) else (s, false)
    else if s.aplicado.Some? then (s.(aplicado := None), true)
    else (s, false)
  }

  /** The quick filter with the key it checks and the key it writes the same. */
  function QuickStep(s: Filters, q: Quick, c: Clock): (r: (Filters, bool))
    requires ValidClock(c)
    ensures r.0.aplicado == if q != Seleccionar then Some(QuickRange(q, c)) else None
    ensures r.0.aplicada == s.aplicada
    ensures r.1 <==> r.0 != s
  {
    if q != Seleccionar then
      var r := QuickRange(q, c);
      if s.aplicado != Some(r) then (s.(aplicado := Some(r)), true) else (s, false)
    else if s.aplicado.Some? then (s.(aplicado := None), true)
    else (s, false)
  }

  /** As written, a chosen quick filter never reaches the key the page reads: the run
      leaves it as it was and asks for a rerun, and the rerun is in the same state
      and asks again, for ever. */
  lemma QuickFilterLoops(s: Filters, q: Quick, c: Clock)
    requires ValidClock(c) && q != Seleccionar && s.aplicado != Some(QuickRange(q, c))
    ensures var (s1, rerun) := QuickStepAsWritten(s, q, c);
      rerun && s1.aplicado == s.aplicado && QuickStepAsWritten(s1, q, c) == (s1, true)
  {
  }

  /** With the key fixed, the chosen range is applied in one run, and the rerun
      changes nothing and stops. */
  lemma QuickFilterSettles(s: Filters, q: Quick, c: Clock)
    requires ValidClock(c) && q != Seleccionar
    ensures var (s1, rerun) := QuickStep(s, q, c);
      s1.aplicado == Some(QuickRange(q, c)) && (rerun <==> s.aplicado != s1.aplicado) &&
      QuickStep(s1, q, c) == (s1, false)
  {
  }

  /** Choosing "Seleccionar..." removes the applied range, rerunning only when there
      was one; both versions agree here. */
  lemma SeleccionarClears(s: Filters, c: Clock)
    requires ValidClock(c)
    ensures QuickStepAsWritten(s, Seleccionar, c) == QuickStep(s, Seleccionar, c)
    ensures var (s1, rerun) := QuickStep(s, Seleccionar, c);
      s1.aplicado == None && s1.aplicada == s.aplicada && (rerun <==> s.aplicado.Some?)
  {
  }

  // ---------------------------------------------------------------------------
  // The history: date bounds

  /** The value of the date widget: a tuple of dates (empty while nothing is chosen,
      one date while a range is half chosen) or a single date. */
  datatype Dates = Tuple(ds: seq<int>) | One(d: int)

  /** The dates used: the applied range when there is one, else the widget's. */
  function DatesToUse(widget: Dates, aplicado: Option<Range>): Dates {
    if aplicado.Some? then Tuple([aplicado.value.start, aplicado.value.end]) else widget
  }

  /** `fecha_desde` and `fecha_hasta`. */
  function DateBounds(sel: Dates): (b: (Option<int>, Option<int>))
    ensures b.1.Some? <==> sel.Tuple? && |sel.ds| == 2
    ensures b.0.Some? <==> sel.One? || (sel.Tuple? && |sel.ds| == 2)
    ensures sel.One? ==> b.0 == Some(sel.d)
    ensures sel.Tuple? && |sel.ds| == 2 ==> b == (Some(sel.ds[0]), Some(sel.ds[1]))
  {
    match sel
    case Tuple(ds) => if |ds| == 2 then (Some(ds[0]), Some(ds[1])) else (None, None)
    case One(d) => (Some(d), None)
  }

  /** An applied range bounds the history on both sides, whatever the widget shows. */
  lemma AppliedRangeBounds(widget: Dates, r: Range)
    ensures DateBounds(DatesToUse(widget, Some(r))) == (Some(r.start), Some(r.end))
  {
  }

  /** As written, a quick filter leaves the bounds to the widget alone; with the key
      fixed, they are the quick range. */
  lemma QuickFilterBounds(s: Filters, q: Quick, c: Clock, widget: Dates)
    requires ValidClock(c) && q != Seleccionar && s.aplicado.None?
    ensures DateBounds(DatesToUse(widget, QuickStepAsWritten(s, q, c).0.aplicado)) == DateBounds(widget)
    ensures var r := QuickRange(q, c);
      DateBounds(DatesToUse(widget, QuickStep(s, q, c).0.aplicado)) == (Some(r.start), Some(r.end))
  {
  }

  // ---------------------------------------------------------------------------
  // The history: pagination

  /** `max(1, (n + per - 1) // per)`. */
  function TotalPages(n: nat, per: nat): (pages: nat)
    requires per > 0
    ensures pages >= 1
    ensures n == 0 ==> pages == 1
    ensures n > 0 ==> (pages - 1) * per < n <= pages * per
  {
    var q := (n + per - 1) / per;
    assert q * per <= n + per - 1 < q * per + per;
    assert (q - 1) * per == q * per - per;
    if q > 1 then q else 1
  }

  /** The page shown: a page past the end moves back to the last one; a page in
      range is kept. */
  function ClampPage(p: int, pages: nat): (r: int)
    ensures pages >= 1 && p >= 1 ==> 1 <= r <= pages
    ensures p <= pages ==> r == p
  {
    if p > pages then (if pages > 1 then pages else 1) else p
  }

  /** `(inicio, fin)` of page `p`. */
  function Window(p: int, per: nat, n: nat): (w: (int, int))
    requires per > 0 && n > 0 && 1 <= p <= TotalPages(n, per)
    ensures 0 <= w.0 < w.1 <= n && w.1 - w.0 <= per
    ensures w.0 == (p - 1) * per
  {
    var inicio := (p - 1) * per;
    assert inicio <= (TotalPages(n, per) - 1) * per;
    (inicio, if inicio + per < n then inicio + per else n)
  }

  /** Each page starts where the one before it ends, the first at the start of the
      list and the last at its end. */
  lemma WindowsTile(per: nat, n: nat, p: int)
    requires per > 0 && n > 0 && 1 <= p < TotalPages(n, per)
    ensures Window(p, per, n).1 == Window(p + 1, per, n).0
    ensures Window(1, per, n).0 == 0 && Window(TotalPages(n, per), per, n).1 == n
  {
    var pages := TotalPages(n, per);
    assert p * per <= (pages - 1) * per;
    assert (p + 1 - 1) * per == p * per;
  }

  /** Item `i` is on page `i / per + 1`. */
  lemma PageOfItem(per: nat, n: nat, i: nat)
    requires per > 0 && i < n
    ensures 1 <= i / per + 1 <= TotalPages(n, per)
    ensures var w := Window(i / per + 1, per, n); w.0 <= i < w.1
  {
    var q := i / per;
    assert q * per <= i < q * per + per;
    Procesos.MulLess(q, TotalPages(n, per), per);
  }

  /** The exception of reading the unbound `inicio`. */
  const InicioUnbound := "NameError: name 'inicio' is not defined"

  /** The slice `completados[inicio:fin]` as written: with an empty history the names
      were never bound, and since the page runs at module level, not inside a
      function, reading `inicio` raises NameError. */
  function PageSliceAsWritten<T>(items: seq<T>, p: int, per: nat): (r: Result<seq<T>>)
    requires per > 0 && 1 <= p <= TotalPages(|items|, per)
    ensures r.Err? <==> items == []
  {
    if |items| > 0 then
      var w := Window(p, per, |items|);
      Ok(items[w.0..w.1])
    else Err(InicioUnbound)
  }

  /** The slice with `inicio` and `fin` bound to 0 for an empty history. */
  function PageSlice<T>(items: seq<T>, p: int, per: nat): (r: seq<T>)
    requires per > 0 && 1 <= p <= TotalPages(|items|, per)
    ensures |r| <= per
    ensures items != [] ==> PageSliceAsWritten(items, p, per) == Ok(r)
    ensures items == [] ==> r == []
  {
    if |items| > 0 then
      var w := Window(p, per, |items|);
      items[w.0..w.1]
    else []
  }

  /** Every item of the history appears on its page, at its offset within it. */
  lemma PageSliceShowsItem<T>(items: seq<T>, per: nat, i: nat)
    requires per > 0 && i < |items|
    ensures 1 <= i / per + 1 <= TotalPages(|items|, per)
    ensures var page := PageSlice(items, i / per + 1, per);
      i % per < |page| && page[i % per] == items[i]
  {
    PageOfItem(per, |items|, i);
    var q, r := i / per, i % per;
    var w := Window(q + 1, per, |items|);
    assert i == q * per + r;
    assert w.0 == q * per;
    var page := items[w.0..w.1];
    assert page == PageSlice(items, q + 1, per);
    assert w.0 + r == i < w.1;
    assert page[r] == items[i];
  }

  /** The empty history has one page, and showing it raises as written. */
  lemma EmptyHistoryRaises<T>(per: nat)
    requires per > 0
    ensures TotalPages(0, per) == 1
    ensures PageSliceAsWritten<T>([], 1, per) == Err(InicioUnbound)
  {
  }

  // ---------------------------------------------------------------------------
  // The session state

  /** The page's session state: the current page and the two date-filter keys. */
  class Session {
    var pagina: Option<int>
    var aplicado: Option<Range>
    var aplicada: Option<Range>

    constructor ()
      ensures pagina == None && aplicado == None && aplicada == None
    {
      pagina := None;
      aplicado := None;
      aplicada := None;
    }

    /** The quick-filter code as written; `rerun` is `st.rerun()`. */
    method QuickFilterAsWritten(q: Quick, c: Clock) returns (rerun: bool)
      requires ValidClock(c)
      modifies this
      ensures (Filters(aplicado, aplicada), rerun) ==
              QuickStepAsWritten(Filters(old(aplicado), old(aplicada)), q, c)
      ensures pagina == old(pagina)
    {
      rerun := false;
      if q != Seleccionar {
        var fechas := QuickRange(q, c);
        if aplicado != Some(fechas) {
          aplicada := Some(fechas);
          rerun := true;
        }
      } else if aplicado.Some? {
        aplicado := None;
        rerun := true;
      }
    }

    /** The quick filter writing the key it checks. */
    method QuickFilter(q: Quick, c: Clock) returns (rerun: bool)
      requires ValidClock(c)
      modifies this
      ensures (Filters(aplicado, aplicada), rerun) == QuickStep(Filters(old(aplicado), old(aplicada)), q, c)
      ensures q != Seleccionar ==> aplicado == Some(QuickRange(q, c))
      ensures pagina == old(pagina)
    {
      rerun := false;
      if q != Seleccionar {
        var fechas := QuickRange(q, c);
        if aplicado != Some(fechas) {
          aplicado := Some(fechas);
          rerun := true;
        }
      } else if aplicado.Some? {
        aplicado := None;
        rerun := true;
      }
    }

    /** The "clear filters" button: drops the applied range and reruns. */
    method ClearFilters() returns (rerun: bool)
      modifies this
      ensures aplicado == None && aplicada == old(aplicada) && pagina == old(pagina) && rerun
    {
      if aplicado.Some? {
        aplicado := None;
      }
      rerun := true;
    }

    /** The pagination set-up: the page starts at 1 and moves back into range. */
    method PreparePage(n: nat, per: nat) returns (pages: nat)
      requires per > 0
      modifies this
      ensures pages == TotalPages(n, per)
      ensures pagina == Some(ClampPage(if old(pagina).Some? then old(pagina).value else 1, pages))
      ensures old(pagina) == None || old(pagina.value) >= 1 ==> 1 <= pagina.value <= pages
      ensures aplicado == old(aplicado) && aplicada == old(aplicada)
    {
      if pagina.None? {
        pagina := Some(1);
      }
      pages := (n + per - 1) / per;
      if pages < 1 {
        pages := 1;
      }
      if pagina.value > pages {
        pagina := Some(if pages > 1 then pages else 1);
      }
    }
  }
}
