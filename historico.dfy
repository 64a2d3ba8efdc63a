/** The history page: the risk tallies, the pagination of finished analyses, the
    question shown for each result and the grouping of the Word report by section. */
module Historico {
  import opened Text
  import opened Records
  import WorkerBackup
  import Batch
  import WorkerAnswer

  // ---------------------------------------------------------------------------
  // Risk labels

  /** The risk text of a result: the first non-empty of "Riesgo", "RISK" and "risk",
      else "Sin evaluar", stripped. */
  function RawRisk(r: Row): string {
    Strip(if Get(r, "Riesgo", "") != "" then r["Riesgo"]
          else if Get(r, "RISK", "") != "" then r["RISK"]
          else if Get(r, "risk", "") != "" then r["risk"]
          else "Sin evaluar")
  }

  /** The level a risk text names, in either language and in any case. */
  function Canonical(raw: string): Risk {
    var u := Upper(raw);
    if u == "ALTO" || u == "HIGH" then Alto
    else if u == "MEDIO" || u == "MEDIUM" then Medio
    else if u == "BAJO" || u == "LOW" then Bajo
    else SinEvaluar
  }

  /** The level shown on screen for a result. */
  function Level(r: Row): Risk {
    Canonical(RawRisk(r))
  }

  /** Upper-casing twice is upper-casing once. */
  lemma UpperIdempotent(s: string)
    ensures Upper(Upper(s)) == Upper(s)
  {
    assert forall i :: 0 <= i < |s| ==> UpperChar(UpperChar(s[i])) == UpperChar(s[i]);
  }

  /** The stored label of every level is read back as that level. */
  lemma CanonicalOfLabel(k: Risk)
    ensures Canonical(RiskLabel(k)) == k
  {
    match k
    case Alto => assert Upper("Alto") == "ALTO";
    case Medio => assert Upper("Medio") == "MEDIO";
    case Bajo => assert Upper("Bajo") == "BAJO";
    case SinEvaluar => assert Upper("Sin evaluar") == "SIN EVALUAR";
  }

  /** The English names are read as the same levels. */
  lemma CanonicalOfEnglish()
    ensures Canonical("High") == Alto && Canonical("medium") == Medio && Canonical("LOW") == Bajo
  {
    assert Upper("High") == "HIGH";
    assert Upper("medium") == "MEDIUM";
    assert Upper("LOW") == "LOW";
  }

  /** Case does not matter. */
  lemma CanonicalIgnoresCase(raw: string)
    ensures Canonical(Upper(raw)) == Canonical(raw)
  {
    UpperIdempotent(raw);
  }

  /** "Riesgo" decides when it is filled; "RISK" only when "Riesgo" is absent or
      empty, and a result with none of the three is not evaluated. */
  lemma LevelFallback(r: Row)
    ensures Get(r, "Riesgo", "") != "" ==> Level(r) == Canonical(Strip(r["Riesgo"]))
    ensures Get(r, "Riesgo", "") == "" && Get(r, "RISK", "") != "" ==> Level(r) == Canonical(Strip(r["RISK"]))
    ensures Get(r, "Riesgo", "") == "" && Get(r, "RISK", "") == "" && Get(r, "risk", "") == "" ==> Level(r) == SinEvaluar
  {
    if Get(r, "Riesgo", "") == "" && Get(r, "RISK", "") == "" && Get(r, "risk", "") == "" {
      assert Strip("Sin evaluar") == "Sin evaluar" by {
        assert StripLeft("Sin evaluar") == "Sin evaluar";
        assert StripRight("Sin evaluar") == "Sin evaluar";
      }
      CanonicalOfLabel(SinEvaluar);
    }
  }

  /** The level the Word report counts a result under: the "Riesgo" text when it is
      exactly one of the four labels, else "Sin evaluar". */
  function ReportLevel(r: Row): (lv: Risk)
    ensures Get(r, "Riesgo", "") in {"Alto", "Medio", "Bajo", "Sin evaluar"} ==> RiskLabel(lv) == Get(r, "Riesgo", "")
    ensures lv != SinEvaluar ==> "Riesgo" in r && r["Riesgo"] == RiskLabel(lv)
  {
    var stored := Get(r, "Riesgo", "Sin evaluar");
    if stored == "Alto" then Alto
    else if stored == "Medio" then Medio
    else if stored == "Bajo" then Bajo
    else SinEvaluar
  }

  /** The two tallies agree on results whose "Riesgo" is a stored label, but the report
      does not read English, lower-case, padded or fallback labels. */
  lemma ReportAgreesOnLabels(r: Row, k: Risk)
    requires "Riesgo" in r && r["Riesgo"] == RiskLabel(k)
    ensures ReportLevel(r) == Level(r) == k
  {
    var t := RiskLabel(k);
    assert StripLeft(t) == t && StripRight(t) == t by {
      assert t != [] && !IsSpace(t[0]) && !IsSpace(t[|t| - 1]);
    }
    CanonicalOfLabel(k);
  }

  lemma ReportIgnoresEnglish()
    ensures var r := map["Riesgo" := "HIGH"]; Level(r) == Alto && ReportLevel(r) == SinEvaluar
  {
    var r := map["Riesgo" := "HIGH"];
    assert StripLeft("HIGH") == "HIGH" && StripRight("HIGH") == "HIGH";
    assert Upper("HIGH") == "HIGH";
  }

  // ---------------------------------------------------------------------------
  // Tallies

  /** The number of results `classify` puts under `k`. */
  function CountLevel(rs: seq<Row>, classify: Row -> Risk, k: Risk): (n: nat)
    ensures n <= |rs|
  {
    if rs == [] then 0
    else CountLevel(rs[..|rs| - 1], classify, k) + (if classify(rs[|rs| - 1]) == k then 1 else 0)
  }

  /** Every result is counted under exactly one level. */
  lemma {:induction false} TallySums(rs: seq<Row>, classify: Row -> Risk)
    ensures CountLevel(rs, classify, Alto) + CountLevel(rs, classify, Medio) + CountLevel(rs, classify, Bajo) +
            CountLevel(rs, classify, SinEvaluar) == |rs|
  {
    if rs != [] {
      TallySums(rs[..|rs| - 1], classify);
    }
  }

  /** The risk counters of the summary (with `Level`) and of the Word report (with
      `ReportLevel`). */
  method Tally(rs: seq<Row>, classify: Row -> Risk) returns (alto: nat, medio: nat, bajo: nat, sinEvaluar: nat)
    ensures alto == CountLevel(rs, classify, Alto) && medio == CountLevel(rs, classify, Medio)
    ensures bajo == CountLevel(rs, classify, Bajo) && sinEvaluar == CountLevel(rs, classify, SinEvaluar)
    ensures alto + medio + bajo + sinEvaluar == |rs|
  {
    alto, medio, bajo, sinEvaluar := 0, 0, 0, 0;
    for i := 0 to |rs|
      invariant alto == CountLevel(rs[..i], classify, Alto) && medio == CountLevel(rs[..i], classify, Medio)
      invariant bajo == CountLevel(rs[..i], classify, Bajo) && sinEvaluar == CountLevel(rs[..i], classify, SinEvaluar)
    {
      assert rs[..i + 1][..i] == rs[..i];
      match classify(rs[i])
      case Alto => alto := alto + 1;
      case Medio => medio := medio + 1;
      case Bajo => bajo := bajo + 1;
      case SinEvaluar => sinEvaluar := sinEvaluar + 1;
    }
    assert rs[..|rs|] == rs;
    TallySums(rs, classify);
  }

  /** The "Completadas" metric: results marked completed in English. */
  function CompletedCount(rs: seq<Row>): (n: nat)
    ensures n <= |rs|
  {
    if rs == [] then 0
    else CompletedCount(rs[..|rs| - 1]) + (if Get(rs[|rs| - 1], "Estado", "") == "✅ Completed" then 1 else 0)
  }

  /** The metric counts every result of the batch script... */
  lemma {:induction false} BatchResultsCounted(rows: seq<Row>, k: nat)
    requires k <= |Batch.BatchResults(rows)|
    ensures CompletedCount(Batch.BatchResults(rows)[..k]) == k
  {
    if k > 0 {
      var rs := Batch.BatchResults(rows);
      CompletedCountSnoc(rs, k);
      BatchResultCompleted(rows, k - 1);
      BatchResultsCounted(rows, k - 1);
    }
  }

  /** One result more counts one more when it is marked completed in English. */
  lemma CompletedCountSnoc(rs: seq<Row>, k: nat)
    requires 0 < k <= |rs|
    ensures CompletedCount(rs[..k]) ==
            CompletedCount(rs[..k - 1]) + (if Get(rs[k - 1], "Estado", "") == "✅ Completed" then 1 else 0)
  {
    assert rs[..k][..k - 1] == rs[..k - 1];
  }

  /** Each result of the batch script is marked completed in English. */
  lemma BatchResultCompleted(rows: seq<Row>, i: nat)
    requires i < |Batch.BatchResults(rows)|
    ensures Get(Batch.BatchResults(rows)[i], "Estado", "") == "✅ Completed"
  {
  }

  /** ... and none of the engine's, which are marked "✅ Completado". */
  lemma {:induction false} BackupResultsNotCounted(po: seq<Row>, answer: (string, string) -> Result<WorkerAnswer.Answer>, k: nat)
    requires k <= |po|
    ensures CompletedCount(WorkerBackup.BackupResults(po, answer)[..k]) == 0
  {
    if k > 0 {
      var rs := WorkerBackup.BackupResults(po, answer);
      CompletedCountSnoc(rs, k);
      assert rs[k - 1]["Estado"] == "✅ Completado";
      BackupResultsNotCounted(po, answer, k - 1);
    }
  }

  // ---------------------------------------------------------------------------
  // Pagination of the finished analyses

  const PerPage := 10

  /** `(n - 1) // 10 + 1`, or 1 for an empty list. */
  function PageCount(n: nat): (p: nat)
    ensures p >= 1
  {
    if n > 0 then (n - 1) / PerPage + 1 else 1
  }

  /** The pages hold every item and no page is empty, except the only page of an
      empty list. */
  lemma PagesCoverItems(n: nat)
    ensures (PageCount(n) - 1) * PerPage <= n <= PageCount(n) * PerPage
    ensures n > 0 ==> (PageCount(n) - 1) * PerPage < n
  {
  }

  /** The stored page brought into `[1, pages]`: first down, then up. */
  function ClampPage(page: int, pages: nat): (p: int)
    requires pages >= 1
    ensures 1 <= p <= pages
    ensures 1 <= page <= pages ==> p == page
    ensures page > pages ==> p == pages
    ensures page < 1 ==> p == 1
  {
    var down := if page > pages then pages else page;
    if down < 1 then 1 else down
  }

  /** `items[(page - 1) * 10 : (page - 1) * 10 + 10]`, Python's slice clamping to the
      list. */
  function PageWindow<T>(items: seq<T>, page: int): (w: seq<T>)
    requires page >= 1
    ensures |w| <= PerPage
    ensures (page - 1) * PerPage < |items| ==> |w| > 0 && w[0] == items[(page - 1) * PerPage]
  {
    var inicio := (page - 1) * PerPage;
    var fin := inicio + PerPage;
    var a := if inicio < |items| then inicio else |items|;
    var b := if fin < |items| then fin else |items|;
    items[a..b]
  }

  /** Every item is shown on exactly the page `k / 10 + 1`, at position `k % 10`, and
      that page is one the clamp keeps. */
  lemma ItemOnItsPage<T>(items: seq<T>, k: int)
    requires 0 <= k < |items|
    ensures var page := k / PerPage + 1;
      ClampPage(page, PageCount(|items|)) == page &&
      |PageWindow(items, page)| > k % PerPage && PageWindow(items, page)[k % PerPage] == items[k]
    ensures forall page :: 1 <= page && page != k / PerPage + 1 ==> !((page - 1) * PerPage <= k < page * PerPage)
  {
  }

  /** The navigation buttons; the ones that would leave the range are disabled. */
  datatype Button = First | Previous | Next | Last

  function Navigate(page: int, pages: nat, b: Button): (p: int)
    ensures 1 <= page <= pages ==> 1 <= p <= pages
    ensures b == Previous || b == Next ==> (p == page <==> (b == Previous && page == 1) || (b == Next && page == pages))
  {
    match b
    case First => 1
    case Previous => if page == 1 then page else page - 1
    case Next => if page == pages then page else page + 1
    case Last => pages
  }

  /** Buttons never take the page out of range. */
  lemma NavigateStaysInRange(page: int, pages: nat, b: Button)
    requires 1 <= page <= pages
    ensures 1 <= Navigate(page, pages, b) <= pages
    ensures ClampPage(Navigate(page, pages, b), pages) == Navigate(page, pages, b)
  {
  }

  // ---------------------------------------------------------------------------
  // The question shown for a result

  /** A result carries its own question when it was re-analysed with new text. */
  predicate Reanalysed(res: Row) {
    Get(res, "reanalizado_en", "") != "" && Get(res, "Pregunta", "") != ""
  }

  /** The question text and section shown for the result `res` of the original
      question `preg`; `missingText` is the placeholder for a question without text. */
  function ShownQuestion(preg: Row, res: Row, missingText: string): (q: (string, string)) {
    if Reanalysed(res) then (res["Pregunta"], Get(res, "Sección", Get(preg, "Sección", "Sin sección")))
    else (Get(preg, "Pregunta", missingText), Get(preg, "Sección", "Sin sección"))
  }

  /** The original question is replaced only by a re-analysis that brought new text,
      and then always by that text. */
  lemma ShownQuestionRule(preg: Row, res: Row, missingText: string)
    ensures var q := ShownQuestion(preg, res, missingText);
      (q != (Get(preg, "Pregunta", missingText), Get(preg, "Sección", "Sin sección")) ==> Reanalysed(res)) &&
      (Reanalysed(res) ==> q.0 == res["Pregunta"] && q.0 != "") &&
      ("Sección" !in res ==> q.1 == Get(preg, "Sección", "Sin sección"))
  {
  }

  // ---------------------------------------------------------------------------
  // The Word report: one heading per section, the questions under it

  /** One question of the report. */
  datatype Item = Item(numero: nat, pregunta: string, respuesta: string, riesgo: string,
                       reanalizada: bool, fechaReanalisis: string)

  /** The section and the item of the `i`-th pair of question and result. */
  function Entry(i: nat, preg: Row, res: Row): (string, Item) {
    var q := ShownQuestion(preg, res, "N/A");
    (q.1, Item(i + 1, q.0, Get(res, "Respuesta", ""), Get(res, "Riesgo", "Sin evaluar"),
               Get(res, "reanalizado_en", "") != "", Get(res, "reanalizado_en", "")))
  }

  /** `zip(preguntas, resultados)`: as many entries as the shorter list. */
  function Entries(ps: seq<Row>, rs: seq<Row>): (es: seq<(string, Item)>)
    ensures |es| == (if |ps| < |rs| then |ps| else |rs|)
    ensures forall i :: 0 <= i < |es| ==> es[i] == Entry(i, ps[i], rs[i])
  {
    var n := if |ps| < |rs| then |ps| else |rs|;
    seq(n, i requires 0 <= i < n => Entry(i, ps[i], rs[i]))
  }

  /** The sections in order of first appearance. */
  function Sections(es: seq<(string, Item)>): seq<string> {
    if es == [] then []
    else
      var before := Sections(es[..|es| - 1]);
      if es[|es| - 1].0 in before then before else before + [es[|es| - 1].0]
  }

  /** The items of section `s`, in order. */
  function ItemsOf(es: seq<(string, Item)>, s: string): seq<Item> {
    if es == [] then []
    else ItemsOf(es[..|es| - 1], s) + (if es[|es| - 1].0 == s then [es[|es| - 1].1] else [])
  }

  /** The grouping loop: `order` is the insertion order of the dictionary. */
  method GroupBySection(ps: seq<Row>, rs: seq<Row>) returns (order: seq<string>, groups: map<string, seq<Item>>)
    ensures order == Sections(Entries(ps, rs))
    ensures forall s :: s in groups <==> s in order
    ensures forall s :: s in groups ==> groups[s] == ItemsOf(Entries(ps, rs), s)
  {
    ghost var es := Entries(ps, rs);
    order, groups := [], map[];
    var n := if |ps| < |rs| then |ps| else |rs|;
    for i := 0 to n
      invariant order == Sections(es[..i])
      invariant forall s :: s in groups <==> s in order
      invariant forall s :: s in groups ==> groups[s] == ItemsOf(es[..i], s)
    {
      var e := Entry(i, ps[i], rs[i]);
      GroupStep(es, i);
      if e.0 !in groups {
        ItemsOfNewSection(es[..i], e.0);
        order := order + [e.0];
        groups := groups[e.0 := []];
      }
      groups := groups[e.0 := groups[e.0] + [e.1]];
    }
    assert es[..n] == es;
  }

  /** One more entry: its section is appended if new, and its item is appended to
      its section. */
  lemma GroupStep(es: seq<(string, Item)>, i: nat)
    requires i < |es|
    ensures Sections(es[..i + 1]) == if es[i].0 in Sections(es[..i]) then Sections(es[..i]) else Sections(es[..i]) + [es[i].0]
    ensures forall s :: ItemsOf(es[..i + 1], s) == ItemsOf(es[..i], s) + (if es[i].0 == s then [es[i].1] else [])
  {
    assert es[..i + 1][..i] == es[..i];
  }

  /** A section not seen yet has no items. */
  lemma {:induction false} ItemsOfNewSection(es: seq<(string, Item)>, s: string)
    requires s !in Sections(es)
    ensures ItemsOf(es, s) == []
  {
    if es != [] {
      ItemsOfNewSection(es[..|es| - 1], s);
    }
  }

  /** The sections are distinct and are exactly those of the entries. */
  lemma {:induction false} SectionsDistinct(es: seq<(string, Item)>)
    ensures forall i, j :: 0 <= i < j < |Sections(es)| ==> Sections(es)[i] != Sections(es)[j]
    ensures forall s :: s in Sections(es) <==> exists i :: 0 <= i < |es| && es[i].0 == s
  {
    if es != [] {
      var init := es[..|es| - 1];
      SectionsDistinct(init);
      assert forall i :: 0 <= i < |init| ==> init[i] == es[i];
    }
  }

  /** An item is listed under a section exactly when its entry has that section, and
      each section lists its items in question order. */
  lemma {:induction false} ItemsOfSection(es: seq<(string, Item)>, s: string)
    requires forall i :: 0 <= i < |es| ==> es[i].1.numero == i + 1
    ensures forall x :: x in ItemsOf(es, s) <==> exists i :: 0 <= i < |es| && es[i].0 == s && es[i].1 == x
    ensures forall a, b :: 0 <= a < b < |ItemsOf(es, s)| ==> ItemsOf(es, s)[a].numero < ItemsOf(es, s)[b].numero
    ensures forall a :: 0 <= a < |ItemsOf(es, s)| ==> ItemsOf(es, s)[a].numero <= |es|
  {
    if es != [] {
      var init := es[..|es| - 1];
      ItemsOfSection(init, s);
      assert forall i :: 0 <= i < |init| ==> init[i] == es[i];
    }
  }

  /** The number of items listed under the sections of `order`. */
  function SizeSum(order: seq<string>, es: seq<(string, Item)>): nat {
    if order == [] then 0 else SizeSum(order[..|order| - 1], es) + |ItemsOf(es, order[|order| - 1])|
  }

  /** Adding an entry adds one item under its section and none under the others. */
  lemma {:induction false} SizeSumStep(order: seq<string>, es: seq<(string, Item)>)
    requires es != []
    requires forall i, j :: 0 <= i < j < |order| ==> order[i] != order[j]
    ensures SizeSum(order, es) == SizeSum(order, es[..|es| - 1]) + (if es[|es| - 1].0 in order then 1 else 0)
  {
    if order != [] {
      var init := order[..|order| - 1];
      SizeSumStep(init, es);
      var x := order[|order| - 1];
      assert es[|es| - 1].0 in order <==> es[|es| - 1].0 in init || es[|es| - 1].0 == x;
      assert x !in init;
    }
  }

  /** The report lists every entry once: the items under all sections add up to the
      number of entries, that is, the length of the shorter of the two lists. */
  lemma {:induction false} GroupsCoverEntries(es: seq<(string, Item)>)
    ensures SizeSum(Sections(es), es) == |es|
  {
    if es != [] {
      var init := es[..|es| - 1];
      var e := es[|es| - 1];
      GroupsCoverEntries(init);
      SectionsDistinct(init);
      SizeSumStep(Sections(init), es);
      if e.0 !in Sections(init) {
        ItemsOfNewSection(init, e.0);
        assert Sections(es)[..|Sections(es)| - 1] == Sections(init);
      }
    }
  }

  /** The report numbers the questions 1, 2, ... in the order of the lists. */
  lemma EntriesNumbered(ps: seq<Row>, rs: seq<Row>)
    ensures forall i :: 0 <= i < |Entries(ps, rs)| ==> Entries(ps, rs)[i].1.numero == i + 1
  {
  }
}
