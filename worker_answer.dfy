/** One question answered against one contract (fastapi_backend/worker.py,
    `analizar_pregunta` and `analizar_pregunta_texto`): the fallbacks that turn every
    failure into an "Alto" answer, and the normaliser that reads the risk verdict out
    of the model's raw answer and removes the verdict lines from it. */
module WorkerAnswer {
  import opened Text
  import opened Records

  /** A line carries a verdict when its upper-cased text contains "RISK:" or "RIESGO:". */
  predicate IsMarkerLine(line: string) {
    Contains(Upper(line), "RISK:") || Contains(Upper(line), "RIESGO:")
  }

  /** The level a verdict line names, tried in a fixed order on its upper-cased text;
      `None` when it names none. */
  function LineLevel(line: string): Option<Risk> {
    var u := Upper(line);
    if Contains(u, "HIGH") || Contains(u, "ALTO") then Some(Alto)
    else if Contains(u, "LOW") || Contains(u, "BAJO") then Some(Bajo)
    else if Contains(u, "MEDIUM") || Contains(u, "MEDIO") then Some(Medio)
    else if Contains(u, "NOT EVALUATED") || Contains(u, "NO EVALUADO") || Contains(u, "SIN EVALUAR") then Some(SinEvaluar)
    else None
  }

  /** What a verdict line decides: its level, or the default "Medio". */
  function Decided(line: string): Risk {
    match LineLevel(line)
    case Some(r) => r
    case None => Medio
  }

  /** The scan over the lines: the first verdict line decides and stops the scan. */
  function ScanRisk(lines: seq<string>): Risk {
    if lines == [] then Medio
    else if IsMarkerLine(lines[0]) then Decided(lines[0])
    else ScanRisk(lines[1..])
  }

  /** The risk of a raw answer: lines are scanned only when the whole upper-cased text
      holds a marker; otherwise it is "Medio". */
  function ExtractRisk(raw: string): Risk {
    if IsMarkerLine(raw) then ScanRisk(Split(raw, '\n')) else Medio
  }

  /** The lines that carry no verdict, in order. */
  function KeepLines(lines: seq<string>): (r: seq<string>)
    ensures |r| <= |lines|
    ensures forall k :: 0 <= k < |r| ==> !IsMarkerLine(r[k])
    ensures (forall k :: 0 <= k < |lines| ==> !IsMarkerLine(lines[k])) ==> r == lines
  {
    if lines == [] then []
    else if IsMarkerLine(lines[0]) then KeepLines(lines[1..])
    else [lines[0]] + KeepLines(lines[1..])
  }

  /** The answer text: every verdict line removed, the rest rejoined and stripped. */
  function CleanAnswer(raw: string): string {
    Strip(Join(KeepLines(Split(raw, '\n')), "\n"))
  }

  /** The "Respuesta" and "Riesgo" of one analysed question. */
  datatype Answer = Answer(respuesta: string, riesgo: Risk)

  /** The normaliser applied to the model's raw answer. */
  function Normalize(raw: string): Answer {
    Answer(CleanAnswer(raw), ExtractRisk(raw))
  }

  /** The answer as the dictionary the engine stores. */
  function AnswerRow(a: Answer): (row: Row)
    ensures row.Keys == {"Respuesta", "Riesgo"}
    ensures row["Respuesta"] == a.respuesta && row["Riesgo"] == RiskLabel(a.riesgo)
  {
    map["Respuesta" := a.respuesta, "Riesgo" := RiskLabel(a.riesgo)]
  }

  // ---------------------------------------------------------------------------
  // Lines versus the whole text

  /** A marker in a joined text lies in one of the joined lines: neither marker
      spans a line break. */
  lemma MarkerInJoin(parts: seq<string>)
    ensures IsMarkerLine(Join(parts, "\n")) ==> exists k :: 0 <= k < |parts| && IsMarkerLine(parts[k])
  {
    if parts != [] && IsMarkerLine(Join(parts, "\n")) {
      UpperJoin(parts, '\n');
      var p := if Contains(Upper(Join(parts, "\n")), "RISK:") then "RISK:" else "RIESGO:";
      assert '\n' !in p;
      ContainsJoin(UpperAll(parts), '\n', p);
      var k :| 0 <= k < |parts| && Contains(UpperAll(parts)[k], p);
      assert IsMarkerLine(parts[k]);
    }
  }

  /** A verdict line makes the joined text hold a marker. */
  lemma LineMarkerInJoin(parts: seq<string>, k: int)
    requires 0 <= k < |parts|
    ensures IsMarkerLine(parts[k]) ==> IsMarkerLine(Join(parts, "\n"))
  {
    if IsMarkerLine(parts[k]) {
      UpperJoin(parts, '\n');
      var p := if Contains(Upper(parts[k]), "RISK:") then "RISK:" else "RIESGO:";
      ContainsInJoin(UpperAll(parts), "\n", k, p);
    }
  }

  /** Stripping spaces cannot create a marker. */
  lemma MarkerInStrip(s: string)
    ensures IsMarkerLine(Strip(s)) ==> IsMarkerLine(s)
  {
    if IsMarkerLine(Strip(s)) {
      var p := if Contains(Upper(Strip(s)), "RISK:") then "RISK:" else "RIESGO:";
      StripIsSlice(s);
      var i, j :| 0 <= i <= j <= |s| && Strip(s) == s[i..j];
      UpperSlice(s, i, j);
      ContainsSlice(Upper(s), i, j, p);
    }
  }

  /** A marker occurs in the whole text exactly when it occurs in one of its lines. */
  lemma MarkerInTextIffInLine(raw: string)
    ensures IsMarkerLine(raw) <==>
            exists k :: 0 <= k < |Split(raw, '\n')| && IsMarkerLine(Split(raw, '\n')[k])
  {
    var lines := Split(raw, '\n');
    JoinSplit(raw, '\n');
    MarkerInJoin(lines);
    forall k | 0 <= k < |lines|
      ensures IsMarkerLine(lines[k]) ==> IsMarkerLine(raw)
    {
      LineMarkerInJoin(lines, k);
    }
  }

  /** With no verdict line, the scan keeps the default. */
  lemma {:induction false} ScanWithoutMarker(lines: seq<string>)
    requires forall k :: 0 <= k < |lines| ==> !IsMarkerLine(lines[k])
    ensures ScanRisk(lines) == Medio
  {
    if lines != [] {
      ScanWithoutMarker(lines[1..]);
    }
  }

  /** The whole-text test in front of the scan changes nothing: the risk is the scan's. */
  lemma ExtractIsScan(raw: string)
    ensures ExtractRisk(raw) == ScanRisk(Split(raw, '\n'))
  {
    var lines := Split(raw, '\n');
    JoinSplit(raw, '\n');
    forall k | 0 <= k < |lines|
      ensures IsMarkerLine(lines[k]) ==> IsMarkerLine(raw)
    {
      LineMarkerInJoin(lines, k);
    }
    if !IsMarkerLine(raw) {
      ScanWithoutMarker(lines);
    }
  }

  /** Only the first verdict line, top to bottom, decides the risk. */
  lemma {:induction false} FirstMarkerDecides(lines: seq<string>, k: int)
    requires 0 <= k < |lines| && IsMarkerLine(lines[k])
    requires forall j :: 0 <= j < k ==> !IsMarkerLine(lines[j])
    ensures ScanRisk(lines) == Decided(lines[k])
  {
    if k > 0 {
      FirstMarkerDecides(lines[1..], k - 1);
    }
  }

  /** The same, stated on the raw answer. */
  lemma FirstMarkerLineDecides(raw: string, k: int)
    requires 0 <= k < |Split(raw, '\n')| && IsMarkerLine(Split(raw, '\n')[k])
    requires forall j :: 0 <= j < k ==> !IsMarkerLine(Split(raw, '\n')[j])
    ensures ExtractRisk(raw) == Decided(Split(raw, '\n')[k])
  {
    ExtractIsScan(raw);
    FirstMarkerDecides(Split(raw, '\n'), k);
  }

  /** An answer without a verdict is "Medio", with the text only stripped. */
  lemma NoMarkerDefault(raw: string)
    requires !IsMarkerLine(raw)
    ensures Normalize(raw) == Answer(Strip(raw), Medio)
  {
    MarkerInTextIffInLine(raw);
    JoinSplit(raw, '\n');
  }

  /** The cleaned answer holds no marker anywhere, so no line of it is a verdict line. */
  lemma CleanedHasNoMarker(raw: string)
    ensures !IsMarkerLine(CleanAnswer(raw))
  {
    var kept := KeepLines(Split(raw, '\n'));
    MarkerInStrip(Join(kept, "\n"));
    MarkerInJoin(kept);
  }

  /** Normalising an already normalised answer gives the same text and "Medio". */
  lemma NormalizeIdempotent(raw: string)
    ensures Normalize(CleanAnswer(raw)) == Answer(CleanAnswer(raw), Medio)
  {
    var c := CleanAnswer(raw);
    CleanedHasNoMarker(raw);
    NoMarkerDefault(c);
    StripIdempotent(Join(KeepLines(Split(raw, '\n')), "\n"));
  }

  // ---------------------------------------------------------------------------
  // The verdict line the prompt asks for

  /** The closing line the prompt asks the model to write for each level. */
  function VerdictLine(r: Risk): string {
    match r
    case Alto => "RISK: HIGH"
    case Medio => "RISK: MEDIUM"
    case Bajo => "RISK: LOW"
    case SinEvaluar => "RISK: NOT EVALUATED"
  }

  lemma UpperOfUpper(s: string)
    requires forall i :: 0 <= i < |s| ==> !('a' <= s[i] <= 'z')
    ensures Upper(s) == s
  {
  }

  lemma Absent(s: string, p: string, c: char)
    requires c in p && c !in s
    ensures !Contains(s, p)
  {
    var t :| 0 <= t < |p| && p[t] == c;
    forall i | 0 <= i <= |s| - |p|
      ensures !OccursAt(s, p, i)
    {
      assert s[i + t] != c;
      assert s[i..i + |p|][t] == s[i + t];
    }
  }

  /** "RISK: NOT EVALUATED" does not contain "ALTO": its only "AL" is followed by "U". */
  lemma NotEvaluatedIsNotAlto()
    ensures !Contains("RISK: NOT EVALUATED", "ALTO")
  {
    var s := "RISK: NOT EVALUATED";
    forall i | 0 <= i <= |s| - 4
      ensures !OccursAt(s, "ALTO", i)
    {
      assert s[i..i + 4][0] == s[i];
      if i == 12 {
        assert s[i..i + 4][2] == s[14];
      } else if i == 15 {
        assert s[i..i + 4][1] == s[16];
      } else {
        assert s[i] != 'A';
      }
    }
  }

  /** Each verdict line is a one-line, upper-case verdict naming its own level. */
  lemma VerdictLineFacts(r: Risk)
    ensures '\n' !in VerdictLine(r)
    ensures IsMarkerLine(VerdictLine(r))
    ensures Decided(VerdictLine(r)) == r
  {
    VerdictSingleLine(r);
    match r
    case Alto => VerdictHigh();
    case Bajo => VerdictLow();
    case Medio => VerdictMedium();
    case SinEvaluar => VerdictNotEvaluated();
  }

  lemma VerdictSingleLine(r: Risk)
    ensures '\n' !in VerdictLine(r)
  {
  }

  lemma VerdictHigh()
    ensures IsMarkerLine("RISK: HIGH") && Decided("RISK: HIGH") == Alto
  {
    var v := "RISK: HIGH";
    UpperOfUpper(v);
    assert Upper(v) == v;
    assert Contains(v, "RISK:") by { ContainsPrefix(v, "RISK:"); }
    assert Contains(v, "HIGH") by { assert OccursAt(v, "HIGH", 6); }
    assert IsMarkerLine(v) by { assert Contains(Upper(v), "RISK:"); }
    assert LineLevel(v) == Some(Alto);
  }

  lemma VerdictLow()
    ensures IsMarkerLine("RISK: LOW") && Decided("RISK: LOW") == Bajo
  {
    var v := "RISK: LOW";
    LowWords();
    assert IsMarkerLine(v) by { assert Contains(Upper(v), "RISK:"); }
    assert LineLevel(v) == Some(Bajo);
  }

  /** The words the scan looks for in "RISK: LOW". */
  lemma LowWords()
    ensures Upper("RISK: LOW") == "RISK: LOW" && Contains("RISK: LOW", "RISK:") && Contains("RISK: LOW", "LOW")
    ensures !Contains("RISK: LOW", "HIGH") && !Contains("RISK: LOW", "ALTO")
  {
    var v := "RISK: LOW";
    UpperOfUpper(v);
    ContainsPrefix(v, "RISK:");
    assert OccursAt(v, "LOW", 6);
    LowLacksHigherLevels();
  }

  lemma LowLacksHigherLevels()
    ensures !Contains("RISK: LOW", "HIGH") && !Contains("RISK: LOW", "ALTO")
  {
    Absent("RISK: LOW", "HIGH", 'H');
    Absent("RISK: LOW", "ALTO", 'A');
  }

  lemma VerdictMedium()
    ensures IsMarkerLine("RISK: MEDIUM") && Decided("RISK: MEDIUM") == Medio
  {
    var v := "RISK: MEDIUM";
    MediumWords();
    assert IsMarkerLine(v) by { assert Contains(Upper(v), "RISK:"); }
    assert LineLevel(v) == Some(Medio);
  }

  /** The words the scan looks for in "RISK: MEDIUM". */
  lemma MediumWords()
    ensures Upper("RISK: MEDIUM") == "RISK: MEDIUM" && Contains("RISK: MEDIUM", "RISK:")
    ensures Contains("RISK: MEDIUM", "MEDIUM")
    ensures !Contains("RISK: MEDIUM", "HIGH") && !Contains("RISK: MEDIUM", "ALTO")
    ensures !Contains("RISK: MEDIUM", "LOW") && !Contains("RISK: MEDIUM", "BAJO")
  {
    var v := "RISK: MEDIUM";
    UpperOfUpper(v);
    ContainsPrefix(v, "RISK:");
    assert OccursAt(v, "MEDIUM", 6);
    MediumLacksOtherLevels();
  }

  lemma MediumLacksOtherLevels()
    ensures !Contains("RISK: MEDIUM", "HIGH") && !Contains("RISK: MEDIUM", "ALTO")
    ensures !Contains("RISK: MEDIUM", "LOW") && !Contains("RISK: MEDIUM", "BAJO")
  {
    var v := "RISK: MEDIUM";
    Absent(v, "HIGH", 'H');
    Absent(v, "ALTO", 'A');
    Absent(v, "LOW", 'L');
    Absent(v, "BAJO", 'B');
  }

  lemma VerdictNotEvaluated()
    ensures IsMarkerLine("RISK: NOT EVALUATED")
    ensures Decided("RISK: NOT EVALUATED") == SinEvaluar
  {
    var v := "RISK: NOT EVALUATED";
    NotEvaluatedFacts();
    NotEvaluatedNamesNoOtherLevel();
    assert IsMarkerLine(v) by { assert Contains(Upper(v), "RISK:"); }
    assert LineLevel(v) == Some(SinEvaluar);
  }

  lemma NotEvaluatedFacts()
    ensures Upper("RISK: NOT EVALUATED") == "RISK: NOT EVALUATED"
    ensures Contains("RISK: NOT EVALUATED", "RISK:")
    ensures Contains("RISK: NOT EVALUATED", "NOT EVALUATED")
  {
    var v := "RISK: NOT EVALUATED";
    UpperOfUpper(v);
    ContainsPrefix(v, "RISK:");
    assert v[6..19] == "NOT EVALUATED";
    assert OccursAt(v, "NOT EVALUATED", 6);
  }

  lemma NotEvaluatedNamesNoOtherLevel()
    ensures !Contains("RISK: NOT EVALUATED", "HIGH") && !Contains("RISK: NOT EVALUATED", "ALTO")
    ensures !Contains("RISK: NOT EVALUATED", "LOW") && !Contains("RISK: NOT EVALUATED", "BAJO")
    ensures !Contains("RISK: NOT EVALUATED", "MEDIUM") && !Contains("RISK: NOT EVALUATED", "MEDIO")
  {
    var v := "RISK: NOT EVALUATED";
    Absent(v, "HIGH", 'H');
    NotEvaluatedIsNotAlto();
    NotEvaluatedNamesNoLowerLevel();
  }

  lemma NotEvaluatedNamesNoLowerLevel()
    ensures !Contains("RISK: NOT EVALUATED", "LOW") && !Contains("RISK: NOT EVALUATED", "BAJO")
    ensures !Contains("RISK: NOT EVALUATED", "MEDIUM") && !Contains("RISK: NOT EVALUATED", "MEDIO")
  {
    var v := "RISK: NOT EVALUATED";
    Absent(v, "LOW", 'W');
    Absent(v, "BAJO", 'B');
    Absent(v, "MEDIUM", 'M');
    Absent(v, "MEDIO", 'M');
  }

  /** The lines kept from a list of lines and one more. */
  lemma {:induction false} KeepLinesAppend(lines: seq<string>, line: string)
    ensures KeepLines(lines + [line]) == KeepLines(lines) + (if IsMarkerLine(line) then [] else [line])
  {
    if lines == [] {
      assert lines + [line] == [line];
    } else {
      assert (lines + [line])[1..] == lines[1..] + [line];
      KeepLinesAppend(lines[1..], line);
    }
  }

  /** An answer that ends with the verdict line for `r` and has no verdict before it
      normalises to its body, stripped, with risk `r`. */
  lemma VerdictRoundTrip(body: string, r: Risk)
    requires !IsMarkerLine(body)
    ensures Normalize(body + "\n" + VerdictLine(r)) == Answer(Strip(body), r)
  {
    var v := VerdictLine(r);
    var raw := body + "\n" + v;
    VerdictLineFacts(r);
    var lines := Split(body, '\n');
    SplitAppendLine(body, '\n', v);
    assert Split(raw, '\n') == lines + [v];
    JoinSplit(body, '\n');
    forall j | 0 <= j < |lines|
      ensures !IsMarkerLine(lines[j])
    {
      LineMarkerInJoin(lines, j);
    }
    assert (lines + [v])[|lines|] == v;
    assert forall j :: 0 <= j < |lines| ==> (lines + [v])[j] == lines[j];
    FirstMarkerLineDecides(raw, |lines|);
    assert ExtractRisk(raw) == r;
    KeepLinesAppend(lines, v);
    assert KeepLines(lines + [v]) == lines;
    assert CleanAnswer(raw) == Strip(body);
  }

  // ---------------------------------------------------------------------------
  // The fallbacks around the model call

  /** The environment the engine reads: the value of GOOGLE_API_KEY ("" when unset). */
  datatype Env = Env(apiKey: string)

  /** What the PDF reader yields: the text of each page, `None` for a page whose
      extraction raised (that page is skipped); `Err` when the reader itself raised. */
  type Pages = Result<seq<Option<string>>>

  /** The model: (section, question, context text) to a raw answer, or the text of
      the exception the call raised. */
  type Model = (string, string, string) -> Result<string>

  /** The context text built from the pages that could be read, each under a header. */
  function PdfText(pages: seq<Option<string>>): string {
    PdfTextFrom(pages, 0)
  }

  function PdfTextFrom(pages: seq<Option<string>>, first: nat): string
    decreases |pages|
  {
    if pages == [] then ""
    else
      var head := match pages[0]
        case Some(t) => "\n--- Página " + NatToString(first + 1) + " ---\n" + t + "\n"
        case None => "";
      head + PdfTextFrom(pages[1..], first + 1)
  }

  /** The context is blank exactly when no page could be read: a read page always
      contributes its header, even when its own text is empty. */
  lemma {:induction false} PdfTextBlankIffNoPage(pages: seq<Option<string>>, first: nat)
    ensures Strip(PdfTextFrom(pages, first)) == [] <==> forall k :: 0 <= k < |pages| ==> pages[k].None?
    decreases |pages|
  {
    if pages != [] {
      PdfTextBlankIffNoPage(pages[1..], first + 1);
      var rest := PdfTextFrom(pages[1..], first + 1);
      if pages[0].Some? {
        var head := "\n--- Página " + NatToString(first + 1) + " ---\n" + pages[0].value + "\n";
        assert PdfTextFrom(pages, first) == head + rest;
        assert (head + rest)[1] == '-';
        StripNonEmpty(head + rest, 1);
      } else {
        assert PdfTextFrom(pages, first) == "" + rest;
        assert "" + rest == rest;
        assert forall k :: 1 <= k < |pages| ==> pages[1..][k - 1] == pages[k];
        assert (forall k :: 0 <= k < |pages| ==> pages[k].None?) <==>
               (forall k :: 0 <= k < |pages[1..]| ==> pages[1..][k].None?);
      }
    }
  }

  const KeyError := "Error: GOOGLE_API_KEY no configurada"
  const NoText := "No se pudo extraer texto del PDF"

  /** `analizar_pregunta_texto`: the model answers against a context text. */
  function AnalyzeText(env: Env, model: Model, pregunta: string, seccion: string, texto: string): (a: Answer)
    ensures env.apiKey == "" ==> a == Answer(KeyError, Alto)
    ensures env.apiKey != "" && model(seccion, pregunta, texto).Err? ==>
      a == Answer("Error al procesar la pregunta: " + model(seccion, pregunta, texto).message, Alto)
    ensures env.apiKey != "" && model(seccion, pregunta, texto).Ok? ==> a == Normalize(model(seccion, pregunta, texto).value)
    ensures a.riesgo != Alto ==> env.apiKey != "" && model(seccion, pregunta, texto).Ok?
  {
    if env.apiKey == "" then Answer(KeyError, Alto)
    else match model(seccion, pregunta, texto)
      case Err(m) => Answer("Error al procesar la pregunta: " + m, Alto)
      case Ok(raw) => Normalize(raw)
  }

  /** `analizar_pregunta`: the model answers against the text extracted from the PDF. */
  function AnalyzeQuestion(env: Env, pdf: Pages, model: Model, pregunta: string, seccion: string): Answer {
    if env.apiKey == "" then Answer(KeyError, Alto)
    else match pdf
      case Err(m) => Answer("Error al extraer texto del PDF: " + m, Alto)
      case Ok(pages) =>
        var texto := PdfText(pages);
        if Strip(texto) == [] then Answer("Error al extraer texto del PDF: " + NoText, Alto)
        else AnalyzeText(env, model, pregunta, seccion, texto)
  }

  /** Every way the analysis can fail ends in an "Alto" answer whose text says so, and
      otherwise the answer is the normalised model output. */
  lemma AnalyzeQuestionOutcomes(env: Env, pdf: Pages, model: Model, pregunta: string, seccion: string)
    ensures var a := AnalyzeQuestion(env, pdf, model, pregunta, seccion);
      && (env.apiKey == "" ==> a == Answer(KeyError, Alto))
      && (env.apiKey != "" && pdf.Err? ==> a == Answer("Error al extraer texto del PDF: " + pdf.message, Alto))
      && (env.apiKey != "" && pdf.Ok? && (forall k :: 0 <= k < |pdf.value| ==> pdf.value[k].None?) ==>
            a == Answer("Error al extraer texto del PDF: " + NoText, Alto))
      && (env.apiKey != "" && pdf.Ok? && (exists k :: 0 <= k < |pdf.value| && pdf.value[k].Some?) ==>
            var r := model(seccion, pregunta, PdfText(pdf.value));
            a == if r.Err? then Answer("Error al procesar la pregunta: " + r.message, Alto) else Normalize(r.value))
  {
    if pdf.Ok? {
      PdfTextBlankIffNoPage(pdf.value, 0);
    }
  }
}
