/** The page of processes in course: for every pending analysis, the percentage read
    from its progress file, whether it is finished (and is then marked completed in
    the table), the status label of its card, and the page count, model and remaining
    time shown on it. */
module Procesos {
  import opened Text
  import opened Records

  /** A JSON value as the page reads it. Floating-point numbers are not modelled. */
  datatype Value =
    | VStr(s: string)
    | VInt(n: int)
    | VBool(b: bool)
    | VNull
    | VList(items: seq<Value>)
    | VDict(fields: map<string, Value>)

  /** Python truthiness. */
  predicate Truthy(v: Value) {
    match v
    case VStr(s) => s != ""
    case VInt(n) => n != 0
    case VBool(b) => b
    case VNull => false
    case VList(items) => items != []
    case VDict(fields) => fields != map[]
  }

  /** `isinstance(v, (int, float))` and `int(v)`: a bool is an int in Python. */
  function Number(v: Value): Option<int> {
    match v
    case VInt(n) => Some(n)
    case VBool(b) => Some(if b then 1 else 0)
    case _ => None
  }

  /** `d.get(key, default)`. */
  function Lookup(d: map<string, Value>, key: string, default: Value): Value {
    if key in d then d[key] else default
  }

  /** `len(v)`, or `None` where `len` raises. */
  function Len(v: Value): Option<nat> {
    match v
    case VStr(s) => Some(|s|)
    case VList(items) => Some(|items|)
    case VDict(fields) => Some(|fields.Keys|)
    case _ => None
  }

  // ---------------------------------------------------------------------------
  // The percentage

  /** `int(a / b)` for a positive `b`: the quotient truncated toward zero. */
  function TruncDiv(a: int, b: int): (q: int)
    requires b > 0
    ensures a >= 0 ==> 0 <= q && q * b <= a < (q + 1) * b
    ensures a < 0 ==> q <= 0 && (q - 1) * b < a <= q * b
  {
    if a >= 0 then
      NonNegativeQuotient(a, b);
      a / b
    else
      NegativeQuotient(a, b);
      -((-a) / b)
  }

  /** The quotient of a non-negative number. */
  lemma NonNegativeQuotient(a: int, b: int)
    requires a >= 0 && b > 0
    ensures var q := a / b; 0 <= q && q * b <= a < (q + 1) * b
  {
    var q := a / b;
    assert q * b + a % b == a;
    assert (q + 1) * b == q * b + b;
  }

  /** The quotient of a negative number, truncated toward zero. */
  lemma NegativeQuotient(a: int, b: int)
    requires a < 0 && b > 0
    ensures var q := -((-a) / b); q <= 0 && (q - 1) * b < a <= q * b
  {
    var p := (-a) / b;
    assert p * b + (-a) % b == -a;
    assert (-p) * b == -(p * b) && (-p - 1) * b == -(p * b) - b;
  }

  /** `int(100 * progreso / max(1, total)) if total > 0 else 0`. */
  function Percent(progreso: int, total: nat): int {
    if total > 0 then TruncDiv(100 * progreso, total) else 0
  }

  /** With no more answers than questions, the percentage is between 0 and 100. */
  lemma PercentBounds(progreso: int, total: nat)
    requires 0 <= progreso <= total
    ensures 0 <= Percent(progreso, total) <= 100
  {
    if total > 0 {
      var q := Percent(progreso, total);
      assert q * total <= 100 * total;
      MulCancel(q, 100, total);
    }
  }

  /** Cancelling a positive factor of an inequality. */
  lemma MulCancel(a: int, b: int, c: int)
    requires c > 0 && a * c <= b * c
    ensures a <= b
  {
    assert (b - a) * c >= 0;
  }

  /** Cancelling a positive factor of a strict inequality. */
  lemma MulLess(a: int, b: int, c: int)
    requires c > 0 && a * c < b * c
    ensures a < b
  {
    assert (b - a) * c > 0;
  }

  /** The percentage reaches 100 exactly when every question has an answer. */
  lemma PercentFull(progreso: int, total: nat)
    requires total > 0
    ensures Percent(progreso, total) >= 100 <==> progreso >= total
  {
    var a := 100 * progreso;
    var q := TruncDiv(a, total);
    if progreso >= total {
      MulLess(100, q + 1, total);
    } else if a >= 0 {
      MulLess(q, 100, total);
    }
  }

  /** What `json` found in the progress file: no file, a file that does not parse, or
      a value. */
  datatype FileRead = NoFile | Unreadable | Parsed(v: Value)

  /** The file as the card uses it: the percentage, the data read (`None` when reading
      failed), and the file's estado and tipo_reanalisis ('' when absent or unread). */
  datatype FileView = FileView(pct: int, data: Option<map<string, Value>>, estado: string, tipo: string)

  const Individual := "individual_pregunta_"

  /** The file's estado as the comparisons see it: any value that is not text equals
      neither of the texts it is compared with, as "" does not. */
  function TextOf(v: Value): string {
    if v.VStr? then v.s else ""
  }

  /** Lines 231-272: the percentage from the answered count, forced to 100 for a
      finished file and to 50 for an individual re-run in progress; any failure reads
      as 0 with no data. */
  function ReadProgress(f: FileRead): (view: FileView)
    ensures view.data.None? ==> view == FileView(0, None, "", "")
  {
    match f
    case NoFile => FileView(0, None, "", "")
    case Unreadable => FileView(0, None, "", "")
    case Parsed(v) =>
      if !v.VDict? then FileView(0, None, "", "")
      else
        var d := v.fields;
        var total := Len(Lookup(d, "preguntas_originales", VList([])));
        var tipo := Lookup(d, "tipo_reanalisis", VStr(""));
        if total.None? || !tipo.VStr? then FileView(0, None, "", "")
        else
          var progreso := Number(Lookup(d, "progreso", VInt(0)));
          var pct := Percent(if progreso.Some? then progreso.value else 0, total.value);
          var estado := TextOf(Lookup(d, "estado", VStr("")));
          var forced :=
            if StartsWith(tipo.s, Individual) then
              (if estado == "completado" then 100 else if estado == "reanalisis_en_progreso" then 50 else pct)
            else if estado == "completado" then 100 else pct;
          FileView(forced, Some(d), estado, tipo.s)
  }

  /** Lines 277-293: the process is finished, and is marked "✅ Completed" in the table. */
  predicate Completed(api: Option<string>, view: FileView) {
    api == Some("completado") ||
    (view.pct >= 100 && (!StartsWith(view.tipo, Individual) || view.estado == "completado"))
  }

  /** A file whose estado is "completado" finishes the process, whatever the API says. */
  lemma FinishedFileCompletes(d: map<string, Value>, api: Option<string>)
    requires Lookup(d, "estado", VStr("")) == VStr("completado")
    requires Len(Lookup(d, "preguntas_originales", VList([]))).Some? && Lookup(d, "tipo_reanalisis", VStr("")).VStr?
    ensures Completed(api, ReadProgress(Parsed(VDict(d))))
  {
  }

  /** A run that is not an individual re-run finishes when the API says so or when
      every question of the file has an answer. */
  lemma RunCompletes(d: map<string, Value>, api: Option<string>, total: nat, progreso: int)
    requires Lookup(d, "preguntas_originales", VList([])).VList? && |Lookup(d, "preguntas_originales", VList([])).items| == total > 0
    requires Lookup(d, "tipo_reanalisis", VStr("")) == VStr("")
    requires Lookup(d, "progreso", VInt(0)) == VInt(progreso)
    requires Lookup(d, "estado", VStr("")) != VStr("completado")
    ensures Completed(api, ReadProgress(Parsed(VDict(d)))) <==> api == Some("completado") || progreso >= total
  {
    assert !StartsWith("", Individual);
    PercentFull(progreso, total);
  }

  /** An individual re-run in progress shows 50% and finishes only when the API says
      so. */
  lemma IndividualInProgress(d: map<string, Value>, api: Option<string>)
    requires Lookup(d, "estado", VStr("")) == VStr("reanalisis_en_progreso")
    requires Len(Lookup(d, "preguntas_originales", VList([]))).Some?
    requires Lookup(d, "tipo_reanalisis", VStr("")).VStr? && StartsWith(Lookup(d, "tipo_reanalisis", VStr("")).s, Individual)
    ensures ReadProgress(Parsed(VDict(d))).pct == 50
    ensures Completed(api, ReadProgress(Parsed(VDict(d)))) <==> api == Some("completado")
  {
  }

  // ---------------------------------------------------------------------------
  // The status label

  datatype Label = Finished | Reprocessing | Processing | Analyzing | InCourse | Queued

  /** The text of the card's badge. */
  function LabelText(l: Label): string {
    match l
    case Finished => "Completado"
    case Reprocessing => "Reprocesando"
    case Processing => "Procesando documento"
    case Analyzing => "Analizando contenido"
    case InCourse => "En curso"
    case Queued => "En cola"
  }

  predicate ApiIn(api: Option<string>, names: seq<string>) {
    api.Some? && api.value in names
  }

  /** Lines 301-331: the first condition that holds names the badge. */
  function StatusLabel(api: Option<string>, existe: bool, view: FileView): Label {
    if api == Some("completado") || view.estado == "completado" || view.pct >= 100 then Finished
    else if view.estado == "reanalisis_en_progreso" && StartsWith(view.tipo, Individual) then Reprocessing
    else if api == Some("procesando") || (existe && ApiIn(api, ["en_progreso", "iniciado", "running"])) then Processing
    else if api == Some("analizando") || (existe && ApiIn(api, ["analyzing", "processing"])) then Analyzing
    else if existe || ApiIn(api, ["iniciado", "started", "en_progreso", "in_progress"]) then InCourse
    else if ApiIn(api, ["pendiente", "queued", "waiting"]) then Queued
    else InCourse
  }

  /** The card of a process that is shown, that is, not finished: its label. */
  function CardLabel(api: Option<string>, f: FileRead): Label {
    StatusLabel(api, !f.NoFile?, ReadProgress(f))
  }

  /** A card shown as "Completado" belongs to an individual re-run whose answered count
      reached the total while its file says neither finished nor in progress: that
      process is not marked completed and stays on the page. */
  lemma FinishedBadgeOnOpenProcess(api: Option<string>, f: FileRead)
    requires !Completed(api, ReadProgress(f)) && CardLabel(api, f) == Finished
    ensures var view := ReadProgress(f);
      StartsWith(view.tipo, Individual) && view.pct >= 100 &&
      view.estado != "completado" && view.estado != "reanalisis_en_progreso"
  {
  }

  /** A process with a progress file is never shown as queued. */
  lemma FileNeverQueued(api: Option<string>, f: FileRead)
    requires !f.NoFile?
    ensures CardLabel(api, f) != Queued
  {
  }

  /** An individual re-run in progress that the API does not report finished is shown
      as reprocessing. */
  lemma IndividualShowsReprocessing(d: map<string, Value>, api: Option<string>)
    requires Lookup(d, "estado", VStr("")) == VStr("reanalisis_en_progreso")
    requires Len(Lookup(d, "preguntas_originales", VList([]))).Some?
    requires Lookup(d, "tipo_reanalisis", VStr("")).VStr? && StartsWith(Lookup(d, "tipo_reanalisis", VStr("")).s, Individual)
    requires api != Some("completado")
    ensures CardLabel(api, Parsed(VDict(d))) == Reprocessing
  {
    IndividualInProgress(d, api);
  }

  // ---------------------------------------------------------------------------
  // Page count

  predicate AllDigits(s: string) {
    forall k :: 0 <= k < |s| ==> '0' <= s[k] <= '9'
  }

  /** The value of a string of decimal digits. */
  function DigitsValue(s: string): nat
    requires AllDigits(s)
  {
    if s == [] then 0 else 10 * DigitsValue(s[..|s| - 1]) + (s[|s| - 1] as int - '0' as int)
  }

  /** `int(s)` for a string of ASCII digits: spaces around, an optional sign, decimal
      digits; `None` where it raises ValueError. Underscores between digits and
      non-ASCII digits, which `int` also accepts, are read as no number. */
  function ParseInt(s: string): Option<int> {
    var t := Strip(s);
    if t != [] && (t[0] == '-' || t[0] == '+') then
      var d := t[1..];
      if d != [] && AllDigits(d) then
        var v: int := DigitsValue(d);
        Some(if t[0] == '-' then -v else v)
      else None
    else if t != [] && AllDigits(t) then Some(DigitsValue(t))
    else None
  }

  lemma {:induction false} DigitsOfNat(n: nat)
    ensures AllDigits(NatToString(n)) && DigitsValue(NatToString(n)) == n
  {
    if n >= 10 {
      DigitsOfNat(n / 10);
      var s := NatToString(n);
      assert s[..|s| - 1] == NatToString(n / 10);
    }
  }

  lemma NoSpaceStrip(s: string)
    requires s != [] && !IsSpace(s[0]) && !IsSpace(s[|s| - 1])
    ensures Strip(s) == s
  {
  }

  /** Reading back the decimal text of a number gives the number. */
  lemma ParseIntToString(n: int)
    ensures ParseInt(IntToString(n)) == Some(n)
  {
    var s := IntToString(n);
    DigitsOfNat(if n < 0 then -n else n);
    NoSpaceStrip(s);
    if n < 0 {
      assert s[1..] == NatToString(-n);
    }
  }

  /** `int(v)` for total_paginas: a number, a numeric text, or nothing. */
  function PagesOf(v: Value): Option<int> {
    match v
    case VStr(s) => ParseInt(s)
    case _ => Number(v)
  }

  /** The pages of the document entries that are objects with a numeric "paginas". */
  function PagesSum(docs: seq<Value>): int {
    if docs == [] then 0
    else
      var last := docs[|docs| - 1];
      PagesSum(docs[..|docs| - 1]) +
        (if last.VDict? && "paginas" in last.fields && Number(last.fields["paginas"]).Some?
         then Number(last.fields["paginas"]).value else 0)
  }

  /** The page sum adds up over a split of the entries. */
  lemma {:induction false} PagesSumAppend(a: seq<Value>, b: seq<Value>)
    ensures PagesSum(a + b) == PagesSum(a) + PagesSum(b)
    decreases |b|
  {
    if b == [] {
      assert a + b == a;
    } else {
      PagesSumAppend(a, b[..|b| - 1]);
      assert (a + b)[..|a + b| - 1] == a + b[..|b| - 1];
      assert (a + b)[|a + b| - 1] == b[|b| - 1];
    }
  }

  /** Entries that are not objects with a numeric "paginas" count for nothing. */
  lemma {:induction false} PagesSumIgnores(docs: seq<Value>)
    requires forall k :: 0 <= k < |docs| ==> !docs[k].VDict?
    ensures PagesSum(docs) == 0
  {
    if docs != [] {
      PagesSumIgnores(docs[..|docs| - 1]);
    }
  }

  /** The document entries: a list, or a JSON text of one; anything else is none.
      `decode` is `json.loads`, `None` where it raises. */
  function Documents(meta: map<string, Value>, decode: string -> Option<Value>): seq<Value> {
    var raw := Lookup(meta, "documentos_info", VNull);
    var info := if raw.VStr? then (var r := decode(raw.s); if r.Some? then r.value else VList([])) else raw;
    if info.VList? then info.items else []
  }

  /** Lines 402-427: the page total, the sum over the documents when that is positive. */
  function PagesTotal(meta: map<string, Value>, decode: string -> Option<Value>): Option<int> {
    var suma := PagesSum(Documents(meta, decode));
    if suma > 0 then Some(suma) else PagesOf(Lookup(meta, "total_paginas", VNull))
  }

  /** Lines 430-435. */
  function PagesLabel(total: Option<int>): string {
    if total.Some? && total.value > 0 then IntToString(total.value) + " página" + (if total.value != 1 then "s" else "")
    else if total == Some(0) then "0 páginas"
    else "Sin datos"
  }

  /** A positive document sum wins over total_paginas; otherwise total_paginas is read
      as a number, and its text, when it is one, gives back the number. */
  lemma PagesPrecedence(meta: map<string, Value>, decode: string -> Option<Value>, n: int)
    ensures PagesSum(Documents(meta, decode)) > 0 ==> PagesTotal(meta, decode) == Some(PagesSum(Documents(meta, decode)))
    ensures PagesSum(Documents(meta, decode)) <= 0 && Lookup(meta, "total_paginas", VNull) == VStr(IntToString(n)) ==>
      PagesTotal(meta, decode) == Some(n)
  {
    ParseIntToString(n);
  }

  /** The label of a page total: singular for one page, the plural otherwise, and
      "Sin datos" for an unknown or negative total. */
  lemma PagesLabelCases(total: Option<int>)
    ensures total == Some(1) ==> PagesLabel(total) == "1 página"
    ensures total.Some? && total.value != 1 && total.value >= 0 ==> PagesLabel(total) == IntToString(total.value) + " páginas"
    ensures (total.None? || total.value < 0) <==> PagesLabel(total) == "Sin datos"
  {
    if total.Some? && total.value > 0 {
      var s := PagesLabel(total);
      assert s[0] == NatToString(total.value)[0];
    }
  }

  // ---------------------------------------------------------------------------
  // Model label

  /** `a or b or c`: the first truthy value, or the last. */
  function Or3(a: Value, b: Value, c: Value): Value {
    if Truthy(a) then a else if Truthy(b) then b else c
  }

  /** `str(v)` for text and numbers; lists and objects are shown as empty text. */
  function Show(v: Value): string {
    match v
    case VStr(s) => s
    case VInt(n) => IntToString(n)
    case VBool(b) => if b then "True" else "False"
    case VNull => "None"
    case _ => ""
  }

  /** The metadata of a card: the API's answer, overridden by the progress file. */
  function Metadata(api: Option<map<string, Value>>, data: Option<map<string, Value>>): map<string, Value> {
    (if api.Some? then api.value else map[]) + (if data.Some? then data.value else map[])
  }

  /** Lines 399-400 and 437-444. */
  function LlmLabel(meta: map<string, Value>): string {
    var modelo := Or3(Lookup(meta, "modelo_llm", VNull), Lookup(meta, "llm_modelo", VNull), Lookup(meta, "llm", VNull));
    var proveedor := Or3(Lookup(meta, "proveedor_llm", VNull), Lookup(meta, "origen_llm", VNull), VNull);
    if Truthy(proveedor) && Truthy(modelo) then Show(proveedor) + " · " + Show(modelo)
    else if Truthy(modelo) then Show(modelo)
    else if Truthy(proveedor) then Show(proveedor)
    else "Sin datos"
  }

  /** The label names the model the progress file gives, before the API's; a
      provider only comes in front of it. */
  lemma LlmLabelPrefersFile(api: Option<map<string, Value>>, data: map<string, Value>, modelo: string)
    requires "modelo_llm" in data && data["modelo_llm"] == VStr(modelo) && modelo != ""
    ensures var shown := LlmLabel(Metadata(api, Some(data)));
      |shown| >= |modelo| && shown[|shown| - |modelo|..] == modelo
  {
  }

  /** With no model and no provider anywhere the label says so. */
  lemma LlmLabelNone(meta: map<string, Value>)
    requires forall k :: k in meta ==> !Truthy(meta[k])
    ensures LlmLabel(meta) == "Sin datos"
  {
  }

  // ---------------------------------------------------------------------------
  // Remaining time

  /** Lines 579-589: thirty seconds per unanswered question. */
  function RemainingTime(total: int, done: int): string {
    if done > 0 then
      var t := (total - done) * 30;
      if t < 60 then IntToString(t) + "s" else IntToString(t / 60) + "m " + IntToString(t % 60) + "s"
    else "Calculando..."
  }

  /** From a minute on, the time is a whole number of minutes, one per two questions
      left, and 30 seconds more when an odd number is left. */
  lemma RemainingTimeParts(total: int, done: int)
    requires done > 0 && (total - done) * 30 >= 60
    ensures RemainingTime(total, done) ==
      IntToString((total - done) / 2) + "m " + (if (total - done) % 2 == 0 then "0" else "30") + "s"
  {
    var x := total - done;
    HalfMinutes(x);
    var m, sec := IntToString(x / 2), IntToString(30 * (x % 2));
    assert RemainingTime(total, done) == m + "m " + sec + "s";
    SecondsText(x % 2);
  }

  /** `x` half-minutes are `x / 2` minutes and `30 * (x % 2)` seconds. */
  lemma HalfMinutes(x: int)
    ensures (x * 30) / 60 == x / 2 && (x * 30) % 60 == 30 * (x % 2)
  {
    assert x == 2 * (x / 2) + x % 2;
    assert x * 30 == (x / 2) * 60 + 30 * (x % 2);
    DivModUnique(x * 30, 60, x / 2, 30 * (x % 2));
  }

  /** The two second counts that can follow the minutes. */
  lemma SecondsText(b: int)
    requires b == 0 || b == 1
    ensures IntToString(30 * b) == (if b == 0 then "0" else "30")
  {
  }

  /** A number written as `q * d + r` with `0 <= r < d` has quotient `q` and remainder `r`. */
  lemma DivModUnique(n: int, d: int, q: int, r: int)
    requires d > 0 && n == q * d + r && 0 <= r < d
    ensures n / d == q && n % d == r
  {
    var q2, r2 := n / d, n % d;
    assert q2 * d + r2 == n;
    assert (q2 - q) * d == r - r2;
    MulLess(q2 - q, 1, d);
    MulLess(-1, q2 - q, d);
  }
}
