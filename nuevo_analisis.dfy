/** The page that starts a new analysis: the files chosen for upload, the default
    analysis name built from the first of them, the name field kept in the session,
    and the multipart request sent to the analysis service. */
module NuevoAnalisis {
  import opened Text
  import opened Records
  import Procesos

  // ---------------------------------------------------------------------------
  // The files chosen

  /** A file from the upload widget; `mime` is "" when the browser gave no type. */
  datatype Upload = Upload(name: string, bytes: seq<bv8>, mime: string)

  /** The widget's value: a single file, or a list of them. */
  datatype Selection = OneFile(file: Upload) | Files(files: seq<Upload>)

  /** The information kept for a file. Its size in KB, a float, is not modelled. */
  datatype Processed = Processed(name: string, bytes: seq<bv8>, mime: string)

  const DefaultMime := "application/octet-stream"

  /** `files_to_process`: a single file is wrapped in a list. */
  function ToProcess(sel: Selection): seq<Upload> {
    match sel
    case OneFile(f) => [f]
    case Files(fs) => fs
  }

  /** The record kept for one file. */
  function ProcessedOf(u: Upload): Processed {
    Processed(u.name, u.bytes, if u.mime != "" then u.mime else DefaultMime)
  }

  /** `processed_files` once the loop is over. */
  function ProcessedAll(files: seq<Upload>): (ps: seq<Processed>)
    ensures |ps| == |files|
  {
    seq(|files|, k requires 0 <= k < |files| => ProcessedOf(files[k]))
  }

  /** The loop over the chosen files. */
  method ProcessFiles(sel: Selection) returns (processed: seq<Processed>)
    ensures processed == ProcessedAll(ToProcess(sel))
  {
    var files := match sel case OneFile(f) => [f] case Files(fs) => fs;
    processed := [];
    var idx := 0;
    while idx < |files|
      invariant 0 <= idx <= |files|
      invariant processed == ProcessedAll(files)[..idx]
    {
      var u := files[idx];
      var mime := if u.mime != "" then u.mime else DefaultMime;
      TakeSnoc(ProcessedAll(files), idx);
      processed := processed + [Processed(u.name, u.bytes, mime)];
      idx := idx + 1;
    }
  }

  /** Each chosen file is kept once, in order, with its name and bytes, and with a
      type that is never empty: the browser's when it gave one. */
  lemma ProcessedKeepsFiles(files: seq<Upload>, k: int)
    requires 0 <= k < |files|
    ensures var p := ProcessedAll(files)[k];
      p.name == files[k].name && p.bytes == files[k].bytes && p.mime != "" &&
      (files[k].mime != "" ==> p.mime == files[k].mime)
  {
  }

  /** `nombres_archivos`. */
  function Names(ps: seq<Processed>): (ns: seq<string>)
    ensures |ns| == |ps|
  {
    seq(|ps|, k requires 0 <= k < |ps| => ps[k].name)
  }

  // ---------------------------------------------------------------------------
  // The default name: _generar_nombre_default

  /** The part before the date: the stem of the first file, or "Analisis". */
  function DefaultBase(nombres: seq<string>): string {
    if nombres == [] || Stem(nombres[0]) == "" then "Analisis" else Stem(nombres[0])
  }

  /** `f"{base}_{fecha}"`, where `fecha` is today as `%Y%m%d`. */
  function DefaultName(nombres: seq<string>, fecha: string): string {
    DefaultBase(nombres) + "_" + fecha
  }

  /** The default name is never empty: a non-empty base, an underscore, the date; the
      base is the first file's name without its directory and extension whenever that
      is not empty. */
  lemma DefaultNameParts(nombres: seq<string>, fecha: string)
    ensures var r := DefaultName(nombres, fecha);
      var b := |r| - |fecha| - 1;
      0 < b && r[b..] == "_" + fecha && r[..b] != "" &&
      (nombres != [] && Stem(nombres[0]) != "" ==> r[..b] + Suffix(nombres[0]) == BaseName(nombres[0]))
  {
    SplitAtSeparator(DefaultBase(nombres), fecha);
    DefaultBaseStem(nombres);
  }

  /** A text joined to a date by "_" splits back at the last `|fecha| + 1` characters. */
  lemma SplitAtSeparator(base: string, fecha: string)
    ensures var r := base + "_" + fecha; var b := |r| - |fecha| - 1;
      b == |base| && r[..b] == base && r[b..] == "_" + fecha
  {
    var r := base + "_" + fecha;
    assert r == base + ("_" + fecha);
  }

  /** The base is never empty, and is the first file's stem when that is not empty. */
  lemma DefaultBaseStem(nombres: seq<string>)
    ensures DefaultBase(nombres) != ""
    ensures nombres != [] && Stem(nombres[0]) != "" ==> DefaultBase(nombres) + Suffix(nombres[0]) == BaseName(nombres[0])
  {
  }

  /** Only the first file's name counts. */
  lemma DefaultFirstFileOnly(n1: seq<string>, n2: seq<string>, fecha: string)
    requires n1 != [] && n2 != [] && n1[0] == n2[0]
    ensures DefaultName(n1, fecha) == DefaultName(n2, fecha)
  {
  }

  // ---------------------------------------------------------------------------
  // The name field

  /** The two session keys: the field's text and the last default written into it. */
  datatype NameKeys = NameKeys(nombre: Option<string>, auto: Option<string>)

  /** The reset rule: the field takes the default only when the default differs from
      the last one written. */
  function Sync(s: NameKeys, d: string): (r: NameKeys)
    ensures d != "" ==> r.auto == Some(d)
  {
    if d != "" && s.auto != Some(d) then NameKeys(Some(d), Some(d)) else s
  }

  /** A new default replaces the field; the same default again leaves it alone, so a
      user's edit survives every rerun until the chosen files change the default. */
  lemma EditSurvivesRerun(s: NameKeys, d: string, typed: string)
    requires d != ""
    ensures s.auto != Some(d) ==> Sync(s, d).nombre == Some(d)
    ensures Sync(Sync(s, d).(nombre := Some(typed)), d).nombre == Some(typed)
    ensures Sync(Sync(s, d), d) == Sync(s, d)
  {
  }

  /** The text of the field: the session value, or "" when the key is absent. */
  function FieldText(s: NameKeys): string {
    if s.nombre.Some? then s.nombre.value else ""
  }

  /** `nombre_analisis`: the stripped input, or the default when nothing but spaces
      was typed. */
  function NameToSend(input: string, default: string): string {
    var t := Strip(input);
    if t != "" then t else default
  }

  /** The name sent is never empty, and what the user typed is sent without
      surrounding spaces. */
  lemma NameToSendFilled(input: string, nombres: seq<string>, fecha: string)
    ensures NameToSend(input, DefaultName(nombres, fecha)) != ""
    ensures Strip(input) != "" ==> Strip(NameToSend(input, DefaultName(nombres, fecha))) == NameToSend(input, DefaultName(nombres, fecha))
  {
    if Strip(input) != "" {
      StripIdempotent(input);
    }
  }

  /** Right after the files change, the field holds the new default, and that is the
      name sent unless its spaces are stripped. */
  lemma FreshFilesSendDefault(s: NameKeys, nombres: seq<string>, fecha: string)
    requires s.auto != Some(DefaultName(nombres, fecha))
    ensures var d := DefaultName(nombres, fecha);
      NameToSend(FieldText(Sync(s, d)), d) == (if Strip(d) != "" then Strip(d) else d)
  {
  }

  // ---------------------------------------------------------------------------
  // The request

  /** One part of `files_payload`: `("files", (name, bytes, mime))`. */
  datatype FilePart = FilePart(field: string, name: string, bytes: seq<bv8>, mime: string)

  /** The multipart request: the file parts and the form fields. */
  datatype UploadRequest = UploadRequest(files: seq<FilePart>, data: map<string, string>)

  /** `files_payload`. */
  function FilesPayload(ps: seq<Processed>): (fs: seq<FilePart>)
    ensures |fs| == |ps|
  {
    seq(|ps|, k requires 0 <= k < |ps| => FilePart("files", ps[k].name, ps[k].bytes, ps[k].mime))
  }

  /** `str(bool(v)).lower()` for the session's "usar_adjuntos_pdf", False when absent. */
  function AttachmentFlag(v: Option<Procesos.Value>): string {
    if v.Some? && Procesos.Truthy(v.value) then "true" else "false"
  }

  /** The request the start button posts. */
  function Request(ps: seq<Processed>, adjuntos: Option<Procesos.Value>, nombre: string): UploadRequest {
    UploadRequest(FilesPayload(ps), map["use_pdf_attachments" := AttachmentFlag(adjuntos), "analysis_name" := nombre])
  }

  /** One part per chosen file, in the order chosen, each carrying that file's name,
      bytes and type under the field "files". */
  lemma RequestOnePartPerFile(sel: Selection, adjuntos: Option<Procesos.Value>, nombre: string, k: int)
    requires 0 <= k < |ToProcess(sel)|
    ensures var files := Request(ProcessedAll(ToProcess(sel)), adjuntos, nombre).files;
      |files| == |ToProcess(sel)| && files[k].field == "files" &&
      files[k].name == ToProcess(sel)[k].name && files[k].bytes == ToProcess(sel)[k].bytes
  {
  }

  /** The names in the parts are the names the default name was built from. */
  lemma RequestNamesAreDefaultNames(ps: seq<Processed>, adjuntos: Option<Procesos.Value>, nombre: string)
    ensures var files := Request(ps, adjuntos, nombre).files;
      forall k :: 0 <= k < |files| ==> files[k].name == Names(ps)[k]
  {
  }

  /** The flag is "true" or "false", and reading it back as `== "true"` recovers the
      truthiness of the session value. */
  lemma AttachmentFlagRoundTrip(v: Option<Procesos.Value>)
    ensures AttachmentFlag(v) == "true" || AttachmentFlag(v) == "false"
    ensures (AttachmentFlag(v) == "true") <==> (v.Some? && Procesos.Truthy(v.value))
  {
  }

  /** The form carries exactly the flag and the name. */
  lemma RequestForm(ps: seq<Processed>, adjuntos: Option<Procesos.Value>, nombre: string)
    ensures var data := Request(ps, adjuntos, nombre).data;
      data.Keys == {"use_pdf_attachments", "analysis_name"} && data["analysis_name"] == nombre
  {
  }

  // ---------------------------------------------------------------------------
  // The session

  /** The session keys of the name field. */
  class NameField {
    var nombre: Option<string>
    var auto: Option<string>

    constructor ()
      ensures nombre == None && auto == None
    {
      nombre := None;
      auto := None;
    }

    /** The reset rule run on each pass of the page. */
    method SyncDefault(d: string)
      modifies this
      ensures NameKeys(nombre, auto) == Sync(NameKeys(old(nombre), old(auto)), d)
    {
      if d != "" {
        if auto != Some(d) {
          nombre := Some(d);
          auto := Some(d);
        }
      }
    }

    /** The user typing into the field. */
    method Type(text: string)
      modifies this
      ensures nombre == Some(text) && auto == old(auto)
    {
      nombre := Some(text);
    }
  }
}
