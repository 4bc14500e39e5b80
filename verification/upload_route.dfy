/**
  `POST /api/upload` (app/api/upload/route.ts): rejects an empty `files`
  form field, otherwise describes each entry in order.

  The simulated delay is left out. The per-entry id
  (`file-${Date.now()}-${Math.random()}`) and upload time are supplied by
  the caller, indexed by the entry's position; the time is kept as a
  millisecond count rather than its ISO text.
 */
module UploadRoute {
  import opened Wrappers
  import opened Types

  /** One value of `formData.getAll('files')`: a file, or a plain string
      field that happens to share the name. */
  datatype FormEntry =
    | FilePart(name: string, size: nat, mimeType: string)
    | TextPart(value: string)

  /** One entry of the answer; a field the entry does not have (a string
      entry has no `name`, `size` or `type`) is `None`, i.e. `undefined`. */
  datatype UploadedFile = UploadedFile(
    id: string,
    name: Option<string>,
    size: Option<nat>,
    mimeType: Option<string>,
    url: string,
    uploadedAt: Time)

  datatype UploadResponse =
    | UploadOk(files: seq<UploadedFile>, message: string)
    | UploadFailed(status: nat, error: string)
  {
    function Status(): nat {
      if UploadOk? then 200 else status
    }

    predicate Success() {
      UploadOk?
    }
  }

  const UploadsPrefix: string := "/uploads/"
  const UploadedText: string := "Files uploaded successfully"
  const NoFilesText: string := "No files provided"
  const UploadFailureText: string := "Failed to upload files"

  /** The mock URL: the template literal prints an undefined name as
      `undefined`. */
  function UploadUrl(name: Option<string>): string {
    UploadsPrefix + name.GetOr("undefined")
  }

  /** The answer entry for one form entry. */
  function Describe(entry: FormEntry, id: string, at: Time): UploadedFile {
    match entry
    case FilePart(name, size, mimeType) =>
      UploadedFile(id, Some(name), Some(size), Some(mimeType), UploadUrl(Some(name)), at)
    case TextPart(_) =>
      UploadedFile(id, None, None, None, UploadUrl(None), at)
  }

  /** `POST /api/upload`. `form` is `None` when the body is not form data
      (`request.formData()` throws). An empty list is a 400; otherwise the
      answer lists one entry per form entry, in the same order, copying the
      file's name, size and type and pointing its URL at `/uploads/<name>`. */
  function HandleUpload(form: Option<seq<FormEntry>>, ids: nat -> string, clock: nat -> Time)
    : (r: UploadResponse)
    ensures form.None? ==> r == UploadFailed(500, UploadFailureText)
    ensures form == Some([]) ==> r == UploadFailed(400, NoFilesText)
    ensures r.Success() <==> form.Some? && |form.value| > 0
    ensures r.Success() ==> r.Status() == 200 && r.message == UploadedText
    ensures r.Success() ==> |r.files| == |form.value|
    ensures r.Success() ==> forall i :: 0 <= i < |r.files| ==>
      && r.files[i].id == ids(i)
      && r.files[i].uploadedAt == clock(i)
      && (form.value[i].FilePart? ==>
            && r.files[i].name == Some(form.value[i].name)
            && r.files[i].size == Some(form.value[i].size)
            && r.files[i].mimeType == Some(form.value[i].mimeType)
            && r.files[i].url == UploadsPrefix + form.value[i].name)
      && (form.value[i].TextPart? ==>
            && r.files[i].name.None? && r.files[i].size.None? && r.files[i].mimeType.None?
            && r.files[i].url == "/uploads/undefined")
  {
    match form
    case None => UploadFailed(500, UploadFailureText)
    case Some(entries) =>
      if |entries| == 0 then
        UploadFailed(400, NoFilesText)
      else
        UploadOk(seq(|entries|, i requires 0 <= i < |entries| => Describe(entries[i], ids(i), clock(i))), UploadedText)
  }

  /* ---------------- properties ---------------- */

  function FileNames(entries: seq<FormEntry>): seq<Option<string>> {
    seq(|entries|, i requires 0 <= i < |entries| =>
      if entries[i].FilePart? then Some(entries[i].name) else None)
  }

  /** The names of the answer, in order, are the names of the request. */
  lemma UploadKeepsNamesInOrder(entries: seq<FormEntry>, ids: nat -> string, clock: nat -> Time)
    requires |entries| > 0
    ensures var r := HandleUpload(Some(entries), ids, clock);
      seq(|r.files|, i requires 0 <= i < |r.files| => r.files[i].name) == FileNames(entries)
  {
  }

  /** Every URL lies under `/uploads/`, and stripping that prefix gives the
      entry's name back (`undefined` for a string entry). */
  lemma UrlRecoversName(entries: seq<FormEntry>, ids: nat -> string, clock: nat -> Time, i: nat)
    requires i < |entries|
    ensures var r := HandleUpload(Some(entries), ids, clock);
      && |r.files[i].url| >= |UploadsPrefix|
      && r.files[i].url[..|UploadsPrefix|] == UploadsPrefix
      && r.files[i].url[|UploadsPrefix|..] == r.files[i].name.GetOr("undefined")
  {
  }

  /** Two files answer with two entries, first to first. */
  lemma TwoFilesExample(ids: nat -> string, clock: nat -> Time)
    ensures var r := HandleUpload(
        Some([FilePart("a.csv", 10, "text/csv"), FilePart("b.pdf", 20, "application/pdf")]),
        ids, clock);
      && r.Success() && |r.files| == 2
      && r.files[0].url == "/uploads/a.csv"
      && r.files[1].size == Some(20)
  {
  }
}
