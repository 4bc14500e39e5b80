/**
  `POST /api/parse` (app/api/parse/route.ts): a required `fileId`, then mock
  parse results chosen by a case-sensitive substring test on `fileType`.

  The simulated delay is left out, and so are the floating-point figures of
  the spreadsheet summary: the result data is the tag of the canned payload
  with its integer and string parts.
 */
module ParseRoute {
  import opened Text
  import opened Json

  /** The canned `data` payloads: `{rows, columns, summary}`,
      `{pages, sections, keyInsights}` or `{}`. */
  datatype ParsedData =
    | SheetData(rows: nat, columns: seq<string>)
    | PdfData(pages: nat, sections: seq<string>, keyInsights: seq<string>)
    | NoData

  const SheetSample: ParsedData :=
    SheetData(150, ["Product", "Price", "Cost", "Volume", "Revenue"])

  const PdfSample: ParsedData :=
    PdfData(
      12,
      ["Executive Summary", "Market Analysis", "Pricing Strategy"],
      [
        "Current pricing below market average",
        "High price sensitivity in segment A",
        "Opportunity for premium positioning"
      ])

  const ParsedText: string := "File parsed successfully"
  const MissingIdText: string := "File ID required"
  const ParseFailureText: string := "Failed to parse file"

  datatype ParseResponse =
    | ParseOk(data: ParsedData, message: string)
    | ParseFailed(status: nat, error: string)
  {
    function Status(): nat {
      if ParseOk? then 200 else status
    }

    predicate Success() {
      ParseOk?
    }
  }

  /* ---------------- the type test ---------------- */

  /** What `fileType?.includes(k)` evaluates to. */
  datatype Probe = Found | NotFound | Throws

  /** `v?.includes(k)`: `undefined` and `null` short-circuit to `undefined`
      (falsy); a string searches for a substring; an array looks for an
      element equal to the string; any other value has no `includes` method,
      so the call throws. */
  function OptionalIncludes(v: JsValue, k: string): (p: Probe)
    ensures p == Throws <==> !(v.Undefined? || v.Null? || v.Str? || v.Arr?)
    ensures v.Undefined? || v.Null? ==> p == NotFound
    ensures v.Str? ==> (p == Found <==> Occurs(v.s, k))
    ensures v.Arr? ==> (p == Found <==> Str(k) in v.items)
  {
    match v
    case Undefined => NotFound
    case Null => NotFound
    case Str(s) => if Includes(s, k) then Found else NotFound
    case Arr(items) => if Str(k) in items then Found else NotFound
    case _ => Throws
  }

  /** Whether a `fileType` value makes the handler throw. */
  predicate TypeProbeThrows(fileType: JsValue) {
    OptionalIncludes(fileType, "spreadsheet") == Throws
  }

  /** The payload for a `fileType` string: the spreadsheet/CSV test comes
      first, then the PDF test, else the empty object. The tests are
      case-sensitive substring tests. */
  function DataForType(fileType: string): (d: ParsedData)
    ensures d == SheetSample <==> Occurs(fileType, "spreadsheet") || Occurs(fileType, "csv")
    ensures d == PdfSample <==>
      !Occurs(fileType, "spreadsheet") && !Occurs(fileType, "csv") && Occurs(fileType, "pdf")
    ensures d == NoData <==>
      !Occurs(fileType, "spreadsheet") && !Occurs(fileType, "csv") && !Occurs(fileType, "pdf")
  {
    if Includes(fileType, "spreadsheet") || Includes(fileType, "csv") then SheetSample
    else if Includes(fileType, "pdf") then PdfSample
    else NoData
  }

  /** The payload for any `fileType` value that does not throw: a missing
      or `null` type gives `{}`, a string is dispatched on its substrings,
      an array on its elements (the same order of tests). */
  function DataFor(fileType: JsValue): (d: ParsedData)
    requires !TypeProbeThrows(fileType)
    ensures fileType.Undefined? || fileType.Null? ==> d == NoData
    ensures fileType.Str? ==> d == DataForType(fileType.s)
    ensures fileType.Arr? ==>
      (d == SheetSample <==> Str("spreadsheet") in fileType.items || Str("csv") in fileType.items)
    ensures fileType.Arr? ==>
      (d == PdfSample <==>
        Str("spreadsheet") !in fileType.items && Str("csv") !in fileType.items
        && Str("pdf") in fileType.items)
    ensures fileType.Arr? ==>
      (d == NoData <==>
        Str("spreadsheet") !in fileType.items && Str("csv") !in fileType.items
        && Str("pdf") !in fileType.items)
  {
    if OptionalIncludes(fileType, "spreadsheet") == Found
      || OptionalIncludes(fileType, "csv") == Found then SheetSample
    else if OptionalIncludes(fileType, "pdf") == Found then PdfSample
    else NoData
  }

  /* ---------------- the handler ---------------- */

  /** `POST /api/parse`. A body that does not parse or is `null` (the
      destructuring throws) gives 500; a falsy `fileId` gives 400 before
      anything else; a `fileType` without an `includes` method gives 500;
      otherwise the canned payload for the type. */
  function HandleParse(body: Body): (r: ParseResponse)
    ensures !body.Fields? ==> r == ParseFailed(500, ParseFailureText)
    ensures body.Fields? && !Truthy(Get(body.fields, "fileId")) ==>
      r == ParseFailed(400, MissingIdText)
    ensures r.Success() <==>
      body.Fields? && Truthy(Get(body.fields, "fileId"))
      && !TypeProbeThrows(Get(body.fields, "fileType"))
    ensures body.Fields? && Truthy(Get(body.fields, "fileId")) && TypeProbeThrows(Get(body.fields, "fileType")) ==>
      r == ParseFailed(500, ParseFailureText)
    ensures r.Success() ==> r.Status() == 200 && r.message == ParsedText
    ensures r.Success() ==> r.data == DataFor(Get(body.fields, "fileType"))
    ensures r.Success() && Get(body.fields, "fileType").Str? ==>
      r.data == DataForType(Get(body.fields, "fileType").s)
    ensures r.Success() && (Get(body.fields, "fileType").Undefined? || Get(body.fields, "fileType").Null?) ==>
      r.data == NoData
    ensures !r.Success() ==> r.Status() in {400, 500}
  {
    match body
    case Unparsable => ParseFailed(500, ParseFailureText)
    case NullBody => ParseFailed(500, ParseFailureText)
    case Fields(fields) =>
      if !Truthy(Get(fields, "fileId")) then
        ParseFailed(400, MissingIdText)
      else
        var fileType := Get(fields, "fileType");
        if TypeProbeThrows(fileType) then ParseFailed(500, ParseFailureText)
        else ParseOk(DataFor(fileType), ParsedText)
  }

  /* ---------------- properties ---------------- */

  /** The two readings of `fileType` agree: a string is dispatched by
      `DataForType`. */
  lemma DataForStringIsDataForType(s: string)
    ensures !TypeProbeThrows(Str(s)) && DataFor(Str(s)) == DataForType(s)
  {
  }

  /** An array type is tested for elements, not substrings: `["pdf", "csv"]`
      gets the spreadsheet data, `["application/pdf"]` gets `{}`. */
  lemma ArrayTypePayload()
    ensures HandleParse(Fields(map["fileId" := Str("f1"), "fileType" := Arr([Str("pdf"), Str("csv")])]))
      == ParseOk(SheetSample, ParsedText)
    ensures HandleParse(Fields(map["fileId" := Str("f1"), "fileType" := Arr([Str("application/pdf")])]))
      == ParseOk(NoData, ParsedText)
  {
  }

  /** The spreadsheet/CSV test wins over the PDF test: a type naming both
      gets the spreadsheet payload. */
  lemma SheetBeatsPdf(fileType: string)
    requires Occurs(fileType, "csv") && Occurs(fileType, "pdf")
    ensures DataForType(fileType) == SheetSample
  {
  }

  /** The PDF type gets the PDF payload. */
  lemma PdfTypePayload()
    ensures DataForType("application/pdf") == PdfSample
  {
    var pdf := "application/pdf";
    AbsentLetterExcludes(pdf, "spreadsheet", 0);
    AbsentLetterExcludes(pdf, "csv", 1);
    assert OccursAt(pdf, "pdf", 12);
  }

  /** The legacy Excel type names neither `spreadsheet`, `csv` nor `pdf`,
      so it gets the empty object. */
  lemma LegacyExcelTypePayload()
    ensures DataForType("application/vnd.ms-excel") == NoData
  {
    var xls := "application/vnd.ms-excel";
    AbsentLetterExcludes(xls, "spreadsheet", 7);
    AbsentPairExcludes(xls, "csv", 0);
    AbsentLetterExcludes(xls, "pdf", 2);
  }

  /** The modern Excel type and CSV get the spreadsheet payload. */
  lemma SheetTypesPayload()
    ensures DataForType("application/vnd.openxmlformats-officedocument.spreadsheetml.sheet") == SheetSample
    ensures DataForType("text/csv") == SheetSample
  {
    assert OccursAt("application/vnd.openxmlformats-officedocument.spreadsheetml.sheet", "spreadsheet", 46);
    assert OccursAt("text/csv", "csv", 5);
  }

  /** The three image types get the empty object. */
  lemma ImageTypesPayload(m: string)
    requires m in ["image/png", "image/jpeg", "image/jpg"]
    ensures DataForType(m) == NoData
  {
    AbsentLetterExcludes(m, "spreadsheet", 0);
    AbsentLetterExcludes(m, "csv", 1);
    AbsentLetterExcludes(m, "pdf", 2);
  }

  /** The test is case-sensitive: "text/CSV" gets the empty object. */
  lemma TypeTestIsCaseSensitive()
    ensures DataForType("text/CSV") == NoData
  {
    AbsentLetterExcludes("text/CSV", "spreadsheet", 0);
    AbsentLetterExcludes("text/CSV", "csv", 0);
    AbsentLetterExcludes("text/CSV", "pdf", 0);
  }

  /** The error paths: no `fileId` or an empty one is a 400 even when the
      body is otherwise fine; a `null` body is a 500; a numeric `fileType`
      is a 500. */
  lemma ParseErrorExamples()
    ensures HandleParse(Fields(map["fileType" := Str("text/csv")])) == ParseFailed(400, MissingIdText)
    ensures HandleParse(Fields(map["fileId" := Str("")])) == ParseFailed(400, MissingIdText)
    ensures HandleParse(NullBody) == ParseFailed(500, ParseFailureText)
    ensures HandleParse(Fields(map["fileId" := Str("f1"), "fileType" := Num(1.0)]))
      == ParseFailed(500, ParseFailureText)
    ensures HandleParse(Fields(map["fileId" := Str("f1")])) == ParseOk(NoData, ParsedText)
  {
  }
}
