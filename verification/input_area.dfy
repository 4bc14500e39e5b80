/**
  The draft composer of components/chat/InputArea.tsx: the text being typed,
  the ordered list of pending attachments and whether the upload dialog is
  open, with the three handlers that change them and the send-button
  condition.

  Fresh ids (`generateId()`) and times (`new Date()`) for selected files are
  supplied by the caller, indexed by the file's position in the selection.
 */
module InputArea {
  import opened Wrappers
  import opened Text
  import opened Types

  datatype Draft = Draft(input: string, files: seq<FileAttachment>, dialogOpen: bool)

  /** The initial draft. */
  const EmptyDraft: Draft := Draft([], [], false)

  /** A browser `File` as the selection hands it over. */
  datatype PickedFile = PickedFile(name: string, size: nat, mimeType: string)

  /** What the composer hands to the session on send: the content and, when
      there are any, the attachments (`undefined` otherwise). */
  datatype Outgoing = Outgoing(content: string, files: Option<seq<FileAttachment>>)

  /* ---------------- selecting files ---------------- */

  function Attach(picked: seq<PickedFile>, ids: nat -> string, clock: nat -> Time)
    : seq<FileAttachment>
  {
    seq(|picked|, i requires 0 <= i < |picked| =>
      FileAttachment(ids(i), picked[i].name, picked[i].size, picked[i].mimeType, None, clock(i)))
  }

  /** `handleFilesSelected`: the selected files go after the existing
      drafts, in selection order, each copying name, size and type with a
      fresh id and no URL; the text is untouched and the dialog closes. No
      cap on the number of drafts is applied. */
  function SelectFiles(d: Draft, picked: seq<PickedFile>, ids: nat -> string, clock: nat -> Time)
    : (r: Draft)
    ensures r.input == d.input && !r.dialogOpen
    ensures |r.files| == |d.files| + |picked|
    ensures r.files[..|d.files|] == d.files
    ensures forall i :: 0 <= i < |picked| ==>
      var f := r.files[|d.files| + i];
      && f.id == ids(i) && f.name == picked[i].name && f.size == picked[i].size
      && f.mimeType == picked[i].mimeType && f.url.None? && f.uploadedAt == clock(i)
  {
    Draft(d.input, d.files + Attach(picked, ids, clock), false)
  }

  /* ---------------- removing a file ---------------- */

  /** `prev.filter((f) => f.id !== fileId)`. */
  function WithoutId(files: seq<FileAttachment>, id: string): (r: seq<FileAttachment>)
    ensures |r| <= |files|
    ensures forall f :: f in r <==> f in files && f.id != id
  {
    if files == [] then []
    else if files[0].id == id then WithoutId(files[1..], id)
    else [files[0]] + WithoutId(files[1..], id)
  }

  /** Filtering distributes over concatenation: the kept entries keep their
      relative order. */
  lemma {:induction false} WithoutIdAppend(a: seq<FileAttachment>, b: seq<FileAttachment>, id: string)
    ensures WithoutId(a + b, id) == WithoutId(a, id) + WithoutId(b, id)
    decreases |a|
  {
    if a == [] {
      assert a + b == b;
    } else {
      assert (a + b)[1..] == a[1..] + b;
      WithoutIdAppend(a[1..], b, id);
    }
  }

  /** A list without the id is left as it is. */
  lemma {:induction false} WithoutAbsentId(files: seq<FileAttachment>, id: string)
    requires forall i :: 0 <= i < |files| ==> files[i].id != id
    ensures WithoutId(files, id) == files
    decreases |files|
  {
    if files != [] {
      WithoutAbsentId(files[1..], id);
    }
  }

  /** Removing twice is removing once. */
  lemma WithoutIdIdempotent(files: seq<FileAttachment>, id: string)
    ensures WithoutId(WithoutId(files, id), id) == WithoutId(files, id)
  {
    var r := WithoutId(files, id);
    assert forall i :: 0 <= i < |r| ==> r[i] in r;
    WithoutAbsentId(r, id);
  }

  /** `handleRemoveFile`: drops exactly the drafts with that id. */
  function RemoveFile(d: Draft, id: string): (r: Draft)
    ensures r.input == d.input && r.dialogOpen == d.dialogOpen
    ensures forall f :: f in r.files <==> f in d.files && f.id != id
  {
    Draft(d.input, WithoutId(d.files, id), d.dialogOpen)
  }

  /** Attaching one file and removing it again by its (fresh) id gives the
      drafts back unchanged. */
  lemma SelectThenRemove(d: Draft, p: PickedFile, ids: nat -> string, clock: nat -> Time)
    requires forall i :: 0 <= i < |d.files| ==> d.files[i].id != ids(0)
    ensures RemoveFile(SelectFiles(d, [p], ids, clock), ids(0)).files == d.files
  {
    var added := Attach([p], ids, clock);
    WithoutIdAppend(d.files, added, ids(0));
    WithoutAbsentId(d.files, ids(0));
    assert WithoutId(added, ids(0)) == [];
  }

  /* ---------------- sending ---------------- */

  /** The send button is enabled when the area is not disabled and there is
      non-blank text or at least one attachment. */
  predicate SendEnabled(d: Draft, disabled: bool) {
    !disabled && (Trim(d.input) != [] || |d.files| > 0)
  }

  /** `handleSend`: with blank text and no attachments nothing happens;
      otherwise the trimmed text and the attachments (or `undefined` when
      there are none) are handed over and the draft is cleared. */
  function HandleSend(d: Draft): (r: (Draft, Option<Outgoing>))
    ensures r.1.None? <==> AllWhitespace(d.input) && d.files == []
    ensures r.1.None? ==> r.0 == d
    ensures r.1.Some? ==>
      && r.0 == Draft([], [], d.dialogOpen)
      && r.1.value.content == Trim(d.input)
      && (d.files == [] ==> r.1.value.files.None?)
      && (d.files != [] ==> r.1.value.files == Some(d.files))
  {
    TrimEmptyIff(d.input);
    if Trim(d.input) == [] && |d.files| == 0 then
      (d, None)
    else
      (Draft([], [], d.dialogOpen), Some(Outgoing(Trim(d.input), if |d.files| > 0 then Some(d.files) else None)))
  }

  /** The button and the guard agree: an enabled button sends, a send
      through the guard was possible only with the button enabled. */
  lemma ButtonMatchesGuard(d: Draft)
    ensures SendEnabled(d, false) <==> HandleSend(d).1.Some?
    ensures !SendEnabled(d, true)
  {
    TrimEmptyIff(d.input);
  }

  /** The content handed over has no white space at either end. */
  lemma SentContentIsTrimmed(d: Draft)
    requires HandleSend(d).1.Some?
    ensures var c := HandleSend(d).1.value.content;
      |c| > 0 ==> !IsWhitespace(c[0]) && !IsWhitespace(c[|c| - 1])
  {
    var i :| TrimmedAt(d.input, Trim(d.input), i);
  }

  /** The composer starts empty (`useState('')`, `useState([])`, closed
      dialog): its button is disabled and a send is a no-op. */
  lemma EmptyDraftCannotSend(disabled: bool)
    ensures !SendEnabled(EmptyDraft, disabled)
    ensures HandleSend(EmptyDraft) == (EmptyDraft, None)
  {
  }

  /** Examples: blank text with no files is a no-op; blank text with one
      file sends an empty content with that file. */
  lemma SendExamples(f: FileAttachment)
    ensures HandleSend(Draft(" \n\t", [], false)) == (Draft(" \n\t", [], false), None)
    ensures HandleSend(Draft("  ", [f], true)) == (Draft([], [], true), Some(Outgoing([], Some([f]))))
  {
    assert AllWhitespace(" \n\t");
  }
}
