/** The knowledge-base upload route (the module `app.routes.knowledge`):
    request-level limits, then one classification per uploaded file.

    Reading an upload, writing the temporary file, `knowledge.insert` and the
    removal of the temporary file are I/O; each upload carries their outcomes
    as inputs. */
module Knowledge {

  import opened Wrappers
  import Text

  const AllowedExtensions: set<string> := {".pdf", ".docx", ".md", ".txt", ".csv"}
  const MaxFileSizeBytes: nat := 15 * 1024 * 1024
  const MaxFiles: nat := 5
  const UnnamedFile: string := "unnamed"

  // ---------------------------------------------------------------------------
  // The extension check: the lower-cased suffix of the file's name

  /** The position just after the last '/' of `s` (0 when there is none). */
  function AfterLastSlash(s: string): (k: nat)
    ensures k <= |s|
    ensures k > 0 ==> s[k - 1] == '/'
    ensures forall j | k <= j < |s| :: s[j] != '/'
  {
    if s == [] then 0
    else if s[|s| - 1] == '/' then |s|
    else AfterLastSlash(s[..|s| - 1])
  }

  /** `PurePosixPath(s).name`: the last component, where empty components
      (repeated or trailing slashes) and "." components do not count. */
  function PathName(s: string): (name: string)
    ensures forall j | 0 <= j < |name| :: name[j] != '/'
    decreases |s|
  {
    if s == [] then []
    else if s[|s| - 1] == '/' then PathName(s[..|s| - 1])
    else
      var k := AfterLastSlash(s);
      if s[k..] == "." then PathName(s[..k]) else s[k..]
  }

  /** The index of the last '.' of `s`, if any. */
  function LastDot(s: string): (r: Option<nat>)
    ensures r.Some? ==> r.value < |s| && s[r.value] == '.'
    ensures r.Some? ==> forall j | r.value < j < |s| :: s[j] != '.'
    ensures r.None? ==> forall j | 0 <= j < |s| :: s[j] != '.'
  {
    if s == [] then None
    else if s[|s| - 1] == '.' then Some(|s| - 1)
    else LastDot(s[..|s| - 1])
  }

  /** `PurePath.suffix` of a name: from its last dot, provided that dot is
      neither the first nor the last character; otherwise empty. */
  function Suffix(name: string): string {
    match LastDot(name)
    case Some(i) => if 0 < i < |name| - 1 then name[i..] else []
    case None => []
  }

  /** `_allowed_file(filename)`. Python's `str.lower()` is written as ASCII
      lowering: no non-ASCII character lowers to any of the letters used by
      the allowed extensions, so membership is the same. */
  predicate AllowedFile(filename: string)
    ensures AllowedFile(filename) ==>
      var name := PathName(filename);
      3 <= |Suffix(name)| < |name| && Suffix(name) == name[|name| - |Suffix(name)|..]
  {
    Text.Lower(Suffix(PathName(filename))) in AllowedExtensions
  }

  /** Every allowed extension is a dot followed by at least one character,
      none of them a dot. */
  lemma AllowedExtensionShape(e: string)
    requires e in AllowedExtensions
    ensures |e| >= 2 && e[0] == '.' && forall j | 1 <= j < |e| :: e[j] != '.'
  {
  }

  /** `name` ends, ignoring ASCII case, with the extension `e`, and has at
      least one character before it. */
  predicate EndsWithExtension(name: string, e: string) {
    |name| > |e| && Text.Lower(name[|name| - |e|..]) == e
  }

  /** An allowed suffix sits at the end of the name, after at least one
      other character. */
  lemma AllowedSuffixIsEnding(name: string)
    requires Text.Lower(Suffix(name)) in AllowedExtensions
    ensures EndsWithExtension(name, Text.Lower(Suffix(name)))
  {
    var e := Text.Lower(Suffix(name));
    AllowedExtensionShape(e);
    var i := LastDot(name).value;
    assert Suffix(name) == name[i..];
    assert |name| - |e| == i;
  }

  /** A name that ends, ignoring ASCII case, with an allowed extension after
      at least one other character has exactly that ending as its suffix. */
  lemma EndingIsAllowedSuffix(name: string, e: string)
    requires e in AllowedExtensions && EndsWithExtension(name, e)
    ensures Suffix(name) == name[|name| - |e|..]
    ensures Text.Lower(Suffix(name)) == e
  {
    AllowedExtensionShape(e);
    var k := |name| - |e|;
    var tail := name[k..];
    assert Text.LowerChar(tail[0]) == e[0] == '.';
    assert name[k] == tail[0] == '.';
    forall j | k < j < |name| ensures name[j] != '.' {
      assert name[j] == tail[j - k];
      assert Text.LowerChar(tail[j - k]) == e[j - k];
    }
    assert LastDot(name) == Some(k);
  }

  /** The extension check, stated without pathlib: a file is allowed exactly
      when its name is longer than, and ends (ignoring ASCII case) with, one of
      the allowed extensions. So "REPORT.PDF" passes and ".pdf" alone does not. */
  lemma AllowedFileIff(filename: string)
    ensures AllowedFile(filename) <==>
      exists e | e in AllowedExtensions :: EndsWithExtension(PathName(filename), e)
  {
    var name := PathName(filename);
    if AllowedFile(filename) {
      AllowedSuffixIsEnding(name);
    }
    forall e | e in AllowedExtensions && EndsWithExtension(name, e) ensures AllowedFile(filename) {
      EndingIsAllowedSuffix(name, e);
    }
  }

  // ---------------------------------------------------------------------------
  // knowledge_upload

  /** The outcome of one I/O step: it finishes, or it raises with a message. */
  datatype Step = Done | Raises(message: string)

  /** One uploaded file: its name (`None` when the client sent none), the
      length of its content, and how writing the temporary file, inserting it
      into the knowledge base and removing the temporary file end. */
  datatype Upload = Upload(filename: Option<string>, size: nat, write: Step, insert: Step, unlink: Step)

  datatype Message =
    | DisallowedType
    | FileTooLarge(limitMegabytes: nat)
    | Exception(text: string)

  /** One entry of the response's `documents` list: status "ok", or status
      "error" with a message. */
  datatype Document =
    | OkDocument(filename: string)
    | ErrorDocument(filename: string, message: Message)

  datatype UploadReport = UploadReport(ingested: nat, documents: seq<Document>)

  datatype Rejection = NoFilesSent | TooManyFiles(max: nat)

  /** The `HTTPException` raised before any file is looked at. */
  datatype HttpError = HttpError(status: nat, detail: Rejection)

  /** `upload.filename or "unnamed"`. */
  function FileName(u: Upload): string {
    if u.filename.Some? && u.filename.value != [] then u.filename.value else UnnamedFile
  }

  /** An upload that passes both checks and is inserted. */
  predicate Ingests(u: Upload) {
    AllowedFile(FileName(u)) && u.size <= MaxFileSizeBytes && u.write.Done? && u.insert.Done?
  }

  /** The entries one iteration of the loop appends, as the code is written.
      A failure in `insert` or in the removal of the temporary file is caught
      by the outer handler; when the removal raises after a successful insert,
      the "ok" entry is already in the list and an error entry follows it. */
  function DocumentsFor(u: Upload): (docs: seq<Document>)
    ensures |docs| == 1 || (|docs| == 2 && docs[0].OkDocument? && docs[1].ErrorDocument?)
    ensures forall i | 0 <= i < |docs| :: docs[i].filename == FileName(u)
  {
    var name := FileName(u);
    if !AllowedFile(name) then [ErrorDocument(name, DisallowedType)]
    else if u.size > MaxFileSizeBytes then [ErrorDocument(name, FileTooLarge(MaxFileSizeBytes / (1024 * 1024)))]
    else if u.write.Raises? then [ErrorDocument(name, Exception(u.write.message))]
    else if u.insert.Raises? then
      [ErrorDocument(name, Exception(if u.unlink.Raises? then u.unlink.message else u.insert.message))]
    else if u.unlink.Raises? then [OkDocument(name), ErrorDocument(name, Exception(u.unlink.message))]
    else [OkDocument(name)]
  }

  /** The entry intended for one upload: its status alone, so a successful
      insert is reported "ok" even when its temporary file lingers. */
  function IntendedDocumentFor(u: Upload): (d: Document)
    ensures d.filename == FileName(u)
    ensures d.OkDocument? <==> Ingests(u)
  {
    var name := FileName(u);
    if !AllowedFile(name) then ErrorDocument(name, DisallowedType)
    else if u.size > MaxFileSizeBytes then ErrorDocument(name, FileTooLarge(MaxFileSizeBytes / (1024 * 1024)))
    else if u.write.Raises? then ErrorDocument(name, Exception(u.write.message))
    else if u.insert.Raises? then
      ErrorDocument(name, Exception(if u.unlink.Raises? then u.unlink.message else u.insert.message))
    else OkDocument(name)
  }

  /** The entries of one upload: its own entry first, all of them naming
      it, one "ok" exactly when it is inserted, and a second entry only when
      it is inserted and its temporary file cannot be removed. */
  lemma EntriesOfOneUpload(u: Upload)
    ensures |DocumentsFor(u)| == if Ingests(u) && u.unlink.Raises? then 2 else 1
    ensures DocumentsFor(u)[0] == IntendedDocumentFor(u)
    ensures forall i | 0 <= i < |DocumentsFor(u)| :: DocumentsFor(u)[i].filename == FileName(u)
    ensures CountOk(DocumentsFor(u)) == if Ingests(u) then 1 else 0
  {
    var d := DocumentsFor(u);
    assert CountOk(d) == (if d[0].OkDocument? then 1 else 0) + CountOk(d[1..]);
    if |d| == 2 {
      assert CountOk(d[1..]) == 0 by {
        assert d[1..][1..] == [];
      }
    }
  }

  /** The whole `documents` list: the entries of each file in input order. */
  function AllDocuments(files: seq<Upload>): seq<Document> {
    if files == [] then [] else AllDocuments(files[..|files| - 1]) + DocumentsFor(files[|files| - 1])
  }

  function CountOk(docs: seq<Document>): nat {
    if docs == [] then 0 else (if docs[0].OkDocument? then 1 else 0) + CountOk(docs[1..])
  }

  /** The number of uploads that are inserted. */
  function CountIngests(files: seq<Upload>): (n: nat)
    ensures n <= |files|
  {
    if files == [] then 0 else CountIngests(files[..|files| - 1]) + (if Ingests(files[|files| - 1]) then 1 else 0)
  }

  lemma {:induction false} CountOkAppend(a: seq<Document>, b: seq<Document>)
    ensures CountOk(a + b) == CountOk(a) + CountOk(b)
  {
    if a != [] {
      assert (a + b)[0] == a[0];
      assert (a + b)[1..] == a[1..] + b;
      CountOkAppend(a[1..], b);
    } else {
      assert a + b == b;
    }
  }

  /** The "ok" entries are exactly the inserted uploads, so their number never
      exceeds the number of files. */
  lemma {:induction false} OkEntriesAreIngestedFiles(files: seq<Upload>)
    ensures CountOk(AllDocuments(files)) == CountIngests(files) <= |files|
  {
    if files != [] {
      var last := files[|files| - 1];
      OkEntriesAreIngestedFiles(files[..|files| - 1]);
      CountOkAppend(AllDocuments(files[..|files| - 1]), DocumentsFor(last));
      EntriesOfOneUpload(last);
    }
  }

  /** One more file extends the report by that file's entries and the count
      of inserted files by whether it was inserted. */
  lemma PrefixStep(files: seq<Upload>, i: int)
    requires 0 <= i < |files|
    ensures AllDocuments(files[..i + 1]) == AllDocuments(files[..i]) + DocumentsFor(files[i])
    ensures CountIngests(files[..i + 1]) == CountIngests(files[..i]) + if Ingests(files[i]) then 1 else 0
  {
    assert files[..i + 1][..i] == files[..i];
  }

  /** One pass of the upload loop's body: the entries it appends for
      `upload` and whether it counts the file as ingested. Each `continue`
      of the source is an early return. */
  method UploadOne(upload: Upload) returns (entries: seq<Document>, inserted: bool)
    ensures entries == DocumentsFor(upload)
    ensures inserted <==> Ingests(upload)
    ensures inserted <==> OkDocument(FileName(upload)) in entries
  {
    var filename := FileName(upload);
    if !AllowedFile(filename) {
      return [ErrorDocument(filename, DisallowedType)], false;
    }
    if upload.size > MaxFileSizeBytes {
      return [ErrorDocument(filename, FileTooLarge(MaxFileSizeBytes / (1024 * 1024)))], false;
    }
    if upload.write.Raises? {
      return [ErrorDocument(filename, Exception(upload.write.message))], false;
    }
    entries, inserted := [], false;
    if upload.insert.Done? {
      inserted := true;
      entries := entries + [OkDocument(filename)];
    }
    if upload.unlink.Raises? {
      entries := entries + [ErrorDocument(filename, Exception(upload.unlink.message))];
    } else if upload.insert.Raises? {
      entries := entries + [ErrorDocument(filename, Exception(upload.insert.message))];
    }
  }

  /** `knowledge_upload(files)`. */
  method KnowledgeUpload(files: seq<Upload>) returns (r: Result<UploadReport, HttpError>)
    ensures r.Err? <==> |files| == 0 || |files| > MaxFiles
    ensures |files| == 0 ==> r == Err(HttpError(400, NoFilesSent))
    ensures 0 < |files| && |files| > MaxFiles ==> r == Err(HttpError(400, TooManyFiles(MaxFiles)))
    ensures r.Ok? ==> r.value.documents == AllDocuments(files)
    ensures r.Ok? ==> r.value.ingested == CountOk(r.value.documents) == CountIngests(files)
  {
    if |files| == 0 {
      return Err(HttpError(400, NoFilesSent));
    }
    if |files| > MaxFiles {
      return Err(HttpError(400, TooManyFiles(MaxFiles)));
    }
    var documents: seq<Document> := [];
    var ingested: nat := 0;
    for i := 0 to |files|
      invariant documents == AllDocuments(files[..i])
      invariant ingested == CountIngests(files[..i])
    {
      PrefixStep(files, i);
      var entries, inserted := UploadOne(files[i]);
      documents := documents + entries;
      if inserted {
        ingested := ingested + 1;
      }
    }
    assert files[..|files|] == files;
    OkEntriesAreIngestedFiles(files);
    return Ok(UploadReport(ingested, documents));
  }

  /** A file with a disallowed type gets one error entry whatever its content
      and I/O outcomes would have been: it is never read nor inserted. */
  lemma DisallowedFileIsNeverRead(u: Upload, size: nat, write: Step, insert: Step, unlink: Step)
    requires !AllowedFile(FileName(u))
    ensures DocumentsFor(u) == [ErrorDocument(FileName(u), DisallowedType)]
    ensures DocumentsFor(u) == DocumentsFor(u.(size := size, write := write, insert := insert, unlink := unlink))
  {
  }

  /** The size limit is strict: exactly 15 MiB passes, one byte more fails
      with a message naming the 15 MB limit. */
  lemma SizeLimitIsInclusive(u: Upload)
    requires AllowedFile(FileName(u))
    ensures u.size == MaxFileSizeBytes && u.write.Done? && u.insert.Done? && u.unlink.Done?
            ==> DocumentsFor(u) == [OkDocument(FileName(u))]
    ensures u.size == MaxFileSizeBytes + 1 ==> DocumentsFor(u) == [ErrorDocument(FileName(u), FileTooLarge(15))]
  {
    assert MaxFileSizeBytes / (1024 * 1024) == 15;
    if u.size == MaxFileSizeBytes + 1 {
      assert DocumentsFor(u) == [ErrorDocument(FileName(u), FileTooLarge(MaxFileSizeBytes / (1024 * 1024)))];
    }
  }

  /** A failure while writing or inserting gives one error entry carrying the
      exception's message, and nothing is counted as ingested. */
  lemma StorageFailureIsReported(u: Upload)
    requires AllowedFile(FileName(u)) && u.size <= MaxFileSizeBytes
    requires u.write.Raises? || u.insert.Raises?
    ensures !Ingests(u)
    ensures |DocumentsFor(u)| == 1 && DocumentsFor(u)[0].ErrorDocument?
    ensures DocumentsFor(u)[0].message
      == Exception(if u.write.Raises? then u.write.message
                   else if u.unlink.Raises? then u.unlink.message else u.insert.message)
  {
  }

  /** A missing or empty filename becomes "unnamed", which has no suffix and
      is rejected as a disallowed type. */
  lemma UnnamedUploadIsRejected(u: Upload)
    requires u.filename.None? || u.filename == Some([])
    ensures DocumentsFor(u) == [ErrorDocument("unnamed", DisallowedType)]
  {
    var name := UnnamedFile;
    assert forall j | 0 <= j < |name| :: name[j] != '/' && name[j] != '.';
    assert AfterLastSlash(name) == 0;
    assert name[0..] == name;
    assert PathName(name) == name;
    assert LastDot(name) == None;
    assert Suffix(name) == [];
    assert !AllowedFile(name);
  }

  /** While every temporary file is removed cleanly, there is exactly one
      entry per uploaded file, in input order. */
  lemma {:induction false} OneEntryPerFileWhenCleanupSucceeds(files: seq<Upload>)
    requires forall i | 0 <= i < |files| :: files[i].unlink.Done?
    ensures |AllDocuments(files)| == |files|
    ensures forall i | 0 <= i < |files| :: AllDocuments(files)[i].filename == FileName(files[i])
  {
    if files != [] {
      var init, last := files[..|files| - 1], files[|files| - 1];
      assert forall i | 0 <= i < |init| :: init[i] == files[i];
      OneEntryPerFileWhenCleanupSucceeds(init);
      EntriesOfOneUpload(last);
      var docs := AllDocuments(files);
      assert docs == AllDocuments(init) + DocumentsFor(last);
      assert |DocumentsFor(last)| == 1;
      forall i | 0 <= i < |files| ensures docs[i].filename == FileName(files[i]) {
        if i < |init| {
          assert docs[i] == AllDocuments(init)[i];
        } else {
          assert docs[i] == DocumentsFor(last)[0];
        }
      }
    }
  }

  /** As written, a successful insert whose temporary file cannot be removed
      yields two entries for one file: "ok" and then an error. */
  lemma CleanupFailureAddsSecondEntry()
    ensures var u := Upload(Some("a.pdf"), 10, Done, Done, Raises("busy"));
      && AllDocuments([u]) == [OkDocument("a.pdf"), ErrorDocument("a.pdf", Exception("busy"))]
      && |AllDocuments([u])| == 2
  {
    var u := Upload(Some("a.pdf"), 10, Done, Done, Raises("busy"));
    var name := "a.pdf";
    assert forall j | 0 <= j < |name| :: name[j] != '/';
    assert AfterLastSlash(name) == 0;
    assert name[0..] == name;
    assert PathName(name) == name;
    assert name[1] == '.' && forall j | 1 < j < |name| :: name[j] != '.';
    assert LastDot(name) == Some(1);
    assert Suffix(name) == ".pdf";
    assert Text.Lower(".pdf") == ".pdf";
    assert AllowedFile(name);
    assert Ingests(u);
    assert [u][..0] == [];
    assert AllDocuments([u]) == DocumentsFor(u);
  }

  /** `f` applied to each upload, in input order. */
  function MapUploads(f: Upload -> Document, files: seq<Upload>): (docs: seq<Document>)
    ensures |docs| == |files|
  {
    if files == [] then [] else MapUploads(f, files[..|files| - 1]) + [f(files[|files| - 1])]
  }

  /** Position `i` of the mapped list is `f` of the `i`-th upload. */
  lemma {:induction false} MapUploadsAt(f: Upload -> Document, files: seq<Upload>, i: int)
    requires 0 <= i < |files|
    ensures MapUploads(f, files)[i] == f(files[i])
  {
    var init := files[..|files| - 1];
    if i < |init| {
      MapUploadsAt(f, init, i);
      assert files[i] == init[i];
    }
  }

  function IntendedDocuments(files: seq<Upload>): seq<Document> {
    MapUploads(IntendedDocumentFor, files)
  }

  /** The corrected report has one entry per file, in input order. */
  lemma IntendedReportOnePerFile(files: seq<Upload>)
    ensures |IntendedDocuments(files)| == |files|
    ensures forall i | 0 <= i < |files| :: IntendedDocuments(files)[i].filename == FileName(files[i])
  {
    forall i | 0 <= i < |files| ensures IntendedDocuments(files)[i].filename == FileName(files[i]) {
      MapUploadsAt(IntendedDocumentFor, files, i);
    }
  }

  /** Its "ok" entries are exactly the inserted files. */
  lemma {:induction false} IntendedOkEntriesAreIngestedFiles(files: seq<Upload>)
    ensures CountOk(IntendedDocuments(files)) == CountIngests(files)
  {
    if files != [] {
      var init, last := files[..|files| - 1], files[|files| - 1];
      IntendedOkEntriesAreIngestedFiles(init);
      CountOkAppend(IntendedDocuments(init), [IntendedDocumentFor(last)]);
      EntriesOfOneUpload(last);
      assert CountOk([IntendedDocumentFor(last)]) == if Ingests(last) then 1 else 0;
    }
  }

  /** It agrees with the code as written whenever no removal of a temporary
      file fails. */
  lemma {:induction false} IntendedAgreesWhenCleanupSucceeds(files: seq<Upload>)
    requires forall i | 0 <= i < |files| :: files[i].unlink.Done?
    ensures IntendedDocuments(files) == AllDocuments(files)
  {
    if files != [] {
      var init, last := files[..|files| - 1], files[|files| - 1];
      assert forall i | 0 <= i < |init| :: init[i] == files[i];
      IntendedAgreesWhenCleanupSucceeds(init);
      EntriesOfOneUpload(last);
      assert DocumentsFor(last) == [IntendedDocumentFor(last)];
    }
  }
}
