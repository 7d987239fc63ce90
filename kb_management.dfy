/**
  The knowledge-base document screen (`src/components/admin/kb/KBManagement.jsx`):
  the visibility and search filter over the document list, delete and
  visibility update by `doc_id`, the public/private toggle, the statistics
  strip, and the upload flow that picks the single or the batch endpoint and
  builds the multipart form.
*/
module KBManagement {
  import opened Js
  import opened Text
  import opened Lists
  import opened ApiConfig
  import opened AdminApi

  /** One ingested document, with the fields the screen's rules read. */
  datatype Document = Document(
    doc_id: string, original_filename: string, visibility: string,
    uploader_username: string, chunk_count: int)

  /** The search rule: the lower-cased term occurs in the lower-cased file name,
      document id or uploader name. */
  predicate MatchesSearch(d: Document, term: string) {
    var t := Lower(term);
    Includes(Lower(d.original_filename), t) || Includes(Lower(d.doc_id), t)
    || Includes(Lower(d.uploader_username), t)
  }

  function HasVisibility(v: string): Document -> bool {
    (d: Document) => d.visibility == v
  }

  function SearchHit(term: string): Document -> bool {
    (d: Document) => MatchesSearch(d, term)
  }

  /** Whether `filterDocuments` keeps a document: its visibility matches unless the
      filter is `'all'`, and it matches the search unless the term is empty. */
  function KeepDoc(visibilityFilter: string, searchTerm: string): Document -> bool {
    (d: Document) => (visibilityFilter == "all" || d.visibility == visibilityFilter)
         && (searchTerm == "" || MatchesSearch(d, searchTerm))
  }

  /** `filterDocuments`: narrow by visibility, then by search term. The result is
      the single filter by `KeepDoc`: an order-preserving sub-list holding exactly
      the kept documents, and the whole list for `'all'` and an empty term. */
  method FilterDocuments(documents: seq<Document>, visibilityFilter: string, searchTerm: string)
    returns (filtered: seq<Document>)
    ensures filtered == Filter(documents, KeepDoc(visibilityFilter, searchTerm))
    ensures IsSubsequence(filtered, documents)
    ensures forall d :: d in filtered <==>
      d in documents && (visibilityFilter == "all" || d.visibility == visibilityFilter)
      && (searchTerm == "" || MatchesSearch(d, searchTerm))
    ensures visibilityFilter == "all" && searchTerm == "" ==> filtered == documents
  {
    filtered := documents;
    if visibilityFilter != "all" {
      filtered := Filter(filtered, HasVisibility(visibilityFilter));
    }
    if searchTerm != "" {
      filtered := Filter(filtered, SearchHit(searchTerm));
    }
    var keep := KeepDoc(visibilityFilter, searchTerm);
    FilterIsSubsequence(documents, keep);
    if visibilityFilter != "all" && searchTerm != "" {
      FilterFuse(documents, HasVisibility(visibilityFilter), SearchHit(searchTerm), keep);
    } else if visibilityFilter != "all" {
      FilterCongruent(documents, HasVisibility(visibilityFilter), keep);
    } else if searchTerm != "" {
      FilterCongruent(documents, SearchHit(searchTerm), keep);
    } else {
      FilterKeepsAll(documents, keep);
    }
  }

  function OtherId(docId: string): Document -> bool {
    (d: Document) => d.doc_id != docId
  }

  function SameId(docId: string): Document -> bool {
    (d: Document) => d.doc_id == docId
  }

  /** `documents.filter(doc => doc.doc_id !== docId)`. */
  function DeleteById(documents: seq<Document>, docId: string): (r: seq<Document>)
    ensures IsSubsequence(r, documents)
    ensures forall d :: d in r <==> d in documents && d.doc_id != docId
    ensures |r| + |Filter(documents, SameId(docId))| == |documents|
  {
    FilterIsSubsequence(documents, OtherId(docId));
    FilterDisjoint(documents, OtherId(docId), SameId(docId));
    Filter(documents, OtherId(docId))
  }

  /** `documents.map(doc => doc.doc_id === docId ? {...doc, visibility} : doc)`:
      same length and order; the matching documents change their visibility and
      nothing else. */
  function SetVisibility(documents: seq<Document>, docId: string, v: string): (r: seq<Document>)
    ensures |r| == |documents|
    ensures forall i :: 0 <= i < |r| ==>
      r[i] == documents[i].(visibility := if documents[i].doc_id == docId then v else documents[i].visibility)
  {
    seq(|documents|, i requires 0 <= i < |documents| =>
      if documents[i].doc_id == docId then documents[i].(visibility := v) else documents[i])
  }

  /** The toggle button's target: `'public'` becomes `'private'`, anything else `'public'`. */
  function NextVisibility(v: string): (r: string)
    ensures v == "public" ==> r == "private"
    ensures v != "public" ==> r == "public"
    ensures r != v
  {
    if v == "public" then "private" else "public"
  }

  /** On the two visibilities the screen offers, the toggle is its own inverse. */
  lemma NextVisibilityInvolution(v: string)
    requires v == "public" || v == "private"
    ensures NextVisibility(NextVisibility(v)) == v
  {
  }

  predicate UniqueIds(documents: seq<Document>) {
    forall i, j :: 0 <= i < |documents| && 0 <= j < |documents| && documents[i].doc_id == documents[j].doc_id ==> i == j
  }

  /** Pressing a document's toggle twice restores the list when document ids are
      unique and its visibility is one of the two the screen offers. */
  lemma ToggleTwiceRestores(documents: seq<Document>, k: int)
    requires UniqueIds(documents) && 0 <= k < |documents|
    requires documents[k].visibility == "public" || documents[k].visibility == "private"
    ensures var d := documents[k];
      var once := SetVisibility(documents, d.doc_id, NextVisibility(d.visibility));
      SetVisibility(once, d.doc_id, NextVisibility(once[k].visibility)) == documents
  {
    var d := documents[k];
    var once := SetVisibility(documents, d.doc_id, NextVisibility(d.visibility));
    var twice := SetVisibility(once, d.doc_id, NextVisibility(once[k].visibility));
    assert forall i :: 0 <= i < |documents| ==> twice[i] == documents[i];
  }

  /** `documents.reduce((sum, doc) => sum + doc.chunk_count, 0)`. */
  function ChunkSum(documents: seq<Document>): int {
    if documents == [] then 0 else documents[0].chunk_count + ChunkSum(documents[1..])
  }

  /** Lists whose documents carry the same chunk counts, position by position, have the same sum. */
  lemma {:induction false} ChunkSumPointwise(a: seq<Document>, b: seq<Document>)
    requires |a| == |b|
    requires forall i :: 0 <= i < |a| ==> a[i].chunk_count == b[i].chunk_count
    ensures ChunkSum(a) == ChunkSum(b)
    decreases |a|
  {
    if a != [] {
      ChunkSumPointwise(a[1..], b[1..]);
    }
  }

  /** Filtering splits the chunk sum between the kept and the dropped documents. */
  lemma {:induction false} ChunkSumSplit(documents: seq<Document>, p: Document -> bool, q: Document -> bool)
    requires forall x :: q(x) == !p(x)
    ensures ChunkSum(Filter(documents, p)) + ChunkSum(Filter(documents, q)) == ChunkSum(documents)
    decreases |documents|
  {
    if documents != [] {
      ChunkSumSplit(documents[1..], p, q);
      assert ChunkSum([documents[0]] + Filter(documents[1..], p)) == documents[0].chunk_count + ChunkSum(Filter(documents[1..], p));
      assert ChunkSum([documents[0]] + Filter(documents[1..], q)) == documents[0].chunk_count + ChunkSum(Filter(documents[1..], q));
    }
  }

  /** The statistics strip: total, public, private and chunk total. */
  datatype Stats = Stats(total: nat, publicCount: nat, privateCount: nat, chunkTotal: int)

  /** The strip's four numbers: the list's length, how many documents are
      exactly `'public'` and exactly `'private'`, and the chunk counts summed. */
  function StatsOf(documents: seq<Document>): (s: Stats)
    ensures s.total == |documents|
    ensures s.publicCount == |Filter(documents, HasVisibility("public"))|
    ensures s.privateCount == |Filter(documents, HasVisibility("private"))|
    ensures s.chunkTotal == ChunkSum(documents)
    ensures s.publicCount + s.privateCount <= s.total
    ensures (forall d :: d in documents ==> d.visibility == "public" || d.visibility == "private") ==>
      s.publicCount + s.privateCount == s.total
  {
    FilterDisjoint(documents, HasVisibility("public"), HasVisibility("private"));
    Stats(|documents|, |Filter(documents, HasVisibility("public"))|,
          |Filter(documents, HasVisibility("private"))|, ChunkSum(documents))
  }

  /** A visibility update moves no chunks and keeps the total; a delete removes
      exactly the chunks of the deleted documents. */
  lemma StatsAfterUpdates(documents: seq<Document>, docId: string, v: string)
    ensures StatsOf(SetVisibility(documents, docId, v)).total == StatsOf(documents).total
    ensures StatsOf(SetVisibility(documents, docId, v)).chunkTotal == StatsOf(documents).chunkTotal
    ensures StatsOf(DeleteById(documents, docId)).chunkTotal
            + ChunkSum(Filter(documents, SameId(docId))) == StatsOf(documents).chunkTotal
  {
    ChunkSumPointwise(SetVisibility(documents, docId, v), documents);
    ChunkSumSplit(documents, OtherId(docId), SameId(docId));
  }

  /** A file chosen in the picker; its contents are not modelled. */
  datatype LocalFile = LocalFile(name: string)

  /** `uploadFormData`. */
  datatype UploadForm = UploadForm(visibility: string, doc_id: string, overwrite: bool)

  const DefaultUploadForm := UploadForm("public", "", false)

  /** One `formData.append(name, value)`. */
  datatype FormPart = FilePart(name: string, file: LocalFile) | TextPart(name: string, value: string)

  /** The fields appended after the files: `visibility` always, `doc_id` only when
      non-empty, and `overwrite.toString()` last. */
  function OptionParts(form: UploadForm): (r: seq<FormPart>)
    ensures |r| >= 2 && r[0] == TextPart("visibility", form.visibility)
    ensures r[|r| - 1] == TextPart("overwrite", if form.overwrite then "true" else "false")
    ensures (exists k :: 0 <= k < |r| && r[k].name == "doc_id") <==> form.doc_id != ""
    ensures forall k :: 0 <= k < |r| && r[k].name == "doc_id" ==> r[k] == TextPart("doc_id", form.doc_id)
    ensures forall k :: 0 <= k < |r| ==> r[k].TextPart?
  {
    var r := [TextPart("visibility", form.visibility)]
      + (if form.doc_id != "" then [TextPart("doc_id", form.doc_id)] else [])
      + [TextPart("overwrite", if form.overwrite then "true" else "false")];
    assert form.doc_id != "" ==> r[1].name == "doc_id";
    r
  }

  /** `uploadSingleFile`'s form: the file under `file`, then the option fields. */
  function SingleUploadParts(file: LocalFile, form: UploadForm): (r: seq<FormPart>)
    ensures |r| >= 3 && r[0] == FilePart("file", file) && r[1..] == OptionParts(form)
  {
    [FilePart("file", file)] + OptionParts(form)
  }

  /** `uploadMultipleFiles`'s form: one `files` entry per file, in order, then the
      option fields. */
  method BuildBatchParts(files: seq<LocalFile>, form: UploadForm) returns (parts: seq<FormPart>)
    ensures |parts| == |files| + |OptionParts(form)|
    ensures forall k :: 0 <= k < |files| ==> parts[k] == FilePart("files", files[k])
    ensures parts[|files|..] == OptionParts(form)
  {
    parts := [];
    var i := 0;
    while i < |files|
      invariant 0 <= i <= |files|
      invariant |parts| == i
      invariant forall k :: 0 <= k < i ==> parts[k] == FilePart("files", files[k])
    {
      parts := parts + [FilePart("files", files[i])];
      i := i + 1;
    }
    parts := parts + OptionParts(form);
  }

  /** The upload's Authorization header: the template literal turns a missing
      token into the text `null`. */
  function UploadAuthorization(token: Option<string>): (h: string)
    ensures token.None? ==> h == "Bearer null"
    ensures token.Some? ==> h == "Bearer " + token.value
  {
    "Bearer " + (if token.Some? then token.value else "null")
  }

  /** A `fetch` to a relative ingest URL, with its Authorization header and form. */
  datatype UploadRequest = UploadRequest(url: string, authorization: string, parts: seq<FormPart>)

  const SingleUploadFailed := "上传失败"
  const BatchUploadFailed := "批量上传失败"

  /** How an upload's response settles: as `AdminApiService.request` (no catch on
      the error body's `json()`), with its own fallback message. */
  function UploadOutcome(resp: Option<HttpResponse>, batch: bool): (r: Result<Json, ApiError>)
    ensures (|| resp.None? || IsOk(resp.value.status) || resp.value.body.Unparseable?
             || resp.value.body.value.JNull?) ==> r == AdminOutcome(resp)
    ensures resp.Some? && !IsOk(resp.value.status) && resp.value.body.Parsed? && !resp.value.body.value.JNull? ==>
      r == Failure(RequestFailed(ErrorMessage(resp.value.body.value, if batch then BatchUploadFailed else SingleUploadFailed)))
  {
    if resp.Some? && !IsOk(resp.value.status) && resp.value.body.Parsed? && !resp.value.body.value.JNull? then
      Failure(RequestFailed(ErrorMessage(resp.value.body.value, if batch then BatchUploadFailed else SingleUploadFailed)))
    else AdminOutcome(resp)
  }

  /** The screen's document list and upload state. */
  class KBScreen {
    var documents: seq<Document>
    var uploadFiles: seq<LocalFile>
    var uploadForm: UploadForm
    var uploading: bool
    var uploadProgress: int

    constructor ()
      ensures documents == [] && uploadFiles == [] && uploadForm == DefaultUploadForm
      ensures !uploading && uploadProgress == 0
    {
      documents := [];
      uploadFiles := [];
      uploadForm := DefaultUploadForm;
      uploading := false;
      uploadProgress := 0;
    }

    /** `handleFileSelect`. */
    method SelectFiles(files: seq<LocalFile>)
      modifies this
      ensures uploadFiles == files
      ensures documents == old(documents) && uploadForm == old(uploadForm)
      ensures uploading == old(uploading) && uploadProgress == old(uploadProgress)
    {
      uploadFiles := files;
    }

    /** The visibility select of the upload form: only that field changes. */
    method SetUploadVisibility(v: string)
      modifies this
      ensures uploadForm == old(uploadForm).(visibility := v)
      ensures documents == old(documents) && uploadFiles == old(uploadFiles)
      ensures uploading == old(uploading) && uploadProgress == old(uploadProgress)
    {
      uploadForm := uploadForm.(visibility := v);
    }

    /** The document id input of the upload form: only that field changes. */
    method SetUploadDocId(id: string)
      modifies this
      ensures uploadForm == old(uploadForm).(doc_id := id)
      ensures documents == old(documents) && uploadFiles == old(uploadFiles)
      ensures uploading == old(uploading) && uploadProgress == old(uploadProgress)
    {
      uploadForm := uploadForm.(doc_id := id);
    }

    /** The overwrite checkbox of the upload form: only that field changes. */
    method SetUploadOverwrite(checked: bool)
      modifies this
      ensures uploadForm == old(uploadForm).(overwrite := checked)
      ensures documents == old(documents) && uploadFiles == old(uploadFiles)
      ensures uploading == old(uploading) && uploadProgress == old(uploadProgress)
    {
      uploadForm := uploadForm.(overwrite := checked);
    }

    /** The start of `handleUpload`: nothing happens without files; otherwise the
        upload starts at progress 0 and goes to the single endpoint for one file
        and to the batch endpoint for several. */
    method BeginUpload(token: Option<string>) returns (request: Option<UploadRequest>)
      modifies this
      ensures documents == old(documents) && uploadFiles == old(uploadFiles) && uploadForm == old(uploadForm)
      ensures |uploadFiles| == 0 <==> request.None?
      ensures |uploadFiles| == 0 ==> uploading == old(uploading) && uploadProgress == old(uploadProgress)
      ensures |uploadFiles| > 0 ==> uploading && uploadProgress == 0
      ensures |uploadFiles| == 1 ==>
        request == Some(UploadRequest("/kb/ingest", UploadAuthorization(token), SingleUploadParts(uploadFiles[0], uploadForm)))
      ensures |uploadFiles| >= 2 ==>
        && request.Some?
        && request.value.url == "/kb/ingest/batch"
        && request.value.authorization == UploadAuthorization(token)
        && |request.value.parts| == |uploadFiles| + |OptionParts(uploadForm)|
        && (forall k :: 0 <= k < |uploadFiles| ==> request.value.parts[k] == FilePart("files", uploadFiles[k]))
        && request.value.parts[|uploadFiles|..] == OptionParts(uploadForm)
    {
      if |uploadFiles| == 0 {
        return None;
      }
      uploading := true;
      uploadProgress := 0;
      if |uploadFiles| == 1 {
        request := Some(UploadRequest("/kb/ingest", UploadAuthorization(token), SingleUploadParts(uploadFiles[0], uploadForm)));
      } else {
        var parts := BuildBatchParts(uploadFiles, uploadForm);
        request := Some(UploadRequest("/kb/ingest/batch", UploadAuthorization(token), parts));
      }
    }

    /** The end of `handleUpload`: a success clears the chosen files and resets the
        form; either way the upload stops and the progress returns to 0. */
    method FinishUpload(succeeded: bool)
      modifies this
      ensures !uploading && uploadProgress == 0
      ensures documents == old(documents)
      ensures succeeded ==> uploadFiles == [] && uploadForm == DefaultUploadForm
      ensures !succeeded ==> uploadFiles == old(uploadFiles) && uploadForm == old(uploadForm)
    {
      if succeeded {
        uploadProgress := 100;
        uploadFiles := [];
        uploadForm := DefaultUploadForm;
      }
      uploading := false;
      uploadProgress := 0;
    }

    /** `handleDeleteDoc`: only a confirmed delete changes the list. */
    method DeleteDoc(docId: string, confirmed: bool)
      modifies this
      ensures documents == if confirmed then DeleteById(old(documents), docId) else old(documents)
      ensures uploadFiles == old(uploadFiles) && uploadForm == old(uploadForm)
      ensures uploading == old(uploading) && uploadProgress == old(uploadProgress)
    {
      if confirmed {
        documents := DeleteById(documents, docId);
      }
    }

    /** `handleUpdateVisibility`. */
    method UpdateVisibility(docId: string, v: string)
      modifies this
      ensures documents == SetVisibility(old(documents), docId, v)
      ensures uploadFiles == old(uploadFiles) && uploadForm == old(uploadForm)
      ensures uploading == old(uploading) && uploadProgress == old(uploadProgress)
    {
      documents := SetVisibility(documents, docId, v);
    }

    /** The toggle button on a document card. */
    method ToggleVisibility(doc: Document)
      modifies this
      ensures documents == SetVisibility(old(documents), doc.doc_id, NextVisibility(doc.visibility))
      ensures uploadFiles == old(uploadFiles) && uploadForm == old(uploadForm)
      ensures uploading == old(uploading) && uploadProgress == old(uploadProgress)
    {
      UpdateVisibility(doc.doc_id, NextVisibility(doc.visibility));
    }
  }
}
