/**
 * The upload endpoint (api/index.py, lines 80-142) without its I/O: the filename
 * check, the per-chunk metadata and the reported chunk count. The chunks, the new
 * document id and the session id are inputs.
 */
module Upload {

  import opened Wrappers
  import opened Http
  import opened Metadata

  /** The only accepted filename ending. The comparison is exact and case-sensitive. */
  const PdfSuffix := ".pdf"

  /** Python's `str.endswith` for a single suffix. */
  predicate EndsWith(s: string, suffix: string)
  {
    |suffix| <= |s| && s[|s| - |suffix|..] == suffix
  }

  /** The error the upload stops with before reading the file, if any. */
  function RejectFilename(filename: string): (r: Option<HttpError>)
    ensures r.None? <==> EndsWith(filename, PdfSuffix)
    ensures r.Some? ==> r.value.status == BadRequest && r.value == UnsupportedFile
  {
    if EndsWith(filename, PdfSuffix) then None else Some(UnsupportedFile)
  }

  /** Any name formed as a stem followed by ".pdf" is accepted, the bare ".pdf" included. */
  lemma PdfNamesAccepted(stem: string)
    ensures RejectFilename(stem + PdfSuffix) == None
  {
  }

  /** Every accepted name is a stem followed by ".pdf". */
  lemma AcceptedNamesArePdf(filename: string)
    requires RejectFilename(filename) == None
    ensures |filename| >= 4
    ensures filename == filename[..|filename| - 4] + PdfSuffix
  {
  }

  /** The suffix check does not fold case: an upper-case extension is refused. */
  lemma UpperCaseRejected()
    ensures RejectFilename("report.PDF") == Some(UnsupportedFile)
    ensures RejectFilename("report.pdf") == None
  {
  }

  /** The metadata list for `n` chunks, built in position order as `range(len(chunks))` does. */
  function Metadatas(docId: string, filename: string, sessionId: string, n: nat): (ms: seq<ChunkMetadata>)
    ensures |ms| == n
    ensures forall i :: 0 <= i < n ==> ms[i].chunkId == i
    ensures forall i :: 0 <= i < n ==>
              ms[i].docId == docId && ms[i].filename == filename && ms[i].sessionId == sessionId
  {
    if n == 0 then []
    else Metadatas(docId, filename, sessionId, n - 1) + [ChunkMetadata(docId, filename, n - 1, sessionId)]
  }

  /** The response body of a successful upload. */
  datatype UploadResponse = UploadResponse(message: string, docId: string, chunks: nat, sessionId: string)

  /** What a successful upload produces: the texts and metadata sent to the index, and the response. */
  datatype Ingested = Ingested(texts: seq<string>, metadatas: seq<ChunkMetadata>, response: UploadResponse)

  function UploadedMessage(filename: string): string
  {
    "Document '" + filename + "' uploaded and processed"
  }

  /**
   * The index side of an upload: opening the Pinecone index and adding the texts
   * with their metadata. It answers `Some(message)` when one of those calls raises.
   */
  type Store = (seq<string>, seq<ChunkMetadata>) -> Option<string>

  /**
   * The upload endpoint without its I/O. `extracted` is what reading the PDF and
   * splitting its text give: the chunks, or the message of the exception raised.
   * `docId` is the freshly generated document id. Exceptions after the filename
   * check are not handled by the endpoint, so they reach the client as the web
   * framework's generic 500.
   */
  function Ingest(sessionId: string, filename: string, extracted: Result<seq<string>, string>,
                  docId: string, store: Store): (r: Result<Ingested, HttpError>)
    ensures !EndsWith(filename, PdfSuffix) ==> r == Failure(UnsupportedFile)
    ensures EndsWith(filename, PdfSuffix) && extracted.Failure? ==> r == Failure(UnhandledError)
    ensures EndsWith(filename, PdfSuffix) && extracted.Success? ==>
              (r.Success? <==> store(extracted.value, Metadatas(docId, filename, sessionId, |extracted.value|)).None?)
    ensures r.Failure? ==> r.error == UnsupportedFile || r.error == UnhandledError
    ensures r.Success? ==>
              && EndsWith(filename, PdfSuffix)
              && extracted.Success?
              && r.value.texts == extracted.value
              && r.value.response.chunks == |extracted.value|
              && |r.value.metadatas| == |extracted.value|
              && r.value.response.docId == docId
              && r.value.response.sessionId == sessionId
              && store(r.value.texts, r.value.metadatas).None?
    ensures r.Success? ==> forall i :: 0 <= i < |r.value.texts| ==>
              r.value.metadatas[i] == ChunkMetadata(docId, filename, i, sessionId)
  {
    match RejectFilename(filename)
    case Some(e) => Failure(e)
    case None =>
      match extracted
      case Failure(_) => Failure(UnhandledError)
      case Success(chunks) =>
        var metas := Metadatas(docId, filename, sessionId, |chunks|);
        match store(chunks, metas)
        case Some(_) => Failure(UnhandledError)
        case None => Success(Ingested(chunks, metas, UploadResponse(UploadedMessage(filename), docId, |chunks|, sessionId)))
  }

  /** Metadata of two stored chunks of one upload are equal only for the same position. */
  lemma ChunkIdsDistinct(sessionId: string, filename: string, extracted: Result<seq<string>, string>,
                         docId: string, store: Store, i: nat, j: nat)
    requires Ingest(sessionId, filename, extracted, docId, store).Success?
    requires i < |extracted.value| && j < |extracted.value| && i != j
    ensures Ingest(sessionId, filename, extracted, docId, store).value.metadatas[i]
         != Ingest(sessionId, filename, extracted, docId, store).value.metadatas[j]
  {
  }

  /**
   * The metadata list for `a + b` chunks is the list for `a` followed by the list
   * for `b` with positions shifted by `a`.
   */
  lemma MetadatasSplit(docId: string, filename: string, sessionId: string, a: nat, b: nat)
    ensures Metadatas(docId, filename, sessionId, a + b)
         == Metadatas(docId, filename, sessionId, a)
          + seq(b, k requires 0 <= k < b => ChunkMetadata(docId, filename, a + k, sessionId))
  {
  }
}
