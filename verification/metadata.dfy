/**
 * The metadata record stored with every chunk in the vector index (api/index.py,
 * lines 111-119), and its dictionary form as the index hands it back with a
 * retrieved document.
 */
module Metadata {

  import opened Wrappers

  /** A metadata value: the index stores strings and whole numbers. */
  datatype MetaValue = Text(text: string) | Number(number: int)

  const DocIdKey := "doc_id"
  const FilenameKey := "filename"
  const ChunkIdKey := "chunk_id"
  const SessionIdKey := "session_id"

  /** The metadata of one chunk: its document, the uploaded filename, its position and the session. */
  datatype ChunkMetadata = ChunkMetadata(docId: string, filename: string, chunkId: nat, sessionId: string)

  /** The dictionary written to the index for a chunk. */
  function ToMap(m: ChunkMetadata): (d: map<string, MetaValue>)
    ensures d.Keys == {DocIdKey, FilenameKey, ChunkIdKey, SessionIdKey}
    ensures d[DocIdKey] == Text(m.docId) && d[FilenameKey] == Text(m.filename)
    ensures d[ChunkIdKey] == Number(m.chunkId) && d[SessionIdKey] == Text(m.sessionId)
  {
    map[DocIdKey := Text(m.docId),
        FilenameKey := Text(m.filename),
        ChunkIdKey := Number(m.chunkId),
        SessionIdKey := Text(m.sessionId)]
  }

  /** The text stored under `key`, if the key is present and holds text. */
  function TextAt(d: map<string, MetaValue>, key: string): (r: Option<string>)
    ensures r.Some? <==> key in d && d[key].Text?
    ensures r.Some? ==> d[key] == Text(r.value)
  {
    if key in d && d[key].Text? then Some(d[key].text) else None
  }

  /** Reads a chunk's metadata back from its dictionary form; `None` when a field is missing or ill-typed. */
  function FromMap(d: map<string, MetaValue>): (r: Option<ChunkMetadata>)
    ensures r.Some? ==> forall k :: k in ToMap(r.value) ==> k in d && d[k] == ToMap(r.value)[k]
    ensures r.None? ==>
              || TextAt(d, DocIdKey).None?
              || TextAt(d, FilenameKey).None?
              || TextAt(d, SessionIdKey).None?
              || ChunkIdKey !in d || !d[ChunkIdKey].Number? || d[ChunkIdKey].number < 0
  {
    match (TextAt(d, DocIdKey), TextAt(d, FilenameKey), TextAt(d, SessionIdKey))
    case (Some(doc), Some(file), Some(session)) =>
      if ChunkIdKey in d && d[ChunkIdKey].Number? && d[ChunkIdKey].number >= 0
      then Some(ChunkMetadata(doc, file, d[ChunkIdKey].number, session))
      else None
    case _ => None
  }

  /** Every field written for a chunk is read back unchanged. */
  lemma FromToMap(m: ChunkMetadata)
    ensures FromMap(ToMap(m)) == Some(m)
  {
  }
}
