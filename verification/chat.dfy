/**
 * The chat endpoint (api/index.py, lines 144-207) around its foreign calls: the
 * history sent by the client is folded, the retrieval chain is consulted, and the
 * retrieved documents are shaped into source previews. Every failure becomes a 500.
 */
module Chat {

  import opened Wrappers
  import opened Http
  import opened History
  import opened Metadata

  /** A history entry as received: a dictionary whose "role" or "content" key may be missing. */
  datatype RawMessage = RawMessage(role: Option<string>, content: Option<string>)

  /** The request body; the endpoint filters retrieval by the session id of the path, not this field. */
  datatype ChatRequest = ChatRequest(sessionId: string, question: string, chatHistory: seq<RawMessage>)

  /** What the retrieval chain is called with. */
  datatype ChainInput = ChainInput(question: string, chatHistory: seq<Turn>)

  /** A document returned by the retriever: the chunk text and the metadata stored with it. */
  datatype RetrievedDoc = RetrievedDoc(pageContent: string, metadata: map<string, MetaValue>)

  /** The chain's result; the list of source documents may be absent. */
  datatype ChainResult = ChainResult(answer: string, sourceDocuments: Option<seq<RetrievedDoc>>)

  /** One source preview of the response. */
  datatype Source = Source(content: string, filename: MetaValue, docId: MetaValue)

  datatype ChatResponse = ChatResponse(answer: string, sources: seq<Source>)

  /** The retrieval chain, scoped to a session id: the call may fail with a message. */
  type Chain = (string, ChainInput) -> Result<ChainResult, string>

  /** Characters of a document kept in its preview. */
  const PreviewLength: nat := 200

  /** Stands in for a metadata field the retrieved document lacks. */
  const Unknown := Text("Unknown")

  // ----- Folding the history as received -----

  predicate WellFormed(raws: seq<RawMessage>)
  {
    forall i :: 0 <= i < |raws| ==> raws[i].role.Some? && raws[i].content.Some?
  }

  /** The well-formed history as typed messages. */
  function Parse(raws: seq<RawMessage>): (msgs: seq<Message>)
    requires WellFormed(raws)
    ensures |msgs| == |raws|
    ensures forall i :: 0 <= i < |raws| ==>
              msgs[i].role == ParseRole(raws[i].role.value) && msgs[i].content == raws[i].content.value
    decreases |raws|
  {
    if |raws| == 0 then []
    else [Message(ParseRole(raws[0].role.value), raws[0].content.value)] + Parse(raws[1..])
  }

  /**
   * The fold over received dictionaries. A missing "role" key always fails; a
   * missing "content" key fails only where the content is read: on a "user"
   * message, and on an "assistant" message once a turn exists. The error is the
   * missing key.
   */
  function FoldRawFrom(acc: seq<Turn>, raws: seq<RawMessage>): (r: Result<seq<Turn>, string>)
    ensures WellFormed(raws) ==> r == Success(FoldFrom(acc, Parse(raws)))
    ensures r.Success? ==> forall i :: 0 <= i < |raws| ==> raws[i].role.Some?
    ensures r.Success? ==> forall i :: 0 <= i < |raws| && raws[i].role == Some("user") ==> raws[i].content.Some?
    ensures r.Failure? ==> r.error == "role" || r.error == "content"
    ensures (forall i :: 0 <= i < |raws| ==> raws[i].content.Some?) && r.Failure? ==> r.error == "role"
    decreases |raws|
  {
    if |raws| == 0 then Success(acc)
    else
      var raw := raws[0];
      match raw.role
      case None => Failure("role")
      case Some(name) =>
        var role := ParseRole(name);
        if (role == User || (role == Assistant && |acc| > 0)) && raw.content.None? then Failure("content")
        else
          assert WellFormed(raws) ==> Parse(raws)[0] == Message(role, raw.content.value) && Parse(raws)[1..] == Parse(raws[1..]);
          FoldRawFrom(Step(acc, Message(role, raw.content.GetOr(""))), raws[1..])
  }

  function FoldRaw(raws: seq<RawMessage>): (r: Result<seq<Turn>, string>)
    ensures WellFormed(raws) ==> r == Success(FoldHistory(Parse(raws)))
    ensures r.Success? ==> forall i :: 0 <= i < |raws| ==> raws[i].role.Some?
  {
    FoldRawFrom([], raws)
  }

  /**
   * Entries before the first "user" entry are never read past their role: they
   * are dropped whether or not they carry content.
   */
  lemma {:induction false} LeadingEntriesNotRead(pre: seq<RawMessage>, raws: seq<RawMessage>)
    requires forall i :: 0 <= i < |pre| ==> pre[i].role.Some? && pre[i].role.value != "user"
    ensures FoldRawFrom([], pre + raws) == FoldRawFrom([], raws)
    decreases |pre|
  {
    if |pre| == 0 {
      assert pre + raws == raws;
    } else {
      assert (pre + raws)[0] == pre[0];
      assert (pre + raws)[1..] == pre[1..] + raws;
      LeadingEntriesNotRead(pre[1..], raws);
    }
  }

  /** An entry whose role is neither "user" nor "assistant" is skipped, with or without content. */
  lemma {:induction false} OtherEntrySkipped(acc: seq<Turn>, name: string, content: Option<string>, raws: seq<RawMessage>)
    requires name != "user" && name != "assistant"
    ensures FoldRawFrom(acc, [RawMessage(Some(name), content)] + raws) == FoldRawFrom(acc, raws)
  {
    assert ([RawMessage(Some(name), content)] + raws)[1..] == raws;
  }

  // ----- Which key a failing history reports -----

  /** The key whose absence the fold trips over at one entry, given whether a turn is open. */
  function MissingKey(raw: RawMessage, open: bool): Option<string>
  {
    if raw.role.None? then Some("role")
    else if raw.content.None? && (raw.role.value == "user" || (raw.role.value == "assistant" && open)) then Some("content")
    else None
  }

  /** Whether a turn exists when entry `i` is read: one was given, or an earlier entry is a "user" entry. */
  predicate OpenAt(acc: seq<Turn>, raws: seq<RawMessage>, i: nat)
    requires i <= |raws|
  {
    |acc| > 0 || exists j :: 0 <= j < i && raws[j].role == Some("user")
  }

  lemma {:induction false} OpenAtShift(acc: seq<Turn>, raws: seq<RawMessage>, next: seq<Turn>, i: nat)
    requires 0 < i <= |raws| && raws[0].role.Some?
    requires |next| > 0 <==> |acc| > 0 || raws[0].role == Some("user")
    ensures OpenAt(next, raws[1..], i - 1) == OpenAt(acc, raws, i)
  {
    if OpenAt(acc, raws, i) && |next| == 0 {
      var j :| 0 <= j < i && raws[j].role == Some("user");
      assert raws[1..][j - 1] == raws[j];
    }
    if OpenAt(next, raws[1..], i - 1) && |acc| == 0 && |next| == 0 {
      var j :| 0 <= j < i - 1 && raws[1..][j].role == Some("user");
      assert raws[j + 1] == raws[1..][j];
    }
  }

  /**
   * The fold succeeds exactly when no entry is missing a key it reads, and a
   * failure reports the key missing at the first such entry.
   */
  lemma {:induction false} FoldRawReportsFirstMissingKey(acc: seq<Turn>, raws: seq<RawMessage>)
    ensures FoldRawFrom(acc, raws).Success?
        <==> forall i :: 0 <= i < |raws| ==> MissingKey(raws[i], OpenAt(acc, raws, i)).None?
    ensures FoldRawFrom(acc, raws).Failure? ==>
              exists i :: 0 <= i < |raws|
                && MissingKey(raws[i], OpenAt(acc, raws, i)) == Some(FoldRawFrom(acc, raws).error)
                && forall j :: 0 <= j < i ==> MissingKey(raws[j], OpenAt(acc, raws, j)).None?
    decreases |raws|
  {
    if |raws| > 0 {
      var raw := raws[0];
      assert OpenAt(acc, raws, 0) == (|acc| > 0);
      if raw.role.Some? {
        var role := ParseRole(raw.role.value);
        if !((role == User || (role == Assistant && |acc| > 0)) && raw.content.None?) {
          var next := Step(acc, Message(role, raw.content.GetOr("")));
          FoldRawReportsFirstMissingKey(next, raws[1..]);
          forall i | 0 < i <= |raws| {
            OpenAtShift(acc, raws, next, i);
          }
          assert forall i :: 0 < i < |raws| ==> raws[1..][i - 1] == raws[i];
          if FoldRawFrom(next, raws[1..]).Failure? {
            var k :| 0 <= k < |raws[1..]|
                && MissingKey(raws[1..][k], OpenAt(next, raws[1..], k)) == Some(FoldRawFrom(next, raws[1..]).error)
                && forall j :: 0 <= j < k ==> MissingKey(raws[1..][j], OpenAt(next, raws[1..], j)).None?;
            assert MissingKey(raws[k + 1], OpenAt(acc, raws, k + 1)) == Some(FoldRawFrom(acc, raws).error);
            forall j | 0 <= j < k + 1
              ensures MissingKey(raws[j], OpenAt(acc, raws, j)).None?
            {
              if j > 0 {
                assert raws[1..][j - 1] == raws[j];
              }
            }
          } else {
            forall i | 0 <= i < |raws|
              ensures MissingKey(raws[i], OpenAt(acc, raws, i)).None?
            {
              if i > 0 {
                assert raws[1..][i - 1] == raws[i];
              }
            }
          }
        }
      }
    }
  }

  // ----- Source previews -----

  function Min(a: nat, b: nat): nat
  {
    if a <= b then a else b
  }

  /** Python's `s[:n]`: the first `n` characters, or all of `s` when it is shorter. */
  function Truncate(s: string, n: nat): (t: string)
    ensures |t| == Min(n, |s|)
    ensures t <= s
  {
    if |s| <= n then s else s[..n]
  }

  /** Python's `metadata.get(key, "Unknown")`. */
  function GetOrUnknown(md: map<string, MetaValue>, key: string): (v: MetaValue)
    ensures key in md ==> v == md[key]
    ensures key !in md ==> v == Unknown
  {
    if key in md then md[key] else Unknown
  }

  /** The preview of one retrieved document. */
  function Preview(d: RetrievedDoc): (s: Source)
    ensures s.content <= d.pageContent
    ensures |s.content| == Min(PreviewLength, |d.pageContent|)
    ensures |d.pageContent| <= PreviewLength ==> s.content == d.pageContent
    ensures FilenameKey in d.metadata ==> s.filename == d.metadata[FilenameKey]
    ensures FilenameKey !in d.metadata ==> s.filename == Unknown
    ensures DocIdKey in d.metadata ==> s.docId == d.metadata[DocIdKey]
    ensures DocIdKey !in d.metadata ==> s.docId == Unknown
  {
    Source(Truncate(d.pageContent, PreviewLength),
           GetOrUnknown(d.metadata, FilenameKey),
           GetOrUnknown(d.metadata, DocIdKey))
  }

  /** One preview per retrieved document, in retrieval order. */
  function Previews(docs: seq<RetrievedDoc>): (ss: seq<Source>)
    ensures |ss| == |docs|
    ensures forall i :: 0 <= i < |docs| ==> ss[i] == Preview(docs[i])
    decreases |docs|
  {
    if |docs| == 0 then []
    else [Preview(docs[0])] + Previews(docs[1..])
  }

  /** The source list of a chain result; an absent document list yields no sources. */
  function Sources(res: ChainResult): (ss: seq<Source>)
    ensures res.sourceDocuments.None? ==> ss == []
    ensures res.sourceDocuments.Some? ==> |ss| == |res.sourceDocuments.value|
    ensures res.sourceDocuments.Some? ==>
              forall i :: 0 <= i < |ss| ==> ss[i] == Preview(res.sourceDocuments.value[i])
  {
    Previews(res.sourceDocuments.GetOr([]))
  }

  /** Previewing a concatenation previews each part. */
  lemma PreviewsAppend(a: seq<RetrievedDoc>, b: seq<RetrievedDoc>)
    ensures Previews(a + b) == Previews(a) + Previews(b)
  {
  }

  /** A chunk stored by an upload previews with the uploaded filename and document id, never "Unknown". */
  lemma StoredChunkPreview(text: string, m: ChunkMetadata)
    ensures Preview(RetrievedDoc(text, ToMap(m)))
         == Source(Truncate(text, PreviewLength), Text(m.filename), Text(m.docId))
  {
  }

  // ----- The endpoint -----

  /**
   * The chat endpoint for the session id of the path. The history is folded
   * first; a missing key or a failing chain becomes a 500 carrying the message.
   */
  function Respond(sessionId: string, req: ChatRequest, chain: Chain): (r: Result<ChatResponse, HttpError>)
    ensures r.Failure? ==> r.error.status == InternalServerError
    ensures r.Success? ==> FoldRaw(req.chatHistory).Success?
    ensures r.Success? ==>
              var out := chain(sessionId, ChainInput(req.question, FoldRaw(req.chatHistory).value));
              && out.Success?
              && r.value.answer == out.value.answer
              && r.value.sources == Sources(out.value)
    ensures FoldRaw(req.chatHistory).Success? ==>
              var out := chain(sessionId, ChainInput(req.question, FoldRaw(req.chatHistory).value));
              out.Success? ==> r.Success?
  {
    match FoldRaw(req.chatHistory)
    case Failure(key) => Failure(ChatFailure(KeyErrorText(key)))
    case Success(history) =>
      match chain(sessionId, ChainInput(req.question, history))
      case Failure(message) => Failure(ChatFailure(message))
      case Success(res) => Success(ChatResponse(res.answer, Sources(res)))
  }

  /** With a well-formed history, the chain sees the folded history and its documents become the sources. */
  lemma RespondWellFormed(sessionId: string, req: ChatRequest, chain: Chain)
    requires WellFormed(req.chatHistory)
    ensures var out := chain(sessionId, ChainInput(req.question, FoldHistory(Parse(req.chatHistory))));
            && (out.Success? ==> Respond(sessionId, req, chain)
                                 == Success(ChatResponse(out.value.answer, Previews(out.value.sourceDocuments.GetOr([])))))
            && (out.Failure? ==> Respond(sessionId, req, chain) == Failure(ChatFailure(out.error)))
  {
  }

  /** An entry without "role" whose predecessors all have content makes the fold report "role". */
  lemma {:induction false} FoldRawMissingRole(raws: seq<RawMessage>, i: nat)
    requires i < |raws| && raws[i].role.None?
    requires forall j :: 0 <= j < i ==> raws[j].content.Some?
    ensures FoldRaw(raws) == Failure("role")
  {
    FoldRawReportsFirstMissingKey([], raws);
    assert MissingKey(raws[i], OpenAt([], raws, i)) == Some("role");
    var folded := FoldRaw(raws);
    var k :| 0 <= k < |raws|
      && MissingKey(raws[k], OpenAt([], raws, k)) == Some(folded.error)
      && forall j :: 0 <= j < k ==> MissingKey(raws[j], OpenAt([], raws, j)).None?;
    assert k <= i;
  }

  /** A history entry without a "role" key fails the request, whatever the chain would answer. */
  lemma {:induction false} MissingRoleFails(sessionId: string, req: ChatRequest, chain: Chain, i: nat)
    requires i < |req.chatHistory| && req.chatHistory[i].role.None?
    requires forall j :: 0 <= j < i ==> req.chatHistory[j].content.Some?
    ensures Respond(sessionId, req, chain) == Failure(HttpError(500, "Error processing chat: 'role'"))
  {
    FoldRawMissingRole(req.chatHistory, i);
    assert ChatFailure(KeyErrorText("role")) == HttpError(500, "Error processing chat: 'role'");
  }
}
