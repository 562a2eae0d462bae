/**
 * The chat request handler (`POST /api/chat`): a process-wide map from
 * session id to a history of turns, the compaction rule that folds older
 * turns into one synthetic summary turn, the composition of a user turn with
 * the text of an attached document, and request validation.
 *
 * The remote model call, the PDF loader and the summarising call are
 * function-typed parameters: each returns `None` when the call throws.
 */
module ChatRoute {
  import opened Wrappers
  import opened Text

  /** Longest history sent to inference without trying to compact it. */
  const MaxHistoryLength: nat := 10
  /** Number of most recent turns a compaction keeps verbatim. */
  const KeepRecentMsgs: nat := 4

  const DefaultSessionId: string := "default-session"
  /** Marks the synthetic turn that replaces summarised history. */
  const SummaryTag: string := "[SYSTEM SUMMARY of previous conversation]: "
  /** The instruction turn appended to the older turns when asking for a summary. */
  const SummaryPrompt: string :=
    "Summarize the following conversation history. Focus on the user's key problems, emotional state, and the advice given so far. Keep it concise."

  datatype Role = User | Model
  datatype Part = Part(text: string)
  /** One message of a conversation, `{role, parts: [{text}]}`. */
  datatype Turn = Turn(role: Role, parts: seq<Part>)

  /** An uploaded file, as the form field carries it. */
  datatype Upload = Upload(name: string, bytes: seq<bv8>)

  /** The multipart form fields; `None` is a field the form does not carry. */
  datatype Request = Request(userQuery: Option<string>, sessionId: Option<string>, file: Option<Upload>)

  /** The JSON body and status of the handler's answer. */
  datatype Response =
    | Reply(chatbotResponse: string, sessionId: string, debugHistoryLength: nat)
    | Failure(status: nat, error: string)

  const BadRequest: Response := Failure(400, "Message is required")
  const ServerError: Response := Failure(500, "Failed to process request")

  /** `generateContent` on some contents: the reply text, or None when the call throws. */
  type Inference = seq<Turn> -> Option<string>
  /** The PDF loader: the text of each page in page order, or None when loading throws. */
  type Loader = Upload -> Option<seq<string>>

  type Store = map<string, seq<Turn>>

  /** What one request leaves behind: the session map and the answer. */
  datatype Outcome = Outcome(store: Store, resp: Response)

  function TextTurn(role: Role, text: string): Turn {
    Turn(role, [Part(text)])
  }

  /** A query that is missing, empty or whitespace only (`!userQuery || !userQuery.trim()`). */
  predicate IsBlankQuery(q: Option<string>) {
    q.None? || Trim(q.value) == []
  }

  /** `sessionId || "default-session"`: a missing or empty id falls back to the shared default. */
  function ResolveSessionId(sessionId: Option<string>): (id: string)
    ensures id != []
    ensures sessionId.Some? && sessionId.value != [] ==> id == sessionId.value
    ensures sessionId.None? || sessionId.value == [] ==> id == DefaultSessionId
  {
    if sessionId.Some? && sessionId.value != [] then sessionId.value else DefaultSessionId
  }

  /** The history a session holds, or the empty history of a session not seen yet. */
  function Lookup(store: Store, id: string): seq<Turn> {
    if id in store then store[id] else []
  }

  // ---------------------------------------------------------------------------
  // Document text

  /** The page texts joined in page order. */
  function Concat(pages: seq<string>): string {
    if pages == [] then [] else pages[0] + Concat(pages[1..])
  }

  lemma {:induction false} ConcatAppend(a: seq<string>, b: seq<string>)
    ensures Concat(a + b) == Concat(a) + Concat(b)
  {
    if a == [] {
      assert a + b == b;
    } else {
      assert (a + b)[1..] == a[1..] + b;
      ConcatAppend(a[1..], b);
    }
  }

  /** Length of the text contributed by the first `k` pages. */
  function PageOffset(pages: seq<string>, k: nat): nat
    requires k <= |pages|
  {
    |Concat(pages[..k])|
  }

  /** Every page appears in the joined text, at the offset where the earlier pages end. */
  lemma {:induction false} ConcatPageOrder(pages: seq<string>, k: nat)
    requires k < |pages|
    ensures PageOffset(pages, k) + |pages[k]| <= |Concat(pages)|
    ensures Concat(pages)[PageOffset(pages, k)..PageOffset(pages, k) + |pages[k]|] == pages[k]
  {
    assert pages == pages[..k] + [pages[k]] + pages[k + 1..];
    ConcatAppend(pages[..k] + [pages[k]], pages[k + 1..]);
    ConcatAppend(pages[..k], [pages[k]]);
    assert Concat([pages[k]]) == pages[k] + Concat([]);
  }

  /** The `forEach` that accumulates `docContent += page.pageContent`. */
  method JoinPages(pages: seq<string>) returns (doc: string)
    ensures doc == Concat(pages)
  {
    doc := "";
    var i := 0;
    while i < |pages|
      invariant 0 <= i <= |pages|
      invariant doc == Concat(pages[..i])
    {
      ConcatAppend(pages[..i], [pages[i]]);
      assert pages[..i + 1] == pages[..i] + [pages[i]];
      assert Concat([pages[i]]) == pages[i] + Concat([]);
      doc := doc + pages[i];
      i := i + 1;
    }
    assert pages[..i] == pages;
  }

  // ---------------------------------------------------------------------------
  // Turn composition

  /** Indentation of the template literal's lines. */
  const Indent: string := "                        "
  /** The template text before the document content. */
  const DocumentLead: string := "\n" + Indent + "Based on the following document content:\n\n"
  /** The template text between the document content and the question. */
  const QuestionLead: string := "\n\n\n" + Indent + "User Question: "
  /** The template text after the question. */
  const ClosingInstruction: string :=
    "\n\n\n" + Indent +
    "Provide a compassionate, therapeutic response that incorporates insights from the document while maintaining your role as a counselor."
    + "\n                    "

  /** The query rewritten to carry the document text ahead of the original question. */
  function ComposeQuery(doc: string, query: string): (r: string)
    ensures |r| == |DocumentLead| + |doc| + |QuestionLead| + |query| + |ClosingInstruction|
    ensures StartsWith(r, DocumentLead)
    ensures r[|DocumentLead|..][..|doc|] == doc
    ensures StartsWith(r[|DocumentLead| + |doc|..], QuestionLead + query)
    ensures r[|DocumentLead| + |doc| + |QuestionLead|..|r| - |ClosingInstruction|] == query
    ensures r[|r| - |ClosingInstruction|..] == ClosingInstruction
  {
    TemplateLayout(DocumentLead, doc, QuestionLead, query, ClosingInstruction);
    DocumentLead + doc + QuestionLead + query + ClosingInstruction
  }

  /** Where each piece of a template `a + doc + b + query + c` sits. */
  lemma TemplateLayout(a: string, doc: string, b: string, query: string, c: string)
    ensures var r := a + doc + b + query + c;
            |r| == |a| + |doc| + |b| + |query| + |c| &&
            StartsWith(r, a) &&
            r[|a|..][..|doc|] == doc &&
            StartsWith(r[|a| + |doc|..], b + query) &&
            r[|a| + |doc| + |b|..|r| - |c|] == query &&
            r[|r| - |c|..] == c
  {
    var r := a + doc + b + query + c;
    assert r[|a|..] == doc + b + query + c;
    assert r[|a| + |doc|..] == b + query + c;
    assert r[|a| + |doc| + |b|..] == query + c;
    assert r[|r| - |c|..] == c;
  }

  /**
   * The text of the user turn: the query itself, or, with an attachment, the
   * query composed with the joined page texts. None when the loader throws.
   */
  function ComposeTurnText(query: string, file: Option<Upload>, load: Loader): (r: Option<string>)
    ensures file.None? ==> r == Some(query)
    ensures file.Some? && load(file.value).None? ==> r.None?
    ensures file.Some? && load(file.value).Some? ==> r == Some(ComposeQuery(Concat(load(file.value).value), query))
  {
    match file
    case None => Some(query)
    case Some(f) =>
      match load(f)
      case None => None
      case Some(pages) => Some(ComposeQuery(Concat(pages), query))
  }

  // ---------------------------------------------------------------------------
  // Compaction

  /** `getSummary`: the summariser sees the older turns followed by the summary instruction. */
  function GetSummary(older: seq<Turn>, summarize: Inference): Option<string> {
    summarize(older + [TextTurn(User, SummaryPrompt)])
  }

  /** `if (summaryText)`: a summary counts only when the call returned a non-empty text. */
  predicate IsUsableSummary(summary: Option<string>) {
    summary.Some? && summary.value != []
  }

  function SummaryTurn(summary: string): Turn {
    TextTurn(User, SummaryTag + summary)
  }

  /** The summary turn is a `user` turn whose single text is the tag followed by the summary itself. */
  lemma SummaryTurnText(summary: string)
    ensures var t := SummaryTurn(summary);
            t.role == User && |t.parts| == 1 &&
            StartsWith(t.parts[0].text, SummaryTag) && t.parts[0].text[|SummaryTag|..] == summary
  {
    var text := SummaryTurn(summary).parts[0].text;
    assert text[..|SummaryTag|] == SummaryTag;
  }

  /** Index at which an over-long history is split into older and recent turns. */
  function CutoffIndex(history: seq<Turn>): nat
    requires |history| > MaxHistoryLength
  {
    |history| - KeepRecentMsgs
  }

  /** The history sent to inference after the compaction check. */
  function Compact(history: seq<Turn>, summarize: Inference): (r: seq<Turn>)
    ensures |history| <= MaxHistoryLength ==> r == history
    ensures |r| != |history| <==>
              (|history| > MaxHistoryLength &&
               IsUsableSummary(GetSummary(history[..CutoffIndex(history)], summarize)))
    ensures r == history ||
            (|history| > MaxHistoryLength &&
             IsUsableSummary(GetSummary(history[..CutoffIndex(history)], summarize)) &&
             |r| == KeepRecentMsgs + 1 &&
             r[0] == SummaryTurn(GetSummary(history[..CutoffIndex(history)], summarize).value) &&
             r[1..] == history[|history| - KeepRecentMsgs..])
  {
    if |history| > MaxHistoryLength then
      var cutoff := CutoffIndex(history);
      var summary := GetSummary(history[..cutoff], summarize);
      if IsUsableSummary(summary) then
        [SummaryTurn(summary.value)] + history[cutoff..]
      else
        history
    else
      history
  }

  // ---------------------------------------------------------------------------
  // One request

  /** The user turn a non-blank request appends, or None when the attachment cannot be read. */
  function UserTurnOf(req: Request, load: Loader): Option<Turn>
    requires !IsBlankQuery(req.userQuery)
  {
    match ComposeTurnText(req.userQuery.value, req.file, load)
    case None => None
    case Some(text) => Some(TextTurn(User, text))
  }

  /**
   * What a request does once its user turn is known: push it, compact, ask
   * for the reply, push that and store the history under `id`.
   * `History` aliases the stored array of an existing session, so for such a
   * session the pushed user turn is already in the map when inference fails;
   * a compacted history is a new array, stored only by the final `set`.
   */
  function CommitTurn(store: Store, id: string, userTurn: Turn, summarize: Inference, generate: Inference): (o: Outcome)
    ensures o.resp.Reply? || o.resp == ServerError
    ensures o.resp.Reply? <==> generate(Compact(Lookup(store, id) + [userTurn], summarize)).Some?
    ensures o.resp.Reply? ==> o.resp.sessionId == id && id in o.store && o.resp.debugHistoryLength == |o.store[id]|
    ensures forall k :: k != id ==> (k in o.store <==> k in store) && (k in store ==> o.store[k] == store[k])
    ensures o.store.Keys <= store.Keys + {id}
  {
    var pushed := Lookup(store, id) + [userTurn];
    var sent := Compact(pushed, summarize);
    match generate(sent)
    case None =>
      Outcome(if id in store then store[id := pushed] else store, ServerError)
    case Some(reply) =>
      var stored := sent + [TextTurn(Model, reply)];
      Outcome(store[id := stored], Reply(reply, id, |stored|))
  }

  /** The whole effect of one request on the session map, and its answer. */
  function Handle(store: Store, req: Request, load: Loader, summarize: Inference, generate: Inference): (o: Outcome)
    ensures o.resp == BadRequest <==> IsBlankQuery(req.userQuery)
    ensures o.resp.Failure? ==> o.resp == BadRequest || o.resp == ServerError
    ensures IsBlankQuery(req.userQuery) ==> o.store == store
    ensures o.resp.Reply? ==> o.resp.sessionId == ResolveSessionId(req.sessionId)
    ensures o.resp.Reply? ==>
              o.resp.sessionId in o.store && o.resp.debugHistoryLength == |o.store[o.resp.sessionId]|
    ensures forall k :: k != ResolveSessionId(req.sessionId) ==>
              (k in o.store <==> k in store) && (k in store ==> o.store[k] == store[k])
    ensures o.store.Keys <= store.Keys + {ResolveSessionId(req.sessionId)}
  {
    if IsBlankQuery(req.userQuery) then
      Outcome(store, BadRequest)
    else
      match UserTurnOf(req, load)
      case None => Outcome(store, ServerError)
      case Some(userTurn) => CommitTurn(store, ResolveSessionId(req.sessionId), userTurn, summarize, generate)
  }

  // ---------------------------------------------------------------------------
  // Properties of requests

  /**
   * A successful request appends exactly one user turn and one model turn, to
   * the history or to its compacted form, and answers with the reply it stored.
   */
  lemma SuccessAppendsExchange(store: Store, req: Request, load: Loader, summarize: Inference, generate: Inference)
    requires Handle(store, req, load, summarize, generate).resp.Reply?
    ensures !IsBlankQuery(req.userQuery) && UserTurnOf(req, load).Some?
    ensures var o := Handle(store, req, load, summarize, generate);
            var id := ResolveSessionId(req.sessionId);
            var pushed := Lookup(store, id) + [UserTurnOf(req, load).value];
            o.store == store[id := Compact(pushed, summarize) + [TextTurn(Model, o.resp.chatbotResponse)]] &&
            generate(Compact(pushed, summarize)) == Some(o.resp.chatbotResponse)
  {
  }

  /**
   * The converse of `SuccessAppendsExchange`: a non-blank request whose
   * attachment (if any) loads and whose inference call answers gets the reply,
   * and its session stores the history sent to inference plus the model turn.
   */
  lemma ReplyWhenInferenceAnswers(store: Store, req: Request, load: Loader, summarize: Inference, generate: Inference)
    requires !IsBlankQuery(req.userQuery) && UserTurnOf(req, load).Some?
    requires generate(Compact(Lookup(store, ResolveSessionId(req.sessionId)) + [UserTurnOf(req, load).value], summarize)).Some?
    ensures var id := ResolveSessionId(req.sessionId);
            var sent := Compact(Lookup(store, id) + [UserTurnOf(req, load).value], summarize);
            var reply := generate(sent).value;
            Handle(store, req, load, summarize, generate) ==
              Outcome(store[id := sent + [TextTurn(Model, reply)]], Reply(reply, id, |sent| + 1))
  {
  }

  /** While the history after the user turn is at most `MaxHistoryLength` long, nothing is compacted. */
  lemma {:induction false} ShortHistoryGrowsByTwo(store: Store, req: Request, load: Loader, summarize: Inference, generate: Inference)
    requires Handle(store, req, load, summarize, generate).resp.Reply?
    requires |Lookup(store, ResolveSessionId(req.sessionId))| < MaxHistoryLength
    ensures var o := Handle(store, req, load, summarize, generate);
            var id := ResolveSessionId(req.sessionId);
            o.store[id] == Lookup(store, id) + [UserTurnOf(req, load).value, TextTurn(Model, o.resp.chatbotResponse)]
  {
    SuccessAppendsExchange(store, req, load, summarize, generate);
  }

  /**
   * A failed reply leaves the user turn in an existing session's history,
   * uncompacted, and creates no new session.
   */
  lemma ReplyFailureKeepsUserTurn(store: Store, req: Request, load: Loader, summarize: Inference, generate: Inference)
    requires !IsBlankQuery(req.userQuery) && UserTurnOf(req, load).Some?
    requires generate(Compact(Lookup(store, ResolveSessionId(req.sessionId)) + [UserTurnOf(req, load).value], summarize)).None?
    ensures var o := Handle(store, req, load, summarize, generate);
            var id := ResolveSessionId(req.sessionId);
            o.resp == ServerError &&
            (id in store ==> o.store == store[id := store[id] + [UserTurnOf(req, load).value]]) &&
            (id !in store ==> o.store == store)
  {
  }

  /**
   * A request that carries a file but an empty query is refused before the
   * file is read: validation looks at the query alone.
   */
  lemma FileOnlyRequestRejected(store: Store, sessionId: Option<string>, file: Upload, load: Loader, summarize: Inference, generate: Inference)
    ensures Handle(store, Request(Some(""), sessionId, Some(file)), load, summarize, generate) == Outcome(store, BadRequest)
  {
  }

  /** A failed attachment load stores nothing. */
  lemma LoadFailureChangesNothing(store: Store, req: Request, load: Loader, summarize: Inference, generate: Inference)
    requires !IsBlankQuery(req.userQuery) && req.file.Some? && load(req.file.value).None?
    ensures Handle(store, req, load, summarize, generate) == Outcome(store, ServerError)
  {
  }

  /**
   * When the summariser fails, the over-long history, with the new user turn,
   * is exactly what goes to inference.
   */
  lemma SummaryFailureSendsFullHistory(history: seq<Turn>, summarize: Inference)
    requires |history| > MaxHistoryLength
    requires !IsUsableSummary(GetSummary(history[..CutoffIndex(history)], summarize))
    ensures Compact(history, summarize) == history
  {
  }

  /**
   * With a summariser that always answers with some text, a successful reply
   * leaves the session at most `MaxHistoryLength + 1` turns long, however long
   * it was before: the context stays bounded.
   */
  lemma {:induction false} BoundedAfterReply(store: Store, req: Request, load: Loader, summarize: Inference, generate: Inference)
    requires forall contents :: IsUsableSummary(summarize(contents))
    requires Handle(store, req, load, summarize, generate).resp.Reply?
    ensures |Handle(store, req, load, summarize, generate).store[ResolveSessionId(req.sessionId)]| <= MaxHistoryLength + 1
  {
    SuccessAppendsExchange(store, req, load, summarize, generate);
    var o := Handle(store, req, load, summarize, generate);
    var id := ResolveSessionId(req.sessionId);
    var pushed := Lookup(store, id) + [UserTurnOf(req, load).value];
    CompactBounded(pushed, summarize);
    assert o.store[id] == Compact(pushed, summarize) + [TextTurn(Model, o.resp.chatbotResponse)];
  }

  /** With a summariser that always answers, what goes to inference is at most `MaxHistoryLength` long. */
  lemma CompactBounded(history: seq<Turn>, summarize: Inference)
    requires forall contents :: IsUsableSummary(summarize(contents))
    ensures |Compact(history, summarize)| <= MaxHistoryLength
  {
    if |history| > MaxHistoryLength {
      assert IsUsableSummary(GetSummary(history[..CutoffIndex(history)], summarize));
    }
  }

  /** `sessionId || ...` treats a missing field and an empty one alike. */
  predicate NoSessionId(sessionId: Option<string>) {
    sessionId.None? || sessionId == Some("")
  }

  /**
   * Two requests that carry no session id share the default session: the
   * second one's history is the first one's stored history with its own
   * exchange appended, compacted as any history is.
   */
  lemma {:induction false} MissingSessionIdsShareHistory(
    store: Store, first: Request, second: Request, load: Loader, summarize: Inference, generate: Inference)
    requires NoSessionId(first.sessionId) && NoSessionId(second.sessionId)
    requires Handle(store, first, load, summarize, generate).resp.Reply?
    requires Handle(Handle(store, first, load, summarize, generate).store, second, load, summarize, generate).resp.Reply?
    ensures var o1 := Handle(store, first, load, summarize, generate);
            var o2 := Handle(o1.store, second, load, summarize, generate);
            o1.resp.sessionId == DefaultSessionId && o2.resp.sessionId == DefaultSessionId &&
            o1.store[DefaultSessionId] ==
              Compact(Lookup(store, DefaultSessionId) + [UserTurnOf(first, load).value], summarize) +
              [TextTurn(Model, o1.resp.chatbotResponse)] &&
            o2.store[DefaultSessionId] ==
              Compact(o1.store[DefaultSessionId] + [UserTurnOf(second, load).value], summarize) +
              [TextTurn(Model, o2.resp.chatbotResponse)]
  {
    var o1 := Handle(store, first, load, summarize, generate);
    SuccessAppendsExchange(store, first, load, summarize, generate);
    assert Lookup(o1.store, DefaultSessionId) == o1.store[DefaultSessionId];
    SuccessAppendsExchange(o1.store, second, load, summarize, generate);
  }

  /**
   * Below compaction length, two successive exchanges simply accumulate in
   * order: with `MissingSessionIdsShareHistory`, the default session grows by
   * both requests' user and model turns.
   */
  lemma ShortExchangesAccumulate(history: seq<Turn>, user1: Turn, model1: Turn, user2: Turn, model2: Turn, summarize: Inference)
    requires |history| + 4 <= MaxHistoryLength + 1
    ensures Compact(Compact(history + [user1], summarize) + [model1] + [user2], summarize) + [model2] ==
            history + [user1, model1, user2, model2]
  {
    assert Compact(history + [user1], summarize) == history + [user1];
    assert Compact(history + [user1] + [model1] + [user2], summarize) == history + [user1] + [model1] + [user2];
  }

  /**
   * The eleventh turn of a session triggers compaction: the first seven turns
   * go to the summariser, and when it answers, the history sent to inference
   * is the summary turn followed by the three latest stored turns and the new
   * user turn.
   */
  lemma {:induction false} EleventhTurnCompacts(history: seq<Turn>, userTurn: Turn, summarize: Inference)
    requires |history| == MaxHistoryLength
    requires IsUsableSummary(GetSummary(history[..MaxHistoryLength + 1 - KeepRecentMsgs], summarize))
    ensures var sent := Compact(history + [userTurn], summarize);
            |sent| == KeepRecentMsgs + 1 &&
            sent[0] == SummaryTurn(GetSummary(history[..MaxHistoryLength + 1 - KeepRecentMsgs], summarize).value) &&
            sent[1..] == history[MaxHistoryLength + 1 - KeepRecentMsgs..] + [userTurn]
  {
    var pushed := history + [userTurn];
    assert pushed[..CutoffIndex(pushed)] == history[..MaxHistoryLength + 1 - KeepRecentMsgs];
    assert pushed[CutoffIndex(pushed)..] == history[MaxHistoryLength + 1 - KeepRecentMsgs..] + [userTurn];
  }

  // ---------------------------------------------------------------------------
  // The session store

  /** A second `set` on the same key overrides the first. */
  lemma OverwriteTwice(m: Store, id: string, first: seq<Turn>, second: seq<Turn>)
    ensures m[id := first][id := second] == m[id := second]
  {
  }

  /** The module-level `chatSessions` map and the `POST` handler that updates it. */
  class ChatSessions {
    var sessions: Store

    constructor ()
      ensures sessions == map[]
    {
      sessions := map[];
    }

    /**
     * `POST`: validate, resolve the session, compose the user turn, then
     * commit it to the session's history.
     */
    method Post(req: Request, load: Loader, summarize: Inference, generate: Inference) returns (resp: Response)
      modifies this
      ensures Outcome(sessions, resp) == Handle(old(sessions), req, load, summarize, generate)
    {
      if IsBlankQuery(req.userQuery) {
        return BadRequest;
      }
      var id := ResolveSessionId(req.sessionId);
      var query := ReadQuery(req.userQuery.value, req.file, load);
      if query.None? {
        return ServerError;
      }
      resp := Commit(id, TextTurn(User, query.value), summarize, generate);
    }

    /** Lines 104-141 of the handler: push, compact if needed, infer, push the reply, `set`. */
    method Commit(id: string, userTurn: Turn, summarize: Inference, generate: Inference) returns (resp: Response)
      modifies this
      ensures Outcome(sessions, resp) == CommitTurn(old(sessions), id, userTurn, summarize, generate)
    {
      // `chatSessions.get(id) || []`: the stored array itself, or a new one
      var aliased := id in sessions;
      var history := if aliased then sessions[id] else [];
      history := history + [userTurn];
      ghost var pushed := history;
      if aliased {
        // the push went into the array the map already holds
        sessions := sessions[id := history];
      }

      history := CompactIfNeeded(history, summarize);

      var response := generate(history);
      if response.None? {
        return ServerError;
      }
      history := history + [TextTurn(Model, response.value)];
      if aliased {
        OverwriteTwice(old(sessions), id, pushed, history);
      }
      sessions := sessions[id := history];
      resp := Reply(response.value, id, |history|);
    }
  }

  /** The `if (file)` block: load the attachment, join its pages, compose the query. */
  method ReadQuery(query: string, file: Option<Upload>, load: Loader) returns (text: Option<string>)
    ensures text == ComposeTurnText(query, file, load)
  {
    if file.None? {
      return Some(query);
    }
    var pages := load(file.value);
    if pages.None? {
      return None;
    }
    var doc := JoinPages(pages.value);
    text := Some(ComposeQuery(doc, query));
  }

  /** The compaction check of lines 109-125. */
  method CompactIfNeeded(history: seq<Turn>, summarize: Inference) returns (r: seq<Turn>)
    ensures r == Compact(history, summarize)
  {
    r := history;
    if |history| > MaxHistoryLength {
      var cutoffIndex := |history| - KeepRecentMsgs;
      var olderMessages := history[..cutoffIndex];
      var recentMessages := history[cutoffIndex..];
      var summaryText := GetSummary(olderMessages, summarize);
      if IsUsableSummary(summaryText) {
        r := [SummaryTurn(summaryText.value)] + recentMessages;
      }
    }
  }
}
