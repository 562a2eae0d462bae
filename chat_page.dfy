/**
 * The chat page's send handler (`handleSendMessage`): the send guard, the
 * user message it shows, the clean-up of the reply text before `JSON.parse`,
 * the structured fallback when parsing fails, and the message list that grows
 * by one user message and one bot message per send.
 *
 * `fetch` and `JSON.parse` are function-typed parameters; ids and timestamps
 * taken from the clock are not modelled.
 */
module ChatPage {
  import opened Wrappers
  import opened Text

  /** A JSON value as `response.json()` and `JSON.parse` produce it. */
  datatype Json =
    | JNull
    | JBool(b: bool)
    | JNumber(n: int)
    | JString(s: string)
    | JArray(items: seq<Json>)
    | JObject(fields: seq<Field>)
  datatype Field = Field(key: string, value: Json)

  /** `JSON.parse`: a value, or None when it throws. */
  type Parser = string -> Option<Json>

  /** What the page keeps of an attached file. */
  datatype FileInfo = FileInfo(name: string, size: nat, mime: string)

  /** The form the page posts to the chat route; a missing `sessionId` state is sent as "null". */
  datatype ChatForm = ChatForm(userQuery: string, sessionId: string, file: Option<FileInfo>)

  /**
   * The result of posting the form: `Delivered` with the `chatbotResponse`
   * field of the body (None when the body has no such field), or `Failed` when
   * the request throws, the status is not ok or the body is not JSON.
   */
  datatype FetchOutcome = Failed | Delivered(chatbotResponse: Option<Json>)

  type Fetcher = ChatForm -> FetchOutcome

  datatype Message =
    | UserMessage(text: string, file: Option<FileInfo>)
    /** A reply: the fields of the structured response; None spreads nothing. */
    | BotMessage(content: Option<Json>)
    | ErrorMessage(text: string)

  const Apology: string :=
    "I apologize, but I'm having trouble connecting right now. Please try again in a moment."
  /** The paperclip emoji that labels a file-only message. */
  const Paperclip: string := "\U{1F4CE} "
  const JsonFence: string := "```json"
  const Fence: string := "```"

  // ---------------------------------------------------------------------------
  // The send guard and the user message

  /** `(!text && !file) || isLoading`: a send that does nothing. */
  predicate IsIgnoredSend(text: string, file: Option<FileInfo>, isLoading: bool) {
    (text == [] && file.None?) || isLoading
  }

  /** `text.trim() || (file ? "📎 " + file.name : "")`. */
  function UserText(text: string, file: Option<FileInfo>): (r: string)
    ensures Trim(text) != [] ==> r == Trim(text)
    ensures Trim(text) == [] && file.Some? ==> r == Paperclip + file.value.name
    ensures r == [] <==> Trim(text) == [] && file.None?
  {
    if Trim(text) != [] then Trim(text)
    else if file.Some? then Paperclip + file.value.name
    else ""
  }

  /** `formData.append('sessionId', sessionId)` turns a null id into the text "null". */
  function SessionField(sessionId: Option<string>): (r: string)
    ensures sessionId.Some? ==> r == sessionId.value
    ensures sessionId.None? ==> r == "null"
  {
    sessionId.GetOr("null")
  }

  // ---------------------------------------------------------------------------
  // Cleaning the reply text

  /** The regular-expression class `[\u0000-\u001F\u007F-\u009F]`. */
  predicate IsControl(c: char) {
    c as int <= 0x1F || (0x7F <= c as int <= 0x9F)
  }

  predicate NoControl(s: string) {
    forall i :: 0 <= i < |s| ==> !IsControl(s[i])
  }

  /** `.replace(/[\u0000-\u001F\u007F-\u009F]/g, '')`. */
  function RemoveControl(s: string): (r: string)
    ensures NoControl(r)
    ensures forall c :: c in r ==> c in s
    ensures forall c :: c in s && !IsControl(c) ==> c in r
    ensures NoControl(s) ==> r == s
    ensures |s| == 1 ==> r == (if IsControl(s[0]) then [] else s)
  {
    if s == [] then []
    else (if IsControl(s[0]) then [] else [s[0]]) + RemoveControl(s[1..])
  }

  /**
   * Removal works character by character and keeps the order: the result for
   * a concatenation is the concatenation of the results. Together with the
   * one-character cases of `RemoveControl`'s contract this determines it.
   */
  lemma {:induction false} RemoveControlAppend(a: string, b: string)
    ensures RemoveControl(a + b) == RemoveControl(a) + RemoveControl(b)
    decreases |a|
  {
    if a == [] {
      assert a + b == b;
    } else {
      assert (a + b)[0] == a[0];
      assert (a + b)[1..] == a[1..] + b;
      RemoveControlAppend(a[1..], b);
    }
  }

  /**
   * A global `replace` of `marker` followed by `\s` repeated, with '': scanning
   * left to right, every occurrence of `marker` is removed together with the
   * whitespace that follows it.
   */
  function StripFence(s: string, marker: string): (r: string)
    requires marker != []
    ensures |r| <= |s|
    ensures forall c :: c in r ==> c in s
    decreases |s|
  {
    if s == [] then []
    else if StartsWith(s, marker) then StripFence(TrimStart(s[|marker|..]), marker)
    else [s[0]] + StripFence(s[1..], marker)
  }

  /** A string that starts with a non-empty pattern starts with its first character. */
  lemma StartsWithHead(s: string, pattern: string)
    requires pattern != []
    ensures StartsWith(s, pattern) ==> s != [] && s[0] == pattern[0]
  {
    if |pattern| <= |s| {
      assert s[..|pattern|][0] == s[0];
    }
  }

  /** Text in which the marker's first character does not occur is kept as it is, in order. */
  lemma {:induction false} StripFenceKeepsPrefix(a: string, b: string, marker: string)
    requires marker != []
    requires forall i :: 0 <= i < |a| ==> a[i] != marker[0]
    ensures StripFence(a + b, marker) == a + StripFence(b, marker)
    decreases |a|
  {
    if a == [] {
      assert a + b == b;
    } else {
      var s := a + b;
      assert s[0] == a[0];
      StartsWithHead(s, marker);
      assert s[1..] == a[1..] + b;
      StripFenceKeepsPrefix(a[1..], b, marker);
    }
  }

  /** A marker and the whitespace run after it are removed, and stripping goes on after them. */
  lemma StripFenceDropsMarker(w: string, b: string, marker: string)
    requires marker != []
    requires AllWhitespace(w) && (b == [] || !IsWhitespace(b[0]))
    ensures StripFence(marker + w + b, marker) == StripFence(b, marker)
  {
    var s := marker + w + b;
    assert s[..|marker|] == marker;
    assert s[|marker|..] == w + b;
    TrimStartOf(w, b);
  }

  /** A string starts with "```" exactly when its first three characters are backticks. */
  lemma StartsWithFence(s: string)
    ensures StartsWith(s, Fence) <==> |s| >= 3 && s[0] == '`' && s[1] == '`' && s[2] == '`'
  {
    if |s| >= 3 {
      assert s[..3] == [s[0], s[1], s[2]];
    }
  }

  /**
   * When `s` does not start with "```", neither does the result of keeping
   * its first character and stripping the rest: the kept backticks are
   * followed by characters of `s` itself.
   */
  lemma FenceNotAtHead(s: string)
    requires s != [] && !StartsWith(s, Fence)
    ensures !StartsWith([s[0]] + StripFence(s[1..], Fence), Fence)
  {
    var t := s[1..];
    var r := [s[0]] + StripFence(t, Fence);
    StartsWithFence(s);
    StartsWithFence(t);
    StartsWithFence(r);
    if s[0] == '`' && t != [] {
      assert StripFence(t, Fence) == [t[0]] + StripFence(t[1..], Fence);
      assert r[1] == t[0];
      if t[0] == '`' {
        var u := t[1..];
        if u != [] {
          StartsWithFence(u);
          assert StripFence(u, Fence) == [u[0]] + StripFence(u[1..], Fence);
          assert r[2] == u[0] == s[2];
        }
      }
    }
  }

  /** Removing every "```" cannot join the remaining backticks into a new "```". */
  lemma {:induction false} StripFenceLeavesNoFence(s: string)
    ensures !Contains(StripFence(s, Fence), Fence)
    decreases |s|
  {
    if s == [] {
    } else if StartsWith(s, Fence) {
      StripFenceLeavesNoFence(TrimStart(s[|Fence|..]));
    } else {
      var t := s[1..];
      StripFenceLeavesNoFence(t);
      var rest := StripFence(t, Fence);
      var r := [s[0]] + rest;
      assert StripFence(s, Fence) == r;
      forall i | 1 <= i <= |r| - |Fence|
        ensures !OccursAt(r, Fence, i)
      {
        assert r[i..i + |Fence|] == rest[i - 1..i - 1 + |Fence|];
        assert OccursAt(r, Fence, i) == OccursAt(rest, Fence, i - 1);
      }
      FenceNotAtHead(s);
      assert !OccursAt(r, Fence, 0);
    }
  }

  /** A string without `marker` is left alone. */
  lemma {:induction false} StripFenceAbsent(s: string, marker: string)
    requires marker != []
    requires !Contains(s, marker)
    ensures StripFence(s, marker) == s
    decreases |s|
  {
    if s != [] {
      assert StartsWith(s, marker) ==> OccursAt(s, marker, 0);
      forall i | 0 <= i <= |s[1..]| - |marker|
        ensures !OccursAt(s[1..], marker, i)
      {
        assert s[1..][i..i + |marker|] == s[i + 1..i + 1 + |marker|];
        assert OccursAt(s[1..], marker, i) == OccursAt(s, marker, i + 1);
      }
      StripFenceAbsent(s[1..], marker);
    }
  }

  /** A string all of whose characters occur in a string free of control characters is free of them. */
  lemma NoControlOfSubset(r: string, s: string)
    requires NoControl(s)
    requires forall c :: c in r ==> c in s
    ensures NoControl(r)
  {
    forall i | 0 <= i < |r|
      ensures !IsControl(r[i])
    {
      assert r[i] in s;
    }
  }

  /**
   * The reply text as it is handed to `JSON.parse`: control characters
   * removed, trimmed, code fences removed, trimmed again.
   */
  function CleanResponse(raw: string): (r: string)
    ensures NoControl(r)
    ensures !Contains(r, Fence) && !Contains(r, JsonFence)
    ensures IsTrimmed(r)
  {
    var noControl := Trim(RemoveControl(raw));
    var noFence := StripFence(StripFence(noControl, JsonFence), Fence);
    var r := Trim(noFence);
    NoControlOfSubset(noControl, RemoveControl(raw));
    NoControlOfSubset(noFence, noControl);
    NoControlOfSubset(r, noFence);
    StripFenceLeavesNoFence(StripFence(noControl, JsonFence));
    TrimKeepsAbsent(noFence, Fence);
    assert !Contains(r, JsonFence) by {
      if Contains(r, JsonFence) { ContainsPrefixOf(r, JsonFence, Fence); }
    }
    r
  }

  /** Cleaning an already cleaned reply changes nothing. */
  lemma CleanResponseIdempotent(raw: string)
    ensures CleanResponse(CleanResponse(raw)) == CleanResponse(raw)
  {
    var t := CleanResponse(raw);
    assert RemoveControl(t) == t;
    TrimOfTrimmed(t);
    StripFenceAbsent(t, JsonFence);
    StripFenceAbsent(t, Fence);
  }

  /**
   * A reply that is plain JSON text (no control characters, no surrounding
   * whitespace, no "```") reaches `JSON.parse` unchanged.
   */
  lemma CleanResponseKeepsPlainReply(body: string)
    requires NoControl(body) && IsTrimmed(body) && !Contains(body, Fence)
    ensures CleanResponse(body) == body
  {
    assert RemoveControl(body) == body;
    assert Trim(body) == body by {
      TrimOfTrimmed(body);
    }
    assert StripFence(body, JsonFence) == body by {
      AbsentOfPrefixAbsent(body, JsonFence, Fence);
      StripFenceAbsent(body, JsonFence);
    }
    assert StripFence(body, Fence) == body by {
      StripFenceAbsent(body, Fence);
    }
  }

  /**
   * A reply wrapped in a "```json" code block reaches `JSON.parse` as exactly
   * the JSON text inside it, provided that text has no control characters,
   * no surrounding whitespace and no backticks.
   */
  lemma CleanResponseUnwrapsFencedJson(body: string)
    requires NoControl(body) && IsTrimmed(body)
    requires forall i :: 0 <= i < |body| ==> body[i] != '`'
    ensures CleanResponse("```json\n" + body + "\n```") == body
  {
    var raw := "```json\n" + body + "\n```";
    assert raw == JsonFence + "\n" + body + "\n" + Fence;
    assert NoControl(JsonFence) && NoControl(Fence) && IsControl('\n');
    BlockRemoveControl(JsonFence, body, Fence, '\n');
    var noControl := JsonFence + body + Fence;
    assert noControl[0] == '`' && noControl[|noControl| - 1] == '`';
    TrimOfTrimmed(noControl);
    assert !Contains(Fence, JsonFence);
    BlockStripFence(JsonFence, body, Fence);
    TrimOfTrimmed(body);
  }

  /** Control characters around the body of a block are removed, and nothing else is. */
  lemma BlockRemoveControl(open: string, body: string, close: string, c: char)
    requires NoControl(open) && NoControl(body) && NoControl(close) && IsControl(c)
    ensures RemoveControl(open + [c] + body + [c] + close) == open + body + close
  {
    var inner := body + ([c] + close);
    RegroupFive(open, [c], body, [c], close);
    assert RemoveControl(inner) == body + close by {
      KeepThenDrop(body, c, close);
    }
    assert RemoveControl(open + ([c] + inner)) == open + (body + close) by {
      KeepThenDrop(open, c, inner);
    }
    assert open + (body + close) == open + body + close;
  }

  /** Concatenation of five strings, regrouped to the right. */
  lemma RegroupFive(a: string, b: string, c: string, d: string, e: string)
    ensures a + b + c + d + e == a + (b + (c + (d + e)))
  {
  }

  /** A run without control characters followed by one control character. */
  lemma KeepThenDrop(a: string, c: char, b: string)
    requires NoControl(a) && IsControl(c)
    ensures RemoveControl(a + ([c] + b)) == a + RemoveControl(b)
  {
    RemoveControlKeeps(a, [c] + b);
    RemoveControlDrops(c, b);
  }

  /** A leading control character is dropped. */
  lemma RemoveControlDrops(c: char, s: string)
    requires IsControl(c)
    ensures RemoveControl([c] + s) == RemoveControl(s)
  {
    assert ([c] + s)[0] == c;
    assert ([c] + s)[1..] == s;
  }

  /** A leading run without control characters is kept as it is. */
  lemma RemoveControlKeeps(a: string, b: string)
    requires NoControl(a)
    ensures RemoveControl(a + b) == a + RemoveControl(b)
  {
    RemoveControlAppend(a, b);
  }

  /**
   * Stripping the opening marker and then the closing marker of a block
   * leaves its body, when the body holds neither marker's first character.
   */
  lemma BlockStripFence(open: string, body: string, close: string)
    requires open != [] && close != [] && !IsWhitespace(close[0]) && !Contains(close, open)
    requires IsTrimmed(body)
    requires forall i :: 0 <= i < |body| ==> body[i] != open[0] && body[i] != close[0]
    ensures StripFence(StripFence(open + body + close, open), close) == body
  {
    OpeningMarkerStripped(open, body, close);
    ClosingMarkerStripped(body, close);
  }

  /** The opening marker goes; the body and the closing marker stay. */
  lemma OpeningMarkerStripped(open: string, body: string, close: string)
    requires open != [] && close != [] && !IsWhitespace(close[0]) && !Contains(close, open)
    requires IsTrimmed(body)
    requires forall i :: 0 <= i < |body| ==> body[i] != open[0]
    ensures StripFence(open + body + close, open) == body + close
  {
    var tail := body + close;
    assert open + body + close == open + [] + tail;
    assert tail[0] == (if body == [] then close[0] else body[0]);
    StripFenceDropsMarker([], tail, open);
    StripFenceKeepsPrefix(body, close, open);
    StripFenceAbsent(close, open);
  }

  /** A closing marker at the end goes, and the body before it stays. */
  lemma ClosingMarkerStripped(body: string, close: string)
    requires close != []
    requires forall i :: 0 <= i < |body| ==> body[i] != close[0]
    ensures StripFence(body + close, close) == body
  {
    StripFenceKeepsPrefix(body, close, close);
    assert close + [] + [] == close;
    StripFenceDropsMarker([], [], close);
    assert body + [] == body;
  }

  // ---------------------------------------------------------------------------
  // The structured response

  /** The object shown when the cleaned reply is not valid JSON. */
  function ParseFallback(raw: string): Json {
    JObject([
      Field("safety_alert", JBool(false)),
      Field("warm_opening", JString(raw)),
      Field("key_insights", JArray([])),
      Field("guiding_question", JString("")),
      Field("suggested_replies", JArray([]))
    ])
  }

  /** The fallback carries no alert, the raw reply as its opening, and empty lists and question. */
  lemma ParseFallbackFields(raw: string)
    ensures FieldValue(ParseFallback(raw), "safety_alert") == Some(JBool(false))
    ensures FieldValue(ParseFallback(raw), "warm_opening") == Some(JString(raw))
    ensures FieldValue(ParseFallback(raw), "key_insights") == Some(JArray([]))
    ensures FieldValue(ParseFallback(raw), "guiding_question") == Some(JString(""))
    ensures FieldValue(ParseFallback(raw), "suggested_replies") == Some(JArray([]))
  {
    var f0 := ParseFallback(raw).fields;
    var f1 := f0[1..];
    var f2 := f1[1..];
    var f3 := f2[1..];
    var f4 := f3[1..];
    assert f0[0].key == "safety_alert" && f1[0].key == "warm_opening" && f2[0].key == "key_insights";
    assert f3[0].key == "guiding_question" && f4[0].key == "suggested_replies";
    assert "safety_alert"[0] == 's' && "warm_opening"[0] == 'w' && "key_insights"[0] == 'k';
    assert "guiding_question"[0] == 'g' && "suggested_replies"[1] == 'u' && "safety_alert"[1] == 'a';
    assert FieldIn(f4, "suggested_replies") == Some(JArray([]));
    assert FieldIn(f3, "suggested_replies") == FieldIn(f4, "suggested_replies");
    assert FieldIn(f2, "suggested_replies") == FieldIn(f3, "suggested_replies");
    assert FieldIn(f1, "suggested_replies") == FieldIn(f2, "suggested_replies");
    assert FieldIn(f3, "guiding_question") == Some(JString(""));
    assert FieldIn(f2, "guiding_question") == FieldIn(f3, "guiding_question");
    assert FieldIn(f1, "guiding_question") == FieldIn(f2, "guiding_question");
    assert FieldIn(f2, "key_insights") == Some(JArray([]));
    assert FieldIn(f1, "key_insights") == FieldIn(f2, "key_insights");
    assert FieldIn(f1, "warm_opening") == Some(JString(raw));
    assert FieldIn(f0, "warm_opening") == FieldIn(f1, "warm_opening");
  }

  /** The value of the first field named `key`, if `v` is an object that has one. */
  function FieldValue(v: Json, key: string): Option<Json> {
    if v.JObject? then FieldIn(v.fields, key) else None
  }

  function FieldIn(fields: seq<Field>, key: string): Option<Json> {
    if fields == [] then None
    else if fields[0].key == key then Some(fields[0].value)
    else FieldIn(fields[1..], key)
  }

  /**
   * `structuredResponse`: a string reply is cleaned and parsed, and on a parse
   * failure replaced by the fallback object around the raw uncleaned text;
   * any other value is used as it is.
   */
  function StructuredResponse(raw: Option<Json>, parse: Parser): (r: Option<Json>)
    ensures !(raw.Some? && raw.value.JString?) ==> r == raw
    ensures raw.Some? && raw.value.JString? && parse(CleanResponse(raw.value.s)).Some? ==>
              r == parse(CleanResponse(raw.value.s))
    ensures raw.Some? && raw.value.JString? && parse(CleanResponse(raw.value.s)).None? ==>
              r == Some(ParseFallback(raw.value.s))
  {
    match raw
    case Some(JString(s)) =>
      (match parse(CleanResponse(s))
       case Some(v) => Some(v)
       case None => Some(ParseFallback(s)))
    case _ => raw
  }

  /** The bot message a send appends: the structured reply, or the apology when the request failed. */
  function BotMessageFor(outcome: FetchOutcome, parse: Parser): (m: Message)
    ensures m.ErrorMessage? <==> outcome.Failed?
    ensures m.ErrorMessage? ==> m.text == Apology
    ensures m.BotMessage? ==> m.content == StructuredResponse(outcome.chatbotResponse, parse)
    ensures outcome.Delivered? ==> m == BotMessage(StructuredResponse(outcome.chatbotResponse, parse))
  {
    match outcome
    case Failed => ErrorMessage(Apology)
    case Delivered(raw) => BotMessage(StructuredResponse(raw, parse))
  }

  // ---------------------------------------------------------------------------
  // The page state

  /** The `messages`, `isLoading` and `sessionId` state of the chat page. */
  class Page {
    var messages: seq<Message>
    var isLoading: bool
    var sessionId: Option<string>

    constructor ()
      ensures messages == [] && !isLoading && sessionId == None
    {
      messages, isLoading, sessionId := [], false, None;
    }

    /** The mount effect stores a generated session id (the generator is a parameter). */
    method Mount(generated: string)
      modifies this
      ensures sessionId == Some(generated)
      ensures messages == old(messages) && isLoading == old(isLoading)
    {
      sessionId := Some(generated);
    }

    /**
     * The part of `handleSendMessage` before `await fetch`: unless the guard
     * stops it, append the user message, set `isLoading` and build the form.
     * Returns the form to post, or None for an ignored send. The page is then
     * pending until `FinishSend` runs.
     */
    method StartSend(text: string, file: Option<FileInfo>) returns (sent: Option<ChatForm>)
      modifies this
      ensures sessionId == old(sessionId)
      ensures IsIgnoredSend(text, file, old(isLoading)) ==>
                sent.None? && messages == old(messages) && isLoading == old(isLoading)
      ensures !IsIgnoredSend(text, file, old(isLoading)) ==>
                sent == Some(ChatForm(text, SessionField(sessionId), file)) &&
                messages == old(messages) + [UserMessage(UserText(text, file), file)] &&
                isLoading
    {
      if IsIgnoredSend(text, file, isLoading) {
        return None;
      }
      var userMessage := UserMessage(UserText(text, file), file);
      messages := messages + [userMessage];
      isLoading := true;
      sent := Some(ChatForm(text, SessionField(sessionId), file));
    }

    /**
     * The part after `await fetch`: append the bot message for the outcome
     * (the structured reply, or the apology) and, in `finally`, clear `isLoading`.
     */
    method FinishSend(outcome: FetchOutcome, parse: Parser)
      modifies this
      ensures sessionId == old(sessionId)
      ensures messages == old(messages) + [BotMessageFor(outcome, parse)]
      ensures !isLoading
    {
      var botMessage := BotMessageFor(outcome, parse);
      messages := messages + [botMessage];
      isLoading := false;
    }

    /**
     * `handleSendMessage` run to completion with no other event while the
     * request is pending: unless the guard stops it, append the user message,
     * post the form, append exactly one bot message and clear `isLoading`.
     * Returns the form that was posted, or None for an ignored send.
     */
    method SendMessage(text: string, file: Option<FileInfo>, fetch: Fetcher, parse: Parser)
      returns (sent: Option<ChatForm>)
      modifies this
      ensures sessionId == old(sessionId)
      ensures IsIgnoredSend(text, file, old(isLoading)) ==>
                sent.None? && messages == old(messages) && isLoading == old(isLoading)
      ensures !IsIgnoredSend(text, file, old(isLoading)) ==>
                sent == Some(ChatForm(text, SessionField(sessionId), file)) &&
                messages == old(messages) + [UserMessage(UserText(text, file), file), BotMessageFor(fetch(sent.value), parse)] &&
                !isLoading
    {
      sent := StartSend(text, file);
      if sent.Some? {
        FinishSend(fetch(sent.value), parse);
      }
    }

    /**
     * A second send made while the first one awaits its reply is dropped by
     * the `isLoading` guard: only the first send's user message and bot
     * message are appended, and only its form is posted.
     */
    method SendDuringPendingIgnored(text: string, file: Option<FileInfo>, again: string, againFile: Option<FileInfo>,
                                    fetch: Fetcher, parse: Parser)
      returns (first: Option<ChatForm>, second: Option<ChatForm>)
      requires !isLoading && (text != [] || file.Some?)
      modifies this
      ensures first == Some(ChatForm(text, SessionField(sessionId), file)) && second.None?
      ensures messages == old(messages) + [UserMessage(UserText(text, file), file), BotMessageFor(fetch(first.value), parse)]
      ensures !isLoading && sessionId == old(sessionId)
    {
      ghost var user := UserMessage(UserText(text, file), file);
      first := StartSend(text, file);
      ghost var pending := messages;
      assert pending == old(messages) + [user] && isLoading;
      second := StartSend(again, againFile);
      assert messages == pending;
      FinishSend(fetch(first.value), parse);
    }
  }
}
