/**
  The root chat page script (script.js): its HTML escaper, the decisions taken by
  `sendMessage` (whether to send, what to send, which bot bubble to show), and the
  sign-in state kept in `idToken` and `currentUser`.

  The DOM, `fetch` and `jwt_decode` are not modelled; what they produce is an input.
 */
module Client {
  import opened Wrappers
  import JsString
  import Server

  // ---------------------------------------------------------------------------
  // escapeHtml
  // ---------------------------------------------------------------------------

  /** The characters matched by `/[&<>"'`]/g`. */
  predicate Special(c: char) {
    c == '&' || c == '<' || c == '>' || c == '"' || c == '\'' || c == '`'
  }

  /** The characters that can open a tag or end an attribute value. */
  predicate Unsafe(c: char) {
    c == '<' || c == '>' || c == '"' || c == '\'' || c == '`'
  }

  /** One step of the replacement: a special character becomes its entity from the
      lookup table, which starts with `&` and contains no unsafe character; any
      other character is kept. */
  function EscapeChar(c: char): (r: string)
    ensures !Special(c) ==> r == [c]
    ensures Special(c) ==> |r| >= 4 && r[0] == '&' && r[|r| - 1] == ';'
    ensures forall i :: 0 <= i < |r| ==> !Unsafe(r[i])
  {
    match c
    case '&' => "&amp;"
    case '<' => "&lt;"
    case '>' => "&gt;"
    case '"' => "&quot;"
    case '\'' => "&#39;"
    case '`' => "&#96;"
    case _ => [c]
  }

  /** `s.replace(/[&<>"'`]/g, …)`: every character replaced through `EscapeChar`, in
      order. The result is at least as long as `s` and holds no unsafe character. */
  function EscapeText(s: string): (r: string)
    ensures |r| >= |s|
    ensures forall i :: 0 <= i < |r| ==> !Unsafe(r[i])
  {
    if s == [] then []
    else
      var head, tail := EscapeChar(s[0]), EscapeText(s[1..]);
      assert forall i :: |head| <= i < |head| + |tail| ==> (head + tail)[i] == tail[i - |head|];
      head + tail
  }

  /** `escapeHtml(s)`: `null`, `undefined` and the empty string give `''`; any other
      string is escaped. */
  function EscapeHtml(s: Option<string>): (r: string)
    ensures s.None? || s == Some("") ==> r == ""
    ensures s.Some? ==> r == EscapeText(s.value)
  {
    if s.None? || s.value == "" then "" else EscapeText(s.value)
  }

  /** Escaping distributes over concatenation. */
  lemma {:induction false} EscapeTextConcat(a: string, b: string)
    ensures EscapeText(a + b) == EscapeText(a) + EscapeText(b)
    decreases |a|
  {
    if a == [] {
      assert a + b == b;
    } else {
      assert (a + b)[0] == a[0];
      assert (a + b)[1..] == a[1..] + b;
      EscapeTextConcat(a[1..], b);
    }
  }

  /** `escapeHtml(a + b) == escapeHtml(a) + escapeHtml(b)` for any two strings. */
  lemma EscapeHtmlConcat(a: string, b: string)
    ensures EscapeHtml(Some(a + b)) == EscapeHtml(Some(a)) + EscapeHtml(Some(b))
  {
    EscapeTextConcat(a, b);
  }

  /** Escaping a string with a special character makes it strictly longer. */
  lemma {:induction false} EscapeTextGrows(s: string)
    requires exists i :: 0 <= i < |s| && Special(s[i])
    ensures |EscapeText(s)| > |s|
    decreases |s|
  {
    if !Special(s[0]) {
      var i :| 0 <= i < |s| && Special(s[i]);
      assert Special(s[1..][i - 1]);
      EscapeTextGrows(s[1..]);
    }
  }

  /** Escaping leaves a string unchanged exactly when it has no special character. */
  lemma {:induction false} EscapeTextUnchanged(s: string)
    ensures EscapeText(s) == s <==> forall i :: 0 <= i < |s| ==> !Special(s[i])
    decreases |s|
  {
    if forall i :: 0 <= i < |s| ==> !Special(s[i]) {
      if s != [] {
        assert forall i :: 0 <= i < |s[1..]| ==> !Special(s[1..][i]);
        EscapeTextUnchanged(s[1..]);
        assert s == [s[0]] + s[1..];
      }
    } else {
      EscapeTextGrows(s);
    }
  }

  /** The decoder for the six entities: each entity becomes its character again,
      every other character is copied. */
  function Unescape(t: string): string
    decreases |t|
  {
    if t == [] then []
    else if t[0] != '&' then [t[0]] + Unescape(t[1..])
    else if "&amp;" <= t then "&" + Unescape(t[5..])
    else if "&lt;" <= t then "<" + Unescape(t[4..])
    else if "&gt;" <= t then ">" + Unescape(t[4..])
    else if "&quot;" <= t then "\"" + Unescape(t[6..])
    else if "&#39;" <= t then "'" + Unescape(t[5..])
    else if "&#96;" <= t then "`" + Unescape(t[5..])
    else [t[0]] + Unescape(t[1..])
  }

  /** The decoder reads one escaped character off the front of `EscapeChar(c) + rest`. */
  lemma UnescapeStep(c: char, rest: string)
    ensures Unescape(EscapeChar(c) + rest) == [c] + Unescape(rest)
  {
    var e := EscapeChar(c);
    var t := e + rest;
    assert t[..|e|] == e && t[|e|..] == rest;
    if Special(c) {
      assert t[0] == '&' && t[1] == e[1] && t[2] == e[2];
    } else {
      assert t[0] == c;
    }
  }

  /** The entities are distinct and each starts with `&`, which is itself escaped,
      so decoding an escaped string gives back the original. */
  lemma {:induction false} UnescapeEscape(s: string)
    ensures Unescape(EscapeText(s)) == s
    decreases |s|
  {
    if s != [] {
      UnescapeStep(s[0], EscapeText(s[1..]));
      UnescapeEscape(s[1..]);
    }
  }

  /** Escaping is injective: two texts that render alike were alike. */
  lemma EscapeTextInjective(a: string, b: string)
    requires EscapeText(a) == EscapeText(b)
    ensures a == b
  {
    UnescapeEscape(a);
    UnescapeEscape(b);
  }

  // ---------------------------------------------------------------------------
  // sendMessage
  // ---------------------------------------------------------------------------

  const NoReply := "No reply from server."
  const NetworkError := "Network/server error. Try again later."
  const ErrorPrefix := "Error: "

  /** The JSON body posted to `/api/chat`: `{ message }` plus `id_token` when present. */
  datatype ChatRequest = ChatRequest(message: string, idToken: Option<string>)

  /** `body = { message: txt }; if (idToken && saveToggle.checked) body.id_token = idToken`. */
  function RequestBody(text: string, idToken: Option<string>, saveChecked: bool): (r: ChatRequest)
    ensures r.message == text
    ensures r.idToken.Some? <==> idToken.Some? && idToken.value != "" && saveChecked
    ensures r.idToken.Some? ==> r.idToken == idToken
  {
    if idToken.Some? && idToken.value != "" && saveChecked then ChatRequest(text, idToken)
    else ChatRequest(text, None)
  }

  /** The fields `data.reply` and `data.error` of the parsed answer. */
  datatype ReplyData = ReplyData(reply: Option<string>, error: Option<string>)

  /** What `fetch` and `res.json()` produced: a parsed answer (`null` being `None`),
      or an exception from either call. */
  datatype FetchOutcome = Answered(data: Option<ReplyData>) | Threw

  /** The text of the bot bubble: the reply if it is truthy, else `'Error: '` and the
      error if that is truthy, else the no-reply text; the network text if anything threw.
      It is never empty. */
  function BotBubbleText(outcome: FetchOutcome): (r: string)
    ensures r != ""
    ensures outcome.Threw? ==> r == NetworkError
    ensures (outcome.Answered? && outcome.data.Some? && outcome.data.value.reply.Some?
             && outcome.data.value.reply.value != "") ==> r == outcome.data.value.reply.value
    ensures (outcome.Answered? && outcome.data.Some?
             && !(outcome.data.value.reply.Some? && outcome.data.value.reply.value != "")
             && outcome.data.value.error.Some? && outcome.data.value.error.value != "")
            ==> r == ErrorPrefix + outcome.data.value.error.value
    ensures (outcome.Answered?
             && !(outcome.data.Some? && outcome.data.value.reply.Some? && outcome.data.value.reply.value != "")
             && !(outcome.data.Some? && outcome.data.value.error.Some? && outcome.data.value.error.value != ""))
            ==> r == NoReply
  {
    match outcome
    case Threw => NetworkError
    case Answered(data) =>
      if data.Some? && data.value.reply.Some? && data.value.reply.value != "" then
        data.value.reply.value
      else if data.Some? && data.value.error.Some? && data.value.error.value != "" then
        ErrorPrefix + data.value.error.value
      else
        NoReply
  }

  datatype Who = UserBubble | BotBubble

  datatype Bubble = Bubble(text: string, who: Who)

  /** One `sendMessage` call: nothing at all when the trimmed input is empty; otherwise
      the request that is posted and the bubbles left on screen (the typing bubble is
      removed again). */
  datatype Turn = Skipped | Sent(request: ChatRequest, bubbles: seq<Bubble>)

  /** `sendMessage`: no request and no bubble when the input is all white space;
      otherwise the trimmed text is sent and shown as the user's bubble, followed by
      exactly one bot bubble. */
  function SendMessage(input: string, idToken: Option<string>, saveChecked: bool,
                       outcome: FetchOutcome): (r: Turn)
    ensures r.Skipped? <==> JsString.AllWhitespace(input)
    ensures r.Sent? ==>
      && r.request == RequestBody(JsString.Trim(input), idToken, saveChecked)
      && r.request.message != ""
      && r.bubbles == [Bubble(r.request.message, UserBubble), Bubble(BotBubbleText(outcome), BotBubble)]
  {
    var txt := JsString.Trim(input);
    if txt == "" then Skipped
    else Sent(RequestBody(txt, idToken, saveChecked),
              [Bubble(txt, UserBubble), Bubble(BotBubbleText(outcome), BotBubble)])
  }

  // ---------------------------------------------------------------------------
  // The client against the server's answers
  // ---------------------------------------------------------------------------

  /** The fields the client reads from a server answer's JSON body. */
  function AnswerData(resp: Server.Response): (d: ReplyData)
    ensures resp.body.ReplyBody? <==> d.reply.Some?
    ensures resp.body.ErrorBody? || resp.body.ErrorDetailsBody? <==> d.error.Some?
    ensures resp.body.ReplyBody? ==> d == ReplyData(Some(resp.body.reply), None)
    ensures resp.body.ErrorBody? || resp.body.ErrorDetailsBody? ==> d == ReplyData(None, Some(resp.body.error))
  {
    match resp.body
    case ReplyBody(reply) => ReplyData(Some(reply), None)
    case ErrorBody(error) => ReplyData(None, Some(error))
    case ErrorDetailsBody(error, _) => ReplyData(None, Some(error))
    case HistoryBody(_) => ReplyData(None, None)
  }

  /** The `id_token` field as the server sees it. */
  function TokenField(idToken: Option<string>): Server.JsField {
    match idToken
    case None => Server.Missing
    case Some(t) => Server.Str(t)
  }

  /** A message this client sends always passes the server's 400 guard, and the bot
      bubble then shows the provider's reply (or the server's fallback text), or
      "Error: " with the server's error; never the no-reply text. */
  lemma SentMessageBubble(input: string, idToken: Option<string>, saveChecked: bool,
                          provider: Server.ProviderResult)
    requires !JsString.AllWhitespace(input)
    ensures var req := RequestBody(JsString.Trim(input), idToken, saveChecked);
      var resp := Server.ChatResponse(Server.Str(req.message), provider);
      && Server.IsMessage(Server.Str(req.message))
      && BotBubbleText(Answered(Some(AnswerData(resp)))) == match provider
           case ProviderOk(content) => Server.ReplyText(content)
           case ProviderNotOk(_) => ErrorPrefix + Server.ProviderError
           case ProviderThrew => ErrorPrefix + Server.ServerError
  {
  }

  /** With the save toggle off, the request carries no token, so the server stores
      nothing for that message whatever the verifier would have said. */
  lemma SaveToggleOffStoresNothing(input: string, idToken: Option<string>,
                                   verdict: Option<Server.Payload>, provider: Server.ProviderResult,
                                   dir: Server.DataDir, userTime: string, botTime: string)
    ensures var req := RequestBody(JsString.Trim(input), idToken, false);
      Server.ChatDir(dir, Server.Str(req.message),
                     Server.SignedInEmail(Server.VerifyGoogleToken(TokenField(req.idToken), verdict)),
                     provider, userTime, botTime) == dir
  {
  }

  // ---------------------------------------------------------------------------
  // Sign-in state
  // ---------------------------------------------------------------------------

  /** The decoded credential; only the greeting uses it (`decoded.name`). */
  datatype Claims = Claims(name: string)

  /** The module variables `idToken` and `currentUser`. */
  datatype Session = Session(idToken: Option<string>, currentUser: Option<Claims>)

  /** `handleCredentialResponse`: a missing or empty credential changes nothing; any
      other credential becomes the token; the user is replaced only when `jwt_decode`
      succeeds (`decoded`), and otherwise stays what it was. */
  function HandleCredentialResponse(s: Session, credential: Option<string>,
                                    decoded: Option<Claims>): (r: Session)
    ensures credential.None? || credential == Some("") ==> r == s
    ensures credential.Some? && credential.value != "" ==>
      && r.idToken == credential
      && r.currentUser == (if decoded.Some? then decoded else s.currentUser)
  {
    if credential.None? || credential.value == "" then s
    else Session(credential, if decoded.Some? then decoded else s.currentUser)
  }

  /** The logout handler clears both variables. */
  function Logout(s: Session): (r: Session)
    ensures r.idToken.None? && r.currentUser.None?
  {
    Session(None, None)
  }

  /** After a sign-in, a message sent with the save toggle on carries the new token;
      after a logout no message carries a token. */
  lemma TokenFollowsSession(s: Session, credential: string, decoded: Option<Claims>, text: string)
    requires credential != ""
    ensures RequestBody(text, HandleCredentialResponse(s, Some(credential), decoded).idToken, true).idToken
      == Some(credential)
    ensures forall save: bool :: RequestBody(text, Logout(s).idToken, save).idToken.None?
  {
  }
}
