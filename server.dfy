/**
  The chat backend (my-ai-site/server.js): the per-user history files in the data
  directory, Google sign-in as an oracle, and the `/api/chat` and `/api/history`
  handlers as step-by-step methods on an object that owns the data directory.

  Everything outside the process is an input: the identity verifier's verdict on a
  token, the completion provider's answer, and the record timestamps.
 */
module Server {
  import opened Wrappers

  // ---------------------------------------------------------------------------
  // Data model
  // ---------------------------------------------------------------------------

  datatype Role = User | Bot

  /** One stored chat turn, `{ role, text, time }`; `time` is an opaque ISO-8601 string. */
  datatype Record = Record(role: Role, text: string, time: string)

  /** What one history file holds: a JSON array of records, or text that
      `JSON.parse` rejects (a file damaged outside this program). */
  datatype HistoryFile = Records(records: seq<Record>) | Unparseable

  /** The data directory: file name to file content. */
  type DataDir = map<string, HistoryFile>

  /** A field of a JSON request body, as far as the handlers inspect it: absent,
      a string, or some other JSON value together with its JavaScript truthiness. */
  datatype JsField = Missing | Str(s: string) | Other(truthy: bool)

  /** The verified token payload; only its `email` claim is used by the server. */
  datatype Payload = Payload(email: Option<string>)

  /** What the completion provider's HTTP exchange produced: a non-2xx response
      with its body text, a 2xx response whose JSON had `choices[0].message.content`
      (or not), or an exception (network failure, or a body that is not JSON). */
  datatype ProviderResult =
    | ProviderNotOk(errText: string)
    | ProviderOk(content: Option<string>)
    | ProviderThrew

  datatype Body =
    | ReplyBody(reply: string)
    | ErrorBody(error: string)
    | ErrorDetailsBody(error: string, details: string)
    | HistoryBody(history: seq<Record>)

  /** An HTTP answer: status code and JSON body. */
  datatype Response = Response(status: nat, body: Body)

  const FileExtension := ".json"
  const NoMessage := "No message provided"
  const ProviderError := "OpenAI API error"
  const ServerError := "Server error"
  const NoReplyFallback := "Sorry, I couldn't get a reply."
  const InvalidToken := "Invalid token"
  const LoadFailed := "Failed to load history"

  /** JavaScript truthiness of a body field. */
  predicate Truthy(v: JsField) {
    match v
    case Missing => false
    case Str(s) => s != ""
    case Other(t) => t
  }

  /** The `/api/chat` guard `!message || typeof message !== 'string'` fails exactly
      for a non-empty string. */
  predicate IsMessage(message: JsField) {
    message.Str? && message.s != ""
  }

  // ---------------------------------------------------------------------------
  // File names
  // ---------------------------------------------------------------------------

  /** The allow-list of `/[^a-z0-9@._-]/gi`: with the `i` flag both letter cases pass. */
  predicate FilenameChar(c: char) {
    || ('a' <= c <= 'z') || ('A' <= c <= 'Z') || ('0' <= c <= '9')
    || c == '@' || c == '.' || c == '_' || c == '-'
  }

  /** `safeEmailToFilename`: same length, every allowed character kept in place,
      every other character replaced by `_`; the result is all allowed characters. */
  function SafeEmailToFilename(email: string): (r: string)
    ensures |r| == |email|
    ensures forall i :: 0 <= i < |email| ==>
      r[i] == if FilenameChar(email[i]) then email[i] else '_'
    ensures forall i :: 0 <= i < |r| ==> FilenameChar(r[i])
  {
    if email == [] then []
    else [if FilenameChar(email[0]) then email[0] else '_'] + SafeEmailToFilename(email[1..])
  }

  /** Sanitising an already sanitised name changes nothing. */
  lemma SafeEmailToFilenameIdempotent(email: string)
    ensures SafeEmailToFilename(SafeEmailToFilename(email)) == SafeEmailToFilename(email)
  {
    var r := SafeEmailToFilename(email);
    assert forall i :: 0 <= i < |r| ==> SafeEmailToFilename(r)[i] == r[i];
  }

  /** The sanitiser keeps exactly the strings made of allowed characters. */
  lemma SafeEmailToFilenameFixedPoints(email: string)
    ensures SafeEmailToFilename(email) == email <==>
      forall i :: 0 <= i < |email| ==> FilenameChar(email[i])
  {
    if forall i :: 0 <= i < |email| ==> FilenameChar(email[i]) {
      assert forall i :: 0 <= i < |email| ==> SafeEmailToFilename(email)[i] == email[i];
    }
  }

  /** Distinct addresses can share a file: the sanitiser is not injective. */
  lemma FilenameCollision()
    ensures "a+b@x.io" != "a/b@x.io"
    ensures SafeEmailToFilename("a+b@x.io") == SafeEmailToFilename("a/b@x.io")
  {
    var a, b := SafeEmailToFilename("a+b@x.io"), SafeEmailToFilename("a/b@x.io");
    assert forall i :: 0 <= i < |a| ==> a[i] == b[i];
  }

  /** The history file of an address. */
  function FileName(email: string): string {
    SafeEmailToFilename(email) + FileExtension
  }

  // ---------------------------------------------------------------------------
  // History store
  // ---------------------------------------------------------------------------

  /** Reading a history file: a missing file reads as the empty history, a file
      that does not parse reads as `None`. */
  function ReadHistory(dir: DataDir, name: string): Option<seq<Record>> {
    if name !in dir then Some([])
    else match dir[name]
      case Records(rs) => Some(rs)
      case Unparseable => None
  }

  /** The data directory after `saveUserMessage(email, record)`: an empty email,
      or a file that does not parse (the `catch`), leaves everything as it was;
      otherwise the address's history gains `record` at its end. No other file
      changes in any case. */
  function SavedDir(dir: DataDir, email: string, record: Record): (r: DataDir)
    ensures r - {FileName(email)} == dir - {FileName(email)}
    ensures email == "" || ReadHistory(dir, FileName(email)).None? ==> r == dir
    ensures email != "" && ReadHistory(dir, FileName(email)).Some? ==>
      ReadHistory(r, FileName(email)) == Some(ReadHistory(dir, FileName(email)).value + [record])
  {
    var name := FileName(email);
    if email == "" then dir
    else match ReadHistory(dir, name)
      case None => dir
      case Some(arr) => dir[name := Records(arr + [record])]
  }

  /** Every readable history of `d0` is still readable in `d1` and has only grown
      at its end. */
  ghost predicate AppendOnly(d0: DataDir, d1: DataDir) {
    forall name :: ReadHistory(d0, name).Some? ==>
      && ReadHistory(d1, name).Some?
      && ReadHistory(d0, name).value <= ReadHistory(d1, name).value
  }

  lemma AppendOnlyTransitive(d0: DataDir, d1: DataDir, d2: DataDir)
    requires AppendOnly(d0, d1) && AppendOnly(d1, d2)
    ensures AppendOnly(d0, d2)
  {
    forall name | ReadHistory(d0, name).Some?
      ensures ReadHistory(d2, name).Some?
      ensures ReadHistory(d0, name).value <= ReadHistory(d2, name).value
    {
      var a, b, c := ReadHistory(d0, name).value, ReadHistory(d1, name).value, ReadHistory(d2, name).value;
      assert a == b[..|a|] && b == c[..|b|];
      assert a == c[..|a|];
    }
  }

  /** A save never rewrites or shortens any history. */
  lemma SavedDirAppendOnly(dir: DataDir, email: string, record: Record)
    ensures AppendOnly(dir, SavedDir(dir, email, record))
  {
    var r := SavedDir(dir, email, record);
    forall name | ReadHistory(dir, name).Some?
      ensures ReadHistory(r, name).Some?
      ensures ReadHistory(dir, name).value <= ReadHistory(r, name).value
    {
      if name != FileName(email) {
        assert name in r <==> name in (r - {FileName(email)});
        assert name in dir <==> name in (dir - {FileName(email)});
        assert name in r ==> r[name] == (r - {FileName(email)})[name];
      }
    }
  }

  /** The data directory after saving `records` one after another for one address. */
  function SavedAll(dir: DataDir, email: string, records: seq<Record>): DataDir
    decreases |records|
  {
    if records == [] then dir
    else SavedAll(SavedDir(dir, email, records[0]), email, records[1..])
  }

  /** Sequential saves for one readable address read back as exactly those records,
      in save order, after what was there before. */
  lemma {:induction false} SavedAllReadsBack(dir: DataDir, email: string, records: seq<Record>)
    requires email != "" && ReadHistory(dir, FileName(email)).Some?
    ensures ReadHistory(SavedAll(dir, email, records), FileName(email))
      == Some(ReadHistory(dir, FileName(email)).value + records)
    decreases |records|
  {
    if records != [] {
      var before := ReadHistory(dir, FileName(email)).value;
      var d1 := SavedDir(dir, email, records[0]);
      assert ReadHistory(d1, FileName(email)) == Some(before + [records[0]]);
      SavedAllReadsBack(d1, email, records[1..]);
      assert SavedAll(dir, email, records) == SavedAll(d1, email, records[1..]);
      assert (before + [records[0]]) + records[1..] == before + records;
    } else {
      assert ReadHistory(dir, FileName(email)).value + records == ReadHistory(dir, FileName(email)).value;
    }
  }

  // ---------------------------------------------------------------------------
  // Identity and provider
  // ---------------------------------------------------------------------------

  /** `verifyGoogleToken`: no token (any falsy value) yields no payload without asking
      the verifier; otherwise the result is the verifier's `verdict`, which is `None`
      for a token it rejects. */
  function VerifyGoogleToken(idToken: JsField, verdict: Option<Payload>): (r: Option<Payload>)
    ensures !Truthy(idToken) ==> r == None
    ensures Truthy(idToken) ==> r == verdict
  {
    if !Truthy(idToken) then None else verdict
  }

  /** The address both handlers key on: present only when a payload exists and its
      `email` claim is truthy. */
  function SignedInEmail(payload: Option<Payload>): (r: Option<string>)
    ensures r.Some? <==> payload.Some? && payload.value.email.Some? && payload.value.email.value != ""
    ensures r.Some? ==> r.value != "" && r == payload.value.email
  {
    match payload
    case Some(Payload(Some(e))) => if e != "" then Some(e) else None
    case _ => None
  }

  /** `data?.choices?.[0]?.message?.content || "Sorry, I couldn't get a reply."`:
      never empty, and the provider's text whenever that text is non-empty. */
  function ReplyText(content: Option<string>): (r: string)
    ensures r != ""
    ensures content.Some? && content.value != "" ==> r == content.value
    ensures content.None? || content == Some("") ==> r == NoReplyFallback
  {
    if content.Some? && content.value != "" then content.value else NoReplyFallback
  }

  // ---------------------------------------------------------------------------
  // Handler specifications
  // ---------------------------------------------------------------------------

  /** The answer of `/api/chat`. It depends on the message and the provider only:
      a signed-in and an anonymous caller get the same answer. */
  function ChatResponse(message: JsField, provider: ProviderResult): (r: Response)
    ensures r.status == 400 <==> !IsMessage(message)
    ensures r.status == 400 ==> r.body == ErrorBody(NoMessage)
    ensures r.status == 200 <==> IsMessage(message) && provider.ProviderOk?
    ensures r.status == 200 ==> r.body == ReplyBody(ReplyText(provider.content)) && r.body.reply != ""
    ensures r.status == 502 <==> IsMessage(message) && provider.ProviderNotOk?
    ensures r.status == 502 ==> r.body == ErrorDetailsBody(ProviderError, provider.errText)
    ensures r.status == 500 <==> IsMessage(message) && provider.ProviderThrew?
    ensures r.status == 500 ==> r.body == ErrorBody(ServerError)
  {
    if !IsMessage(message) then Response(400, ErrorBody(NoMessage))
    else match provider
      case ProviderNotOk(errText) => Response(502, ErrorDetailsBody(ProviderError, errText))
      case ProviderThrew => Response(500, ErrorBody(ServerError))
      case ProviderOk(content) => Response(200, ReplyBody(ReplyText(content)))
  }

  /** The records one `/api/chat` call appends for a signed-in user: the user's
      message, then the bot's reply only if the provider answered. */
  function ChatRecords(message: string, provider: ProviderResult, userTime: string, botTime: string): seq<Record> {
    [Record(User, message, userTime)]
      + if provider.ProviderOk? then [Record(Bot, ReplyText(provider.content), botTime)] else []
  }

  /** The data directory after `/api/chat`. A rejected message or a caller without a
      verified email leaves it as it was; no file but the caller's changes; every
      history only grows; and a readable history gains exactly the user record and,
      when the provider answered, the bot record after it. */
  function ChatDir(dir: DataDir, message: JsField, email: Option<string>, provider: ProviderResult,
                   userTime: string, botTime: string): (r: DataDir)
    ensures !IsMessage(message) || email.None? ==> r == dir
    ensures email.Some? ==> r - {FileName(email.value)} == dir - {FileName(email.value)}
    ensures AppendOnly(dir, r)
    ensures email.Some? && ReadHistory(dir, FileName(email.value)).None? ==> r == dir
    ensures IsMessage(message) && email.Some? && email.value != ""
            && ReadHistory(dir, FileName(email.value)).Some? ==>
      ReadHistory(r, FileName(email.value))
        == Some(ReadHistory(dir, FileName(email.value)).value
                + ChatRecords(message.s, provider, userTime, botTime))
  {
    if !IsMessage(message) || email.None? then dir
    else
      var e := email.value;
      var d1 := SavedDir(dir, e, Record(User, message.s, userTime));
      SavedDirAppendOnly(dir, e, Record(User, message.s, userTime));
      if provider.ProviderOk? then
        var bot := Record(Bot, ReplyText(provider.content), botTime);
        SavedDirAppendOnly(d1, e, bot);
        AppendOnlyTransitive(dir, d1, SavedDir(d1, e, bot));
        assert ReadHistory(dir, FileName(e)).Some? ==>
          (ReadHistory(dir, FileName(e)).value + [Record(User, message.s, userTime)]) + [bot]
          == ReadHistory(dir, FileName(e)).value + ChatRecords(message.s, provider, userTime, botTime);
        SavedDir(d1, e, bot)
      else
        assert ChatRecords(message.s, provider, userTime, botTime) == [Record(User, message.s, userTime)];
        d1
  }

  /** The answer of `/api/history`: 401 without a verified email, whatever the data
      directory holds; otherwise the caller's history (empty if there is no file
      yet), or 500 when the file does not parse. */
  function HistoryResponse(dir: DataDir, email: Option<string>): (r: Response)
    ensures email.None? ==> r == Response(401, ErrorBody(InvalidToken))
    ensures email.Some? && FileName(email.value) !in dir ==> r == Response(200, HistoryBody([]))
    ensures email.Some? && ReadHistory(dir, FileName(email.value)).Some? ==>
      r == Response(200, HistoryBody(ReadHistory(dir, FileName(email.value)).value))
    ensures email.Some? && ReadHistory(dir, FileName(email.value)).None? ==>
      r == Response(500, ErrorBody(LoadFailed))
  {
    if email.None? then Response(401, ErrorBody(InvalidToken))
    else match ReadHistory(dir, FileName(email.value))
      case Some(arr) => Response(200, HistoryBody(arr))
      case None => Response(500, ErrorBody(LoadFailed))
  }

  /** A signed-in chat is visible through `/api/history`: the history then ends with
      the user record and, if the provider answered, the bot record. */
  lemma ChatThenHistory(dir: DataDir, message: JsField, email: string, provider: ProviderResult,
                        userTime: string, botTime: string)
    requires IsMessage(message) && email != ""
    requires ReadHistory(dir, FileName(email)).Some?
    ensures HistoryResponse(ChatDir(dir, message, Some(email), provider, userTime, botTime), Some(email))
      == Response(200, HistoryBody(ReadHistory(dir, FileName(email)).value
                                   + ChatRecords(message.s, provider, userTime, botTime)))
  {
  }

  // ---------------------------------------------------------------------------
  // The server process
  // ---------------------------------------------------------------------------

  /** The running backend: the data directory is the state its handlers change. */
  class ChatServer {
    var dir: DataDir

    constructor (dir: DataDir)
      ensures this.dir == dir
    {
      this.dir := dir;
    }

    /** `saveUserMessage`: read the file (or start from `[]`), push, write back. */
    method SaveUserMessage(email: string, record: Record)
      modifies this
      ensures dir == SavedDir(old(dir), email, record)
    {
      if email == "" {
        return;
      }
      var fname := FileName(email);
      var arr: seq<Record> := [];
      if fname in dir {
        match dir[fname]
        case Unparseable =>
          return;
        case Records(rs) =>
          arr := rs;
      }
      arr := arr + [record];
      dir := dir[fname := Records(arr)];
    }

    /** `POST /api/chat` with body fields `message` and `id_token`. */
    method Chat(message: JsField, idToken: JsField, verdict: Option<Payload>,
                provider: ProviderResult, userTime: string, botTime: string)
      returns (resp: Response)
      modifies this
      ensures resp == ChatResponse(message, provider)
      ensures dir == ChatDir(old(dir), message, SignedInEmail(VerifyGoogleToken(idToken, verdict)),
                             provider, userTime, botTime)
    {
      if !IsMessage(message) {
        return Response(400, ErrorBody(NoMessage));
      }
      var userPayload := VerifyGoogleToken(idToken, verdict);
      var email := SignedInEmail(userPayload);
      if email.Some? {
        SaveUserMessage(email.value, Record(User, message.s, userTime));
      }
      match provider
      case ProviderNotOk(errText) =>
        resp := Response(502, ErrorDetailsBody(ProviderError, errText));
      case ProviderThrew =>
        resp := Response(500, ErrorBody(ServerError));
      case ProviderOk(content) =>
        var reply := ReplyText(content);
        if email.Some? {
          SaveUserMessage(email.value, Record(Bot, reply, botTime));
        }
        resp := Response(200, ReplyBody(reply));
    }

    /** `POST /api/history` with body field `id_token`; it changes nothing. */
    method History(idToken: JsField, verdict: Option<Payload>) returns (resp: Response)
      ensures resp == HistoryResponse(dir, SignedInEmail(VerifyGoogleToken(idToken, verdict)))
    {
      var payload := VerifyGoogleToken(idToken, verdict);
      var email := SignedInEmail(payload);
      if email.None? {
        return Response(401, ErrorBody(InvalidToken));
      }
      var fname := FileName(email.value);
      var arr: seq<Record> := [];
      if fname in dir {
        match dir[fname]
        case Unparseable =>
          return Response(500, ErrorBody(LoadFailed));
        case Records(rs) =>
          arr := rs;
      }
      resp := Response(200, HistoryBody(arr));
    }
  }
}
