/**
  The static-site chat page (docs/script.js): a signed-in user's recent messages
  are kept in `chatHistory`, capped at the 100 most recent entries, and copied to
  the browser's key-value store under a key per Google account when the save
  toggle is on.

  The page state is a class: `googleUser`, the save toggle, `chatHistory` and the
  key-value store (`localStorage`, with values held as entry sequences rather
  than JSON text). `jwt_decode` and the chat request's outcome are inputs.
 */
module PagesClient {
  import opened Wrappers
  import JsString

  const MaxHistory := 100
  const StoragePrefix := "glizzybot_history_"
  const NoResponse := "No response."
  const ErrorPrefix := "Error: "
  const ServerError := "Server error"

  /** The decoded Google credential; the page uses only its `sub` claim. */
  datatype GoogleUser = GoogleUser(sub: string)

  /** One history entry, `{ text, fromBot }`; a message bubble has the same two parts. */
  datatype Entry = Entry(text: string, fromBot: bool)

  /** The body posted by `sendMessage`: `{ prompt, user }`, `user` being the account's
      `sub` or `null`. */
  datatype PagesRequest = PagesRequest(prompt: string, user: Option<string>)

  /** How the chat request ended: a response that is not ok (which the page turns
      into `new Error('Server error')`), an ok response with its `reply` field, or an
      exception with its message. */
  datatype RequestOutcome = NotOk | Replied(reply: Option<string>) | Threw(message: string)

  // ---------------------------------------------------------------------------
  // Storage keys and saving
  // ---------------------------------------------------------------------------

  /** `'glizzybot_history_' + googleUser.sub`. */
  function StorageKey(user: GoogleUser): string {
    StoragePrefix + user.sub
  }

  /** Distinct accounts never share a storage key. */
  lemma StorageKeyInjective(u: GoogleUser, v: GoogleUser)
    requires StorageKey(u) == StorageKey(v)
    ensures u == v
  {
    assert u.sub == StorageKey(u)[|StoragePrefix|..];
    assert v.sub == StorageKey(v)[|StoragePrefix|..];
  }

  /** The store after `saveHistory`: only a signed-in user with saving on writes, and
      then exactly that user's key is set to the current history. */
  function StorageAfterSave(storage: map<string, seq<Entry>>, user: Option<GoogleUser>,
                            saveChecked: bool, history: seq<Entry>): (r: map<string, seq<Entry>>)
    ensures user.None? || !saveChecked ==> r == storage
    ensures user.Some? && saveChecked ==>
      && StorageKey(user.value) in r
      && r[StorageKey(user.value)] == history
      && r - {StorageKey(user.value)} == storage - {StorageKey(user.value)}
  {
    if user.None? || !saveChecked then storage
    else storage[StorageKey(user.value) := history]
  }

  /** Saving twice in a row leaves what the second save wrote. */
  lemma SaveOverwrites(storage: map<string, seq<Entry>>, user: Option<GoogleUser>, saveChecked: bool,
                       h1: seq<Entry>, h2: seq<Entry>)
    ensures StorageAfterSave(StorageAfterSave(storage, user, saveChecked, h1), user, saveChecked, h2)
      == StorageAfterSave(storage, user, saveChecked, h2)
  {
    if user.Some? && saveChecked {
      var k := StorageKey(user.value);
      assert storage[k := h1][k := h2] == storage[k := h2];
    }
  }

  /** The history after `loadHistory`: empty unless a user is signed in with saving on;
      then the stored history if the key exists, and otherwise the current one. */
  function HistoryAfterLoad(user: Option<GoogleUser>, saveChecked: bool,
                            storage: map<string, seq<Entry>>, current: seq<Entry>): (r: seq<Entry>)
    ensures user.None? || !saveChecked ==> r == []
    ensures user.Some? && saveChecked && StorageKey(user.value) in storage ==> r == storage[StorageKey(user.value)]
    ensures user.Some? && saveChecked && StorageKey(user.value) !in storage ==> r == current
  {
    if user.None? || !saveChecked then []
    else if StorageKey(user.value) in storage then storage[StorageKey(user.value)]
    else current
  }

  // ---------------------------------------------------------------------------
  // The capped history
  // ---------------------------------------------------------------------------

  /** `chatHistory.push(e); if (chatHistory.length > 100) chatHistory.shift()`: the new
      entry is last; before it come the old entries, less the oldest one when the push
      went over the cap; a history within the cap stays within it. */
  function Pushed(h: seq<Entry>, e: Entry): (r: seq<Entry>)
    ensures |r| > 0 && r[|r| - 1] == e
    ensures |h| < MaxHistory ==> r == h + [e]
    ensures |h| >= MaxHistory ==> r == h[1..] + [e]
    ensures |h| <= MaxHistory ==> |r| <= MaxHistory
  {
    var pushed := h + [e];
    if |pushed| > MaxHistory then
      assert pushed[1..] == h[1..] + [e];
      pushed[1..]
    else pushed
  }

  /** The most recent `MaxHistory` entries of `s`. */
  function Window(s: seq<Entry>): (r: seq<Entry>)
    ensures |r| <= MaxHistory || r == s
  {
    if |s| > MaxHistory then s[|s| - MaxHistory..] else s
  }

  /** The history after appending `es` one by one. */
  function PushedAll(h: seq<Entry>, es: seq<Entry>): seq<Entry>
    decreases |es|
  {
    if es == [] then h else PushedAll(Pushed(h, es[0]), es[1..])
  }

  /** Dropping the front of an over-long sequence does not change its recent window. */
  lemma WindowDropFront(x: seq<Entry>, rest: seq<Entry>)
    requires |x| > MaxHistory
    ensures Window(x[1..] + rest) == Window(x + rest)
  {
    var a, b := x[1..] + rest, x + rest;
    assert a == b[1..];
    assert a[|a| - MaxHistory..] == b[|b| - MaxHistory..];
  }

  /** Starting within the cap, a run of appends leaves exactly the most recent 100
      entries of everything appended so far. */
  lemma {:induction false} PushedAllIsWindow(h: seq<Entry>, es: seq<Entry>)
    requires |h| <= MaxHistory
    ensures PushedAll(h, es) == Window(h + es)
    decreases |es|
  {
    if es == [] {
      assert h + es == h;
    } else {
      var x := h + [es[0]];
      assert h + es == x + es[1..];
      PushedAllIsWindow(Pushed(h, es[0]), es[1..]);
      if |x| > MaxHistory {
        WindowDropFront(x, es[1..]);
      }
    }
  }

  /** `data.reply || 'No response.'`: never empty, and the reply whenever it is non-empty. */
  function BotReply(reply: Option<string>): (r: string)
    ensures r != ""
    ensures reply.Some? && reply.value != "" ==> r == reply.value
    ensures reply.None? || reply == Some("") ==> r == NoResponse
  {
    if reply.Some? && reply.value != "" then reply.value else NoResponse
  }

  /** Loading keeps the history within the cap when every stored history is. */
  lemma LoadKeepsBound(user: Option<GoogleUser>, saveChecked: bool,
                       storage: map<string, seq<Entry>>, current: seq<Entry>)
    requires |current| <= MaxHistory
    requires forall key :: key in storage ==> |storage[key]| <= MaxHistory
    ensures |HistoryAfterLoad(user, saveChecked, storage, current)| <= MaxHistory
  {
  }

  // ---------------------------------------------------------------------------
  // The page
  // ---------------------------------------------------------------------------

  class ChatPage {
    var googleUser: Option<GoogleUser>
    var saveChecked: bool
    var chatHistory: seq<Entry>
    var storage: map<string, seq<Entry>>

    /** The cap holds for the history in memory and for every stored history. */
    ghost predicate Bounded()
      reads this
    {
      && |chatHistory| <= MaxHistory
      && forall key :: key in storage ==> |storage[key]| <= MaxHistory
    }

    /** The script's start: `googleUser = null`, `chatHistory = []`. The toggle's state
        comes from the page markup and the store from earlier visits. */
    constructor (saveChecked: bool, storage: map<string, seq<Entry>>)
      ensures googleUser.None? && chatHistory == []
      ensures this.saveChecked == saveChecked && this.storage == storage
      ensures (forall key :: key in storage ==> |storage[key]| <= MaxHistory) ==> Bounded()
    {
      googleUser := None;
      chatHistory := [];
      this.saveChecked := saveChecked;
      this.storage := storage;
    }

    /** `saveHistory`. */
    method SaveHistory()
      modifies this`storage
      ensures storage == StorageAfterSave(old(storage), googleUser, saveChecked, chatHistory)
      ensures old(Bounded()) ==> Bounded()
    {
      if googleUser.None? || !saveChecked {
        return;
      }
      storage := storage[StorageKey(googleUser.value) := chatHistory];
    }

    /** `loadHistory`. */
    method LoadHistory()
      modifies this`chatHistory
      ensures chatHistory == HistoryAfterLoad(googleUser, saveChecked, storage, old(chatHistory))
      ensures old(Bounded()) ==> Bounded()
    {
      if googleUser.None? || !saveChecked {
        chatHistory := [];
        return;
      }
      var key := StorageKey(googleUser.value);
      if key in storage {
        chatHistory := storage[key];
      }
    }

    /** `appendToHistory(text, fromBot)`: push, drop the oldest entry when over the cap,
        then save. */
    method AppendToHistory(text: string, fromBot: bool)
      modifies this`chatHistory, this`storage
      ensures chatHistory == Pushed(old(chatHistory), Entry(text, fromBot))
      ensures storage == StorageAfterSave(old(storage), googleUser, saveChecked, chatHistory)
      ensures old(Bounded()) ==> Bounded()
    {
      chatHistory := chatHistory + [Entry(text, fromBot)];
      if |chatHistory| > MaxHistory {
        chatHistory := chatHistory[1..];
      }
      SaveHistory();
    }

    /** `showLoggedOutUI`: no user and an empty history; the store and the toggle's
        checked state are left alone. */
    method ShowLoggedOutUI()
      modifies this`googleUser, this`chatHistory
      ensures googleUser.None? && chatHistory == []
      ensures old(Bounded()) ==> Bounded()
    {
      googleUser := None;
      chatHistory := [];
    }

    /** `window.onload`: `showLoggedOutUI()` then `loadHistory()`. */
    method OnLoad()
      modifies this`googleUser, this`chatHistory
      ensures googleUser.None? && chatHistory == []
      ensures old(Bounded()) ==> Bounded()
    {
      ShowLoggedOutUI();
      LoadHistory();
    }

    /** `handleCredentialResponse`: `decoded` is what `jwt_decode` gave, `None` when it
        threw. A decoded user is signed in and the history is loaded for them; a failed
        decode leaves nobody signed in and the history as it was. */
    method HandleCredentialResponse(decoded: Option<GoogleUser>)
      modifies this`googleUser, this`chatHistory
      ensures googleUser == decoded
      ensures chatHistory == if decoded.Some? then HistoryAfterLoad(decoded, saveChecked, storage, old(chatHistory))
                             else old(chatHistory)
      ensures old(Bounded()) ==> Bounded()
    {
      if decoded.None? {
        googleUser := None;
        return;
      }
      googleUser := decoded;
      LoadHistory();
    }

    /** The clear button: empty the history, then save it, so that a signed-in user
        with saving on also has an empty stored history. */
    method Clear()
      modifies this`chatHistory, this`storage
      ensures chatHistory == []
      ensures storage == StorageAfterSave(old(storage), googleUser, saveChecked, [])
      ensures googleUser.Some? && saveChecked ==> storage[StorageKey(googleUser.value)] == []
      ensures old(Bounded()) ==> Bounded()
    {
      chatHistory := [];
      SaveHistory();
    }

    /** `sendMessage`. All-white-space input does nothing. Otherwise the user's entry is
        appended before the request; the bot's entry is appended only when the request
        succeeded; an error shows a bubble but adds no entry. The store ends up holding
        the final history for a signed-in user with saving on, and is unchanged otherwise. */
    method SendMessage(input: string, outcome: RequestOutcome)
      returns (request: Option<PagesRequest>, bubbles: seq<Entry>)
      modifies this`chatHistory, this`storage
      ensures JsString.AllWhitespace(input) ==>
        && request.None? && bubbles == []
        && chatHistory == old(chatHistory) && storage == old(storage)
      ensures !JsString.AllWhitespace(input) ==>
        var text := JsString.Trim(input);
        var userEntry := Entry(text, false);
        && request == Some(PagesRequest(text, if googleUser.Some? then Some(googleUser.value.sub) else None))
        && |bubbles| == 2 && bubbles[0] == userEntry && bubbles[1].fromBot
        && chatHistory == (if outcome.Replied? then Pushed(Pushed(old(chatHistory), userEntry), bubbles[1])
                           else Pushed(old(chatHistory), userEntry))
        && storage == StorageAfterSave(old(storage), googleUser, saveChecked, chatHistory)
      ensures outcome.Replied? && |bubbles| == 2 ==> bubbles[1] == Entry(BotReply(outcome.reply), true)
      ensures outcome.NotOk? && |bubbles| == 2 ==> bubbles[1] == Entry(ErrorPrefix + ServerError, true)
      ensures outcome.Threw? && |bubbles| == 2 ==> bubbles[1] == Entry(ErrorPrefix + outcome.message, true)
      ensures old(Bounded()) ==> Bounded()
    {
      var text := JsString.Trim(input);
      if text == "" {
        return None, [];
      }
      bubbles := [Entry(text, false)];
      AppendToHistory(text, false);
      request := Some(PagesRequest(text, if googleUser.Some? then Some(googleUser.value.sub) else None));
      match outcome
      case Replied(reply) =>
        var botReply := BotReply(reply);
        bubbles := bubbles + [Entry(botReply, true)];
        AppendToHistory(botReply, true);
        SaveOverwrites(old(storage), googleUser, saveChecked, Pushed(old(chatHistory), Entry(text, false)), chatHistory);
      case NotOk =>
        bubbles := bubbles + [Entry(ErrorPrefix + ServerError, true)];
      case Threw(message) =>
        bubbles := bubbles + [Entry(ErrorPrefix + message, true)];
    }
  }
}
