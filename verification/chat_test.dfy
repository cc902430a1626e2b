/**
 * The test chatbot page src/app/chat-test/page.tsx: the message list that
 * `sendMessage` appends to, the choice of reply text from the webhook's JSON,
 * the wording of errors, and the reference lines `renderMessageContent`
 * turns into links.
 *
 * `sendMessage` is asynchronous: its part before the first `await` is
 * `BeginSend`, the rest (from the webhook check to the `finally`) is
 * `FinishSend`, given what the webhook answered. Between the two, another
 * send can start; the `isLoading` guard is what stops it.
 */
module ChatTest {
  import opened Wrappers
  import opened Text
  import opened Json
  import Seqs

  // ------------------------------------------------------- reply selection

  const Apology := "I apologize, but I couldn't generate a response."

  /** The field read `v.key`, known to be truthy. */
  function Field(v: JsValue, key: string): JsValue
    requires TruthyField(v, key)
  {
    v.fields[key]
  }

  /**
   * The reply text chosen from the parsed answer `data`: `data.output`, then
   * `data[0].output` for a non-empty array, then `data.response`, then
   * `data.message`, each if truthy, then `data` itself if it is a string,
   * else the apology. `None` when a property read hits `null` and throws a
   * TypeError: `data` is null, or it is an array whose first item is null.
   */
  function ReplyContent(data: JsValue): (r: Option<JsValue>)
    ensures r.None? <==> data.JNull? || (data.JArr? && |data.items| > 0 && data.items[0].JNull?)
    ensures r.Some? ==> Truthy(r.value) || r.value == JStr("")
    ensures r.Some? && r.value == JStr("") ==> data == JStr("")
    // an object: `output`, then `response`, then `message`, then the apology
    ensures data.JObj? && TruthyField(data, "output") ==> r == Some(data.fields["output"])
    ensures data.JObj? && !TruthyField(data, "output") && TruthyField(data, "response") ==>
      r == Some(data.fields["response"])
    ensures data.JObj? && !TruthyField(data, "output") && !TruthyField(data, "response") && TruthyField(data, "message") ==>
      r == Some(data.fields["message"])
    ensures data.JObj? && !TruthyField(data, "output") && !TruthyField(data, "response") && !TruthyField(data, "message") ==>
      r == Some(JStr(Apology))
    // an array: its first item's `output`, else the apology
    ensures data.JArr? && |data.items| > 0 && TruthyField(data.items[0], "output") ==>
      r == Some(data.items[0].fields["output"])
    ensures data.JArr? && (|data.items| == 0 || (!data.items[0].JNull? && !TruthyField(data.items[0], "output"))) ==>
      r == Some(JStr(Apology))
    // a string is the reply itself; a number or a boolean gets the apology
    ensures data.JStr? ==> r == Some(data)
    ensures data.JNum? || data.JBool? ==> r == Some(JStr(Apology))
  {
    if data.JNull? then None
    else if TruthyField(data, "output") then Some(Field(data, "output"))
    else if data.JArr? && |data.items| > 0 && data.items[0].JNull? then None
    else if data.JArr? && |data.items| > 0 && TruthyField(data.items[0], "output") then Some(Field(data.items[0], "output"))
    else if TruthyField(data, "response") then Some(Field(data, "response"))
    else if TruthyField(data, "message") then Some(Field(data, "message"))
    else if data.JStr? then Some(data)
    else Some(JStr(Apology))
  }

  /** The earlier tests win: a truthy `output` is chosen whatever else the answer holds. */
  lemma {:induction false} OutputWins(fields: map<string, JsValue>)
    requires "output" in fields && Truthy(fields["output"])
    ensures ReplyContent(JObj(fields)) == Some(fields["output"])
    ensures ReplyContent(JArr([JObj(fields)])) == Some(fields["output"])
  {
    assert Get(JArr([JObj(fields)]), "output") == None;
    assert Get(JObj(fields), "output") == Some(fields["output"]);
  }

  /** `response` is read only when `output` is falsy, and `message` only when `response` is too. */
  lemma {:induction false} ResponseBeforeMessage(fields: map<string, JsValue>)
    requires "response" in fields && "message" in fields
    requires Truthy(fields["response"]) && Truthy(fields["message"])
    requires "output" !in fields || !Truthy(fields["output"])
    ensures ReplyContent(JObj(fields)) == Some(fields["response"])
  {
    assert Get(JObj(fields), "response") == Some(fields["response"]);
  }

  // --------------------------------------------------------------- errors

  const NotConfiguredCode := "WEBHOOK_NOT_CONFIGURED"
  const NotConfiguredText :=
    "The chatbot webhook is not configured. Please add the NEXT_PUBLIC_CHAT_TEST_WEBHOOK_URL environment variable."
  const ConnectText :=
    "Unable to connect to the chatbot service. Please check that the webhook URL is correct and accessible."
  const NetworkText := "Network error. Please check your internet connection and the webhook URL."

  /** The text shown for a caught error with `message`, tested in this order. */
  function ClassifyError(message: string): (r: string)
    ensures r == message || r == NotConfiguredText || r == ConnectText || r == NetworkText
    ensures message == NotConfiguredCode ==> r == NotConfiguredText
    ensures message != NotConfiguredCode && Contains(message, "Failed to fetch") ==> r == ConnectText
    ensures message != NotConfiguredCode && !Contains(message, "Failed to fetch") && Contains(message, "NetworkError") ==>
      r == NetworkText
    ensures message != NotConfiguredCode && !Contains(message, "Failed to fetch") && !Contains(message, "NetworkError") ==>
      r == message
  {
    if message == NotConfiguredCode then NotConfiguredText
    else if Contains(message, "Failed to fetch") then ConnectText
    else if Contains(message, "NetworkError") then NetworkText
    else message
  }

  /** The chat webhook URL is set and is not the placeholder. */
  predicate ChatWebhookConfigured(webhook: Option<string>) {
    webhook.Some? && webhook.value != "" && webhook.value != "YOUR_CHAT_TEST_WEBHOOK_URL_HERE"
  }

  /** What the request to the webhook gives: the parsed JSON, a non-OK status with its text, or a thrown error. */
  datatype ChatReply =
    | Replied(data: JsValue)
    | NotOk(status: nat, text: string)
    | Threw(message: string)

  /**
   * The content of the assistant message a send ends with. `typeError` is
   * the engine's message for reading a property of `null`.
   */
  function AssistantContent(webhook: Option<string>, reply: ChatReply, typeError: string): (c: JsValue)
    ensures !ChatWebhookConfigured(webhook) ==> c == JStr(NotConfiguredText)
    ensures ChatWebhookConfigured(webhook) && reply.NotOk? ==>
      c == JStr(ClassifyError("HTTP " + NatToString(reply.status) + ": " + reply.text))
    ensures ChatWebhookConfigured(webhook) && reply.Threw? ==> c == JStr(ClassifyError(reply.message))
    ensures ChatWebhookConfigured(webhook) && reply.Replied? ==>
      c == match ReplyContent(reply.data)
           case Some(v) => v
           case None => JStr(ClassifyError(typeError))
  {
    if !ChatWebhookConfigured(webhook) then JStr(ClassifyError(NotConfiguredCode))
    else match reply
      case NotOk(status, text) => JStr(ClassifyError("HTTP " + NatToString(status) + ": " + text))
      case Threw(message) => JStr(ClassifyError(message))
      case Replied(data) =>
        match ReplyContent(data)
        case Some(v) => v
        case None => JStr(ClassifyError(typeError))
  }

  // ---------------------------------------------------------- the session

  datatype Role = User | Assistant

  /** A chat message. An assistant reply holds whatever JSON value was chosen. */
  datatype Message = Message(role: Role, content: JsValue)

  /** The body posted to the webhook. */
  datatype ChatRequest = ChatRequest(sessionId: string, chatInput: string)

  /** A user message: its text is trimmed and not empty. */
  predicate UserText(m: Message) {
    m.content.JStr? && m.content.s != "" && Trim(m.content.s) == m.content.s
  }

  class ChatSession {
    var messages: seq<Message>
    var input: string
    var isLoading: bool
    const sessionId: string

    /**
     * Messages alternate, user first, and every user message is trimmed and
     * non-empty; a send is in flight exactly when a user message awaits its
     * answer.
     */
    ghost predicate Valid()
      reads this
    {
      && (forall i :: 0 <= i < |messages| ==> (messages[i].role == User <==> i % 2 == 0))
      && (forall i :: 0 <= i < |messages| && messages[i].role == User ==> UserText(messages[i]))
      && (isLoading <==> |messages| % 2 == 1)
    }

    /** The page as first shown; `id` is the `crypto.randomUUID()` the mount effect stores. */
    constructor (id: string)
      ensures Valid()
      ensures messages == [] && input == "" && !isLoading && sessionId == id
    {
      messages := [];
      input := "";
      isLoading := false;
      sessionId := id;
    }

    /**
     * `sendMessage` up to its first `await`. Blank text, or a send already in
     * flight, changes nothing. Otherwise the trimmed text is appended as a
     * user message before any request, and loading starts.
     */
    method BeginSend(text: string) returns (accepted: bool)
      requires Valid()
      modifies this`messages, this`isLoading
      ensures Valid()
      ensures accepted <==> Trim(text) != [] && !old(isLoading)
      ensures !accepted ==> messages == old(messages) && isLoading == old(isLoading)
      ensures accepted ==> messages == old(messages) + [Message(User, JStr(Trim(text)))] && isLoading
    {
      if Trim(text) == [] || isLoading {
        return false;
      }
      var t := Trim(text);
      TrimUntrimmed(t);
      messages := messages + [Message(User, JStr(t))];
      isLoading := true;
      accepted := true;
    }

    /**
     * The rest of `sendMessage`, in the same call as the `BeginSend` that
     * appended `text` trimmed: the request is made only when the webhook is
     * configured and carries that same user message, exactly one assistant
     * message is appended whether the send succeeds or fails, and loading
     * ends.
     */
    method FinishSend(text: string, webhook: Option<string>, reply: ChatReply, typeError: string)
      returns (sent: Option<ChatRequest>)
      requires Valid() && isLoading
      requires messages[|messages| - 1] == Message(User, JStr(Trim(text)))
      modifies this`messages, this`isLoading
      ensures Valid() && !isLoading
      ensures sent.Some? ==> sent.value.chatInput == old(messages)[|old(messages)| - 1].content.s
      ensures messages == old(messages) + [Message(Assistant, AssistantContent(webhook, reply, typeError))]
      ensures sent == (if ChatWebhookConfigured(webhook) then Some(ChatRequest(sessionId, Trim(text))) else None)
    {
      sent := None;
      if ChatWebhookConfigured(webhook) {
        sent := Some(ChatRequest(sessionId, Trim(text)));
      }
      messages := messages + [Message(Assistant, AssistantContent(webhook, reply, typeError))];
      isLoading := false;
    }

    /** `handleSend`: starts a send of the input and clears the input, even when the send is refused. */
    method HandleSend() returns (accepted: bool)
      requires Valid()
      modifies this`messages, this`isLoading, this`input
      ensures Valid() && input == ""
      ensures accepted <==> Trim(old(input)) != [] && !old(isLoading)
      ensures !accepted ==> messages == old(messages) && isLoading == old(isLoading)
      ensures accepted ==> messages == old(messages) + [Message(User, JStr(Trim(old(input))))] && isLoading
    {
      accepted := BeginSend(input);
      input := "";
    }
  }

  // ------------------------------------------------------ reference lines

  /** A rendered line: plain text, or a numbered reference shown as a link. */
  datatype Line = Plain(text: string) | Reference(number: string, title: string, url: string)

  /** The length of the run of digits (`\d`) starting at `from`. */
  function DigitRun(s: string, from: nat): (n: nat)
    requires from <= |s|
    ensures from + n <= |s|
    ensures forall k :: from <= k < from + n ==> IsDigit(s[k])
    ensures from + n == |s| || !IsDigit(s[from + n])
    decreases |s| - from
  {
    if from < |s| && IsDigit(s[from]) then 1 + DigitRun(s, from + 1) else 0
  }

  /** A character of `[^\s)]`. */
  predicate UrlChar(c: char) {
    !IsSpace(c) && c != ')'
  }

  /** The length of the run of `[^\s)]` characters starting at `from`. */
  function UrlRun(s: string, from: nat): (n: nat)
    requires from <= |s|
    ensures from + n <= |s|
    ensures forall k :: from <= k < from + n ==> UrlChar(s[k])
    ensures from + n == |s| || !UrlChar(s[from + n])
    decreases |s| - from
  {
    if from < |s| && UrlChar(s[from]) then 1 + UrlRun(s, from + 1) else 0
  }

  /** `\((https?:\/\/[^\s)]+)\)` at `p`: the URL it captures. */
  function UrlAt(s: string, p: nat): (r: Option<string>)
    requires p <= |s|
    ensures r.Some? ==> StartsWith(r.value, "http://") || StartsWith(r.value, "https://")
    ensures r.Some? ==> forall k :: 0 <= k < |r.value| ==> UrlChar(r.value[k])
  {
    if p < |s| && s[p] == '(' then
      if StartsWith(s[p + 1..], "https://") then UrlAfter(s, p, 8)
      else if StartsWith(s[p + 1..], "http://") then UrlAfter(s, p, 7)
      else None
    else None
  }

  /** The rest of the URL pattern once `(` and a scheme of `scheme` characters have been read. */
  function UrlAfter(s: string, p: nat, scheme: nat): (r: Option<string>)
    requires p + 1 + scheme <= |s|
    requires (scheme == 8 && StartsWith(s[p + 1..], "https://")) || (scheme == 7 && StartsWith(s[p + 1..], "http://"))
    ensures r.Some? ==> StartsWith(r.value, "http://") || StartsWith(r.value, "https://")
    ensures r.Some? ==> forall k :: 0 <= k < |r.value| ==> UrlChar(r.value[k])
  {
    var start := p + 1 + scheme;
    var n := UrlRun(s, start);
    if n >= 1 && start + n < |s| && s[start + n] == ')' then
      UrlCaptured(s, p, scheme, n);
      Some(s[p + 1..p + 1 + scheme + n])
    else None
  }

  /** The scheme and the run after it form the captured URL: only `[^\s)]` characters. */
  lemma {:induction false} UrlCaptured(s: string, p: nat, scheme: nat, n: nat)
    requires p + 1 + scheme + n <= |s|
    requires (scheme == 8 && StartsWith(s[p + 1..], "https://")) || (scheme == 7 && StartsWith(s[p + 1..], "http://"))
    requires forall k :: p + 1 + scheme <= k < p + 1 + scheme + n ==> UrlChar(s[k])
    ensures var c := s[p + 1..p + 1 + scheme + n];
      && (StartsWith(c, "http://") || StartsWith(c, "https://"))
      && forall k :: 0 <= k < |c| ==> UrlChar(c[k])
  {
    var c := s[p + 1..p + 1 + scheme + n];
    var lit := if scheme == 8 then "https://" else "http://";
    assert c[..scheme] == s[p + 1..][..scheme] == lit;
    forall k | 0 <= k < |c| ensures UrlChar(c[k]) {
      if k < scheme {
        assert c[k] == lit[k];
      } else {
        assert c[k] == s[p + 1 + k];
      }
    }
  }

  /**
   * The text between `]` and `(` can be matched by `\s*(.*?)\s*`: once
   * trimmed, it holds no line terminator (which `.` does not match).
   */
  predicate TitleOk(t: string) {
    forall k :: 0 <= k < |Trim(t)| ==> !IsLineTerminator(Trim(t)[k])
  }

  /** The tail of the pattern can start at `p`, after the text from `j`. */
  predicate TailAt(s: string, j: nat, p: nat)
    requires j <= p <= |s|
  {
    UrlAt(s, p).Some? && TitleOk(s[j..p])
  }

  /** The first `p` at or after `from` where the tail matches: where the lazy `.*?` stops. */
  function FirstTail(s: string, j: nat, from: nat): (r: Option<nat>)
    requires j <= from <= |s|
    ensures r.Some? ==> from <= r.value <= |s| && TailAt(s, j, r.value)
    ensures r.Some? ==> forall q :: from <= q < r.value ==> !TailAt(s, j, q)
    ensures r.None? ==> forall q :: from <= q <= |s| ==> !TailAt(s, j, q)
  {
    var ok := (q: nat) => j <= q <= |s| && TailAt(s, j, q);
    assert forall q: nat :: ok(q) == (j <= q <= |s| && TailAt(s, j, q));
    Seqs.First(ok, from, |s|)
  }

  /**
   * The match of `\[(\d+)\]\s*(.*?)\s*\((https?:\/\/[^\s)]+)\)` starting at
   * `i`, with the title already trimmed as the page does.
   */
  function MatchAt(s: string, i: nat): (r: Option<Line>)
    requires i <= |s|
    ensures r.Some? ==> r.value.Reference?
  {
    if i < |s| && s[i] == '[' then
      var n := DigitRun(s, i + 1);
      if n >= 1 && i + 1 + n < |s| && s[i + 1 + n] == ']' then MatchTail(s, s[i + 1..i + 1 + n], i + 2 + n)
      else None
    else None
  }

  /** The rest of the match once `[`, the digits of `number` and `]` have been read up to `j`. */
  function MatchTail(s: string, number: string, j: nat): (r: Option<Line>)
    requires j <= |s|
    ensures r.Some? ==> r.value.Reference? && r.value.number == number
  {
    match FirstTail(s, j, j)
    case Some(p) => Some(Reference(number, Trim(s[j..p]), UrlAt(s, p).value))
    case None => None
  }

  /** The leftmost place at or after `from` where the pattern matches. */
  function Leftmost(s: string, from: nat): (r: Option<nat>)
    requires from <= |s|
    ensures r.Some? ==> from <= r.value <= |s| && MatchAt(s, r.value).Some?
    ensures r.Some? ==> forall q :: from <= q < r.value ==> MatchAt(s, q).None?
    ensures r.None? ==> forall q :: from <= q <= |s| ==> MatchAt(s, q).None?
  {
    var ok := (q: nat) => q <= |s| && MatchAt(s, q).Some?;
    assert forall q: nat :: ok(q) == (q <= |s| && MatchAt(s, q).Some?);
    Seqs.First(ok, from, |s|)
  }

  /**
   * `line.match(referenceRegex)`: number, trimmed title and URL. The number
   * is a non-empty digit run, the URL starts with http:// or https:// and
   * holds no white space or `)`, and the title has no white space at either
   * end and no line terminator.
   */
  function ParseReference(line: string): (r: Option<Line>)
    ensures r.Some? ==> r.value.Reference?
    ensures r.Some? ==> r.value.number != "" && AllDigits(r.value.number)
    ensures r.Some? ==> StartsWith(r.value.url, "http://") || StartsWith(r.value.url, "https://")
    ensures r.Some? ==> forall k :: 0 <= k < |r.value.url| ==> UrlChar(r.value.url[k])
    ensures r.Some? ==> var t := r.value.title;
      (t != [] ==> !IsSpace(t[0]) && !IsSpace(t[|t| - 1])) && forall k :: 0 <= k < |t| ==> !IsLineTerminator(t[k])
    ensures '[' !in line ==> r.None?
  {
    match Leftmost(line, 0)
    case None => None
    case Some(i) => MatchAt(line, i)
  }

  /** How one line of a message is shown: a reference only when its trimmed form starts with `[`. */
  function RenderLine(line: string): (r: Line)
    ensures r.Plain? ==> r.text == line
    ensures r.Reference? ==> StartsWith(Trim(line), "[") && Some(r) == ParseReference(line)
    ensures StartsWith(Trim(line), "[") && ParseReference(line).Some? ==> r == ParseReference(line).value
    ensures !StartsWith(Trim(line), "[") || ParseReference(line).None? ==> r == Plain(line)
  {
    if StartsWith(Trim(line), "[") then
      match ParseReference(line)
      case Some(reference) => reference
      case None => Plain(line)
    else Plain(line)
  }

  /** A reference line as the chatbot writes it: "[n] title (url)". */
  function RefLine(number: string, title: string, url: string): string {
    "[" + number + "] " + title + " (" + url + ")"
  }

  /** A URL `https?:\/\/[^\s)]+` accepts: a scheme, at least one more character, no white space or `)`. */
  predicate UrlOk(url: string) {
    && ((StartsWith(url, "https://") && |url| > 8) || (StartsWith(url, "http://") && |url| > 7))
    && forall k :: 0 <= k < |url| ==> UrlChar(url[k])
  }

  /** No `(` in the title opens an http:// or https:// scheme, where the lazy title would stop early. */
  predicate NoSchemeInTitle(title: string) {
    forall k :: 0 <= k < |title| && title[k] == '(' ==>
      !StartsWith(title[k + 1..], "http://") && !StartsWith(title[k + 1..], "https://")
  }

  /** What the round trip asks of the three parts: the shapes the pattern captures. */
  predicate RefParts(number: string, title: string, url: string) {
    && number != "" && AllDigits(number)
    && (title != [] ==> !IsSpace(title[0]) && !IsSpace(title[|title| - 1]))
    && (forall k :: 0 <= k < |title| ==> !IsLineTerminator(title[k]))
    && NoSchemeInTitle(title)
    && UrlOk(url)
  }

  /** A reference written the way the chatbot writes it renders as a link with its three parts. */
  lemma {:induction false} ReferenceRoundTrip(number: string, title: string, url: string)
    requires RefParts(number, title, url)
    ensures RenderLine(RefLine(number, title, url)) == Reference(number, title, url)
  {
    var s := RefLine(number, title, url);
    RefLineMatches(number, title, url);
    assert Leftmost(s, 0) == Some(0);
    assert s[0] == '[' && !IsSpace(s[0]) && s[|s| - 1] == ')';
    TrimUntrimmed(s);
    assert StartsWith(Trim(s), "[");
  }

  /**
   * A title may hold parentheses that open no scheme, and the shortest URL
   * the pattern takes is "http://" and one character: the line
   * "[1] A (1) (http://x)" renders as that reference.
   */
  lemma {:induction false} ReferenceWithParentheses()
    ensures RenderLine(RefLine("1", "A (1)", "http://x")) == Reference("1", "A (1)", "http://x")
  {
    ParenthesisedTitleParts();
    ReferenceRoundTrip("1", "A (1)", "http://x");
  }

  /** The parts of the line above have the shapes the pattern captures. */
  lemma {:induction false} ParenthesisedTitleParts()
    ensures RefParts("1", "A (1)", "http://x")
  {
    var title, url := "A (1)", "http://x";
    assert AllDigits("1");
    assert title[0] == 'A' && title[4] == ')';
    assert !IsSpace(title[0]) && !IsSpace(title[|title| - 1]);
    assert forall k :: 0 <= k < |title| ==> !IsLineTerminator(title[k]);
    assert NoSchemeInTitle(title);
    assert url[..7] == "http://";
    assert UrlOk(url);
  }

  /** The pattern matches a reference line at its first character. */
  lemma {:induction false} RefLineMatches(number: string, title: string, url: string)
    requires RefParts(number, title, url)
    ensures MatchAt(RefLine(number, title, url), 0) == Some(Reference(number, title, url))
  {
    RefLineNumber(number, title, url);
    RefLineTail(number, title, url);
    MatchAtStart(RefLine(number, title, url), number);
  }

  /** A match at 0 opens with `[`, the digits of `number` and `]`; the rest is the tail's. */
  lemma {:induction false} MatchAtStart(s: string, number: string)
    requires var n := |number|;
      1 <= n && n + 1 < |s| && s[0] == '[' && DigitRun(s, 1) == n && s[1 + n] == ']' && s[1..1 + n] == number
    ensures MatchAt(s, 0) == MatchTail(s, number, |number| + 2)
  {
  }

  /** The tail of a match, given where the tail ends and what it reads. */
  lemma {:induction false} MatchTailIs(s: string, number: string, j: nat, p: nat, title: string, url: string)
    requires j <= p <= |s|
    requires FirstTail(s, j, j) == Some(p) && UrlAt(s, p) == Some(url) && Trim(s[j..p]) == title
    ensures MatchTail(s, number, j) == Some(Reference(number, title, url))
  {
  }

  /** A reference line opens with `[`, the digits of its number and `]`. */
  lemma {:induction false} RefLineNumber(number: string, title: string, url: string)
    requires RefParts(number, title, url)
    ensures var s, n := RefLine(number, title, url), |number|;
      s[0] == '[' && n + 1 < |s| && DigitRun(s, 1) == n && s[1 + n] == ']' && s[1..1 + n] == number
  {
    var s := RefLine(number, title, url);
    var n := |number|;
    assert s[1..1 + n] == number;
    assert s[1 + n] == ']';
    DigitRunIs(s, 1, n);
  }

  /**
   * In a reference line the tail of the pattern first matches at the `(`
   * before the URL, after the title; so after its `]` the line matches the
   * rest of the pattern with its title and URL.
   */
  lemma {:induction false} RefLineTail(number: string, title: string, url: string)
    requires RefParts(number, title, url)
    ensures var s, j, p := RefLine(number, title, url), |number| + 2, |number| + |title| + 4;
      p < |s| && FirstTail(s, j, j) == Some(p) && UrlAt(s, p) == Some(url) && Trim(s[j..p]) == title
    ensures MatchTail(RefLine(number, title, url), number, |number| + 2) == Some(Reference(number, title, url))
  {
    var s := RefLine(number, title, url);
    var j, p := |number| + 2, |number| + |title| + 4;
    assert s[p..] == "(" + url + ")";
    UrlAtIs(s, p, url);
    forall q | j <= q < p ensures !TailAt(s, j, q) {
      RefLineNoEarlyTail(number, title, url, q);
    }
    RefLineTitle(number, title, url);
    FirstTailIs(s, j, j, p);
    MatchTailIs(s, number, j, p, title, url);
  }

  /** Before the `(` of its URL, no place of a reference line starts the URL part of the pattern. */
  lemma {:induction false} RefLineNoEarlyTail(number: string, title: string, url: string, q: nat)
    requires RefParts(number, title, url)
    requires |number| + 2 <= q < |number| + |title| + 4
    ensures UrlAt(RefLine(number, title, url), q).None?
  {
    var s := RefLine(number, title, url);
    var j, p := |number| + 2, |number| + |title| + 4;
    if q == j || q == p - 1 {
      assert s[q] == ' ';
    } else {
      var k := q - j - 1;
      assert s[q] == title[k];
      if title[k] == '(' {
        var t, rest := title[k + 1..], "(" + url + ")";
        assert s[q + 1..] == t + " " + rest;
        NoSchemeBeforeSpace(t, rest, "http://");
        NoSchemeBeforeSpace(t, rest, "https://");
      }
    }
  }

  /** The text between `]` and `(` of a reference line passes the title test. */
  lemma {:induction false} RefLineTitle(number: string, title: string, url: string)
    requires RefParts(number, title, url)
    ensures var s, j, p := RefLine(number, title, url), |number| + 2, |number| + |title| + 4;
      TitleOk(s[j..p]) && Trim(s[j..p]) == title
  {
    var s := RefLine(number, title, url);
    var j, p := |number| + 2, |number| + |title| + 4;
    var a, b, c := "[" + number + "]", " " + title + " ", "(" + url + ")";
    assert s == a + b + c;
    SliceOfConcat(a, b, c);
    TrimPadded(title);
  }

  /** The middle part of a concatenation, sliced back out. */
  lemma {:induction false} SliceOfConcat(a: string, b: string, c: string)
    ensures (a + b + c)[|a|..|a| + |b|] == b
  {
    assert forall k :: 0 <= k < |b| ==> (a + b + c)[|a| + k] == b[k];
  }

  /** Text that ends with a space before `rest` opens with a scheme only if the text before the space does. */
  lemma {:induction false} NoSchemeBeforeSpace(t: string, rest: string, lit: string)
    requires ' ' !in lit && !StartsWith(t, lit)
    ensures !StartsWith(t + " " + rest, lit)
  {
    var u := t + " " + rest;
    if |lit| <= |t| {
      if |lit| <= |u| {
        assert u[..|lit|] == t[..|lit|];
      }
    } else if |lit| <= |u| {
      assert u[..|lit|][|t|] == ' ';
      assert lit[|t|] in lit;
    }
  }

  /** Text that opens with a URL opens with that URL's scheme. */
  lemma {:induction false} SchemeOfRest(url: string, rest: string)
    requires StartsWith(url, "http://") || StartsWith(url, "https://")
    requires |url| >= 8 && rest == url + ")"
    ensures StartsWith(rest, "https://") == StartsWith(url, "https://")
    ensures !StartsWith(url, "https://") ==> StartsWith(rest, "http://")
  {
    assert rest[..|url|] == url;
    assert rest[..8] == url[..8];
    assert rest[..7] == url[..7];
  }

  /** A digit run followed by a non-digit has exactly its length. */
  lemma {:induction false} DigitRunIs(s: string, from: nat, n: nat)
    requires from + n < |s|
    requires forall k :: from <= k < from + n ==> IsDigit(s[k])
    requires !IsDigit(s[from + n])
    ensures DigitRun(s, from) == n
    decreases n
  {
    if n > 0 {
      DigitRunIs(s, from + 1, n - 1);
    }
  }

  /** A run of URL characters followed by `)` has exactly its length. */
  lemma {:induction false} UrlRunIs(s: string, from: nat, n: nat)
    requires from + n < |s|
    requires forall k :: from <= k < from + n ==> UrlChar(s[k])
    requires !UrlChar(s[from + n])
    ensures UrlRun(s, from) == n
    decreases n
  {
    if n > 0 {
      UrlRunIs(s, from + 1, n - 1);
    }
  }

  /** The search for the tail stops at the first place it matches. */
  lemma {:induction false} FirstTailIs(s: string, j: nat, from: nat, p: nat)
    requires j <= from <= p <= |s|
    requires TailAt(s, j, p) && forall q :: from <= q < p ==> !TailAt(s, j, q)
    ensures FirstTail(s, j, from) == Some(p)
  {
  }

  /** `(` + URL + `)` at `p` captures the URL. */
  lemma {:induction false} UrlAtIs(s: string, p: nat, url: string)
    requires UrlOk(url)
    requires p + |url| + 2 == |s| && s[p..] == "(" + url + ")"
    ensures UrlAt(s, p) == Some(url)
  {
    var rest := s[p + 1..];
    assert rest == url + ")";
    SchemeOfRest(url, rest);
    if StartsWith(url, "https://") {
      assert url[..7][4] == 's';
    }
    var scheme := if StartsWith(rest, "https://") then 8 else 7;
    assert scheme < |url|;
    var start := p + 1 + scheme;
    forall k | start <= k < p + 1 + |url| ensures UrlChar(s[k]) {
      assert s[k] == url[k - p - 1];
    }
    assert s[p + 1 + |url|] == ')';
    UrlRunIs(s, start, p + 1 + |url| - start);
    assert s[p + 1..p + 1 + |url|] == url;
  }

  // ------------------------------------------------------- message content

  /** `renderMessageContent`: paragraphs split on "\n\n", each split into lines on "\n". */
  function RenderMessageContent(content: string): (r: seq<seq<Line>>)
    ensures |r| == |Split(content, "\n\n")|
    ensures forall k :: 0 <= k < |r| ==> |r[k]| == |Split(Split(content, "\n\n")[k], "\n")|
  {
    var paragraphs := Split(content, "\n\n");
    seq(|paragraphs|, k requires 0 <= k < |paragraphs| => RenderParagraph(paragraphs[k]))
  }

  /**
   * One paragraph: each "\n" piece rendered by `RenderLine`. That no text
   * is lost is `PlainContentKept`.
   */
  function RenderParagraph(paragraph: string): (r: seq<Line>)
    ensures |r| == |Split(paragraph, "\n")|
    ensures forall m :: 0 <= m < |r| ==> r[m] == RenderLine(Split(paragraph, "\n")[m])
  {
    var lines := Split(paragraph, "\n");
    seq(|lines|, m requires 0 <= m < |lines| => RenderLine(lines[m]))
  }

  /** The text of a plain line; a reference shows its number and title. */
  function Shown(l: Line): string {
    match l
    case Plain(text) => text
    case Reference(number, title, _) => "[" + number + "]" + title
  }

  function ParagraphText(lines: seq<Line>): string
    requires |lines| >= 1
  {
    Join(seq(|lines|, m requires 0 <= m < |lines| => Shown(lines[m])), "\n")
  }

  /**
   * Nothing of a message without reference lines is lost: joining the shown
   * lines with "\n" and the paragraphs with "\n\n" gives the content back.
   */
  lemma {:induction false} PlainContentKept(content: string)
    requires forall k, m :: 0 <= k < |RenderMessageContent(content)| && 0 <= m < |RenderMessageContent(content)[k]| ==>
      RenderMessageContent(content)[k][m].Plain?
    ensures var r := RenderMessageContent(content);
      forall k :: 0 <= k < |r| ==> |r[k]| >= 1
    ensures var r := RenderMessageContent(content);
      Join(seq(|r|, k requires 0 <= k < |r| => if |r[k]| >= 1 then ParagraphText(r[k]) else ""), "\n\n") == content
  {
    var r := RenderMessageContent(content);
    var paragraphs := Split(content, "\n\n");
    forall k | 0 <= k < |r| ensures |r[k]| >= 1 && ParagraphText(r[k]) == paragraphs[k] {
      var lines := Split(paragraphs[k], "\n");
      assert r[k] == RenderParagraph(paragraphs[k]);
      assert seq(|r[k]|, m requires 0 <= m < |r[k]| => Shown(r[k][m])) == lines;
      SplitJoin(paragraphs[k], "\n");
    }
    assert seq(|r|, k requires 0 <= k < |r| => if |r[k]| >= 1 then ParagraphText(r[k]) else "") == paragraphs;
    SplitJoin(content, "\n\n");
  }
}
