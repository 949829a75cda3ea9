/** The three tools the server exposes, `get_user_presence`,
    `get_user_spotify` and `get_user_kv`. Each sanitizes the id, fetches the
    user's record from the presence service, maps every failure to a fixed
    reply and otherwise renders the record. The HTTP exchange is a parameter:
    a `Fetcher` says what asking for a URL produced. */
module Tools {
  import opened Wrappers
  import opened Text
  import opened UserId
  import opened Payload
  import opened Format
  import opened Render

  const ApiBase := "https://api.lanyard.rest/v1"

  /** The one URL a tool asks for: the user's record. */
  function UserUrl(cleanId: string): string {
    ApiBase + "/users/" + cleanId
  }

  /** The decoded reply: its `success` flag (by truthiness) and its `data`. */
  datatype ApiResponse = ApiResponse(success: bool, data: PresenceData)

  /** The body of a 2xx reply, or the message of the error raised while
      reading it. */
  datatype Body = Decoded(response: ApiResponse) | Undecodable(error: string)

  /** What a request produced: a status and a body, a timeout, or another
      transport error with its message. */
  datatype FetchOutcome =
    | Response(status: int, body: Body)
    | TimedOut
    | TransportError(error: string)

  type Fetcher = string -> FetchOutcome

  datatype Tool = PresenceTool | SpotifyTool | KvTool

  /** `raise_for_status` lets exactly the 2xx statuses through. */
  predicate IsSuccessStatus(status: int) {
    200 <= status < 300
  }

  // ---------------------------------------------------------------------------
  // Failure replies

  /** Every failure reply but the timeout starts with this mark. */
  const FailMark := "❌ "

  function InvalidIdText(reason: InvalidReason): string {
    FailMark + "Invalid user ID: " + Message(reason)
  }

  function TimeoutText(cleanId: string): string {
    "⏱️ Request timed out while fetching user " + cleanId
  }

  function ErrorText(message: string): string {
    FailMark + "Error: " + message
  }

  function UnsuccessfulText(cleanId: string): string {
    FailMark + "API returned unsuccessful response for user " + cleanId
  }

  const NotFoundHint := " (Discord user may not be using Lanyard)"
  const RateLimitText := FailMark + "Rate limit exceeded. Please try again later."

  /** The reply to a status `raise_for_status` rejected: not found (with a
      hint from the presence tool only), rate limited, or the status number. */
  function StatusErrorText(tool: Tool, status: int, cleanId: string): string {
    if status == 404 then
      FailMark + "User not found: " + cleanId + (if tool == PresenceTool then NotFoundHint else "")
    else if status == 429 then RateLimitText
    else FailMark + "API Error: HTTP " + IntToString(status)
  }

  // ---------------------------------------------------------------------------
  // The shared pipeline

  /** Either the tool is done with a failure reply, or it goes on to render
      the `data` of the user with the sanitized id. */
  datatype Step = Done(reply: string) | Proceed(cleanId: string, data: PresenceData)

  /** Everything before rendering, in the order the server checks it: the id,
      then the outcome of the request, its status, its body and its
      `success` flag. */
  function Admit(tool: Tool, userId: string, fetch: Fetcher): (step: Step)
    ensures step.Proceed? ==> step.cleanId == Trim(userId) && IsUserId(step.cleanId)
    ensures step.Proceed? ==>
              && fetch(UserUrl(step.cleanId)).Response?
              && IsSuccessStatus(fetch(UserUrl(step.cleanId)).status)
              && fetch(UserUrl(step.cleanId)).body == Decoded(ApiResponse(true, step.data))
    ensures var outcome := fetch(UserUrl(Trim(userId)));
            Sanitize(userId).Success? && outcome.Response? && IsSuccessStatus(outcome.status)
            && outcome.body.Decoded? && outcome.body.response.success
            ==> step == Proceed(Trim(userId), outcome.body.response.data)
  {
    match Sanitize(userId)
    case Failure(reason) => Done(InvalidIdText(reason))
    case Success(cleanId) =>
      match fetch(UserUrl(cleanId))
      case TimedOut => Done(TimeoutText(cleanId))
      case TransportError(message) => Done(ErrorText(message))
      case Response(status, body) =>
        if !IsSuccessStatus(status) then Done(StatusErrorText(tool, status, cleanId))
        else match body
          case Undecodable(message) => Done(ErrorText(message))
          case Decoded(response) =>
            if !response.success then Done(UnsuccessfulText(cleanId))
            else Proceed(cleanId, response.data)
  }

  function RenderText(tool: Tool, data: PresenceData, cleanId: string, fmt: TimestampFormatter): string {
    match tool
    case PresenceTool => PresenceText(data, cleanId, fmt)
    case SpotifyTool => SpotifyText(data, fmt)
    case KvTool => KvText(data)
  }

  /** The text a tool returns for `userId`. */
  function Reply(tool: Tool, userId: string, fetch: Fetcher, fmt: TimestampFormatter): string {
    match Admit(tool, userId, fetch)
    case Done(reply) => reply
    case Proceed(cleanId, data) => RenderText(tool, data, cleanId, fmt)
  }

  method GetUserPresence(userId: string, fetch: Fetcher, fmt: TimestampFormatter) returns (reply: string)
    ensures reply == Reply(PresenceTool, userId, fetch, fmt)
  {
    var step := Admit(PresenceTool, userId, fetch);
    if step.Done? {
      return step.reply;
    }
    reply := RenderPresence(step.data, step.cleanId, fmt);
  }

  method GetUserSpotify(userId: string, fetch: Fetcher, fmt: TimestampFormatter) returns (reply: string)
    ensures reply == Reply(SpotifyTool, userId, fetch, fmt)
  {
    var step := Admit(SpotifyTool, userId, fetch);
    if step.Done? {
      return step.reply;
    }
    reply := RenderSpotify(step.data, fmt);
  }

  method GetUserKv(userId: string, fetch: Fetcher, fmt: TimestampFormatter) returns (reply: string)
    ensures reply == Reply(KvTool, userId, fetch, fmt)
  {
    var step := Admit(KvTool, userId, fetch);
    if step.Done? {
      return step.reply;
    }
    reply := RenderKv(step.data);
  }

  // ---------------------------------------------------------------------------
  // Properties

  /** An id that fails the shape check is refused before any request: the
      reply names the reason and does not depend on the network. */
  lemma InvalidIdNeverFetches(tool: Tool, userId: string, fetch: Fetcher, other: Fetcher, fmt: TimestampFormatter)
    requires Sanitize(userId).Failure?
    ensures Reply(tool, userId, fetch, fmt) == InvalidIdText(Sanitize(userId).error)
    ensures Reply(tool, userId, fetch, fmt) == Reply(tool, userId, other, fmt)
  {
  }

  /** The reply depends on the network only through the outcome of asking
      for the sanitized user's URL. */
  lemma OnlyUserUrlConsulted(tool: Tool, userId: string, fetch: Fetcher, other: Fetcher, fmt: TimestampFormatter)
    requires Sanitize(userId).Success?
    requires fetch(UserUrl(Trim(userId))) == other(UserUrl(Trim(userId)))
    ensures Reply(tool, userId, fetch, fmt) == Reply(tool, userId, other, fmt)
  {
  }

  /** Different rejected statuses give different replies, so the reply tells
      which status the service sent. */
  lemma StatusErrorIdentifiesStatus(tool: Tool, status: int, other: int, cleanId: string)
    requires StatusErrorText(tool, status, cleanId) == StatusErrorText(tool, other, cleanId)
    ensures status == other
  {
    SameOpening(tool, status, other, cleanId);
    if status != 404 && status != 429 {
      var text := StatusErrorText(tool, status, cleanId);
      var prefix := FailMark + "API Error: HTTP ";
      assert other != 404 && other != 429;
      assert text[|prefix|..] == IntToString(status);
      assert text[|prefix|..] == IntToString(other);
      IntToStringRoundTrip(status);
      IntToStringRoundTrip(other);
    }
  }

  /** The fixed wording a rejected-status reply opens with: "User not found",
      the rate-limit sentence, or "API Error: HTTP". */
  function StatusErrorOpening(status: int): string {
    if status == 404 then FailMark + "User not found: "
    else if status == 429 then RateLimitText
    else FailMark + "API Error: HTTP "
  }

  lemma StatusErrorOpens(tool: Tool, status: int, cleanId: string)
    ensures |StatusErrorOpening(status)| <= |StatusErrorText(tool, status, cleanId)|
    ensures StatusErrorText(tool, status, cleanId)[..|StatusErrorOpening(status)|] == StatusErrorOpening(status)
  {
  }

  /** Two equal replies open with the same wording: no reply of one kind
      reads like a reply of another. */
  lemma SameOpening(tool: Tool, status: int, other: int, cleanId: string)
    requires StatusErrorText(tool, status, cleanId) == StatusErrorText(tool, other, cleanId)
    ensures StatusErrorOpening(status) == StatusErrorOpening(other)
    ensures (status == 404 <==> other == 404) && (status == 429 <==> other == 429)
  {
    var text := StatusErrorText(tool, status, cleanId);
    StatusErrorOpens(tool, status, cleanId);
    StatusErrorOpens(tool, other, cleanId);
    assert "Rate limit exceeded. Please try again later."[0] == 'R';
    assert (FailMark + "User not found: ")[2] == 'U';
    assert (FailMark + "API Error: HTTP ")[2] == 'A';
    assert text[2] == StatusErrorOpening(status)[2];
    assert text[2] == StatusErrorOpening(other)[2];
  }

  /** What each failure of the request reads, once the id is well formed:
      the timeout sentence, the "not found" reply naming the id, the
      rate-limit sentence, or the rejected status number. */
  lemma FetchFailureReplies(tool: Tool, userId: string, fetch: Fetcher, fmt: TimestampFormatter)
    requires Sanitize(userId).Success?
    ensures var cleanId := Trim(userId);
            var outcome := fetch(UserUrl(cleanId));
            && (outcome.TimedOut? ==> Reply(tool, userId, fetch, fmt) == TimeoutText(cleanId))
            && (outcome.TransportError? ==> Reply(tool, userId, fetch, fmt) == ErrorText(outcome.error))
            && (outcome.Response? && outcome.status == 404 ==>
                  Reply(tool, userId, fetch, fmt)
                  == FailMark + "User not found: " + cleanId + (if tool == PresenceTool then NotFoundHint else ""))
            && (outcome.Response? && outcome.status == 429 ==> Reply(tool, userId, fetch, fmt) == RateLimitText)
            && (outcome.Response? && !IsSuccessStatus(outcome.status) && outcome.status != 404 && outcome.status != 429 ==>
                  Reply(tool, userId, fetch, fmt) == FailMark + "API Error: HTTP " + IntToString(outcome.status))
  {
  }

  /** What the tool replies once the service answered with a 2xx status: the
      error message when the body cannot be read, the "unsuccessful" sentence
      when its `success` flag is false, and otherwise the rendering of its
      `data`. */
  lemma AnswerReplies(tool: Tool, userId: string, fetch: Fetcher, fmt: TimestampFormatter)
    requires Sanitize(userId).Success?
    ensures var cleanId := Trim(userId);
            var outcome := fetch(UserUrl(cleanId));
            outcome.Response? && IsSuccessStatus(outcome.status) ==>
              && (outcome.body.Undecodable? ==> Reply(tool, userId, fetch, fmt) == ErrorText(outcome.body.error))
              && (outcome.body.Decoded? && !outcome.body.response.success ==>
                    Reply(tool, userId, fetch, fmt) == UnsuccessfulText(cleanId))
              && (outcome.body.Decoded? && outcome.body.response.success ==>
                    Reply(tool, userId, fetch, fmt) == RenderText(tool, outcome.body.response.data, cleanId, fmt))
  {
  }

  /** Only the presence tool adds the hint to its "not found" reply; for any
      other status the three tools answer alike. */
  lemma StatusErrorAcrossTools(status: int, cleanId: string)
    ensures StatusErrorText(PresenceTool, status, cleanId) ==
      if status == 404 then StatusErrorText(SpotifyTool, status, cleanId) + NotFoundHint
      else StatusErrorText(SpotifyTool, status, cleanId)
    ensures StatusErrorText(SpotifyTool, status, cleanId) == StatusErrorText(KvTool, status, cleanId)
  {
    if status == 404 {
      assert FailMark + "User not found: " + cleanId + "" == FailMark + "User not found: " + cleanId;
    }
  }

  /** The record was fetched and the tool had something to show: always for
      presence, only while listening for Spotify, only with KV data for KV. */
  predicate Found(tool: Tool, userId: string, fetch: Fetcher) {
    match Admit(tool, userId, fetch)
    case Done(_) => false
    case Proceed(_, data) =>
      match tool
      case PresenceTool => true
      case SpotifyTool => data.listeningToSpotify && SpotifyPresent(data.spotify)
      case KvTool => data.kv != []
  }

  /** A reply starts with the check mark exactly when the tool found what it
      was asked for; every failure and every "nothing to show" reply starts
      otherwise. */
  lemma SuccessMarkIff(tool: Tool, userId: string, fetch: Fetcher, fmt: TimestampFormatter)
    ensures Reply(tool, userId, fetch, fmt) != []
    ensures Reply(tool, userId, fetch, fmt)[0] == '✅' <==> Found(tool, userId, fetch)
  {
    match Admit(tool, userId, fetch)
    case Done(reply) =>
      DoneReplyMark(tool, userId, fetch);
    case Proceed(cleanId, data) =>
      match tool
      case PresenceTool =>
        PresenceStartsWithHeader(data, cleanId, fmt);
        var opening := PresenceHeader(data.discordUser, cleanId) + "Status: " + StatusEmoji(Status(data));
        assert opening[0] == '✅';
        assert PresenceText(data, cleanId, fmt)[0] == opening[0];
      case SpotifyTool =>
        SpotifyNotListeningIff(data, fmt);
      case KvTool =>
        KvTextShape(data);
  }

  /** No failure reply starts with the check mark. */
  lemma DoneReplyMark(tool: Tool, userId: string, fetch: Fetcher)
    requires Admit(tool, userId, fetch).Done?
    ensures Admit(tool, userId, fetch).reply != []
    ensures Admit(tool, userId, fetch).reply[0] != '✅'
  {
    var cleanId := Trim(userId);
    FailureTextMarks(tool, Sanitize(userId), cleanId, fetch(UserUrl(cleanId)));
  }

  lemma FailureTextMarks(tool: Tool, sanitized: Result<string, InvalidReason>, cleanId: string, outcome: FetchOutcome)
    ensures sanitized.Failure? ==> InvalidIdText(sanitized.error)[0] == '❌'
    ensures TimeoutText(cleanId)[0] == '⏱'
    ensures UnsuccessfulText(cleanId)[0] == '❌'
    ensures outcome.TransportError? ==> ErrorText(outcome.error)[0] == '❌'
    ensures outcome.Response? ==> StatusErrorText(tool, outcome.status, cleanId)[0] == '❌'
    ensures outcome.Response? && outcome.body.Undecodable? ==> ErrorText(outcome.body.error)[0] == '❌'
  {
    if outcome.Response? {
      StatusErrorOpens(tool, outcome.status, cleanId);
      var opening := StatusErrorOpening(outcome.status);
      assert StatusErrorText(tool, outcome.status, cleanId)[0] == opening[0];
    }
  }
}
