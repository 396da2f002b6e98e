/** The job-assistant chat: an offline keyword classifier that picks one of seven fixed
    replies, and per-user chat histories kept in one map. A history starts with the
    assistant's instructions; each message adds the user's entry and exactly one reply;
    after a successful model reply an over-long history is cut back to its first entry
    plus the newest ones. The language model itself is an input: the outcome of the call. */
module ChatbotController {
  import opened Common
  import opened JsString

  // ---------------------------------------------------------------------------------
  // Fixed texts

  /** The six keyword rules of the offline classifier, each with its own reply. */
  datatype Topic = JobSearch | Resume | Interview | Skills | ApplicationStatus | Salary

  /** The fixed texts the controller stores in histories or sends back. */
  datatype Wording =
    | JobSeekerContext            // the instructions that open every history
    | Greeting                    // the stored greeting, also sent when a model is available
    | LimitedGreeting             // the greeting sent when no model is available
    | OfflineReply(topic: Topic)  // the reply of one classifier rule
    | OfflineDefault              // the classifier's reply when no rule matches
    | ModelErrorReply             // the reply to a model-configuration error
    | QuotaReply                  // the reply to a quota error
    | GeneralErrorReply           // the reply to any other model error
    | SessionStarted              // the response messages, one per outcome of a handler
    | SessionStartedFallback
    | MessageRequired
    | FallbackProvided
    | MessageProcessed
    | FallbackOnAiError
    | SessionEnded

  /** The exact text of each wording. */
  function Text(w: Wording): string
  {
    match w
    case JobSeekerContext =>
      "You are an AI job assistant named \"JobHelper\" that specializes in helping job seekers. \n"
      + "  Your goal is to provide helpful, accurate, and supportive advice on:\n"
      + "  - Resume writing and improvement\n"
      + "  - Job search strategies\n"
      + "  - Interview preparation \n"
      + "  - Career development\n"
      + "  - Skill improvement suggestions\n"
      + "  - Job application best practices\n"
      + "  - Industry-specific advice when asked\n"
      + "  \n"
      + "  Always be supportive, professional, and empathetic. Remember that looking for jobs can be stressful.\n"
      + "  Provide factual information and avoid making up statistics or facts.\n"
      + "  Focus on being practical and actionable in your advice.\n"
      + "  If you don't know something, be honest and suggest reliable sources where appropriate."
    case Greeting =>
      "Hi there! I'm JobHelper, your AI assistant for job search and career advice. How can I help you today?"
    case LimitedGreeting =>
      "Hi there! I'm JobHelper, your AI assistant for job search and career advice. How can I help you today? (Note: I'm currently running in limited mode)"
    case OfflineReply(JobSearch) =>
      "I'm currently in offline mode. When online, I can help you search for jobs that match your skills and experience. Try using the job search feature in the main dashboard instead."
    case OfflineReply(Resume) =>
      "I'm currently in offline mode. When online, I can provide tips on improving your resume. In the meantime, you might want to check out the profile section to update your professional information."
    case OfflineReply(Interview) =>
      "I'm currently in offline mode. When online, I can help you prepare for interviews with practice questions and tips. You can review common interview questions in the resources section of the platform."
    case OfflineReply(Skills) =>
      "I'm currently in offline mode. When online, I can suggest skills to improve or courses to take based on your career goals. Check out the learning resources section for self-paced courses."
    case OfflineReply(ApplicationStatus) =>
      "I'm currently in offline mode. When online, I can help you track your application status. You can manually check your applications in the 'My Applications' section."
    case OfflineReply(Salary) =>
      "I'm currently in offline mode. When online, I can provide salary negotiation tips. In the meantime, you might want to research industry standards for your position and location."
    case OfflineDefault =>
      "I'm currently in offline mode due to connectivity issues. When I'm back online, I'll be able to assist you with job search, resume tips, interview preparation, and more. Please try again later or explore the platform's features manually."
    case ModelErrorReply =>
      "I'm experiencing technical difficulties with my AI service. Our team has been notified and is working on a fix. I can still provide some basic assistance in offline mode."
    case QuotaReply =>
      "I've reached my usage limit for the moment. Please try again in a little while or use my offline assistance capabilities."
    case GeneralErrorReply =>
      "I'm sorry, I'm having trouble processing your request right now. Could you try again later or rephrase your question?"
    case SessionStarted => "Chat session started"
    case SessionStartedFallback => "Chat session started (fallback mode)"
    case MessageRequired => "Message is required"
    case FallbackProvided => "Fallback response provided"
    case MessageProcessed => "Message processed successfully"
    case FallbackOnAiError => "Fallback response provided due to AI error"
    case SessionEnded => "Chat session ended"
  }

  // ---------------------------------------------------------------------------------
  // The offline classifier

  /** The order the rules are tried in. */
  const RuleOrder: seq<Topic> := [JobSearch, Resume, Interview, Skills, ApplicationStatus, Salary]

  /** Every rule is tried. */
  lemma EveryRuleTried(t: Topic)
    ensures exists i :: 0 <= i < |RuleOrder| && RuleOrder[i] == t
  {
    match t
    case JobSearch => assert RuleOrder[0] == t;
    case Resume => assert RuleOrder[1] == t;
    case Interview => assert RuleOrder[2] == t;
    case Skills => assert RuleOrder[3] == t;
    case ApplicationStatus => assert RuleOrder[4] == t;
    case Salary => assert RuleOrder[5] == t;
  }

  /** The keyword test of one rule, on the lower-cased message. */
  predicate Matches(t: Topic, lower: string)
  {
    match t
    case JobSearch => Includes(lower, "job") && (Includes(lower, "search") || Includes(lower, "find") || Includes(lower, "looking"))
    case Resume => Includes(lower, "resume") || Includes(lower, "cv")
    case Interview => Includes(lower, "interview") || Includes(lower, "prepare")
    case Skills => Includes(lower, "skill") || Includes(lower, "learn") || Includes(lower, "course")
    case ApplicationStatus => Includes(lower, "application") || Includes(lower, "status") || Includes(lower, "applied")
    case Salary => Includes(lower, "salary") || Includes(lower, "negotiat") || Includes(lower, "offer")
  }

  /** The first rule of `rules` whose test `lower` passes, if any: the reference
      definition of the classifier. */
  function FirstMatch(lower: string, rules: seq<Topic>): (t: Option<Topic>)
    ensures t.Some? ==>
      exists i :: 0 <= i < |rules| && rules[i] == t.value && Matches(t.value, lower)
        && forall j :: 0 <= j < i ==> !Matches(rules[j], lower)
    ensures t.None? ==> forall i :: 0 <= i < |rules| ==> !Matches(rules[i], lower)
    decreases |rules|
  {
    if rules == [] then None
    else if Matches(rules[0], lower) then
      assert rules[0] == rules[0];
      Some(rules[0])
    else
      var t := FirstMatch(lower, rules[1..]);
      if t.Some? then
        var i :| 0 <= i < |rules[1..]| && rules[1..][i] == t.value && Matches(t.value, lower)
                 && forall j :: 0 <= j < i ==> !Matches(rules[1..][j], lower);
        assert rules[i + 1] == t.value;
        assert forall j :: 0 <= j < i + 1 ==> !Matches(rules[j], lower) by {
          forall j | 0 <= j < i + 1 ensures !Matches(rules[j], lower) {
            if j > 0 { assert rules[j] == rules[1..][j - 1]; }
          }
        }
        t
      else
        assert forall i :: 0 <= i < |rules| ==> !Matches(rules[i], lower) by {
          forall i | 0 <= i < |rules| ensures !Matches(rules[i], lower) {
            if i > 0 { assert rules[i] == rules[1..][i - 1]; }
          }
        }
        t
  }

  /** `getFallbackResponse`: lower-case the message, try the six rules in order, and
      fall back to the default reply. The reply is one of seven fixed offline texts. */
  function GetFallbackResponse(message: string): (r: Wording)
    ensures r.OfflineReply? || r == OfflineDefault
  {
    var lower := ToLower(message);
    if Matches(JobSearch, lower) then OfflineReply(JobSearch)
    else if Matches(Resume, lower) then OfflineReply(Resume)
    else if Matches(Interview, lower) then OfflineReply(Interview)
    else if Matches(Skills, lower) then OfflineReply(Skills)
    else if Matches(ApplicationStatus, lower) then OfflineReply(ApplicationStatus)
    else if Matches(Salary, lower) then OfflineReply(Salary)
    else OfflineDefault
  }

  /** The classifier gives the reply of the first rule the lower-cased message passes,
      and the default reply when it passes none. */
  lemma {:induction false} FallbackIsFirstMatch(message: string)
    ensures GetFallbackResponse(message) ==
      match FirstMatch(ToLower(message), RuleOrder)
      case Some(t) => OfflineReply(t)
      case None => OfflineDefault
  {
    assert RuleOrder[1..] == [Resume, Interview, Skills, ApplicationStatus, Salary];
    assert RuleOrder[1..][1..] == [Interview, Skills, ApplicationStatus, Salary];
    assert RuleOrder[1..][1..][1..] == [Skills, ApplicationStatus, Salary];
    assert RuleOrder[1..][1..][1..][1..] == [ApplicationStatus, Salary];
    assert RuleOrder[1..][1..][1..][1..][1..] == [Salary];
    assert RuleOrder[1..][1..][1..][1..][1..][1..] == [];
  }

  /** Rule `RuleOrder[i]` decides the reply exactly when the lower-cased message passes
      it and none of the rules before it; the default reply is given exactly when the
      message passes no rule. */
  lemma FirstMatchingRuleWins(message: string, i: nat)
    requires i < |RuleOrder|
    ensures GetFallbackResponse(message) == OfflineReply(RuleOrder[i]) <==>
      (Matches(RuleOrder[i], ToLower(message)) && forall j :: 0 <= j < i ==> !Matches(RuleOrder[j], ToLower(message)))
    ensures GetFallbackResponse(message) == OfflineDefault <==> forall t :: !Matches(t, ToLower(message))
  {
    var lower := ToLower(message);
    FallbackIsFirstMatch(message);
    var m := FirstMatch(lower, RuleOrder);
    if m.None? {
      forall t ensures !Matches(t, lower) {
        EveryRuleTried(t);
      }
    }
    if m.Some? {
      var k :| 0 <= k < |RuleOrder| && RuleOrder[k] == m.value && Matches(m.value, lower)
               && forall j :: 0 <= j < k ==> !Matches(RuleOrder[j], lower);
      if k < i {
        assert !(forall j :: 0 <= j < i ==> !Matches(RuleOrder[j], lower));
      } else if i < k {
        assert !Matches(RuleOrder[i], lower);
      }
    }
  }

  /** The classifier does not see the case of letters. */
  lemma FallbackIgnoresCase(a: string, b: string)
    requires SameUpToCase(a, b)
    ensures GetFallbackResponse(a) == GetFallbackResponse(b)
    ensures GetFallbackResponse(ToUpper(a)) == GetFallbackResponse(a)
  {
    ToLowerForgetsCase(a, b);
  }

  /** "job" alone does not select the job-search reply: it needs one of "search",
      "find" or "looking" beside it. */
  lemma JobAloneIsNotJobSearch(message: string)
    requires !Includes(ToLower(message), "search") && !Includes(ToLower(message), "find")
    requires !Includes(ToLower(message), "looking")
    ensures GetFallbackResponse(message) != OfflineReply(JobSearch)
  {
    FirstMatchingRuleWins(message, 0);
  }

  // ---------------------------------------------------------------------------------
  // Histories

  datatype Role = SystemRole | ModelRole | UserRole

  /** The text of a stored message or of a response field: one of the fixed texts, or a
      text that came from the user or from the model. */
  datatype Content = Fixed(wording: Wording) | Said(text: string)

  /** The text a content stands for. */
  function ContentText(c: Content): string
  {
    match c
    case Fixed(w) => Text(w)
    case Said(s) => s
  }

  /** One stored message: `{ role, parts: [{ text }] }`. */
  datatype Entry = Entry(role: Role, content: Content)

  /** The part of an HTTP response body beside `success` and `message`. */
  datatype Extra = NoExtra | GreetingField(greeting: Wording) | ResponseField(response: Content)

  /** The status and JSON body a handler answers with. */
  datatype Response = Response(status: nat, success: bool, message: Wording, extra: Extra)

  /** What the language model call returned: a text, or an error whose `message` may be
      missing. */
  datatype AiOutcome = Success(text: string) | Failure(errorMessage: Option<string>)

  /** The reply stored and sent after a failed model call: a model-configuration error
      ("models/" in the error text) first, then a quota error, else a general one. The
      tests are case-sensitive. */
  function AiErrorReply(errorMessage: Option<string>): (r: Wording)
  {
    if errorMessage.Some? && Includes(errorMessage.value, "models/") then ModelErrorReply
    else if errorMessage.Some? && Includes(errorMessage.value, "quota") then QuotaReply
    else GeneralErrorReply
  }

  /** Each error reply is given for exactly one class of error, a model-configuration
      error winning over a quota error, and no other reply is given. */
  lemma AiErrorClasses(errorMessage: Option<string>)
    ensures AiErrorReply(errorMessage) in {ModelErrorReply, QuotaReply, GeneralErrorReply}
    ensures AiErrorReply(errorMessage) == ModelErrorReply <==>
      (errorMessage.Some? && Includes(errorMessage.value, "models/"))
    ensures AiErrorReply(errorMessage) == QuotaReply <==>
      (errorMessage.Some? && !Includes(errorMessage.value, "models/") && Includes(errorMessage.value, "quota"))
    ensures AiErrorReply(errorMessage) == GeneralErrorReply <==>
      (errorMessage.None? || (!Includes(errorMessage.value, "models/") && !Includes(errorMessage.value, "quota")))
  {
  }

  /** The history after the trim of a history longer than `max`: its first entry, then
      its newest `max - 1` entries in order (none when `max` is 0, since the slice then
      starts past the end). */
  function Trimmed(h: seq<Entry>, max: nat): (t: seq<Entry>)
    requires |h| > max
    ensures |t| == if max == 0 then 1 else max
    ensures t[0] == h[0]
    ensures forall k :: 1 <= k < |t| ==> t[k] == h[|h| - |t| + k]
  {
    var start := if |h| - max + 1 <= |h| then |h| - max + 1 else |h|;
    [h[0]] + h[start..]
  }

  /** `if (history.length > MAX_HISTORY_LENGTH)`: an unset limit never trims. */
  function Kept(h: seq<Entry>, max: Option<nat>): seq<Entry>
  {
    if max.Some? && |h| > max.value then Trimmed(h, max.value) else h
  }

  /** The trim step leaves a history that is not over the limit unchanged, and cuts any
      other one to exactly the limit (one entry for a limit of 0). Its first entry stays. */
  lemma KeptWithinLimit(h: seq<Entry>, max: nat)
    requires |h| > 0
    ensures var t := Kept(h, Some(max));
      && (t == h || |t| == (if max == 0 then 1 else max))
      && |t| > 0 && t[0] == h[0]
      && (|h| <= max ==> t == h)
  {
  }

  /** The history a new user gets from `startChat`: the instructions (stored as a
      `system` entry when no model is available, as a `model` entry otherwise), then the
      greeting. */
  function StartEntries(modelAvailable: bool): seq<Entry>
  {
    [Entry(if modelAvailable then ModelRole else SystemRole, Fixed(JobSeekerContext)), Entry(ModelRole, Fixed(Greeting))]
  }

  /** `startChat` on the histories: a user without one gets a new one; an existing
      history is left as it is. */
  function Started(hs: map<UserId, seq<Entry>>, userId: UserId, modelAvailable: bool): (hs': map<UserId, seq<Entry>>)
    ensures userId in hs' && hs'.Keys == hs.Keys + {userId}
    ensures userId in hs ==> hs' == hs
    ensures userId !in hs ==> |hs'[userId]| == 2 && hs'[userId][0].content == Fixed(JobSeekerContext)
    ensures forall u :: u != userId && u in hs ==> hs'[u] == hs[u]
  {
    if userId in hs then hs else hs[userId := StartEntries(modelAvailable)]
  }

  /** The response of `startChat`. */
  function StartResponse(modelAvailable: bool): Response
  {
    if modelAvailable then Response(200, true, SessionStarted, GreetingField(Greeting))
    else Response(200, true, SessionStartedFallback, GreetingField(LimitedGreeting))
  }

  /** The history a message is appended to: the stored one, or a new one holding only
      the instructions. */
  function HistoryBefore(hs: map<UserId, seq<Entry>>, userId: UserId): seq<Entry>
  {
    if userId in hs then hs[userId] else [Entry(ModelRole, Fixed(JobSeekerContext))]
  }

  /** How the reply to a message is produced: its content, the response message, and
      whether the trim follows. */
  datatype Turn = Turn(reply: Content, message: Wording, trims: bool)

  /** The reply to `message`: the offline classifier when no model is available; the
      model's text, followed by the trim, when the call succeeds; the error reply when it
      fails. */
  function TurnOf(message: string, modelAvailable: bool, outcome: AiOutcome): Turn
  {
    if !modelAvailable then Turn(Fixed(GetFallbackResponse(message)), FallbackProvided, false)
    else match outcome
      case Success(text) => Turn(Said(text), MessageProcessed, true)
      case Failure(err) => Turn(Fixed(AiErrorReply(err)), FallbackOnAiError, false)
  }

  /** `if (!message)`: an absent or empty message is rejected. */
  predicate Present(message: Option<string>)
  {
    message.Some? && message.value != ""
  }

  /** `sendMessage` on the histories, for a present message. */
  function Sent(hs: map<UserId, seq<Entry>>, userId: UserId, message: string, modelAvailable: bool,
                max: Option<nat>, outcome: AiOutcome): map<UserId, seq<Entry>>
  {
    var turn := TurnOf(message, modelAvailable, outcome);
    var h := HistoryBefore(hs, userId) + [Entry(UserRole, Said(message)), Entry(ModelRole, turn.reply)];
    hs[userId := if turn.trims then Kept(h, max) else h]
  }

  /** The response of `sendMessage`: 400 exactly for an absent or empty message,
      otherwise 200 with the reply that was stored. */
  function SendResponse(message: Option<string>, modelAvailable: bool, outcome: AiOutcome): (r: Response)
    ensures r.status == 400 <==> !Present(message)
    ensures r.success <==> Present(message)
    ensures !Present(message) ==> r.message == MessageRequired && r.extra == NoExtra
    ensures Present(message) ==> r.status == 200
    ensures Present(message) ==> r.extra == ResponseField(TurnOf(message.value, modelAvailable, outcome).reply)
    ensures Present(message) && !modelAvailable ==> r.message == FallbackProvided
    ensures Present(message) && modelAvailable && outcome.Success? ==> r.message == MessageProcessed
    ensures Present(message) && modelAvailable && outcome.Failure? ==> r.message == FallbackOnAiError
  {
    if !Present(message) then Response(400, false, MessageRequired, NoExtra)
    else
      var turn := TurnOf(message.value, modelAvailable, outcome);
      Response(200, true, turn.message, ResponseField(turn.reply))
  }

  /** A message changes its sender's history only: the user's entry, then exactly one
      `model` entry holding the reply that is sent back. Without a model, when the call
      fails, when no limit is set, or when the two new entries keep the history within
      the limit, nothing is trimmed, so the history grows by exactly those two. */
  lemma SentAppendsOneTurn(hs: map<UserId, seq<Entry>>, userId: UserId, message: string, modelAvailable: bool,
                           max: Option<nat>, outcome: AiOutcome)
    ensures var hs' := Sent(hs, userId, message, modelAvailable, max, outcome);
      && hs'.Keys == hs.Keys + {userId}
      && (forall u :: u != userId && u in hs ==> hs'[u] == hs[u])
      && var h := HistoryBefore(hs, userId);
      && var turn := TurnOf(message, modelAvailable, outcome);
      && (!turn.trims || max.None? || |h| + 2 <= max.value ==>
            && hs'[userId][..|h|] == h
            && hs'[userId][|h|..] == [Entry(UserRole, Said(message)), Entry(ModelRole, turn.reply)])
  {
    var hs' := Sent(hs, userId, message, modelAvailable, max, outcome);
    var h := HistoryBefore(hs, userId);
    var turn := TurnOf(message, modelAvailable, outcome);
    if !turn.trims || max.None? || |h| + 2 <= max.value {
      var full := h + [Entry(UserRole, Said(message)), Entry(ModelRole, turn.reply)];
      assert hs'[userId] == full;
      assert full[..|h|] == h;
    }
  }

  /** After a successful model reply under a limit `max`: the first entry stays; the
      history grows by two while that keeps it within the limit, and is cut to exactly
      the limit (one entry for a limit of 0) when the two new entries push it over; the
      newest entry is the model's reply whenever the limit is at least 2. So a history
      within a limit of at least 2 stays within it. */
  lemma SuccessKeepsLimit(hs: map<UserId, seq<Entry>>, userId: UserId, message: string, max: nat, text: string)
    requires ContextFirst(hs)
    ensures var h := HistoryBefore(hs, userId);
      var h' := Sent(hs, userId, message, true, Some(max), Success(text))[userId];
      && h'[0] == h[0]
      && (|h| + 2 > max ==>
            && h' == Trimmed(h + [Entry(UserRole, Said(message)), Entry(ModelRole, Said(text))], max)
            && |h'| == (if max == 0 then 1 else max))
      && (|h| + 2 <= max ==> |h'| == |h| + 2)
      && (max >= 2 ==> h'[|h'| - 1] == Entry(ModelRole, Said(text)))
  {
    var h := HistoryBefore(hs, userId);
    var full := h + [Entry(UserRole, Said(message)), Entry(ModelRole, Said(text))];
    if |full| > max && max >= 2 {
      var t := Trimmed(full, max);
      assert t[|t| - 1] == full[|full| - 1];
    }
  }

  /** Storing twice under one key keeps the second value. */
  lemma UpdateTwice(m: map<UserId, seq<Entry>>, k: UserId, a: seq<Entry>, b: seq<Entry>)
    ensures m[k := a][k := b] == m[k := b]
  {
  }

  /** Every stored history starts with the instructions. */
  ghost predicate ContextFirst(hs: map<UserId, seq<Entry>>)
  {
    forall u | u in hs :: |hs[u]| > 0 && hs[u][0].content == Fixed(JobSeekerContext)
  }

  /** `startChat`, `sendMessage` and `endChat` keep the instructions first in every
      history, including across a trim. */
  lemma HandlersKeepContextFirst(hs: map<UserId, seq<Entry>>, userId: UserId, message: string,
                                 modelAvailable: bool, max: Option<nat>, outcome: AiOutcome)
    requires ContextFirst(hs)
    ensures ContextFirst(Started(hs, userId, modelAvailable))
    ensures ContextFirst(Sent(hs, userId, message, modelAvailable, max, outcome))
    ensures ContextFirst(hs - {userId})
  {
    SentKeepsContextFirst(hs, userId, message, modelAvailable, max, outcome);
  }

  lemma SentKeepsContextFirst(hs: map<UserId, seq<Entry>>, userId: UserId, message: string,
                              modelAvailable: bool, max: Option<nat>, outcome: AiOutcome)
    requires ContextFirst(hs)
    ensures ContextFirst(Sent(hs, userId, message, modelAvailable, max, outcome))
  {
    var h := HistoryBefore(hs, userId);
    var full := h + [Entry(UserRole, Said(message)), Entry(ModelRole, TurnOf(message, modelAvailable, outcome).reply)];
    assert Kept(full, max)[0] == full[0];
  }

  /** `startChat` twice is `startChat` once; `endChat` removes exactly the user's history
      (and nothing when there is none), and a `startChat` after it starts afresh. */
  lemma StartAndEnd(hs: map<UserId, seq<Entry>>, userId: UserId, modelAvailable: bool)
    ensures Started(Started(hs, userId, modelAvailable), userId, modelAvailable) == Started(hs, userId, modelAvailable)
    ensures userId !in hs ==> hs - {userId} == hs
    ensures (hs - {userId}) - {userId} == hs - {userId}
    ensures Started(hs - {userId}, userId, modelAvailable)[userId] == StartEntries(modelAvailable)
  {
  }

  /** `getFallbackResponseFromServer`: 400 exactly for an absent or empty message,
      otherwise the classifier's reply. */
  function GetFallbackResponseFromServer(message: Option<string>): (r: Response)
    ensures r.status == 400 <==> !Present(message)
    ensures r.success <==> Present(message)
    ensures !Present(message) ==> r.message == MessageRequired && r.extra == NoExtra
    ensures Present(message) ==> r.status == 200 && r.message == FallbackProvided
    ensures Present(message) ==> r.extra == ResponseField(Fixed(GetFallbackResponse(message.value)))
  {
    if !Present(message) then Response(400, false, MessageRequired, NoExtra)
    else Response(200, true, FallbackProvided, ResponseField(Fixed(GetFallbackResponse(message.value))))
  }

  /** The controller's state: whether a model is configured, the history limit from the
      environment (absent when unset), and the shared map of histories. */
  class Chatbot {
    const modelAvailable: bool
    const maxHistoryLength: Option<nat>
    var chatHistory: map<UserId, seq<Entry>>

    ghost predicate Valid()
      reads this
    {
      ContextFirst(chatHistory)
    }

    constructor (modelAvailable: bool, maxHistoryLength: Option<nat>)
      ensures Valid() && chatHistory == map[]
      ensures this.modelAvailable == modelAvailable && this.maxHistoryLength == maxHistoryLength
    {
      this.modelAvailable := modelAvailable;
      this.maxHistoryLength := maxHistoryLength;
      chatHistory := map[];
    }

    method StartChat(userId: UserId) returns (res: Response)
      requires Valid()
      modifies this
      ensures Valid()
      ensures chatHistory == Started(old(chatHistory), userId, modelAvailable)
      ensures res == StartResponse(modelAvailable)
    {
      if !modelAvailable {
        if userId !in chatHistory {
          chatHistory := chatHistory[userId := [Entry(SystemRole, Fixed(JobSeekerContext)), Entry(ModelRole, Fixed(Greeting))]];
        }
        return Response(200, true, SessionStartedFallback, GreetingField(LimitedGreeting));
      }
      if userId !in chatHistory {
        chatHistory := chatHistory[userId := [Entry(ModelRole, Fixed(JobSeekerContext)), Entry(ModelRole, Fixed(Greeting))]];
      }
      return Response(200, true, SessionStarted, GreetingField(Greeting));
    }

    /** `if (!chatHistory.has(userId)) chatHistory.set(userId, [instructions])`. */
    method EnsureHistory(userId: UserId)
      requires Valid()
      modifies this
      ensures Valid()
      ensures chatHistory == old(chatHistory)[userId := HistoryBefore(old(chatHistory), userId)]
    {
      if userId !in chatHistory {
        chatHistory := chatHistory[userId := [Entry(ModelRole, Fixed(JobSeekerContext))]];
      }
    }

    /** `history.push(e)` on the history stored for `userId`. */
    method Push(userId: UserId, e: Entry)
      requires Valid() && userId in chatHistory
      modifies this
      ensures Valid()
      ensures chatHistory == old(chatHistory)[userId := old(chatHistory)[userId] + [e]]
    {
      chatHistory := chatHistory[userId := chatHistory[userId] + [e]];
    }

    method SendMessage(userId: UserId, message: Option<string>, outcome: AiOutcome) returns (res: Response)
      requires Valid()
      modifies this
      ensures Valid()
      ensures chatHistory == if Present(message) then Sent(old(chatHistory), userId, message.value, modelAvailable, maxHistoryLength, outcome)
                             else old(chatHistory)
      ensures res == SendResponse(message, modelAvailable, outcome)
    {
      if message.None? || message.value == "" {
        return Response(400, false, MessageRequired, NoExtra);
      }
      var msg := message.value;
      ghost var hs0 := chatHistory;
      ghost var h0 := HistoryBefore(hs0, userId);
      SentKeepsContextFirst(hs0, userId, msg, modelAvailable, maxHistoryLength, outcome);
      EnsureHistory(userId);
      Push(userId, Entry(UserRole, Said(msg)));
      ghost var h1 := h0 + [Entry(UserRole, Said(msg))];
      UpdateTwice(hs0, userId, h0, h1);
      if !modelAvailable {
        var fallbackResponse := GetFallbackResponse(msg);
        Push(userId, Entry(ModelRole, Fixed(fallbackResponse)));
        UpdateTwice(hs0, userId, h1, h1 + [Entry(ModelRole, Fixed(fallbackResponse))]);
        assert h1 + [Entry(ModelRole, Fixed(fallbackResponse))] == h0 + [Entry(UserRole, Said(msg)), Entry(ModelRole, Fixed(fallbackResponse))];
        return Response(200, true, FallbackProvided, ResponseField(Fixed(fallbackResponse)));
      }
      match outcome
      case Success(aiResponse) =>
        Push(userId, Entry(ModelRole, Said(aiResponse)));
        var history := chatHistory[userId];
        UpdateTwice(hs0, userId, h1, history);
        assert history == h0 + [Entry(UserRole, Said(msg)), Entry(ModelRole, Said(aiResponse))];
        if maxHistoryLength.Some? && |history| > maxHistoryLength.value {
          chatHistory := chatHistory[userId := Trimmed(history, maxHistoryLength.value)];
          UpdateTwice(hs0, userId, history, Trimmed(history, maxHistoryLength.value));
        }
        return Response(200, true, MessageProcessed, ResponseField(Said(aiResponse)));
      case Failure(err) =>
        var fallbackResponse := AiErrorReply(err);
        Push(userId, Entry(ModelRole, Fixed(fallbackResponse)));
        UpdateTwice(hs0, userId, h1, h1 + [Entry(ModelRole, Fixed(fallbackResponse))]);
        assert h1 + [Entry(ModelRole, Fixed(fallbackResponse))] == h0 + [Entry(UserRole, Said(msg)), Entry(ModelRole, Fixed(fallbackResponse))];
        return Response(200, true, FallbackOnAiError, ResponseField(Fixed(fallbackResponse)));
    }

    method EndChat(userId: UserId) returns (res: Response)
      requires Valid()
      modifies this
      ensures Valid()
      ensures chatHistory == old(chatHistory) - {userId}
      ensures res == Response(200, true, SessionEnded, NoExtra)
    {
      if userId in chatHistory {
        chatHistory := chatHistory - {userId};
      }
      return Response(200, true, SessionEnded, NoExtra);
    }
  }
}
