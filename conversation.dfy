/**
 * The conversation state machine as a function from (state, event) to (new state, messages sent).
 * Each function mirrors one helper or one registered handler of the bot; the class in
 * module Bot is proved to follow these functions step for step.
 */
module Conversation {
  import opened Wrappers
  import opened Canteens
  import opened Menus
  import opened Matching

  /** The draft meal record, filled in as the conversation goes on. */
  datatype Draft = Draft(date: string, mensa: string, userResponse: string, matchedItem: MatchResult)

  /** The four globals: whether a conversation runs, its step (0 to 3), the chosen canteen, the draft. */
  datatype State = State(inConversation: bool, step: int, mensaId: int, draft: Option<Draft>)

  /** Outbound effects, abstracted from their text and keyboard layout. */
  datatype Outbound =
    | Welcome(chat: int)                               // greeting on the start command
    | PromptVisited(chat: int)                         // the visited-a-canteen question, with yes / no buttons
    | PromptCanteen(chat: int, buttons: seq<string>)   // the canteen question, one button per canteen, token = name
    | PromptMeal(chat: int)                            // the question for the meal description
    | Farewell(chat: int)                              // goodbye after a "no"
    | InvalidAnswer(chat: int)                         // rejection of an answer other than yes / no
    | InvalidCanteen(chat: int)                        // rejection of an unknown canteen
    | MealSummary(chat: int, summary: string, totalCents: int)  // the match, with correct / incorrect buttons
    | Confirmed(chat: int)                             // thanks after "correct"
    | Retry(chat: int)                                 // apology after "incorrect"
    | AnswerCallback(queryId: string)                  // acknowledgement of a button press

  datatype Outcome = Outcome(state: State, sent: seq<Outbound>)

  /** The menu endpoint, keyed by canteen id; `None` when the request or the decoding of its body fails. */
  type MenuFetch = int -> Option<MensaMenu>

  /** The completion call, given the six candidate lists and the user's text. */
  type Matcher = (seq<Offer>, string) -> Reply

  /** The state at process start, which is also the state every reset returns to. */
  const Initial: State := State(false, 0, 0, None)

  /** What the model keeps true: a step in 0..3, a known canteen id or 0, a known canteen name or "". */
  predicate Valid(s: State)
  {
    && 0 <= s.step <= 3
    && (s.mensaId == 0 || IsCanteenId(s.mensaId))
    && (s.draft.Some? ==> s.draft.value.mensa == "" || IsCanteenName(s.draft.value.mensa))
  }

  function Reset(s: State): (r: State)
    ensures !r.inConversation && r.step == 0 && r.mensaId == 0 && r.draft == None
    ensures r == Initial
  {
    s.(inConversation := false, step := 0, mensaId := 0, draft := None)
  }

  function AskIfMensaToday(s: State, chat: int): (r: Outcome)
    ensures r.state.inConversation && r.state.step == 1
    ensures r.state.mensaId == s.mensaId && r.state.draft == s.draft
    ensures r.sent == [PromptVisited(chat)]
  {
    Outcome(s.(inConversation := true, step := 1), [PromptVisited(chat)])
  }

  function AskWhichMensa(s: State, chat: int): (r: Outcome)
    ensures r.state.step == 2
    ensures r.state.inConversation == s.inConversation && r.state.mensaId == s.mensaId && r.state.draft == s.draft
    ensures r.sent == [PromptCanteen(chat, ButtonLabels())]
  {
    Outcome(s.(step := 2), [PromptCanteen(chat, ButtonLabels())])
  }

  function AskWhatUserHad(s: State, chat: int): (r: Outcome)
    ensures r.state.step == 3
    ensures r.state.inConversation == s.inConversation && r.state.mensaId == s.mensaId && r.state.draft == s.draft
    ensures r.sent == [PromptMeal(chat)]
  {
    Outcome(s.(step := 3), [PromptMeal(chat)])
  }

  /** Writes the description and the match into the draft, if there is one. */
  function RecordMatch(draft: Option<Draft>, text: string, m: MatchResult): (r: Option<Draft>)
    ensures r.Some? <==> draft.Some?
    ensures r.Some? ==> r.value == draft.value.(userResponse := text, matchedItem := m)
  {
    if draft.Some? then Some(draft.value.(userResponse := text, matchedItem := m)) else None
  }

  /** The matching step: fetch the menu of the chosen canteen, match, record, report. */
  function MatchStep(s: State, chat: int, text: string, fetch: MenuFetch, complete: Matcher): (r: Outcome)
    ensures r.sent == [] ==> r.state == s
    ensures r.sent != [] ==> |r.sent| == 1 && r.sent[0].MealSummary? && r.sent[0].chat == chat
    ensures r.sent != [] <==> fetch(s.mensaId).Some? && !complete(Candidates(fetch(s.mensaId).value), text).Failed?
  {
    match fetch(s.mensaId)
    case None => Outcome(s, [])
    case Some(menu) =>
      match DecodeReply(complete(Candidates(menu), text))
      case None => Outcome(s, [])
      case Some(m) =>
        Outcome(s.(draft := RecordMatch(s.draft, text, m)), [MealSummary(chat, Summary(m), Total(m))])
  }

  /**
   * The meal handler, with all of its branches: outside a conversation it asks the visited question,
   * at step 1 it reads yes / no, at step 2 it asks for the meal, otherwise it runs the matching step.
   */
  function HandleUserMealResponse(s: State, chat: int, text: string, fetch: MenuFetch, complete: Matcher): (r: Outcome)
    ensures r.state == Initial || r.state.mensaId == s.mensaId
    ensures r.state == Initial || (r.state.draft.Some? <==> s.draft.Some?)
    ensures 0 <= s.step <= 3 ==> 0 <= r.state.step <= 3
    ensures |r.sent| <= 1 && (r.sent == [] ==> r.state == s)
    ensures !s.inConversation || s.step == 1 || s.step == 2 ==> |r.sent| == 1
  {
    if !s.inConversation then AskIfMensaToday(s, chat)
    else if s.step == 1 then
      if text == "no" then Outcome(Reset(s), [Farewell(chat)])
      else if text == "yes" then AskWhichMensa(s, chat)
      else Outcome(s, [InvalidAnswer(chat)])
    else if s.step == 2 then AskWhatUserHad(s, chat)
    else MatchStep(s, chat, text, fetch, complete)
  }

  /** The message text, with a missing text read as the empty string. */
  function TextOrEmpty(text: Option<string>): (r: string)
    ensures text.None? ==> r == ""
    ensures text.Some? ==> r == text.value
  {
    if text.Some? then text.value else ""
  }

  /** The message handler. */
  function OnMessage(s: State, owner: int, chat: int, from: Option<int>, text: Option<string>,
                     fetch: MenuFetch, complete: Matcher): (r: Outcome)
    ensures from != Some(owner) ==> r == Outcome(s, [])
  {
    if from != Some(owner) then Outcome(s, [])
    else if text == Some("/start") then Outcome(Reset(s), [Welcome(chat)])
    else if text == Some("/cancel") then Outcome(Reset(s), [])
    else if s.inConversation && s.step == 3 then HandleUserMealResponse(s, chat, TextOrEmpty(text), fetch, complete)
    else AskIfMensaToday(s, chat)
  }

  // ----- the three callback handlers, each with its own token filter -----

  /** The first handler's filter: it acts on yes and no only. */
  predicate TakesYesNo(data: Option<string>)
    ensures TakesYesNo(data) <==> data.Some? && data.value in RESERVED_TOKENS[..2]
  {
    assert RESERVED_TOKENS[..2] == ["yes", "no"];
    data == Some("yes") || data == Some("no")
  }

  /** The second handler's filter: it acts on every token that is not reserved, and on a missing one. */
  predicate TakesCanteen(data: Option<string>)
    ensures TakesCanteen(data) <==> data.None? || data.value !in RESERVED_TOKENS
  {
    !(data == Some("no") || data == Some("yes") || data == Some("correct") || data == Some("incorrect"))
  }

  /** The third handler's filter: it acts on correct and incorrect only. */
  predicate TakesConfirmation(data: Option<string>)
    ensures TakesConfirmation(data) <==> data.Some? && data.value in RESERVED_TOKENS[2..]
  {
    assert RESERVED_TOKENS[2..] == ["correct", "incorrect"];
    data == Some("correct") || data == Some("incorrect")
  }

  /** The first callback handler: "yes" starts a draft and asks for the canteen, "no" says goodbye. */
  function OnYesNo(s: State, owner: int, queryId: string, from: int, data: Option<string>, now: string): (r: Outcome)
    ensures !TakesYesNo(data) || from != owner ==> r == Outcome(s, [])
  {
    if !TakesYesNo(data) then Outcome(s, [])
    else if from != owner then Outcome(s, [])
    else if data == Some("no") then Outcome(s, [Farewell(from)])
    else
      var asked := AskWhichMensa(s.(draft := Some(Draft(now, "", "", []))), from);
      Outcome(asked.state, asked.sent + [AnswerCallback(queryId)])
  }

  /** The canteen lookup of a callback token; a token-less callback matches no canteen. */
  function SelectedCanteen(data: Option<string>): (r: Option<Canteen>)
    ensures r.Some? ==> data == Some(r.value.name) && r.value in CANTEENS
    ensures r.None? <==> data.None? || !IsCanteenName(data.value)
  {
    if data.None? then None else FindByName(data.value)
  }

  /** The second callback handler: any other token is taken as a canteen name. */
  function OnCanteen(s: State, owner: int, queryId: string, from: int, data: Option<string>): (r: Outcome)
    ensures !TakesCanteen(data) || from != owner ==> r == Outcome(s, [])
  {
    if !TakesCanteen(data) then Outcome(s, [])
    else if from != owner then Outcome(s, [])
    else match SelectedCanteen(data)
      case None => Outcome(s, [InvalidCanteen(from)])
      case Some(c) =>
        var chosen := s.(mensaId := c.id,
                         draft := if s.draft.Some? then Some(s.draft.value.(mensa := c.name)) else None);
        var asked := AskWhatUserHad(chosen, from);
        Outcome(asked.state, [AnswerCallback(queryId)] + asked.sent)
  }

  /** The third callback handler: "correct" thanks and resets, "incorrect" asks again. */
  function OnConfirmation(s: State, owner: int, queryId: string, from: int, data: Option<string>): (r: Outcome)
    ensures !TakesConfirmation(data) || from != owner ==> r == Outcome(s, [])
  {
    if !TakesConfirmation(data) then Outcome(s, [])
    else if from != owner then Outcome(s, [])
    else if data == Some("correct") then Outcome(Reset(s), [Confirmed(from), AnswerCallback(queryId)])
    else
      var asked := AskWhatUserHad(s, from);
      Outcome(asked.state, [Retry(from)] + asked.sent + [AnswerCallback(queryId)])
  }

  /** A button press runs the three handlers in the order they are registered. */
  function OnCallback(s: State, owner: int, queryId: string, from: int, data: Option<string>, now: string): (r: Outcome)
    ensures from != owner ==> r == Outcome(s, [])
  {
    var first := OnYesNo(s, owner, queryId, from, data, now);
    var second := OnCanteen(first.state, owner, queryId, from, data);
    var third := OnConfirmation(second.state, owner, queryId, from, data);
    Outcome(third.state, first.sent + second.sent + third.sent)
  }

  /** The daily timer firing: it asks the owner, whatever the current state. */
  function OnSchedule(s: State, owner: int): (r: Outcome)
    ensures r.state.inConversation && r.state.step == 1
    ensures r.state.mensaId == s.mensaId && r.state.draft == s.draft
    ensures r.sent == [PromptVisited(owner)]
  {
    AskIfMensaToday(s, owner)
  }
}
