/** What the conversation state machine guarantees, and the quirks it has, stated over module Conversation. */
module ConversationProperties {
  import opened Wrappers
  import opened Canteens
  import opened Menus
  import opened Matching
  import opened Conversation

  // ----- callback routing -----

  /** The three token filters are disjoint and cover every token, the missing one included. */
  lemma ExactlyOneHandlerTakes(data: Option<string>)
    ensures TakesYesNo(data) || TakesCanteen(data) || TakesConfirmation(data)
    ensures !(TakesYesNo(data) && TakesCanteen(data))
    ensures !(TakesYesNo(data) && TakesConfirmation(data))
    ensures !(TakesCanteen(data) && TakesConfirmation(data))
  {
  }

  /** Running all three handlers is the same as running only the one whose filter accepts the token. */
  lemma CallbackRunsOneHandler(s: State, owner: int, queryId: string, from: int, data: Option<string>, now: string)
    ensures TakesYesNo(data) ==> OnCallback(s, owner, queryId, from, data, now) == OnYesNo(s, owner, queryId, from, data, now)
    ensures TakesCanteen(data) ==> OnCallback(s, owner, queryId, from, data, now) == OnCanteen(s, owner, queryId, from, data)
    ensures TakesConfirmation(data) ==> OnCallback(s, owner, queryId, from, data, now) == OnConfirmation(s, owner, queryId, from, data)
  {
    ExactlyOneHandlerTakes(data);
    var r := OnCallback(s, owner, queryId, from, data, now);
    if TakesYesNo(data) {
      var first := OnYesNo(s, owner, queryId, from, data, now);
      assert r.sent == first.sent + [] + [];
    } else if TakesCanteen(data) {
      var second := OnCanteen(s, owner, queryId, from, data);
      assert r.sent == [] + second.sent + [];
    } else {
      var third := OnConfirmation(s, owner, queryId, from, data);
      assert r.sent == [] + [] + third.sent;
    }
  }

  // ----- the ways back to the initial state -----

  /** /start and /cancel from the owner reset everything; /start also sends the welcome text. */
  lemma CommandsReset(s: State, owner: int, chat: int, fetch: MenuFetch, complete: Matcher)
    ensures OnMessage(s, owner, chat, Some(owner), Some("/start"), fetch, complete) == Outcome(Initial, [Welcome(chat)])
    ensures OnMessage(s, owner, chat, Some(owner), Some("/cancel"), fetch, complete) == Outcome(Initial, [])
  {
  }

  /** "correct" from the owner thanks, acknowledges and resets; nothing is stored. */
  lemma CorrectResets(s: State, owner: int, queryId: string, now: string)
    ensures OnCallback(s, owner, queryId, owner, Some("correct"), now) == Outcome(Initial, [Confirmed(owner), AnswerCallback(queryId)])
  {
    CallbackRunsOneHandler(s, owner, queryId, owner, Some("correct"), now);
  }

  /** Mid-conversation, a message returns to step 0 only when the owner sends /start or /cancel. */
  lemma EnterIdleOnlyByCommand(s: State, owner: int, chat: int, from: Option<int>, text: Option<string>,
                               fetch: MenuFetch, complete: Matcher)
    ensures var r := OnMessage(s, owner, chat, from, text, fetch, complete);
            r.state.step == 0 && s.step != 0 ==> from == Some(owner) && (text == Some("/start") || text == Some("/cancel"))
  {
  }

  /** Mid-conversation, a button press returns to step 0 only when the owner presses "correct". */
  lemma EnterIdleOnlyByCorrect(s: State, owner: int, queryId: string, from: int, data: Option<string>, now: string)
    ensures var r := OnCallback(s, owner, queryId, from, data, now);
            r.state.step == 0 && s.step != 0 ==> from == owner && data == Some("correct")
  {
  }

  /** Resetting twice is resetting once. */
  lemma ResetIdempotent(s: State)
    ensures Reset(Reset(s)) == Reset(s)
    ensures !Reset(s).inConversation && Reset(s).step == 0 && Reset(s).mensaId == 0 && Reset(s).draft.None?
  {
  }

  // ----- plain text from the owner -----

  /**
   * A text that is not a command runs the matching step exactly when a conversation is running
   * at step 3; any other text (re)starts with the visited-today question, leaving canteen and draft alone.
   */
  lemma OwnerTextRouting(s: State, owner: int, chat: int, text: Option<string>, fetch: MenuFetch, complete: Matcher)
    requires text != Some("/start") && text != Some("/cancel")
    ensures var r := OnMessage(s, owner, chat, Some(owner), text, fetch, complete);
      if s.inConversation && s.step == 3 then r == MatchStep(s, chat, TextOrEmpty(text), fetch, complete)
      else r.state == s.(inConversation := true, step := 1) && r.sent == [PromptVisited(chat)]
  {
  }

  /**
   * The matching step keeps the conversation at step 3 with the same canteen; it writes only the
   * description and the match into the draft, and only if there is a draft.
   */
  lemma MatchStepFrame(s: State, chat: int, text: string, fetch: MenuFetch, complete: Matcher)
    ensures var r := MatchStep(s, chat, text, fetch, complete);
      && r.state.inConversation == s.inConversation
      && r.state.step == s.step
      && r.state.mensaId == s.mensaId
      && (r.state.draft.None? <==> s.draft.None?)
      && (s.draft.Some? ==> r.state.draft.value.date == s.draft.value.date
                            && r.state.draft.value.mensa == s.draft.value.mensa)
      && (r.sent == [] ==> r.state == s)
  {
  }

  /** With a menu and a usable reply, the draft takes the text and the match and the summary is sent. */
  lemma MatchStepSucceeds(s: State, chat: int, text: string, fetch: MenuFetch, complete: Matcher, menu: MensaMenu)
    requires fetch(s.mensaId) == Some(menu)
    requires !complete(Candidates(menu), text).Failed?
    ensures var m := DecodeReply(complete(Candidates(menu), text)).value;
      MatchStep(s, chat, text, fetch, complete)
        == Outcome(s.(draft := RecordMatch(s.draft, text, m)), [MealSummary(chat, Summary(m), Total(m))])
  {
  }

  /** A reply without content still offers the confirmation, with an empty summary and a zero total. */
  lemma EmptyReplyStillAsksForConfirmation(s: State, chat: int, text: string, fetch: MenuFetch, complete: Matcher, menu: MensaMenu)
    requires fetch(s.mensaId) == Some(menu)
    requires complete(Candidates(menu), text) == NoContent
    ensures MatchStep(s, chat, text, fetch, complete).sent == [MealSummary(chat, "", 0)]
  {
    assert NonEmptyCategories([]) == [] && AllItems([]) == [];
    assert Summary([]) == "" && Total([]) == 0;
    MatchStepSucceeds(s, chat, text, fetch, complete, menu);
  }

  /** A failed menu fetch or a failing reply changes nothing and sends nothing: the user stays at step 3. */
  lemma FailureLeavesStateAlone(s: State, chat: int, text: string, fetch: MenuFetch, complete: Matcher)
    requires fetch(s.mensaId).None? || complete(Candidates(fetch(s.mensaId).value), text).Failed?
    ensures MatchStep(s, chat, text, fetch, complete) == Outcome(s, [])
  {
  }

  /** The step-1 and step-2 branches of the meal handler are dead code from the message handler. */
  lemma MealHandlerOnlyMatches(s: State, chat: int, text: string, fetch: MenuFetch, complete: Matcher)
    requires s.inConversation && s.step == 3
    ensures HandleUserMealResponse(s, chat, text, fetch, complete) == MatchStep(s, chat, text, fetch, complete)
  {
  }

  // ----- button presses from the owner -----

  /** "yes" replaces the draft by a fresh one, moves to step 2 and offers the canteens in table order. */
  lemma YesStartsDraft(s: State, owner: int, queryId: string, now: string)
    ensures var r := OnCallback(s, owner, queryId, owner, Some("yes"), now);
      && r.state == s.(step := 2, draft := Some(Draft(now, "", "", [])))
      && r.sent == [PromptCanteen(owner, ButtonLabels()), AnswerCallback(queryId)]
  {
    CallbackRunsOneHandler(s, owner, queryId, owner, Some("yes"), now);
  }

  /** "no" only says goodbye: the state is kept and the press is not acknowledged. */
  lemma NoOnlyAnswers(s: State, owner: int, queryId: string, now: string)
    ensures OnCallback(s, owner, queryId, owner, Some("no"), now) == Outcome(s, [Farewell(owner)])
  {
    CallbackRunsOneHandler(s, owner, queryId, owner, Some("no"), now);
  }

  /**
   * Any other token is a canteen selection: an unknown name only reports the invalid choice; a known
   * one sets the canteen id, the draft's canteen name (if there is a draft) and step 3.
   */
  lemma CanteenSelection(s: State, owner: int, queryId: string, data: Option<string>, now: string)
    requires TakesCanteen(data)
    ensures var r := OnCallback(s, owner, queryId, owner, data, now);
      match SelectedCanteen(data)
      case None => r == Outcome(s, [InvalidCanteen(owner)])
      case Some(c) =>
        && r.state == s.(mensaId := c.id, step := 3,
                         draft := if s.draft.Some? then Some(s.draft.value.(mensa := c.name)) else None)
        && r.sent == [AnswerCallback(queryId), PromptMeal(owner)]
  {
    CallbackRunsOneHandler(s, owner, queryId, owner, data, now);
  }

  /** Every canteen button, pressed by the owner, selects exactly the canteen it is labelled with. */
  lemma ButtonSelectsItsCanteen(s: State, owner: int, queryId: string, i: int, now: string)
    requires 0 <= i < |ButtonLabels()|
    ensures var r := OnCallback(s, owner, queryId, owner, Some(ButtonLabels()[i]), now);
      r.state.mensaId == CANTEENS[i].id && r.state.step == 3
      && (s.draft.Some? ==> r.state.draft.Some? && r.state.draft.value.mensa == CANTEENS[i].name)
  {
    NoReservedName();
    assert TakesCanteen(Some(CANTEENS[i].name)) by {
      assert forall t :: 0 <= t < |RESERVED_TOKENS| ==> CANTEENS[i].name != RESERVED_TOKENS[t];
    }
    LookupOwnName(i);
    CanteenSelection(s, owner, queryId, Some(ButtonLabels()[i]), now);
  }

  /** "incorrect" asks for the meal again at step 3, keeping canteen and draft. */
  lemma IncorrectAsksAgain(s: State, owner: int, queryId: string, now: string)
    ensures OnCallback(s, owner, queryId, owner, Some("incorrect"), now)
      == Outcome(s.(step := 3), [Retry(owner), PromptMeal(owner), AnswerCallback(queryId)])
  {
    CallbackRunsOneHandler(s, owner, queryId, owner, Some("incorrect"), now);
  }

  /** After "incorrect" in a running conversation, the next description is matched against the same canteen. */
  lemma IncorrectThenTextRematches(s: State, owner: int, queryId: string, now: string, chat: int,
                                    text: string, fetch: MenuFetch, complete: Matcher)
    requires s.inConversation
    requires text != "/start" && text != "/cancel"
    ensures var after := OnCallback(s, owner, queryId, owner, Some("incorrect"), now).state;
      && after.mensaId == s.mensaId
      && OnMessage(after, owner, chat, Some(owner), Some(text), fetch, complete) == MatchStep(after, chat, text, fetch, complete)
  {
    IncorrectAsksAgain(s, owner, queryId, now);
    var after := s.(step := 3);
    OwnerTextRouting(after, owner, chat, Some(text), fetch, complete);
  }

  // ----- the invariant -----

  lemma SelectedCanteenIsListed(data: Option<string>)
    ensures SelectedCanteen(data).Some? ==> IsCanteenId(SelectedCanteen(data).value.id) && IsCanteenName(SelectedCanteen(data).value.name)
  {
  }

  lemma MatchStepValid(s: State, chat: int, text: string, fetch: MenuFetch, complete: Matcher)
    requires Valid(s)
    ensures Valid(MatchStep(s, chat, text, fetch, complete).state)
  {
    MatchStepFrame(s, chat, text, fetch, complete);
  }

  /** Every message keeps the step in 0..3 and the canteen id and draft canteen name among the table's. */
  lemma MessageKeepsValid(s: State, owner: int, chat: int, from: Option<int>, text: Option<string>,
                          fetch: MenuFetch, complete: Matcher)
    requires Valid(s)
    ensures Valid(OnMessage(s, owner, chat, from, text, fetch, complete).state)
  {
    if from == Some(owner) && text != Some("/start") && text != Some("/cancel") && s.inConversation && s.step == 3 {
      MatchStepValid(s, chat, TextOrEmpty(text), fetch, complete);
    }
  }

  /** Every button press keeps the invariant. */
  lemma CallbackKeepsValid(s: State, owner: int, queryId: string, from: int, data: Option<string>, now: string)
    requires Valid(s)
    ensures Valid(OnCallback(s, owner, queryId, from, data, now).state)
  {
    CallbackRunsOneHandler(s, owner, queryId, from, data, now);
    if TakesCanteen(data) && from == owner {
      SelectedCanteenIsListed(data);
    }
  }

  /** The timer keeps the invariant. */
  lemma ScheduleKeepsValid(s: State, owner: int)
    requires Valid(s)
    ensures Valid(OnSchedule(s, owner).state)
  {
  }

  // ----- scenarios -----

  /**
   * The daily run: the timer asks, the owner presses "yes", picks "Mensa TU Marchstraße" and describes
   * the meal; the menu of canteen 538 is matched and the summary with its total is sent.
   */
  lemma DailyScenario(owner: int, chat: int, q1: string, q2: string, now: string, text: string,
                      fetch: MenuFetch, complete: Matcher, menu: MensaMenu, m: MatchResult)
    requires text != "/start" && text != "/cancel"
    requires fetch(538) == Some(menu)
    requires complete(Candidates(menu), text) == Json(m)
    ensures var s1 := OnSchedule(Initial, owner);
      var s2 := OnCallback(s1.state, owner, q1, owner, Some("yes"), now);
      var s3 := OnCallback(s2.state, owner, q2, owner, Some("Mensa TU Marchstraße"), now);
      var s4 := OnMessage(s3.state, owner, chat, Some(owner), Some(text), fetch, complete);
      && s2.sent == [PromptCanteen(owner, ButtonLabels()), AnswerCallback(q1)]
      && s3.sent == [AnswerCallback(q2), PromptMeal(owner)]
      && s4.sent == [MealSummary(chat, Summary(m), Total(m))]
      && s4.state == State(true, 3, 538, Some(Draft(now, "Mensa TU Marchstraße", text, m)))
  {
    var s1 := OnSchedule(Initial, owner);
    assert s1.state == State(true, 1, 0, None);
    YesStartsDraft(s1.state, owner, q1, now);
    var s2 := OnCallback(s1.state, owner, q1, owner, Some("yes"), now);
    assert s2.state == State(true, 2, 0, Some(Draft(now, "", "", [])));
    ButtonSelectsItsCanteen(s2.state, owner, q2, 1, now);
    LookupOwnName(1);
    assert ButtonLabels()[1] == "Mensa TU Marchstraße";
    var s3 := OnCallback(s2.state, owner, q2, owner, Some("Mensa TU Marchstraße"), now);
    CanteenSelection(s2.state, owner, q2, Some("Mensa TU Marchstraße"), now);
    assert s3.state == State(true, 3, 538, Some(Draft(now, "Mensa TU Marchstraße", "", [])));
    OwnerTextRouting(s3.state, owner, chat, Some(text), fetch, complete);
    MatchStepSucceeds(s3.state, chat, text, fetch, complete, menu);
  }

  /**
   * A "yes" pressed outside a running conversation does not start one: after picking a canteen the
   * bot is at step 3 but not in a conversation, so the description only restarts the questions.
   */
  lemma YesOutsideConversationLosesDescription(owner: int, chat: int, q1: string, q2: string, now: string,
                                                text: string, fetch: MenuFetch, complete: Matcher)
    requires text != "/start" && text != "/cancel"
    ensures var s2 := OnCallback(Initial, owner, q1, owner, Some("yes"), now);
      var s3 := OnCallback(s2.state, owner, q2, owner, Some(CANTEENS[0].name), now);
      var s4 := OnMessage(s3.state, owner, chat, Some(owner), Some(text), fetch, complete);
      && !s3.state.inConversation && s3.state.step == 3
      && s4.sent == [PromptVisited(chat)]
      && s4.state.draft == Some(Draft(now, CANTEENS[0].name, "", []))
  {
    var s2 := OnCallback(Initial, owner, q1, owner, Some("yes"), now);
    YesStartsDraft(Initial, owner, q1, now);
    ButtonSelectsItsCanteen(s2.state, owner, q2, 0, now);
    CanteenSelection(s2.state, owner, q2, Some(CANTEENS[0].name), now);
    LookupOwnName(0);
  }

  /** A start trigger is not guarded: the timer firing mid-conversation overwrites the step. */
  lemma ScheduleInterruptsConversation(s: State, owner: int)
    requires s.inConversation && s.step == 3
    ensures OnSchedule(s, owner).state == s.(step := 1)
  {
  }
}
