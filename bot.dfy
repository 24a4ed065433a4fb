/**
 * The bot process: the four module-level variables as the fields of one object, and one method per
 * helper and per registered handler. Every handler is proved to behave as the matching function of
 * module Conversation, where its properties are stated.
 */
module Bot {
  import opened Wrappers
  import opened Canteens
  import opened Menus
  import opened Matching
  import opened Conversation

  class MensaBot {
    /** The one authorised chat id; startup refuses to run without a nonzero one. */
    const owner: int

    var inConversation: bool
    var conversationStep: int
    var mensaId: int
    var userResponse: Option<Draft>

    function Snapshot(): State
      reads this
    {
      State(inConversation, conversationStep, mensaId, userResponse)
    }

    constructor (owner: int)
      requires owner != 0
      ensures this.owner == owner
      ensures Snapshot() == Initial && Valid(Snapshot())
    {
      this.owner := owner;
      inConversation := false;
      conversationStep := 0;
      mensaId := 0;
      userResponse := None;
    }

    method ResetConversation()
      modifies this
      ensures Snapshot() == Reset(old(Snapshot()))
    {
      inConversation := false;
      conversationStep := 0;
      mensaId := 0;
      userResponse := None;
    }

    method AskIfMensaToday(chat: int) returns (sent: seq<Outbound>)
      modifies this
      ensures Outcome(Snapshot(), sent) == Conversation.AskIfMensaToday(old(Snapshot()), chat)
    {
      inConversation := true;
      conversationStep := 1;
      sent := [PromptVisited(chat)];
    }

    method AskWhichMensa(chat: int) returns (sent: seq<Outbound>)
      modifies this
      ensures Outcome(Snapshot(), sent) == Conversation.AskWhichMensa(old(Snapshot()), chat)
    {
      conversationStep := 2;
      sent := [PromptCanteen(chat, ButtonLabels())];
    }

    method AskWhatUserHad(chat: int) returns (sent: seq<Outbound>)
      modifies this
      ensures Outcome(Snapshot(), sent) == Conversation.AskWhatUserHad(old(Snapshot()), chat)
    {
      conversationStep := 3;
      sent := [PromptMeal(chat)];
    }

    method HandleUserMealResponse(chat: int, mealResponse: string, fetch: MenuFetch, complete: Matcher)
      returns (sent: seq<Outbound>)
      modifies this
      ensures Outcome(Snapshot(), sent) == Conversation.HandleUserMealResponse(old(Snapshot()), chat, mealResponse, fetch, complete)
    {
      if !inConversation {
        sent := AskIfMensaToday(chat);
        return;
      } else if conversationStep == 1 {
        if mealResponse == "no" {
          sent := [Farewell(chat)];
          ResetConversation();
          return;
        } else if mealResponse == "yes" {
          sent := AskWhichMensa(chat);
          return;
        } else {
          sent := [InvalidAnswer(chat)];
          return;
        }
      } else if conversationStep == 2 {
        sent := AskWhatUserHad(chat);
        return;
      }

      ghost var before := Snapshot();
      assert Conversation.HandleUserMealResponse(before, chat, mealResponse, fetch, complete)
          == MatchStep(before, chat, mealResponse, fetch, complete);
      var menu := fetch(mensaId);
      if menu.None? {
        // the menu request rejects and the rest of the handler never runs
        sent := [];
        return;
      }
      var matchedItems := DecodeReply(complete(Candidates(menu.value), mealResponse));
      if matchedItems.None? {
        sent := [];
        return;
      }
      var readableMatch := Summary(matchedItems.value);
      var totalPrice := Total(matchedItems.value);
      if userResponse.Some? {
        userResponse := Some(userResponse.value.(userResponse := mealResponse, matchedItem := matchedItems.value));
      }
      sent := [MealSummary(chat, readableMatch, totalPrice)];
    }

    /** The message handler. */
    method OnMessage(chat: int, from: Option<int>, text: Option<string>, fetch: MenuFetch, complete: Matcher)
      returns (sent: seq<Outbound>)
      modifies this
      ensures Outcome(Snapshot(), sent) == Conversation.OnMessage(old(Snapshot()), owner, chat, from, text, fetch, complete)
    {
      if from != Some(owner) {
        sent := [];
      } else if text == Some("/start") {
        sent := [Welcome(chat)];
        ResetConversation();
      } else if text == Some("/cancel") {
        sent := [];
        ResetConversation();
      } else if inConversation && conversationStep == 3 {
        sent := HandleUserMealResponse(chat, TextOrEmpty(text), fetch, complete);
      } else {
        sent := AskIfMensaToday(chat);
      }
    }

    /** The first callback handler ("yes" / "no"). */
    method OnYesNo(queryId: string, from: int, data: Option<string>, now: string) returns (sent: seq<Outbound>)
      modifies this
      ensures Outcome(Snapshot(), sent) == Conversation.OnYesNo(old(Snapshot()), owner, queryId, from, data, now)
    {
      sent := [];
      if data != Some("no") && data != Some("yes") {
        return;
      }
      if from != owner {
        return;
      }
      if data == Some("no") {
        sent := [Farewell(from)];
        return;
      }
      if data == Some("yes") {
        userResponse := Some(Draft(now, "", "", []));
        sent := AskWhichMensa(from);
      }
      sent := sent + [AnswerCallback(queryId)];
    }

    /** The second callback handler (canteen selection). */
    method OnCanteen(queryId: string, from: int, data: Option<string>) returns (sent: seq<Outbound>)
      modifies this
      ensures Outcome(Snapshot(), sent) == Conversation.OnCanteen(old(Snapshot()), owner, queryId, from, data)
    {
      sent := [];
      if data == Some("no") || data == Some("yes") || data == Some("correct") || data == Some("incorrect") {
        return;
      }
      if from != owner {
        return;
      }
      var mensa := SelectedCanteen(data);
      if mensa.None? {
        sent := [InvalidCanteen(from)];
        return;
      }
      ghost var before := Snapshot();
      mensaId := mensa.value.id;
      if userResponse.Some? {
        userResponse := Some(userResponse.value.(mensa := mensa.value.name));
      }
      ghost var chosen := Snapshot();
      assert chosen == before.(mensaId := mensa.value.id,
                               draft := if before.draft.Some? then Some(before.draft.value.(mensa := mensa.value.name)) else None);
      sent := [AnswerCallback(queryId)];
      var asked := AskWhatUserHad(from);
      assert Outcome(Snapshot(), asked) == Conversation.AskWhatUserHad(chosen, from);
      sent := sent + asked;
    }

    /** The third callback handler ("correct" / "incorrect"). */
    method OnConfirmation(queryId: string, from: int, data: Option<string>) returns (sent: seq<Outbound>)
      modifies this
      ensures Outcome(Snapshot(), sent) == Conversation.OnConfirmation(old(Snapshot()), owner, queryId, from, data)
    {
      sent := [];
      if data != Some("correct") && data != Some("incorrect") {
        return;
      }
      if from != owner {
        return;
      }
      if data == Some("correct") {
        sent := [Confirmed(from)];
        ResetConversation();
      } else if data == Some("incorrect") {
        sent := [Retry(from)];
        var asked := AskWhatUserHad(from);
        sent := sent + asked;
      }
      sent := sent + [AnswerCallback(queryId)];
    }

    /** A button press, delivered to the three handlers in registration order. */
    method OnCallback(queryId: string, from: int, data: Option<string>, now: string) returns (sent: seq<Outbound>)
      modifies this
      ensures Outcome(Snapshot(), sent) == Conversation.OnCallback(old(Snapshot()), owner, queryId, from, data, now)
    {
      var first := OnYesNo(queryId, from, data, now);
      var second := OnCanteen(queryId, from, data);
      var third := OnConfirmation(queryId, from, data);
      sent := first + second + third;
    }

    /** The daily timer, once its random delay has passed. */
    method OnSchedule() returns (sent: seq<Outbound>)
      modifies this
      ensures Outcome(Snapshot(), sent) == Conversation.OnSchedule(old(Snapshot()), owner)
    {
      sent := AskIfMensaToday(owner);
    }
  }
}
