# Berlin Mensa meal tracker: conversation engine and meal matching

A Dafny model of the Telegram bot that asks its single owner every evening whether they ate at a
TU Berlin canteen, which one, and what they had; it then matches the description against that
canteen's menu and replies with the matched dishes and their total price.

The model has three parts:

- **The canteen table** (`canteens.dfy`): the five `{id, name}` rows in button order and the
  first-match lookup by name.
- **The matching pipeline** (`matching.dfy`). It takes the meals of the first menu section titled
  `Salate`, `Suppen`, `Aktionen`, `Essen`, `Beilagen` or `Desserts`. Each meal is projected to its
  name and first price. The matcher's reply is decoded. The reply's entries are rendered as
  summary lines, and the total is summed with the nested reduce of the source. The reference
  definitions it is proved against are a flat sum over all items and a filter of the non-empty
  entries.
- **The conversation state machine**, in two forms:
  - `conversation.dfy` gives one pure function per helper and per registered handler, from the
    state (`inConversation`, `conversationStep`, `mensaId`, the draft record) and an event to the
    new state and the list of outbound messages.
  - `bot.dfy` has the class `MensaBot`. Its fields are the four module-level variables, and it
    has one method per helper and per handler. Each method is proved to do what the
    corresponding function does.
  - `conversation_properties.dfy` states what the machine guarantees, and proves it.

Outbound messages are abstract tags (`PromptVisited`, `PromptCanteen`, `MealSummary`, ...). The
menu endpoint is a function parameter `fetch: int -> Option<MensaMenu>`. The completion call is a
function parameter `complete: (candidates, text) -> Reply`. A `None` menu, or a `Failed` reply,
stands for the rejected promise: the unawaited meal handler stops there, so nothing changes and
nothing is sent. A button press runs the three registered callback handlers in order. Their
filters are disjoint, so exactly one of them acts (`CallbackRunsOneHandler`). Prices are integer
cents.

Behaviours of the bot that the model keeps as they are:

- Step 0 and "not in conversation" do not always coincide: a "yes" press moves to step 2 without
  setting `inConversation`.
- A "no" press sends the goodbye and leaves the state unchanged.
- The daily timer asks its question even in the middle of a running conversation.
- A failed menu fetch sends no message and the meal handler stops before changing any state. The
  rejection is not handled, so the runtime's default may end the process; that is not modelled.
- Pressing "correct" thanks and resets; no record is stored.
- Matcher output that is not JSON makes the meal handler stop; it is not read as an empty match.
- Two button presses are never acknowledged: "no" and an unknown canteen.

## Model

| member | source | states |
|---|---|---|
| Lists.Map | bot.ts:75-80 | one result per element, in order, each the function applied to that element |
| Lists.Find | bot.ts:254 | the result is the first element satisfying the predicate, and none exactly when no element does |
| Lists.Join | bot.ts:176-179 | a single part is returned as is; the first part is a prefix; with non-empty parts the result is empty exactly when there are no parts |
| Lists.JoinSnoc | bot.ts:176-179 | appending a part appends the separator and that part, so a join is the parts accumulated from the left with the separator between neighbours |
| Canteens.FindByName | bot.ts:253-256 | a found canteen is a table row carrying that name; nothing is found exactly when no row has the name |
| Canteens.ButtonLabels | bot.ts:123-128 | one button per table row, labelled with that row's name, in table order |
| Canteens.TableShape | canteen.ts:6-12 | the table has exactly five rows; it lists the button labels in their fixed order |
| Canteens.NamesDistinct | canteen.ts:7-11 | no two rows share a name |
| Canteens.IdsDistinctAndPositive | canteen.ts:7-11 | no two rows share an id, and every id is positive |
| Canteens.LookupOwnName | bot.ts:254 | looking up any row's name returns that very row |
| Canteens.MarchstrasseIs538 | canteen.ts:8 | "Mensa TU Marchstraße" resolves to id 538 |
| Canteens.NoReservedName | canteen.ts:7-11 | no canteen name is one of the tokens yes, no, correct, incorrect |
| Matching.SectionMeals | bot.ts:66-71 | the meals of the first section whose title equals the given one, or none when no section has that title |
| Matching.FirstPrice | bot.ts:75 | the first price of the list, missing when the list is empty |
| Matching.Project | bot.ts:75-80 | one candidate per meal, in order, with the meal's name and its first price (missing when the price list is empty or null) |
| Matching.Offered | bot.ts:66-80 | the candidate list carries its title and holds the projected meals of the first section with exactly that title, or nothing when no section has it |
| Matching.OfferedAll | bot.ts:66-80 | one candidate list per title, in the order of the titles, each the one drawn for that title |
| Matching.Candidates | bot.ts:66-80 | six candidate lists, titled Salate, Suppen, Aktionen, Essen, Beilagen, Desserts in that order |
| Matching.DecodeReply | bot.ts:90 | absent content decodes to the empty match, parsed content to itself; only a failed call or malformed content yields no result |
| Matching.RenderCategory | bot.ts:175-177 | an entry's line is empty exactly when it has no items; otherwise it is the entry's name in bold followed by a colon, the item names separated by ", ", and two spaces |
| Matching.ItemNames | bot.ts:176 | one name per matched item, in reply order |
| Matching.RenderAll | bot.ts:174-178 | one rendered line per reply entry, in entry order |
| Matching.DropEmpty | bot.ts:179 | the kept lines are exactly the non-empty ones, none of them empty, and no more than there were; a single line is kept exactly when it is not empty |
| Matching.DropEmptyAppend | bot.ts:179 | filtering a concatenation is the concatenation of the filtered parts, so order and repeats of the kept lines are preserved |
| Matching.Summary | bot.ts:174-179 | the summary is the lines of the entries that have items, in entry order, joined by newlines |
| Matching.OfferedDrawnFromMenu | bot.ts:66-80 | every candidate for a title is a dish of a section with that title, with the dish's own first price |
| Matching.CandidatesFollowFirstSection | bot.ts:66-80 | each of the six lists carries its title and holds the projected meals of the first section with exactly that title, or nothing when no section has it |
| Matching.CandidatesDrawnFromMenu | bot.ts:66-80 | every candidate is a dish of a menu section with that title, with the dish's own first price |
| Matching.SummaryLinesAreNonEmptyEntries | bot.ts:174-179 | render-then-filter equals rendering only the entries with items, in order, and no kept line is empty |
| Matching.SummaryEmptyIff | bot.ts:174-179 | the summary is the empty string exactly when no entry has an item |
| Matching.PriceOrZero | bot.ts:183 | a null price adds 0 to the running sum; any other price adds itself |
| Matching.AddPrices | bot.ts:183 | the inner reduce adds the sum of the item prices, a null price counting 0, to its start value |
| Matching.AddCategories | bot.ts:181-185 | the outer reduce, which skips entries without items and starts each inner reduce at 0, adds the sum of all items' prices to its start value |
| Matching.Total | bot.ts:181-185 | the total is the sum of every matched item's price across all entries, a null price counting 0 |
| Matching.TotalOfEmptyMatch | bot.ts:181-185 | an empty match, or one whose entries are all empty, totals 0 |
| Matching.TotalNonNegative | bot.ts:181-185 | with no negative item price the total is not negative |
| Conversation.Reset | bot.ts:52-57 | after a reset: not in conversation, step 0, canteen id 0, no draft, which is the start state |
| Conversation.AskIfMensaToday | bot.ts:100-118 | sets in-conversation and step 1, keeps canteen id and draft, sends the visited-today question |
| Conversation.AskWhichMensa | bot.ts:120-133 | sets step 2, keeps in-conversation, canteen id and draft, and sends the canteen question with one button per canteen name |
| Conversation.AskWhatUserHad | bot.ts:135-143 | sets step 3, keeps in-conversation, canteen id and draft, and sends the meal question |
| Conversation.RecordMatch | bot.ts:187-190 | a draft exists afterwards exactly when it existed before, and only its description and match change |
| Conversation.MatchStep | bot.ts:167-203 | one summary is sent to the chat exactly when the menu arrives and the reply does not fail; when nothing is sent nothing changes |
| Conversation.HandleUserMealResponse | bot.ts:145-204 | the result is the reset state or keeps the canteen id and the draft's presence; the step stays in 0..3; at most one message, and exactly one outside the matching branch; no message means no change |
| Conversation.TextOrEmpty | bot.ts:221 | a message without text is read as the empty string; otherwise the text itself |
| Conversation.OnMessage | bot.ts:214-224 | a message whose sender is not the owner changes nothing and sends nothing |
| Conversation.SelectedCanteen | bot.ts:253-256 | a selected canteen is the table row named by the token; no canteen exactly when the token is missing or names no row |
| Conversation.TakesYesNo | bot.ts:229 | the first handler acts exactly on the tokens yes and no |
| Conversation.TakesCanteen | bot.ts:249 | the second handler acts exactly on a missing token or one that is not reserved |
| Conversation.TakesConfirmation | bot.ts:272 | the third handler acts exactly on the tokens correct and incorrect |
| Conversation.OnYesNo | bot.ts:226-244 | a token other than yes/no, or a sender other than the owner, changes nothing and sends nothing |
| Conversation.OnCanteen | bot.ts:246-267 | a reserved token, or a sender other than the owner, changes nothing and sends nothing |
| Conversation.OnConfirmation | bot.ts:269-285 | a token other than correct/incorrect, or a sender other than the owner, changes nothing and sends nothing |
| Conversation.OnCallback | bot.ts:226-285 | a button press from anyone but the owner changes nothing and sends nothing |
| Conversation.OnSchedule | bot.ts:289-296 | the timer sets in-conversation and step 1, keeps canteen id and draft, and asks the owner the visited-today question |
| ConversationProperties.ExactlyOneHandlerTakes | bot.ts:229-272 | the three token filters are pairwise disjoint and together accept every token, a missing one included |
| ConversationProperties.CallbackRunsOneHandler | bot.ts:226-285 | running the three handlers in sequence equals running only the one whose filter accepts the token |
| ConversationProperties.CommandsReset | bot.ts:216-220 | /start from the owner resets and sends the welcome; /cancel resets and sends nothing |
| ConversationProperties.CorrectResets | bot.ts:276-278 | "correct" resets to the start state, sends the thanks and acknowledges |
| ConversationProperties.EnterIdleOnlyByCommand | bot.ts:214-224 | a message brings a conversation that is under way back to step 0 only when the owner sends /start or /cancel |
| ConversationProperties.EnterIdleOnlyByCorrect | bot.ts:226-285 | a button press brings a conversation that is under way back to step 0 only when the owner presses correct |
| ConversationProperties.ResetIdempotent | bot.ts:52-57 | resetting twice is resetting once; the reset state has all four variables cleared |
| ConversationProperties.OwnerTextRouting | bot.ts:221-222 | a non-command text is matched exactly when in conversation at step 3; otherwise it sets in-conversation and step 1, keeps canteen and draft, and asks the visited-today question |
| ConversationProperties.MatchStepFrame | bot.ts:167-190 | the match step keeps in-conversation, step and canteen id; it keeps the draft's presence, date and canteen name; when nothing is sent nothing changes |
| ConversationProperties.MatchStepSucceeds | bot.ts:167-203 | with a menu and a usable reply, the draft gets the text and the match, and the summary and the total are sent |
| ConversationProperties.EmptyReplyStillAsksForConfirmation | bot.ts:90-203 | an absent reply yields an empty summary with total 0, still sent for confirmation |
| ConversationProperties.FailureLeavesStateAlone | bot.ts:167-168 | a failed menu fetch or failing reply leaves the state as it was and sends nothing |
| ConversationProperties.MealHandlerOnlyMatches | bot.ts:145-165 | at step 3 in conversation, the meal handler is exactly the match step, so its step-1 and step-2 branches are unreachable from the message handler |
| ConversationProperties.YesStartsDraft | bot.ts:238-243 | "yes" installs a fresh draft (given date, empty canteen and description, empty match) and sets step 2; it keeps in-conversation and canteen id and offers the canteens |
| ConversationProperties.NoOnlyAnswers | bot.ts:233-236 | "no" sends the goodbye only, changes no state and is not acknowledged |
| ConversationProperties.CanteenSelection | bot.ts:253-266 | an unknown name only reports the invalid choice; a known one sets the canteen id, the draft's canteen name if a draft exists, and step 3 |
| ConversationProperties.ButtonSelectsItsCanteen | bot.ts:123-128 | pressing any canteen button selects exactly the canteen it is labelled with, at step 3 |
| ConversationProperties.IncorrectAsksAgain | bot.ts:279-284 | "incorrect" sets step 3, keeps canteen and draft, and re-asks for the meal |
| ConversationProperties.IncorrectThenTextRematches | bot.ts:279-282 | after "incorrect" in a conversation, the next description is matched against the same canteen id |
| ConversationProperties.SelectedCanteenIsListed | bot.ts:261-262 | a selected canteen's id and name are among the table's |
| ConversationProperties.MatchStepValid | bot.ts:167-190 | the match step keeps the invariant |
| ConversationProperties.MessageKeepsValid | bot.ts:214-224 | every message keeps the step in 0..3 and the canteen id and draft canteen name among the table's |
| ConversationProperties.CallbackKeepsValid | bot.ts:226-285 | every button press keeps that invariant |
| ConversationProperties.ScheduleKeepsValid | bot.ts:289-296 | the timer keeps that invariant |
| ConversationProperties.DailyScenario | bot.ts:221-266 | timer, "yes", "Mensa TU Marchstraße" and a description end at step 3 with canteen 538, a filled draft and the summary sent |
| ConversationProperties.YesOutsideConversationLosesDescription | bot.ts:238-241 | a "yes" outside a conversation leaves in-conversation false, so the description after the canteen choice only restarts the questions |
| ConversationProperties.ScheduleInterruptsConversation | bot.ts:289-296 | the timer firing at step 3 moves a running conversation back to step 1 |
| Bot.MensaBot.constructor | bot.ts:36-39 | the process starts not in conversation, at step 0, with canteen id 0 and no draft |
| Bot.MensaBot.ResetConversation | bot.ts:52-57 | the four fields become the reset state |
| Bot.MensaBot.AskIfMensaToday | bot.ts:100-118 | fields and messages as the helper's function |
| Bot.MensaBot.AskWhichMensa | bot.ts:120-133 | fields and messages as the helper's function |
| Bot.MensaBot.AskWhatUserHad | bot.ts:135-143 | fields and messages as the helper's function |
| Bot.MensaBot.HandleUserMealResponse | bot.ts:145-204 | fields and messages as the meal handler's function, all branches included |
| Bot.MensaBot.OnMessage | bot.ts:214-224 | fields and messages as the message handler's function |
| Bot.MensaBot.OnYesNo | bot.ts:226-244 | fields and messages as the first callback handler's function |
| Bot.MensaBot.OnCanteen | bot.ts:246-267 | fields and messages as the second callback handler's function |
| Bot.MensaBot.OnConfirmation | bot.ts:269-285 | fields and messages as the third callback handler's function |
| Bot.MensaBot.OnCallback | bot.ts:226-285 | fields and messages as the three handlers run in registration order |
| Bot.MensaBot.OnSchedule | bot.ts:293-295 | fields and messages as the visited-today question sent to the owner |

## Left out

- Telegram I/O: the message texts, the wrapper text around the summary, the `<code>` markup around
  the total, the HTML parse mode, the keyboard layout and
  `bot.run`. Outbound messages are tags; the callback acknowledgement is the `AnswerCallback` tag.
- The OpenAI completion call and the prompt text. The call is the `complete` parameter, applied to
  the six candidate lists and the user's text. JSON parsing of its reply is not modelled: the
  parameter returns the parsed entries, no content, or a failure.
- The order of the reply's entries is taken as given. The model does not capture `Object.entries`
  putting integer-like keys first, or a repeated key keeping only its last value.
- The menu HTTP request: it is the `fetch` parameter, keyed by the canteen id.
- Menu fields the logic never reads: date, canteen, CO2, water, allergens, traffic light, diet.
- File persistence: the startup read/create of the data file, `saveData`, and the commented-out
  save. No record is ever stored.
- Environment checks and process exit at startup. The only trace of them is the constructor's
  nonzero owner id.
- The process-level effect of an unhandled rejection (a failed fetch or reply inside the unawaited
  meal handler). In the model that event only stops the handler.
- The cron job's hour and random delay: only its firing is modelled, as `OnSchedule`.
- Interleaving of overlapping asynchronous handlers: events are processed one at a time, each to
  completion.
- Floating point: prices are integer cents, the sum is exact, and the two-decimal formatting of the
  total is not modelled.
- The timestamp of a fresh draft: it is the `now` input.
- A menu price that is `null` and a missing first price are both `None`. The model does not
  distinguish `null` from `undefined`.
- Matching.Total: a matched item whose price is `null` adds 0, as in the source; an item whose
  price field is missing altogether, which makes the source's sum not a number, is not
  representable in the model.
- The draft object is updated through its only reference, the module variable, so a field write is
  modelled as replacing the draft value.
