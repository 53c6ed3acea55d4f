# Scripted conversation and voice assistant of the investbank screens

This project models the state logic of two React screens of the investbank
demo app, `FamilyCircle` and `Chat`. Both run the same scripted conversation.
The user asks to add "Ahmed" to the circle. The assistant answers with
Ahmed's avatar, the user picks one or more roles and confirms, and the assistant
reports the new member and asks a follow-up question. Beside the chat, each
screen keeps a voice assistant that reveals a fixed transcript one character
at a time. On the family-circle screen there is also a six-switch permission
panel, a three-card carousel and a "fourth avatar" flag.

Modules:

- `Conversation`:
  - the eight conversation stages;
  - the message record, and the round's four scripted messages (`Script`), which each screen fills with its own texts;
  - the role catalogue and the role toggle (`filter` or append);
  - JavaScript's `String.prototype.trim`, which guards a submission.
- `Voice`: the voice sub-machine (`listening -> confirming -> success`), shared by both screens. `Settle` models the two effects keyed on `(isVoiceActive, voiceStage)`: React re-runs them only when one of the two changed. The transcript interval keeps its closure variables `currentText` and `i` as `revealText` and `revealIndex`.
- `PermissionPanel`: the permission record and `togglePermission`.
- `FamilyCircle`: `src/pages/FamilyCircle.tsx`.
- `Chat`: `src/pages/Chat.tsx`.

Each screen is modelled in two layers:

- A state datatype with one function per event handler and per timer firing (`AfterInputSubmit`, `AfterChatTimer`, ...). The properties are proved about these functions.
- A class (`FamilyCircleScreen`, `ChatScreen`) holding the component's `useState` fields. Each of its methods updates those fields as the handler does, and its contract ties the new state to the function: `State() == AfterX(old(State()))`.

Timers are discrete events. A conversation timer is cleared whenever the stage changes, so a firing acts on the current stage only. A `setTimeout` that is never cancelled is a counter of pending firings: the fourth-avatar timeout of `handleConfirm`, and the closing timeout of Chat's `handleVoiceConfirm`.

`Offered(s, e)` says which events the rendered screen makes possible: the controls shown in the current stage, and nothing behind an active voice view. The invariant `Valid` is proved to hold after every offered event. On both screens `Valid` says four things:

- the messages are whole rounds of the script plus the part of the current round the stage has reached;
- the role list has no duplicates;
- a role is selected from the confirmation card on;
- the voice transcript is a prefix of the fixed text, and is empty while the voice view is closed.

On the family-circle screen it says two more:

- in `confirmed` and `followUp` the fourth avatar is shown;
- while the dashboard is shown the conversation is `idle`.

Where the source and its design description disagree, the model follows the source:

- The first message of a round is a fixed user text, not the text the user typed.
- The selected roles are kept after confirmation. Only the family-circle screen's back button clears them.
- The family-circle screen clears the draft on submit. The chat screen accepts a submission only from `idle` and clears the draft one timer step later.

## Model

| member | source | states |
|---|---|---|
| Conversation.TimedNext | src/pages/FamilyCircle.tsx:69-121 | each timed stage's timer moves exactly one stage forward, never to `idle`, `confirmationCard` or `animatingAvatar` |
| Conversation.TimedStepAppendsNext | src/pages/FamilyCircle.tsx:69-121 | each timer step appends the next scripted message of the round (the count of appended messages goes up by one, modulo 4) |
| Conversation.ScriptLine | src/pages/FamilyCircle.tsx:70-119 | the round's four scripted messages: only the first is the user's; only the second carries an inline avatar, Ahmed's `ahmed.png`; only the third shows the avatar group |
| Conversation.AppendFollowsScript | src/pages/FamilyCircle.tsx:69-121 | appending the round's next scripted line while taking a timed step keeps the messages on the script |
| Conversation.Without | src/pages/FamilyCircle.tsx:133-135 | `filter(id => id !== x)` keeps exactly the elements different from x and never lengthens the list |
| Conversation.WithoutAbsent | src/pages/FamilyCircle.tsx:133-135 | filtering out an absent role returns the list unchanged |
| Conversation.WithoutAt | src/pages/FamilyCircle.tsx:133-135 | in a duplicate-free list, filtering out the element at index k deletes exactly position k; the others keep their order |
| Conversation.ToggleRole | src/pages/FamilyCircle.tsx:131-137 | the tapped role's membership flips, every other role's membership is unchanged, and an absent role is appended at the end |
| Conversation.ToggleRoleRemovesInPlace | src/pages/Chat.tsx:160-166 | removing a selected role deletes it in place and keeps the relative order of the others |
| Conversation.ToggleRoleNoDuplicates | src/pages/FamilyCircle.tsx:131-137 | the selection never holds a role twice |
| Conversation.TapFlips | src/pages/FamilyCircle.tsx:131-137 | one tap flips the membership of the tapped role and of no other |
| Conversation.ToggleAllParity | src/pages/FamilyCircle.tsx:131-137 | after a run of taps, a role is selected exactly when its initial membership differs from the parity of its tap count |
| Conversation.CountParityStep | src/pages/FamilyCircle.tsx:131-137 | the parity of a role's tap count changes exactly when the first tap is on that role |
| Conversation.OddTapsSelected | src/pages/Chat.tsx:160-166 | from an empty selection, exactly the roles tapped an odd number of times are selected |
| Conversation.IsWhitespace | src/pages/FamilyCircle.tsx:124 | the characters `trim()` removes: among ASCII exactly tab, line feed, vertical tab, form feed, carriage return and space; also the no-break space and the byte order mark |
| Conversation.TrimStart | src/pages/FamilyCircle.tsx:124 | leading-whitespace removal returns a suffix that starts with a visible character and drops only whitespace |
| Conversation.TrimEnd | src/pages/FamilyCircle.tsx:124 | trailing-whitespace removal returns a prefix that ends with a visible character and drops only whitespace |
| Conversation.Trim | src/pages/Chat.tsx:141 | `trim()` is empty exactly when the text is all whitespace; otherwise both its ends are visible |
| Conversation.HasText | src/pages/FamilyCircle.tsx:124 | `inputValue.trim()` is truthy exactly when the text holds a character that is not whitespace |
| Voice.Initial | src/pages/FamilyCircle.tsx:36-38 | the voice view starts closed, in `listening`, with an empty transcript, and satisfies the voice invariant |
| Voice.Settle | src/pages/FamilyCircle.tsx:188-207 | the effects run only when the (active, stage) pair changed; a move to an active non-`listening` stage changes nothing more; entering active `listening` restarts the interval from the empty text and keeps the stage and transcript; deactivating resets the stage to `listening` and the transcript to ""; outside a restart the interval's closure variables are kept |
| Voice.SetActive | src/pages/FamilyCircle.tsx:230 | `setIsVoiceActive(b)`: closing resets to `listening` with an empty transcript; opening a closed view keeps its stage and transcript and, in `listening`, restarts the interval from the empty text; re-opening an open view changes nothing; the voice invariant is kept |
| Voice.Click | src/pages/Chat.tsx:146-149 | `handleVoiceClick` always leaves the view revealing; from a closed view it starts an empty, valid transcript; while already revealing it changes nothing |
| Voice.Confirm | src/pages/FamilyCircle.tsx:209-210 | confirming an open view shows `success` and keeps the view open, its transcript, the interval's closure variables and the invariant |
| Voice.AdvanceTick | src/pages/FamilyCircle.tsx:178-185 | the auto-advance timer moves an active `listening` view to active `confirming` and keeps the transcript and the interval's closure variables; otherwise nothing changes |
| Voice.RevealTick | src/pages/FamilyCircle.tsx:193-201 | while characters remain, one interval firing appends the next character of the fixed text to the interval's text and shows it as the transcript, keeping the view's activity and stage; afterwards nothing changes |
| Voice.RevealTicksShowPrefix | src/pages/Chat.tsx:64-78 | after n firings the transcript is the first min(start + n, 48) characters of the fixed text |
| Voice.TranscriptCompleteIff | src/pages/Chat.tsx:66-77 | an interval started afresh shows the whole fixed text exactly when it has fired at least 48 times |
| PermissionPanel.Default | src/pages/FamilyCircle.tsx:159-166 | only balance and transactions are on initially |
| PermissionPanel.Toggle | src/pages/FamilyCircle.tsx:173-175 | `togglePermission(k)` negates key k and leaves the other five unchanged |
| PermissionPanel.SameSwitches | src/pages/FamilyCircle.tsx:159-166 | two permission records agreeing on all six keys are equal |
| PermissionPanel.ToggleTwiceRestores | src/pages/FamilyCircle.tsx:173-175 | toggling the same key twice restores the record |
| PermissionPanel.TogglesCommute | src/pages/FamilyCircle.tsx:173-175 | toggles of two keys commute |
| FamilyCircle.Init | src/pages/FamilyCircle.tsx:35-47 | the screen mounts on the dashboard with an idle, empty chat and the fourth avatar hidden, and satisfies the screen invariant |
| FamilyCircle.AfterInputChange | src/pages/FamilyCircle.tsx:398 | the text field's change handler stores the draft and nothing else |
| FamilyCircle.SubmitAccepted | src/pages/FamilyCircle.tsx:124 | a submission is accepted exactly when the stage is `idle` or `followUp` and the draft holds a character that is not whitespace |
| FamilyCircle.AfterInputSubmit | src/pages/FamilyCircle.tsx:123-129 | submit changes the state exactly when the stage is `idle` or `followUp` and the trimmed draft is non-empty; then it opens the chat view, clears the draft and enters `userTyping` |
| FamilyCircle.AfterRoleToggle | src/pages/FamilyCircle.tsx:131-137 | a role tap flips that role's membership, appends an absent one at the end, and leaves the stage and everything else unchanged |
| FamilyCircle.AfterRoleConfirm | src/pages/FamilyCircle.tsx:139-143 | Continue moves to `confirmationCard` with a role selected; with none it changes nothing |
| FamilyCircle.AfterConfirmAddMember | src/pages/FamilyCircle.tsx:145-147 | Confirm enters `animatingAvatar` and changes nothing else |
| FamilyCircle.AfterBackToDashboard | src/pages/FamilyCircle.tsx:149-156 | back shows the dashboard with an idle, empty chat and no roles, and keeps the fourth avatar, the draft, the permissions and the voice state |
| FamilyCircle.AfterTogglePermission | src/pages/FamilyCircle.tsx:173-175 | a permission tap negates exactly that switch and changes nothing else on the screen |
| FamilyCircle.ClampCardIndex | src/pages/FamilyCircle.tsx:65 | the clamp lies in [0, 2], keeps an index already inside it and maps an index below or above it to the nearer end |
| FamilyCircle.AfterCardsScroll | src/pages/FamilyCircle.tsx:60-66 | a carousel scroll sets the active card index to the clamp of the given index, within the three cards, and changes nothing else |
| FamilyCircle.AfterMicTap | src/pages/FamilyCircle.tsx:410 | the microphone changes only the voice view, as `Voice.SetActive(v, true)`: the view opens, and from a closed view it starts revealing from an empty transcript |
| FamilyCircle.AfterVoiceClose | src/pages/FamilyCircle.tsx:230 | closing the voice view resets it to `listening` with an empty transcript and changes nothing else |
| FamilyCircle.AfterConfirm | src/pages/FamilyCircle.tsx:209-215 | voice confirm changes the voice view as `Voice.Confirm` (open, `success`, transcript kept) and schedules one more fourth-avatar timeout |
| FamilyCircle.AfterDismiss | src/pages/FamilyCircle.tsx:343-346 | Dismiss closes and resets the voice view and shows the fourth avatar |
| FamilyCircle.AfterChatTimer | src/pages/FamilyCircle.tsx:69-121 | in a timed stage a firing moves one stage on and appends exactly the round's next scripted message, keeping the earlier ones as a prefix; `animatingAvatar -> confirmed` shows the avatar group and the fourth avatar; in an untimed stage nothing changes |
| FamilyCircle.AfterVoiceAdvance | src/pages/FamilyCircle.tsx:178-185 | the auto-advance timer changes only the voice view, as `Voice.AdvanceTick`: a revealing view moves to `confirming`, keeping the transcript; otherwise nothing changes |
| FamilyCircle.AfterReveal | src/pages/FamilyCircle.tsx:188-202 | an interval firing changes only the voice view, as `Voice.RevealTick`: the transcript grows by one character of the fixed text while characters remain; afterwards nothing changes |
| FamilyCircle.AfterAvatarTimer | src/pages/FamilyCircle.tsx:212-214 | a pending fourth-avatar timeout shows the fourth avatar; with none pending nothing changes |
| FamilyCircle.ChatTimerFollowsScript | src/pages/FamilyCircle.tsx:69-121 | a conversation timer firing keeps the messages aligned with the script |
| FamilyCircle.SubmitPreservesValid | src/pages/FamilyCircle.tsx:123-129 | an accepted submission starts a round at a round boundary and keeps the invariant; a rejected one changes nothing |
| FamilyCircle.Step | src/pages/FamilyCircle.tsx:123-215 | only a permission tap changes the switches, only a carousel scroll the card index, only submit or back the view, only a role tap or back the roles, only voice confirm adds a fourth-avatar timeout |
| FamilyCircle.InputBarShown | src/pages/FamilyCircle.tsx:873-897 | the text field, send and microphone buttons are shown on the dashboard, and in the chat view exactly in `idle` and `followUp`, never behind the voice view |
| FamilyCircle.Offered | src/pages/FamilyCircle.tsx:805-897 | behind the active voice view only its own controls and timers are offered; role taps only in `roleSelection` and only for catalogue roles; Continue only with a role selected; the panel only on the dashboard; the avatar timeout only while one is pending; the other timers always |
| FamilyCircle.ConversationEventPreservesValid | src/pages/FamilyCircle.tsx:139-156 | typing, Continue, Confirm and back keep the invariant when the screen offers them |
| FamilyCircle.VoiceEventPreservesValid | src/pages/FamilyCircle.tsx:177-215 | the voice view's controls and timers keep the invariant |
| FamilyCircle.PanelEventPreservesValid | src/pages/FamilyCircle.tsx:60-66 | the permission switches, the carousel and the fourth-avatar timeout keep the invariant |
| FamilyCircle.StepPreservesValid | src/pages/FamilyCircle.tsx:69-215 | every event the screen offers keeps the screen invariant |
| FamilyCircle.RunPreservesValid | src/pages/FamilyCircle.tsx:69-215 | every run of offered events from a valid state ends in a valid state |
| FamilyCircle.MessagesOnlyGrow | src/pages/FamilyCircle.tsx:72-117 | apart from going back, every event only appends to the messages, at most one per event |
| FamilyCircle.FourthAvatarStays | src/pages/FamilyCircle.tsx:155 | once shown, the fourth avatar is never hidden again, not even by going back to the dashboard |
| FamilyCircle.StageMovesForward | src/pages/FamilyCircle.tsx:123-156 | an offered event never moves the stage backwards, except back (to `idle`) and a new submission from `followUp` (to `userTyping`) |
| FamilyCircle.DemoOpening | src/pages/FamilyCircle.tsx:69-93 | typing, submitting and two timer steps bring the user's request and the AI's question, and open the role picker with nothing selected |
| FamilyCircle.DemoClosing | src/pages/FamilyCircle.tsx:95-147 | from the role picker, picking "manager", Continue, Confirm and two timer steps append the last two scripted messages, reach `followUp` and show the fourth avatar |
| FamilyCircle.DemoRun | src/pages/FamilyCircle.tsx:69-147 | type, submit, two timer steps, pick "manager", continue, confirm and two more timer steps end in `followUp` with the four scripted messages and the fourth avatar shown |
| FamilyCircle.FamilyCircleScreen.constructor | src/pages/FamilyCircle.tsx:35-47 | the mounted screen's fields form the initial state |
| FamilyCircle.FamilyCircleScreen.RunVoiceEffects | src/pages/FamilyCircle.tsx:178-207 | re-running the voice effects updates the fields as `Voice.Settle` does |
| FamilyCircle.FamilyCircleScreen.HandleInputChange | src/pages/FamilyCircle.tsx:398 | updates the fields as `AfterInputChange` does |
| FamilyCircle.FamilyCircleScreen.HandleInputSubmit | src/pages/FamilyCircle.tsx:123-129 | updates the fields as `AfterInputSubmit` does |
| FamilyCircle.FamilyCircleScreen.HandleRoleToggle | src/pages/FamilyCircle.tsx:131-137 | updates the fields as `AfterRoleToggle` does |
| FamilyCircle.FamilyCircleScreen.HandleRoleConfirm | src/pages/FamilyCircle.tsx:139-143 | updates the fields as `AfterRoleConfirm` does |
| FamilyCircle.FamilyCircleScreen.HandleConfirmAddMember | src/pages/FamilyCircle.tsx:145-147 | updates the fields as `AfterConfirmAddMember` does |
| FamilyCircle.FamilyCircleScreen.HandleBackToDashboard | src/pages/FamilyCircle.tsx:149-156 | updates the fields as `AfterBackToDashboard` does |
| FamilyCircle.FamilyCircleScreen.TogglePermission | src/pages/FamilyCircle.tsx:173-175 | updates the fields as `AfterTogglePermission` does |
| FamilyCircle.FamilyCircleScreen.HandleCardsScroll | src/pages/FamilyCircle.tsx:60-66 | updates the fields as `AfterCardsScroll` does |
| FamilyCircle.FamilyCircleScreen.HandleMicTap | src/pages/FamilyCircle.tsx:410 | sets the voice view active and re-runs the effects, as `AfterMicTap` |
| FamilyCircle.FamilyCircleScreen.HandleVoiceClose | src/pages/FamilyCircle.tsx:230 | sets the voice view inactive and re-runs the effects, as `AfterVoiceClose` |
| FamilyCircle.FamilyCircleScreen.HandleConfirm | src/pages/FamilyCircle.tsx:209-215 | updates the fields as `AfterConfirm` does |
| FamilyCircle.FamilyCircleScreen.HandleDismiss | src/pages/FamilyCircle.tsx:343-346 | updates the fields as `AfterDismiss` does |
| FamilyCircle.FamilyCircleScreen.ChatTimerFires | src/pages/FamilyCircle.tsx:69-121 | appends the stage's message and advances, as `AfterChatTimer` |
| FamilyCircle.FamilyCircleScreen.VoiceAdvanceFires | src/pages/FamilyCircle.tsx:178-185 | updates the fields as `AfterVoiceAdvance` does |
| FamilyCircle.FamilyCircleScreen.RevealFires | src/pages/FamilyCircle.tsx:193-201 | advances the interval's closure variables and the transcript as `AfterReveal` |
| FamilyCircle.FamilyCircleScreen.AvatarTimerFires | src/pages/FamilyCircle.tsx:212-214 | updates the fields as `AfterAvatarTimer` does |
| Chat.Init | src/pages/Chat.tsx:28-34 | the chat screen mounts idle, with no messages and no closing timeout pending, and satisfies its invariant |
| Chat.AfterInputChange | src/pages/Chat.tsx:391 | the text field's change handler stores the draft and nothing else |
| Chat.SubmitAccepted | src/pages/Chat.tsx:141 | a submission is accepted exactly when the stage is `idle` and the draft holds a character that is not whitespace |
| Chat.AfterInputSubmit | src/pages/Chat.tsx:140-144 | submit changes the state exactly when the stage is `idle` and the trimmed draft is non-empty, and then only enters `userTyping`, keeping the draft; from `followUp` it does nothing |
| Chat.AfterVoiceClick | src/pages/Chat.tsx:146-149 | the voice button changes only the voice view, as `Voice.Click`: it is left revealing, and from a closed view the transcript and the interval start empty |
| Chat.AfterVoiceClose | src/pages/Chat.tsx:424 | closing the voice view resets it to `listening` with an empty transcript and changes nothing else |
| Chat.AfterVoiceConfirm | src/pages/Chat.tsx:151-158 | voice confirm changes the voice view as `Voice.Confirm` (open, `success`, transcript kept) and schedules one more closing timeout |
| Chat.AfterRoleToggle | src/pages/Chat.tsx:160-166 | a role tap flips that role's membership, appends an absent one at the end, and leaves the stage and everything else unchanged |
| Chat.AfterRoleConfirm | src/pages/Chat.tsx:168-172 | Continue moves to `confirmationCard` with a role selected; with none it changes nothing |
| Chat.AfterConfirmAddMember | src/pages/Chat.tsx:174-176 | Confirm enters `animatingAvatar` and changes nothing else |
| Chat.AfterChatTimer | src/pages/Chat.tsx:86-138 | in a timed stage a firing moves one stage on and appends exactly the round's next message, keeping the earlier ones as a prefix. The `userTyping` step appends the fixed user text and clears the draft; the `aiResponding` step shows Ahmed's inline avatar; the later steps append AI messages. In an untimed stage nothing changes |
| Chat.AfterVoiceAdvance | src/pages/Chat.tsx:53-61 | the auto-advance timer changes only the voice view, as `Voice.AdvanceTick`: a revealing view moves to `confirming`, keeping the transcript; otherwise nothing changes |
| Chat.AfterReveal | src/pages/Chat.tsx:64-78 | an interval firing changes only the voice view, as `Voice.RevealTick`: the transcript grows by one character of the fixed text while characters remain; afterwards nothing changes |
| Chat.AfterCloseTimer | src/pages/Chat.tsx:153-157 | a pending closing timeout closes and resets the voice view and sets the stage to `userTyping` whatever it was, keeping messages, roles and draft |
| Chat.ChatTimerFollowsScript | src/pages/Chat.tsx:86-138 | a conversation timer firing keeps the messages aligned with the script |
| Chat.SubmitPreservesValid | src/pages/Chat.tsx:140-144 | an accepted submission starts a round from an empty `idle` chat and keeps the invariant |
| Chat.Step | src/pages/Chat.tsx:86-176 | only a role tap changes the roles, only typing or a timer step the draft, only voice confirm adds a closing timeout |
| Chat.Offered | src/pages/Chat.tsx:188-409 | while the voice view is active only its controls and the timers are offered; the input bar only in `idle` and `followUp`; role taps only in `roleSelection` and only for catalogue roles; Continue only with a role selected; the closing timeout only while one is pending; the other timers always |
| Chat.ConversationEventPreservesValid | src/pages/Chat.tsx:168-176 | typing, Continue and Confirm keep the invariant when the screen offers them |
| Chat.VoiceEventPreservesValid | src/pages/Chat.tsx:53-83 | the voice view's controls and timers keep the invariant |
| Chat.AlignedCloseTimerPreservesValid | src/pages/Chat.tsx:153-157 | the closing timeout keeps the invariant when it fires in `idle`, `userTyping` or `followUp` |
| Chat.StepPreservesValid | src/pages/Chat.tsx:86-176 | every offered event keeps the chat screen's invariant, the closing timeout provided it fires in `idle`, `userTyping` or `followUp` |
| Chat.RunPreservesValid | src/pages/Chat.tsx:86-176 | every such run from a valid state ends in a valid state |
| Chat.CloseTimerValidIff | src/pages/Chat.tsx:153-157 | from a valid state, the closing timeout keeps the invariant exactly when it fires in `idle`, `userTyping` or `followUp` |
| Chat.ForcedRestartRepeatsUserMessage | src/pages/Chat.tsx:153-157 | a closing timeout that fires while the AI is answering, followed by one timer step, leaves the user's message on screen twice in a row |
| Chat.MessagesOnlyGrow | src/pages/Chat.tsx:90-133 | every event only appends to the messages, at most one per event |
| Chat.StageMovesForward | src/pages/Chat.tsx:140-176 | an offered event never moves the stage backwards, except the closing timeout (to `userTyping`) |
| Chat.VoiceDemo | src/pages/Chat.tsx:146-158 | open voice, auto-advance, confirm, closing timeout and one timer step: the voice view is closed and reset and the chat shows the scripted user message in `aiResponding` |
| Chat.ChatScreen.constructor | src/pages/Chat.tsx:28-34 | the mounted screen's fields form the initial state |
| Chat.ChatScreen.RunVoiceEffects | src/pages/Chat.tsx:53-83 | re-running the voice effects updates the fields as `Voice.Settle` does |
| Chat.ChatScreen.HandleInputChange | src/pages/Chat.tsx:391 | updates the fields as `AfterInputChange` does |
| Chat.ChatScreen.HandleInputSubmit | src/pages/Chat.tsx:140-144 | updates the fields as `AfterInputSubmit` does |
| Chat.ChatScreen.HandleVoiceClick | src/pages/Chat.tsx:146-149 | sets active and `listening` and re-runs the effects, as `AfterVoiceClick` |
| Chat.ChatScreen.HandleVoiceClose | src/pages/Chat.tsx:458 | sets the voice view inactive and re-runs the effects, as `AfterVoiceClose` |
| Chat.ChatScreen.HandleVoiceConfirm | src/pages/Chat.tsx:151-158 | updates the fields as `AfterVoiceConfirm` does |
| Chat.ChatScreen.HandleRoleToggle | src/pages/Chat.tsx:160-166 | updates the fields as `AfterRoleToggle` does |
| Chat.ChatScreen.HandleRoleConfirm | src/pages/Chat.tsx:168-172 | updates the fields as `AfterRoleConfirm` does |
| Chat.ChatScreen.HandleConfirmAddMember | src/pages/Chat.tsx:174-176 | updates the fields as `AfterConfirmAddMember` does |
| Chat.ChatScreen.ChatTimerFires | src/pages/Chat.tsx:86-138 | appends the stage's message and advances, as `AfterChatTimer` |
| Chat.ChatScreen.VoiceAdvanceFires | src/pages/Chat.tsx:53-61 | updates the fields as `AfterVoiceAdvance` does |
| Chat.ChatScreen.RevealFires | src/pages/Chat.tsx:69-77 | advances the interval's closure variables and the transcript as `AfterReveal` |
| Chat.ChatScreen.CloseTimerFires | src/pages/Chat.tsx:153-157 | closes the voice view, forces `userTyping` and re-runs the effects, as `AfterCloseTimer` |

## Left out

- Rendering, styling and animation: all JSX markup and framer-motion, plus the voice view's drawing (`VoiceModal` renders by stage and nothing while inactive). What rendering decides is kept only as `Offered`: which controls exist in which state.
- Real durations: 500, 800, 1000, 1200, 1500, 2000 and 3500 ms, and 50 ms per character. Each firing is an event, and any interleaving of firings and user events is allowed. A timer is cleared when its effect re-runs; that clearing is modelled, the clock itself is not.
- Message ids come from `Date.now()`. They are a parameter of each timer firing, and nothing is assumed or proved about them.
- The `avatar` field of a message: no code path sets it.
- Carousel geometry: the floating-point `scrollLeft / (clientWidth * 0.85)` and `Math.round` are not modelled. `AfterCardsScroll` takes the rounded index as input, and only the clamp to [0, 2] is modelled. The pagination dots only scroll the container, which then fires the same handler.
- The overview/permissions tab switch (`activeTab`), navigation (`navigate('/')`), scrolling into view and input focus. The permission switches are offered whenever the dashboard is shown, whichever tab is selected.
- Chat.StepPreservesValid: for the closing timeout of `handleVoiceConfirm`, the lemma requires that it fire in `idle`, `userTyping` or `followUp`. The source does not check the stage. A closing timeout that fires while the AI is answering misaligns the script: `Chat.CloseTimerValidIff` and `Chat.ForcedRestartRepeatsUserMessage` state this. With the real durations, this needs the user to close the voice view and submit text within two seconds of confirming.
- FamilyCircle.AfterCardsScroll: states the clamp, not the rounding of the scroll offset (floating point).
