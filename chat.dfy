/**
 * The chat screen: the same scripted conversation as the family-circle
 * screen, with its own texts and timings, and the voice view shown in place
 * of the chat while active. Confirming by voice schedules a timeout that
 * closes the voice view and restarts the chat at `userTyping`.
 *
 * As on the family-circle screen, the conversation timer is cleared when the
 * stage changes, so a firing acts on the stage that scheduled it.
 */
module Chat {
  import opened Conversation
  import opened Voice

  datatype ChatState = ChatState(
    stage: Stage,
    messages: seq<Message>,
    inputValue: string,
    selectedRoles: seq<RoleId>,
    voice: VoiceState,
    pendingCloses: nat)  // `handleVoiceConfirm` timeouts not yet fired (never cancelled)

  /** The state when the screen mounts. */
  function Init(): (r: ChatState)
    ensures Valid(r)
    ensures r.stage == Idle && r.messages == [] && r.pendingCloses == 0
  {
    ChatState(Idle, [], "", [], Initial(), 0)
  }

  const RequestText: string := "I want to add Ahmed, my dad to my circle"
  const AskRoleText: string := "Ok, what's the role you want to assign to"
  const AddedText: string := "Added Dad to the circle"
  const FollowUpText: string := "Is there anything else I can do for you today?"

  /** This screen's round of the script. */
  const Lines: Script := Script(RequestText, AskRoleText, AddedText, FollowUpText)

  predicate Valid(s: ChatState) {
    && Voice.Valid(s.voice)
    && FollowsScript(Lines, s.messages, s.stage)
    && NoDuplicates(s.selectedRoles)
    && (s.stage in {ConfirmationCard, AnimatingAvatar, Confirmed, FollowUp} ==> s.selectedRoles != [])
  }

  // ----- event handlers -----

  /** The text field's `onChange`. */
  function AfterInputChange(s: ChatState, text: string): (r: ChatState)
    ensures r.inputValue == text && r.(inputValue := s.inputValue) == s
  {
    s.(inputValue := text)
  }

  /** When `handleInputSubmit` acts: only from `idle`. */
  predicate SubmitAccepted(s: ChatState): (b: bool)
    ensures b <==> s.stage == Idle && exists i :: 0 <= i < |s.inputValue| && !IsWhitespace(s.inputValue[i])
  {
    s.stage == Idle && HasText(s.inputValue)
  }

  /**
   * `handleInputSubmit`: from `idle` with some visible text the round
   * starts; the draft stays until the first timer step. Otherwise, and in
   * particular from `followUp`, nothing changes.
   */
  function AfterInputSubmit(s: ChatState): (r: ChatState)
    ensures r != s <==> SubmitAccepted(s)
    ensures SubmitAccepted(s) ==> r == s.(stage := UserTyping)
    ensures s.stage == FollowUp ==> r == s
  {
    if SubmitAccepted(s) then s.(stage := UserTyping) else s
  }

  /** `handleVoiceClick`: opens the voice view in `listening`. */
  function AfterVoiceClick(s: ChatState): (r: ChatState)
    ensures IsRevealing(r.voice)
    ensures !s.voice.active && Voice.Valid(s.voice) ==> r.voice.transcript == "" && r.voice.revealIndex == 0
    ensures r.(voice := s.voice) == s
    ensures r.voice == Click(s.voice)
  {
    s.(voice := Click(s.voice))
  }

  /** The voice view's close buttons: `setIsVoiceActive(false)`. */
  function AfterVoiceClose(s: ChatState): (r: ChatState)
    ensures !r.voice.active
    ensures Voice.Valid(s.voice) ==> r.voice.stage == Listening && r.voice.transcript == ""
    ensures r.(voice := s.voice) == s
    ensures r.voice == SetActive(s.voice, false)
  {
    s.(voice := SetActive(s.voice, false))
  }

  /** `handleVoiceConfirm`: shows success and schedules the closing timeout. */
  function AfterVoiceConfirm(s: ChatState): (r: ChatState)
    ensures s.voice.active ==> r.voice.stage == Success
    ensures r.pendingCloses == s.pendingCloses + 1
    ensures r.(voice := s.voice, pendingCloses := s.pendingCloses) == s
    ensures r.voice == Confirm(s.voice)
  {
    s.(voice := Confirm(s.voice), pendingCloses := s.pendingCloses + 1)
  }

  /** `handleRoleToggle`: flips `id` in the selection and touches nothing else. */
  function AfterRoleToggle(s: ChatState, id: RoleId): (r: ChatState)
    ensures id in r.selectedRoles <==> id !in s.selectedRoles
    ensures forall other :: other != id ==> (other in r.selectedRoles <==> other in s.selectedRoles)
    ensures id !in s.selectedRoles ==> r.selectedRoles == s.selectedRoles + [id]
    ensures r.(selectedRoles := s.selectedRoles) == s
  {
    s.(selectedRoles := ToggleRole(s.selectedRoles, id))
  }

  /** `handleRoleConfirm`: to the confirmation card only with a role selected. */
  function AfterRoleConfirm(s: ChatState): (r: ChatState)
    ensures s.selectedRoles != [] ==> r == s.(stage := ConfirmationCard)
    ensures s.selectedRoles == [] ==> r == s
  {
    if |s.selectedRoles| > 0 then s.(stage := ConfirmationCard) else s
  }

  /** `handleConfirmAddMember`: starts the avatar animation. */
  function AfterConfirmAddMember(s: ChatState): (r: ChatState)
    ensures r.stage == AnimatingAvatar && r.(stage := s.stage) == s
  {
    s.(stage := AnimatingAvatar)
  }

  // ----- timer firings -----

  /**
   * The conversation timer: in a timed stage it appends the round's next
   * scripted message, stamped `now`, and moves one stage on; the first step
   * appends the fixed user text whatever was typed and clears the draft. In
   * the other stages no timer is pending and nothing happens.
   */
  function AfterChatTimer(s: ChatState, now: int): (r: ChatState)
    ensures IsTimed(s.stage) ==>
      && Rank(r.stage) == Rank(s.stage) + 1
      && |r.messages| == |s.messages| + 1
      && r.messages[..|s.messages|] == s.messages
      && r.messages[|s.messages|] == ScriptLine(Lines, Appended(s.stage), now)
    ensures s.stage == UserTyping ==>
      r.stage == AiResponding && r.inputValue == "" && r.messages[|s.messages|].author == User
    ensures s.stage == AiResponding ==>
      r.stage == RoleSelection && r.messages[|s.messages|].inlineAvatar == Some(InlineAvatar("ahmed.png", "Ahmed"))
    ensures s.stage != UserTyping ==> r.inputValue == s.inputValue
    ensures s.stage in {AnimatingAvatar, Confirmed} ==> r.messages[|s.messages|].author == Ai
    ensures r.(stage := s.stage, messages := s.messages, inputValue := s.inputValue) == s
    ensures !IsTimed(s.stage) ==> r == s
  {
    if IsTimed(s.stage) then
      s.(messages := s.messages + [ScriptLine(Lines, Appended(s.stage), now)],
         stage := TimedNext(s.stage),
         inputValue := if s.stage == UserTyping then "" else s.inputValue)
    else
      s
  }

  /** The voice auto-advance timer: `listening -> confirming`. */
  function AfterVoiceAdvance(s: ChatState): (r: ChatState)
    ensures IsRevealing(s.voice) ==> r.voice.stage == Confirming && r.voice.transcript == s.voice.transcript
    ensures !IsRevealing(s.voice) ==> r == s
    ensures r.(voice := s.voice) == s
    ensures r.voice == AdvanceTick(s.voice)
  {
    s.(voice := AdvanceTick(s.voice))
  }

  /** One firing of the transcript interval. */
  function AfterReveal(s: ChatState): (r: ChatState)
    ensures Voice.Valid(s.voice) && IsRevealing(s.voice) && s.voice.revealIndex < |FullText| ==>
      s.voice.transcript <= r.voice.transcript <= FullText && |r.voice.transcript| == |s.voice.transcript| + 1
    ensures !IsRevealing(s.voice) || s.voice.revealIndex >= |FullText| ==> r == s
    ensures r.(voice := s.voice) == s
    ensures r.voice == RevealTick(s.voice)
  {
    s.(voice := RevealTick(s.voice))
  }

  /**
   * The 2000 ms timeout scheduled by `handleVoiceConfirm`: closes the voice
   * view and sets the stage to `userTyping`, whatever stage the chat is in.
   */
  function AfterCloseTimer(s: ChatState): (r: ChatState)
    ensures s.pendingCloses > 0 ==>
      && r.stage == UserTyping && !r.voice.active && r.pendingCloses == s.pendingCloses - 1
      && r.messages == s.messages && r.selectedRoles == s.selectedRoles && r.inputValue == s.inputValue
    ensures s.pendingCloses > 0 && Voice.Valid(s.voice) ==> r.voice.stage == Listening && r.voice.transcript == ""
    ensures s.pendingCloses == 0 ==> r == s
  {
    if s.pendingCloses > 0 then
      s.(voice := SetActive(s.voice, false), stage := UserTyping, pendingCloses := s.pendingCloses - 1)
    else
      s
  }

  // ----- events, and the controls the screen renders -----

  datatype Event =
    | InputChanged(text: string)
    | SubmitTapped
    | MicTapped
    | VoiceClosed
    | VoiceConfirmTapped
    | RoleTapped(id: RoleId)
    | ContinueTapped
    | ConfirmTapped
    | ChatTimer(now: int)
    | VoiceAdvanceTimer
    | RevealTimer
    | CloseTimer

  /** The state after event `e`; each part of the screen has its own writers. */
  function Step(s: ChatState, e: Event): (r: ChatState)
    ensures r.selectedRoles != s.selectedRoles ==> e.RoleTapped?
    ensures r.inputValue != s.inputValue ==> e.InputChanged? || e.ChatTimer?
    ensures r.pendingCloses > s.pendingCloses ==> e.VoiceConfirmTapped?
  {
    match e
    case InputChanged(text) => AfterInputChange(s, text)
    case SubmitTapped => AfterInputSubmit(s)
    case MicTapped => AfterVoiceClick(s)
    case VoiceClosed => AfterVoiceClose(s)
    case VoiceConfirmTapped => AfterVoiceConfirm(s)
    case RoleTapped(id) => AfterRoleToggle(s, id)
    case ContinueTapped => AfterRoleConfirm(s)
    case ConfirmTapped => AfterConfirmAddMember(s)
    case ChatTimer(now) => AfterChatTimer(s, now)
    case VoiceAdvanceTimer => AfterVoiceAdvance(s)
    case RevealTimer => AfterReveal(s)
    case CloseTimer => AfterCloseTimer(s)
  }

  /**
   * When the screen offers an event: the chat is not rendered while the
   * voice view is active, the input bar only in `idle` and `followUp`, the
   * role picker in `roleSelection` (Continue only with a role selected), the
   * card in `confirmationCard`, the voice Confirm in `confirming`. Timers
   * may fire at any time.
   */
  predicate Offered(s: ChatState, e: Event): (b: bool)
    ensures b && s.voice.active ==>
      e.VoiceClosed? || e.VoiceConfirmTapped? || e.ChatTimer? || e.VoiceAdvanceTimer? || e.RevealTimer? || e.CloseTimer?
    ensures b && (e.InputChanged? || e.SubmitTapped? || e.MicTapped?) ==> s.stage == Idle || s.stage == FollowUp
    ensures b && e.RoleTapped? ==> e.id in Roles && s.stage == RoleSelection
    ensures b && e.ContinueTapped? ==> s.selectedRoles != []
    ensures e.CloseTimer? ==> (b <==> s.pendingCloses > 0)
    ensures e.ChatTimer? || e.VoiceAdvanceTimer? || e.RevealTimer? ==> b
  {
    match e
    case InputChanged(_) => !s.voice.active && (s.stage == Idle || s.stage == FollowUp)
    case SubmitTapped => !s.voice.active && (s.stage == Idle || s.stage == FollowUp)
    case MicTapped => !s.voice.active && (s.stage == Idle || s.stage == FollowUp)
    case VoiceClosed => s.voice.active
    case VoiceConfirmTapped => s.voice.active && s.voice.stage == Confirming
    case RoleTapped(id) => !s.voice.active && s.stage == RoleSelection && id in Roles
    case ContinueTapped => !s.voice.active && s.stage == RoleSelection && s.selectedRoles != []
    case ConfirmTapped => !s.voice.active && s.stage == ConfirmationCard
    case ChatTimer(_) => true
    case VoiceAdvanceTimer => true
    case RevealTimer => true
    case CloseTimer => s.pendingCloses > 0
  }

  /**
   * The closing timeout restarts the round cleanly only from a stage with
   * no round under way: `idle`, `followUp`, or `userTyping` itself.
   */
  predicate RestartAligned(s: ChatState) {
    s.stage == Idle || s.stage == UserTyping || s.stage == FollowUp
  }

  function Run(s: ChatState, events: seq<Event>): ChatState
    decreases events
  {
    if events == [] then s else Run(Step(s, events[0]), events[1..])
  }

  /** Every event is offered, and every closing timeout fires when no round is under way. */
  predicate AlignedRun(s: ChatState, events: seq<Event>)
    decreases events
  {
    events != [] ==>
      && Offered(s, events[0])
      && (events[0].CloseTimer? ==> RestartAligned(s))
      && AlignedRun(Step(s, events[0]), events[1..])
  }

  // ----- properties -----

  /** A conversation timer firing keeps the conversation on the script. */
  lemma ChatTimerFollowsScript(s: ChatState, now: int)
    requires Valid(s)
    ensures Valid(AfterChatTimer(s, now))
  {
    if IsTimed(s.stage) {
      AppendFollowsScript(Lines, s.messages, s.stage, now);
    }
  }

  /** An accepted submission starts a round from `idle`, where no message is on screen. */
  lemma SubmitPreservesValid(s: ChatState)
    requires Valid(s)
    ensures Valid(AfterInputSubmit(s))
  {
    if SubmitAccepted(s) {
      assert s.messages == [];
    }
  }

  /** The other user events of the conversation keep the state valid. */
  lemma ConversationEventPreservesValid(s: ChatState, e: Event)
    requires Valid(s) && Offered(s, e)
    requires e.InputChanged? || e.ContinueTapped? || e.ConfirmTapped?
    ensures Valid(Step(s, e))
  {
  }

  /** The voice view's events and timers keep the state valid. */
  lemma VoiceEventPreservesValid(s: ChatState, e: Event)
    requires Valid(s) && Offered(s, e)
    requires e.MicTapped? || e.VoiceClosed? || e.VoiceConfirmTapped? || e.VoiceAdvanceTimer? || e.RevealTimer?
    ensures Valid(Step(s, e))
  {
  }

  /** The closing timeout keeps the state valid when it fires with no round under way. */
  lemma AlignedCloseTimerPreservesValid(s: ChatState)
    requires Valid(s) && RestartAligned(s)
    ensures Valid(AfterCloseTimer(s))
  {
  }

  /** Every offered event keeps the state valid, the closing timeout only when it fires aligned. */
  lemma StepPreservesValid(s: ChatState, e: Event)
    requires Valid(s) && Offered(s, e)
    requires e.CloseTimer? ==> RestartAligned(s)
    ensures Valid(Step(s, e))
  {
    match e
    case RoleTapped(id) => ToggleRoleNoDuplicates(s.selectedRoles, id);
    case ChatTimer(now) => ChatTimerFollowsScript(s, now);
    case SubmitTapped => SubmitPreservesValid(s);
    case InputChanged(_) => ConversationEventPreservesValid(s, e);
    case ContinueTapped => ConversationEventPreservesValid(s, e);
    case ConfirmTapped => ConversationEventPreservesValid(s, e);
    case MicTapped => VoiceEventPreservesValid(s, e);
    case VoiceClosed => VoiceEventPreservesValid(s, e);
    case VoiceConfirmTapped => VoiceEventPreservesValid(s, e);
    case VoiceAdvanceTimer => VoiceEventPreservesValid(s, e);
    case RevealTimer => VoiceEventPreservesValid(s, e);
    case CloseTimer => AlignedCloseTimerPreservesValid(s);
  }

  lemma {:induction false} RunPreservesValid(s: ChatState, events: seq<Event>)
    requires Valid(s) && AlignedRun(s, events)
    ensures Valid(Run(s, events))
    decreases events
  {
    if events != [] {
      StepPreservesValid(s, events[0]);
      RunPreservesValid(Step(s, events[0]), events[1..]);
    }
  }

  /**
   * The closing timeout does not look at the stage: it keeps the state
   * valid exactly when no round is under way.
   */
  lemma CloseTimerValidIff(s: ChatState)
    requires Valid(s) && s.pendingCloses > 0
    ensures Valid(AfterCloseTimer(s)) <==> RestartAligned(s)
  {
    if RestartAligned(s) {
      AlignedCloseTimerPreservesValid(s);
    } else {
      assert Appended(s.stage) != Appended(UserTyping);
    }
  }

  /**
   * Fired while the AI is answering, the closing timeout restarts the round
   * with the user's message already on screen, and the next timer step shows
   * the user's message twice in a row.
   */
  lemma ForcedRestartRepeatsUserMessage(s: ChatState, now: int)
    requires Valid(s) && s.pendingCloses > 0 && s.stage == AiResponding
    ensures var r := AfterChatTimer(AfterCloseTimer(s), now);
      && |r.messages| >= 2
      && r.messages[|r.messages| - 2].author == User
      && r.messages[|r.messages| - 1] == ScriptLine(Lines, 0, now)
  {
    var n := |s.messages|;
    assert n % 4 == 1;
    assert s.messages[n - 1].author == User by {
      assert s.messages[n - 1] == ScriptLine(Lines, (n - 1) % 4, s.messages[n - 1].id);
    }
    var c := AfterCloseTimer(s);
    assert c.messages == s.messages && c.stage == UserTyping;
    var r := AfterChatTimer(c, now);
    assert r.messages == s.messages + [ScriptLine(Lines, 0, now)];
  }

  /** Messages are only ever appended, at most one per event. */
  lemma MessagesOnlyGrow(s: ChatState, e: Event)
    ensures s.messages <= Step(s, e).messages
    ensures |Step(s, e).messages| <= |s.messages| + 1
  {
  }

  /**
   * The stage only moves forward along the script, except for the closing
   * timeout, which sets `userTyping`.
   */
  lemma StageMovesForward(s: ChatState, e: Event)
    requires Valid(s) && Offered(s, e)
    ensures var r := Step(s, e);
      || Rank(r.stage) >= Rank(s.stage)
      || (e.CloseTimer? && r.stage == UserTyping)
  {
  }

  /**
   * The voice path: open the voice view, let it advance to `confirming`,
   * confirm, let the closing timeout fire and one conversation step follow.
   * The voice view is closed and reset, and the chat shows the scripted user
   * message and waits for the AI.
   */
  lemma VoiceDemo()
    ensures var s := AfterChatTimer(AfterCloseTimer(AfterVoiceConfirm(AfterVoiceAdvance(AfterVoiceClick(Init())))), 1);
      && s.stage == AiResponding && s.messages == [ScriptLine(Lines, 0, 1)]
      && !s.voice.active && s.voice.stage == Listening && s.voice.transcript == ""
      && s.pendingCloses == 0
  {
    var s1 := AfterVoiceClick(Init());
    var s2 := AfterVoiceAdvance(s1);
    var s3 := AfterVoiceConfirm(s2);
    assert s3.voice.active && s3.voice.stage == Success;
    var s4 := AfterCloseTimer(s3);
    assert s4.stage == UserTyping && s4.messages == [];
  }

  // ----- the screen as mutable state -----

  /** The component's `useState` fields and the running interval's closure variables. */
  class ChatScreen {
    var stage: Stage
    var messages: seq<Message>
    var inputValue: string
    var selectedRoles: seq<RoleId>
    var isVoiceActive: bool
    var voiceStage: VoiceStage
    var transcript: string
    var revealText: string   // `currentText` of the transcript interval
    var revealIndex: nat     // `i` of the transcript interval
    var pendingCloses: nat

    function State(): ChatState
      reads this
    {
      ChatState(stage, messages, inputValue, selectedRoles,
                VoiceState(isVoiceActive, voiceStage, transcript, revealText, revealIndex),
                pendingCloses)
    }

    constructor ()
      ensures State() == Init()
    {
      stage, messages, inputValue, selectedRoles := Idle, [], "", [];
      isVoiceActive, voiceStage, transcript, revealText, revealIndex := false, Listening, "", "", 0;
      pendingCloses := 0;
    }

    /** The two voice effects, after a handler moved the voice pair away from (prevActive, prevStage). */
    method RunVoiceEffects(prevActive: bool, prevStage: VoiceStage)
      modifies this
      ensures State() == old(State()).(voice := Settle(prevActive, prevStage, old(State()).voice))
    {
      if prevActive != isVoiceActive || prevStage != voiceStage {
        if isVoiceActive && voiceStage == Listening {
          revealText := "";
          revealIndex := 0;
        } else if !isVoiceActive {
          transcript := "";
          voiceStage := Listening;
        }
      }
    }

    method HandleInputChange(text: string)
      modifies this
      ensures State() == AfterInputChange(old(State()), text)
    {
      inputValue := text;
    }

    method HandleInputSubmit()
      modifies this
      ensures State() == AfterInputSubmit(old(State()))
    {
      if SubmitAccepted(State()) {
        stage := UserTyping;
      }
    }

    method HandleVoiceClick()
      modifies this
      ensures State() == AfterVoiceClick(old(State()))
    {
      var wasActive, wasStage := isVoiceActive, voiceStage;
      isVoiceActive := true;
      voiceStage := Listening;
      RunVoiceEffects(wasActive, wasStage);
    }

    method HandleVoiceClose()
      modifies this
      ensures State() == AfterVoiceClose(old(State()))
    {
      var wasActive, wasStage := isVoiceActive, voiceStage;
      isVoiceActive := false;
      RunVoiceEffects(wasActive, wasStage);
    }

    method HandleVoiceConfirm()
      modifies this
      ensures State() == AfterVoiceConfirm(old(State()))
    {
      var wasActive, wasStage := isVoiceActive, voiceStage;
      voiceStage := Success;
      pendingCloses := pendingCloses + 1;
      RunVoiceEffects(wasActive, wasStage);
    }

    method HandleRoleToggle(roleId: RoleId)
      modifies this
      ensures State() == AfterRoleToggle(old(State()), roleId)
    {
      selectedRoles := ToggleRole(selectedRoles, roleId);
    }

    method HandleRoleConfirm()
      modifies this
      ensures State() == AfterRoleConfirm(old(State()))
    {
      if |selectedRoles| > 0 {
        stage := ConfirmationCard;
      }
    }

    method HandleConfirmAddMember()
      modifies this
      ensures State() == AfterConfirmAddMember(old(State()))
    {
      stage := AnimatingAvatar;
    }

    method ChatTimerFires(now: int)
      modifies this
      ensures State() == AfterChatTimer(old(State()), now)
    {
      if stage == UserTyping {
        messages := messages + [ScriptLine(Lines, 0, now)];
        inputValue := "";
        stage := AiResponding;
      } else if stage == AiResponding {
        messages := messages + [ScriptLine(Lines, 1, now)];
        stage := RoleSelection;
      } else if stage == AnimatingAvatar {
        messages := messages + [ScriptLine(Lines, 2, now)];
        stage := Confirmed;
      } else if stage == Confirmed {
        messages := messages + [ScriptLine(Lines, 3, now)];
        stage := FollowUp;
      }
    }

    method VoiceAdvanceFires()
      modifies this
      ensures State() == AfterVoiceAdvance(old(State()))
    {
      if isVoiceActive && voiceStage == Listening {
        var wasActive, wasStage := isVoiceActive, voiceStage;
        voiceStage := Confirming;
        RunVoiceEffects(wasActive, wasStage);
      }
    }

    method RevealFires()
      modifies this
      ensures State() == AfterReveal(old(State()))
    {
      if isVoiceActive && voiceStage == Listening && revealIndex < |FullText| {
        revealText := revealText + [FullText[revealIndex]];
        transcript := revealText;
        revealIndex := revealIndex + 1;
      }
    }

    method CloseTimerFires()
      modifies this
      ensures State() == AfterCloseTimer(old(State()))
    {
      if pendingCloses > 0 {
        var wasActive, wasStage := isVoiceActive, voiceStage;
        isVoiceActive := false;
        stage := UserTyping;
        pendingCloses := pendingCloses - 1;
        RunVoiceEffects(wasActive, wasStage);
      }
    }
  }
}
