/**
 * The family-circle screen: a dashboard with a permission panel and a card
 * carousel, a scripted chat that adds "Ahmed" to the circle, and the voice
 * modal. Each event handler and each timer firing is a function from the
 * screen state to the next one; `FamilyCircleScreen` at the end holds the
 * same state in mutable fields and is proved to follow those functions.
 *
 * A timer scheduled by the chat-stage effect is cleared when the stage
 * changes, so a chat timer firing always acts on the stage that scheduled
 * it: `AfterChatTimer` looks only at the current stage.
 */
module FamilyCircle {
  import opened Conversation
  import opened Voice
  import opened PermissionPanel

  datatype ViewMode = Dashboard | ChatView

  datatype CircleState = CircleState(
    viewMode: ViewMode,
    chatStage: Stage,
    messages: seq<Message>,
    inputValue: string,
    selectedRoles: seq<RoleId>,
    voice: VoiceState,
    showFourthAvatar: bool,
    pendingAvatarTimers: nat,  // `handleConfirm` timeouts not yet fired (never cancelled)
    permissions: Permissions,
    activeCardIndex: int)

  /** The state when the screen mounts. */
  function Init(): (r: CircleState)
    ensures Valid(r)
    ensures r.viewMode == Dashboard && r.chatStage == Idle && r.messages == [] && !r.showFourthAvatar
  {
    CircleState(Dashboard, Idle, [], "", [], Initial(), false, 0, Default(), 0)
  }

  const RequestText: string := "Add Ahmed, my dad, to my family circle"
  const AskRoleText: string := "Ok, what's the role you want to assign to"
  const AddedText: string := "Added Dad to the circle"
  const FollowUpText: string := "Is there anything else I can do for you today?"

  /** This screen's round of the script. */
  const Lines: Script := Script(RequestText, AskRoleText, AddedText, FollowUpText)

  /** What every state reached by offered events satisfies. */
  predicate Valid(s: CircleState) {
    && Voice.Valid(s.voice)
    && FollowsScript(Lines, s.messages, s.chatStage)
    && NoDuplicates(s.selectedRoles)
    && (s.chatStage in {ConfirmationCard, AnimatingAvatar, Confirmed, FollowUp} ==> s.selectedRoles != [])
    && (s.chatStage == Confirmed || s.chatStage == FollowUp ==> s.showFourthAvatar)
    && (s.viewMode == Dashboard ==> s.chatStage == Idle)
  }

  // ----- event handlers -----

  /** The text fields' `onChange`. */
  function AfterInputChange(s: CircleState, text: string): (r: CircleState)
    ensures r.inputValue == text && r.(inputValue := s.inputValue) == s
  {
    s.(inputValue := text)
  }

  /** When `handleInputSubmit` acts. */
  predicate SubmitAccepted(s: CircleState): (b: bool)
    ensures b <==> (s.chatStage == Idle || s.chatStage == FollowUp)
                   && exists i :: 0 <= i < |s.inputValue| && !IsWhitespace(s.inputValue[i])
  {
    (s.chatStage == Idle || s.chatStage == FollowUp) && HasText(s.inputValue)
  }

  /**
   * `handleInputSubmit`: from `idle` or `followUp` with some visible text,
   * switch to the chat view, clear the draft at once and start the round;
   * otherwise nothing changes.
   */
  function AfterInputSubmit(s: CircleState): (r: CircleState)
    ensures r != s <==> SubmitAccepted(s)
    ensures SubmitAccepted(s) ==>
      r == s.(viewMode := ChatView, inputValue := "", chatStage := UserTyping)
  {
    if SubmitAccepted(s) then s.(viewMode := ChatView, inputValue := "", chatStage := UserTyping) else s
  }

  /** `handleRoleToggle`: flips `id` in the selection and touches nothing else. */
  function AfterRoleToggle(s: CircleState, id: RoleId): (r: CircleState)
    ensures id in r.selectedRoles <==> id !in s.selectedRoles
    ensures forall other :: other != id ==> (other in r.selectedRoles <==> other in s.selectedRoles)
    ensures id !in s.selectedRoles ==> r.selectedRoles == s.selectedRoles + [id]
    ensures r.(selectedRoles := s.selectedRoles) == s
  {
    s.(selectedRoles := ToggleRole(s.selectedRoles, id))
  }

  /** `handleRoleConfirm`: to the confirmation card only with a role selected. */
  function AfterRoleConfirm(s: CircleState): (r: CircleState)
    ensures s.selectedRoles != [] ==> r == s.(chatStage := ConfirmationCard)
    ensures s.selectedRoles == [] ==> r == s
  {
    if |s.selectedRoles| > 0 then s.(chatStage := ConfirmationCard) else s
  }

  /** `handleConfirmAddMember`: starts the avatar animation. */
  function AfterConfirmAddMember(s: CircleState): (r: CircleState)
    ensures r.chatStage == AnimatingAvatar && r.(chatStage := s.chatStage) == s
  {
    s.(chatStage := AnimatingAvatar)
  }

  /**
   * `handleBackToDashboard`: back to the dashboard with an empty, idle chat
   * and no roles; the fourth avatar, the draft and the voice state stay.
   */
  function AfterBackToDashboard(s: CircleState): (r: CircleState)
    ensures r.viewMode == Dashboard && r.chatStage == Idle
    ensures r.messages == [] && r.selectedRoles == []
    ensures r.(viewMode := s.viewMode, chatStage := s.chatStage, messages := s.messages, selectedRoles := s.selectedRoles) == s
  {
    s.(viewMode := Dashboard, messages := [], chatStage := Idle, selectedRoles := [])
  }

  /** `togglePermission(key)`: flips exactly that switch. */
  function AfterTogglePermission(s: CircleState, k: PermissionKey): (r: CircleState)
    ensures Get(r.permissions, k) == !Get(s.permissions, k)
    ensures forall j :: j != k ==> Get(r.permissions, j) == Get(s.permissions, j)
    ensures r.(permissions := s.permissions) == s
  {
    s.(permissions := Toggle(s.permissions, k))
  }

  /** `Math.max(0, Math.min(2, index))`: the carousel has three cards. */
  function ClampCardIndex(index: int): (r: int)
    ensures 0 <= r <= 2
    ensures 0 <= index <= 2 ==> r == index
    ensures index < 0 ==> r == 0
    ensures index > 2 ==> r == 2
  {
    if index < 0 then 0 else if index > 2 then 2 else index
  }

  /** `handleCardsScroll`, given the already rounded card index. */
  function AfterCardsScroll(s: CircleState, index: int): (r: CircleState)
    ensures 0 <= r.activeCardIndex <= 2
    ensures r.activeCardIndex == ClampCardIndex(index)
    ensures r.(activeCardIndex := s.activeCardIndex) == s
  {
    s.(activeCardIndex := ClampCardIndex(index))
  }

  /** The microphone buttons: `setIsVoiceActive(true)`. */
  function AfterMicTap(s: CircleState): (r: CircleState)
    ensures r.voice.active
    ensures !s.voice.active && Voice.Valid(s.voice) ==> IsRevealing(r.voice) && r.voice.transcript == ""
    ensures r.(voice := s.voice) == s
    ensures r.voice == SetActive(s.voice, true)
  {
    s.(voice := SetActive(s.voice, true))
  }

  /** The modal's `onClose`: inactive, back at `listening`, transcript emptied. */
  function AfterVoiceClose(s: CircleState): (r: CircleState)
    ensures !r.voice.active
    ensures Voice.Valid(s.voice) ==> r.voice.stage == Listening && r.voice.transcript == ""
    ensures r.(voice := s.voice) == s
    ensures r.voice == SetActive(s.voice, false)
  {
    s.(voice := SetActive(s.voice, false))
  }

  /** `handleConfirm`: shows success and schedules the fourth-avatar timeout. */
  function AfterConfirm(s: CircleState): (r: CircleState)
    ensures s.voice.active ==> r.voice.stage == Success
    ensures r.pendingAvatarTimers == s.pendingAvatarTimers + 1
    ensures r.(voice := s.voice, pendingAvatarTimers := s.pendingAvatarTimers) == s
    ensures r.voice == Confirm(s.voice)
  {
    s.(voice := Confirm(s.voice), pendingAvatarTimers := s.pendingAvatarTimers + 1)
  }

  /** The success view's Dismiss button: closes the modal and shows the fourth avatar. */
  function AfterDismiss(s: CircleState): (r: CircleState)
    ensures !r.voice.active && r.showFourthAvatar
    ensures Voice.Valid(s.voice) ==> r.voice.stage == Listening && r.voice.transcript == ""
    ensures r.(voice := s.voice, showFourthAvatar := s.showFourthAvatar) == s
    ensures r.voice == SetActive(s.voice, false)
  {
    s.(voice := SetActive(s.voice, false), showFourthAvatar := true)
  }

  // ----- timer firings -----

  /**
   * The chat-stage timer: in a timed stage it appends the round's next
   * scripted message, stamped `now`, and moves one stage on (turning the
   * fourth avatar on when the member is added); in the other stages no
   * timer is pending and nothing happens.
   */
  function AfterChatTimer(s: CircleState, now: int): (r: CircleState)
    ensures IsTimed(s.chatStage) ==>
      && Rank(r.chatStage) == Rank(s.chatStage) + 1
      && |r.messages| == |s.messages| + 1
      && r.messages[..|s.messages|] == s.messages
      && r.messages[|s.messages|] == ScriptLine(Lines, Appended(s.chatStage), now)
    ensures s.chatStage == UserTyping ==> r.messages[|s.messages|].author == User
    ensures s.chatStage == AnimatingAvatar ==>
      r.chatStage == Confirmed && r.messages[|s.messages|].showAvatarGroup && r.showFourthAvatar
    ensures s.chatStage != AnimatingAvatar ==> r.showFourthAvatar == s.showFourthAvatar
    ensures r.(chatStage := s.chatStage, messages := s.messages, showFourthAvatar := s.showFourthAvatar) == s
    ensures !IsTimed(s.chatStage) ==> r == s
  {
    if IsTimed(s.chatStage) then
      s.(messages := s.messages + [ScriptLine(Lines, Appended(s.chatStage), now)],
         chatStage := TimedNext(s.chatStage),
         showFourthAvatar := s.showFourthAvatar || s.chatStage == AnimatingAvatar)
    else
      s
  }

  /** The voice auto-advance timer: `listening -> confirming`. */
  function AfterVoiceAdvance(s: CircleState): (r: CircleState)
    ensures IsRevealing(s.voice) ==> r.voice.stage == Confirming && r.voice.transcript == s.voice.transcript
    ensures !IsRevealing(s.voice) ==> r == s
    ensures r.(voice := s.voice) == s
    ensures r.voice == AdvanceTick(s.voice)
  {
    s.(voice := AdvanceTick(s.voice))
  }

  /** One firing of the transcript interval. */
  function AfterReveal(s: CircleState): (r: CircleState)
    ensures Voice.Valid(s.voice) && IsRevealing(s.voice) && s.voice.revealIndex < |FullText| ==>
      s.voice.transcript <= r.voice.transcript <= FullText && |r.voice.transcript| == |s.voice.transcript| + 1
    ensures !IsRevealing(s.voice) || s.voice.revealIndex >= |FullText| ==> r == s
    ensures r.(voice := s.voice) == s
    ensures r.voice == RevealTick(s.voice)
  {
    s.(voice := RevealTick(s.voice))
  }

  /** The 500 ms timeout scheduled by `handleConfirm`. */
  function AfterAvatarTimer(s: CircleState): (r: CircleState)
    ensures s.pendingAvatarTimers > 0 ==> r.showFourthAvatar && r.pendingAvatarTimers == s.pendingAvatarTimers - 1
    ensures s.pendingAvatarTimers == 0 ==> r == s
    ensures r.(showFourthAvatar := s.showFourthAvatar, pendingAvatarTimers := s.pendingAvatarTimers) == s
  {
    if s.pendingAvatarTimers > 0 then
      s.(showFourthAvatar := true, pendingAvatarTimers := s.pendingAvatarTimers - 1)
    else
      s
  }

  // ----- events, and the controls the screen renders -----

  datatype Event =
    | InputChanged(text: string)
    | SubmitTapped
    | RoleTapped(id: RoleId)
    | ContinueTapped
    | ConfirmTapped
    | BackTapped
    | PermissionTapped(key: PermissionKey)
    | CardsScrolled(index: int)
    | MicTapped
    | VoiceClosed
    | VoiceConfirmTapped
    | DismissTapped
    | ChatTimer(now: int)
    | VoiceAdvanceTimer
    | RevealTimer
    | AvatarTimer

  /** The state after event `e`; each part of the screen has its own writers. */
  function Step(s: CircleState, e: Event): (r: CircleState)
    ensures r.permissions != s.permissions ==> e.PermissionTapped?
    ensures r.activeCardIndex != s.activeCardIndex ==> e.CardsScrolled?
    ensures r.viewMode != s.viewMode ==> e.SubmitTapped? || e.BackTapped?
    ensures r.selectedRoles != s.selectedRoles ==> e.RoleTapped? || e.BackTapped?
    ensures r.pendingAvatarTimers > s.pendingAvatarTimers ==> e.VoiceConfirmTapped?
  {
    match e
    case InputChanged(text) => AfterInputChange(s, text)
    case SubmitTapped => AfterInputSubmit(s)
    case RoleTapped(id) => AfterRoleToggle(s, id)
    case ContinueTapped => AfterRoleConfirm(s)
    case ConfirmTapped => AfterConfirmAddMember(s)
    case BackTapped => AfterBackToDashboard(s)
    case PermissionTapped(k) => AfterTogglePermission(s, k)
    case CardsScrolled(i) => AfterCardsScroll(s, i)
    case MicTapped => AfterMicTap(s)
    case VoiceClosed => AfterVoiceClose(s)
    case VoiceConfirmTapped => AfterConfirm(s)
    case DismissTapped => AfterDismiss(s)
    case ChatTimer(now) => AfterChatTimer(s, now)
    case VoiceAdvanceTimer => AfterVoiceAdvance(s)
    case RevealTimer => AfterReveal(s)
    case AvatarTimer => AfterAvatarTimer(s)
  }

  /** The text field, send and microphone buttons are on screen. */
  predicate InputBarShown(s: CircleState): (b: bool)
    ensures b ==> !s.voice.active
    ensures !s.voice.active && s.viewMode == Dashboard ==> b
    ensures s.viewMode == ChatView ==> (b <==> !s.voice.active && (s.chatStage == Idle || s.chatStage == FollowUp))
  {
    !s.voice.active && (s.viewMode == Dashboard || s.chatStage == Idle || s.chatStage == FollowUp)
  }

  /**
   * When the screen offers an event: the modal covers everything while it is
   * active, the chat controls are rendered only in their stage, Continue only
   * with a role selected, Confirm only in `confirming`, Dismiss only in
   * `success`. Timers may fire at any time.
   */
  predicate Offered(s: CircleState, e: Event): (b: bool)
    ensures b && s.voice.active ==>
      e.VoiceClosed? || e.VoiceConfirmTapped? || e.DismissTapped? || e.ChatTimer? || e.VoiceAdvanceTimer? || e.RevealTimer? || e.AvatarTimer?
    ensures b && e.RoleTapped? ==> e.id in Roles && s.chatStage == RoleSelection
    ensures b && e.ContinueTapped? ==> s.selectedRoles != []
    ensures b && (e.PermissionTapped? || e.CardsScrolled?) ==> s.viewMode == Dashboard
    ensures e.AvatarTimer? ==> (b <==> s.pendingAvatarTimers > 0)
    ensures e.ChatTimer? || e.VoiceAdvanceTimer? || e.RevealTimer? ==> b
  {
    match e
    case InputChanged(_) => InputBarShown(s)
    case SubmitTapped => InputBarShown(s)
    case MicTapped => InputBarShown(s)
    case RoleTapped(id) =>
      !s.voice.active && s.viewMode == ChatView && s.chatStage == RoleSelection && id in Roles
    case ContinueTapped =>
      !s.voice.active && s.viewMode == ChatView && s.chatStage == RoleSelection && s.selectedRoles != []
    case ConfirmTapped => !s.voice.active && s.viewMode == ChatView && s.chatStage == ConfirmationCard
    case BackTapped => !s.voice.active && s.viewMode == ChatView
    case PermissionTapped(_) => !s.voice.active && s.viewMode == Dashboard
    case CardsScrolled(_) => !s.voice.active && s.viewMode == Dashboard
    case VoiceClosed => s.voice.active
    case VoiceConfirmTapped => s.voice.active && s.voice.stage == Confirming
    case DismissTapped => s.voice.active && s.voice.stage == Success
    case ChatTimer(_) => true
    case VoiceAdvanceTimer => true
    case RevealTimer => true
    case AvatarTimer => s.pendingAvatarTimers > 0
  }

  function Run(s: CircleState, events: seq<Event>): CircleState
    decreases events
  {
    if events == [] then s else Run(Step(s, events[0]), events[1..])
  }

  predicate OfferedRun(s: CircleState, events: seq<Event>)
    decreases events
  {
    events == [] || (Offered(s, events[0]) && OfferedRun(Step(s, events[0]), events[1..]))
  }

  // ----- properties -----

  /** A conversation timer firing keeps the conversation on the script. */
  lemma ChatTimerFollowsScript(s: CircleState, now: int)
    requires Valid(s)
    ensures Valid(AfterChatTimer(s, now))
  {
    if IsTimed(s.chatStage) {
      AppendFollowsScript(Lines, s.messages, s.chatStage, now);
    }
  }


  /** An accepted submission starts a round from `idle` or `followUp`, at a round boundary. */
  lemma SubmitPreservesValid(s: CircleState)
    requires Valid(s)
    ensures Valid(AfterInputSubmit(s))
  {
    if SubmitAccepted(s) {
      assert |s.messages| % 4 == 0;
    }
  }

  /** The other user events of the conversation keep the state valid. */
  lemma ConversationEventPreservesValid(s: CircleState, e: Event)
    requires Valid(s) && Offered(s, e)
    requires e.InputChanged? || e.ContinueTapped? || e.ConfirmTapped? || e.BackTapped?
    ensures Valid(Step(s, e))
  {
  }

  /** The voice view's events and timers keep the state valid. */
  lemma VoiceEventPreservesValid(s: CircleState, e: Event)
    requires Valid(s) && Offered(s, e)
    requires e.MicTapped? || e.VoiceClosed? || e.VoiceConfirmTapped? || e.DismissTapped? || e.VoiceAdvanceTimer? || e.RevealTimer?
    ensures Valid(Step(s, e))
  {
  }

  /** The dashboard's events and the fourth-avatar timeout keep the state valid. */
  lemma PanelEventPreservesValid(s: CircleState, e: Event)
    requires Valid(s) && Offered(s, e)
    requires e.PermissionTapped? || e.CardsScrolled? || e.AvatarTimer?
    ensures Valid(Step(s, e))
  {
  }

  /** Every offered event keeps the state valid. */
  lemma StepPreservesValid(s: CircleState, e: Event)
    requires Valid(s) && Offered(s, e)
    ensures Valid(Step(s, e))
  {
    match e
    case RoleTapped(id) => ToggleRoleNoDuplicates(s.selectedRoles, id);
    case ChatTimer(now) => ChatTimerFollowsScript(s, now);
    case InputChanged(_) => ConversationEventPreservesValid(s, e);
    case SubmitTapped => SubmitPreservesValid(s);
    case ContinueTapped => ConversationEventPreservesValid(s, e);
    case ConfirmTapped => ConversationEventPreservesValid(s, e);
    case BackTapped => ConversationEventPreservesValid(s, e);
    case MicTapped => VoiceEventPreservesValid(s, e);
    case VoiceClosed => VoiceEventPreservesValid(s, e);
    case VoiceConfirmTapped => VoiceEventPreservesValid(s, e);
    case DismissTapped => VoiceEventPreservesValid(s, e);
    case VoiceAdvanceTimer => VoiceEventPreservesValid(s, e);
    case RevealTimer => VoiceEventPreservesValid(s, e);
    case PermissionTapped(_) => PanelEventPreservesValid(s, e);
    case CardsScrolled(_) => PanelEventPreservesValid(s, e);
    case AvatarTimer => PanelEventPreservesValid(s, e);
  }

  /** Every run of offered events from a valid state ends in a valid state. */
  lemma {:induction false} RunPreservesValid(s: CircleState, events: seq<Event>)
    requires Valid(s) && OfferedRun(s, events)
    ensures Valid(Run(s, events))
    decreases events
  {
    if events != [] {
      StepPreservesValid(s, events[0]);
      RunPreservesValid(Step(s, events[0]), events[1..]);
    }
  }

  /**
   * Messages are only ever appended, at most one per event, except that
   * going back to the dashboard empties the list.
   */
  lemma MessagesOnlyGrow(s: CircleState, e: Event)
    requires !e.BackTapped?
    ensures s.messages <= Step(s, e).messages
    ensures |Step(s, e).messages| <= |s.messages| + 1
  {
  }

  /** Once shown, the fourth avatar stays, even across going back to the dashboard. */
  lemma FourthAvatarStays(s: CircleState, e: Event)
    requires s.showFourthAvatar
    ensures Step(s, e).showFourthAvatar
  {
  }

  /**
   * The stage only moves forward along the script, except for going back to
   * the dashboard (to `idle`) and a new submission from `followUp` (to
   * `userTyping`).
   */
  lemma StageMovesForward(s: CircleState, e: Event)
    requires Valid(s) && Offered(s, e)
    ensures var r := Step(s, e);
      || Rank(r.chatStage) >= Rank(s.chatStage)
      || (e.BackTapped? && r.chatStage == Idle)
      || (e.SubmitTapped? && s.chatStage == FollowUp && r.chatStage == UserTyping)
  {
  }

  /**
   * The demo's opening: type, submit and two timer steps bring the AI's
   * question with Ahmed's avatar and the role picker.
   */
  lemma DemoOpening(text: string)
    requires HasText(text)
    ensures var s := AfterChatTimer(AfterChatTimer(AfterInputSubmit(AfterInputChange(Init(), text)), 1), 2);
      && s.chatStage == RoleSelection && s.viewMode == ChatView
      && s.messages == [ScriptLine(Lines, 0, 1), ScriptLine(Lines, 1, 2)]
      && s.selectedRoles == [] && s.inputValue == ""
  {
    var s1 := AfterInputChange(Init(), text);
    assert SubmitAccepted(s1);
  }

  /**
   * The demo's close: pick "manager", continue, confirm and two timer steps
   * add the member, show the fourth avatar and ask the follow-up question.
   */
  lemma DemoClosing(s: CircleState)
    requires s.chatStage == RoleSelection && s.selectedRoles == []
    ensures var r := AfterChatTimer(AfterChatTimer(AfterConfirmAddMember(AfterRoleConfirm(AfterRoleToggle(s, "manager"))), 3), 4);
      && r.chatStage == FollowUp && r.viewMode == s.viewMode && r.inputValue == s.inputValue
      && r.messages == s.messages + [ScriptLine(Lines, 2, 3), ScriptLine(Lines, 3, 4)]
      && r.selectedRoles == ["manager"] && r.showFourthAvatar
  {
    var s1 := AfterRoleToggle(s, "manager");
    assert s1.selectedRoles == ["manager"];
    var s3 := AfterConfirmAddMember(AfterRoleConfirm(s1));
    var s4 := AfterChatTimer(s3, 3);
    assert s4.messages == s.messages + [ScriptLine(Lines, 2, 3)];
  }

  /**
   * The scripted demo from the mounted screen ends in `followUp` with the
   * four scripted messages, the third revealing the avatar group, and the
   * fourth avatar shown.
   */
  lemma DemoRun(text: string)
    requires HasText(text)
    ensures var s := AfterChatTimer(AfterChatTimer(AfterConfirmAddMember(AfterRoleConfirm(AfterRoleToggle(
              AfterChatTimer(AfterChatTimer(AfterInputSubmit(AfterInputChange(Init(), text)), 1), 2),
              "manager"))), 3), 4);
      && s.chatStage == FollowUp && s.viewMode == ChatView
      && s.messages == [ScriptLine(Lines, 0, 1), ScriptLine(Lines, 1, 2), ScriptLine(Lines, 2, 3), ScriptLine(Lines, 3, 4)]
      && s.selectedRoles == ["manager"] && s.showFourthAvatar && s.inputValue == ""
  {
    DemoOpening(text);
    DemoClosing(AfterChatTimer(AfterChatTimer(AfterInputSubmit(AfterInputChange(Init(), text)), 1), 2));
  }

  // ----- the screen as mutable state -----

  /** The component's `useState` fields and the running interval's closure variables. */
  class FamilyCircleScreen {
    var viewMode: ViewMode
    var chatStage: Stage
    var messages: seq<Message>
    var inputValue: string
    var selectedRoles: seq<RoleId>
    var isVoiceActive: bool
    var voiceStage: VoiceStage
    var transcript: string
    var revealText: string   // `currentText` of the transcript interval
    var revealIndex: nat     // `i` of the transcript interval
    var showFourthAvatar: bool
    var pendingAvatarTimers: nat
    var permissions: Permissions
    var activeCardIndex: int

    function State(): CircleState
      reads this
    {
      CircleState(viewMode, chatStage, messages, inputValue, selectedRoles,
                  VoiceState(isVoiceActive, voiceStage, transcript, revealText, revealIndex),
                  showFourthAvatar, pendingAvatarTimers, permissions, activeCardIndex)
    }

    constructor ()
      ensures State() == Init()
    {
      viewMode, chatStage, messages, inputValue, selectedRoles := Dashboard, Idle, [], "", [];
      isVoiceActive, voiceStage, transcript, revealText, revealIndex := false, Listening, "", "", 0;
      showFourthAvatar, pendingAvatarTimers := false, 0;
      permissions, activeCardIndex := Default(), 0;
    }

    /** The two voice effects, after a handler moved the voice pair away from (prevActive, prevStage). */
    method RunVoiceEffects(prevActive: bool, prevStage: VoiceStage)
      modifies this
      ensures State() == old(State()).(voice := Settle(prevActive, prevStage, old(State()).voice))
    {
      if prevActive != isVoiceActive || prevStage != voiceStage {
        if isVoiceActive && voiceStage == Listening {
          revealText := "";
          revealIndex := 0;
        } else if !isVoiceActive {
          transcript := "";
          voiceStage := Listening;
        }
      }
    }

    method HandleInputChange(text: string)
      modifies this
      ensures State() == AfterInputChange(old(State()), text)
    {
      inputValue := text;
    }

    method HandleInputSubmit()
      modifies this
      ensures State() == AfterInputSubmit(old(State()))
    {
      if SubmitAccepted(State()) {
        viewMode, inputValue, chatStage := ChatView, "", UserTyping;
        assert State() == old(State()).(viewMode := ChatView, inputValue := "", chatStage := UserTyping);
      }
    }

    method HandleRoleToggle(roleId: RoleId)
      modifies this
      ensures State() == AfterRoleToggle(old(State()), roleId)
    {
      selectedRoles := ToggleRole(selectedRoles, roleId);
    }

    method HandleRoleConfirm()
      modifies this
      ensures State() == AfterRoleConfirm(old(State()))
    {
      if |selectedRoles| > 0 {
        chatStage := ConfirmationCard;
      }
    }

    method HandleConfirmAddMember()
      modifies this
      ensures State() == AfterConfirmAddMember(old(State()))
    {
      chatStage := AnimatingAvatar;
    }

    method HandleBackToDashboard()
      modifies this
      ensures State() == AfterBackToDashboard(old(State()))
    {
      viewMode := Dashboard;
      messages := [];
      chatStage := Idle;
      selectedRoles := [];
    }

    method TogglePermission(key: PermissionKey)
      modifies this
      ensures State() == AfterTogglePermission(old(State()), key)
    {
      permissions := Toggle(permissions, key);
    }

    method HandleCardsScroll(index: int)
      modifies this
      ensures State() == AfterCardsScroll(old(State()), index)
    {
      activeCardIndex := ClampCardIndex(index);
    }

    method HandleMicTap()
      modifies this
      ensures State() == AfterMicTap(old(State()))
    {
      var wasActive, wasStage := isVoiceActive, voiceStage;
      isVoiceActive := true;
      RunVoiceEffects(wasActive, wasStage);
    }

    method HandleVoiceClose()
      modifies this
      ensures State() == AfterVoiceClose(old(State()))
    {
      var wasActive, wasStage := isVoiceActive, voiceStage;
      isVoiceActive := false;
      RunVoiceEffects(wasActive, wasStage);
    }

    method HandleConfirm()
      modifies this
      ensures State() == AfterConfirm(old(State()))
    {
      var wasActive, wasStage := isVoiceActive, voiceStage;
      voiceStage := Success;
      pendingAvatarTimers := pendingAvatarTimers + 1;
      RunVoiceEffects(wasActive, wasStage);
    }

    method HandleDismiss()
      modifies this
      ensures State() == AfterDismiss(old(State()))
    {
      var wasActive, wasStage := isVoiceActive, voiceStage;
      isVoiceActive := false;
      showFourthAvatar := true;
      RunVoiceEffects(wasActive, wasStage);
    }

    method ChatTimerFires(now: int)
      modifies this
      ensures State() == AfterChatTimer(old(State()), now)
    {
      if chatStage == UserTyping {
        messages := messages + [ScriptLine(Lines, 0, now)];
        chatStage := AiResponding;
      } else if chatStage == AiResponding {
        messages := messages + [ScriptLine(Lines, 1, now)];
        chatStage := RoleSelection;
      } else if chatStage == AnimatingAvatar {
        messages := messages + [ScriptLine(Lines, 2, now)];
        chatStage := Confirmed;
        showFourthAvatar := true;
      } else if chatStage == Confirmed {
        messages := messages + [ScriptLine(Lines, 3, now)];
        chatStage := FollowUp;
      }
    }

    method VoiceAdvanceFires()
      modifies this
      ensures State() == AfterVoiceAdvance(old(State()))
    {
      if isVoiceActive && voiceStage == Listening {
        var wasActive, wasStage := isVoiceActive, voiceStage;
        voiceStage := Confirming;
        RunVoiceEffects(wasActive, wasStage);
      }
    }

    method RevealFires()
      modifies this
      ensures State() == AfterReveal(old(State()))
    {
      if isVoiceActive && voiceStage == Listening && revealIndex < |FullText| {
        revealText := revealText + [FullText[revealIndex]];
        transcript := revealText;
        revealIndex := revealIndex + 1;
      }
    }

    method AvatarTimerFires()
      modifies this
      ensures State() == AfterAvatarTimer(old(State()))
    {
      if pendingAvatarTimers > 0 {
        showFourthAvatar := true;
        pendingAvatarTimers := pendingAvatarTimers - 1;
      }
    }
  }
}
