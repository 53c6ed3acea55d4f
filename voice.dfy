/**
 * The voice-assistant sub-machine that both screens keep beside the chat:
 * `listening -> confirming -> success`, a transcript revealed one character
 * per interval firing, and a reset whenever the modal is deactivated.
 *
 * Two effects are keyed on the pair (isVoiceActive, voiceStage). React
 * re-runs them only when one of the two changed, after the handler that
 * changed it; `Settle` is that re-run. The interval's closure variables
 * `currentText` and `i` are kept as `revealText` and `revealIndex`: a re-run
 * that starts a new interval starts them afresh, and a re-run that leaves
 * `listening` clears the interval, after which they are never read again.
 */
module Voice {

  datatype VoiceStage = Listening | Confirming | Success

  /** The fixed text the simulated recogniser "hears". */
  const FullText: string := "Add Ahmed my dad to my household bills circle..."

  datatype VoiceState = VoiceState(
    active: bool,
    stage: VoiceStage,
    transcript: string,
    revealText: string,
    revealIndex: nat)

  /** The voice state when a screen mounts. */
  function Initial(): (r: VoiceState)
    ensures Valid(r) && !r.active && r.stage == Listening && r.transcript == ""
  {
    VoiceState(false, Listening, "", "", 0)
  }

  /** The transcript interval and the auto-advance timer run in this state. */
  predicate IsRevealing(v: VoiceState) {
    v.active && v.stage == Listening
  }

  /**
   * What holds between events: the interval's own text is the first
   * `revealIndex` characters of the fixed text; the transcript is always a
   * prefix of it and, while the interval runs, is the interval's text; an
   * inactive modal is back at `listening` with an empty transcript.
   */
  predicate Valid(v: VoiceState) {
    && v.revealIndex <= |FullText|
    && v.revealText == FullText[..v.revealIndex]
    && v.transcript <= FullText
    && (!v.active ==> v.stage == Listening && v.transcript == "")
    && (IsRevealing(v) ==> v.transcript == v.revealText)
  }

  /**
   * The two voice effects, re-run after a handler moved the pair from
   * (prevActive, prevStage) to (next.active, next.stage).
   */
  function Settle(prevActive: bool, prevStage: VoiceStage, next: VoiceState): (r: VoiceState)
    ensures r.active == next.active
    ensures !next.active && (prevActive || prevStage != next.stage) ==> r.stage == Listening && r.transcript == ""
    ensures IsRevealing(next) && !(prevActive && prevStage == Listening) ==> r.revealText == "" && r.revealIndex == 0
    ensures prevActive == next.active && prevStage == next.stage ==> r == next
    ensures IsRevealing(next) ==> r.stage == next.stage && r.transcript == next.transcript
    ensures next.active && next.stage != Listening ==> r == next
    ensures !IsRevealing(next) ==> r.revealText == next.revealText && r.revealIndex == next.revealIndex
  {
    if prevActive == next.active && prevStage == next.stage then next
    else if IsRevealing(next) then next.(revealText := "", revealIndex := 0)
    else if !next.active then next.(transcript := "", stage := Listening)
    else next
  }

  /** `setIsVoiceActive(b)` followed by the effects. */
  function SetActive(v: VoiceState, b: bool): (r: VoiceState)
    ensures r.active == b
    ensures !b && (v.active || Valid(v)) ==> r.stage == Listening && r.transcript == ""
    ensures b && !v.active && Valid(v) ==> IsRevealing(r) && r.transcript == "" && r.revealText == "" && r.revealIndex == 0
    ensures b && v.active ==> r == v
    ensures b && !v.active ==> r.stage == v.stage && r.transcript == v.transcript
    ensures b && !v.active && v.stage == Listening ==> r.revealText == "" && r.revealIndex == 0
    ensures Valid(v) ==> Valid(r)
  {
    Settle(v.active, v.stage, v.(active := b))
  }

  /** Chat's `handleVoiceClick`: active and `listening` at once. */
  function Click(v: VoiceState): (r: VoiceState)
    ensures IsRevealing(r)
    ensures IsRevealing(v) ==> r == v
    ensures !IsRevealing(v) ==> r.revealText == "" && r.revealIndex == 0 && r.transcript == v.transcript
    ensures Valid(v) && !v.active ==> Valid(r) && r.transcript == ""
  {
    Settle(v.active, v.stage, v.(active := true, stage := Listening))
  }

  /** `setVoiceStage('success')` followed by the effects. */
  function Confirm(v: VoiceState): (r: VoiceState)
    ensures r.active == v.active
    ensures v.active ==> r.stage == Success && r.transcript == v.transcript
    ensures v.active ==> r.revealText == v.revealText && r.revealIndex == v.revealIndex
    ensures Valid(v) ==> Valid(r)
  {
    Settle(v.active, v.stage, v.(stage := Success))
  }

  /**
   * The 3500 ms timer scheduled while revealing: it moves to `confirming`
   * whatever part of the transcript is on screen.
   */
  function AdvanceTick(v: VoiceState): (r: VoiceState)
    ensures IsRevealing(v) ==> r.active && r.stage == Confirming && r.transcript == v.transcript
    ensures IsRevealing(v) ==> r.revealText == v.revealText && r.revealIndex == v.revealIndex
    ensures !IsRevealing(v) ==> r == v
    ensures Valid(v) ==> Valid(r)
  {
    if IsRevealing(v) then Settle(v.active, v.stage, v.(stage := Confirming)) else v
  }

  /**
   * One firing of the 50 ms transcript interval: while characters remain it
   * appends the next one and shows the result; afterwards it only clears
   * itself.
   */
  function RevealTick(v: VoiceState): (r: VoiceState)
    ensures r.active == v.active && r.stage == v.stage
    ensures !IsRevealing(v) || v.revealIndex >= |FullText| ==> r == v
    ensures IsRevealing(v) && v.revealIndex < |FullText| ==>
      r.revealIndex == v.revealIndex + 1 && r.transcript == r.revealText == v.revealText + [FullText[v.revealIndex]]
    ensures Valid(v) ==> Valid(r)
    ensures Valid(v) && IsRevealing(v) && v.revealIndex < |FullText| ==>
      |r.transcript| == |v.transcript| + 1 && v.transcript <= r.transcript
  {
    if IsRevealing(v) && v.revealIndex < |FullText| then
      var text := v.revealText + [FullText[v.revealIndex]];
      assert FullText[..v.revealIndex + 1] == FullText[..v.revealIndex] + [FullText[v.revealIndex]];
      v.(revealText := text, transcript := text, revealIndex := v.revealIndex + 1)
    else
      v
  }

  /** `n` interval firings with no other event in between. */
  function RevealTicks(v: VoiceState, n: nat): VoiceState
    decreases n
  {
    if n == 0 then v else RevealTicks(RevealTick(v), n - 1)
  }

  function Min(a: nat, b: nat): nat {
    if a <= b then a else b
  }

  /** After n firings the transcript shows the first revealIndex + n characters, capped. */
  lemma {:induction false} RevealTicksShowPrefix(v: VoiceState, n: nat)
    requires Valid(v) && IsRevealing(v)
    ensures Valid(RevealTicks(v, n)) && IsRevealing(RevealTicks(v, n))
    ensures RevealTicks(v, n).transcript == FullText[..Min(v.revealIndex + n, |FullText|)]
    decreases n
  {
    if n > 0 {
      RevealTicksShowPrefix(RevealTick(v), n - 1);
    }
  }

  /**
   * Started afresh, the interval shows the whole fixed text exactly when it
   * has fired at least once per character before anything else happens.
   */
  lemma TranscriptCompleteIff(v: VoiceState, n: nat)
    requires Valid(v) && IsRevealing(v) && v.revealIndex == 0
    ensures RevealTicks(v, n).transcript == FullText <==> n >= |FullText|
  {
    RevealTicksShowPrefix(v, n);
  }
}
