/**
 * Vocabulary shared by the two screens that run the scripted conversation
 * (the family-circle screen and the chat screen): the eight conversation
 * stages, the chat message record, the role-selection toggle and the
 * `String.prototype.trim` test that guards text submission.
 */
module Conversation {

  datatype Option<+T> = None | Some(value: T)

  /** The eight stages of the scripted conversation. */
  datatype Stage =
    | Idle
    | UserTyping
    | AiResponding
    | RoleSelection
    | ConfirmationCard
    | AnimatingAvatar
    | Confirmed
    | FollowUp

  /** Position of a stage on the forward path of the script. */
  function Rank(s: Stage): (r: nat)
    ensures r < 8
  {
    match s
    case Idle => 0
    case UserTyping => 1
    case AiResponding => 2
    case RoleSelection => 3
    case ConfirmationCard => 4
    case AnimatingAvatar => 5
    case Confirmed => 6
    case FollowUp => 7
  }

  /** The stages whose entry schedules a timer; the others wait for the user. */
  predicate IsTimed(s: Stage) {
    s == UserTyping || s == AiResponding || s == AnimatingAvatar || s == Confirmed
  }

  /** The stage a timed stage's timer moves to. */
  function TimedNext(s: Stage): (r: Stage)
    requires IsTimed(s)
    ensures Rank(r) == Rank(s) + 1
    ensures r != Idle && r != ConfirmationCard && r != AnimatingAvatar
  {
    match s
    case UserTyping => AiResponding
    case AiResponding => RoleSelection
    case AnimatingAvatar => Confirmed
    case Confirmed => FollowUp
  }

  /**
   * How many of the four scripted messages of the current round are already
   * on screen when the conversation is in stage `s` (a finished round, in
   * `FollowUp`, counts as 0 of the next one).
   */
  function Appended(s: Stage): (r: nat)
    ensures r < 4
  {
    match s
    case Idle => 0
    case UserTyping => 0
    case AiResponding => 1
    case RoleSelection => 2
    case ConfirmationCard => 2
    case AnimatingAvatar => 2
    case Confirmed => 3
    case FollowUp => 0
  }

  /** Every timer step appends exactly the next message of the round. */
  lemma TimedStepAppendsNext(s: Stage)
    requires IsTimed(s)
    ensures Appended(TimedNext(s)) == (Appended(s) + 1) % 4
  {
  }

  /** Counting messages modulo the four of a round. */
  lemma NextModFour(n: nat)
    ensures (n + 1) % 4 == (n % 4 + 1) % 4
  {
  }

  datatype Author = User | Ai

  /** The avatar-and-name chip a message can carry. */
  datatype InlineAvatar = InlineAvatar(image: string, name: string)

  /**
   * A chat message. `id` is the clock value at the time the message was
   * created; nothing is assumed about it.
   */
  datatype Message = Message(
    id: int,
    author: Author,
    text: string,
    showAvatarGroup: bool,
    inlineAvatar: Option<InlineAvatar>)

  /** The texts of one round of the scripted conversation; the screens differ only in the user's request. */
  datatype Script = Script(request: string, askRole: string, added: string, followUp: string)

  /** The k-th message of a round of `sc`, stamped with the clock value `id`. */
  function ScriptLine(sc: Script, k: nat, id: int): (m: Message)
    requires k < 4
    ensures m.id == id
    ensures m.author == User <==> k == 0
    ensures m.showAvatarGroup <==> k == 2
    ensures m.inlineAvatar.Some? <==> k == 1
    ensures k == 1 ==> m.inlineAvatar == Some(InlineAvatar("ahmed.png", "Ahmed"))
  {
    if k == 0 then Message(id, User, sc.request, false, None)
    else if k == 1 then
      Message(id, Ai, sc.askRole, false, Some(InlineAvatar("ahmed.png", "Ahmed")))
    else if k == 2 then Message(id, Ai, sc.added, true, None)
    else Message(id, Ai, sc.followUp, false, None)
  }

  /**
   * The messages are whole rounds of `sc` followed by the part of the
   * current round that `stage` has reached; there are none while idle.
   */
  predicate FollowsScript(sc: Script, messages: seq<Message>, stage: Stage) {
    && (forall i :: 0 <= i < |messages| ==> messages[i] == ScriptLine(sc, i % 4, messages[i].id))
    && |messages| % 4 == Appended(stage)
    && (stage == Idle ==> messages == [])
  }

  /** Appending the round's next line and taking the timed step keeps the messages on the script. */
  lemma AppendFollowsScript(sc: Script, messages: seq<Message>, stage: Stage, now: int)
    requires IsTimed(stage) && FollowsScript(sc, messages, stage)
    ensures FollowsScript(sc, messages + [ScriptLine(sc, Appended(stage), now)], TimedNext(stage))
  {
    var r := messages + [ScriptLine(sc, Appended(stage), now)];
    TimedStepAppendsNext(stage);
    NextModFour(|messages|);
    forall i | 0 <= i < |r| ensures r[i] == ScriptLine(sc, i % 4, r[i].id) {
      if i < |messages| {
        assert r[i] == messages[i];
      } else {
        assert r[i] == ScriptLine(sc, Appended(stage), now) && i % 4 == Appended(stage);
      }
    }
  }

  /** Role identifiers as the role picker uses them. */
  type RoleId = string

  /** The role catalogue offered by the role picker, in display order. */
  const Roles: seq<RoleId> := ["manager", "viewer", "editor", "contributor"]

  predicate NoDuplicates<T(==)>(s: seq<T>) {
    forall i, j :: 0 <= i < j < |s| ==> s[i] != s[j]
  }

  /** `s.filter(y => y !== x)`. */
  function Without(s: seq<RoleId>, x: RoleId): (r: seq<RoleId>)
    ensures forall y :: y in r <==> y in s && y != x
    ensures |r| <= |s|
  {
    if s == [] then []
    else (if s[0] == x then [] else [s[0]]) + Without(s[1..], x)
  }

  /** Filtering out an absent value leaves the list as it was. */
  lemma {:induction false} WithoutAbsent(s: seq<RoleId>, x: RoleId)
    requires x !in s
    ensures Without(s, x) == s
  {
    if s != [] {
      WithoutAbsent(s[1..], x);
      assert s == [s[0]] + s[1..];
    }
  }

  /**
   * In a duplicate-free list, filtering out the element at index k deletes
   * exactly that position: the others keep their relative order.
   */
  lemma {:induction false} WithoutAt(s: seq<RoleId>, k: nat)
    requires NoDuplicates(s) && k < |s|
    ensures Without(s, s[k]) == s[..k] + s[k + 1..]
  {
    var x := s[k];
    if k == 0 {
      assert x !in s[1..];
      WithoutAbsent(s[1..], x);
    } else {
      assert s[0] != x;
      assert NoDuplicates(s[1..]);
      WithoutAt(s[1..], k - 1);
      assert s[1..][k - 1] == x;
      calc {
        Without(s, x);
        [s[0]] + Without(s[1..], x);
        [s[0]] + (s[1..][..k - 1] + s[1..][k..]);
        { assert [s[0]] + s[1..][..k - 1] == s[..k]; assert s[1..][k..] == s[k + 1..]; }
        s[..k] + s[k + 1..];
      }
    }
  }

  /**
   * `handleRoleToggle`: a selected role is filtered out, an unselected one
   * is appended at the end.
   */
  function ToggleRole(selected: seq<RoleId>, id: RoleId): (r: seq<RoleId>)
    ensures id in r <==> id !in selected
    ensures forall other :: other != id ==> (other in r <==> other in selected)
    ensures id !in selected ==> r == selected + [id]
  {
    if id in selected then Without(selected, id) else selected + [id]
  }

  /** Removing a selected role deletes it in place and keeps the others' order. */
  lemma ToggleRoleRemovesInPlace(selected: seq<RoleId>, k: nat)
    requires NoDuplicates(selected) && k < |selected|
    ensures ToggleRole(selected, selected[k]) == selected[..k] + selected[k + 1..]
  {
    WithoutAt(selected, k);
  }

  /** Deleting one position keeps a list free of duplicates. */
  lemma DeleteAtNoDuplicates(s: seq<RoleId>, k: nat)
    requires NoDuplicates(s) && k < |s|
    ensures NoDuplicates(s[..k] + s[k + 1..])
  {
    var r := s[..k] + s[k + 1..];
    forall i, j | 0 <= i < j < |r| ensures r[i] != r[j] {
      var i' := if i < k then i else i + 1;
      var j' := if j < k then j else j + 1;
      assert r[i] == s[i'] && r[j] == s[j'];
    }
  }

  /** Appending an absent element keeps a list free of duplicates. */
  lemma AppendAbsentNoDuplicates(s: seq<RoleId>, x: RoleId)
    requires NoDuplicates(s) && x !in s
    ensures NoDuplicates(s + [x])
  {
    var r := s + [x];
    forall i, j | 0 <= i < j < |r| ensures r[i] != r[j] {
      if j == |s| {
        assert r[i] == s[i];
      }
    }
  }

  /** The selection never holds the same role twice. */
  lemma ToggleRoleNoDuplicates(selected: seq<RoleId>, id: RoleId)
    requires NoDuplicates(selected)
    ensures NoDuplicates(ToggleRole(selected, id))
  {
    if id in selected {
      var k :| 0 <= k < |selected| && selected[k] == id;
      WithoutAt(selected, k);
      DeleteAtNoDuplicates(selected, k);
    } else {
      AppendAbsentNoDuplicates(selected, id);
    }
  }

  /** The selection after the user taps the roles of `taps` in order. */
  function ToggleAll(selected: seq<RoleId>, taps: seq<RoleId>): seq<RoleId>
    decreases taps
  {
    if taps == [] then selected else ToggleAll(ToggleRole(selected, taps[0]), taps[1..])
  }

  /** How often `x` occurs in `taps`. */
  function Count(taps: seq<RoleId>, x: RoleId): nat
  {
    if taps == [] then 0 else (if taps[0] == x then 1 else 0) + Count(taps[1..], x)
  }

  /** One tap flips the tapped role and no other. */
  lemma TapFlips(selected: seq<RoleId>, tap: RoleId, x: RoleId)
    ensures x in ToggleRole(selected, tap) <==> (x in selected) != (tap == x)
  {
  }

  /** The parity of the count moves with the first tap. */
  lemma CountParityStep(taps: seq<RoleId>, x: RoleId)
    requires taps != []
    ensures (Count(taps, x) % 2 == 1) <==> ((taps[0] == x) != (Count(taps[1..], x) % 2 == 1))
  {
    var c := Count(taps[1..], x);
    if taps[0] == x {
      assert Count(taps, x) == 1 + c;
      assert ((1 + c) % 2 == 1) <==> !(c % 2 == 1);
    }
  }

  /**
   * Toggle semantics: a role is selected after a run of taps exactly when it
   * was selected before and was tapped an even number of times, or was not
   * selected and was tapped an odd number of times.
   */
  lemma {:induction false} ToggleAllParity(selected: seq<RoleId>, taps: seq<RoleId>, x: RoleId)
    ensures x in ToggleAll(selected, taps) <==> ((x in selected) != (Count(taps, x) % 2 == 1))
    decreases taps
  {
    if taps != [] {
      var next := ToggleRole(selected, taps[0]);
      ToggleAllParity(next, taps[1..], x);
      TapFlips(selected, taps[0], x);
      CountParityStep(taps, x);
    }
  }

  /** From an empty selection: exactly the roles tapped an odd number of times. */
  lemma OddTapsSelected(taps: seq<RoleId>, x: RoleId)
    ensures x in ToggleAll([], taps) <==> Count(taps, x) % 2 == 1
  {
    ToggleAllParity([], taps, x);
  }

  /**
   * The characters `String.prototype.trim` removes: the ECMAScript
   * WhiteSpace (tab, vertical tab, form feed, space, no-break space, byte
   * order mark, the Unicode space separators) and LineTerminator (line
   * feed, carriage return, line and paragraph separator) code points.
   */
  predicate IsWhitespace(c: char): (b: bool)
    ensures c < '\U{0080}' ==> (b <==> c == '\t' || c == '\n' || c == '\U{000B}' || c == '\U{000C}' || c == '\r' || c == ' ')
    ensures c == '\U{00A0}' || c == '\U{FEFF}' ==> b
  {
    c == '\t' || c == '\n' || c == '\U{000B}' || c == '\U{000C}' || c == '\r' || c == ' '
    || c == '\U{00A0}' || c == '\U{1680}' || ('\U{2000}' <= c <= '\U{200A}')
    || c == '\U{2028}' || c == '\U{2029}' || c == '\U{202F}' || c == '\U{205F}'
    || c == '\U{3000}' || c == '\U{FEFF}'
  }

  /** `s` with its leading whitespace removed. */
  function TrimStart(s: string): (r: string)
    ensures |r| <= |s| && r == s[|s| - |r|..]
    ensures r == [] || !IsWhitespace(r[0])
    ensures forall i :: 0 <= i < |s| - |r| ==> IsWhitespace(s[i])
  {
    if s != [] && IsWhitespace(s[0]) then TrimStart(s[1..]) else s
  }

  /** `s` with its trailing whitespace removed. */
  function TrimEnd(s: string): (r: string)
    ensures |r| <= |s| && r == s[..|r|]
    ensures r == [] || !IsWhitespace(r[|r| - 1])
    ensures forall i :: |r| <= i < |s| ==> IsWhitespace(s[i])
  {
    if s != [] && IsWhitespace(s[|s| - 1]) then TrimEnd(s[..|s| - 1]) else s
  }

  /**
   * `s.trim()`: the trimmed text is empty exactly when `s` is made of
   * whitespace only, and otherwise starts and ends with a visible character.
   */
  function Trim(s: string): (r: string)
    ensures r == [] <==> forall i :: 0 <= i < |s| ==> IsWhitespace(s[i])
    ensures r != [] ==> !IsWhitespace(r[0]) && !IsWhitespace(r[|r| - 1])
  {
    var t := TrimStart(s);
    var r := TrimEnd(t);
    assert r != [] ==> t[0] == r[0];
    r
  }

  /** The truthiness test `inputValue.trim()` used to guard a submission. */
  predicate HasText(s: string): (b: bool)
    ensures b <==> exists i :: 0 <= i < |s| && !IsWhitespace(s[i])
  {
    Trim(s) != []
  }
}
