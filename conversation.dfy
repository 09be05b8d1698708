/**
 * The conversation view: an append-only message log, an input buffer, a
 * recording toggle, the intensity dropdown, and the replies that accepted
 * sends have scheduled but that have not been delivered yet.
 *
 * The reply timer is an explicit FIFO queue: every accepted send enqueues one
 * reply, and each firing of the (fixed, equal) delay delivers the oldest one.
 * A reply carries what its timer callback captured when the send happened:
 * the id computed from the log length of that moment and the input it echoes.
 */
module Conversation {
  import opened Text
  import Intensity

  datatype Sender = User | Assistant

  /** One chat line; the creation timestamp is not modelled. */
  datatype Message = Message(id: int, text: string, sender: Sender)

  /** A reply whose timer has been started and has not fired yet. */
  datatype PendingReply = PendingReply(id: int, echo: string)

  const ProductName: string := "Apple Watch Series 9"
  const SeedOpening: string := "Look, I know you're thinking about getting the "
  const SeedClosing: string := ", but I really think you should reconsider. Do you actually need another device to track your steps? You already have your phone for that."

  /** The text of the assistant message the log starts with. */
  function SeedText(): string {
    SeedOpening + ProductName + SeedClosing
  }

  const ReplyOpening: string := "I received your message: \""
  const ReplyClosing: string := "\". This is a placeholder response."

  /** The placeholder reply to a user message with text `input`. */
  function ReplyText(input: string): string {
    ReplyOpening + input + ReplyClosing
  }

  /** The state of one mounted conversation view, as a value. */
  datatype ChatState = ChatState(
    messages: seq<Message>,
    input: string,
    pending: seq<PendingReply>,
    isRecording: bool,
    showDropdown: bool,
    intensityLevel: string)

  function Initial(): ChatState {
    ChatState([Message(1, SeedText(), Assistant)], "", [], false, false, Intensity.DefaultName)
  }

  /**
   * `handleSend` goes on exactly when the input does not trim to the empty
   * string, that is when it holds a character that is not white space
   * (`AcceptsIffTrimNonEmpty`).
   */
  predicate Accepts(input: string) {
    !IsBlank(input)
  }

  lemma AcceptsIffTrimNonEmpty(input: string)
    ensures Accepts(input) <==> Trim(input) != ""
  {
    TrimEmptyIffBlank(input);
  }

  /** The user message an accepted send appends. */
  function UserMessage(c: ChatState): Message {
    Message(|c.messages| + 1, c.input, User)
  }

  /** The assistant message a delivered reply appends. */
  function ReplyMessage(p: PendingReply): Message {
    Message(p.id, ReplyText(p.echo), Assistant)
  }

  // ---- handlers, as functions on the value state ----

  function AfterSetInput(c: ChatState, text: string): ChatState {
    c.(input := text)
  }

  function AfterSend(c: ChatState): ChatState {
    if !Accepts(c.input) then c
    else c.(messages := c.messages + [UserMessage(c)],
            input := "",
            pending := c.pending + [PendingReply(|c.messages| + 2, c.input)])
  }

  /** The oldest scheduled reply fires; with nothing scheduled no timer can fire. */
  function AfterDeliver(c: ChatState): ChatState {
    if c.pending == [] then c
    else c.(messages := c.messages + [ReplyMessage(c.pending[0])], pending := c.pending[1..])
  }

  function AfterToggleRecording(c: ChatState): ChatState {
    c.(isRecording := !c.isRecording)
  }

  function AfterKeyPress(c: ChatState, key: string, shiftKey: bool): ChatState {
    if key == "Enter" && !shiftKey then AfterSend(c) else c
  }

  function AfterToggleDropdown(c: ChatState): ChatState {
    c.(showDropdown := !c.showDropdown)
  }

  /** A mousedown outside the dropdown; the listener exists only while it is open. */
  function AfterMouseDownOutsideDropdown(c: ChatState): ChatState {
    if c.showDropdown then c.(showDropdown := false) else c
  }

  function AfterSelectLevel(c: ChatState, level: Intensity.Level): ChatState {
    c.(intensityLevel := Intensity.Name(level), showDropdown := false)
  }

  // ---- events and runs ----

  datatype Event =
    | Typed(text: string)
    | SendClicked
    | KeyPressed(key: string, shiftKey: bool)
    | ReplyDue
    | VoiceClicked
    | DropdownClicked
    | MouseDownOutside
    | LevelPicked(level: Intensity.Level)

  function Step(c: ChatState, e: Event): ChatState {
    match e
    case Typed(text) => AfterSetInput(c, text)
    case SendClicked => AfterSend(c)
    case KeyPressed(key, shiftKey) => AfterKeyPress(c, key, shiftKey)
    case ReplyDue => AfterDeliver(c)
    case VoiceClicked => AfterToggleRecording(c)
    case DropdownClicked => AfterToggleDropdown(c)
    case MouseDownOutside => AfterMouseDownOutsideDropdown(c)
    case LevelPicked(level) => AfterSelectLevel(c, level)
  }

  function Run(c: ChatState, events: seq<Event>): ChatState
    decreases |events|
  {
    if events == [] then c else Run(Step(c, events[0]), events[1..])
  }

  // ---- the invariant of every reachable state ----

  /** The user message that scheduled `p` sits in the log at index `p.id - 2` (id `p.id - 1`, same text). */
  ghost predicate Triggered(log: seq<Message>, p: PendingReply) {
    2 <= p.id <= |log| + 1 && log[p.id - 2] == Message(p.id - 1, p.echo, User)
  }

  /**
   * Every reachable state: the seed message heads the log, every scheduled
   * reply follows its triggering user message, replies are queued in send
   * order (their ids strictly increase), and the level is one of the five.
   */
  ghost predicate Invariant(c: ChatState) {
    && |c.messages| >= 1 && c.messages[0] == Message(1, SeedText(), Assistant)
    && (forall k :: 0 <= k < |c.pending| ==> Triggered(c.messages, c.pending[k]))
    && (forall j, k :: 0 <= j < k < |c.pending| ==> c.pending[j].id < c.pending[k].id)
    && Intensity.IsLevelName(c.intensityLevel)
  }

  lemma InitialInvariant()
    ensures Invariant(Initial())
  {
    Intensity.DefaultIsLevel();
  }

  lemma SendKeepsInvariant(c: ChatState)
    requires Invariant(c)
    ensures Invariant(AfterSend(c))
  {
    if Accepts(c.input) {
      var d := AfterSend(c);
      forall k | 0 <= k < |d.pending| ensures Triggered(d.messages, d.pending[k]) {
        if k < |c.pending| {
          assert Triggered(c.messages, c.pending[k]);
        }
      }
      forall j, k | 0 <= j < k < |d.pending| ensures d.pending[j].id < d.pending[k].id {
        if k < |c.pending| {
          assert d.pending[j] == c.pending[j] && d.pending[k] == c.pending[k];
        } else {
          assert Triggered(c.messages, c.pending[j]);
        }
      }
    }
  }

  lemma DeliverKeepsInvariant(c: ChatState)
    requires Invariant(c)
    ensures Invariant(AfterDeliver(c))
  {
    if c.pending != [] {
      var d := AfterDeliver(c);
      forall k | 0 <= k < |d.pending| ensures Triggered(d.messages, d.pending[k]) {
        assert d.pending[k] == c.pending[k + 1];
        assert Triggered(c.messages, c.pending[k + 1]);
      }
      forall j, k | 0 <= j < k < |d.pending| ensures d.pending[j].id < d.pending[k].id {
        assert d.pending[j] == c.pending[j + 1] && d.pending[k] == c.pending[k + 1];
      }
    }
  }

  lemma StepKeepsInvariant(c: ChatState, e: Event)
    requires Invariant(c)
    ensures Invariant(Step(c, e))
  {
    match e
    case SendClicked => SendKeepsInvariant(c);
    case KeyPressed(key, shiftKey) => SendKeepsInvariant(c);
    case ReplyDue => DeliverKeepsInvariant(c);
    case _ =>
  }

  lemma {:induction false} RunKeepsInvariant(c: ChatState, events: seq<Event>)
    requires Invariant(c)
    ensures Invariant(Run(c, events))
    decreases |events|
  {
    if events != [] {
      StepKeepsInvariant(c, events[0]);
      RunKeepsInvariant(Step(c, events[0]), events[1..]);
    }
  }

  // ---- the mounted component ----

  /** One mounted conversation view; its handlers update the fields in place. */
  class View {
    var messages: seq<Message>
    var input: string
    var pending: seq<PendingReply>
    var isRecording: bool
    var showBossModeDropdown: bool
    var intensityLevel: string

    function Model(): ChatState
      reads this
    {
      ChatState(messages, input, pending, isRecording, showBossModeDropdown, intensityLevel)
    }

    ghost predicate Valid()
      reads this
    {
      Invariant(Model())
    }

    /** Mounting: the seeded log, an empty input, nothing scheduled, recording off, dropdown closed. */
    constructor ()
      ensures Valid() && Model() == Initial()
    {
      messages := [Message(1, SeedText(), Assistant)];
      input := "";
      pending := [];
      isRecording := false;
      showBossModeDropdown := false;
      intensityLevel := Intensity.DefaultName;
      InitialInvariant();
    }

    /** The textarea's change handler. */
    method SetInput(text: string)
      requires Valid()
      modifies this
      ensures Valid() && Model() == AfterSetInput(old(Model()), text)
    {
      input := text;
    }

    /** `handleSend`: `accepted` tells whether a message was appended and a reply scheduled. */
    method Send() returns (accepted: bool)
      requires Valid()
      modifies this
      ensures accepted == Accepts(old(input))
      ensures Valid() && Model() == AfterSend(old(Model()))
    {
      ghost var next := AfterSend(Model());
      SendKeepsInvariant(Model());
      AcceptsIffTrimNonEmpty(input);
      accepted := Trim(input) != "";
      if !accepted {
        return;
      }
      var n := |messages|;
      messages := messages + [Message(n + 1, input, User)];
      pending := pending + [PendingReply(n + 2, input)];
      input := "";
      assert Model() == next;
    }

    /** The oldest reply timer fires and appends its placeholder reply. */
    method DeliverReply()
      requires Valid() && pending != []
      modifies this
      ensures Valid() && Model() == AfterDeliver(old(Model()))
    {
      DeliverKeepsInvariant(Model());
      var p := pending[0];
      messages := messages + [Message(p.id, ReplyText(p.echo), Assistant)];
      pending := pending[1..];
    }

    /** `handleVoiceRecord`; starting and stopping a recording are stubs in the source. */
    method VoiceRecord()
      requires Valid()
      modifies this
      ensures Valid() && Model() == AfterToggleRecording(old(Model()))
    {
      if isRecording {
        isRecording := false;
      } else {
        isRecording := true;
      }
    }

    /** `handleKeyPress`: Enter without Shift sends, every other key is left to the textarea. */
    method KeyPress(key: string, shiftKey: bool) returns (sent: bool)
      requires Valid()
      modifies this
      ensures sent <==> key == "Enter" && !shiftKey && Accepts(old(input))
      ensures Valid() && Model() == AfterKeyPress(old(Model()), key, shiftKey)
    {
      sent := false;
      if key == "Enter" && !shiftKey {
        sent := Send();
      }
    }

    method ToggleDropdown()
      requires Valid()
      modifies this
      ensures Valid() && Model() == AfterToggleDropdown(old(Model()))
    {
      showBossModeDropdown := !showBossModeDropdown;
    }

    method MouseDownOutsideDropdown()
      requires Valid()
      modifies this
      ensures Valid() && Model() == AfterMouseDownOutsideDropdown(old(Model()))
    {
      if showBossModeDropdown {
        showBossModeDropdown := false;
      }
    }

    /** Picking an entry of the dropdown. */
    method SelectLevel(level: Intensity.Level)
      requires Valid()
      modifies this
      ensures Valid() && Model() == AfterSelectLevel(old(Model()), level)
    {
      intensityLevel := Intensity.Name(level);
      showBossModeDropdown := false;
    }
  }
}
