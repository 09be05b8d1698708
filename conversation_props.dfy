/**
 * Properties of the conversation engine: what a send and a reply delivery
 * do to the log and the queue, the log being append-only, the delivery
 * order, and how message ids are (and are not) assigned.
 */
module ConversationProperties {
  import opened Text
  import Intensity
  import opened Wrappers
  import opened Conversation

  /** `word` occurs in `text`. */
  ghost predicate Mentions(text: string, word: string) {
    exists i :: 0 <= i <= |text| - |word| && OccursAt(text, word, i)
  }

  ghost predicate OccursAt(text: string, word: string, i: int)
    requires 0 <= i <= |text| - |word|
  {
    text[i..i + |word|] == word
  }

  /** The log a fresh view shows: one assistant message, id 1, about the product; nothing else is set. */
  lemma InitialState()
    ensures |Initial().messages| == 1
    ensures Initial().messages[0].id == 1 && Initial().messages[0].sender == Assistant
    ensures Mentions(Initial().messages[0].text, ProductName)
    ensures Initial().input == "" && Initial().pending == []
    ensures !Initial().isRecording && !Initial().showDropdown
    ensures Initial().intensityLevel == "Stubborn Friend"
  {
    var t := SeedText();
    assert OccursAt(t, ProductName, |SeedOpening|);
  }

  /** A send changes nothing (log, input, queue, anything) exactly when the input is white space only. */
  lemma BlankSendChangesNothing(c: ChatState)
    ensures AfterSend(c) == c <==> IsBlank(c.input)
  {
    if Accepts(c.input) {
      assert |AfterSend(c).messages| == |c.messages| + 1;
    }
  }

  /**
   * An accepted send appends one user message carrying the untrimmed input and
   * the id "log length + 1", clears the input, and schedules one reply whose
   * id is "log length + 2"; nothing else changes.
   */
  lemma AcceptedSend(c: ChatState)
    requires Accepts(c.input)
    ensures var d := AfterSend(c);
      && |d.messages| == |c.messages| + 1 && d.messages[..|c.messages|] == c.messages
      && d.messages[|c.messages|] == Message(|c.messages| + 1, c.input, User)
      && d.input == ""
      && d.pending == c.pending + [PendingReply(|c.messages| + 2, c.input)]
      && d.isRecording == c.isRecording && d.showDropdown == c.showDropdown
      && d.intensityLevel == c.intensityLevel
  {
  }

  /** A delivery appends the oldest reply as an assistant message echoing its input, and dequeues it. */
  lemma DeliveredReply(c: ChatState)
    requires c.pending != []
    ensures var d := AfterDeliver(c);
      && d.messages == c.messages + [Message(c.pending[0].id,
           "I received your message: \"" + c.pending[0].echo + "\". This is a placeholder response.", Assistant)]
      && d.pending == c.pending[1..]
      && d.input == c.input && d.isRecording == c.isRecording
      && d.showDropdown == c.showDropdown && d.intensityLevel == c.intensityLevel
  {
  }

  /** In a reachable state the reply about to be delivered follows its triggering user message, which is already logged. */
  lemma ReplyFollowsTrigger(c: ChatState)
    requires Invariant(c) && c.pending != []
    ensures var p := c.pending[0];
      var d := AfterDeliver(c);
      && 0 <= p.id - 2 < |c.messages| == |d.messages| - 1
      && d.messages[p.id - 2] == Message(p.id - 1, p.echo, User)
      && d.messages[|c.messages|] == Message(p.id, ReplyText(d.messages[p.id - 2].text), Assistant)
  {
    assert Triggered(c.messages, c.pending[0]);
  }

  // ---- append-only log and the length bookkeeping ----

  /** Whether `e`, in state `c`, runs an accepted send. */
  predicate SendsNow(c: ChatState, e: Event) {
    (e == SendClicked || (e.KeyPressed? && e.key == "Enter" && !e.shiftKey)) && Accepts(c.input)
  }

  /** Whether `e`, in state `c`, delivers a scheduled reply. */
  predicate DeliversNow(c: ChatState, e: Event) {
    e == ReplyDue && c.pending != []
  }

  /** The number of accepted sends along a run. */
  function SendCount(c: ChatState, events: seq<Event>): nat
    decreases |events|
  {
    if events == [] then 0
    else (if SendsNow(c, events[0]) then 1 else 0) + SendCount(Step(c, events[0]), events[1..])
  }

  /** The number of replies delivered along a run. */
  function DeliveryCount(c: ChatState, events: seq<Event>): nat
    decreases |events|
  {
    if events == [] then 0
    else (if DeliversNow(c, events[0]) then 1 else 0) + DeliveryCount(Step(c, events[0]), events[1..])
  }

  lemma StepAppendOnly(c: ChatState, e: Event)
    ensures var d := Step(c, e);
      && c.messages <= d.messages
      && |d.messages| == |c.messages| + (if SendsNow(c, e) then 1 else 0) + (if DeliversNow(c, e) then 1 else 0)
      && |d.pending| + (if DeliversNow(c, e) then 1 else 0) == |c.pending| + (if SendsNow(c, e) then 1 else 0)
  {
  }

  /**
   * The log is append-only: whatever happens, the old log is a prefix of the
   * new one. It grows by one per accepted send and by one per delivered reply,
   * and every accepted send leaves exactly one reply in the queue until it is
   * delivered.
   */
  lemma {:induction false} RunAppendOnly(c: ChatState, events: seq<Event>)
    ensures var d := Run(c, events);
      && c.messages <= d.messages
      && |d.messages| == |c.messages| + SendCount(c, events) + DeliveryCount(c, events)
      && |d.pending| + DeliveryCount(c, events) == |c.pending| + SendCount(c, events)
    decreases |events|
  {
    if events != [] {
      StepAppendOnly(c, events[0]);
      RunAppendOnly(Step(c, events[0]), events[1..]);
    }
  }

  /** Once every reply has arrived, a conversation holds the seed plus two messages per accepted send. */
  lemma SettledLogLength(events: seq<Event>)
    requires Run(Initial(), events).pending == []
    ensures |Run(Initial(), events).messages| == 1 + 2 * SendCount(Initial(), events)
  {
    RunAppendOnly(Initial(), events);
  }

  // ---- delivery order ----

  function Replies(ps: seq<PendingReply>): seq<Message>
  {
    seq(|ps|, i requires 0 <= i < |ps| => ReplyMessage(ps[i]))
  }

  function ReplyDues(k: nat): seq<Event>
  {
    seq(k, _ => ReplyDue)
  }

  lemma FirstReplyDue(c: ChatState, k: nat)
    requires 0 < k
    ensures Run(c, ReplyDues(k)) == Run(AfterDeliver(c), ReplyDues(k - 1))
  {
    assert ReplyDues(k)[0] == ReplyDue && ReplyDues(k)[1..] == ReplyDues(k - 1);
  }

  lemma QueueSplit(ps: seq<PendingReply>, k: nat)
    requires 0 < k <= |ps|
    ensures ps[1..][..k - 1] == ps[1..k] && ps[1..][k - 1..] == ps[k..]
    ensures [ReplyMessage(ps[0])] + Replies(ps[1..k]) == Replies(ps[..k])
  {
  }

  /**
   * Replies arrive first in, first out: k timer firings append the replies of
   * the first k queued sends, in queue order, and nothing else.
   */
  lemma {:induction false} DeliveriesInQueueOrder(c: ChatState, k: nat)
    requires k <= |c.pending|
    ensures Run(c, ReplyDues(k)) == c.(messages := c.messages + Replies(c.pending[..k]), pending := c.pending[k..])
    decreases k
  {
    if k > 0 {
      var d := AfterDeliver(c);
      FirstReplyDue(c, k);
      DeliveriesInQueueOrder(d, k - 1);
      QueueSplit(c.pending, k);
    }
  }

  /** A send queues its reply behind every reply already scheduled, and in a reachable state that reply's id exceeds theirs. */
  lemma SendQueuesLast(c: ChatState)
    requires Invariant(c) && Accepts(c.input)
    ensures var d := AfterSend(c);
      && d.pending[..|c.pending|] == c.pending
      && |d.pending| == |c.pending| + 1
      && forall k :: 0 <= k < |c.pending| ==> d.pending[k].id < d.pending[|c.pending|].id
  {
    SendKeepsInvariant(c);
  }

  // ---- the intensity level is inert ----

  /** The parts of the state the log depends on. */
  predicate SameConversation(c1: ChatState, c2: ChatState) {
    c1.messages == c2.messages && c1.input == c2.input && c1.pending == c2.pending
  }

  lemma StepIgnoresIntensity(c1: ChatState, c2: ChatState, e: Event)
    requires SameConversation(c1, c2)
    ensures SameConversation(Step(c1, e), Step(c2, e))
  {
    match e
    case SendClicked =>
      assert Accepts(c1.input) == Accepts(c2.input);
    case KeyPressed(key, shiftKey) =>
      assert Accepts(c1.input) == Accepts(c2.input);
    case _ =>
  }

  /** The level (and the dropdown) never influence the log: two views that differ only there log the same messages forever. */
  lemma {:induction false} LogIgnoresIntensity(c1: ChatState, c2: ChatState, events: seq<Event>)
    requires SameConversation(c1, c2)
    ensures SameConversation(Run(c1, events), Run(c2, events))
    decreases |events|
  {
    if events != [] {
      StepIgnoresIntensity(c1, c2, events[0]);
      LogIgnoresIntensity(Step(c1, events[0]), Step(c2, events[0]), events[1..]);
    }
  }

  // ---- recording and keys ----

  /** The voice button flips the recording flag only, so two presses undo each other. */
  lemma VoiceToggle(c: ChatState)
    ensures AfterToggleRecording(c) == c.(isRecording := !c.isRecording)
    ensures AfterToggleRecording(AfterToggleRecording(c)) == c
  {
  }

  /** The dropdown button flips the open flag only; a mousedown outside closes it. */
  lemma DropdownToggle(c: ChatState)
    ensures AfterToggleDropdown(AfterToggleDropdown(c)) == c
    ensures AfterMouseDownOutsideDropdown(c) == c.(showDropdown := false)
  {
  }

  /** Picking a level stores its value and closes the dropdown; the stored value is always a listed level. */
  lemma PickingALevel(c: ChatState, level: Intensity.Level)
    ensures AfterSelectLevel(c, level) == c.(intensityLevel := Intensity.Name(level), showDropdown := false)
    ensures Intensity.Find(Intensity.Table, AfterSelectLevel(c, level).intensityLevel) == Some(Intensity.Info(level))
  {
    Intensity.FindLevel(level);
  }

  /** Enter without Shift is a send; any other key leaves the state alone. */
  lemma EnterSends(c: ChatState, key: string, shiftKey: bool)
    ensures AfterKeyPress(c, key, shiftKey) == if key == "Enter" && !shiftKey then AfterSend(c) else c
  {
  }

  // ---- ids ----

  /** Message `i` carries id `i + 1`. */
  ghost predicate IdsConsecutive(log: seq<Message>) {
    forall i :: 0 <= i < |log| ==> log[i].id == i + 1
  }

  /** Consecutive ids, and at most one reply in flight, which will land with the next id. */
  ghost predicate Orderly(c: ChatState) {
    && IdsConsecutive(c.messages)
    && |c.pending| <= 1
    && forall k :: 0 <= k < |c.pending| ==> c.pending[k].id == |c.messages| + 1
  }

  /** Every accepted send along the run happens while no reply is in flight. */
  ghost predicate Serial(c: ChatState, events: seq<Event>)
    decreases |events|
  {
    events != [] ==>
      && (SendsNow(c, events[0]) ==> c.pending == [])
      && Serial(Step(c, events[0]), events[1..])
  }

  lemma StepKeepsOrderly(c: ChatState, e: Event)
    requires Orderly(c) && (SendsNow(c, e) ==> c.pending == [])
    ensures Orderly(Step(c, e))
  {
    var d := Step(c, e);
    if SendsNow(c, e) {
      assert d.messages == c.messages + [UserMessage(c)];
    } else if DeliversNow(c, e) {
      assert d.messages == c.messages + [ReplyMessage(c.pending[0])];
    } else {
      assert d.messages == c.messages && d.pending == c.pending by {
        match e
        case KeyPressed(key, shiftKey) =>
        case _ =>
      }
    }
  }

  /**
   * When every reply lands before the next send, ids stay consecutive:
   * message i carries id i + 1 throughout.
   */
  lemma {:induction false} SerialRunKeepsIdsConsecutive(c: ChatState, events: seq<Event>)
    requires Orderly(c) && Serial(c, events)
    ensures Orderly(Run(c, events)) && IdsConsecutive(Run(c, events).messages)
    decreases |events|
  {
    if events != [] {
      StepKeepsOrderly(c, events[0]);
      SerialRunKeepsIdsConsecutive(Step(c, events[0]), events[1..]);
    }
  }

  lemma InitialIsOrderly()
    ensures Orderly(Initial())
  {
  }

  /**
   * The id scheme reads the log length of the moment of the send: a second
   * send while a reply is in flight gives its user message the id that reply
   * will carry, so once the reply lands two messages share an id.
   */
  lemma OverlappingSendDuplicatesId(c: ChatState)
    requires Orderly(c) && c.pending != [] && Accepts(c.input)
    ensures var d := AfterDeliver(AfterSend(c));
      var n := |c.messages|;
      && |d.messages| == n + 2
      && d.messages[n].sender == User && d.messages[n + 1].sender == Assistant
      && d.messages[n].id == d.messages[n + 1].id == n + 1
  {
  }

  /** An event other than a delivery keeps the oldest scheduled reply at the head of the queue. */
  lemma StepKeepsHead(c: ChatState, e: Event)
    requires c.pending != [] && !DeliversNow(c, e)
    ensures Step(c, e).pending != [] && Step(c, e).pending[0] == c.pending[0]
    ensures |c.messages| <= |Step(c, e).messages|
  {
    match e
    case KeyPressed(key, shiftKey) =>
    case _ =>
  }

  /**
   * A run that empties the queue has logged the oldest scheduled reply,
   * after everything that was already in the log.
   */
  lemma {:induction false} SettledRunLogsHead(c: ChatState, events: seq<Event>)
    requires c.pending != [] && Run(c, events).pending == []
    ensures exists j :: |c.messages| <= j < |Run(c, events).messages|
                        && Run(c, events).messages[j] == ReplyMessage(c.pending[0])
    decreases |events|
  {
    var e := events[0];
    var s := Step(c, e);
    assert Run(c, events) == Run(s, events[1..]);
    if DeliversNow(c, e) {
      var j := |c.messages|;
      assert s.messages[j] == ReplyMessage(c.pending[0]);
      RunAppendOnly(s, events[1..]);
      assert Run(s, events[1..]).messages[j] == ReplyMessage(c.pending[0]);
    } else {
      StepKeepsHead(c, e);
      SettledRunLogsHead(s, events[1..]);
    }
  }

  /**
   * The converse of `SerialRunKeepsIdsConsecutive` for runs that settle: if
   * the log ends with consecutive ids, no send overlapped a reply in flight.
   * An overlapping send from a log of length L queues behind a reply with id
   * L + 1; that reply lands at an index of at least L + 1, where a
   * consecutive log would need an id of at least L + 2.
   */
  lemma {:induction false} ConsecutiveSettledRunIsSerial(c: ChatState, events: seq<Event>)
    requires Orderly(c) && Run(c, events).pending == []
    requires IdsConsecutive(Run(c, events).messages)
    ensures Serial(c, events)
    decreases |events|
  {
    if events != [] {
      var e := events[0];
      var s := Step(c, e);
      assert Run(c, events) == Run(s, events[1..]);
      if SendsNow(c, e) && c.pending != [] {
        var p := c.pending[0];
        assert s.pending[0] == p && |s.messages| == |c.messages| + 1 by {
          match e
          case KeyPressed(key, shiftKey) =>
          case _ =>
        }
        SettledRunLogsHead(s, events[1..]);
        assert false;
      } else {
        StepKeepsOrderly(c, e);
        ConsecutiveSettledRunIsSerial(s, events[1..]);
      }
    }
  }

  /**
   * For every conversation whose replies have all arrived: the log has
   * consecutive ids exactly when every reply arrived before the next send.
   */
  lemma SettledIdsConsecutiveIffSerial(events: seq<Event>)
    requires Run(Initial(), events).pending == []
    ensures IdsConsecutive(Run(Initial(), events).messages) <==> Serial(Initial(), events)
  {
    InitialIsOrderly();
    if Serial(Initial(), events) {
      SerialRunKeepsIdsConsecutive(Initial(), events);
    }
    if IdsConsecutive(Run(Initial(), events).messages) {
      ConsecutiveSettledRunIsSerial(Initial(), events);
    }
  }

  lemma {:induction false} RunConcat(c: ChatState, a: seq<Event>, b: seq<Event>)
    ensures Run(c, a + b) == Run(Run(c, a), b)
    decreases |a|
  {
    if a == [] {
      assert a + b == b;
    } else {
      assert (a + b)[0] == a[0] && (a + b)[1..] == a[1..] + b;
      RunConcat(Step(c, a[0]), a[1..], b);
    }
  }

  /** A user types `text` and presses the send button. */
  function TypeAndSend(text: string): seq<Event> {
    [Typed(text), SendClicked]
  }

  lemma TypeAndSendRun(c: ChatState, text: string)
    ensures Run(c, TypeAndSend(text)) == AfterSend(c.(input := text))
  {
    var events := TypeAndSend(text);
    assert events[0] == Typed(text) && events[1..] == [SendClicked];
    assert Run(c, events) == Run(c.(input := text), [SendClicked]);
    assert [SendClicked][1..] == [];
  }

  /** The state after typing `text` into the input and pressing send. */
  function TypedAndSent(c: ChatState, text: string): ChatState {
    AfterSend(AfterSetInput(c, text))
  }

  /**
   * Three sends in quick succession on a fresh view, then their three replies:
   * the ids read 1, 2, 3, 4, 3, 4, 5, so an id repeats and the sequence goes down.
   */
  lemma ThreeQuickSends(a: string, b: string, c: string)
    requires Accepts(a) && Accepts(b) && Accepts(c)
    ensures var d := AfterDeliver(AfterDeliver(AfterDeliver(TypedAndSent(TypedAndSent(TypedAndSent(Initial(), a), b), c))));
      && |d.messages| == 7
      && (forall i :: 0 <= i < 4 ==> d.messages[i].id == i + 1)
      && d.messages[4].id == 3 && d.messages[5].id == 4 && d.messages[6].id == 5
      && d.messages[2].id == d.messages[4].id && d.messages[3].id > d.messages[4].id
  {
    var s1 := TypedAndSent(Initial(), a);
    var s2 := TypedAndSent(s1, b);
    var s3 := TypedAndSent(s2, c);
    assert |s3.messages| == 4 && forall i :: 0 <= i < 4 ==> s3.messages[i].id == i + 1;
    assert s3.pending == [PendingReply(3, a), PendingReply(4, b), PendingReply(5, c)];
  }

  /** The worked example: "Buy it anyway" is logged at once, and its placeholder reply after the delay. */
  lemma BuyItAnyway()
    ensures var d := Run(Initial(), TypeAndSend("Buy it anyway"));
      && |d.messages| == 2 && d.messages[1] == Message(2, "Buy it anyway", User)
    ensures var d := Run(Initial(), TypeAndSend("Buy it anyway") + [ReplyDue]);
      && |d.messages| == 3
      && d.messages[2] == Message(3, "I received your message: \"" + "Buy it anyway" + "\". This is a placeholder response.", Assistant)
  {
    var text := "Buy it anyway";
    assert !IsWhitespace(text[0]);
    TypeAndSendRun(Initial(), text);
    RunConcat(Initial(), TypeAndSend(text), [ReplyDue]);
  }
}
