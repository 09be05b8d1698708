# Friction: a verified model of the UI state machines

Friction is a single-page mock-up with two views. The **dashboard** has a
"Create friction" button. It opens a conversation only when the user is
signed in; otherwise it shows a sign-in popup. The **conversation** is a
chat with an assistant that argues against an impulse purchase. Its replies
are a fixed placeholder echo that arrives 500 ms after each send. An
**intensity level** selector sits in both views. A separate
**user context** keeps a sign-in flag in browser storage, but the app as
written does not use it. This project models the event handlers of these
components as state machines and proves what they guarantee.

Each handler of the conversation, the dashboard and the app is modelled
twice:

- A **class** holds the component's own state fields (`Conversation.View`,
  `Dashboard.View`, `App.Root`). Its methods update those fields in place.
- A **step function** works on a value snapshot of the same state
  (`AfterSend`, `AfterCreateFriction`, …). The event-trace properties are
  proved about these functions.

Each such method's postcondition ties its new state to the step function
applied to the old state. The sign-in provider is modelled by its class
`UserContext.Provider` alone, next to the pure codec functions `Decode` and
`Encode`; its methods state their new fields directly in terms of the codec.
Each class's `Valid()` is an invariant that holds in every reachable state,
and every method preserves it.

- `wrappers.dfy`: the `Option` and `Result` datatypes.
- `text.dfy`: JavaScript's `trim` and the "input is white space only" test.
- `intensity.dfy`: the five intensity levels and the `find` lookup of the
  current level. The two views hold identical copies of this table.
- `conversation.dfy`: the conversation view. It holds the message log, the
  input buffer, the recording toggle, the dropdown and the level. The
  500 ms timer becomes an explicit FIFO queue of pending replies.
  `DeliverReply` models one timer firing.
- `conversation_props.dfy`: properties of the log, the reply queue and the
  message ids.
- `dashboard.dfy`: the sign-in gate, the popup and the dropdown.
- `user_context.dfy`: the storage codec for the sign-in flag, its provider,
  and `useUser`.
- `app.dfy`: the `dashboard`/`conversation` mode switch. A `Screen` is the
  state of the one mounted view, so switching views discards the other
  view's state.

Message ids are not unique, and they do not always increase. A user
message's id is the log length at send time plus 1. The reply's id is that
same length plus 2, and the reply timer captures it at send time.
`SerialRunKeepsIdsConsecutive` shows the ids stay consecutive when every
reply arrives before the next send. Once every reply has arrived, the
converse holds too: the log has consecutive ids exactly when no send
overlapped a reply in flight (`SettledIdsConsecutiveIffSerial`). From a log
with consecutive ids and one reply in flight, a send gives the user message
that reply's id (`OverlappingSendDuplicatesId`). They can also go down: three quick sends
give ids 1, 2, 3, 4, 3, 4, 5 (`ThreeQuickSends`).

## Model

| member | source | states |
|---|---|---|
| Text.TrimStart | src/components/Conversation.tsx:91 | the left half of `trim()` keeps a suffix of the input, never a longer string |
| Text.TrimEnd | src/components/Conversation.tsx:91 | the right half of `trim()` keeps a prefix of the input, never a longer string |
| Text.TrimStartDropsBlankPrefix | src/components/Conversation.tsx:91 | what the left half of `trim()` drops is all white space, and what it keeps starts with a visible character or is empty |
| Text.TrimEndDropsBlankSuffix | src/components/Conversation.tsx:91 | what the right half of `trim()` drops is all white space, and what it keeps ends with a visible character or is empty |
| Text.TrimEmptyIffBlank | src/components/Conversation.tsx:91 | `input.trim()` is empty exactly when every character of the input is white space |
| Conversation.AcceptsIffTrimNonEmpty | src/components/Conversation.tsx:91 | the send guard `input.trim()` non-empty holds exactly when the input has a visible character |
| Text.TrimIsInfix | src/components/Conversation.tsx:91 | the trimmed text is a contiguous slice of the input, with only white space cut off on either side |
| Intensity.Find | src/components/Dashboard.tsx:35 | `find` returns the first table entry with the given value, and returns nothing only when no entry has that value |
| Intensity.TableListsEveryLevel | src/components/Dashboard.tsx:27-33 | the table has five entries and lists every level once, in dropdown order |
| Intensity.NameInjective | src/components/Conversation.tsx:47-53 | no two levels share a value, so a stored value determines its level |
| Intensity.FindLevel | src/components/Dashboard.tsx:35 | looking up any level's value succeeds and returns that level's own entry |
| Intensity.FindFailsOffTable | src/components/Conversation.tsx:55 | the lookup fails exactly on strings that are not the value of any level |
| Intensity.DefaultIsLevel | src/components/Dashboard.tsx:22 | the initial level, 'Stubborn Friend', is one of the five values |
| Conversation.InitialInvariant | src/components/Conversation.tsx:31-42 | the mounted state satisfies the conversation invariant |
| Conversation.SendKeepsInvariant | src/components/Conversation.tsx:90-113 | a send keeps every pending reply behind its triggering user message, keeps the queue in send order, and keeps the seed message first |
| Conversation.DeliverKeepsInvariant | src/components/Conversation.tsx:104-112 | delivering the oldest reply keeps the invariant for the replies still queued |
| Conversation.StepKeepsInvariant | src/components/Conversation.tsx:90-132 | every handler preserves the invariant |
| Conversation.RunKeepsInvariant | src/components/Conversation.tsx:90-132 | every sequence of events preserves the invariant |
| Conversation.View.constructor | src/components/Conversation.tsx:31-42 | mounting gives one seed message, empty input, no pending reply, recording off, dropdown closed, 'Stubborn Friend' |
| Conversation.View.SetInput | src/components/Conversation.tsx:196 | the textarea's change handler replaces the input and nothing else |
| Conversation.View.Send | src/components/Conversation.tsx:90-113 | returns whether the input trims to non-empty; if it does, appends one user message and queues one reply; the new state is the send step of the old one |
| Conversation.View.DeliverReply | src/components/Conversation.tsx:104-112 | a timer firing appends the oldest queued reply and removes it from the queue |
| Conversation.View.VoiceRecord | src/components/Conversation.tsx:115-125 | flips the recording flag and changes nothing else |
| Conversation.View.KeyPress | src/components/Conversation.tsx:127-132 | sends exactly on Enter without Shift with a non-blank input; any other key changes nothing |
| Conversation.View.ToggleDropdown | src/components/Conversation.tsx:209 | flips the dropdown flag |
| Conversation.View.MouseDownOutsideDropdown | src/components/Conversation.tsx:73-88 | a mousedown outside an open dropdown closes it |
| Conversation.View.SelectLevel | src/components/Conversation.tsx:232-235 | stores the picked level's value and closes the dropdown |
| ConversationProperties.InitialState | src/components/Conversation.tsx:31-42 | the initial log is one assistant message with id 1 that names the product; input empty, nothing pending, recording off, dropdown closed, level 'Stubborn Friend' |
| ConversationProperties.BlankSendChangesNothing | src/components/Conversation.tsx:91 | a send leaves the whole state unchanged (log, input and queue included) exactly when the input is white space only |
| ConversationProperties.AcceptedSend | src/components/Conversation.tsx:93-101 | an accepted send appends one user message with the untrimmed input and id "old length + 1", clears the input, and queues one reply with id "old length + 2"; nothing else changes |
| ConversationProperties.DeliveredReply | src/components/Conversation.tsx:104-112 | a delivery appends the assistant message `I received your message: "<input>". This is a placeholder response.` with the queued id |
| ConversationProperties.ReplyFollowsTrigger | src/components/Conversation.tsx:100-112 | in a reachable state, the reply being delivered comes after its user message, which is already in the log with the echoed text |
| ConversationProperties.StepAppendOnly | src/components/Conversation.tsx:100-111 | after one event the old log is a prefix of the new one; it grew by one per accepted send and one per delivery |
| ConversationProperties.RunAppendOnly | src/components/Conversation.tsx:100-111 | over any run the log only grows. Its length rises by the number of accepted sends plus the number of deliveries. The queue holds one reply per accepted send not yet delivered |
| ConversationProperties.SettledLogLength | src/components/Conversation.tsx:100-111 | once no reply is pending, the log holds the seed plus two messages per accepted send |
| ConversationProperties.DeliveriesInQueueOrder | src/components/Conversation.tsx:104-112 | k timer firings append the replies of the first k queued sends, first in first out |
| ConversationProperties.SendQueuesLast | src/components/Conversation.tsx:100-106 | a send queues its reply behind every scheduled reply, with a larger id than theirs |
| ConversationProperties.StepIgnoresIntensity | src/components/Conversation.tsx:104-112 | one event affects the log, input and queue in the same way whatever the level and dropdown are |
| ConversationProperties.LogIgnoresIntensity | src/components/Conversation.tsx:104-112 | two views that differ only in level or dropdown keep identical logs and queues through any run |
| ConversationProperties.VoiceToggle | src/components/Conversation.tsx:115-125 | the voice button flips only the recording flag, so two presses are the identity |
| ConversationProperties.DropdownToggle | src/components/Conversation.tsx:209 | the dropdown button is an involution; an outside mousedown leaves it closed |
| ConversationProperties.PickingALevel | src/components/Conversation.tsx:232-235 | picking a level stores its value and closes the dropdown; the lookup then finds that level |
| ConversationProperties.EnterSends | src/components/Conversation.tsx:127-132 | Enter without Shift acts exactly like send; any other key changes nothing |
| ConversationProperties.InitialIsOrderly | src/components/Conversation.tsx:31-38 | the seed log has consecutive ids and nothing in flight |
| ConversationProperties.StepKeepsOrderly | src/components/Conversation.tsx:94-106 | if no send happens while a reply is in flight, one event keeps ids consecutive and the in-flight reply's id next |
| ConversationProperties.SerialRunKeepsIdsConsecutive | src/components/Conversation.tsx:94-106 | if every reply arrives before the next send, message i always has id i + 1 |
| ConversationProperties.OverlappingSendDuplicatesId | src/components/Conversation.tsx:94-106 | from a log with consecutive ids and one reply in flight, a send gives the user message that reply's id, so once the reply lands two messages share it |
| ConversationProperties.SettledRunLogsHead | src/components/Conversation.tsx:104-112 | a run that empties the reply queue has logged the oldest scheduled reply after everything already in the log |
| ConversationProperties.ConsecutiveSettledRunIsSerial | src/components/Conversation.tsx:94-106 | from a log with consecutive ids and at most one reply in flight, a run that settles with consecutive ids had no send overlapping a reply in flight |
| ConversationProperties.SettledIdsConsecutiveIffSerial | src/components/Conversation.tsx:94-106 | once every reply has arrived, the ids are consecutive exactly when every reply arrived before the next send |
| ConversationProperties.ThreeQuickSends | src/components/Conversation.tsx:94-106 | three quick sends followed by their replies give ids 1, 2, 3, 4, 3, 4, 5: a repeat, and a decrease |
| ConversationProperties.BuyItAnyway | src/components/Conversation.tsx:90-112 | sending "Buy it anyway" logs it at once as message 2; after the delay, message 3 is the matching placeholder reply |
| Dashboard.InitialInvariant | src/components/Dashboard.tsx:18-22 | the mounted dashboard satisfies the invariant |
| Dashboard.StepKeepsInvariant | src/components/Dashboard.tsx:79-94 | every handler keeps "popup shown implies signed out" and keeps a listed level |
| Dashboard.RunKeepsInvariant | src/components/Dashboard.tsx:79-94 | every run of dashboard events keeps the invariant |
| Dashboard.View.constructor | src/components/Dashboard.tsx:18-22 | mounting: signed out, popup hidden, empty query, dropdown closed, 'Stubborn Friend' |
| Dashboard.View.CreateFriction | src/components/Dashboard.tsx:79-85 | navigates exactly when signed in; otherwise it shows the popup |
| Dashboard.View.SignIn | src/components/Dashboard.tsx:87-90 | signs in and hides the popup |
| Dashboard.View.Logout | src/components/Dashboard.tsx:92-94 | signs out and changes nothing else |
| Dashboard.View.ClosePopup | src/components/Dashboard.tsx:168 | the X button hides the popup |
| Dashboard.View.MouseDownOutsidePopup | src/components/Dashboard.tsx:62-77 | a mousedown outside an open popup hides it |
| Dashboard.View.SetSearchQuery | src/components/Dashboard.tsx:217 | typing replaces the query only |
| Dashboard.View.ToggleDropdown | src/components/Dashboard.tsx:228 | flips the dropdown flag |
| Dashboard.View.MouseDownOutsideDropdown | src/components/Dashboard.tsx:45-60 | a mousedown outside an open dropdown closes it |
| Dashboard.View.SelectLevel | src/components/Dashboard.tsx:251-254 | stores the picked level and closes the dropdown |
| Dashboard.View.CurrentLevel | src/components/Dashboard.tsx:35 | on a mounted dashboard the `currentLevel` lookup succeeds and returns the entry for the stored level |
| Dashboard.InitialState | src/components/Dashboard.tsx:18-22 | initially signed out, popup hidden, empty query, dropdown closed, level 'Stubborn Friend' |
| Dashboard.CreateFrictionGate | src/components/Dashboard.tsx:79-85 | navigates if and only if signed in. Signed in, the state is unchanged. Signed out, only the popup flag changes, to shown |
| Dashboard.OnlySignedInCreateNavigates | src/components/Dashboard.tsx:79-85 | of all dashboard events, only "Create friction" while signed in navigates |
| Dashboard.SignInDoesNotNavigate | src/components/Dashboard.tsx:87-90 | signing in hides the popup without navigating; a second "Create friction" is needed to leave |
| Dashboard.LogoutOnlySignsOut | src/components/Dashboard.tsx:92-94 | logout clears the flag, changes nothing else, and does not navigate |
| Dashboard.DismissingThePopup | src/components/Dashboard.tsx:168 | the X button and an outside mousedown both hide the popup and keep the sign-in flag |
| Dashboard.DropdownToggle | src/components/Dashboard.tsx:228 | the dropdown button is an involution; an outside mousedown leaves the dropdown closed |
| Dashboard.PickingALevel | src/components/Dashboard.tsx:251-254 | picking a level stores it and closes the dropdown; the lookup then returns that level |
| Dashboard.CurrentLevelAlwaysFound | src/components/Dashboard.tsx:35 | on every reachable dashboard the lookup succeeds and returns the stored value's entry |
| UserContext.DecodeDefaultsToSignedOut | src/contexts/UserContext.tsx:13-16 | an absent value, or any string other than "true", reads back as signed out; "true" reads back as signed in |
| UserContext.EncodeRange | src/contexts/UserContext.tsx:19-21 | the stored value is always "true" or "false", and the two flags give different strings |
| UserContext.RoundTrip | src/contexts/UserContext.tsx:14-20 | decoding what was encoded gives back the flag |
| UserContext.MountNormalises | src/contexts/UserContext.tsx:13-21 | a mount leaves a stored value unchanged exactly when it is "true" or "false" |
| UserContext.UseUser | src/contexts/UserContext.tsx:34-40 | without a provider the result is the missing-provider error; with one, it is that provider's value |
| UserContext.UseUserInsideProvider | src/contexts/UserContext.tsx:27-40 | inside a mounted provider, `useUser` returns that provider's current sign-in flag |
| UserContext.Provider.constructor | src/contexts/UserContext.tsx:13-21 | mounting sets the flag to true exactly when storage holds "true", then stores `String(flag)` |
| UserContext.Provider.SetIsSignedIn | src/contexts/UserContext.tsx:23-25 | sets the flag and its stored string; setting the current value again changes nothing |
| UserContext.Provider.Reload | src/contexts/UserContext.tsx:13-21 | remounting over the stored value brings back the same flag and leaves storage unchanged |
| App.Root.constructor | src/App.tsx:8 | the app starts in dashboard mode with a freshly mounted dashboard |
| App.Root.NavigateToConversation | src/App.tsx:15 | the navigate callback switches to conversation mode with a freshly mounted seed conversation |
| App.Root.Close | src/App.tsx:17 | the close callback switches to dashboard mode with a freshly mounted, signed-out dashboard, whatever the log held |
| App.Root.CreateFriction | src/App.tsx:15 | "Create friction" navigates exactly when the mounted dashboard is signed in; when it does not, the same dashboard stays mounted |
| App.SignInThenCreate | src/components/Dashboard.tsx:79-90 | on the mounted objects, a signed-out "Create friction" is refused, and after signing in on that dashboard the second one opens the conversation |
| App.InitialScreen | src/App.tsx:5-8 | the app starts in dashboard mode on a signed-out dashboard |
| App.EnteringConversation | src/App.tsx:14-16 | the dashboard leaves for the conversation if and only if "Create friction" is pressed while signed in; the new conversation holds only the seed message and nothing is pending |
| App.ClosingConversation | src/App.tsx:17 | Close always returns to a fresh dashboard, which is signed out |
| App.LeavingConversation | src/App.tsx:16-18 | the conversation returns to the dashboard if and only if Close is pressed |
| App.ModeChanges | src/App.tsx:14-18 | the mode changes exactly on a signed-in "Create friction" or on Close |
| App.StepKeepsInvariant | src/App.tsx:14-18 | every event keeps the invariant of the mounted view, including across a view switch |
| App.RunKeepsInvariant | src/App.tsx:14-18 | every run keeps that invariant |
| App.ReachableScreensAreValid | src/App.tsx:14-18 | on every reachable screen, a shown popup means signed out, and every pending reply comes after its user message |
| App.ReopenedConversationIsFresh | src/App.tsx:14-18 | closing and reopening discards everything: sign-in is needed again, and the conversation restarts from the seed with no pending replies |

## Left out

- Which controls are on screen: the model accepts every event in every state, while the
  program renders some handlers only in some states (the microphone button only while
  `input.trim()` is empty and the send button only while it is not, the level buttons only
  while a dropdown is open, the sign-in buttons only inside the shown popup, Logout only
  while signed in). The theorems cover this superset of the program's runs, so they hold
  for the runs the screen allows.
- Rendering, styling, icons, images and the hard-coded catalog, statistics
  and marketing copy: presentation only.
- DOM effects: the textarea auto-height, `scrollIntoView` on new messages,
  and adding and removing document listeners. Each outside-click listener is
  modelled as an explicit "mousedown outside" event. It has an effect only
  while its popup or dropdown is open.
- Real time: the 500 ms delay is the reply queue, and a timer firing is the
  `ReplyDue` event. Message timestamps (`new Date()`) are not modelled.
- Replies whose conversation was closed: the timer of an unmounted view can
  no longer reach a log shown on screen. Close therefore discards the whole
  conversation state, pending replies included.
- `localStorage` and React context plumbing: storage is the one entry under
  `isSignedIn`, held as an `Option<string>` field of the provider. The
  context value carries the flag; its setter is the provider's
  `SetIsSignedIn` method.
- The shared sign-in flag is not connected to the dashboard. The app renders
  no `UserProvider`, and the dashboard keeps its own local flag, so the two
  are modelled separately: the gate reads the dashboard's own local flag,
  not the shared one.
- Voice recording: starting and stopping are stubs in the source, so only
  the toggle is modelled. The three action-icon buttons with no handler are
  left out.
- `Dashboard.View.CreateFriction`: it does not call the navigate callback
  itself. It returns `navigate`, and `App.Root.CreateFriction` acts on it.
- React batching: each event is modelled as finishing, and the view
  re-rendering, before the next event arrives. Two handler calls within one
  render are not modelled.
- `Text.IsWhitespace`: the white-space set `trim` strips is listed explicitly
  (the Unicode space separators, line terminators and BOM). A future Unicode
  version that adds separators is not tracked.
