# Onboarding wizard and conversation sidebar: a Dafny model

This project models the two small state machines of the learning-platform client:

* **The onboarding wizard**, `src/pages/Onboarding.jsx`. It has a `step` counter: steps 1 to 5
  ask questions and step 6 is the completion screen. It also has a `formData` answer record
  with five single-select answers (`role`, `education`, `goal`, `pace`, `dailyTime`) and two
  multi-select lists (`fields`, `interests`). The Next, Back, Skip and Enter Workspace buttons
  and the answer cards change these two cells. Finishing or skipping hands a payload to
  `completeOnboarding` and navigates to `/`.
* **The conversation sidebar**, `src/components/Layout/ChatSidebar.jsx`. Its list shows the
  conversations whose title contains the search text, ignoring case, split into a Pinned
  section and a Today section. Its transient view state is `searchQuery`, `hoveredChatId` and
  `menuChatId`. New Chat and the menu actions issue calls to a conversation store, whose
  implementation is not part of this model.

Modules:

| file | module | contents |
|---|---|---|
| `wrappers.dfy` | `Wrappers` | `Option`, the model of a nullable id |
| `sequences.dfy` | `Sequences` | `Filter` (JavaScript's `Array.prototype.filter`), subsequences, lists without repetitions |
| `strings.dfy` | `Strings` | `Contains` (`String.prototype.includes`) and `ToLower` (ASCII `toLowerCase`) |
| `onboarding_form.dfy` | `OnboardingForm` | the answer record, `updateData`, `toggleList`, `isStepValid`, the answer catalogs |
| `onboarding.dfy` | `Onboarding` | the wizard's state as a value (`Wizard`), its interactions (`Event`), the guards the page renders (`Enabled`), the transition function (`Apply`, `Run`), the page invariant, the progress bar, the "Step N of 5" label, and the class `OnboardingPage` holding the state cells |
| `conversation_view.dfy` | `ConversationView` | `filteredConversations`, `pinnedChats`, `recentChats` and the rendered order |
| `chat_sidebar.dfy` | `ChatSidebar` | the menu toggle, the class `Sidebar` holding the view state, and the recorded store and router calls |

Where the guards live. No handler checks the guards the page renders. `handleBack`'s own
`step > 1` test (src/pages/Onboarding.jsx:31) repeats the rendering's condition, and `BackStep`
models it. The rendering guards are:

* Next is disabled unless `isStepValid()` holds.
* The navigation row exists only before step 6. It shows Back after step 1 and Skip at step 1.
* Enter Workspace exists only at step 6.
* Each answer card appears only on its own step.

`Onboarding.Enabled` collects these guards. Each method of `OnboardingPage` first checks the
guard the page renders (`Enabled`) and returns it as `fired`. When it fires, the method then
does what the source's handler does. Each method's new state is `Apply` of its old state.

The `Inv` predicate is the page invariant. `StartInv` and `RunPreservesInv` prove it for the
initial state and carry it through any sequence of interactions, and `Reachable` states it for
every state reachable from the start. It says:

* the step stays within 1..6;
* the gate of every earlier step holds;
* answers are empty or come from the on-screen catalogs, and no list repeats a choice;
* `completeOnboarding` has been called exactly once, followed by a navigation to `/`, exactly
  when the page is no longer shown.

So Finish always hands over a fully answered record.

The same approach is used for the sidebar. Each interaction on a conversation item is offered
only while that item is listed for the store's current conversations and the current search
text.

Points where the code's behaviour is easy to misread:

* Back is offered only on steps 2 to 5. Its button sits in the navigation row, which is hidden on
  step 6 (src/pages/Onboarding.jsx:286-293).
* The Rename, Summarize and Archive menu entries have no click handler, and nothing stops their
  click from reaching the item (src/components/Layout/ChatSidebar.jsx:80-88). A click on one
  therefore selects the conversation, closes the mobile drawer and shows the chat view, and the
  menu stays open (`ClickUnwiredEntry`).
* The multi-select answers are lists, not sets. `toggleList` removes every copy of a present
  value and appends an absent one at the end (src/pages/Onboarding.jsx:40-49).
* The step number in "Step N of 5" is derived from the title text
  (src/pages/Onboarding.jsx:341-349). `StepLabelMatchesStep` proves that the derivation gives
  the right number for each of the five titles.

## Model

| member | source | states |
|---|---|---|
| `OnboardingForm.UpdateData` | src/pages/Onboarding.jsx:36-38 | the given key takes the new value; every other single answer and both lists are unchanged |
| `OnboardingForm.SelectAgainKeepsSelection` | src/pages/Onboarding.jsx:36-38 | selecting the selected answer again changes nothing (no toggle-off); selecting twice is selecting once |
| `OnboardingForm.Toggled` | src/pages/Onboarding.jsx:40-49 | the toggled value is in the result iff it was not in the list; a present value is removed everywhere while every other value keeps each of its copies, the order is kept and the list gets shorter; an absent one is appended at the end |
| `OnboardingForm.ToggleList` | src/pages/Onboarding.jsx:40-49 | the key's list becomes its toggled version; the other list and every single answer are unchanged |
| `OnboardingForm.ToggleAbsentTwice` | src/pages/Onboarding.jsx:40-49 | toggling an absent value twice gives back the original list |
| `OnboardingForm.ToggleListAbsentTwice` | src/pages/Onboarding.jsx:40-49 | toggling an absent value twice gives back the original record |
| `OnboardingForm.ToggleKeepsDistinct` | src/pages/Onboarding.jsx:40-49 | a list without repetitions stays without repetitions |
| `OnboardingForm.OptionsNonEmpty` | src/pages/Onboarding.jsx:70-220 | every choice of a single-select question is a non-empty string, so choosing one answers that question; the catalogs of role, education, goal, pace and daily time have 5, 4, 5, 3 and 3 entries |
| `OnboardingForm.IsStepValid` | src/pages/Onboarding.jsx:262-277 | the gate of each step; for the empty record it fails on every question screen (1..5) and holds on any other step |
| `OnboardingForm.Options` | src/pages/Onboarding.jsx:70-220 | the choices rendered for each single-select question, in screen order |
| `OnboardingForm.ListOptions` | src/pages/Onboarding.jsx:119-154 | the choices rendered for the two multi-select questions, in screen order |
| `OnboardingForm.StepValidIffAnswered` | src/pages/Onboarding.jsx:262-277 | the gate of a step holds iff every question shown on that step is answered (step 1 role; 2 education and fields; 3 interests; 4 goal; 5 pace and dailyTime; any other step has no question, so its gate is true) |
| `OnboardingForm.UpdateKeepsOtherSteps` | src/pages/Onboarding.jsx:262-277 | changing an answer leaves the gate of every other step unchanged |
| `OnboardingForm.ToggleKeepsOtherSteps` | src/pages/Onboarding.jsx:262-277 | toggling a choice leaves the gate of every other step unchanged |
| `Onboarding.NextStep` | src/pages/Onboarding.jsx:21-28 | Next from step s < 5 goes to s + 1 and from step 5 to 6; from steps 1..5 it lands in 2..6, and `BackStep` of the result is s |
| `Onboarding.BackStep` | src/pages/Onboarding.jsx:30-34 | Back decrements a step above 1 and leaves step 1 unchanged |
| `Onboarding.Enabled` | src/pages/Onboarding.jsx:286-313 | nothing is offered once the page is left; the completion screen offers only Enter Workspace; a question screen offers Back after step 1 and Skip at step 1, never both; answer cards appear only on question screens |
| `Onboarding.Apply` | src/pages/Onboarding.jsx:286-313 | an interaction the page does not offer leaves the whole state unchanged |
| `Onboarding.NextGate` | src/pages/Onboarding.jsx:302-304 | Next is offered exactly when the step is before 6 and its gate holds, and then moves to the next step |
| `Onboarding.StartInv` | src/pages/Onboarding.jsx:9-19 | the initial state (step 1, all answers empty, nothing handed over) satisfies the page invariant |
| `Onboarding.ApplyPreservesInv` | src/pages/Onboarding.jsx:21-49 | every interaction preserves the page invariant |
| `Onboarding.RunPreservesInv` | src/pages/Onboarding.jsx:21-60 | every sequence of interactions preserves the page invariant |
| `Onboarding.Reachable` | src/pages/Onboarding.jsx:286-304 | every state reachable from the start satisfies the page invariant; in particular the step is in 1..6 and the gates of all earlier steps hold |
| `Onboarding.FinishHandsOverAnswers` | src/pages/Onboarding.jsx:51-54 | Finish is offered only at step 6; it hands the accumulated record unchanged to `completeOnboarding`, then navigates to "/"; that record answers every question |
| `Onboarding.SkipHandsOverSkipped` | src/pages/Onboarding.jsx:56-60 | Skip is offered only at step 1; it hands exactly `{ skipped: true }` to `completeOnboarding`, then navigates to "/" |
| `Onboarding.HandoverIsFinal` | src/pages/Onboarding.jsx:51-60 | after the hand-over the page is gone and no further interaction changes anything |
| `Onboarding.BackUndoesNext` | src/pages/Onboarding.jsx:288-293 | after a Next from steps 1..4, Back is offered and restores the previous state exactly |
| `Onboarding.HappyPath` | src/pages/Onboarding.jsx:62-256 | the full path with one answer per screen ends in exactly one `completeOnboarding` with those answers and one navigation to "/" |
| `Onboarding.HappyAnswers` | src/pages/Onboarding.jsx:11-19 | the answers collected on the happy path, field by field |
| `Onboarding.InterestToggleExamples` | src/pages/Onboarding.jsx:155-157 | choosing "AI & Technology" twice leaves no interest; choosing it and then "Economics" keeps that order |
| `Onboarding.ProgressMarkers` | src/pages/Onboarding.jsx:316-329 | the progress bar has five markers, one per question screen |
| `Onboarding.ProgressShowsStep` | src/pages/Onboarding.jsx:316-329 | marker s (1..5) is filled iff s <= step, so exactly `step` markers are filled |
| `Onboarding.StepTitle` | src/pages/Onboarding.jsx:67-195 | the title given to each of the five question screens |
| `Onboarding.StepLabel` | src/pages/Onboarding.jsx:341-349 | the derived label is always between 1 and 5 |
| `Onboarding.StepLabelMatchesStep` | src/pages/Onboarding.jsx:341-349 | for each of the five titles the derived label equals that screen's step number |
| `Onboarding.PreferenceKeyword` | src/pages/Onboarding.jsx:195 | "Preference" occurs in the title of step 5 and in no other title |
| `Onboarding.GoalKeyword` | src/pages/Onboarding.jsx:172 | among the titles of steps 1..4, "goal" occurs only in that of step 4 |
| `Onboarding.CuriousKeyword` | src/pages/Onboarding.jsx:142 | among the titles of steps 1..3, "curious" occurs only in that of step 3 |
| `Onboarding.AcademicKeyword` | src/pages/Onboarding.jsx:90 | of the titles of steps 1 and 2, "Academic" occurs only in that of step 2 |
| `Onboarding.OnboardingPage.constructor` | src/pages/Onboarding.jsx:9-19 | the page starts at step 1 with every answer empty and nothing handed over |
| `Onboarding.OnboardingPage.HandleNext` | src/pages/Onboarding.jsx:21-28 | fires iff the Next button is shown and enabled; then the step advances as `NextStep` says; the invariant is kept |
| `Onboarding.OnboardingPage.HandleBack` | src/pages/Onboarding.jsx:30-34 | fires iff the Back button is shown (steps 2..5); then the step decrements; the invariant is kept |
| `Onboarding.OnboardingPage.HandleSkip` | src/pages/Onboarding.jsx:56-60 | fires iff the Skip button is shown (step 1); then records `completeOnboarding({ skipped: true })` and the navigation |
| `Onboarding.OnboardingPage.HandleFinish` | src/pages/Onboarding.jsx:51-54 | fires iff Enter Workspace is shown (step 6); then records `completeOnboarding(formData)` and the navigation |
| `Onboarding.OnboardingPage.SelectOption` | src/pages/Onboarding.jsx:77-82 | fires iff the card is shown on the current step; then the record is `UpdateData` of the old one |
| `Onboarding.OnboardingPage.ToggleOption` | src/pages/Onboarding.jsx:126-132 | fires iff the card is shown on the current step; then the record is `ToggleList` of the old one |
| `Sequences.Filter` | src/components/Layout/ChatSidebar.jsx:30-35 | `Array.prototype.filter`: the result holds exactly the elements of the list that pass the callback, and is no longer than the list |
| `Sequences.FilterIsSubsequence` | src/components/Layout/ChatSidebar.jsx:30-35 | a filtered list keeps the relative order of the list it was taken from |
| `Sequences.FilterCount` | src/components/Layout/ChatSidebar.jsx:30-35 | filtering keeps every copy of an element that passes and none of the others |
| `Sequences.FilterSplit` | src/components/Layout/ChatSidebar.jsx:34-35 | filtering by a callback and by its negation splits a list into parts whose multisets and lengths add up to the whole |
| `Strings.Contains` | src/components/Layout/ChatSidebar.jsx:31 | the left-to-right scan of `includes` holds iff the searched string occurs at some index |
| `Strings.ToLower` | src/components/Layout/ChatSidebar.jsx:31 | lower-casing keeps the length and lower-cases each ASCII capital in place |
| `ConversationView.TitleMatches` | src/components/Layout/ChatSidebar.jsx:31 | the search test: the lower-cased title includes the lower-cased query |
| `ConversationView.FilteredConversations` | src/components/Layout/ChatSidebar.jsx:30-32 | holds exactly the store's conversations whose title matches, and is no longer than the store's list |
| `ConversationView.PinnedChats` | src/components/Layout/ChatSidebar.jsx:34 | holds exactly the store's matching conversations that are pinned |
| `ConversationView.RecentChats` | src/components/Layout/ChatSidebar.jsx:35 | holds exactly the store's matching conversations that are not pinned |
| `ConversationView.FilteredExactly` | src/components/Layout/ChatSidebar.jsx:30-32 | the filtered list holds exactly the conversations whose lower-cased title contains the lower-cased query, with their multiplicities, in the store's order |
| `ConversationView.SearchIgnoresQueryCase` | src/components/Layout/ChatSidebar.jsx:30-32 | the case of the query does not matter |
| `ConversationView.EmptyQueryKeepsAll` | src/components/Layout/ChatSidebar.jsx:30-32 | an empty query yields the full conversation list |
| `ConversationView.NoMatchEmptiesBoth` | src/components/Layout/ChatSidebar.jsx:30-35 | a query matching no title leaves the filtered list and both sections empty |
| `ConversationView.LongQueryMatchesNothing` | src/components/Layout/ChatSidebar.jsx:30-32 | a query longer than every title matches nothing |
| `ConversationView.SectionsPartition` | src/components/Layout/ChatSidebar.jsx:34-35 | Pinned holds only pinned conversations and Today only unpinned ones, so they are disjoint; together they hold every filtered conversation with its multiplicity; their lengths add up to the filtered length; each keeps the filtered order |
| `ConversationView.SectionMembership` | src/components/Layout/ChatSidebar.jsx:30-35 | a conversation is under Pinned iff it is in the store, matches and is pinned, and under Today iff it matches and is not pinned |
| `ConversationView.Listed` | src/components/Layout/ChatSidebar.jsx:151-165 | the rendered list (Pinned, then Today) holds exactly the matching conversations and is as long as the filtered list |
| `ChatSidebar.ToggledMenu` | src/components/Layout/ChatSidebar.jsx:67 | the trigger of X opens X's menu iff it was not open, and otherwise leaves no menu open |
| `ChatSidebar.ToggleMenuTwice` | src/components/Layout/ChatSidebar.jsx:67 | pressing the same trigger twice restores the previous state iff no other item's menu was open before |
| `ChatSidebar.AtMostOneMenuOpen` | src/components/Layout/ChatSidebar.jsx:75 | when listed conversations have distinct ids, at most one of them renders its dropdown |
| `ChatSidebar.Sidebar.constructor` | src/components/Layout/ChatSidebar.jsx:26-28 | the search is empty and nothing is hovered or open |
| `ChatSidebar.Sidebar.ChangeSearch` | src/components/Layout/ChatSidebar.jsx:142 | typing sets the query and changes nothing else |
| `ChatSidebar.Sidebar.NewChat` | src/components/Layout/ChatSidebar.jsx:37-41 | issues `addConversation('New Chat')`, the navigation to "/chat" and `setIsMobileOpen(false)`, in that order |
| `ChatSidebar.Sidebar.ClickItem` | src/components/Layout/ChatSidebar.jsx:50 | a click on a listed item issues `setActiveChatId` with that item's id, closes the mobile drawer and navigates to "/chat" |
| `ChatSidebar.Sidebar.MouseEnter` | src/components/Layout/ChatSidebar.jsx:51 | entering a listed item makes it the hovered one |
| `ChatSidebar.Sidebar.MouseLeave` | src/components/Layout/ChatSidebar.jsx:52 | leaving a listed item clears the hover |
| `ChatSidebar.Sidebar.ClickMenuTrigger` | src/components/Layout/ChatSidebar.jsx:62-67 | the trigger fires iff the item is hovered or its menu open; then the item's menu is open afterwards iff it was not open before, and when it was open no menu is left open |
| `ChatSidebar.Sidebar.ClickPin` | src/components/Layout/ChatSidebar.jsx:77 | fires iff the item's menu is open; issues `togglePin` for exactly that id and closes the menu |
| `ChatSidebar.Sidebar.ClickDelete` | src/components/Layout/ChatSidebar.jsx:90 | fires iff the item's menu is open; issues `deleteConversation` for exactly that id and closes the menu |
| `ChatSidebar.Sidebar.ClickOutside` | src/components/Layout/ChatSidebar.jsx:97-98 | the layer behind an open menu closes it and issues nothing |
| `ChatSidebar.Sidebar.ClickUnwiredEntry` | src/components/Layout/ChatSidebar.jsx:80-88 | Rename, Summarize and Archive change no sidebar state, but their click reaches the item: it issues the item's selection calls and leaves the menu open |

## Left out

- Navigation, `completeOnboarding` and `setIsMobileOpen` are external collaborators. They appear only as recorded calls (`Onboarding.Effect`, `ChatSidebar.Call`), in the order the handlers make them.
- The conversation store behind `useChat()` is not part of this model. `addConversation`, `deleteConversation`, `togglePin` and `setActiveChatId` are recorded calls only: id generation, deletion policy and pin flipping are not modelled. The store's current list is a parameter of each item interaction.
- Leaving the page is modelled as the `mounted` flag: after `navigate("/")` the page no longer offers any interaction. Routing itself is not modelled, and where the onboarding page is mounted is not part of this model: the route table of src/App.jsx (lines 25-36) has no route for it. `HandoverIsFinal` and the part of `Inv` that says the hand-over happens exactly once rest on this flag.
- `updateData` and `toggleList` take a string key in the source. The model uses enumerations of the seven keys the page actually passes.
- Strings.ToLower: lower-cases the ASCII letters A–Z only. Full Unicode case mapping of `toLowerCase` is not modelled.
- ConversationView.LongQueryMatchesNothing: holds only for the length-preserving ASCII lower-casing of the model. JavaScript's `toLowerCase` can lengthen a string ("İ", U+0130, becomes "i" followed by U+0307), so in the source a title can match a longer query.
- Hit testing is not modelled: the overlay's z-index, which element receives a click while a menu is open, and geometry-driven hover. Each interaction is offered while its element is rendered. `stopPropagation` is modelled only through its observable effect: the Pin, Delete, trigger and overlay clicks issue no item selection, while the handler-less menu entries do.
- Styling is left out: the active-item highlight, the Pin/Unpin caption, CSS classes, animations, the logo's `onError` fallback, subtitles and the onboarding icons.
- The mobile overlay that closes the drawer, the Settings button and the Explore links are one-line calls to the parent or plain links. They are not modelled.
- src/pages/Home.jsx (static content) and src/App.jsx (route table and providers) are not part of this model.
