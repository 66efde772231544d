# Divergent front end: build screen and UI rules

This project models, in Dafny, the parts of the Divergent front end that hold
state or make decisions, and proves what they promise.

- **Build screen** (`BuilderView`). It shows four progress steps. Streamed code
  longer than 50 characters completes step 2 and starts step 3. Completion
  completes every step. Seven "thinking" messages arrive on timers. Each one is
  appended as typing and marks the earlier ones done. Completion marks them all
  done and, after a timer, collapses them into a one-line summary. A chat box
  appends the user's trimmed message and, after another timer, a canned
  acknowledgement. The screen is a class. Its props are fields the parent sets
  with `SetProps`. Every timer is an explicit queue or counter, and a timer
  firing is a method call.
- **Pricing card**: the price shown for monthly or annual billing, the yearly
  saving, and when the saving line and the "Popular" badge appear. These are
  proved for the shipped plans.
- **Constants**: the user, the eight projects and the three plans, with the facts
  the pages rely on.
- **FAQ accordion**: at most one answer is open, and a click opens or closes one.
- **Prompt box** (`ChatInput`): trim-and-submit, the disabled button, and the
  Enter/Shift+Enter rule.
- **Navigation**: the "active link" rule shared by the top bar and the side bar,
  and the open flags of the profile dropdown and the project card menu.
- **Project card**: the gradient lookup with JavaScript's truncated `%`, the status
  chip, and the actions menu.
- **Background typewriter**: reveals a text one character per tick and, in its
  infinite form, starts over.

JavaScript's `trim`, `toLowerCase` and `%` are defined explicitly (module
`Text`, `ProjectCard.JsRem`). Dafny's `%` is Euclidean, while JavaScript's
takes the sign of the dividend.

Completion does not cancel the narration timers; only unmount clears them
(frontend/src/components/BuilderView.tsx:101). So a message that fires after
completion is still appended as typing, and `BuilderView.Builder.FireNarration`
has no completion guard.

## Model

| member | source | states |
|---|---|---|
| Text.TrimStart | frontend/src/components/ChatInput.tsx:23 | the leading pass keeps a string that does not start with white space, no longer than the input, and drops only white space |
| Text.TrimEnd | frontend/src/components/ChatInput.tsx:23 | the trailing pass keeps a string that does not end with white space, no longer than the input, and drops only white space |
| Text.Trim | frontend/src/components/ChatInput.tsx:23 | the trimmed string is no longer than the input and has no white space at either end |
| Text.TrimStartIsSuffix | frontend/src/components/ChatInput.tsx:23 | what survives the leading-white-space pass is the rest of the input after the dropped characters |
| Text.TrimEndIsPrefix | frontend/src/components/ChatInput.tsx:23 | what survives the trailing-white-space pass is the start of its input |
| Text.TrimIsSlice | frontend/src/components/ChatInput.tsx:23 | `trim` returns a contiguous piece of its input, in order |
| Text.TrimDropsOnlySpace | frontend/src/components/ChatInput.tsx:23 | everything `trim` drops, before and after the piece it keeps, is white space |
| Text.TrimStartSkips | frontend/src/components/ChatInput.tsx:23 | leading white space in front of a string that starts with a non-space is removed exactly |
| Text.TrimEndSkips | frontend/src/components/ChatInput.tsx:23 | trailing white space after a string that ends with a non-space is removed exactly |
| Text.TrimEmptyIff | frontend/src/components/ChatInput.tsx:22 | `trim` gives "" (a falsy value) exactly when the input is all white space |
| Text.TrimOfTrimmed | frontend/src/components/ChatInput.tsx:23 | a string with no white space at either end is left unchanged |
| Text.TrimIdempotent | frontend/src/components/ChatInput.tsx:23 | trimming twice is trimming once |
| Text.TrimKeepsMiddle | frontend/src/components/BuilderView.tsx:144 | for white space `a`, a trimmed `m` and white space `b`, trim(a+m+b) is exactly `m` |
| Text.ToLower | frontend/src/components/BuilderView.tsx:163 | lowering keeps the length and maps each character through the ASCII lowering |
| Text.ToLowerIdempotent | frontend/src/components/BuilderView.tsx:163-164 | lowering twice is lowering once |
| Text.NatToString | frontend/src/components/BuilderView.tsx:94 | the decimal rendering is at least one digit long, all digits, and a single digit below 10 |
| Routes.IsActive | frontend/src/components/layout/Navbar.tsx:55-58 | the root link is active only on "/", any other link when the path starts with its href as a string; every link is active on its own path, and an active href is never longer than the path |
| Routes.BothActiveMeansNested | src/components/layout/Sidebar.tsx:35-38 | two non-root links are both active only when one href is a prefix of the other; next to the root, only a prefix of "/" can be active |
| Navbar.LinkActiveIff | frontend/src/components/layout/Navbar.tsx:55-58 | Home is active iff the path is "/"; Projects iff the path starts with "/projects" |
| Navbar.ProjectsMatchesByStringPrefix | frontend/src/components/layout/Navbar.tsx:58 | "/projects/42" and "/projectsX" both activate Projects, but "/project" does not |
| Navbar.AtMostOneLinkActive | frontend/src/components/layout/Navbar.tsx:21-24 | for every path, at most one of the two links is active |
| Navbar.ProfileDropdown.constructor | frontend/src/components/layout/Navbar.tsx:28 | the dropdown starts closed |
| Navbar.ProfileDropdown.ClickProfileButton | frontend/src/components/layout/Navbar.tsx:90 | the profile button flips the dropdown |
| Navbar.ProfileDropdown.ClickMenuItem | frontend/src/components/layout/Navbar.tsx:152 | following a menu item closes the dropdown |
| Navbar.ProfileDropdown.MouseDown | frontend/src/components/layout/Navbar.tsx:32-35 | a press outside closes the dropdown; a press inside leaves it as it was |
| Sidebar.ItemActiveIff | src/components/layout/Sidebar.tsx:35-38 | Home is active iff the path is "/"; any other item iff the path starts with its href |
| Sidebar.HrefsDoNotNest | src/components/layout/Sidebar.tsx:13-18 | no non-root href is a prefix of another |
| Sidebar.AtMostOneItemActive | src/components/layout/Sidebar.tsx:34-38 | for every path, no two of the four items are active together |
| Sidebar.ExampleActivations | src/components/layout/Sidebar.tsx:13-18 | any "/settings…" path activates only Settings, and "/" activates only Home |
| Data.CreditsWithinLimit | frontend/src/lib/data.ts:43-44 | the user's credits (623) do not exceed the maximum (750) |
| Data.PlansOrdered | frontend/src/lib/data.ts:125-174 | every plan's annual price is between 0 and its monthly price, and monthly prices strictly increase |
| Data.OnlyProIsPopular | frontend/src/lib/data.ts:157-161 | a plan is popular iff it is Pro, so exactly one plan is |
| Data.ProjectsWellFormed | frontend/src/lib/data.ts:47-123 | eight projects with distinct ids and gradients 1 to 8 in order |
| Data.DeployedUrlIffDeployed | frontend/src/lib/data.ts:47-123 | a project has a deployed URL exactly when its status is deployed |
| PricingCard.Price | src/components/PricingCard.tsx:14 | the annual rate in annual view, else the monthly one, and never above the monthly rate when annual ≤ monthly |
| PricingCard.Saved | src/components/PricingCard.tsx:15 | zero for a plan with no monthly price, otherwise twelve times the monthly-minus-annual difference, and never negative when annual ≤ monthly |
| PricingCard.ShowsSavings | src/components/PricingCard.tsx:43 | the saving line is shown in annual view when the saving is positive (characterised by `ShowsSavingsIff`) |
| PricingCard.ShowsSavingsIff | src/components/PricingCard.tsx:43 | the saving line shows iff annual view, a paid plan, and annual below monthly |
| PricingCard.Style | src/components/PricingCard.tsx:22-31 | the badge, accent border and accent button all appear iff the plan is popular |
| PricingCard.ShippedSavings | src/components/PricingCard.tsx:15 | Free saves 0, Standard 36 and Pro 396; the saving never shows in monthly view; only Pro has the badge |
| PricingCard.ShippedSavingsNonNegative | src/components/PricingCard.tsx:15 | no shipped plan has a negative saving |
| Faq.Toggle | src/components/FAQ.tsx:19 | a click closes everything iff the clicked item was open; otherwise it opens the clicked item |
| Faq.ToggleTwice | src/components/FAQ.tsx:19 | two clicks on one item restore the state iff that item or nothing was open; if another item was open, everything ends closed |
| Faq.Accordion.IsOpen | src/components/FAQ.tsx:26-34 | an item shows its answer and a rotated chevron when it is the open index |
| Faq.Accordion.constructor | src/components/FAQ.tsx:9 | item 0 starts open, and only it |
| Faq.Accordion.Click | src/components/FAQ.tsx:19 | after a click on `i`, no other item is open, and `i` is open iff it was closed |
| ChatInput.SubmitDisabled | frontend/src/components/ChatInput.tsx:48 | the button is disabled when trimming leaves nothing (characterised by `SubmitDisabledIff`) |
| ChatInput.SubmitDisabledIff | frontend/src/components/ChatInput.tsx:48 | the button is disabled iff the value is all white space |
| ChatInput.KeyDown | frontend/src/components/ChatInput.tsx:76-81 | Enter submits in the chat variant; in the home variant only without Shift, and then the new line is suppressed |
| ChatInput.Field.constructor | frontend/src/components/ChatInput.tsx:18-19 | the value starts empty and the field unfocused |
| ChatInput.Field.Change | frontend/src/components/ChatInput.tsx:37 | typing replaces the value |
| ChatInput.Field.Focus | frontend/src/components/ChatInput.tsx:38 | focusing sets the focus flag |
| ChatInput.Field.Blur | frontend/src/components/ChatInput.tsx:39 | blurring clears the focus flag |
| ChatInput.Field.Submit | frontend/src/components/ChatInput.tsx:21-26 | with a callback and a value that is not all white space, the callback gets the non-empty trimmed value and the value is cleared; otherwise nothing changes |
| ChatInput.Field.PressKey | frontend/src/components/ChatInput.tsx:40 | a key that does not submit changes nothing; a submitting key acts as the submit handler, and when nothing is submitted the value is kept |
| ProjectCard.JsRem | frontend/src/components/ProjectCard.tsx:31 | JavaScript's remainder: the sign of the dividend, smaller than the divisor in size, and satisfying the truncated-division identity |
| ProjectCard.GradientIndex | frontend/src/components/ProjectCard.tsx:31 | the index `(gradient - 1) % 6` with JavaScript's remainder (its range is proved by `PositiveGradientInRange` and `NonPositiveGradient`) |
| ProjectCard.GradientOf | frontend/src/components/ProjectCard.tsx:31 | a gradient is found exactly when the index falls inside the six-entry table |
| ProjectCard.PositiveGradientInRange | frontend/src/components/ProjectCard.tsx:31 | for gradient ≥ 1 the index is (gradient − 1) mod 6, in 0..5, and a gradient is found |
| ProjectCard.GradientsWrap | frontend/src/components/ProjectCard.tsx:31 | gradients 7 and 8 get indices 0 and 1, the colours of 1 and 2 |
| ProjectCard.NonPositiveGradient | frontend/src/components/ProjectCard.tsx:31 | for gradient ≤ 0 the index is in −5..0; a gradient is found only when gradient − 1 is a multiple of 6; 0 gives −1 and none |
| ProjectCard.ShippedProjectsHaveGradients | frontend/src/components/ProjectCard.tsx:31 | every shipped project finds a gradient |
| ProjectCard.StatusConfig | frontend/src/components/ProjectCard.tsx:22-26 | deployed, developing and draft are captioned Live, Building and Draft, in both directions |
| ProjectCard.Pulses | frontend/src/components/ProjectCard.tsx:108 | the status dot pulses for a deployed project (tied to the "Live" caption by `StatusCaptionsDistinct`) |
| ProjectCard.StatusCaptionsDistinct | frontend/src/components/ProjectCard.tsx:108 | different statuses get different captions, and the dot pulses exactly for "Live" |
| ProjectCard.Destructive | frontend/src/components/ProjectCard.tsx:132 | an action is styled as destructive when it is Delete (see `OnlyDeleteIsDestructive`) |
| ProjectCard.OnlyDeleteIsDestructive | frontend/src/components/ProjectCard.tsx:129-135 | of Open, Rename, Duplicate and Delete, only the last gets the destructive style |
| ProjectCard.CardMenu.constructor | frontend/src/components/ProjectCard.tsx:29 | the menu starts closed |
| ProjectCard.CardMenu.ClickMenuButton | frontend/src/components/ProjectCard.tsx:114-117 | the menu button flips the menu |
| ProjectCard.CardMenu.MouseDown | frontend/src/components/ProjectCard.tsx:34-38 | a press outside closes the menu; a press inside leaves it as it was |
| BackgroundAnimation.Typewriter.constructor | frontend/src/components/BackgroundAnimation.tsx:85-108 | on mount nothing is shown, the index is 0, and the first start is scheduled |
| BackgroundAnimation.Typewriter.Reset | frontend/src/components/BackgroundAnimation.tsx:92-93 | starting clears the shown text and the index |
| BackgroundAnimation.Typewriter.TypeChar | frontend/src/components/BackgroundAnimation.tsx:95-103 | before the end, one more character is shown and the next tick scheduled; at the end a restart is scheduled if infinite, else nothing; the shown text stays the first `currentIndex` characters |
| BackgroundAnimation.Typewriter.StartTyping | frontend/src/components/BackgroundAnimation.tsx:91-106 | a start shows the first character (if any) at once and schedules the next tick |
| BackgroundAnimation.Typewriter.Fire | frontend/src/components/BackgroundAnimation.tsx:99-101 | the outstanding timeout runs a start, a restart or a tick, with the same effects |
| BackgroundAnimation.Typewriter.Unmount | frontend/src/components/BackgroundAnimation.tsx:109 | unmounting clears the outstanding timeout |
| BackgroundAnimation.Typewriter.RunToEnd | frontend/src/components/BackgroundAnimation.tsx:95-108 | from the first start, after text.length + 1 firings the whole text is shown, and only an infinite typewriter has a restart pending |
| BuilderView.AdvanceSteps | frontend/src/components/BuilderView.tsx:132-135 | the threshold update keeps ids and captions, completes step "2", starts step "3", and leaves other statuses alone |
| BuilderView.StepEffect | frontend/src/components/BuilderView.tsx:130-140 | the step effect: the threshold update when the code is longer than 50 and step 2 runs, then the completion update when complete (its properties are the lemmas below) |
| BuilderView.CompleteSteps | frontend/src/components/BuilderView.tsx:138 | the completion update keeps ids and captions and completes every step |
| BuilderView.InitialReachable | frontend/src/components/BuilderView.tsx:56-61 | the initial steps are [completed, running, pending, pending] |
| BuilderView.ReachableShape | frontend/src/components/BuilderView.tsx:56-61 | in every reachable list, step 1 is completed, statuses never increase left to right, at most one step runs and never step 4, and ids and captions are fixed |
| BuilderView.StepEffectPreservesReachable | frontend/src/components/BuilderView.tsx:130-140 | the step effect keeps the list among [C,R,P,P], [C,C,R,P], [C,C,C,C], never lowers a step's status, completes step 2 beyond the threshold, and completes every step on completion |
| BuilderView.ThresholdUpdate | frontend/src/components/BuilderView.tsx:131-135 | without completion the steps change iff the code is strictly longer than 50 and step 2 runs, and then only steps 2 and 3 change |
| BuilderView.ThresholdIdempotent | frontend/src/components/BuilderView.tsx:131 | after the threshold update, further code changes leave the steps unchanged |
| BuilderView.CompletionCompletesAll | frontend/src/components/BuilderView.tsx:137-139 | completion completes all four steps whatever the code length |
| BuilderView.RerenderFollows | frontend/src/components/BuilderView.tsx:130-140 | a re-render keeps the steps reachable, completed after completion and past step 2 beyond the threshold, and never lowers a step |
| BuilderView.ReplayNeverRegresses | frontend/src/components/BuilderView.tsx:130-140 | over any sequence of renders the list stays reachable and no step's status ever decreases |
| BuilderView.ThinkingSequence | frontend/src/components/BuilderView.tsx:73-81 | seven entries with strictly increasing delays from 300 to 13000 ms; the second embeds the prompt in quotes |
| BuilderView.MarkAllDone | frontend/src/components/BuilderView.tsx:107-108 | every message is marked done, with length, ids and texts unchanged |
| BuilderView.AppendThinking | frontend/src/components/BuilderView.tsx:89-95 | the narration updater: earlier messages marked done, then `think-<idx>` appended typing (its shape is `AppendThinkingShape`) |
| BuilderView.AppendThinkingShape | frontend/src/components/BuilderView.tsx:89-95 | appending grows the list by one, keeps earlier ids and texts, ends with `think-<idx>` typing, and leaves exactly that last message typing |
| BuilderView.MarkAllDoneFollows | frontend/src/components/BuilderView.tsx:107-108 | marking every message done keeps the narration a prefix of the schedule, in order |
| BuilderView.MarkAllDoneIdempotent | frontend/src/components/BuilderView.tsx:107-108 | marking done twice is marking done once, and no message is left typing |
| BuilderView.IsEditRequest | frontend/src/components/BuilderView.tsx:163 | a message is an edit request when, lowered, it starts with "add", "make" or "change" (see `EditRequestIgnoresCase`, `EditRequestByPrefix`) |
| BuilderView.ReplyText | frontend/src/components/BuilderView.tsx:163-166 | the reply is framed by "Got it! I'll " and ". Applying changes...", and between them echoes the lowered message for an edit request, else `work on: "<message>"` as typed |
| BuilderView.EditRequestIgnoresCase | frontend/src/components/BuilderView.tsx:163 | a message and its lowered form are classified alike |
| BuilderView.EditRequestByPrefix | frontend/src/components/BuilderView.tsx:163 | the test is a plain prefix test: "Address the bug" is an edit request, "Please add a footer" is not |
| BuilderView.Builder.constructor | frontend/src/components/BuilderView.tsx:56-113 | on mount, the schedule is built from the prompt, its seven narration timers are queued in delay order, and the completion and step effects run once for the first props |
| BuilderView.Builder.SetProps | frontend/src/components/BuilderView.tsx:105-140 | new props run the completion effect if `isComplete` became true, and the step effect if either prop changed; no step regresses |
| BuilderView.Builder.FireNarration | frontend/src/components/BuilderView.tsx:87-97 | the next timer, always for the next index, appends that message as typing with every other one done, even after completion; every other field is unchanged |
| BuilderView.Builder.FireCollapse | frontend/src/components/BuilderView.tsx:111 | on a screen that was mounted the narration collapses, on an unmounted one nothing is shown differently; every other field is unchanged |
| BuilderView.Builder.ShowsSummary | frontend/src/components/BuilderView.tsx:243 | the one-line summary replaces the narration when the build is complete and the detail is collapsed |
| BuilderView.Builder.ToggleDetail | frontend/src/components/BuilderView.tsx:230-232 | once complete, the button switches between the narration and the summary; every other field is unchanged |
| BuilderView.Builder.SetChatInput | frontend/src/components/BuilderView.tsx:361 | typing replaces the chat input; every other field is unchanged |
| BuilderView.Builder.SendDisabled | frontend/src/components/BuilderView.tsx:369 | the send button is disabled exactly before completion or when the input is all white space |
| BuilderView.Builder.SubmitChat | frontend/src/components/BuilderView.tsx:143-157 | white-space-only input changes nothing; otherwise the trimmed text is appended as a user message, passed to the callback if any, and queued for a reply, and the input is cleared; the props, steps, narration and mount state are unchanged |
| BuilderView.Builder.ClickSend | frontend/src/components/BuilderView.tsx:368-369 | a disabled button (before completion or on blank input) changes nothing; an enabled one appends the trimmed message, clears the input, queues the reply and notifies the callback if any; the other fields are unchanged |
| BuilderView.Builder.PressChatKey | frontend/src/components/BuilderView.tsx:362 | Enter after completion on a non-blank input appends the trimmed message, clears the input, queues the reply and notifies the callback if any; any other key, Enter before completion, or a blank input changes nothing |
| BuilderView.Builder.FireReply | frontend/src/components/BuilderView.tsx:159-169 | the oldest queued message leaves the queue and, on a screen that was mounted, gets its canned reply appended as an AI message; every other field is unchanged |
| BuilderView.Builder.Unmount | frontend/src/components/BuilderView.tsx:101 | unmounting clears the narration timers; the collapse and reply timers and every other field are unchanged |

## Left out

- Text.ToLower: lowers only the ASCII letters A–Z. JavaScript's `toLowerCase` also lowers other Unicode letters.
- Text.Trim: treats strings as sequences of code points. JavaScript strings are UTF-16, and `.length` (the 50-character threshold at BuilderView.tsx:131) counts code units, so a character outside the Basic Multilingual Plane counts once here and twice there.
- Prices, credits and `Project.gradient` are integers. JavaScript numbers are floating point, but every shipped value is a small integer; a fractional gradient is not modelled. The credits-bar percentage (Navbar.tsx:138) is left out because it is a float.
- Timing: the model keeps the order in which timers fire, not their delays. This covers the 300–13000 ms narration delays, the 800 ms collapse, the 1200 ms reply, and the typewriter's `speed`, `delay`, random jitter and 3000 ms restart pause. Narration timers fire in schedule order because their delays strictly increase (`BuilderView.ThinkingSequence`).
- Chat message ids come from `Date.now()` and are not deterministic, so `BuilderView.ChatMessage` carries no id.
- React batching: `startTyping` clears the text and then types the first character in the same handler, so the empty text is never rendered. `Reset` models the clearing step on its own.
- Updates that reach an unmounted component are dropped. The builder's collapse and reply timers are modelled that way. The typewriter has no later updates because its one timeout is cleared.
- Presentation is left out: animations, auto-scroll (BuilderView.tsx:116-127), CSS class strings other than the gradient and status tables, the preview/code tab switch (BuilderView.tsx:63), the iframe preview and its sandbox, and the credits badge.
- The callback's own effect is left out. It is a parameter of the prompt box and the chat box, so the model records only whether it is present and what it receives.
- FAQ, suggested-prompt and sample-chat data in data.ts are left out, because no modelled rule depends on their contents. The accordion takes only the number of items.
- The generation backend, the streaming client, the pricing page's billing toggle, the status badge, the stats card and the app shells are not part of this model. Neither is how `streamingCode`, `response` and `isComplete` are produced, since their caller is not among the files modelled.
- BackgroundAnimation.Typewriter: fixes `text` and `infinite` at construction. The source effect (BackgroundAnimation.tsx:110) also re-runs when `text`, `speed`, `delay` or `infinite` changes. That re-run clears the old timeout, starts a fresh index at 0 and schedules a new start. The shown text stays as it was until that start runs. The model has no such prop change.
- BackgroundAnimation.Typewriter.TypeChar: counts characters as code points. JavaScript's `text.length` and `slice` count UTF-16 code units, so a character outside the Basic Multilingual Plane takes two ticks there.
