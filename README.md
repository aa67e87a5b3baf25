# SheSecures prototype — the components' state machines in Dafny

SheSecures is a front-end prototype of a personal-safety app. Its behaviour is in six
React components. Each keeps a few `useState` variables, and button and input
handlers update them. This project models each component as a Dafny class. The
class fields are the component's state variables and its methods are the handlers.
Whatever the code computes as a value is written as a function, with lemmas about it:

- **Incident report wizard** (`Incident`, `incident_report.dfy`). You choose anonymous
  or identified reporting, fill in the form, and submit. A completion then stores a case
  id and shows the receipt. "Submit Another Report" starts over. The case id is the
  upper-cased mode's first three letters, a dash, and the last six digits of the
  millisecond clock. It is proved to decode back to the mode and to the clock reading
  modulo 10^6.
- **WhatsApp bot** (`Chat`, `whatsapp_bot.dfy`). A message log with count-derived ids.
  Blank sends are rejected. Replies come from a keyword table, looked up after
  lower-casing, with a fallback text.
- **Onboarding carousel** (`Onboarding`, `onboarding_flow.dfy`). A bounded step
  counter. On the last card, Next completes; Skip completes from any card.
- **Data-safety checker** (`DataSafety`, `data_safety_tool.dfy`). Open, check and result
  states, the check button's enable rule, and the status-to-colour mapping. The random
  verdict is a nondeterministic choice.
- **Emergency features** (`Emergency`, `emergency_features.dfy`). Trusted contacts are
  kept in an `array`. A contact's switch updates that element in place. There is also a
  location-sharing flag.
- **Community stories** (`Community`, `community_stories.dfy`). The story composer with
  its trim-gated Share button, the category colours, and the category filter. The
  filter does not affect the feed.
- `Text` (`text.dfy`) holds the JavaScript string operations these components use:
  `trim()`, `toLowerCase()`/`toUpperCase()`, `slice(-6)` and `Number#toString()`.

Each timer callback (`setTimeout`) becomes its own method, called explicitly, for
example `CompleteSubmit(now)`. The clock reading is a parameter. Where the callback
closes over values from the moment it was scheduled, the class keeps them in a
`pending` field:

- the wizard keeps the report type at the time of submission;
- the bot keeps a first-in-first-out queue of scheduled replies.

A button with a `disabled` rule is modelled by a handler whose `requires` is that
rule, because the page never calls the handler otherwise.

Three behaviours of the wizard worth knowing:

- Back clears only the mode and keeps the entered form data.
- "Submit Another Report" leaves the old case id stored.
- Choosing a mode sets only the mode and does not reset the form.

## Model

| member | source | states |
|---|---|---|
| `Incident.IncidentReport.constructor` | src/components/IncidentReport.tsx:14-24 | no mode, not submitting, not submitted, empty case id, empty form with both flags false; the mode-choice screen shows |
| `Incident.IncidentReport.ChooseMode` | src/components/IncidentReport.tsx:112-139 | a card click sets the mode to anonymous or identified and changes nothing else |
| `Incident.IncidentReport.Back` | src/components/IncidentReport.tsx:184 | Back clears only the mode; the form data survives; the receipt still wins over the mode choice if a submission has completed |
| `Incident.IncidentReport.SetEmergency` | src/components/IncidentReport.tsx:205-207 | replaces only the emergency flag of the form; every other field and the mode are unchanged |
| `Incident.IncidentReport.SetCategory` | src/components/IncidentReport.tsx:214 | replaces only the category |
| `Incident.IncidentReport.SetDescription` | src/components/IncidentReport.tsx:231-235 | replaces only the description |
| `Incident.IncidentReport.SetLocation` | src/components/IncidentReport.tsx:243-246 | replaces only the location |
| `Incident.IncidentReport.SetHasEvidence` | src/components/IncidentReport.tsx:258-260 | replaces only the evidence flag |
| `Incident.SubmitGate` | src/components/IncidentReport.tsx:291 | Submit is enabled exactly when there is a category, a description and no submission in flight; the description is not trimmed, so blanks enable it |
| `Incident.IncidentReport.HandleSubmit` | src/components/IncidentReport.tsx:36-37 | called only when the Submit button is enabled; sets isSubmitting, schedules the completion with the current mode, and disables Submit |
| `Incident.IncidentReport.CompleteSubmit` | src/components/IncidentReport.tsx:40-45 | the completion stores the case id for the captured mode and clock, sets isSubmitted, clears isSubmitting; the receipt screen shows |
| `Incident.IncidentReport.SubmitAnother` | src/components/IncidentReport.tsx:77-88 | resets isSubmitted, the mode and the form to their initial values, but keeps the old case id |
| `Incident.Prefix` | src/components/IncidentReport.tsx:41 | the upper-cased mode's first three letters: "ANO" for an anonymous report, "IDE" for an identified one |
| `Incident.CaseIdRoundTrip` | src/components/IncidentReport.tsx:41 | a case id is the prefix, "-", and one to six digits; decoding it gives back the mode and the clock reading modulo 1000000 |
| `Incident.CaseIdDeterminesMode` | src/components/IncidentReport.tsx:41 | equal case ids come from the same mode and from clock readings equal modulo 1000000 |
| `Incident.IdentifiedScenario` | src/components/IncidentReport.tsx:36-45 | identified mode, category "Harassment", description "test", submit and completion: the receipt's case id is "IDE-" followed by digits |
| `Text.ValueOfDecimal` | src/components/IncidentReport.tsx:41 | the decimal string of the clock reading reads back as the same number |
| `Text.LastDigitsValue` | src/components/IncidentReport.tsx:41 | `slice(-k)` of a numeral denotes the number modulo 10^k, also when the numeral is shorter than k |
| `Chat.WhatsAppBot.constructor` | src/components/WhatsAppBot.tsx:19-27 | the log is exactly the greeting from the bot with id 1; the input is empty |
| `Chat.WhatsAppBot.SetInputText` | src/components/WhatsAppBot.tsx:190-192 | typing replaces the input text and nothing else |
| `Chat.SendRejectedIff` | src/components/WhatsAppBot.tsx:55-56 | a send is rejected exactly when no non-empty quick-reply text is given and the input is empty or whitespace only |
| `Chat.WhatsAppBot.SendMessage` | src/components/WhatsAppBot.tsx:54-71 | a rejected send changes nothing. Otherwise it appends one user message with id = old length + 1 and text = the quick-reply command or the trimmed input, clears the input, and schedules the reply with id = old length + 2 |
| `Chat.WhatsAppBot.DeliverReply` | src/components/WhatsAppBot.tsx:73-91 | the oldest scheduled reply is appended to the log; nothing is replaced |
| `Chat.WhatsAppBot.SendAndAwaitReply` | src/components/WhatsAppBot.tsx:80-90 | a send whose reply arrives before the next send keeps every id equal to its 1-based position |
| `Chat.ConversationIds` | src/components/WhatsAppBot.tsx:59-90 | under strict send/reply alternation each send adds two messages, the earlier log is kept, and ids equal 1-based positions |
| `Chat.FallbackIsNotAnEntry` | src/components/WhatsAppBot.tsx:36-52 | no entry of the keyword table equals the fallback text |
| `Chat.BotResponseKnownIff` | src/components/WhatsAppBot.tsx:74-78 | the reply is the table entry for the lower-cased text when that is one of help/emergency/report/tips/translate/contact, and the fallback otherwise |
| `Chat.BotResponseIgnoresCase` | src/components/WhatsAppBot.tsx:74-77 | a text and its lower case get the same reply |
| `Chat.QuickRepliesAreKeywords` | src/components/WhatsAppBot.tsx:29-52 | every quick-reply command is a table key, so a quick reply never gets the fallback |
| `Text.ToLowerIdempotent` | src/components/WhatsAppBot.tsx:76 | lower-casing twice is lower-casing once |
| `Onboarding.OnboardingFlow.constructor` | src/components/OnboardingFlow.tsx:12 | the carousel starts on card 0 |
| `Onboarding.OnboardingFlow.NextStep` | src/components/OnboardingFlow.tsx:47-53 | Next moves one card forward below the last card; on the last card it calls onComplete and stays; the card never decreases and stays within 0 .. 4 |
| `Onboarding.OnboardingFlow.Skip` | src/components/OnboardingFlow.tsx:55-57 | Skip calls onComplete from any card |
| `Onboarding.PressesFrom` | src/components/OnboardingFlow.tsx:47-53 | n presses from a card advance min(n, cards left) and the n-th press completes exactly when it goes past the last card |
| `Onboarding.FirstCompletion` | src/components/OnboardingFlow.tsx:47-53 | from the start, the first completing press is press number 5 (the number of cards) |
| `Onboarding.LitDotsCount` | src/components/OnboardingFlow.tsx:68-74 | with dot i lit when i <= currentStep, currentStep + 1 dots are lit |
| `Onboarding.OnboardingFlow.LitDotsNow` | src/components/OnboardingFlow.tsx:68-74 | on the carousel's current card, dot i is lit exactly when i <= currentStep, so exactly currentStep + 1 of the five dots are lit |
| `Onboarding.OnboardingFlow.ButtonLabel` | src/components/OnboardingFlow.tsx:153 | the button reads "Get Started" exactly on the last card |
| `DataSafety.DataSafetyTool.constructor` | src/components/DataSafetyTool.tsx:11-15 | collapsed, empty inputs, not checking, no result |
| `DataSafety.StatusColorSeparates` | src/components/DataSafetyTool.tsx:41-48 | safe, caution and unsafe each get their own colour; every other string gets gray |
| `DataSafety.CheckGate` | src/components/DataSafetyTool.tsx:160 | the check button is enabled iff a URL or an app name is non-empty (not trimmed) and no check is running |
| `DataSafety.DataSafetyTool.Open` | src/components/DataSafetyTool.tsx:98-99 | opening shows the tool and changes nothing else |
| `DataSafety.DataSafetyTool.Close` | src/components/DataSafetyTool.tsx:124-127 | closing only hides the tool; URL, app name, result and a running check are kept |
| `DataSafety.DataSafetyTool.SetCheckUrl` | src/components/DataSafetyTool.tsx:138-141 | replaces only the URL |
| `DataSafety.DataSafetyTool.SetAppName` | src/components/DataSafetyTool.tsx:151-154 | replaces only the app name |
| `DataSafety.DataSafetyTool.HandleCheck` | src/components/DataSafetyTool.tsx:59-60 | called only when the button is enabled; sets isChecking, which disables the button |
| `DataSafety.DataSafetyTool.CompleteCheck` | src/components/DataSafetyTool.tsx:63-80 | the completion stores a result whose status is unsafe, caution or safe and clears isChecking; the status never shows gray |
| `DataSafety.MockResult` | src/components/DataSafetyTool.tsx:64-77 | a result carries its status, 4 permissions, 3 risk factors and 3 recommendations |
| `DataSafety.MockResultsAgree` | src/components/DataSafetyTool.tsx:66-76 | any two results have the same lists and differ only in status |
| `Emergency.EmergencyFeatures.constructor` | src/components/EmergencyFeatures.tsx:15-20 | location sharing is off; three contacts, the first two active and the third inactive |
| `Emergency.WithActive` | src/components/EmergencyFeatures.tsx:159-163 | a switch sets its contact's flag; length, order, names, phones and every other contact are unchanged |
| `Emergency.EmergencyFeatures.ToggleContact` | src/components/EmergencyFeatures.tsx:157-163 | the switch updates the contact at `index` in place in the array, as `WithActive` says |
| `Emergency.WithActiveIdempotent` | src/components/EmergencyFeatures.tsx:161 | the same switch value applied twice equals applying it once; re-applying the current value changes nothing |
| `Emergency.ActiveCountAfterToggle` | src/components/EmergencyFeatures.tsx:159-163 | the number of active contacts changes only by the switched contact's own change |
| `Emergency.EmergencyFeatures.SetLocationSharing` | src/components/EmergencyFeatures.tsx:106-109 | the location switch sets the flag and leaves the contacts untouched |
| `Community.CommunityStories.constructor` | src/components/CommunityStories.tsx:12-14 | composer hidden, empty draft, anonymous on, filter "All Stories" (line 90) |
| `Community.CanShareIff` | src/components/CommunityStories.tsx:189 | "Share Story" is enabled iff the trimmed draft is non-empty, i.e. the draft has a non-whitespace character |
| `Text.TrimEmptyIff` | src/components/CommunityStories.tsx:189 | `trim()` gives the empty string exactly for strings made only of whitespace |
| `Community.CommunityStories.HandlePost` | src/components/CommunityStories.tsx:92-96 | called only with the composer open and a shareable draft; clears the draft and closes the composer; isAnonymous, the filter and the feed are untouched |
| `Community.CommunityStories.OpenForm` | src/components/CommunityStories.tsx:117-118 | the header's Share button opens the composer and keeps the draft |
| `Community.CommunityStories.Cancel` | src/components/CommunityStories.tsx:180-181 | Cancel hides the composer but keeps the draft |
| `Community.CommunityStories.SetPostText` | src/components/CommunityStories.tsx:171-172 | replaces only the draft |
| `Community.CommunityStories.SetAnonymous` | src/components/CommunityStories.tsx:162-165 | replaces only the anonymous flag |
| `Community.CommunityStories.SelectCategory` | src/components/CommunityStories.tsx:208 | a filter button changes only the selection, and the rendered feed stays the same |
| `Community.FeedIgnoresFilter` | src/components/CommunityStories.tsx:216-217 | whatever is selected, all five stories render, and for every filter but "All Stories" some of them belong to another category |
| `Community.CategoryColorCases` | src/components/CommunityStories.tsx:98-107 | each of the five named categories gets its own entry, and every other string, "All Stories" included, gets gray |
| `Community.CategoryColorInjective` | src/components/CommunityStories.tsx:99-105 | distinct named categories get distinct colours |
| `Community.StoriesAreColoured` | src/components/CommunityStories.tsx:16-79 | every story in the feed has a named, non-gray category |

## Left out

- Timers: the 1-second and 2-second `setTimeout` delays. Each completion is a method the
  caller invokes; nothing about timing or cancellation on unmount is modelled.
- Clock values: `Date.now()` is the `now: nat` parameter of `CompleteSubmit`. Message
  display times (`toLocaleTimeString`) are dropped from `Chat.Message`.
  `Number#toString` is modelled for integers in plain decimal; the exponent form that
  JavaScript uses from 10^21 up is not.
- Randomness: `Math.random()` and its 0.7/0.4 thresholds. `CompleteCheck` picks any of
  the three verdicts, and their probabilities are not modelled.
- Case mapping: `toLowerCase` maps ASCII letters and the Kelvin sign (U+212A, the only
  non-ASCII character whose lower case is an ASCII letter), and leaves every other
  character as it is. `toUpperCase` maps ASCII letters only. It is applied only to the
  fixed mode names. Full Unicode case mapping is not modelled. No keyword has a
  non-ASCII character, so the table lookup depends only on characters this mapping
  covers.
- Overlapping chat sends: a second send before the first reply arrives makes two
  messages with the same id, because the reply's id is counted from the log as it was at
  send time. `pending` reproduces this, but no property of overlapping sends is proved.
- Aliasing in the contact toggle: the component copies the array shallowly and sets
  `active` on a contact object that the previous array also holds. The model updates
  the array element in place. Since the component then discards the previous array,
  the visible state is the same.
- Rendering: JSX, icons (`getStatusIcon` included), animations and CSS classes are not
  modelled, except for the two colour mappings.
- The App shell: tab navigation, the SOS overlay and the static home and profile panels.
  The effect of `onComplete` and `onEmergency` in the app is outside these components.
- Dead controls: the uncontrolled phone and email inputs of an identified report, and
  the buttons without handlers (Track My Reports, map pin, Add Contact, Call 112, Sound
  Alarm, voice message, story like/comment/share/flag).
- Static content: story titles, texts, authors and dates, the step titles and texts,
  the emergency triggers and the recent-checks list. Kept are each story's id, category
  and anonymity flag, the step count, the bot's greeting, fallback and every reply text
  of the keyword table verbatim, the quick replies, the contacts, the mock check result
  and the colour classes.
- Prototype-chain lookups: looking up a key such as `"constructor"` in the JavaScript
  keyword or colour object literals finds an inherited member. The model's tables are
  finite maps over the literal keys only.
- `Incident.IncidentReport.SetCategory`: accepts any string. On the page, the select
  offers only the seven incident categories.
