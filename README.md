# Smart companion pilgrimage screens: a Dafny model

This project models the decision logic behind four screens of a pilgrimage-companion front end.

- **Chat assistant** (`ChatBot`):
  - A keyword classifier lower-cases the user's text. It picks the first matching topic in the order Tawaf, hotel, budget, traffic, and falls back to a reply that quotes the text.
  - A second, English-only keyword chain picks three suggestion chips.
  - The transcript is a list of messages numbered from 1. It starts with a greeting. Sending non-blank input appends the user's message and then the bot's reply, and clears the input box.
- **Smart booking** (`Booking`): two fixed catalogues, hotels and transport. Each is narrowed by the AND of a price-band test and a rating-band test, keeping catalogue order.
- **Budget assistant** (`Budget`):
  - A slider budget is split into four envelopes of 45, 20, 25 and 10 percent. Each envelope is rounded on its own.
  - The priority chips are toggled on and off.
  - The recommendation list is fixed.
- **Umrah planner** (`Umrah`):
  - The current step (1 to 4) moves forward with "Mark as Complete", capped at 4. Clicking a step's card jumps to that step.
  - The progress bar, icons, completed/current flags and button label are derived from the current step. Each card's crowd badge comes from that step's crowd level.

Two further modules model the JavaScript facilities the screens rely on:

- `Strings`: `toLowerCase` on ASCII letters, `includes` as substring containment, and `trim` over the ECMAScript white-space set.
- `Seqs`: `Array.prototype.filter` with its facts: membership, multiplicity, order, idempotence, splitting and distribution over concatenation.

State that React keeps with `useState` and changes in event handlers is modelled as classes:

- `ChatBot.Chat`: the transcript and the input box.
- `Budget.BudgetPlanner`: the slider's value and the selected priorities.
- `Umrah.Planner`: the current step.

Each method's `ensures` gives the whole new state in terms of the old one. The pure computations are functions, and lemmas state what they mean.

Modelling choices:

- Ratings are integer tenths of a star: 4.8 is 48, and "4.5+" means at least 45.
- Prices and budgets are integers, in Saudi riyals.
- `Math.round(budget * 0.45)` is `(budget * 45 + 50) / 100`. This is the nearest integer with halves rounded up, as `Math.round` rounds.
- The clock readings that stamp chat messages are method parameters.

Toggling a listed priority twice gives back the other ids in their order followed by that id (`Budget.ToggleTwiceMovesPresentToEnd`). Toggling an unlisted one twice gives back the list unchanged (`Budget.ToggleTwiceRestoresAbsent`). So the original list comes back exactly when the id was absent, or occurred once and last (`Budget.ToggleTwiceRestoresIff`). `Budget.ToggleTwiceReorders` shows the reordering on `["comfort", "location"]`.

## Model

| member | source | states |
|---|---|---|
| Strings.LowerChar | src/pages/ChatBot.tsx:75 | a capital becomes the small letter at the same place in the alphabet ('A' → 'a'); every other character is unchanged |
| Strings.Lower | src/pages/ChatBot.tsx:75 | `toLowerCase` keeps the length and lower-cases each character in place |
| Strings.LowerIdempotent | src/pages/ChatBot.tsx:75 | lower-casing twice is lower-casing once |
| Strings.ContainsIff | src/pages/ChatBot.tsx:77 | `includes` holds exactly when the keyword occurs at some index |
| Strings.Contains | src/pages/ChatBot.tsx:77-85 | `includes` as substring containment; its meaning is `Strings.ContainsIff` |
| Strings.IsWhiteSpace | src/pages/ChatBot.tsx:53 | the ECMAScript white-space and line-terminator set that `trim` removes; used by `Strings.Trim` |
| Strings.IsBlank | src/pages/ChatBot.tsx:53 | the falsy-`trim()` test of `handleSend`; `Strings.BlankIff` ties it to `Trim` |
| Strings.Trim | src/pages/ChatBot.tsx:53 | `trim` returns a slice of the text with only white space before and after it, and neither end of the slice is white space |
| Strings.BlankIff | src/pages/ChatBot.tsx:53 | `trim()` gives the empty string exactly when every character is white space |
| Seqs.Filter | src/pages/BookingScreen.tsx:98 | `Array.prototype.filter`; never longer than its input, and its meaning is `Seqs.FilterMembers`, `Seqs.FilterMultiplicity` and `Seqs.FilterSubsequence` |
| Seqs.FilterMembers | src/pages/BookingScreen.tsx:98 | `filter` keeps an element exactly when it occurs and passes the test |
| Seqs.FilterMultiplicity | src/pages/BookingScreen.tsx:98 | a passing element is kept as often as it occurs, a failing one never |
| Seqs.FilterSubsequence | src/pages/BookingScreen.tsx:98 | what `filter` keeps is in its original order |
| Seqs.FilterStricter | src/pages/BookingScreen.tsx:104-106 | a stricter test keeps a subsequence of what a looser test keeps |
| Seqs.FilterSplit3 | src/pages/BookingScreen.tsx:99-102 | three mutually exclusive tests whose union is a fourth keep, together, as many elements as the fourth |
| Seqs.FilterNoDuplicates | src/pages/BudgetAssistant.tsx:39 | filtering never introduces a duplicate |
| ChatBot.Classify | src/pages/ChatBot.tsx:74-85 | the topic of `generateBotResponse`'s keyword chain; its meaning is `ChatBot.ClassifyIsFirstMatch`, `ChatBot.ClassifyIff` and `ChatBot.ClassifyFallbackIff` |
| ChatBot.ReplyFor | src/pages/ChatBot.tsx:78-87 | the reply template of each topic; `ChatBot.FallbackQuotesInput` states the quoting fallback |
| ChatBot.GenerateBotResponse | src/pages/ChatBot.tsx:74-88 | `generateBotResponse`; its meaning is `ChatBot.ClassifyIff` together with `ChatBot.FallbackQuotesInput` and `ChatBot.TrafficGetsGenericSuggestions` |
| ChatBot.GetSuggestions | src/pages/ChatBot.tsx:90-102 | every suggestion list has exactly three chips |
| ChatBot.MentionsAnyIff | src/pages/ChatBot.tsx:77-83 | an English-or-Arabic keyword test fires exactly when one of its keywords occurs in the lower-cased text |
| ChatBot.FirstMatchIsFirst | src/pages/ChatBot.tsx:77-87 | an ordered rule table yields the intent of the first rule that fires, every earlier rule does not fire, and the fallback when none fires |
| ChatBot.ClassifyIsFirstMatch | src/pages/ChatBot.tsx:74-87 | `generateBotResponse`'s if/else chain equals the reply rule table tawaf → hotel → budget → traffic read top to bottom |
| ChatBot.ClassifyIff | src/pages/ChatBot.tsx:77-85 | a reply topic is chosen exactly when its keywords occur and no earlier topic's keywords do |
| ChatBot.ClassifyFallbackIff | src/pages/ChatBot.tsx:87 | the fallback reply is chosen exactly when no topic's keywords occur |
| ChatBot.SuggestionsFor | src/pages/ChatBot.tsx:93-101 | each topic's chips, and the generic chips for traffic and fallback, are three chips |
| ChatBot.GetSuggestionsIsFirstMatch | src/pages/ChatBot.tsx:90-102 | `getSuggestions`' chain equals the English-only rule table tawaf → hotel → budget read top to bottom |
| ChatBot.CaseInsensitive | src/pages/ChatBot.tsx:75 | a text and its lower-case form get the same topic and the same chips |
| ChatBot.HotelierAsksAboutHotels | src/pages/ChatBot.tsx:79 | a keyword inside a longer word matches: "hotelier" gets the hotel reply |
| ChatBot.UpperCaseTawaf | src/pages/ChatBot.tsx:75-77 | capitals do not hide a keyword: "What's the best time for TAWAF?" gets the Tawaf reply |
| ChatBot.TawafBeforeHotel | src/pages/ChatBot.tsx:77-80 | first match wins: a text naming Tawaf and a hotel gets the Tawaf reply |
| ChatBot.FallbackQuotesInput | src/pages/ChatBot.tsx:87 | the fallback reply is the fixed prefix, the text exactly as typed (not lower-cased), and the fixed suffix, so it contains the text |
| ChatBot.SuggestionsFollowEnglishTopic | src/pages/ChatBot.tsx:90-102 | with no Arabic keyword in the text, the chips are the reply topic's chips |
| ChatBot.TrafficGetsGenericSuggestions | src/pages/ChatBot.tsx:83-101 | a traffic question gets the traffic reply but the generic chips |
| ChatBot.ArabicHotelGetsGenericSuggestions | src/pages/ChatBot.tsx:79-101 | a text whose only keyword is the Arabic word for hotel gets the hotel reply but the generic chips |
| ChatBot.ReplyAndSuggestionsDisagree | src/pages/ChatBot.tsx:77-96 | the Arabic word for Tawaf beside the English "hotel" gets the Tawaf reply with the hotel chips |
| ChatBot.DisagreementExample | src/pages/ChatBot.tsx:77-96 | "طواف hotel" is such a text |
| ChatBot.Message | src/pages/ChatBot.tsx:19-25 | a transcript entry: id, sender, content, timestamp and optional chips; `ChatBot.Chat.Send` states which entries are appended |
| ChatBot.Greeting | src/pages/ChatBot.tsx:30-43 | the opening bot message with its text, time and four chips; `ChatBot.Chat.constructor` starts the transcript with it |
| ChatBot.UserMessage | src/pages/ChatBot.tsx:54-59 | the user's message carries the text as typed and no chips; its use is stated by `ChatBot.Chat.Send` |
| ChatBot.BotMessage | src/pages/ChatBot.tsx:61-67 | the bot's message carries the reply and the chips for the user's text; its use is stated by `ChatBot.Chat.Send` |
| ChatBot.NumberedAppend | src/pages/ChatBot.tsx:54-69 | appending messages with ids length+1 and length+2 keeps message i numbered i |
| ChatBot.Chat.constructor | src/pages/ChatBot.tsx:29-43 | the transcript opens with the greeting as message 1 and the input box empty |
| ChatBot.Chat.Type | src/pages/ChatBot.tsx:219 | typing replaces the input and leaves the transcript alone |
| ChatBot.Chat.ChooseSuggestion | src/pages/ChatBot.tsx:109-111 | a chip's text becomes the input; nothing is sent |
| ChatBot.Chat.Send | src/pages/ChatBot.tsx:52-72 | blank input changes nothing; otherwise the typed text and the bot's reply and chips for it are appended, in that order, with ids length+1 and length+2, the earlier messages are kept, and the input is cleared; the greeting stays first and the numbering holds |
| ChatBot.Chat.QuickQuestionAsWritten | src/pages/ChatBot.tsx:104-107 | a quick question sends the input as it was before the click; with a blank box it only fills the box |
| ChatBot.Chat.QuickQuestion | src/pages/ChatBot.tsx:104-107 | a quick question sends the question itself, as if it had been typed |
| Booking.Hotels | src/pages/BookingScreen.tsx:28-62 | the three hotels with their prices, ratings in tenths, AI flags, distances and amenities; `Booking.AvailableHotels` states what each filter shows of them |
| Booking.Transport | src/pages/BookingScreen.tsx:64-95 | the three transport options with their prices, ratings, durations and kinds; `Booking.AvailableTransport` states what each filter shows of them |
| Booking.PriceMatch | src/pages/BookingScreen.tsx:99-102 | the price-band test; `Booking.PriceBandsPartition` states that the bands partition the prices |
| Booking.RatingMatch | src/pages/BookingScreen.tsx:104-106 | the rating-band test; `Booking.HigherRatingShowsFewer` relates its two bands |
| Booking.Keep | src/pages/BookingScreen.tsx:108 | the AND of the two tests; `Booking.ShownIffBothMatch` states its effect |
| Booking.GetFilteredItems | src/pages/BookingScreen.tsx:97-110 | `getFilteredItems`; its meaning is the `Booking` lemmas below |
| Booking.ShownInCatalogueOrder | src/pages/BookingScreen.tsx:97-98 | the shown listings are a subsequence of the catalogue |
| Booking.ShownIffBothMatch | src/pages/BookingScreen.tsx:97-109 | a listing is shown exactly when it is in the catalogue and passes both the price test and the rating test |
| Booking.ShownAsOften | src/pages/BookingScreen.tsx:97-109 | a passing listing is shown as often as the catalogue holds it |
| Booking.PriceBandsPartition | src/pages/BookingScreen.tsx:100-102 | every price is in exactly one of budget (at most 100), mid (above 100, at most 250) and luxury (above 250) |
| Booking.PriceBandCountsAddUp | src/pages/BookingScreen.tsx:99-102 | for any rating band, the budget, mid and luxury results together are as long as the "all" result |
| Booking.AllShowsEverything | src/pages/BookingScreen.tsx:99-104 | with both bands "all" the whole catalogue is shown in order |
| Booking.UnknownBandShowsNothing | src/pages/BookingScreen.tsx:99-106 | a band value outside the drop-down's options shows nothing |
| Booking.HigherRatingShowsFewer | src/pages/BookingScreen.tsx:104-106 | the "4.5+" result is a subsequence of the "4+" result for the same price band |
| Booking.FilterTwiceIsOnce | src/pages/BookingScreen.tsx:97-109 | filtering the shown listings again changes nothing |
| Booking.NoListingShownTwice | src/pages/BookingScreen.tsx:97-109 | a catalogue without repeats shows no listing twice |
| Booking.BudgetTopRatedExample | src/pages/BookingScreen.tsx:97-109 | budget and "4.5+" on a 100 SAR item rated 4.0 and a 101 SAR item rated 4.6 show nothing |
| Booking.AvailableHotels | src/pages/BookingScreen.tsx:28-62 | the hotels badge: luxury leaves Raffles only, budget no hotel, mid with 4.5+ Abraj and Fairmont |
| Booking.AvailableTransport | src/pages/BookingScreen.tsx:64-95 | the transport badge: budget leaves the shuttle only, luxury nothing, 4.5+ all three |
| Budget.BudgetBreakdown | src/pages/BudgetAssistant.tsx:44-49 | the four envelopes; `Budget.SliderSplitIsExact`, `Budget.TotalIsNearBudget` and `Budget.EnvelopesOrdered` state what they add up to and how they compare |
| Budget.OnSlider | src/pages/BudgetAssistant.tsx:112-114 | the values the slider can produce, 500 to 5000 in steps of 100; `Budget.SliderSplitIsExact` and `Budget.BudgetPlanner.SetBudget` rest on it |
| Budget.RoundPercent | src/pages/BudgetAssistant.tsx:44-49 | an envelope is the integer nearest to its exact share, halves rounded up |
| Budget.PercentsAddUp | src/pages/BudgetAssistant.tsx:44-49 | the four percentages add up to 100 |
| Budget.SliderSplitIsExact | src/pages/BudgetAssistant.tsx:109-116 | on every slider value each envelope is its exact share and the four add up to the budget |
| Budget.RoundingCanOvershoot | src/pages/BudgetAssistant.tsx:44-49 | off the slider independent rounding shows: 10 gives 5, 2, 3 and 1, which add up to 11 |
| Budget.TotalIsNearBudget | src/pages/BudgetAssistant.tsx:44-49 | for any budget the envelopes add up to between the budget minus 1 and the budget plus 2 |
| Budget.DefaultSplit | src/pages/BudgetAssistant.tsx:24 | the opening budget 1500 gives 675, 300, 375 and 150 |
| Budget.EnvelopesGrowWithBudget | src/pages/BudgetAssistant.tsx:44-49 | raising a non-negative budget never shrinks an envelope |
| Budget.EnvelopesOrdered | src/pages/BudgetAssistant.tsx:44-49 | for a non-negative budget accommodation ≥ food ≥ transportation ≥ shopping |
| Budget.PriorityIds | src/pages/BudgetAssistant.tsx:29-34 | the ids of the four priority chips; `Budget.ToggleKeepsChipIds` states that only they are ever listed |
| Budget.Toggled | src/pages/BudgetAssistant.tsx:36-42 | toggling flips whether the id is listed |
| Budget.ToggleAbsentAppends | src/pages/BudgetAssistant.tsx:40 | an unlisted id is appended at the end and the list before it is unchanged |
| Budget.TogglePresentRemoves | src/pages/BudgetAssistant.tsx:39 | a listed id is removed, every occurrence, while every other id keeps its count and order |
| Budget.ToggleFlipsOnlyThatId | src/pages/BudgetAssistant.tsx:36-42 | toggling changes the membership of that id and of no other |
| Budget.ToggleTwiceRestoresAbsent | src/pages/BudgetAssistant.tsx:36-42 | toggling an unlisted id twice restores the list |
| Budget.ToggleTwiceRestoresIff | src/pages/BudgetAssistant.tsx:36-42 | toggling twice gives back the very same list exactly when the id is absent, or occurs once and last |
| Budget.ToggleTwiceMovesPresentToEnd | src/pages/BudgetAssistant.tsx:36-42 | toggling a listed id twice gives the other ids in order followed by that id: the same ids |
| Budget.ToggleTwiceReorders | src/pages/BudgetAssistant.tsx:36-42 | toggling "comfort" twice on ["comfort", "location"] gives ["location", "comfort"] |
| Budget.ToggleKeepsNoDuplicates | src/pages/BudgetAssistant.tsx:36-42 | a list without repeats keeps none |
| Budget.ToggleKeepsChipIds | src/pages/BudgetAssistant.tsx:29-42 | clicking chips lists only chip ids |
| Budget.BudgetPlanner.constructor | src/pages/BudgetAssistant.tsx:24-27 | the screen opens at 1500 with no priority |
| Budget.BudgetPlanner.SetBudget | src/pages/BudgetAssistant.tsx:109-116 | the slider sets the budget and leaves the priorities alone |
| Budget.BudgetPlanner.TogglePriority | src/pages/BudgetAssistant.tsx:36-42 | the priorities become their toggled list and stay free of repeats; the budget is unchanged |
| Budget.BudgetPlanner.CurrentBreakdown | src/pages/BudgetAssistant.tsx:44-49 | the breakdown shown adds up to the current budget |
| Budget.Recommendations | src/pages/BudgetAssistant.tsx:51-76 | the three recommendations as a constant, so they are the same whatever the budget, priorities, duration or travelers |
| Umrah.UmrahSteps | src/pages/UmrahPlanner.tsx:23-88 | the four rites with their texts, durations, crowd levels, tips, times and places; `Umrah.StepsNumbered` states their numbering |
| Umrah.StepsNumbered | src/pages/UmrahPlanner.tsx:23-88 | the four rites are numbered 1 to 4 in order |
| Umrah.Progress | src/pages/UmrahPlanner.tsx:105 | the progress bar value; its meaning is `Umrah.ProgressValues` and `Umrah.ProgressCountsCompletedSteps` |
| Umrah.ProgressValues | src/pages/UmrahPlanner.tsx:105 | progress is exactly (step − 1) × 25: 0, 25, 50 or 75, never 100 |
| Umrah.ProgressCountsCompletedSteps | src/pages/UmrahPlanner.tsx:105 | progress is 25 for each completed step |
| Umrah.GetStepIcon | src/pages/UmrahPlanner.tsx:99-103 | the icon is CheckCircle exactly when the step comes before the current one |
| Umrah.IsCompleted | src/pages/UmrahPlanner.tsx:182 | a card is completed when its id is below the current step; `Umrah.CompletedArePrefix` states which cards those are |
| Umrah.IsCurrent | src/pages/UmrahPlanner.tsx:183 | a card is current when its id is the current step; `Umrah.ExactlyOneCurrent` states that exactly one is |
| Umrah.IconMarksCompleted | src/pages/UmrahPlanner.tsx:182-183 | the icon is a tick exactly on the completed cards, a circle on the others |
| Umrah.ExactlyOneCurrent | src/pages/UmrahPlanner.tsx:182-183 | exactly one card is current, the cards before it are completed, and no card is both |
| Umrah.CompletedArePrefix | src/pages/UmrahPlanner.tsx:182 | the completed steps are the first step − 1 steps |
| Umrah.ButtonLabel | src/pages/UmrahPlanner.tsx:172 | the button's text; its meaning is `Umrah.ButtonLabelIff` |
| Umrah.ButtonLabelIff | src/pages/UmrahPlanner.tsx:172 | the button reads "Complete Umrah" exactly on the last step |
| Umrah.GetCrowdColor | src/pages/UmrahPlanner.tsx:90-97 | the crowd badge's classes; its meaning is `Umrah.CrowdColorsDistinct` |
| Umrah.CrowdColorsDistinct | src/pages/UmrahPlanner.tsx:90-97 | Low, Medium and High get three different classes; every other level gets the muted default, which none of them uses |
| Umrah.CurrentStepInfo | src/pages/UmrahPlanner.tsx:142 | the optional-chained lookup `umrahSteps[currentStep - 1]?.` of the current step; its meaning is `Umrah.CurrentStepFound` and `Umrah.CurrentStepUndefined` |
| Umrah.CurrentStepFound | src/pages/UmrahPlanner.tsx:142-163 | for a current step in range the highlighted step exists and has that id |
| Umrah.CurrentStepUndefined | src/pages/UmrahPlanner.tsx:142 | outside the range the optional lookup gives `undefined` |
| Umrah.Advance | src/pages/UmrahPlanner.tsx:170 | "Mark as Complete" moves one step on, but never past the last step |
| Umrah.AdvanceIdempotentAtEnd | src/pages/UmrahPlanner.tsx:170 | on the last step the button changes nothing |
| Umrah.AdvanceTimesCaps | src/pages/UmrahPlanner.tsx:170 | k presses from a step in range reach min(step + k, 4) |
| Umrah.Planner.constructor | src/pages/UmrahPlanner.tsx:21 | the planner opens on step 1 |
| Umrah.Planner.MarkComplete | src/pages/UmrahPlanner.tsx:170 | the step becomes its advanced value and stays in 1 to 4 |
| Umrah.Planner.SelectStep | src/pages/UmrahPlanner.tsx:191 | clicking a card makes its id current, earlier steps included, and stays in 1 to 4 |

## Findings

| source | as written | input that shows it | evidently intended | confidence | as-written member | corrected member |
|---|---|---|---|---|---|---|
| src/pages/ChatBot.tsx:104-107 | `handleQuickQuestion` sets the input and then calls `handleSend`. `handleSend` still reads the input from before the click, so the question itself is never sent | on the opening screen (empty box), click "How to reach the Haram?": nothing is sent and the question only fills the box (`ChatBot.QuickQuestionIsLost`) | the question is sent as if typed | medium, not executed; it rests on React's state semantics | ChatBot.Chat.QuickQuestionAsWritten | ChatBot.Chat.QuickQuestion |

## Left out

- Clock readings: the two `toLocaleTimeString` stamps of a sent pair are parameters of `Send`.
- Strings.Lower: lower-cases ASCII capitals only. JavaScript's `toLowerCase` also maps non-ASCII capitals, which no keyword contains.
- Floating point: prices, ratings, `Math.round` shares and the progress ratio are exact integers (tenths, riyals, percent), not IEEE doubles.
- Budget.RoundPercent: computes each share exactly on integers instead of as the IEEE product `budget * 0.45` and its siblings. The model does not compare the two roundings.
- React scheduling: each `setState` is an immediate assignment. `setMessages(prev => …)` therefore reads the transcript that `handleSend` saw.
- Rendering: JSX, icons, CSS classes other than `getCrowdColor`, navigation, tab switching, and the "+N more" amenity badge are not part of this model. The `image` field of the listings is also omitted.
- The duration and traveler inputs of the budget screen are strings that nothing computes with.
- Text constants rendered straight from JSX are not modelled: the quick-question list, the live-update texts and the "425 SAR" savings figure.
- The rest of the application (dashboards, home screen, routing in `src/App.tsx`) is not part of this model.
