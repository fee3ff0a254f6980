# Kisan+ page logic in Dafny

A model of the logic inside four pages of the Kisan+ farmer-assistance web
app, a React client with hard-coded sample data and browser-local storage:

- **Onboarding** (`onboarding.dfy`): the three-step wizard. Next checks the
  current step before moving on. Back steps down. A checkbox toggles crops in
  `mainCrops`. The last step saves the profile. `Wizard` is a class over
  `step` and the form, and its methods are proved against the pure
  `Advance` and `ToggleCrop`.
- **Diagnosis** (`diagnosis.dfy`): the crop-disease page. `handleAnalyze` is
  split at its two-second wait. `Analyze` guards on the image and captures
  the crop and image. `Complete` takes the way the wait ended and then
  builds the canned result, puts it first in the result list, hands one
  history entry to the store and resets the flags.
- **MarketNew** (`market_new.dfy`): the mandi price table. A crop selector
  with an "All Crops" entry and a case-insensitive search over crop, variety
  and market narrow it. The change badge is in `prices.dfy`, shared with the
  other market page.
- **Market** (`market.dfy`): a per-crop lookup over a fixed table, falling
  back to Rice. Also the sell-suggestion styling and the Listen subject.

Shared pieces: `text.dfy` (ASCII lower-casing and `includes`, with a
reference definition by offsets), `seqs.dfy` (order-preserving selection and
removal of every occurrence), `types.dfy` (the records), `storage.dfy` (the
store's assumed effect: a profile slot and a log of history entries in call
order) and `wrappers.dfy` (Option).

Decimal figures are integers. A price change is in tenths of a percent
(3.2 is 32). A confidence is in hundredths (0.89 is 89). Only their sign or
value is compared; no arithmetic is done on them.

Behaviour of the code that the model keeps as written:

- `handleAnalyze` checks only that an image is selected (Diagnosis.tsx:93).
  The crop is enforced only by the Analyze button's `disabled` rule
  (Diagnosis.tsx:177, `PressAnalyze`). Called directly without a crop, it
  falls back to the Tomato entry and records "Crop diagnosis"
  (`NoCropFallback`).
- A new result is put in front of the earlier ones (`[data, ...prev]`,
  Diagnosis.tsx:111).
- A throw from `saveToHistory` comes after `setResults`. The new result
  therefore stays on screen, no history entry is written and the image is
  kept (`Outcome.SaveRejected`).
- `mainCrops` is a list. A toggle appends an absent crop at the end and
  removes every occurrence of a present one.

## Model

| member | source | states |
|---|---|---|
| Text.LowerChar | src/pages/MarketNew.tsx:53-55 | folding never yields an upper-case ASCII letter, and it changes a character only when it is an upper-case ASCII letter, by exactly 32 |
| Text.Lower | src/pages/MarketNew.tsx:53-55 | `toLowerCase` keeps the length and folds every character in place |
| Text.Contains | src/pages/MarketNew.tsx:53-55 | `includes` never finds a needle longer than the string, always finds the empty needle, and for a needle of the same length finds it exactly when the two are equal |
| Text.ContainsIffOccurs | src/pages/MarketNew.tsx:53-55 | `includes` holds exactly when the needle occurs at some offset of the string |
| Seqs.Without | src/pages/Onboarding.tsx:38 | removing a value leaves the multiset with that value's count set to zero and every other count kept; removing an absent value changes nothing |
| Seqs.WithoutIsSubsequence | src/pages/Onboarding.tsx:38 | removal keeps the remaining elements in their original order |
| Seqs.WithoutAppend | src/pages/Onboarding.tsx:38 | removal from a concatenation is the concatenation of the removals |
| Storage.LocalStore.constructor | src/pages/Diagnosis.tsx:114-121 | the store starts with no profile and no history entries |
| Storage.LocalStore.SaveProfile | src/pages/Onboarding.tsx:70 | after saving, the profile slot holds exactly the saved profile and the history is unchanged |
| Storage.LocalStore.SaveToHistory | src/pages/Diagnosis.tsx:114-121 | saving adds exactly one entry after the earlier ones and leaves the profile unchanged |
| Onboarding.SetField | src/pages/Onboarding.tsx:114-220 | an input writes its own field and no other field, crop or flag |
| Onboarding.ToggleCrop | src/pages/Onboarding.tsx:34-41 | after a toggle the crop is selected iff it was not before. Other crops keep their membership. An absent crop is appended at the end. A present one is removed in every occurrence, and the rest keep their order |
| Onboarding.ToggleTwiceRestores | src/pages/Onboarding.tsx:35-40 | toggling a crop that was not selected twice gives back the original list |
| Onboarding.ToggleTwiceMovesToEnd | src/pages/Onboarding.tsx:35-40 | toggling a selected crop twice leaves it once, at the end |
| Onboarding.ToggleKeepsDistinct | src/pages/Onboarding.tsx:34-41 | a duplicate-free crop list stays duplicate-free under toggling |
| Onboarding.Advance | src/pages/Onboarding.tsx:43-74 | Next either keeps the step or raises it by one from step 1 or 2. A save happens only from the last step, with the current form and at least one crop. Navigation to the dashboard happens exactly when a save does |
| Onboarding.StepOneGate | src/pages/Onboarding.tsx:44-48 | step 1 advances iff name and mobile are both non-empty; otherwise it stays at 1 with the "fill all fields" toast |
| Onboarding.DemoNoticeDoesNotBlock | src/pages/Onboarding.tsx:50-57 | with name and mobile filled in, step 1 always advances. The demo notice appears exactly when "111111" does not occur in the mobile number |
| Onboarding.StepTwoGate | src/pages/Onboarding.tsx:58-63 | step 2 advances iff state and district are non-empty. Village and land size do not affect the outcome |
| Onboarding.FinishGate | src/pages/Onboarding.tsx:64-73 | the last step saves iff at least one crop is selected, never leaves step 3, and without crops shows the crop toast |
| Onboarding.InitialFormCannotFinish | src/pages/Onboarding.tsx:22-32 | the initial form has language English and demo data on, and finishing with it is refused for lack of crops |
| Onboarding.Wizard.constructor | src/pages/Onboarding.tsx:21-32 | the wizard starts at step 1 with the initial form |
| Onboarding.Wizard.Back | src/pages/Onboarding.tsx:237-240 | Back, offered only above step 1, lowers the step by one and keeps the form, so the step stays within 1..3 |
| Onboarding.Wizard.Edit | src/pages/Onboarding.tsx:114-220 | editing a field replaces that field only and keeps the step |
| Onboarding.Wizard.HandleCropToggle | src/pages/Onboarding.tsx:34-41 | the toggle changes only `mainCrops`, as `ToggleCrop` does, and keeps the list duplicate-free |
| Onboarding.Wizard.HandleNext | src/pages/Onboarding.tsx:43-74 | step, toast and route follow `Advance`, and the step stays within 1..3. The form never changes. The profile is saved exactly on a finishing step with crops. History is untouched |
| Diagnosis.SampleFor | src/pages/Diagnosis.tsx:101-103 | a crop with a canned entry gets that entry. Any other crop, the empty one included, gets the Tomato entry |
| Diagnosis.Diagnose | src/pages/Diagnosis.tsx:105-109 | the result is the canned entry except that `image` is the selected image and `timestamp` the completion time |
| Diagnosis.QueryFor | src/pages/Diagnosis.tsx:116 | the history query is the crop name, or "Crop" when none is selected, followed by " diagnosis" |
| Diagnosis.DiagnosisEntry | src/pages/Diagnosis.tsx:114-121 | the history record has type diagnosis, the result's disease as preview, the crop query and the result as data. Its id and timestamp are the supplied clock readings |
| Diagnosis.CompletedToast | src/pages/Diagnosis.tsx:123-126 | the success toast is titled "Diagnosis complete", is not destructive, and reads `<disease> detected in <crop>`, with "crop" when none is selected |
| Diagnosis.CannedEntries | src/pages/Diagnosis.tsx:27-56 | Tomato is Early Blight, status high, confidence 0.89. Banana is Yellow Leaf Spot, status medium, confidence 0.76. Every other crop gets the Tomato entry |
| Diagnosis.DiagnosisPage.constructor | src/pages/Diagnosis.tsx:63-66 | the page starts with no crop, no image, not analysing and no results |
| Diagnosis.DiagnosisPage.SelectCrop | src/pages/Diagnosis.tsx:148 | the crop select changes the crop only |
| Diagnosis.DiagnosisPage.ImageLoaded | src/pages/Diagnosis.tsx:76-83 | a loaded file becomes the selected image and nothing else changes |
| Diagnosis.DiagnosisPage.Cancel | src/pages/Diagnosis.tsx:189-192 | Cancel clears the image and nothing else |
| Diagnosis.DiagnosisPage.Analyze | src/pages/Diagnosis.tsx:92-95 | without an image nothing changes. Otherwise the page is analysing and holds the crop and image it read. Results and history are untouched |
| Diagnosis.DiagnosisPage.PressAnalyze | src/pages/Diagnosis.tsx:175-177 | the button starts an analysis exactly when an image is shown, no analysis is running and a crop is selected |
| Diagnosis.DiagnosisPage.Complete | src/pages/Diagnosis.tsx:97-137 | on success the result is prepended to the earlier ones in order, exactly one history entry of the fixed shape is added and the image is cleared. On failure history is unchanged and the image kept. Analysing is off either way |
| Diagnosis.TomatoEndToEnd | src/pages/Diagnosis.tsx:92-137 | Tomato, an image and a resolved wait give one Early Blight result (0.89, high) and one history entry "Tomato diagnosis" with preview Early Blight, and clear the image |
| Diagnosis.NoCropFallback | src/pages/Diagnosis.tsx:93-121 | with no crop the button does not start. A direct analysis still succeeds with the Tomato entry and records "Crop diagnosis" |
| PriceChange.BadgeFor | src/pages/MarketNew.tsx:226-239 | the badge is rising, green and prefixed "+" iff the change is positive; zero and negative changes fall and have no prefix |
| MarketNew.FilterRows | src/pages/MarketNew.tsx:50-57 | the result is a subsequence of the table in its original order, and a row is in it iff both the crop and the search condition accept it. Each accepted row appears as often as in the table; rejected rows never appear |
| MarketNew.FilteredData | src/pages/MarketNew.tsx:50-57 | the page's rows are a subsequence of the six-row table, and a table row is shown iff both conditions accept it |
| MarketNew.FilterKeepsAll | src/pages/MarketNew.tsx:50-57 | when every row is accepted, the filter returns the table unchanged |
| MarketNew.MatchesCrop | src/pages/MarketNew.tsx:51 | "All Crops" accepts every row; any other selection accepts exactly the rows whose crop equals it |
| MarketNew.MatchesSearch | src/pages/MarketNew.tsx:52-55 | an empty query accepts every row. A non-empty query accepts a row iff its lowercased form occurs in the lowercased crop, variety or market |
| MarketNew.InitialShowsAll | src/pages/MarketNew.tsx:42-43 | the initial "All Crops" selection with an empty query shows all six rows, in order |
| MarketNew.TableBody | src/pages/MarketNew.tsx:205-245 | an empty result draws exactly one "No results found" row; otherwise one row per match, in order, each with its change badge |
| MarketNew.TableTrendsAgreeWithPrices | src/pages/MarketNew.tsx:30-37 | every table row's change is drawn rising exactly when its current price exceeds the previous one |
| Market.CurrentData | src/pages/Market.tsx:55 | a crop in the table gets its own data and any other crop gets Rice's. The result always has at least one price |
| Market.ListenSubject | src/pages/Market.tsx:57-62 | Listen names the selected crop with the first listed mandi of the shown data and that mandi's current price; it is defined for every selection |
| Market.SuggestionTone | src/pages/Market.tsx:124-141 | the suggestion card uses success styling iff the suggestion type is "good" |
| Market.LookupIsTotal | src/pages/Market.tsx:20-55 | the page opens on Rice. Wheat and Cotton resolve to their own data, and every other crop resolves to Rice's |
| Market.ListenQuotesRiceForOtherCrops | src/pages/Market.tsx:55-62 | a menu crop without data is announced under its own name with the first Rice mandi, Delhi at 3200 |
| Market.ListenQuotesOwnFirstMandi | src/pages/Market.tsx:20-62 | Rice is announced with Delhi Mandi at 3200, Wheat with Haryana Mandi at 2150 and Cotton with Gujarat Mandi at 5800 |
| Market.TableTrendsAgreeWithPrices | src/pages/Market.tsx:21-44 | in the fixed table each mandi's change is drawn rising exactly when its price went up |
| Market.SuggestionFollowsPrices | src/pages/Market.tsx:20-45 | in the fixed table a crop's suggestion is "good" exactly when every listed mandi's price rose |

## Left out

- Rendering, layout, animation and styling. Only the change badge, the suggestion card's tone and the table body's rows are modelled.
- Routing and the protected-route redirect. The wizard reports the dashboard route as a value and navigates nowhere.
- src/lib/storage is not part of this model. `LocalStore` states only the effect the pages rely on. Serialisation, the order in which history is read back, `getHistory`, `clearHistory` and the logout wipe are not modelled.
- Toast notifications are returned as values. The toast machinery is not modelled.
- The FileReader load is replaced by `ImageLoaded`, which receives the finished data URL; the file handed over through navigation state takes the same path. The two-second wait is replaced by the `Outcome` given to `Complete`. `Date.now()` and `toISOString()` readings arrive as parameters.
- Diagnosis.DiagnosisPage.Analyze: requires that no analysis is running, so overlapping analyses are not modelled. The button is disabled and an overlay covers the page while one runs.
- Speech synthesis: `ListenSubject` gives the subject of Market's announcement, not the spoken sentence. MarketNew's Listen (a row count) and the page reloads are not modelled.
- Text.Lower: folds ASCII letters only, because full Unicode lower-casing is out of scope.
- Diagnosis.SampleFor: a plain map lookup. In JavaScript, inherited keys such as "constructor" would also be truthy, but the crop menu offers only crop names. The same holds for Market.CurrentData.
- The canned diagnoses' own timestamp is module-load time. Here it is a fixed placeholder, since every produced result replaces it.
- Form fields are always strings here, so the `Partial<UserProfile>` undefined case is not modelled. The language select's fixed options are not enforced on `Edit`.
- History entries carry a diagnosis payload only. Market, scheme and chat entries come from pages outside this model.
- MarketNew's price-alert list, the "last updated" clock text and the support-history icon lookup are fixed display data and are not modelled.
- React batches state updates. Here each handler's updates take effect in program order.
