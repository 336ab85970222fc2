# Krishi Sakhi client logic in Dafny

Krishi Sakhi is a farming assistant web app for Kerala farmers. It has a
sign-in wizard, a farmer profile with farm parcels, a dashboard, an activity
log, a market price table, alerts, crop advice, a pest check and a chat
assistant. This project models the app's deterministic client logic and
proves what the pages promise about it:

- **Translation** (`translation.dfy`). `tStatic` looks up a dotted key in the
  current language's table. It falls back to English, then to the key itself,
  and replaces the first `{name}` of each option. It is an imperative method
  proved against a recursive lookup function.
- **Session** (`session.dfy`, `profile_json.dfy`, `farm.dfy`). This covers
  the profile kept in browser storage, `login`, `logout` and the redirect
  rule. The stored text is written by a JSON encoder and read back by a
  partial parser, and the two are proved to round-trip.
- **Sign-in wizard** (`login.dfy`). Phone, one-time password, new farmer,
  then first parcel, with the back buttons and the profiles it signs in.
- **Profile editor** (`profile_form.dfy`). The declared constraints on a
  profile and its parcels, plus adding and removing parcels, cancelling and
  saving.
- **Activity log** (`activity_log.dfy`). Prepending numbered entries, the
  suggestion per activity, and the quantity field.
- **Price table** (`crop_prices.dfy`, `stable_sort.dfy`):
  - the sort toggle;
  - a stable insertion sort on an array copy, proved sorted, a permutation
    and stable;
  - the best crop to sell;
  - the trends card.
- **Dashboard** (`dashboard.dfy`). The greeting, plural keys, the price
  ticker, the advisory texts and the read-aloud state.
- **Alerts** (`alerts.dfy`). Severity badges, decorated weather alerts, and
  the merged list, newest first.
- **Advisor** (`advice.dfy`). The crop toggle, ordered removal of duplicate
  soil types, the soil table's `N/A` fallback and the roadmap separators.
- **Chat window** (`chatbot.dfy`). Guarded send, the history sent to the chat
  flow, the save heuristic, and rollback on failure.
- **User menu** (`user_nav.dfy`) and **avatar initials** (`initials.dfy`).
- **Pest check** (`pest_check.dfy`). Photo, analysis, reset, history, and
  the panel shown.

Strings and list helpers live in `text.dfy` and `lists.dfy`. Pages whose
handlers change state step by step are classes with `modifies` clauses. Pure
derivations are functions with lemmas about them.

## Model

| member | source | states |
|---|---|---|
| Translation.Child | Hackthon/Hackthon/src/hooks/use-translation.ts:22-23 | `result?.[k]` is defined exactly when the current value is a table holding `k` |
| Translation.LookupMissingStays | Hackthon/Hackthon/src/hooks/use-translation.ts:21-23 | once a segment of the key is missing, the whole key is missing |
| Translation.LookupHead | Hackthon/Hackthon/src/hooks/use-translation.ts:19-22 | a dotted key resolves by resolving its first segment and then the rest from that child |
| Translation.SubstituteAppend | Hackthon/Hackthon/src/hooks/use-translation.ts:46-50 | applying options in sequence is applying each part in turn |
| Translation.WalkEnglish | Hackthon/Hackthon/src/hooks/use-translation.ts:25-33 | the fallback loop ends with exactly the English table's value for the key, or nothing |
| Translation.ApplyOptions | Hackthon/Hackthon/src/hooks/use-translation.ts:46-50 | the substitution loop yields the text with each option's placeholder replaced in order |
| Translation.TStatic | Hackthon/Hackthon/src/hooks/use-translation.ts:18-54 | the lookup loop returns the reference translation: current table, else English table, else the key, then substitution |
| Translation.FoundInCurrent | Hackthon/Hackthon/src/hooks/use-translation.ts:20-22 | a key found in the current language gives that text with its placeholders filled in |
| Translation.MissingFallsBackToEnglish | Hackthon/Hackthon/src/hooks/use-translation.ts:23-40 | a key missing in the current language gives whatever English gives |
| Translation.MissingEverywhere | Hackthon/Hackthon/src/hooks/use-translation.ts:37-39 | a key missing in both languages comes back as the key, unsubstituted |
| Translation.EmptyTextGivesKey | Hackthon/Hackthon/src/hooks/use-translation.ts:44 | an empty translation is replaced by the key, which is then substituted |
| Translation.BranchReturnedAsIs | Hackthon/Hackthon/src/hooks/use-translation.ts:44-46 | a key naming a sub-table returns the sub-table, with no substitution |
| Translation.NoOptionsNoChange | Hackthon/Hackthon/src/hooks/use-translation.ts:46 | without options the found text is returned unchanged |
| Translation.SubstituteOne | Hackthon/Hackthon/src/hooks/use-translation.ts:48 | one option is one replacement of `{name}` |
| Translation.OnlyFirstOccurrence | Hackthon/Hackthon/src/hooks/use-translation.ts:48 | `replace` with a text pattern replaces only the first occurrence; a later one survives, shifted |
| Text.Split | Hackthon/Hackthon/src/hooks/use-translation.ts:19 | `split` yields separator-free pieces, exactly one more than the separators in the text |
| Text.JoinSplit | Hackthon/Hackthon/src/hooks/use-translation.ts:19 | joining the pieces of `split` with the separator gives the text back |
| Text.ReplaceFirstAt | Hackthon/Hackthon/src/hooks/use-translation.ts:48 | `replace` cuts out the first occurrence of the pattern and puts the replacement in its place |
| Text.ReplaceFirstAbsent | Hackthon/Hackthon/src/hooks/use-translation.ts:48 | `replace` leaves a text without the pattern unchanged |
| Text.ReplacedKeepsLater | Hackthon/Hackthon/src/hooks/use-translation.ts:48 | an occurrence after the replaced one is kept, shifted by the length difference |
| Session.RedirectCases | Hackthon/Hackthon/src/app/context/app-context.tsx:103-123 | each redirect of `useApp`, in both directions: dashboard for a signed-in visitor on /login, login for a signed-out one outside the public paths, none otherwise or while loading |
| Session.RedirectSettles | Hackthon/Hackthon/src/app/context/app-context.tsx:109-121 | the page a redirect leads to does not redirect again |
| Session.WithLanguage | Hackthon/Hackthon/src/app/context/app-context.tsx:65 | the stored profile always has a language: its own, else the session's; nothing else changes |
| Session.AppSession.constructor | Hackthon/Hackthon/src/app/context/app-context.tsx:38-41 | a new session is English, signed out and loading |
| Session.AppSession.Load | Hackthon/Hackthon/src/app/context/app-context.tsx:45-62 | a stored profile that parses signs the farmer in, in its language or English; one that does not is deleted; loading ends |
| Session.AppSession.Login | Hackthon/Hackthon/src/app/context/app-context.tsx:64-70 | the profile with its language is stored and becomes the session's, signed in, keeping storage and session in agreement |
| Session.AppSession.Logout | Hackthon/Hackthon/src/app/context/app-context.tsx:72-77 | the entry is removed, the farmer signed out and sent to /login |
| Session.AppSession.SetLanguage | Hackthon/Hackthon/src/app/context/app-context.tsx:38 | only the language changes |
| Session.AppSession.Guard | Hackthon/Hackthon/src/app/context/app-context.tsx:103-123 | the redirect effect pushes exactly the redirect target, if any, and changes nothing else |
| Session.LoginThenReload | Hackthon/Hackthon/src/app/context/app-context.tsx:45-70 | what `login` stores, the next visit's load signs in again as the same profile |
| ProfileJson.LitRoundTrip | Hackthon/Hackthon/src/app/context/app-context.tsx:50-66 | a literal written is read back, leaving what follows |
| ProfileJson.EscapedRoundTrip | Hackthon/Hackthon/src/app/context/app-context.tsx:50-66 | an escaped string body reads back up to its closing quote |
| ProfileJson.StringRoundTrip | Hackthon/Hackthon/src/app/context/app-context.tsx:17-18 | a JSON string reads back as the same text |
| ProfileJson.TakeDigits | Hackthon/Hackthon/src/app/context/app-context.tsx:50 | the digits read are all digits and, with what follows, are the whole text |
| ProfileJson.TenthsRoundTrip | Hackthon/Hackthon/src/app/context/app-context.tsx:10 | a land area written as a decimal number reads back as the same number |
| ProfileJson.OptStringRoundTrip | Hackthon/Hackthon/src/app/context/app-context.tsx:19-21 | an optional text field, present or left out, reads back as written |
| ProfileJson.OptLanguageRoundTrip | Hackthon/Hackthon/src/app/context/app-context.tsx:20 | the optional language field reads back as written |
| ProfileJson.ParcelRoundTrip | Hackthon/Hackthon/src/app/context/app-context.tsx:9-14 | a farm parcel object reads back as the same parcel |
| ProfileJson.ParcelItemsRoundTrip | Hackthon/Hackthon/src/app/context/app-context.tsx:22 | a non-empty list of parcels reads back element by element |
| ProfileJson.ParcelsRoundTrip | Hackthon/Hackthon/src/app/context/app-context.tsx:22 | any list of parcels, empty or not, reads back as written |
| ProfileJson.OptionalsRoundTrip | Hackthon/Hackthon/src/app/context/app-context.tsx:19-21 | the three optional fields read back as written |
| ProfileJson.RoundTrip | Hackthon/Hackthon/src/app/context/app-context.tsx:48-67 | reading back what was stored gives the same profile |
| Login.ButtonTextKey | Hackthon/Hackthon/src/app/login/page.tsx:184-191 | the label is "processing" exactly while loading |
| Login.TitleKey | Hackthon/Hackthon/src/app/login/page.tsx:193-197 | the generic subtitle shows exactly on the phone and OTP steps |
| Login.PhoneStep | Hackthon/Hackthon/src/app/login/page.tsx:92-103 | the phone step moves on exactly when the number has at least ten characters |
| Login.OtpStep | Hackthon/Hackthon/src/app/login/page.tsx:104-148 | a wrong OTP stays and reports; the right one sends a number ending in 0000 to registration and signs anyone else into the demo account |
| Login.SignInOnlyAfterOtpOrRegistration | Hackthon/Hackthon/src/app/login/page.tsx:104-181 | only a correct OTP or a completed registration signs anyone in |
| Login.PrimaryMovesForward | Hackthon/Hackthon/src/app/login/page.tsx:91-182 | the primary button only ever moves one step forward |
| Login.BackUndoesForward | Hackthon/Hackthon/src/app/login/page.tsx:427-436 | each link button returns to the step before its own |
| Login.NewProfileShape | Hackthon/Hackthon/src/app/login/page.tsx:160-172 | a new profile is in Malayalam with the one parcel entered, irrigation "Unknown" |
| Login.DemoProfileValid | Hackthon/Hackthon/src/app/login/page.tsx:123-142 | the demo account has two parcels and meets the profile schema |
| Login.LoginWizard.constructor | Hackthon/Hackthon/src/app/login/page.tsx:68-71 | the wizard starts on the phone step, not loading |
| Login.LoginWizard.HandlePrimaryAction | Hackthon/Hackthon/src/app/login/page.tsx:91-182 | each press stays, moves to the next step or signs in through the session and goes to the dashboard, with its toast |
| Login.LoginWizard.GoBack | Hackthon/Hackthon/src/app/login/page.tsx:427-436 | the link buttons go back one step and change nothing else |
| ProfileForm.RemoveAt | Hackthon/Hackthon/src/app/profile/page.tsx:416 | `remove(index)` drops exactly the element at the index and keeps the others in order |
| ProfileForm.AddedParcelBlocksSave | Hackthon/Hackthon/src/app/profile/page.tsx:313 | a freshly added parcel fails the parcel schema, so the profile cannot be saved until it is filled in |
| ProfileForm.RemoveKeepsValid | Hackthon/Hackthon/src/app/profile/page.tsx:416 | removing a parcel from a valid profile keeps it valid exactly when another parcel remains |
| ProfileForm.PageRedirect | Hackthon/Hackthon/src/app/profile/page.tsx:89-94 | the page redirects, to /login only, exactly when loading is over and nobody is signed in |
| ProfileForm.PageRedirectAgrees | Hackthon/Hackthon/src/app/profile/page.tsx:89-94 | on /profile the page's guard and the session's guard pick the same target |
| ProfileForm.ProfileEditor.constructor | Hackthon/Hackthon/src/app/profile/page.tsx:72-87 | the form starts with its default values, not editing, not saving |
| ProfileForm.ProfileEditor.ProfileChanged | Hackthon/Hackthon/src/app/profile/page.tsx:96-105 | a loaded profile fills the form, and one without parcels opens the editor |
| ProfileForm.ProfileEditor.Edit | Hackthon/Hackthon/src/app/profile/page.tsx:212 | "Edit Profile" opens the editor and keeps the values |
| ProfileForm.ProfileEditor.AddParcel | Hackthon/Hackthon/src/app/profile/page.tsx:313 | a blank parcel of 1 acre is appended |
| ProfileForm.ProfileEditor.RemoveParcel | Hackthon/Hackthon/src/app/profile/page.tsx:416 | the chosen parcel is removed |
| ProfileForm.ProfileEditor.Cancel | Hackthon/Hackthon/src/app/profile/page.tsx:428 | editing ends and the form is reset to the stored profile |
| ProfileForm.ProfileEditor.Submit | Hackthon/Hackthon/src/app/profile/page.tsx:144-157 | a form that meets the schema is signed in through `login` and editing ends; an invalid one changes nothing |
| ActivityLog.SuggestionCases | Hackthon/Hackthon/src/app/dashboard/activity/page.tsx:109-122 | a suggestion follows exactly sowing, pest issues and fertilizer |
| ActivityLog.QuantityLabels | Hackthon/Hackthon/src/app/dashboard/activity/page.tsx:203-207 | a quantity is asked for exactly when the label is specific, and the four measured kinds have distinct labels |
| ActivityLog.InitialNumbered | Hackthon/Hackthon/src/app/dashboard/activity/page.tsx:103-107 | the three sample entries carry ids 1, 2, 3 |
| ActivityLog.NumberedIdsDistinct | Hackthon/Hackthon/src/app/dashboard/activity/page.tsx:178 | entries numbered by distinct numbers have distinct ids |
| ActivityLog.PrependKeepsNumbered | Hackthon/Hackthon/src/app/dashboard/activity/page.tsx:177-183 | an entry numbered one past the length, put in front, keeps the ids distinct |
| ActivityLog.ReminderNeverShownAsWritten | Hackthon/Hackthon/src/app/dashboard/activity/page.tsx:252 | as written, no suggestion's trigger contains "reminder", so the button never shows |
| ActivityLog.ReminderShownForFertilizer | Hackthon/Hackthon/src/app/dashboard/activity/page.tsx:252 | testing the message instead shows the button after fertilizer, which the trigger test misses |
| ActivityLog.ActivityPage.constructor | Hackthon/Hackthon/src/app/dashboard/activity/page.tsx:127-132 | the page starts with the sample entries, no form, no suggestion, no preview |
| ActivityLog.ActivityPage.Select | Hackthon/Hackthon/src/app/dashboard/activity/page.tsx:147-160 | choosing a kind opens a blank form dated now and clears preview and suggestion |
| ActivityLog.ActivityPage.SetImage | Hackthon/Hackthon/src/app/dashboard/activity/page.tsx:162-172 | a loaded photo becomes the preview |
| ActivityLog.ActivityPage.ClearImage | Hackthon/Hackthon/src/app/dashboard/activity/page.tsx:396 | the remove button drops the preview |
| ActivityLog.ActivityPage.Submit | Hackthon/Hackthon/src/app/dashboard/activity/page.tsx:174-201 | a valid form puts one new entry in front with the next id, the ISO form of its date and the preview, sets the kind's suggestion and closes; a date `toISOString` rejects leaves the log busy and the list unchanged; ids stay distinct; an invalid form changes nothing; the form's values are kept |
| StableSort.KeyLessIrreflexive | Hackthon/Hackthon/src/app/dashboard/crop-prices/page.tsx:69-75 | no key compares below itself |
| StableSort.KeyLessTransitive | Hackthon/Hackthon/src/app/dashboard/crop-prices/page.tsx:69-75 | the comparison of keys is transitive |
| StableSort.KeyLessTotal | Hackthon/Hackthon/src/app/dashboard/crop-prices/page.tsx:69-75 | of two distinct keys one compares below the other |
| StableSort.InsertPermutes | Hackthon/Hackthon/src/app/dashboard/crop-prices/page.tsx:68-76 | inserting adds exactly the one element |
| StableSort.SortPermutes | Hackthon/Hackthon/src/app/dashboard/crop-prices/page.tsx:66-78 | sorting a copy keeps exactly the same elements |
| StableSort.InsertSorted | Hackthon/Hackthon/src/app/dashboard/crop-prices/page.tsx:68-76 | inserting into a sorted list keeps it sorted |
| StableSort.SortSorted | Hackthon/Hackthon/src/app/dashboard/crop-prices/page.tsx:68-76 | the sorted copy is in the comparator's order |
| StableSort.InsertStable | Hackthon/Hackthon/src/app/dashboard/crop-prices/page.tsx:68-76 | the inserted element goes behind every element with its key, and moves no other |
| StableSort.SortStable | Hackthon/Hackthon/src/app/dashboard/crop-prices/page.tsx:68-76 | elements whose keys compare equal keep their original order |
| StableSort.FindSlot | Hackthon/Hackthon/src/app/dashboard/crop-prices/page.tsx:68-76 | the scan finds the place where inserting the element gives the stable insertion |
| StableSort.ShiftRight | Hackthon/Hackthon/src/app/dashboard/crop-prices/page.tsx:68-76 | the block is moved one place right and the rest of the array is untouched |
| StableSort.InsertLast | Hackthon/Hackthon/src/app/dashboard/crop-prices/page.tsx:68-76 | one step of the in-place sort inserts the next element into the sorted prefix |
| StableSort.SortedCopy | Hackthon/Hackthon/src/app/dashboard/crop-prices/page.tsx:66-78 | sorting a copy in place gives the reference stable sort of the list |
| CropPrices.RequestSort | Hackthon/Hackthon/src/app/dashboard/crop-prices/page.tsx:81-87 | the clicked column becomes the key, descending exactly when it was ascending on that column |
| CropPrices.RequestSortToggles | Hackthon/Hackthon/src/app/dashboard/crop-prices/page.tsx:81-87 | clicking the same header again flips the direction, a third click flips it back; the first click is ascending |
| CropPrices.SortIconFor | Hackthon/Hackthon/src/app/dashboard/crop-prices/page.tsx:89-94 | the neutral icon exactly for other columns or no sort; up for ascending, down for descending on the column |
| CropPrices.IconAfterRequest | Hackthon/Hackthon/src/app/dashboard/crop-prices/page.tsx:81-94 | after a click only the clicked header shows an arrow |
| CropPrices.SortedViewSpec | Hackthon/Hackthon/src/app/dashboard/crop-prices/page.tsx:65-79 | the table shows the same crops, in configured order, equal keys in list order; unsorted without a configuration |
| CropPrices.PriceOrder | Hackthon/Hackthon/src/app/dashboard/crop-prices/page.tsx:65-79 | sorting by price ascending lists cheapest first, descending dearest first |
| CropPrices.CropPricesPage.constructor | Hackthon/Hackthon/src/app/dashboard/crop-prices/page.tsx:63 | the table starts unsorted |
| CropPrices.CropPricesPage.RequestSortClick | Hackthon/Hackthon/src/app/dashboard/crop-prices/page.tsx:81-87 | a header click stores the configuration `requestSort` computes |
| CropPrices.CropPricesPage.SortedCrops | Hackthon/Hackthon/src/app/dashboard/crop-prices/page.tsx:65-79 | the memo returns the reference sorted view of the list |
| CropPrices.HighestIsLastMax | Hackthon/Hackthon/src/app/dashboard/crop-prices/page.tsx:96 | the reduce picks a crop no other crop out-prices, the last of equal maxima |
| CropPrices.UniqueMaxIsHighest | Hackthon/Hackthon/src/app/dashboard/crop-prices/page.tsx:96 | a crop dearer than all others is the one the reduce picks |
| CropPrices.HighestIsCashew | Hackthon/Hackthon/src/app/dashboard/crop-prices/page.tsx:96 | in any sort order the best crop to sell is cashew at 700 |
| CropPrices.TrendsSpec | Hackthon/Hackthon/src/app/dashboard/crop-prices/page.tsx:170 | the trends card shows at most four crops, all moving, in list order, and all moving crops when there are at most four |
| CropPrices.InitialTrends | Hackthon/Hackthon/src/app/dashboard/crop-prices/page.tsx:170 | on the page's list the card shows rubber, pepper, banana and tapioca |
| Alerts.SeverityCaseInsensitive | Hackthon/Hackthon/src/app/dashboard/alerts/page.tsx:77-84 | the badge ignores case, and an unknown severity shows its own text |
| Alerts.FlowSeverityBadges | Hackthon/Hackthon/src/app/dashboard/alerts/page.tsx:77-84 | of the service's severities, only `Low` has no badge of its own |
| Alerts.DecorateSpec | Hackthon/Hackthon/src/app/dashboard/alerts/page.tsx:121-125 | each weather alert keeps its contents, is dated today and gets an id no other alert has |
| Alerts.MergeAlertsSpec | Hackthon/Hackthon/src/app/dashboard/alerts/page.tsx:136 | the list holds every alert of the three lists, newest first, same-day alerts in weather, pest, scheme order |
| Alerts.AlertsPage.constructor | Hackthon/Hackthon/src/app/dashboard/alerts/page.tsx:102-103 | the page starts loading with no weather alerts |
| Alerts.AlertsPage.FetchWeatherAlerts | Hackthon/Hackthon/src/app/dashboard/alerts/page.tsx:106-134 | without a profile nothing happens; otherwise the village's alerts replace the list, a failure keeps it, loading ends, and the empty message shows exactly when the list is empty |
| Dashboard.FarmerNameSpec | Hackthon/Hackthon/src/app/dashboard/page.tsx:56 | the greeting shows the name up to its first space, and the default when there is no profile or the name is empty or starts with a space |
| Dashboard.TPluralSpec | Hackthon/Hackthon/src/app/dashboard/page.tsx:58-61 | only a count of one takes the singular key, and the first `{count}` of the found text becomes the number |
| Dashboard.HighValueSpec | Hackthon/Hackthon/src/app/dashboard/page.tsx:133-135 | one ticker entry per crop worth selling, in list order; a crop is worth selling exactly when it rises or costs more than 100 |
| Dashboard.InitialHighValue | Hackthon/Hackthon/src/app/dashboard/page.tsx:133-134 | on the dashboard's list the crops worth selling are rubber, pepper and tapioca |
| Dashboard.InitialHighValueEntries | Hackthon/Hackthon/src/app/dashboard/page.tsx:133-135 | their entries read ` Rubber: ₹180/kg`, ` Pepper: ₹550/kg`, ` Tapioca: ₹35/kg` |
| Dashboard.InitialTicker | Hackthon/Hackthon/src/app/dashboard/page.tsx:133-137 | the ticker text the dashboard shows |
| Dashboard.TtsLanguage | Hackthon/Hackthon/src/app/dashboard/page.tsx:173 | English is read as en-US and Malayalam as ml-IN, and nothing else maps to either |
| Dashboard.AdvisoryTextInjective | Hackthon/Hackthon/src/app/dashboard/page.tsx:333 | for titles without a full stop, the text read aloud identifies its card |
| Dashboard.OnlyReadCardPulses | Hackthon/Hackthon/src/app/dashboard/page.tsx:364 | while a card's text is read, that card's microphone pulses and no other card's does |
| Dashboard.PressNeverStopsAsWritten | Hackthon/Hackthon/src/app/dashboard/page.tsx:361 | as written, every button is disabled while a card is read, so no press ever stops a reading |
| Dashboard.PressStopsIntended | Hackthon/Hackthon/src/app/dashboard/page.tsx:165-171 | with the card being read left enabled, pressing it stops, other cards are ignored, an idle press starts |
| Dashboard.ReadAloud.constructor | Hackthon/Hackthon/src/app/dashboard/page.tsx:53 | nothing is being read at first |
| Dashboard.ReadAloud.HandleReadAloud | Hackthon/Hackthon/src/app/dashboard/page.tsx:165-173 | the card being read stops; any other text starts and is requested in the session's language |
| Dashboard.ReadAloud.SpeechEnded | Hackthon/Hackthon/src/app/dashboard/page.tsx:176 | the end of playback stops the reading |
| Dashboard.ReadAloud.SpeechFailed | Hackthon/Hackthon/src/app/dashboard/page.tsx:177-185 | a failure shows the error toast and stops the reading |
| Advice.Toggle | Hackthon/Hackthon/src/app/dashboard/advice/page.tsx:398 | clicking the selected crop clears the selection; clicking any other crop selects exactly that crop |
| Advice.ToggleTwice | Hackthon/Hackthon/src/app/dashboard/advice/page.tsx:398 | two clicks on the same button restore the selection |
| Advice.EveryChoiceHasData | Hackthon/Hackthon/src/app/dashboard/advice/page.tsx:112-260 | every crop button has an advice entry, so "Data Not Available" never shows; an entry exists exactly when a crop is selected |
| Advice.AdvisorPage.constructor | Hackthon/Hackthon/src/app/dashboard/advice/page.tsx:367 | no crop is selected at first |
| Advice.AdvisorPage.Click | Hackthon/Hackthon/src/app/dashboard/advice/page.tsx:396-398 | the selection becomes the toggle of the clicked crop, stays one of the buttons' crops, and always has its advice entry |
| Advice.Dedup | Hackthon/Hackthon/src/app/dashboard/advice/page.tsx:376 | the set of values is kept exactly, each value once |
| Advice.DedupPrefix | Hackthon/Hackthon/src/app/dashboard/advice/page.tsx:376 | values keep the order of their first occurrence |
| Advice.SuitableSpec | Hackthon/Hackthon/src/app/dashboard/advice/page.tsx:582 | an unknown soil reads `N/A`; a known soil lists its table entry, never empty |
| Advice.RoadmapSeparators | Hackthon/Hackthon/src/app/dashboard/advice/page.tsx:448-459 | a roadmap of n stages shows 2n-1 items: the stages in order at even positions, a separator between each pair, n-1 in all |
| Advice.Soils | Hackthon/Hackthon/src/app/dashboard/advice/page.tsx:376 | the soil type of each parcel, in parcel order |
| Advice.SoilCards | Hackthon/Hackthon/src/app/dashboard/advice/page.tsx:372-376 | nothing is shown while loading or without a profile; otherwise one card per distinct soil type of the parcels, and no other |
| Chatbot.History | Hackthon/Hackthon/src/components/shared/chatbot.tsx:75-78 | one history entry per message, in order: the farmer's as `user`, every other as `model`, with its text |
| Chatbot.HistoryAfterExchange | Hackthon/Hackthon/src/components/shared/chatbot.tsx:70-94 | after an exchange the next history is the old one, then the farmer's text as `user`, then the reply as `model` |
| Chatbot.CanBeSavedIgnoresCase | Hackthon/Hackthon/src/components/shared/chatbot.tsx:92 | the save heuristic does not depend on the reply's case |
| Chatbot.WithoutGNotSaved | Hackthon/Hackthon/src/components/shared/chatbot.tsx:92 | a reply without the letter g is never offered for saving |
| Chatbot.LogReplySaved | Hackthon/Hackthon/src/components/shared/chatbot.tsx:92 | a reply saying `Log` is offered for saving |
| Chatbot.AvatarInitials | Hackthon/Hackthon/src/components/shared/chatbot.tsx:199 | the farmer's avatar shows `F` without a profile, otherwise the corrected initials of the profile's name, which are what the page's helper as written shows whenever the name has no leading, trailing or doubled space |
| Chatbot.ChatWindow.constructor | Hackthon/Hackthon/src/components/shared/chatbot.tsx:43-51 | the conversation opens with the greeting alone, an empty box, and nothing in flight |
| Chatbot.ChatWindow.Type | Hackthon/Hackthon/src/components/shared/chatbot.tsx:233 | typing replaces the box's text and nothing else |
| Chatbot.ChatWindow.Send | Hackthon/Hackthon/src/components/shared/chatbot.tsx:60-85 | for the text box, a quick reply or the microphone: a blank text or a send while responding changes nothing; otherwise the farmer's message is appended, the box cleared, and the request carries the conversation before it and the text |
| Chatbot.ChatWindow.Receive | Hackthon/Hackthon/src/components/shared/chatbot.tsx:87-107 | a reply is appended as the assistant's, flagged by the save heuristic; a failure removes the farmer's message, restoring the conversation the request was made from; responding ends |
| Chatbot.FirstExchange | Hackthon/Hackthon/src/components/shared/chatbot.tsx:43-107 | the first request sends the greeting as its history; the conversation ends with the reply, or is back to the greeting alone on failure |
| UserNav.AvatarUrl | Hackthon/Hackthon/src/components/dashboard/user-nav.tsx:44 | the profile's photo is shown when it has a non-empty one, the placeholder otherwise |
| UserNav.DisplaySpec | Hackthon/Hackthon/src/components/dashboard/user-nav.tsx:52-54 | the menu shows the profile's name and village when set, the labels otherwise, and never an empty line when the labels are not empty |
| UserNav.MenuInitials | Hackthon/Hackthon/src/components/dashboard/user-nav.tsx:30-45 | the menu's avatar shows `..` without a profile or a name with a word, otherwise the corrected initials of the name, which are what the page's helper as written shows whenever the name has no leading, trailing or doubled space |
| UserNav.SameInitialsAsChat | Hackthon/Hackthon/src/components/dashboard/user-nav.tsx:30-37 | the menu and the chat window show the same initials for a name with a word; only their fallbacks differ |
| UserNav.HandleLogout | Hackthon/Hackthon/src/components/dashboard/user-nav.tsx:25-28 | signing out drops the stored profile, clears the session and goes to the login page, keeping the language |
| NameInitials.Words | Hackthon/Hackthon/src/components/shared/chatbot.tsx:139 | the words of a name are non-empty and hold no space |
| NameInitials.Initials | Hackthon/Hackthon/src/components/shared/chatbot.tsx:137-144 | the fallback without a name or a word; the upper-cased first letters of the first and last word for several words; the first two characters of a single word, upper-cased |
| NameInitials.AgreeOnWellSpaced | Hackthon/Hackthon/src/components/shared/chatbot.tsx:137-144 | on names without empty pieces the helper as written and the intended one agree |
| NameInitials.TrailingSpaceAsWritten | Hackthon/Hackthon/src/components/shared/chatbot.tsx:139-141 | as written, `Ravi ` shows `RUNDEFINED` |
| NameInitials.TrailingSpaceIntended | Hackthon/Hackthon/src/components/shared/chatbot.tsx:137-144 | the intended initials of `Ravi ` are `RA` |
| NameInitials.OnlySpaces | Hackthon/Hackthon/src/components/dashboard/user-nav.tsx:30-36 | as written, a name of one space shows `UNDEFINEDUNDEFINED`; the intended helper falls back to `..` |
| PestCheck.ResultFor | Hackthon/Hackthon/src/app/dashboard/pest-check/page.tsx:90-101 | a history item's result names its problem; it is the detailed analysis exactly for the problem that has one, the placeholder texts otherwise |
| PestCheck.HistoryResults | Hackthon/Hackthon/src/app/dashboard/pest-check/page.tsx:88-101 | the first history item shows the detailed analysis, the second the placeholder for Brown Spot |
| PestCheck.ExactlyOnePanel | Hackthon/Hackthon/src/app/dashboard/pest-check/page.tsx:170-186 | the result column shows exactly one panel: the skeleton while analysing, else the result when there is one, else the prompt |
| PestCheck.PestCheckPage.constructor | Hackthon/Hackthon/src/app/dashboard/pest-check/page.tsx:40-42 | no photo, no analysis running, no result |
| PestCheck.PestCheckPage.ImageLoaded | Hackthon/Hackthon/src/app/dashboard/pest-check/page.tsx:46-56 | a loaded photo replaces the image and clears the result; no file changes nothing |
| PestCheck.PestCheckPage.AnalyzeClick | Hackthon/Hackthon/src/app/dashboard/pest-check/page.tsx:58-68 | without a photo only the error toast shows; with one the analysis starts |
| PestCheck.PestCheckPage.AnalysisDone | Hackthon/Hackthon/src/app/dashboard/pest-check/page.tsx:70-77 | the timer sets the detailed analysis, ends the analysis and shows the completion toast |
| PestCheck.PestCheckPage.Reset | Hackthon/Hackthon/src/app/dashboard/pest-check/page.tsx:80-86 | the photo and the result are cleared, a running analysis is not stopped |
| PestCheck.PestCheckPage.ViewHistory | Hackthon/Hackthon/src/app/dashboard/pest-check/page.tsx:88-103 | the item's photo and its result are shown |
| PestCheck.CheckPhoto | Hackthon/Hackthon/src/app/dashboard/pest-check/page.tsx:46-78 | while a photo is analysed the skeleton shows, then the detailed result |
| PestCheck.ResetWhileAnalyzing | Hackthon/Hackthon/src/app/dashboard/pest-check/page.tsx:68-86 | a reset during an analysis leaves no photo, yet the timer still shows the result |

## Left out

- The AI flows (`src/ai/flows/*`) are calls into a hosted model and are not modelled. The chat reply, the weather alerts and the speech request are parameters: the answer, or `None` when the call fails.
- Browser I/O is not modelled:
  - Storage is a map field.
  - `router.push` is recorded as a list of paths.
  - On the sign-in wizard, the read-aloud cards and the pest check, toasts are recorded by title or key, without their descriptions.
  - Toasts on the other pages are left out.
  - `FileReader` photo loading is a parameter holding the data URL.
  - Audio playback is left out.
  - `window.scrollTo` is left out.
  - Geolocation in the profile page (`handleDetectLocation`) is left out.
- Timers and asynchrony:
  - Each `setTimeout` delay is one atomic step: the login page's one-second delays, the activity page's save delay, the profile page's save delay and the pest check's two-second analysis.
  - React state batching and stale closures are not modelled. Each handler sees the state left by the previous step.
- Clock values are left out:
  - message ids and timestamps, and `Date.now` ids;
  - `toLocaleTimeString`.
  - Today's date is a parameter, as an ISO `YYYY-MM-DD` text.
- ActivityLog.ActivityPage.Submit: `new Date(date).toISOString()` is not modelled; its result, which depends on the time zone, is a parameter (`None` when it throws).
- Alerts.MergeAlertsSpec: the dates are compared as ISO texts, where the page compares `getTime()`. The two orders agree on well-formed ISO dates.
- Floating point:
  - Land area is a whole number of tenths of an acre.
  - Prices are whole rupees.
  - `toFixed` formatting is display only.
- ProfileJson.RoundTrip: the parser reads back exactly the texts the encoder writes. `JSON.parse` accepts any JSON text, and the page then uses whatever object it gets. The model fails on every text it did not write.
- Translation.TStatic: `$` patterns in replacement values are not modelled. Option values are taken literally. Indexing into a text leaf with a further key segment is treated as a missing segment. Options are a list of name and value pairs, which also admits repeated names; an object literal's keys are distinct and come in insertion order, a special case of it.
- Chatbot.AvatarInitials and UserNav.MenuInitials: both pages call `getInitials` as written, which shows `undefined` for an empty piece of a name with a leading, trailing or doubled space; the model shows the corrected initials there (see Findings) and agrees with the pages on every other name.
- Text.ToUpper and Text.ToLower: only ASCII letters are mapped. `substring` counts characters, not UTF-16 code units.
- Form validation by the form library (zod, react-hook-form) is not modelled. On the login page, whether the otp, newUser and newFarm fields pass is the parameter `fieldsValid`. On the profile page the declared constraints are predicates. On the activity page, `FormValid` states the schema's required fields.
- Translated labels are parameters or keys. This covers the greeting, the user menu's fallbacks and the dashboard's default name. The locale files are not part of this model, and the tables are arbitrary trees.
- UI-only state is not modelled:
  - the chat's recording flag and microphone toasts;
  - the "save as log" and speech buttons' toasts;
  - the activity dialog's `onOpenChange`;
  - all JSX, styling and icons.
- The advice texts, techniques and common mistakes are display only. The model keeps each entry's suitability flags and roadmap.

## Findings

| source | as written | input that shows it | evidently intended | confidence | as-written member | corrected member |
|---|---|---|---|---|---|---|
| Hackthon/Hackthon/src/components/shared/chatbot.tsx:139-141 | splitting on single spaces and reading `names[k][0]` gives `undefined` for an empty piece, and the template literal writes it out (same in user-nav.tsx:32-34) | the name `Ravi ` (trailing space) shows `RUNDEFINED` | the first letters of the first and last words, `RA` | not executed | NameInitials.TrailingSpaceAsWritten | NameInitials.TrailingSpaceIntended |
| Hackthon/Hackthon/src/app/dashboard/activity/page.tsx:252 | "Set Reminder" shows when the suggestion's trigger includes `reminder`, and no trigger does | logging a fertilizer application: its message offers a reminder, and no button appears | the button shows for the suggestion that offers a reminder | not executed | ActivityLog.ReminderNeverShownAsWritten | ActivityLog.ReminderShownForFertilizer |
| Hackthon/Hackthon/src/app/dashboard/page.tsx:361 | every read-aloud button is disabled while any card is read, so the stop branch of `handleReadAloud` (lines 166-170) cannot be reached | start reading a card, then press its button again: the button is disabled and the reading cannot be stopped | the card being read keeps its button enabled, and pressing it stops the reading | not executed | Dashboard.PressNeverStopsAsWritten | Dashboard.PressStopsIntended |
