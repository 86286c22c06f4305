# Elysium Hub — a verified model of the marketplace core

Elysium Hub is a single-page marketplace. Creators publish a profile
through a five-step form. Visitors browse the profiles, filtered by city and
gender, on cards with a photo carousel and on a full profile page. A
password-protected screen lists and deletes profiles. An adults-only gate
remembers its confirmation in the browser. The data sits in a hosted
database whose URL and key are read from the build environment.

This project models that core in Dafny, one module per source file:

- `Marketplace`: the discovery filter of `App.tsx`, its city, navigation and loading state, and the profile lookup.
- `Registration`: the form of `components/RegistrationPanel.tsx`, covering field updates, tag toggles, photo slots, the step counter and submission.
- `Card`: the carousel of `components/ProfileCard.tsx`.
- `ProfilePage`: what `components/ProfilePage.tsx` derives from a creator.
- `Stories`: the online strip of `components/Stories.tsx`.
- `SearchBar`: the displayed city and the city chips of `components/SearchBar.tsx`.
- `LocationFilter`: the state and city selects of `components/LocationFilter.tsx`.
- `AdminPanel`: login, loading and deletion in `components/AdminPanel.tsx`.
- `AgeVerification`: the gate of `components/AgeVerificationModal.tsx` and its key-value store.
- `CreatorService`: the row mapping and insert payload of `services/creatorService.ts`.
- `SupabaseEnv`: the environment lookup and client condition of `lib/supabase.ts`.

The shared modules are `Common` (optional values, results, and the
order-preserving filter used everywhere) and `Text` (the JavaScript string
operations the components rely on). `Types` holds the records of `types.ts`.

Some I/O is replaced by parameters:

- Each database reply, each web-service answer, each geolocation outcome and each confirmation dialog becomes a parameter.
- Each `Math.random()` draw becomes an integer parameter in the range `Math.floor` can produce.
- Each asynchronous handler is split into the part before its `await` and the part after it.
- A React state cell becomes a field of a class whose methods are the handlers.
- A value computed from props becomes a function.

The declared `Creator` type lacks `gender`, `description`
and `whatsapp`, which the components read. The model adds them as
optional fields, and the data service never fills them in.

## Model

| member | source | states |
|---|---|---|
| Common.IntOr | services/creatorService.ts:50 | `x \|\| d` on a number keeps a non-zero value and turns a missing or zero one into the default |
| Common.IntOrStable | services/creatorService.ts:50 | applying the same `\|\| d` fallback to its own result changes nothing |
| Common.Filter | App.tsx:63-72 | the filter result is no longer than the input, and each element passes the test and comes from the input |
| Common.FilterIsSubsequence | App.tsx:63-72 | the filter result is a subsequence of the input, so order is kept |
| Common.FilterCounts | App.tsx:63-72 | each passing element is kept as often as it occurs, and each failing one is dropped |
| Common.FilterMembership | App.tsx:63-72 | an element is in the result iff it is in the input and passes |
| Common.FilterAllPass | App.tsx:63-72 | a list whose elements all pass is returned unchanged |
| Common.FilterNonePass | App.tsx:63-72 | a list none of whose elements passes filters to the empty list |
| Common.FilterHead | components/RegistrationPanel.tsx:99-110 | the first element kept is the first element of the input that passes |
| Common.FilterIdempotent | App.tsx:63-72 | filtering twice with one test equals filtering once |
| Common.FilterAppend | components/RegistrationPanel.tsx:62-64 | filtering a concatenation is concatenating the filtered parts |
| Common.FilterSameTest | App.tsx:65-66 | two tests that agree on every element filter every list alike |
| Common.Take | components/Stories.tsx:10 | `slice(0, n)` is a prefix of length `min(n, length)` |
| Text.JsOr | App.tsx:65 | `a \|\| b` on nullable strings is `a` when it is non-empty, else `b` |
| Text.Lower | App.tsx:66 | definition of `toLowerCase` over the character map; it keeps the length, and its idempotence is `Text.LowerIdempotent` |
| Text.LowerIdempotent | App.tsx:66 | lower-casing twice is lower-casing once |
| Text.Includes | App.tsx:66 | definition of `includes`, trying each start position; its meaning is `Text.IncludesIff` |
| Text.IncludesIff | App.tsx:66 | `includes` holds exactly when the needle occurs at some position of the text |
| Text.OccursAtShift | App.tsx:66 | dropping the first character of the text moves every occurrence one position left |
| Text.LeadingWhitespace | components/RegistrationPanel.tsx:99 | `trim` strips the maximal whitespace run at the start |
| Text.TrailingWhitespace | components/RegistrationPanel.tsx:99 | `trim` strips the maximal whitespace run at the end |
| Text.Trim | components/RegistrationPanel.tsx:54 | definition of `trim()` from the two whitespace runs; its blank case is `Text.TrimBlankIff` |
| Text.TrimBlankIff | components/RegistrationPanel.tsx:99 | `trim()` gives `""` exactly when the text is whitespace only |
| Text.ReplaceWhitespace | services/creatorService.ts:49 | `replace(/\s/g, r)` keeps the length; the positions it rewrites are stated by `CreatorService.UsernameParts` |
| Text.DigitsOnly | components/ProfilePage.tsx:23 | definition of `replace(/\D/g, '')`; its contents are stated by `ProfilePage.WhatsAppNumberSpec` |
| Text.DigitValue | components/RegistrationPanel.tsx:108-109 | a decimal digit has its numeric value, a value is below the radix, and -1 comes exactly for a character that is no digit of the radix |
| Text.LeadingDigits | components/RegistrationPanel.tsx:108-109 | `parseInt` reads a prefix made only of digits of the radix, and the character after it, if any, is no such digit, so the prefix is the longest |
| Text.Decimal | services/creatorService.ts:49 | a template literal prints a non-negative integer as a non-empty string of decimal digits |
| Text.DecimalValue | services/creatorService.ts:49 | the printed digits have the printed number as their positional value |
| Text.LeadingDigitsOfDigits | components/RegistrationPanel.tsx:108-109 | on a text made only of decimal digits, `parseInt` reads the whole text |
| Text.ParseInt | components/RegistrationPanel.tsx:108-109 | definition of `parseInt`: leading whitespace, one sign, an optional `0x`, then the longest digit run; its round trip is `Text.ParseIntDecimal` |
| Text.ParseIntOfDigits | components/RegistrationPanel.tsx:108-109 | a non-empty run of decimal digits parses to its positional value |
| Text.ParseIntDecimal | components/RegistrationPanel.tsx:108-109 | `parseInt` reads back every non-negative integer as printed |
| Text.ParseIntEmpty | components/RegistrationPanel.tsx:108-109 | an empty input is not a number |
| Text.FirstWord | components/Stories.tsx:34 | `split(' ')[0]` is the prefix before the first space, and holds no space |
| CreatorService.RatingOr5 | services/creatorService.ts:33 | a missing or zero rating reads as 5, and any other rating is kept |
| CreatorService.FromRow | services/creatorService.ts:18-35 | every column is copied to its field, the three lists default to `[]`, the rating defaults to 5, the review count is the draw plus one in [1, 30], and gender, description and WhatsApp are absent |
| CreatorService.GetAll | services/creatorService.ts:6-40 | no client, a thrown or failed query, or null data all give `[]`; otherwise creator i is `FromRow` of row i, in order, so each column is copied, `base_rate`, `about_tags` and `services_tags` are renamed, lists default to `[]` and the rating to 5 |
| CreatorService.Username | services/creatorService.ts:49 | the user name starts with `@` and contains no whitespace |
| CreatorService.UsernameParts | services/creatorService.ts:49 | the user name is the lower-cased name with each whitespace character turned into `_`, then `_`, then a suffix that parses back to the number drawn |
| CreatorService.BuildPayload | services/creatorService.ts:47-62 | the payload copies name, phone, bio, avatar, city and area, has age `\|\| 18`, base rate `\|\| 0`, empty lists for missing ones, the generated user name, `online` true and rating 5 |
| CreatorService.Create | services/creatorService.ts:42-76 | without a client nothing is sent and the call throws; otherwise the payload is sent and the result is the inserted data, the missing-table error for `42P01`, or the database's error |
| CreatorService.DeleteAsWritten | components/AdminPanel.tsx:37 | the delete the screen calls does not exist, so it fails for every id |
| CreatorService.Delete | components/AdminPanel.tsx:36-38 | a delete succeeds exactly with a client and a database that accepts it |
| Marketplace.CityToFilter | App.tsx:65 | definition of `selectedCity \|\| detectedCity`; its fallback is `Marketplace.ClearedSelectionKeepsDetectedCity` |
| Marketplace.CityMatch | App.tsx:66 | definition of the city test; its meaning is `Marketplace.CityMatchIsContainment` |
| Marketplace.GenderMatch | App.tsx:69 | definition of the gender test; its meaning is `Marketplace.GenderIsStrict` |
| Marketplace.Shown | App.tsx:64-71 | definition: a creator is shown when it passes both tests |
| Marketplace.FilteredCreators | App.tsx:63-72 | definition of `filteredCreators`; its contents are `Marketplace.FilteredIsShownSubsequence` |
| Marketplace.FilteredIsShownSubsequence | App.tsx:63-72 | the grid is exactly the roster's subsequence of creators passing the city and gender tests |
| Marketplace.RefilterUnchanged | App.tsx:63-72 | filtering the filtered roster again changes nothing |
| Marketplace.NoCityShowsEveryone | App.tsx:65-66 | with neither a selected nor a detected city, and gender `Todos`, everyone is shown |
| Marketplace.CityMatchIsContainment | App.tsx:66 | an active city passes a creator exactly when the lower-cased filter occurs in the creator's lower-cased city; a creator without a city fails |
| Marketplace.PauloAdmitsSaoPaulo | App.tsx:66 | the filter "paulo" admits a creator from "São Paulo" |
| Marketplace.ClearedSelectionKeepsDetectedCity | App.tsx:65 | a null or empty selection falls back to the detected city, so the detected city's filter stays in force |
| Marketplace.GenderIsStrict | App.tsx:69 | any gender but `Todos` admits only creators with exactly that gender |
| Marketplace.LoadedRosterHasNoGenderMatch | App.tsx:69 | on a roster loaded from the service, any gender but `Todos` shows nobody |
| Marketplace.FirstWithId | App.tsx:140 | the search position is the first creator with the id, or the end |
| Marketplace.FindById | App.tsx:140 | `find` is empty iff no creator has the id, and otherwise gives the first one that does |
| Marketplace.App.constructor | App.tsx:13-21 | the initial state is the marketplace view, no creators, loading, no cities and gender `Todos` |
| Marketplace.App.ShownGrid | App.tsx:109-133 | the grid shows skeletons while loading, the filtered cards when there are any, and the empty message otherwise |
| Marketplace.App.Mount | App.tsx:23-31 | without a client the error shows and loading stops; with one a load starts; location detection starts either way |
| Marketplace.App.DetectLocation | App.tsx:45-47 | only a browser with geolocation raises `isLocating` |
| Marketplace.App.LocationFound | App.tsx:50-52 | a detection sets the detected city to "São Paulo", clears the selection and stops locating |
| Marketplace.App.LocationFailed | App.tsx:54 | a failed detection stops locating |
| Marketplace.App.ChangeCity | App.tsx:102 | the search bar's value becomes the selected city, and the gender stays `Todos` |
| Marketplace.App.BeginLoad | App.tsx:34 | a load raises the loading flag |
| Marketplace.App.CreatorsLoaded | App.tsx:36-41 | the loaded roster replaces the list and loading stops |
| Marketplace.App.SetView | App.tsx:58-61 | changing view drops the selected creator |
| Marketplace.App.OpenProfile | App.tsx:122 | a card click opens the profile view for that id |
| Marketplace.App.RenderProfile | App.tsx:139-144 | the profile shown is the first creator with the selected id; with none, the view reverts to the marketplace |
| Marketplace.DetectionFiltersByDetectedCity | App.tsx:50-51 | after a detection the grid filters by "São Paulo", whatever was selected before |
| Registration.InitialForm | components/RegistrationPanel.tsx:26-37 | the form starts empty, with four empty photo slots and no tags |
| Registration.WithField | components/RegistrationPanel.tsx:41-44 | an input change sets the named field and leaves every other part of the form untouched |
| Registration.ToggledTags | components/RegistrationPanel.tsx:61-64 | a present tag is removed and an absent one is appended at the end |
| Registration.ToggledTagsSpec | components/RegistrationPanel.tsx:61-64 | toggling is a symmetric difference on membership; removal drops every repetition of the tag and keeps the other tags' order and counts |
| Registration.ToggleAbsentTwice | components/RegistrationPanel.tsx:61-64 | toggling an absent tag twice restores the list |
| Registration.WithToggledTag | components/RegistrationPanel.tsx:59-67 | a toggle changes only the chosen tag list |
| Registration.CleanPhotos | components/RegistrationPanel.tsx:99 | every clean photo has non-blank text |
| Registration.CleanPhotosSpec | components/RegistrationPanel.tsx:99 | the clean photos are the non-blank slots, in slot order, each kept as often as it fills a slot, and every blank one dropped |
| Registration.CleanPhotosFirst | components/RegistrationPanel.tsx:99-110 | the first clean photo, which becomes the avatar, is the first non-blank slot |
| Registration.CleanPhotosEmptyIff | components/RegistrationPanel.tsx:99-100 | there is no clean photo exactly when every slot is blank |
| Registration.SubmittedAge | components/RegistrationPanel.tsx:108 | the age is the parsed number unless it is missing or zero, in which case it is 18 |
| Registration.SubmittedBaseRate | components/RegistrationPanel.tsx:109 | the rate is the parsed number, or 0 when the text is not a number |
| Registration.SubmittedNumbers | components/RegistrationPanel.tsx:108-109 | untouched inputs submit 18 and 0, and a typed number submits itself (age 0 gives 18) |
| Registration.SubmitInput | components/RegistrationPanel.tsx:106-112 | the creator sent has the parsed numbers, the clean photos, the first clean photo as avatar, and the form's name, phone, bio, city, area and tags |
| Registration.SubmitThroughCreate | components/RegistrationPanel.tsx:106-112 | the service's own fallbacks keep the form's age, rate, photos, avatar and tags in the inserted row |
| Registration.RegistrationPanel.constructor | components/RegistrationPanel.tsx:20-37 | the form starts at step 1, empty, with no save or request running |
| Registration.RegistrationPanel.HandleChange | components/RegistrationPanel.tsx:41-44 | the form becomes the form with that field set, and the step stays within [1, 5] with four slots |
| Registration.RegistrationPanel.ToggleTag | components/RegistrationPanel.tsx:59-67 | the form becomes the form with that tag toggled |
| Registration.RegistrationPanel.HandlePhotoChange | components/RegistrationPanel.tsx:69-73 | slot i takes the value, every other slot and field is unchanged, and there stay four slots |
| Registration.RegistrationPanel.Back | components/RegistrationPanel.tsx:309-310 | "back", disabled on step 1, moves one step down and stays within [1, 5] |
| Registration.RegistrationPanel.Next | components/RegistrationPanel.tsx:315-318 | "next", offered below step 5, moves one step up and stays within [1, 5] |
| Registration.RegistrationPanel.DetectLocation | components/RegistrationPanel.tsx:75-77 | only a browser with geolocation raises `isLocating` |
| Registration.RegistrationPanel.LocationGranted | components/RegistrationPanel.tsx:79-85 | a granted request fills in "São Paulo" and "Bela Vista" and stops locating |
| Registration.RegistrationPanel.LocationDenied | components/RegistrationPanel.tsx:87-90 | a denied request stops locating |
| Registration.RegistrationPanel.BeginAiBio | components/RegistrationPanel.tsx:46-51 | generation starts iff the name is non-empty and some about-tag is chosen |
| Registration.RegistrationPanel.FinishAiBio | components/RegistrationPanel.tsx:52-56 | a non-empty text becomes the bio, trimmed; generation stops either way |
| Registration.RegistrationPanel.BeginSubmit | components/RegistrationPanel.tsx:95-112 | nothing happens while saving; with no clean photo nothing is sent and saving stops; otherwise the submitted creator is sent |
| Registration.RegistrationPanel.FinishSubmit | components/RegistrationPanel.tsx:113-122 | success shows the confirmation, and saving stops either way |
| Card.DisplayPhotos | components/ProfileCard.tsx:12 | the photos are the creator's list when it is non-empty, else `[avatar]`, so never empty |
| Card.NextIndex | components/ProfileCard.tsx:16 | "next" maps i to i+1 and the last index to 0, staying in [0, n) |
| Card.PrevIndex | components/ProfileCard.tsx:21 | "prev" maps i to i-1 and 0 to the last index, staying in [0, n) |
| Card.ArrowsAreInverse | components/ProfileCard.tsx:16-21 | "next" then "prev", or "prev" then "next", returns the original index; with one photo the index stays 0 |
| Card.NextTimes | components/ProfileCard.tsx:16 | any number of "next" presses stays in [0, n) |
| Card.NextTimesClimbs | components/ProfileCard.tsx:16 | below the last photo each press moves one place on |
| Card.NextTimesCompose | components/ProfileCard.tsx:16 | a presses then b presses equal a+b presses |
| Card.FullCycle | components/ProfileCard.tsx:16 | n presses of "next" return to the starting photo |
| Card.ProfileCard.constructor | components/ProfileCard.tsx:11-12 | a card starts on photo 0 of its display photos |
| Card.ProfileCard.NextPhoto | components/ProfileCard.tsx:14-17 | "next" moves the index by `NextIndex` and keeps it on a photo |
| Card.ProfileCard.PrevPhoto | components/ProfileCard.tsx:19-22 | "prev" moves the index by `PrevIndex` and keeps it on a photo |
| Card.ProfileCard.ShownPhoto | components/ProfileCard.tsx:38 | the photo on display is one of the card's photos |
| Card.ProfileCard.ShowArrows | components/ProfileCard.tsx:44 | definition: the arrows are drawn only with more than one photo |
| Card.ProfileCard.Dots | components/ProfileCard.tsx:63-66 | there is one dot per photo, and exactly the dot at the index is active |
| ProfilePage.PageBaseRate | components/ProfilePage.tsx:12 | the page's rate is the creator's rate, or 0 when it is missing |
| ProfilePage.RoundTenths | components/ProfilePage.tsx:17-20 | `Math.round` gives the integer within half a unit, rounding halves up |
| ProfilePage.PriceList | components/ProfilePage.tsx:15-21 | the table has five entries, and the first is the base rate for one hour |
| ProfilePage.PriceListValues | components/ProfilePage.tsx:15-21 | for an integral rate b the prices are b, ⌊(18b+5)/10⌋, 4b, 8b and 14b |
| ProfilePage.PricesNonDecreasing | components/ProfilePage.tsx:15-21 | for a non-negative rate the prices never decrease down the table |
| ProfilePage.WhatsAppNumber | components/ProfilePage.tsx:23 | the link's number holds only digits, or is `undefined` when there is no number |
| ProfilePage.WhatsAppNumberSpec | components/ProfilePage.tsx:23 | the number is exactly the stored number's digits, in order and with their counts, and stripping again changes nothing |
| ProfilePage.WhatsAppLink | components/ProfilePage.tsx:23 | the link starts with `https://wa.me/` followed by the number |
| ProfilePage.LoadedLinkIsUndefined | components/ProfilePage.tsx:23 | for every creator loaded from the service, the link points at `wa.me/undefined` |
| ProfilePage.Thumbnail | components/ProfilePage.tsx:52-60 | a side thumbnail is photo 1 or 2 when present and non-empty, else photo 0 |
| ProfilePage.OverflowBadge | components/ProfilePage.tsx:63-65 | the badge shows iff there are more than three photos, and reads the count minus 2 |
| ProfilePage.GalleryFromDisplayPhotos | components/ProfilePage.tsx:11 | every gallery image is a display photo; a creator without photos shows only the avatar and no badge |
| ProfilePage.Description | components/ProfilePage.tsx:104 | the text is the description, else the bio, else the placeholder, and is never empty |
| ProfilePage.LoadedCreatorShowsBio | components/ProfilePage.tsx:104 | a creator loaded from the service shows its bio, or the placeholder |
| Stories.Strip | components/Stories.tsx:10 | the strip holds at most 15 creators, all online and all from the roster |
| Stories.StripIsFirstOnline | components/Stories.tsx:10 | the strip is a prefix of the online creators in roster order, cut only at the cap |
| Stories.StripEmptyIff | components/Stories.tsx:10-12 | nothing is rendered exactly when no creator is online |
| Stories.Label | components/Stories.tsx:34 | the label is the name up to its first space |
| SearchBar.CurrentCity | components/SearchBar.tsx:31 | definition of `selectedCity \|\| detectedCity`; the text it shows is `SearchBar.InputValue` |
| SearchBar.InputValue | components/SearchBar.tsx:31-43 | the input shows the selected city if it is non-empty, else the detected city if that is non-empty, else `""` |
| SearchBar.ClearedInputShowsDetectedCity | components/SearchBar.tsx:44 | typing emits the raw text, so clearing the input shows the detected city, as "Brasil" does |
| SearchBar.Chips | components/SearchBar.tsx:74-88 | the chips are "Brasil" followed by the popular cities in table order |
| SearchBar.ChipEmits | components/SearchBar.tsx:75-83 | "Brasil" emits null, and a city chip emits its own name |
| SearchBar.ChipHighlighted | components/SearchBar.tsx:76-84 | definition of the highlight test; that at most one chip is lit is `SearchBar.AtMostOneHighlighted` |
| SearchBar.PopularCitiesDistinct | components/SearchBar.tsx:13-21 | the seven popular cities are distinct |
| SearchBar.AtMostOneHighlighted | components/SearchBar.tsx:76-84 | at most one chip is highlighted at any time |
| SearchBar.ClickedChipHighlighted | components/SearchBar.tsx:75-84 | the selection a chip emits highlights that chip and no other |
| LocationFilter.Emission | components/LocationFilter.tsx:63 | a city choice emits null exactly for `""`, and otherwise the city |
| LocationFilter.CityOptions | components/LocationFilter.tsx:93-96 | the city select offers the empty placeholder, then each listed city's name |
| LocationFilter.LocationFilter.constructor | components/LocationFilter.tsx:20-24 | the selects start empty, nothing is loading, and nothing has been emitted |
| LocationFilter.LocationFilter.UfsFetched | components/LocationFilter.tsx:30 | the fetched states replace the list |
| LocationFilter.LocationFilter.CitySelectDisabled | components/LocationFilter.tsx:90 | definition: the city select is disabled with no state chosen or while cities load; `LocationFilter.ChooseStateThenCity` shows it enabled again |
| LocationFilter.LocationFilter.HandleUfChange | components/LocationFilter.tsx:35-58 | a state change sets the state, clears the city and emits null; a changed empty state clears the cities and starts no fetch; a changed non-empty one starts a fetch and raises loading |
| LocationFilter.LocationFilter.CitiesFetched | components/LocationFilter.tsx:44-47 | a successful fetch replaces the cities and lowers loading |
| LocationFilter.LocationFilter.CitiesFetchFailed | components/LocationFilter.tsx:48-51 | a failed fetch lowers loading |
| LocationFilter.LocationFilter.HandleCityChange | components/LocationFilter.tsx:60-64 | the chosen city is stored and emitted, as null for `""`; the last emission always matches the selected city |
| LocationFilter.ChooseStateThenCity | components/LocationFilter.tsx:54-64 | choosing a state and then one of its cities emits that city and leaves the select enabled |
| AdminPanel.WithoutId | components/AdminPanel.tsx:38 | no creator left has the deleted id |
| AdminPanel.WithoutIdSpec | components/AdminPanel.tsx:38 | the remaining creators are the others, in order and with their counts |
| AdminPanel.WithoutAbsentId | components/AdminPanel.tsx:38 | deleting an absent id leaves the list unchanged |
| AdminPanel.WithoutIdTwice | components/AdminPanel.tsx:38 | deleting the same id twice equals deleting it once |
| AdminPanel.AfterDelete | components/AdminPanel.tsx:34-42 | a declined dialog or a failed call leaves the list; a confirmed, resolved delete removes the id |
| AdminPanel.DeleteAsWrittenKeepsRoster | components/AdminPanel.tsx:37-38 | as written, a confirmed delete of a listed creator never removes it |
| AdminPanel.AdminPanel.constructor | components/AdminPanel.tsx:7-10 | the screen starts unauthenticated, with an empty password and list, and nothing loading |
| AdminPanel.AdminPanel.SetPassword | components/AdminPanel.tsx:57 | typing sets the password |
| AdminPanel.AdminPanel.HandleLogin | components/AdminPanel.tsx:25-32 | authentication becomes true iff the password is "admin123", and exactly then the load starts |
| AdminPanel.AdminPanel.RosterLoaded | components/AdminPanel.tsx:18-22 | the loaded list replaces the roster, and only after authentication |
| AdminPanel.AdminPanel.HandleDelete | components/AdminPanel.tsx:34-43 | the corrected handler (see Findings): the list becomes `AfterDelete` of the dialog's answer and the result of the intended service delete; the handler as written never changes the list (`AdminPanel.DeleteAsWrittenKeepsRoster`) |
| AdminPanel.ConfirmedDeleteRemoves | components/AdminPanel.tsx:34-43 | a confirmed delete that the database accepts removes the creator and keeps the order; a refused one keeps the list |
| AgeVerification.Lookup | components/AgeVerificationModal.tsx:7 | `getItem` gives the stored value, or null for a missing key |
| AgeVerification.ConfirmationSticks | components/AgeVerificationModal.tsx:13-16 | after a confirmation is stored the gate is never visible, and storing it twice equals storing it once |
| AgeVerification.Storage.GetItem | components/AgeVerificationModal.tsx:7 | reading gives a value exactly for a stored key, and then the value stored under it |
| AgeVerification.Storage.SetItem | components/AgeVerificationModal.tsx:14 | writing a key changes that key only |
| AgeVerification.AgeVerificationModal.constructor | components/AgeVerificationModal.tsx:4 | the first render is hidden |
| AgeVerification.AgeVerificationModal.Mount | components/AgeVerificationModal.tsx:6-11 | on mount the gate shows iff the stored flag is missing or empty |
| AgeVerification.AgeVerificationModal.HandleConfirm | components/AgeVerificationModal.tsx:13-16 | confirming stores "true" under the key and hides the gate |
| AgeVerification.AgeVerificationModal.Renders | components/AgeVerificationModal.tsx:22 | definition: the modal renders only while visible |
| AgeVerification.ConfirmThenRemount | components/AgeVerificationModal.tsx:6-16 | a fresh mount on the storage a confirmation wrote stays hidden |
| SupabaseEnv.GetEnvVar | lib/supabase.ts:8-36 | a non-empty result is the value of the `VITE_` name or the bare name in one of the three places |
| SupabaseEnv.FirstValue | lib/supabase.ts:14-16 | within one place, the value of the first name whose value is non-empty, or none when every value is missing or empty |
| SupabaseEnv.FirstValueOfTwo | lib/supabase.ts:15-16 | with two names, the first is tried before the second |
| SupabaseEnv.GetEnvVarIsSearch | lib/supabase.ts:8-36 | the chain of early returns is the ordered search over `import.meta.env`, `process.env` and `window.env`, with the `VITE_` name first |
| SupabaseEnv.SearchStep | lib/supabase.ts:13-30 | one place of the search: a throw ends it, a found value ends it, anything else moves on |
| SupabaseEnv.ViteNameFirst | lib/supabase.ts:15-16 | within a place, a non-empty `VITE_` value beats the bare name |
| SupabaseEnv.EarlierPlaceWins | lib/supabase.ts:13-30 | a value found in an earlier place beats every later place |
| SupabaseEnv.EmptyValueSkipped | lib/supabase.ts:15 | an empty value counts as no value at all |
| SupabaseEnv.NotFoundIsEmpty | lib/supabase.ts:31-35 | finding nothing, or the first place throwing, gives `""` |
| SupabaseEnv.ClientPresent | lib/supabase.ts:42-44 | definition: a client is created exactly when both the URL and the key are non-empty |
| SupabaseEnv.Configured | lib/supabase.ts:38-44 | definition: the client condition applied to the two looked-up values, whose lookup is `SupabaseEnv.GetEnvVarIsSearch` |
| SupabaseEnv.MissingVariables | lib/supabase.ts:46-49 | without a client, `missing` names the URL variable and then the key variable, each exactly when empty, and is never empty |

## Left out

- Rendering, CSS, `alert`, `window.scrollTo`, `window.location` and the `setTimeout` delays are left out. They are presentation and browser side effects; each handler's state change is modelled without its delay.
- The database queries and inserts, the state and city web service, `createClient` and geolocation are left out. They are network and browser I/O; their outcomes enter as parameters.
- `services/aiService.ts` is not part of this model; the generated bio enters as a parameter.
- `components/Dashboard.tsx`, `components/Header.tsx` and `constants.tsx` are not part of this model. They hold display figures, forwarded clicks and a static table.
- `Math.random` is left out; each draw is a parameter in the range it can take.
- Text.LowerChar maps only ASCII A-Z and the Latin-1 capitals À-Þ (not ×) to lower case. JavaScript's full Unicode case mapping is left out.
- Text.ParseInt reads integers only. The model's numbers are integers, so `parseInt` on a fraction reads its integer part, as JavaScript does, but floating-point values are not modelled.
- ProfilePage.PriceList models the rate as an integer and `Math.round(b * 1.8)` as exact decimal arithmetic. Floating-point rounding of very large rates is not modelled.
- CreatorService.RatingOr5 treats the rating as an exact real number, not a floating-point value.
- LocationFilter.LocationFilter.CitiesFetched applies an answer whenever it arrives. The model does not tie it to the state that requested it, matching the source, which applies a late answer for an earlier state too.
- The gender filter cannot be driven from the search bar. It declares no gender callback, so the model's App keeps the gender at `Todos` as an invariant. The filter lemmas still cover every gender.
- `location_lat` and `location_lng` are declared in `types.ts` but never read, so they are left out.
- The React effect scheduling is modelled by running each effect at the end of the handler that changes its dependency.

## Findings

| source | as written | input that shows it | evidently intended | confidence | as-written member | corrected member |
|---|---|---|---|---|---|---|
| components/AdminPanel.tsx:37 | `handleDelete` awaits `creatorService.delete(id)`, but the service object defines only `getAll` and `create`, so the call throws a `TypeError`, the error branch runs and the roster never changes | any confirmed delete of a listed creator, e.g. the first row of a loaded roster | the service deletes the row, and the screen (the corrected `AdminPanel.AdminPanel.HandleDelete`, over `CreatorService.Delete`) removes every entry with that id, keeping the rest in order | high, not executed | AdminPanel.DeleteAsWrittenKeepsRoster | AdminPanel.ConfirmedDeleteRemoves |
