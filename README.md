# WonderRoute, modelled in Dafny

WonderRoute plans a day out in London for a group of friends. The user
marks where each friend starts and which areas they want to visit, sets
preferences (times, budget, travel mode, interests) and, optionally,
traveller personas. From these the app builds a prompt for a language
model, reads the model's reply (a fenced JSON block or plain text) and
shows the itinerary as a timeline. This project models the deterministic
core of that flow and proves what it promises:

- `Prompt` (prompt.dfy) is `constructPrompt`, which exists twice: once in the Express server and once in the browser's Gemini service. A `Copy` argument selects the copy. The friends section has one numbered line per friend, and the visits section works the same way. Placeholders replace empty lists. `travelMode` defaults to `walking`, and missing interests read as nothing. The personas slot appears only when there are personas. The server copy equals the browser copy except for a full stop that ends item 9 and three more requirement lines, inserted just before the JSON schema.
- `Reply` (reply.dfy) is the reading of the reply with ```` /```json\n([\s\S]*?)\n```/ ````. `FindBlock` finds the leftmost opening fence and the first closing fence after it. The lemmas show this is the leftmost match with the shortest capture. A missing block, an empty capture or a parse error each give `{itinerary: <raw text>, format: "text"}`.
- `Gemini` (gemini.dfy) covers the itinerary, caption and trivia calls, in the browser and on the server. It includes their failure messages and fallbacks.
- `MockApi` (mock_api.dfy) is the `mockApiCall` template. It uses `||` defaults for an empty join and `?.name` on a missing first or last element. The `coffee` flag is ignored.
- `PersonaInput` (persona_input.dfy) is a class holding the persona list, the next id and the active id. It has `addPersona`, `removePersona`, `updatePersona`, avatar selection and `getActivePersona`. Its invariant: the list is never empty, ids are distinct and below the next id, and the active id names a persona.
- `AppState` (app_state.dfy) is a class for the `App` component's six state cells and its handlers.
- `Timeline` (timeline.dfy) covers what `TimelineView` decides:
  - the activity icon, by priority;
  - the cost label;
  - the restaurant test, which drives the rating and the "Sponsored" chip;
  - the "Map" chip and the "Photo Spot" chip;
  - what drawing an item without an activity does as written (it fails), beside the corrected screen;
  - the choice between its three screens.
- `TripPlanner` (trip_planner.dfy) is the London trip planner's form. It holds a travel mode from two radio buttons and an insertion-ordered object of interest flags. The selected keys come out in key order.
- `Text` (text.dfy) holds the string operations the JavaScript relies on: `includes`, `indexOf`, `join`, `split` on one character, `toLowerCase`, and integer rendering in template literals. `Trip` (trip.dfy) holds the shared records. `Wrappers` (wrappers.dfy) holds `Option` and `Result`.

External inputs are parameters:
- The model is a function from prompt to reply, and a reply is either the reply text or a failed call.
- `JSON.parse` is an oracle `string -> Option<J>`, where `None` stands for a thrown error.
- The formatted current date is a string argument.
- The random rating draw is a number, reduced modulo the list's length.
- Coordinates are kept as the text a template literal renders for them.

The long fixed texts of both templates are held in `Wording` records. Every lemma about a rendered prompt or the mock itinerary is stated for any wording. It therefore holds for the concrete wording of the source (`Prompt.BrowserWording`, `Prompt.ServerWording`, `MockApi.MockWording`); those constants hold the source's texts character for character.

## Model

| member | source | states |
|---|---|---|
| Prompt.PlaceLines | wonder-route/server/server.js:108-114 | one line per place, line k (from 1) being `Friend k: name (lat, lng)` or `Location k: …` for place k, in input order |
| Prompt.PlaceSectionLines | wonder-route/server/server.js:108-115 | a non-empty list gives its numbered lines joined by line breaks: splitting the section at line breaks gives back exactly those lines |
| Prompt.NoFriendsPlaceholder | wonder-route/server/server.js:108-110 | no friends gives exactly "No specific friend locations provided" |
| Prompt.FriendLines | wonder-route/server/server.js:108-109 | with friends, the section is one `Friend k: …` line per friend, in order |
| Prompt.NoVisitsPlaceholder | wonder-route/server/server.js:113-115 | no visits gives exactly "No specific areas to visit provided" |
| Prompt.VisitLines | wonder-route/server/server.js:113-114 | with visits, the section is one `Location k: …` line per visit, in order |
| Prompt.PreferencesLines | wonder-route/server/server.js:118-154 | the preferences block has six lines in fixed order; a missing travel mode reads `walking`, missing interests read as nothing, present interests are joined with ", " |
| Prompt.DefaultTravelModeShown | wonder-route/server/server.js:118 | an undefined travel mode is printed as "- Travel mode: walking" |
| Prompt.PersonaGroups | wonder-route/server/server.js:122-123 | one four-line group per persona, numbered from 1 in input order |
| Prompt.PersonaLinesSingle | wonder-route/server/server.js:123 | no line of a persona block holds a line break when the persona's budget and interests hold none |
| Prompt.BlankSeparatedLength | wonder-route/server/server.js:124 | n four-line groups separated by blank lines make 5n-1 lines |
| Prompt.PersonasTextLines | wonder-route/server/server.js:121-125 | the personas text holds one four-line block per persona, in order, with a blank line between blocks: `5n-1` lines in all |
| Prompt.NoPersonasSlot | wonder-route/server/server.js:156 | without personas the slot is empty, so the placeholder "No specific personas provided" never reaches the prompt |
| Prompt.PersonasSlotHeader | wonder-route/server/server.js:156 | with personas the slot opens with "PERSONAS OF TRAVELERS:\n" |
| Prompt.IntroMentionsDate | wonder-route/server/server.js:136-141 | the opening of the prompt holds "Today is <date>." |
| Prompt.PromptSections | wonder-route/server/server.js:136-158 | the prompt starts with the opening that holds the date line; after that opening come the starting locations, the areas to visit and the preferences, in that order; the personas slot comes right before the requirements; the schema skeleton and closing sentence end the prompt |
| Prompt.PromptDefaultTravelMode | wonder-route/server/server.js:118-153 | a prompt for preferences without travel mode contains "- Travel mode: walking" |
| Prompt.Assemble | wonder-route/server/server.js:136-198 | no contract of its own: the filled-in template literal for any fixed texts; PromptSections, PromptDefaultTravelMode and RequirementsInsertion state what it holds and how its parts are ordered |
| Prompt.ConstructPrompt | wonder-route/server/server.js:106-199 | no contract of its own: `constructPrompt` for either copy, with `personas` defaulting to the empty list; the section lemmas and PromptSections state its content |
| Prompt.PromptFor | wonder-route/server/server.js:21-25 | no contract of its own: the prompt a request's payload gives; ServerWordingExtendsBrowser and RequirementsInsertion relate the server prompt to the browser prompt |
| Prompt.ServerWordingExtendsBrowser | wonder-route/server/server.js:158-173 | the server copy's fixed texts are the browser copy's with the extra requirement lines appended to the list, and nothing else differs |
| Prompt.RequirementsInsertion | wonder-route/src/services/geminiService.js:99-113 | lengthening the requirements inserts the extra text just before the JSON schema skeleton and changes nothing else, so the server prompt is the browser prompt with a full stop and three requirement lines inserted |
| Reply.FindBlock | wonder-route/server/server.js:34 | the block found is a match of the pattern, and no match starts earlier or, at the same start, ends earlier; none is found iff the pattern has no match |
| Reply.Capture | wonder-route/server/server.js:35-36 | no contract of its own: the text of the capture group of a match; CaptureAvoidsCloser and FindsLaidOutBlock state what it is |
| Reply.Classify | wonder-route/server/server.js:34-49 | the result is parsed iff there is a match whose capture is non-empty and parses, and then it is that parse; otherwise it is the raw reply in text format |
| Reply.CaptureAvoidsCloser | wonder-route/server/server.js:34 | the capture never contains the closing fence (the lazy group stops at the first one) |
| Reply.NoFenceGivesText | wonder-route/server/server.js:37-43 | a reply without an opening fence is returned whole in text format |
| Reply.MatchIsFound | wonder-route/server/server.js:34 | a match with no opening fence before it and no closing fence inside its capture is exactly the one found |
| Reply.FindsLaidOutBlock | wonder-route/server/server.js:34-36 | in `before + fence + content + fence + after`, with no fence inside `before` or `content`, the block found is that one and its capture is `content` |
| Reply.ClassifyLaidOut | wonder-route/server/server.js:35-49 | such a reply parses to `parse(content)` when `content` is non-empty and parses, and is the whole text otherwise; a parse error gives the same text result as no block |
| Reply.EmptyFirstBlockGivesText | wonder-route/server/server.js:35 | an empty first block (a falsy capture) makes the whole reply text, even if a later block holds JSON |
| Gemini.Handle | wonder-route/src/services/geminiService.js:17-43 | a failed call is the failure with its message and only then; a text result is the reply text unchanged; a parsed result is a non-empty capture that parses |
| Gemini.GenerateItinerary | wonder-route/src/services/geminiService.js:7-44 | no contract of its own: the browser prompt of the payload goes to the model and the reply goes through Handle, whose contract states the result |
| Gemini.ServerItinerary | wonder-route/server/server.js:16-55 | no contract of its own: the server prompt of the payload goes to the model and the reply goes through Handle, whose contract states the result |
| Gemini.UnfencedReplyIsText | wonder-route/src/services/geminiService.js:26-31 | a reply without a fence comes back in text format, whole |
| Gemini.FencedReply | wonder-route/src/services/geminiService.js:23-38 | a laid-out fenced reply is its content's parse, or the whole text when the content is empty or does not parse |
| Gemini.HandlersAgree | wonder-route/server/server.js:32-53 | the browser and the server read every reply the same way, and their failures differ only in the message |
| Gemini.Answer | wonder-route/src/services/geminiService.js:155-159 | the reply text on success, the fallback on a failed call |
| Gemini.CaptionPromptNames | wonder-route/src/services/geminiService.js:144-153 | the caption prompt holds the location followed by `" in London.\nActivity: ` and the activity |
| Gemini.TriviaPromptNames | wonder-route/src/services/geminiService.js:168-175 | the trivia prompt holds the location followed by the closing quote and its rules |
| Gemini.GenerateCaption | wonder-route/src/services/geminiService.js:140-161 | the caption is the reply text, or "Exploring the wonders of London! #LondonCalling" when the call fails |
| Gemini.GenerateTrivia | wonder-route/src/services/geminiService.js:164-183 | the fact is the reply text, or "An interesting fact about this location..." when the call fails |
| Gemini.ServerCaption | wonder-route/server/server.js:63-79 | success iff the call replied, carrying its text; otherwise the error "Failed to generate caption" |
| Gemini.ServerTrivia | wonder-route/server/server.js:88-102 | success iff the call replied, carrying its text; otherwise the error "Failed to generate trivia" |
| Gemini.CaptionMatchesServer | wonder-route/src/services/geminiService.js:155-159 | the browser's caption is the server's `caption`, or the fallback where the server fails |
| Gemini.TriviaMatchesServer | wonder-route/src/services/geminiService.js:177-181 | the browser's fact is the server's `trivia`, or the fallback where the server fails |
| MockApi.OrElse | wonder-route/src/api.js:8 | `text \|\| fallback` on a string: the text unless it is empty |
| MockApi.Names | wonder-route/src/api.js:8-9 | the names of the places, one per place, in order |
| MockApi.FirstName | wonder-route/src/api.js:23 | `places[0]?.name \|\| fallback`: the fallback for no place or an empty first name |
| MockApi.LastName | wonder-route/src/api.js:29 | `places[places.length - 1]?.name \|\| fallback`, likewise for the last place |
| MockApi.FriendNamesFallback | wonder-route/src/api.js:8 | the friends' names are their join, or "your friends" exactly when the join is empty: no friend, or one friend with an empty name |
| MockApi.VisitNamesFallback | wonder-route/src/api.js:9 | likewise for the visits and "the recommended areas" |
| MockApi.Render | wonder-route/src/api.js:15-34 | no contract of its own: the template filled in with any fixed texts; RenderContains and the Mock lemmas below state what it holds |
| MockApi.MockItinerary | wonder-route/src/api.js:3-38 | no contract of its own: the text `mockApiCall` resolves to, which is Render with the source's texts; the Mock lemmas below state what it holds |
| MockApi.RenderContains | wonder-route/src/api.js:15-34 | the itinerary holds every run of consecutive template pieces |
| MockApi.MockHeader | wonder-route/src/api.js:18-19 | the header shows "start - end" and "**Budget:** budget" |
| MockApi.MockMeetUp | wonder-route/src/api.js:23 | the meet-up step names the first friend, or "the first friend's location" when there is none or the name is empty |
| MockApi.MockCoffeeStep | wonder-route/src/api.js:25 | the coffee step is always there and names the first visit or "your first destination" |
| MockApi.CoffeeFlagIgnored | wonder-route/src/api.js:10-34 | the `coffee` flag does not change the text |
| MockApi.MockMainActivity | wonder-route/src/api.js:27 | the main activity names the joined visits or their fallback |
| MockApi.MockLunch | wonder-route/src/api.js:29 | with `food`, a `budget`-friendly restaurant in the last visit (or "area you are visiting"); without it, the snack sentence |
| MockApi.MockWrapUp | wonder-route/src/api.js:31 | the wrap-up repeats the end time and the friends' names |
| PersonaInput.NewPersona | wonder-route/src/components/PersonaInput.js:73-80 | the new persona has the fresh id and no interests |
| PersonaInput.NewPersonaName | wonder-route/src/components/PersonaInput.js:75 | its name is "Traveler " followed by the id in decimal, which reads back as the id |
| PersonaInput.RemoveId | wonder-route/src/components/PersonaInput.js:92 | a removal never lengthens the list |
| PersonaInput.RemoveIdMembers | wonder-route/src/components/PersonaInput.js:92 | what survives are exactly the personas with another id |
| PersonaInput.RemoveIdAppend | wonder-route/src/components/PersonaInput.js:92 | the filter keeps order: it distributes over concatenation |
| PersonaInput.RemoveAbsentId | wonder-route/src/components/PersonaInput.js:92 | removing an id nobody has changes nothing |
| PersonaInput.RemoveIdAt | wonder-route/src/components/PersonaInput.js:92 | with distinct ids, removing the id of the persona at position k removes exactly that position, keeping the others in order |
| PersonaInput.RemoveIdDistinct | wonder-route/src/components/PersonaInput.js:92 | removal keeps ids distinct |
| PersonaInput.RemoveIdKeepsBelow | wonder-route/src/components/PersonaInput.js:92 | removal keeps every id below the next id |
| PersonaInput.RemoveIdKeepsOthers | wonder-route/src/components/PersonaInput.js:92-98 | every other id present stays present, so an active persona that was not removed stays valid |
| PersonaInput.RemoveIdLeavesOne | wonder-route/src/components/PersonaInput.js:90-97 | with two or more personas with distinct ids a removal leaves at least one, so `newPersonas[0]` exists |
| PersonaInput.Apply | wonder-route/src/components/PersonaInput.js:105 | an edit never changes the id |
| PersonaInput.UpdateId | wonder-route/src/components/PersonaInput.js:103-108 | same length; a persona with the id gets the edit, every other persona is unchanged |
| PersonaInput.UpdateIdFrame | wonder-route/src/components/PersonaInput.js:103-108 | only the edited field of the matching personas changes, and it takes the new value |
| PersonaInput.UpdateIdKeepsIds | wonder-route/src/components/PersonaInput.js:103-108 | an update keeps ids distinct, below the next id, and every id present |
| PersonaInput.FindIndex | wonder-route/src/components/PersonaInput.js:113 | `find`: the first position with the id, or none when no persona has it |
| PersonaInput.ActiveOf | wonder-route/src/components/PersonaInput.js:113 | `find(...) \|\| personas[0]`: a persona of the list, with the active id when one has it, the first persona otherwise |
| PersonaInput.ActiveUnique | wonder-route/src/components/PersonaInput.js:113 | with distinct ids it is the one persona with the active id |
| PersonaInput.PersonaList.constructor | wonder-route/src/components/PersonaInput.js:53-64 | starts with the default persona (id 1, "Traveler 1", "medium", energy 5, History and Food), next id 2, persona 1 active |
| PersonaInput.PersonaList.AddPersona | wonder-route/src/components/PersonaInput.js:72-85 | appends the fresh persona, makes it active, advances the counter, and keeps the invariant |
| PersonaInput.PersonaList.RemovePersona | wonder-route/src/components/PersonaInput.js:88-99 | a list of one is left alone; otherwise the personas with the id go, and the first one left becomes active if the active one went; the invariant is kept |
| PersonaInput.PersonaList.UpdatePersona | wonder-route/src/components/PersonaInput.js:102-109 | the list becomes the update of the old list; counter and active id stay |
| PersonaInput.PersonaList.SelectPersona | wonder-route/src/components/PersonaInput.js:170 | clicking a persona makes it active and changes nothing else |
| PersonaInput.PersonaList.ActivePersona | wonder-route/src/components/PersonaInput.js:112-114 | `getActivePersona()` is a persona of the list with the active id |
| AppState.RemoveIndex | wonder-route/src/App.js:39-41 | the result is one shorter when the index is inside the list and as long otherwise; RemoveIndexOutside and RemoveIndexInside state which elements stay |
| AppState.RemoveIndexOutside | wonder-route/src/App.js:39 | an index outside the list (negative or too large) removes nothing |
| AppState.RemoveIndexInside | wonder-route/src/App.js:39 | an index inside the list removes exactly that element, keeping the rest in order |
| AppState.RemoveLastAdded | wonder-route/src/App.js:19-39 | removing the element just added gives the list back |
| AppState.App.constructor | wonder-route/src/App.js:8-14 | empty lists, no searched place, empty itinerary, not loading, the form view; the invariant (nothing loading between handlers, and the form only shown with the itinerary cleared) holds, and every handler below keeps it |
| AppState.App.SelectPlace | wonder-route/src/App.js:76 | the search box's result becomes the searched place |
| AppState.App.AddLocation | wonder-route/src/App.js:17-23 | type "friend" appends to the friends, any other type to the visits; nothing else changes |
| AppState.App.AddSearchedLocation | wonder-route/src/App.js:26-35 | without a searched place nothing changes; otherwise it is appended to the chosen list and cleared |
| AppState.App.RemoveLocation | wonder-route/src/App.js:37-43 | position `index` leaves the chosen list; the other list stays |
| AppState.App.HandleGenerate | wonder-route/src/App.js:45-64 | the payload sent holds the current lists and the options; the itinerary becomes the mock's text, or the apology if the call rejects; the result view is shown and loading ends |
| AppState.App.HandleBack | wonder-route/src/App.js:66-69 | back to the form with the itinerary cleared; the lists stay |
| Timeline.ActivityIcon | wonder-route/src/components/TimelineView.js:80-94 | the icon of the first group the lower-cased activity mentions, in the priority coffee/café, lunch/dinner/food, walk/stroll, train/bus/tube; the marker when it mentions none |
| Timeline.MealBeforeWalk | wonder-route/src/components/TimelineView.js:83-87 | an earlier group wins: "Walk to Lunch" gets the cutlery |
| Timeline.KelvinSignWalks | wonder-route/src/components/TimelineView.js:81-85 | "WAL" followed by the Kelvin sign lower-cases to "walk" and gets the walking icon |
| Timeline.IconIgnoresCase | wonder-route/src/components/TimelineView.js:81 | the icon depends only on the lower-cased activity |
| Timeline.ActivityIconAsWritten | wonder-route/src/components/TimelineView.js:80-81 | as written, a missing activity throws, and only then |
| Timeline.MissingActivityThrows | wonder-route/src/components/TimelineView.js:117 | an item without an activity cannot be drawn as written |
| Timeline.ItemIcon | wonder-route/src/components/TimelineView.js:110 | agrees with the source on every present activity, and gives the marker for a missing one |
| Timeline.IsRestaurant | wonder-route/src/components/TimelineView.js:110-111 | false for a missing activity; otherwise true iff the lower-cased activity contains lunch, dinner, food, coffee or café |
| Timeline.RestaurantIconAgree | wonder-route/src/components/TimelineView.js:83-111 | the restaurants are exactly the stops drawn with the coffee or the cutlery icon |
| Timeline.FormatCost | wonder-route/src/components/TimelineView.js:97-100 | "Free" for any falsy cost (absent, "" or 0); a string unchanged; a number as "£" followed by its digits, which read back as the number |
| Timeline.FreeOnlyWhenFalsy | wonder-route/src/components/TimelineView.js:97-100 | the converse of the "Free" case: the label is "Free" only for a falsy cost or the text "Free" itself |
| Timeline.FormatPounds | wonder-route/src/components/TimelineView.js:99 | "£" then the rendered number, which reads back as the number |
| Timeline.Rating | wonder-route/src/components/TimelineView.js:103-112 | a rating exists iff the stop is a restaurant, and it is one of 4, 4.1, 4.2, 4.3, 4.4, 4.5, 4.8 (in tenths) |
| Timeline.EveryRatingReachable | wonder-route/src/components/TimelineView.js:103-106 | every entry of the list can be drawn |
| Timeline.Chips | wonder-route/src/components/TimelineView.js:137-167 | the cost chip first; "Sponsored" iff a restaurant; "Map" with the link, last, iff the link is present and non-empty |
| Timeline.EntryOf | wonder-route/src/components/TimelineView.js:108-200 | an entry shows the item's time, activity and location; the corrected icon ItemIcon; a rating in the list iff a restaurant; "Sponsored" iff rated; the "Photo Spot" chip, with `photoOpp` as its tooltip, iff `photoOpp` is present and non-empty |
| Timeline.Items | wonder-route/src/components/TimelineView.js:318 | a missing `itinerary` array shows no stops |
| Timeline.Entries | wonder-route/src/components/TimelineView.js:318-327 | one entry per item, in order |
| Timeline.Show | wonder-route/src/components/TimelineView.js:253-339 | the corrected screen: the empty screen exactly when there is no data or the reply parsed to a falsy JSON value (`!itineraryData`); a text result shows the raw text; a structured one shows the meeting point if present, every item in order (drawn by EntryOf), and the summary iff it is non-empty |
| Timeline.ShowAsWritten | wonder-route/src/components/TimelineView.js:80-117 | as written, drawing fails iff the data is a structured itinerary with a stop whose as-written icon fails (no activity); otherwise it is the corrected screen |
| Timeline.StopWithoutActivityThrows | wonder-route/src/components/TimelineView.js:117 | a plan whose one stop has no activity fails as written, and the corrected screen draws that stop with the marker |
| Timeline.FalsyReplyShowsNothing | wonder-route/src/components/TimelineView.js:253-261 | a reply whose fenced block parses to a falsy value such as `null` is passed on as the parse and shows "No itinerary available yet." |
| Timeline.ShownRatingsAreRestaurants | wonder-route/src/components/TimelineView.js:112-146 | in a shown timeline, entry i has a rating and the "Sponsored" chip iff stop i is a restaurant, and the rating is in the list |
| Timeline.ShowIgnoresDrawsOutsideTimeline | wonder-route/src/components/TimelineView.js:253-290 | the random draws change neither which screen is shown nor the text screen |
| TripPlanner.Keys | london-trip-planner/src/TripPlanner.js:46 | `Object.keys`: the keys in order |
| TripPlanner.Lookup | london-trip-planner/src/TripPlanner.js:46 | nothing exactly for a key the object does not have |
| TripPlanner.Selected | london-trip-planner/src/TripPlanner.js:46 | the selection is no longer than the object |
| TripPlanner.SetFlag | london-trip-planner/src/TripPlanner.js:41 | no contract of its own: `{...prev, [name]: checked}`; SetFlagKeys, SetFlagLookup and SetFlagDistinct state the keys, the values and their distinctness |
| TripPlanner.SetFlagKeys | london-trip-planner/src/TripPlanner.js:41 | `{...prev, [name]: checked}` keeps the key order; a new name goes last |
| TripPlanner.SetFlagLookup | london-trip-planner/src/TripPlanner.js:40-42 | the named key takes `checked`; every other key keeps its value |
| TripPlanner.SetFlagDistinct | london-trip-planner/src/TripPlanner.js:41 | the keys stay distinct |
| TripPlanner.SelectedAppend | london-trip-planner/src/TripPlanner.js:46 | the selection keeps key order: it distributes over concatenation |
| TripPlanner.SelectedMembers | london-trip-planner/src/TripPlanner.js:46 | a key is selected iff some entry holds it with value true |
| TripPlanner.SelectedIffTrue | london-trip-planner/src/TripPlanner.js:46 | with distinct keys, a key is selected iff its value is true |
| TripPlanner.CheckedIsSelected | london-trip-planner/src/TripPlanner.js:39-46 | checking a box puts its key in the selection, unchecking takes it out |
| TripPlanner.NothingSelectedInitially | london-trip-planner/src/TripPlanner.js:24-29 | the initial flags have distinct keys and none selected |
| TripPlanner.Planner.constructor | london-trip-planner/src/TripPlanner.js:23-29 | walking, with architecture, food, entertainment and museums unchecked, in that order |
| TripPlanner.Planner.SetTravelMode | london-trip-planner/src/TripPlanner.js:67-71 | a radio button sets the mode to its value ("walking" or "public_transport") |
| TripPlanner.Planner.HandlePreferenceChange | london-trip-planner/src/TripPlanner.js:39-42 | the flags become the old ones with only `name` set to `checked`; the mode stays |
| TripPlanner.Planner.GenerateTrip | london-trip-planner/src/TripPlanner.js:45-49 | hands on the current travel mode (one of the two radio values) and exactly the keys whose value is true, in key order |
| Text.IndexOfFinds | wonder-route/server/server.js:34 | the forward search finds an occurrence iff there is one |
| Text.JoinEmpty | wonder-route/src/api.js:8-9 | a join with a non-empty separator is empty iff the list is empty or its only element is |
| Text.ToLowerIdempotent | wonder-route/src/components/TimelineView.js:81 | lower-casing twice is lower-casing once |
| Text.IntToStringRoundTrip | wonder-route/src/components/PersonaInput.js:75 | a rendered integer reads back as itself |

## Left out

- The Google Generative AI client and `generateContent` are outside the model. The reply is an input: its text, or a failed call.
- `JSON.parse` is an oracle `parse: string -> Option<J>`. The JSON grammar is not modelled, and so neither is what a parsed object contains beyond the `Plan` fields the timeline reads. For the timeline a parse is a falsy value (`null`, `false`, `0`, `""`), which shows the empty screen, or a `Plan`. A truthy non-object value such as `true` or a number is read as a `Plan` with every field missing.
- Express routing, `res.json`, the 500 status, CORS and `listen` are left out. A server handler's result is a `Result` whose failure carries the `error` text.
- `new Date().toLocaleDateString('en-GB', …)` depends on the clock and locale. The formatted date is a parameter.
- Floating-point rendering of `lat`/`lng` is left out: coordinates are opaque strings. For the same reason a numeric cost is a whole number of pounds, and ratings are counted in tenths.
- `Math.random` is left out. The rating draw is an arbitrary number reduced modulo the list's length, and the avatar colour is dropped.
- The `setTimeout` delay and the Promise around `mockApiCall` are left out. A rejected call is the `failed` flag of `AppState.App.HandleGenerate`; as written, the mock never rejects.
- React, MUI and Google Maps rendering and the calendar `alert` are left out. The map and search box, the sidebar widgets, and the modal and `window.open` handling go with them.
- `console.log` output is left out.
- Async interleaving and stale closures of React state setters are left out: each handler is one atomic step.
- The `onPersonasChange` effect, which reports the personas to the parent, is not modelled.
- PersonaInput.UpdateId: the `[field]` of `updatePersona` is one of the four fields the form edits (name, budget, energy, interests). An edit of `id` or `color` is not modelled.
- AppState.App.AddSearchedLocation: the searched place is stored as the `{name, lat, lng}` record it becomes. Google's place object and its `geometry.location.lat()` calls are not modelled.
- Text.ToLower: `toLowerCase` is modelled for ASCII and Latin-1 capitals and for four capitals outside Latin-1 whose lower case is one ASCII or Latin-1 letter: U+212A KELVIN SIGN (to `k`), U+212B ANGSTROM SIGN, U+0178 and U+1E9E. Every other character is left unchanged. One of them is U+0130, which JavaScript lower-cases to `i` followed by a combining dot, changing the length. No word the classifiers look for holds that pair, so no icon or restaurant test differs for it.
- TripPlanner.SetFlag: JavaScript lists integer-like keys first regardless of insertion; only string keys are modelled, as the form uses.
- Timeline.Show: a parsed object whose own `format` field is "text" is not distinguished from other parsed objects.
- Timeline.EntryOf / Timeline.Show: drawn with the corrected Timeline.ItemIcon. As written, the screen fails on an item without an activity, which Timeline.ShowAsWritten models (see Findings).
- Timeline.EntryOf: the "Fun Fact" and "Photo Caption" buttons are not modelled; they only call the caption and trivia requests, which `Gemini` models.
- Gemini.ServerItinerary / Gemini.GenerateItinerary: the request body is taken to have the `Payload` record's shape. In the source, `constructPrompt` throws inside the handler's `try` when `friends` or `visits` is missing or not an array, when `preferences` is missing, when `personas` is `null`, or when a persona has no `interests`. The handler then fails with its message ("Failed to generate itinerary" with status 500 on the server, "Failed to generate itinerary with Gemini API" in the browser) before the model is called. The model does not represent such bodies, so this failure path is not modelled.
- `Gemini.GenerateItinerary` and `Gemini.ServerItinerary` carry no contract of their own. They are `Gemini.Handle` applied to the reply to `Prompt.PromptFor` of the payload, and `Gemini.Handle` carries the contract. Their facts are stated there to keep the long prompt literal out of the proofs.
- The prompt and mock-itinerary lemmas are stated for every `Wording`, and the source's concrete texts are one instance.
- `getCaption` and `getTrivia`, imported by `TimelineView.js`, are not exported by `api.js`, and are not modelled.
- `Sidebar.js` and `MapComponent.js` are not part of this model.

## Findings

| source | as written | input that shows it | evidently intended | confidence | as-written member | corrected member |
|---|---|---|---|---|---|---|
| wonder-route/src/components/TimelineView.js:117 | `getActivityIcon(item.activity)` calls `activity.toLowerCase()` unguarded, so an itinerary item without `activity` throws while the timeline is drawn | an item `{time: "10:00", location: "…"}` with no `activity` | the guard the restaurant test beside it uses (`item.activity ? … : ""`, line 110): a missing activity reads as empty and gets the default marker | medium, not executed | Timeline.ActivityIconAsWritten, Timeline.MissingActivityThrows, Timeline.ShowAsWritten, Timeline.StopWithoutActivityThrows | Timeline.ItemIcon, Timeline.Show |
