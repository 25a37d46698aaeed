/**
 * The itinerary prompt builder `constructPrompt`. It exists twice, in the
 * Express server and in the browser's Gemini service; the two copies are the
 * same function except for the tail of the requirements list, so one
 * function with a `Copy` argument models both.
 */
module Prompt {
  import opened Wrappers
  import opened Text
  import opened Trip

  /** Which copy of `constructPrompt` is meant. */
  datatype Copy = ServerCopy | BrowserCopy

  const NoFriends := "No specific friend locations provided"
  const NoVisits := "No specific areas to visit provided"
  /** Computed by both copies but never placed in the prompt: the personas slot is empty instead. */
  const NoPersonas := "No specific personas provided"
  const PersonasHeader := "PERSONAS OF TRAVELERS:\n"
  const DefaultTravelMode := "walking"

  /** No field of the place holds a line break. */
  predicate SingleLinePlace(p: Place) {
    '\n' !in p.name && '\n' !in p.lat && '\n' !in p.lng
  }

  /** No field the persona block prints holds a line break. */
  predicate SingleLinePersona(p: Persona) {
    '\n' !in p.budget && forall i :: 0 <= i < |p.interests| ==> '\n' !in p.interests[i]
  }

  /** `${prefix}${k}: ${name} (${lat}, ${lng})`, the prefix being `Friend ` or `Location `. */
  function PlaceLine(tag: string, k: nat, p: Place): string {
    tag + NatToString(k) + ": " + p.name + " (" + p.lat + ", " + p.lng + ")"
  }

  /** `places.map((p, i) => …)` with 1-based numbering. */
  function PlaceLines(tag: string, places: seq<Place>): (r: seq<string>)
    ensures |r| == |places|
    ensures forall k :: 0 <= k < |places| ==> r[k] == PlaceLine(tag, k + 1, places[k])
  {
    seq(|places|, i requires 0 <= i < |places| => PlaceLine(tag, i + 1, places[i]))
  }

  /** The numbered lines joined by line breaks, or the placeholder for an empty list. */
  function PlaceSection(tag: string, placeholder: string, places: seq<Place>): string {
    if |places| > 0 then Join(PlaceLines(tag, places), "\n") else placeholder
  }

  function FriendsText(friends: seq<Place>): string {
    PlaceSection("Friend ", NoFriends, friends)
  }

  function VisitsText(visits: seq<Place>): string {
    PlaceSection("Location ", NoVisits, visits)
  }

  lemma NatToStringSingleLine(n: nat)
    ensures '\n' !in NatToString(n)
  {
    var r := NatToString(n);
    assert forall i | 0 <= i < |r| :: r[i] != '\n';
  }

  lemma PlaceLineSingle(tag: string, k: nat, p: Place)
    requires '\n' !in tag && SingleLinePlace(p)
    ensures '\n' !in PlaceLine(tag, k, p)
  {
    NatToStringSingleLine(k);
  }

  /**
   * A non-empty section has exactly one line per place, in input order,
   * numbered from 1 — provided no place field holds a line break.
   */
  lemma PlaceSectionLines(tag: string, placeholder: string, places: seq<Place>)
    requires |places| > 0 && '\n' !in tag
    requires forall i :: 0 <= i < |places| ==> SingleLinePlace(places[i])
    ensures Split(PlaceSection(tag, placeholder, places), '\n') == PlaceLines(tag, places)
  {
    var xs := PlaceLines(tag, places);
    forall i | 0 <= i < |xs|
      ensures '\n' !in xs[i]
    {
      PlaceLineSingle(tag, i + 1, places[i]);
    }
    assert "\n" == ['\n'];
    SplitJoin(xs, '\n');
  }

  /** An empty friend list becomes the fixed placeholder sentence. */
  lemma NoFriendsPlaceholder(friends: seq<Place>)
    requires friends == []
    ensures FriendsText(friends) == "No specific friend locations provided"
  {
  }

  /** One `Friend k: name (lat, lng)` line per friend, numbered from 1, in order. */
  lemma FriendLines(friends: seq<Place>)
    requires |friends| > 0
    requires forall i :: 0 <= i < |friends| ==> SingleLinePlace(friends[i])
    ensures Split(FriendsText(friends), '\n') == PlaceLines("Friend ", friends)
  {
    PlaceSectionLines("Friend ", NoFriends, friends);
  }

  /** An empty visit list becomes the fixed placeholder sentence. */
  lemma NoVisitsPlaceholder(visits: seq<Place>)
    requires visits == []
    ensures VisitsText(visits) == "No specific areas to visit provided"
  {
  }

  /** One `Location k: name (lat, lng)` line per visit, numbered from 1, in order. */
  lemma VisitLines(visits: seq<Place>)
    requires |visits| > 0
    requires forall i :: 0 <= i < |visits| ==> SingleLinePlace(visits[i])
    ensures Split(VisitsText(visits), '\n') == PlaceLines("Location ", visits)
  {
    PlaceSectionLines("Location ", NoVisits, visits);
  }

  /** The travel mode, `'walking'` when it is undefined. */
  function TravelModeOf(prefs: Preferences): string {
    prefs.travelMode.GetOr(DefaultTravelMode)
  }

  /** `preferences.preferences`, `[]` when undefined, joined with `", "`. */
  function InterestsOf(prefs: Preferences): string {
    Join(prefs.interests.GetOr([]), ", ")
  }

  /** The lines of the preferences block. */
  function PreferenceLines(prefs: Preferences): seq<string> {
    [ "PREFERENCES:",
      "- Start time: " + prefs.startTime,
      "- End time: " + prefs.endTime,
      "- Budget: " + prefs.budget,
      "- Travel mode: " + TravelModeOf(prefs),
      "- Interests: " + InterestsOf(prefs) ]
  }

  function PreferencesText(prefs: Preferences): string {
    Join(PreferenceLines(prefs), "\n")
  }

  predicate SingleLinePreferences(prefs: Preferences) {
    && '\n' !in prefs.startTime && '\n' !in prefs.endTime && '\n' !in prefs.budget
    && (prefs.travelMode.Some? ==> '\n' !in prefs.travelMode.value)
    && (prefs.interests.Some? ==>
          forall i :: 0 <= i < |prefs.interests.value| ==> '\n' !in prefs.interests.value[i])
  }

  /**
   * The preferences block is six lines in fixed order; a missing travel mode
   * reads `walking` and a missing interest list reads as nothing.
   */
  lemma PreferencesLines(prefs: Preferences)
    requires SingleLinePreferences(prefs)
    ensures Split(PreferencesText(prefs), '\n') == [
              "PREFERENCES:",
              "- Start time: " + prefs.startTime,
              "- End time: " + prefs.endTime,
              "- Budget: " + prefs.budget,
              "- Travel mode: " + (if prefs.travelMode.None? then "walking" else prefs.travelMode.value),
              "- Interests: " + (if prefs.interests.None? then "" else Join(prefs.interests.value, ", "))]
  {
    JoinAvoids(prefs.interests.GetOr([]), ", ", '\n');
    var ls := PreferenceLines(prefs);
    assert forall i | 0 <= i < |ls| :: '\n' !in ls[i];
    assert "\n" == ['\n'];
    SplitJoin(ls, '\n');
  }

  /** A missing travel mode is printed as `walking`. */
  lemma DefaultTravelModeShown(prefs: Preferences)
    requires prefs.travelMode.None?
    ensures Contains(PreferencesText(prefs), "- Travel mode: walking")
  {
    JoinContainsPart(PreferenceLines(prefs), "\n", 4);
    assert PreferenceLines(prefs)[4] == "- Travel mode: " + "walking" == "- Travel mode: walking";
  }

  /** The lines of one persona block; the persona's name is not printed. */
  function PersonaLines(k: nat, p: Persona): seq<string> {
    [ "Person " + NatToString(k) + ":",
      "- Budget: " + p.budget,
      "- Energy: " + IntToString(p.energy),
      "- Interests: " + Join(p.interests, ", ") ]
  }

  /** The lines of every persona block, numbered from 1 in input order. */
  function PersonaGroups(personas: seq<Persona>): (r: seq<seq<string>>)
    ensures |r| == |personas|
    ensures forall i :: 0 <= i < |personas| ==> r[i] == PersonaLines(i + 1, personas[i])
  {
    seq(|personas|, i requires 0 <= i < |personas| => PersonaLines(i + 1, personas[i]))
  }

  /** `Person ${k}:\n- Budget: …\n- Energy: …\n- Interests: …` for each persona. */
  function PersonaBlocks(personas: seq<Persona>): seq<string> {
    JoinEach(PersonaGroups(personas), "\n")
  }

  /** `personasText`: the blocks joined by a blank line, or the (unused) placeholder. */
  function PersonasText(personas: seq<Persona>): string {
    if |personas| > 0 then Join(PersonaBlocks(personas), "\n\n") else NoPersonas
  }

  /** The personas slot of the prompt: the header and the blocks, or nothing at all. */
  function PersonasSlot(personas: seq<Persona>): string {
    if |personas| > 0 then PersonasHeader + PersonasText(personas) else ""
  }

  /** Groups of four lines separated by blank lines make five lines per group, less one. */
  lemma {:induction false} BlankSeparatedLength(groups: seq<seq<string>>)
    requires |groups| >= 1
    requires forall i :: 0 <= i < |groups| ==> |groups[i]| == 4
    ensures |BlankSeparated(groups)| == 5 * |groups| - 1
    decreases |groups|
  {
    if |groups| > 1 {
      BlankSeparatedLength(groups[1..]);
    }
  }

  /** No line of a persona block holds a line break when the persona's fields hold none. */
  lemma PersonaLinesSingle(k: nat, p: Persona)
    requires SingleLinePersona(p)
    ensures forall j :: 0 <= j < 4 ==> '\n' !in PersonaLines(k, p)[j]
  {
    NatToStringSingleLine(k);
    IntToStringSingleLine(p.energy);
    JoinAvoids(p.interests, ", ", '\n');
  }

  /** Without personas the slot is empty, so the placeholder sentence never reaches the prompt. */
  lemma NoPersonasSlot(personas: seq<Persona>)
    requires personas == []
    ensures PersonasSlot(personas) == ""
  {
  }

  /** With personas the slot opens with the section header. */
  lemma PersonasSlotHeader(personas: seq<Persona>)
    requires |personas| > 0
    ensures var slot := PersonasSlot(personas);
            |slot| >= |PersonasHeader| && slot[..|PersonasHeader|] == "PERSONAS OF TRAVELERS:\n"
  {
  }

  /**
   * The personas text holds one four-line block per persona, numbered from 1
   * and in order, with a blank line between consecutive blocks.
   */
  lemma PersonasTextLines(personas: seq<Persona>)
    requires |personas| > 0
    requires forall i :: 0 <= i < |personas| ==> SingleLinePersona(personas[i])
    ensures var lines := Split(PersonasText(personas), '\n');
            lines == BlankSeparated(PersonaGroups(personas)) && |lines| == 5 * |personas| - 1
  {
    var groups := PersonaGroups(personas);
    forall i, j | 0 <= i < |groups| && 0 <= j < |groups[i]|
      ensures '\n' !in groups[i][j]
    {
      PersonaLinesSingle(i + 1, personas[i]);
    }
    assert "\n" == ['\n'] && "\n\n" == ['\n', '\n'];
    SplitJoinJoin(groups, '\n');
    BlankSeparatedLength(groups);
  }

  const IntroLead :=
    "\nYou are a professional London travel agent and AI assistant specialized in creating personalized itineraries.\n\n"
  const IntroTask :=
    "\n\nYour task is to create an optimized day trip plan in London for a group, considering the following:\n\n"

  function DateLine(currentDate: string): string {
    "Today is " + currentDate + "."
  }


  /** The numbered requirements both copies share (items 1 to 9, item 9 without its full stop). */
  const CommonRequirements :=
    "Please create a detailed itinerary with the following requirements:\n"
    + "1. Suggest an optimal meeting point for all travelers (if multiple starting points)\n"
    + "2. Plan a logical route that efficiently covers the locations\n"
    + "3. Include specific places to visit, each with:\n"
    + "   - Name and brief description\n"
    + "   - Estimated duration of visit\n"
    + "   - Approximate cost (respecting the budget)\n"
    + "4. Account for travel time between locations\n"
    + "5. Include food/coffee stops aligned with the preferences\n"
    + "6. Ensure the plan fits within the specified start and end times\n"
    + "7. For each location, include a fun historical fact or trivia\n"
    + "8. If the group has different personas, suggest activities that accommodate different interests\n"
    + "9. Offer at least one \"Instagram-worthy\" photo opportunity with a caption idea"

  /** What the server copy adds: a full stop after item 9, then items numbered 10, 10 and 11. */
  const ServerExtraRequirements :=
    ".\n10. Strictly follow the timeframe provided in the preferences.\n"
    + "10. Follow all these strictly and ensure the plan is realistic for a day in London.\n"
    + "11. Also add a logo which looks like an advertisement on the card of the place you suggest."


  /** The JSON schema skeleton in a fenced block, and the closing sentence. */
  const SchemaTail :=
    "\n\nReturn your response in this JSON format:\n```json\n{\n"
    + "  \"meetingPoint\": { \"name\": \"\", \"location\": \"\", \"time\": \"\", \"reason\": \"\" },\n"
    + "  \"itinerary\": [\n    {\n"
    + "      \"time\": \"\",\n      \"activity\": \"\",\n      \"location\": \"\",\n"
    + "      \"duration\": \"\",\n      \"cost\": \"\",\n      \"description\": \"\",\n"
    + "      \"funFact\": \"\",\n      \"photoOpp\": \"\",\n      \"mapsUrl\": \"\"\n"
    + "    }\n  ],\n  \"summary\": \"\",\n  \"totalCost\": \"\"\n}\n```\n"
    + "\nMake sure your suggestions are realistic for London, open during the planned hours, and aligned with the specified budget.\n"

  /**
   * The fixed texts of the template: the opening before and after the date
   * line, the requirements list, and the schema skeleton with the closing
   * sentence.
   */
  datatype Wording = Wording(lead: string, task: string, requirements: string, closing: string)

  const BrowserWording := Wording(IntroLead, IntroTask, CommonRequirements, SchemaTail)
  const ServerWording := Wording(IntroLead, IntroTask, CommonRequirements + ServerExtraRequirements, SchemaTail)

  function WordingOf(copy: Copy): Wording {
    match copy
    case ServerCopy => ServerWording
    case BrowserCopy => BrowserWording
  }

  function Intro(w: Wording, currentDate: string): string {
    w.lead + DateLine(currentDate) + w.task
  }

  /** The four rendered parts of the template that depend on the request. */
  datatype Sections = Sections(friends: string, visits: string, preferences: string, personas: string)

  function SectionsOf(friends: seq<Place>, visits: seq<Place>, prefs: Preferences,
                      personas: seq<Persona>): Sections {
    Sections(FriendsText(friends), VisitsText(visits), PreferencesText(prefs), PersonasSlot(personas))
  }

  /** The whole template literal, piece by piece. */
  function PromptPieces(w: Wording, sec: Sections, currentDate: string): seq<string> {
    [ Intro(w, currentDate),
      "STARTING LOCATIONS:\n", sec.friends, "\n\n",
      "POTENTIAL AREAS TO VISIT:\n", sec.visits, "\n\n",
      sec.preferences, "\n\n",
      sec.personas, "\n\n",
      w.requirements, w.closing ]
  }

  /** The template literal filled in, for any fixed texts and any sections. */
  function Assemble(w: Wording, sec: Sections, currentDate: string): string {
    Concat(PromptPieces(w, sec, currentDate))
  }

  /**
   * `constructPrompt(friends, visits, preferences, personas = [])`, with the
   * formatted current date passed in.
   */
  function ConstructPrompt(copy: Copy, friends: seq<Place>, visits: seq<Place>, prefs: Preferences,
                           personas: Option<seq<Persona>>, currentDate: string): string {
    Assemble(WordingOf(copy), SectionsOf(friends, visits, prefs, personas.GetOr([])), currentDate)
  }

  /** The prompt of a payload, as both request handlers build it. */
  function PromptFor(copy: Copy, payload: Payload, currentDate: string): string {
    ConstructPrompt(copy, payload.friends, payload.visits, payload.preferences, payload.personas, currentDate)
  }

  /** Lengthening the next-to-last piece inserts the extra text just before the last piece. */
  lemma InsertBeforeLast(front: seq<string>, c: string, extra: string, t: string)
    ensures var shorter := Concat(front + [c, t]);
            var n := |shorter| - |t|;
            0 <= n <= |shorter| &&
            Concat(front + [c + extra, t]) == shorter[..n] + extra + shorter[n..]
  {
    var a := Concat(front);
    ConcatAppend(front, [c, t]);
    ConcatAppend(front, [c + extra, t]);
    ConcatPair(c, t);
    ConcatPair(c + extra, t);
    var shorter := Concat(front + [c, t]);
    AppendAssoc(a, c, t);
    assert shorter == (a + c) + t;
    assert shorter[..|a + c|] == a + c;
    assert shorter[|a + c|..] == t;
    AppendAssoc(a, c + extra, t);
    AppendAssoc(a, c, extra);
  }

  /** `InsertBeforeLast` for the thirteen pieces of the prompt. */
  lemma ThirteenInsert(a0: string, a1: string, a2: string, a3: string, a4: string, a5: string, a6: string,
                       a7: string, a8: string, a9: string, a10: string, c: string, extra: string, t: string)
    ensures var shorter := Concat([a0, a1, a2, a3, a4, a5, a6, a7, a8, a9, a10, c, t]);
            var n := |shorter| - |t|;
            0 <= n <= |shorter| &&
            Concat([a0, a1, a2, a3, a4, a5, a6, a7, a8, a9, a10, c + extra, t]) == shorter[..n] + extra + shorter[n..]
  {
    var front := [a0, a1, a2, a3, a4, a5, a6, a7, a8, a9, a10];
    InsertBeforeLast(front, c, extra, t);
    assert front + [c, t] == [a0, a1, a2, a3, a4, a5, a6, a7, a8, a9, a10, c, t];
    assert front + [c + extra, t] == [a0, a1, a2, a3, a4, a5, a6, a7, a8, a9, a10, c + extra, t];
  }

  /** The server copy's fixed texts are the browser copy's with extra requirement lines. */
  lemma ServerWordingExtendsBrowser()
    ensures ServerWording.requirements == BrowserWording.requirements + ServerExtraRequirements
    ensures ServerWording == BrowserWording.(requirements := ServerWording.requirements)
  {
  }

  /**
   * Lengthening the requirements list of a template inserts the extra lines
   * just before the schema skeleton and changes nothing else.
   */
  lemma RequirementsInsertion(w: Wording, extra: string, sec: Sections, currentDate: string)
    ensures var shorter := Assemble(w, sec, currentDate);
            var n := |shorter| - |w.closing|;
            0 <= n <= |shorter| &&
            Assemble(w.(requirements := w.requirements + extra), sec, currentDate)
              == shorter[..n] + extra + shorter[n..]
  {
    var a0 := Intro(w, currentDate);
    var longer := w.(requirements := w.requirements + extra);
    assert Intro(longer, currentDate) == a0;
    assert PromptPieces(longer, sec, currentDate)
      == [a0, "STARTING LOCATIONS:\n", sec.friends, "\n\n", "POTENTIAL AREAS TO VISIT:\n", sec.visits, "\n\n",
          sec.preferences, "\n\n", sec.personas, "\n\n", w.requirements + extra, w.closing];
    ThirteenInsert(a0, "STARTING LOCATIONS:\n", sec.friends, "\n\n", "POTENTIAL AREAS TO VISIT:\n", sec.visits, "\n\n",
                   sec.preferences, "\n\n", sec.personas, "\n\n", w.requirements, extra, w.closing);
  }

  /** The opening of the prompt gives the date. */
  lemma IntroMentionsDate(w: Wording, currentDate: string)
    ensures Contains(Intro(w, currentDate), DateLine(currentDate))
  {
    ContainsMiddle(w.lead, DateLine(currentDate), w.task);
  }

  /** Where the date, the middle sections and the personas slot sit among thirteen pieces. */
  lemma ThirteenPieces(a0: string, a1: string, a2: string, a3: string, a4: string, a5: string, a6: string,
                       a7: string, a8: string, a9: string, a10: string, a11: string, a12: string)
    ensures var p := Concat([a0, a1, a2, a3, a4, a5, a6, a7, a8, a9, a10, a11, a12]);
            && |a0| <= |p| && p[..|a0|] == a0
            && Contains(p[|a0|..], Concat([a1, a2, a3, a4, a5, a6, a7]))
            && Contains(p, Concat([a7, a8, a9, a10, a11]))
            && |a12| <= |p| && p[|p| - |a12|..] == a12
  {
    var xs := [a0, a1, a2, a3, a4, a5, a6, a7, a8, a9, a10, a11, a12];
    var p := Concat(xs);
    var rest := xs[1..];
    assert p == a0 + Concat(rest);
    assert p[|a0|..] == Concat(rest);
    ContainsPieces(rest, 0, 7);
    assert rest[0..7] == [a1, a2, a3, a4, a5, a6, a7];
    ContainsPieces(xs, 7, 12);
    assert xs[7..12] == [a7, a8, a9, a10, a11];
    assert xs == xs[..12] + [a12];
    ConcatAppend(xs[..12], [a12]);
    assert Concat([a12]) == a12 + Concat([]);
  }

  /**
   * The prompt opens with the opening that states the date; after it come
   * the starting locations, the areas to visit and the preferences in that
   * order; the personas slot sits right before the requirements list; and
   * the schema skeleton with the closing sentence ends the prompt.
   */
  lemma PromptSections(w: Wording, sec: Sections, currentDate: string)
    ensures var prompt := Assemble(w, sec, currentDate);
            var intro := Intro(w, currentDate);
            && |intro| <= |prompt| && prompt[..|intro|] == intro
            && Contains(intro, "Today is " + currentDate + ".")
            && Contains(prompt[|intro|..], Concat(["STARTING LOCATIONS:\n", sec.friends, "\n\n",
                                                   "POTENTIAL AREAS TO VISIT:\n", sec.visits, "\n\n",
                                                   sec.preferences]))
            && Contains(prompt, Concat([sec.preferences, "\n\n", sec.personas, "\n\n", w.requirements]))
            && |w.closing| <= |prompt| && prompt[|prompt| - |w.closing|..] == w.closing
  {
    ThirteenPieces(Intro(w, currentDate),
      "STARTING LOCATIONS:\n", sec.friends, "\n\n",
      "POTENTIAL AREAS TO VISIT:\n", sec.visits, "\n\n",
      sec.preferences, "\n\n", sec.personas, "\n\n", w.requirements, w.closing);
    IntroMentionsDate(w, currentDate);
  }

  /** A missing travel mode reaches the prompt as `walking`. */
  lemma PromptDefaultTravelMode(w: Wording, friends: seq<Place>, visits: seq<Place>, prefs: Preferences,
                                personas: seq<Persona>, currentDate: string)
    requires prefs.travelMode.None?
    ensures Contains(Assemble(w, SectionsOf(friends, visits, prefs, personas), currentDate), "- Travel mode: walking")
  {
    var sec := SectionsOf(friends, visits, prefs, personas);
    var xs := PromptPieces(w, sec, currentDate);
    ContainsPieces(xs, 7, 8);
    assert Concat(xs[7..8]) == PreferencesText(prefs);
    DefaultTravelModeShown(prefs);
    ContainsTransitive(Concat(xs), PreferencesText(prefs), "- Travel mode: walking");
  }
}
