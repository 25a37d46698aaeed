/**
 * `mockApiCall(payload)`: the canned itinerary the app shows instead of
 * calling the model. Only the template is modelled; the two-second
 * `setTimeout` around it is not.
 */
module MockApi {
  import opened Text
  import opened Trip

  /** JavaScript's `text || fallback` on a string: the empty string is falsy. */
  function OrElse(text: string, fallback: string): (r: string)
    ensures text != "" ==> r == text
    ensures text == "" ==> r == fallback
  {
    if text == "" then fallback else text
  }

  /** `places.map(p => p.name)`. */
  function Names(places: seq<Place>): (r: seq<string>)
    ensures |r| == |places|
    ensures forall i :: 0 <= i < |places| ==> r[i] == places[i].name
  {
    seq(|places|, i requires 0 <= i < |places| => places[i].name)
  }

  /** `places[0]?.name || fallback`. */
  function FirstName(places: seq<Place>, fallback: string): (r: string)
    ensures |places| == 0 ==> r == fallback
    ensures |places| > 0 ==> r == OrElse(places[0].name, fallback)
  {
    if |places| == 0 then fallback else OrElse(places[0].name, fallback)
  }

  /** `places[places.length - 1]?.name || fallback`. */
  function LastName(places: seq<Place>, fallback: string): (r: string)
    ensures |places| == 0 ==> r == fallback
    ensures |places| > 0 ==> r == OrElse(places[|places| - 1].name, fallback)
  {
    if |places| == 0 then fallback else OrElse(places[|places| - 1].name, fallback)
  }

  /**
   * The fixed texts of the template: the literal runs between its `${...}`
   * holes, and the fallbacks of its `||` defaults.
   */
  datatype Wording = Wording(
    greeting: string, dash: string, budgetLabel: string, planStart: string, meetNear: string,
    coffeeStep: string, exploreStep: string, givenYour: string, lunchStep: string,
    lunchLead: string, lunchMid: string, lunchEnd: string, snack: string,
    wrapUpAs: string, wrapUpWith: string, farewell: string,
    noFriend: string, noVisit: string, noLastVisit: string, someFriends: string, someAreas: string)

  /** The wording of `api.js`. */
  const MockWording := Wording(
    "\nHere is your personalized itinerary!\n\n**Meetup Time:** ",
    " - ",
    "\n**Budget:** ",
    "\n\n**Plan:**\n\n1.  **",
    " - Meet & Greet:** Everyone should meet up at a central location. A good starting point might be near ",
    ".\n\n2.  **Coffee Stop:** Since you wanted coffee, let's grab a cup at a highly-rated cafe near ",
    ". This will be a great way to kick things off.\n\n3.  **Main Activity:** Head over to explore ",
    ". Given your ",
    " budget, you can enjoy the sights and maybe find some cheap street food if you're getting hungry.\n\n"
    + "4.  **Lunch/Dinner:** ",
    "Around lunchtime, you should find a great ",
    "-friendly restaurant. I'd recommend looking for something authentic in the ",
    ".",
    "You can grab a quick snack while you explore.",
    "\n\n5.  **Wrap-up:** As ",
    " approaches, you can start heading back. It was great planning your day with ",
    "!\n\nEnjoy your trip!\n      ",
    "the first friend's location",
    "your first destination",
    "area you are visiting",
    "your friends",
    "the recommended areas")

  /** `friendNames`: the friends' names joined by ", ", or the fallback when that join is empty. */
  function FriendNames(w: Wording, friends: seq<Place>): string {
    OrElse(Join(Names(friends), ", "), w.someFriends)
  }

  /** `visitNames`: the visits' names joined by ", ", or the fallback when that join is empty. */
  function VisitNames(w: Wording, visits: seq<Place>): string {
    OrElse(Join(Names(visits), ", "), w.someAreas)
  }

  /** The body of step 4, which depends on the `food` check box. */
  function LunchText(w: Wording, food: bool, budget: string, visits: seq<Place>): string {
    if food then w.lunchLead + budget + w.lunchMid + LastName(visits, w.noLastVisit) + w.lunchEnd
    else w.snack
  }

  /** The template literal, cut at its `${...}` holes. */
  function MockPieces(w: Wording, payload: Payload): (r: seq<string>)
    ensures |r| == 23
  {
    var prefs := payload.preferences;
    [w.greeting, prefs.startTime, w.dash, prefs.endTime, w.budgetLabel, prefs.budget,
     w.planStart, prefs.startTime, w.meetNear, FirstName(payload.friends, w.noFriend),
     w.coffeeStep, FirstName(payload.visits, w.noVisit),
     w.exploreStep, VisitNames(w, payload.visits), w.givenYour, prefs.budget,
     w.lunchStep, LunchText(w, prefs.food, prefs.budget, payload.visits),
     w.wrapUpAs, prefs.endTime, w.wrapUpWith, FriendNames(w, payload.friends), w.farewell]
  }

  /** The template filled in with `w`. */
  function Render(w: Wording, payload: Payload): string {
    Concat(MockPieces(w, payload))
  }

  /** The text `mockApiCall(payload)` resolves to. */
  function MockItinerary(payload: Payload): string {
    Render(MockWording, payload)
  }

  /**
   * The fallback replaces the friends' names exactly when there is no friend
   * or a single friend with an empty name; otherwise the names are joined in order.
   */
  lemma FriendNamesFallback(w: Wording, friends: seq<Place>)
    ensures FriendNames(w, friends) == w.someFriends
            || FriendNames(w, friends) == Join(Names(friends), ", ")
    ensures Join(Names(friends), ", ") == "" <==> |friends| == 0 || (|friends| == 1 && friends[0].name == "")
  {
    JoinEmpty(Names(friends), ", ");
  }

  /** Likewise for the visits' names. */
  lemma VisitNamesFallback(w: Wording, visits: seq<Place>)
    ensures VisitNames(w, visits) == w.someAreas || VisitNames(w, visits) == Join(Names(visits), ", ")
    ensures Join(Names(visits), ", ") == "" <==> |visits| == 0 || (|visits| == 1 && visits[0].name == "")
  {
    JoinEmpty(Names(visits), ", ");
  }

  /** The rendered text holds every run of consecutive pieces. */
  lemma RenderContains(w: Wording, payload: Payload, i: nat, j: nat)
    requires i <= j <= 23
    ensures Contains(Render(w, payload), Concat(MockPieces(w, payload)[i..j]))
  {
    ContainsPieces(MockPieces(w, payload), i, j);
  }

  /** Two consecutive pieces appear together. */
  lemma RenderPair(w: Wording, payload: Payload, i: nat)
    requires i + 2 <= 23
    ensures var xs := MockPieces(w, payload);
            Contains(Render(w, payload), xs[i] + xs[i + 1])
  {
    var xs := MockPieces(w, payload);
    RenderContains(w, payload, i, i + 2);
    ConcatSlicePair(xs, i);
  }

  /** Three consecutive pieces appear together. */
  lemma RenderTriple(w: Wording, payload: Payload, i: nat)
    requires i + 3 <= 23
    ensures var xs := MockPieces(w, payload);
            Contains(Render(w, payload), xs[i] + xs[i + 1] + xs[i + 2])
  {
    var xs := MockPieces(w, payload);
    RenderContains(w, payload, i, i + 3);
    ConcatSliceTriple(xs, i);
  }

  /** The header shows "start - end" and the budget. */
  lemma MockHeader(w: Wording, payload: Payload)
    ensures Contains(Render(w, payload), payload.preferences.startTime + w.dash + payload.preferences.endTime)
    ensures Contains(Render(w, payload), w.budgetLabel + payload.preferences.budget)
  {
    RenderTriple(w, payload, 1);
    RenderPair(w, payload, 4);
  }

  /** The meet-up step names the first friend, or the fallback when there is none or the name is empty. */
  lemma MockMeetUp(w: Wording, payload: Payload)
    ensures var friends := payload.friends;
            var near := if |friends| > 0 && friends[0].name != "" then friends[0].name else w.noFriend;
            Contains(Render(w, payload), w.meetNear + near)
  {
    RenderPair(w, payload, 8);
  }

  /** The coffee step is there whatever the `coffee` flag says, naming the first visit or the fallback. */
  lemma MockCoffeeStep(w: Wording, payload: Payload)
    ensures var visits := payload.visits;
            var near := if |visits| > 0 && visits[0].name != "" then visits[0].name else w.noVisit;
            Contains(Render(w, payload), w.coffeeStep + near)
  {
    RenderPair(w, payload, 10);
  }

  /** The `coffee` flag does not change the text at all. */
  lemma CoffeeFlagIgnored(w: Wording, payload: Payload, coffee: bool)
    ensures Render(w, payload.(preferences := payload.preferences.(coffee := coffee))) == Render(w, payload)
  {
    assert MockPieces(w, payload.(preferences := payload.preferences.(coffee := coffee))) == MockPieces(w, payload);
  }

  /** The main activity names the joined visits, or their fallback. */
  lemma MockMainActivity(w: Wording, payload: Payload)
    ensures Contains(Render(w, payload), w.exploreStep + VisitNames(w, payload.visits))
  {
    RenderPair(w, payload, 12);
  }

  /**
   * With `food` the lunch step recommends a restaurant for the budget in the
   * last visit (or the fallback); without it the step is the snack sentence.
   */
  lemma MockLunch(w: Wording, payload: Payload)
    ensures var prefs := payload.preferences;
            var visits := payload.visits;
            var last := if |visits| > 0 && visits[|visits| - 1].name != "" then visits[|visits| - 1].name
                        else w.noLastVisit;
            && (prefs.food ==>
                  Contains(Render(w, payload), w.lunchStep + (w.lunchLead + prefs.budget + w.lunchMid + last + w.lunchEnd)))
            && (!prefs.food ==> Contains(Render(w, payload), w.lunchStep + w.snack))
  {
    RenderPair(w, payload, 16);
  }

  /** The wrap-up step repeats the end time and the friends' names. */
  lemma MockWrapUp(w: Wording, payload: Payload)
    ensures Contains(Render(w, payload), w.wrapUpAs + payload.preferences.endTime)
    ensures Contains(Render(w, payload), w.wrapUpWith + FriendNames(w, payload.friends) + w.farewell)
  {
    RenderPair(w, payload, 18);
    RenderTriple(w, payload, 20);
  }
}
