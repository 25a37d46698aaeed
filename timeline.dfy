/**
 * What `TimelineView` decides when it displays an itinerary: the icon of
 * each activity, the cost label, which stops count as restaurants (and so
 * get a rating and the "Sponsored" chip), and which of its three screens it
 * shows. The React elements themselves are reduced to the values below.
 */
module Timeline {
  import opened Wrappers
  import opened Text
  import opened Reply

  /** The icon `getActivityIcon` picks. */
  datatype Icon = Coffee | Utensils | Walking | Transit | Marker

  const CoffeeWords: seq<string> := ["coffee", "café"]
  const MealWords: seq<string> := ["lunch", "dinner", "food"]
  const WalkWords: seq<string> := ["walk", "stroll"]
  const TransitWords: seq<string> := ["train", "bus", "tube"]
  /** The words `isRestaurant` looks for, in its order. */
  const RestaurantWords: seq<string> := ["lunch", "dinner", "food", "coffee", "café"]

  /** `s` includes at least one of `words`. */
  predicate Mentions(s: string, words: seq<string>) {
    exists i :: 0 <= i < |words| && Contains(s, words[i])
  }

  /**
   * `getActivityIcon(activity)` on a present activity: the first group, in
   * the fixed priority coffee, meal, walk, transit, that the lower-cased
   * activity mentions, and the marker when it mentions none.
   */
  function ActivityIcon(activity: string): (r: Icon)
    ensures var low := ToLower(activity);
            && (r == Coffee <==> Mentions(low, CoffeeWords))
            && (r == Utensils <==> !Mentions(low, CoffeeWords) && Mentions(low, MealWords))
            && (r == Walking <==> !Mentions(low, CoffeeWords) && !Mentions(low, MealWords)
                                  && Mentions(low, WalkWords))
            && (r == Transit <==> !Mentions(low, CoffeeWords) && !Mentions(low, MealWords)
                                  && !Mentions(low, WalkWords) && Mentions(low, TransitWords))
            && (r == Marker <==> !Mentions(low, CoffeeWords) && !Mentions(low, MealWords)
                                 && !Mentions(low, WalkWords) && !Mentions(low, TransitWords))
  {
    var low := ToLower(activity);
    if Mentions(low, CoffeeWords) then Coffee
    else if Mentions(low, MealWords) then Utensils
    else if Mentions(low, WalkWords) then Walking
    else if Mentions(low, TransitWords) then Transit
    else Marker
  }

  /**
   * `getActivityIcon(item.activity)` as written: a missing activity makes
   * `activity.toLowerCase()` throw, which is the failure here.
   */
  function ActivityIconAsWritten(activity: Option<string>): (r: Result<Icon>)
    ensures r.Failure? <==> activity.None?
    ensures activity.Some? ==> r == Success(ActivityIcon(activity.value))
  {
    match activity
    case None => Failure("TypeError: Cannot read properties of undefined (reading 'toLowerCase')")
    case Some(a) => Success(ActivityIcon(a))
  }

  /** An item without an activity cannot be drawn as written. */
  lemma MissingActivityThrows()
    ensures ActivityIconAsWritten(None).Failure?
  {
  }

  /**
   * The icon of an item, reading a missing activity as `""` the way the
   * restaurant test next to it already does.
   */
  function ItemIcon(activity: Option<string>): (r: Icon)
    ensures activity.Some? ==> ActivityIconAsWritten(activity) == Success(r)
    ensures activity.None? ==> r == Marker
  {
    match activity
    case None => ActivityIcon("")
    case Some(a) => ActivityIcon(a)
  }

  /** `itemType` lower-cased, or `""` when the activity is missing, and then the five-word test. */
  function IsRestaurant(activity: Option<string>): (r: bool)
    ensures activity.None? ==> !r
    ensures activity.Some? ==> (r <==> Mentions(ToLower(activity.value), RestaurantWords))
  {
    var itemType := if activity.Some? then ToLower(activity.value) else "";
    MentionsRestaurantWords(itemType);
    Contains(itemType, "lunch") || Contains(itemType, "dinner") || Contains(itemType, "food")
    || Contains(itemType, "coffee") || Contains(itemType, "café")
  }

  /** `Mentions` of the restaurant words, spelled out word by word. */
  lemma MentionsRestaurantWords(s: string)
    ensures Mentions(s, RestaurantWords) <==>
              Contains(s, "lunch") || Contains(s, "dinner") || Contains(s, "food")
              || Contains(s, "coffee") || Contains(s, "café")
  {
    if Mentions(s, RestaurantWords) {
      var i :| 0 <= i < |RestaurantWords| && Contains(s, RestaurantWords[i]);
      assert RestaurantWords[i] in {"lunch", "dinner", "food", "coffee", "café"};
    }
    if Contains(s, "lunch") { assert Contains(s, RestaurantWords[0]); }
    if Contains(s, "dinner") { assert Contains(s, RestaurantWords[1]); }
    if Contains(s, "food") { assert Contains(s, RestaurantWords[2]); }
    if Contains(s, "coffee") { assert Contains(s, RestaurantWords[3]); }
    if Contains(s, "café") { assert Contains(s, RestaurantWords[4]); }
  }

  /** The restaurants are exactly the stops drawn with the coffee or the cutlery icon. */
  lemma RestaurantIconAgree(activity: Option<string>)
    ensures IsRestaurant(activity) <==> activity.Some? && ItemIcon(activity) in {Coffee, Utensils}
  {
    if activity.Some? {
      var low := ToLower(activity.value);
      if Mentions(low, RestaurantWords) {
        var i :| 0 <= i < |RestaurantWords| && Contains(low, RestaurantWords[i]);
        if i < 3 {
          assert Contains(low, MealWords[i]);
        } else {
          assert Contains(low, CoffeeWords[i - 3]);
        }
      }
      if Mentions(low, CoffeeWords) {
        var i :| 0 <= i < |CoffeeWords| && Contains(low, CoffeeWords[i]);
        assert Contains(low, RestaurantWords[i + 3]);
      }
      if Mentions(low, MealWords) {
        var i :| 0 <= i < |MealWords| && Contains(low, MealWords[i]);
        assert Contains(low, RestaurantWords[i]);
      }
    }
  }

  /** An earlier group wins: a walk to lunch is drawn with the cutlery, not the walker. */
  lemma MealBeforeWalk()
    ensures ActivityIcon("Walk to Lunch") == Utensils
  {
    var low := ToLower("Walk to Lunch");
    assert low == "walk to lunch";
    assert OccursAt(low, MealWords[0], 8);
    MissingCharMissing(low, "coffee", 2);
    MissingCharMissing(low, "café", 3);
  }

  /** The Kelvin sign lower-cases to `k`, so "WAL" followed by it is drawn as a walk. */
  lemma KelvinSignWalks()
    ensures ActivityIcon("WAL\U{212A}") == Walking
  {
    var low := ToLower("WAL\U{212A}");
    assert low == "walk";
    assert OccursAt(low, WalkWords[0], 0);
    MissingCharMissing(low, "coffee", 0);
    MissingCharMissing(low, "café", 0);
    MissingCharMissing(low, "lunch", 1);
    MissingCharMissing(low, "dinner", 0);
    MissingCharMissing(low, "food", 0);
  }

  /** The icon only depends on the lower-cased activity. */
  lemma IconIgnoresCase(activity: string)
    ensures ActivityIcon(ToLower(activity)) == ActivityIcon(activity)
  {
    ToLowerIdempotent(activity);
  }

  /** The cost of an item as it arrives in the JSON: absent, a string or a number. */
  datatype Cost = NoCost | TextCost(text: string) | Amount(pounds: int)

  /** `!cost`: absent, the empty string and zero are falsy. */
  predicate Falsy(cost: Cost) {
    cost == NoCost || cost == TextCost("") || cost == Amount(0)
  }

  /** `formatCost(cost)`. */
  function FormatCost(cost: Cost): (r: string)
    ensures Falsy(cost) ==> r == "Free"
    ensures !Falsy(cost) && cost.TextCost? ==> r == cost.text
    ensures !Falsy(cost) && cost.Amount? ==>
              |r| > 1 && r[0] == '£' && r[1..] == IntToString(cost.pounds) && ParseInt(r[1..]) == cost.pounds
  {
    if Falsy(cost) then "Free"
    else match cost
      case TextCost(text) => text
      case Amount(pounds) => FormatPounds(pounds)
  }

  /** `` `£${cost}` `` on a whole number of pounds. */
  function FormatPounds(pounds: int): (r: string)
    ensures |r| > 1 && r[0] == '£' && r[1..] == IntToString(pounds) && ParseInt(r[1..]) == pounds
  {
    var digits := IntToString(pounds);
    IntToStringRoundTrip(pounds);
    assert ("£" + digits)[1..] == digits;
    "£" + digits
  }

  /** A non-empty label is only ever "Free" when the cost is falsy or the text "Free" itself. */
  lemma FreeOnlyWhenFalsy(cost: Cost)
    requires FormatCost(cost) == "Free"
    ensures Falsy(cost) || cost == TextCost("Free")
  {
  }

  /** The ratings `generateRandomRating` picks from, in tenths of a star. */
  const RatingTenths: seq<nat> := [40, 41, 42, 43, 44, 45, 48]

  /**
   * The rating an item keeps: restaurants only, the entry of the list that
   * `Math.random` lands on (`pick`, taken modulo the list's length).
   */
  function Rating(restaurant: bool, pick: nat): (r: Option<nat>)
    ensures r.Some? <==> restaurant
    ensures r.Some? ==> r.value in RatingTenths
  {
    if restaurant then Some(RatingTenths[pick % |RatingTenths|]) else None
  }

  /** Every rating can be drawn. */
  lemma EveryRatingReachable(k: nat)
    requires k < |RatingTenths|
    ensures Rating(true, k) == Some(RatingTenths[k])
  {
  }

  /** The chips under an item. */
  datatype Chip = CostChip(caption: string) | SponsoredChip | MapChip(url: string)

  /** One stop of the structured itinerary, with the fields the timeline reads. */
  datatype Item = Item(time: string, activity: Option<string>, location: string, duration: string,
                       cost: Cost, mapsUrl: Option<string>, description: string, photoOpp: Option<string>)

  /** `item.mapsUrl &&`: present and not empty. */
  predicate HasMap(item: Item) {
    item.mapsUrl.Some? && item.mapsUrl.value != ""
  }

  /** The chip row: the cost, then "Sponsored" for a restaurant, then "Map" when there is a link. */
  function Chips(item: Item): (r: seq<Chip>)
    ensures |r| >= 1 && r[0] == CostChip(FormatCost(item.cost))
    ensures SponsoredChip in r <==> IsRestaurant(item.activity)
    ensures HasMap(item) ==> r[|r| - 1] == MapChip(item.mapsUrl.value)
    ensures !HasMap(item) ==> forall c :: c in r ==> !c.MapChip?
    ensures |r| == 1 + (if IsRestaurant(item.activity) then 1 else 0) + (if HasMap(item) then 1 else 0)
  {
    [CostChip(FormatCost(item.cost))]
    + (if IsRestaurant(item.activity) then [SponsoredChip] else [])
    + (if HasMap(item) then [MapChip(item.mapsUrl.value)] else [])
  }

  /** `item.photoOpp &&`: present and not empty. */
  predicate HasPhotoSpot(item: Item) {
    item.photoOpp.Some? && item.photoOpp.value != ""
  }

  /**
   * What `TimelineItem` shows for one item: `chips` is the row under the
   * duration, and `photoSpot` the tooltip of the "Photo Spot" chip that sits
   * beside the two buttons, when that chip is shown.
   */
  datatype Entry = Entry(time: string, icon: Icon, title: Option<string>, location: string,
                         rating: Option<nat>, duration: string, chips: seq<Chip>, description: string,
                         photoSpot: Option<string>)

  /** `TimelineItem` for `item`, with `pick` standing for its random draw. */
  function EntryOf(item: Item, pick: nat): (r: Entry)
    ensures r.time == item.time && r.title == item.activity && r.location == item.location
    ensures r.icon == ItemIcon(item.activity)
    ensures r.rating.Some? <==> IsRestaurant(item.activity)
    ensures r.rating.Some? ==> r.rating.value in RatingTenths
    ensures |r.chips| >= 1 && r.chips[0] == CostChip(FormatCost(item.cost))
    ensures SponsoredChip in r.chips <==> r.rating.Some?
    ensures r.photoSpot.Some? <==> HasPhotoSpot(item)
    ensures r.photoSpot.Some? ==> r.photoSpot == item.photoOpp
  {
    var restaurant := IsRestaurant(item.activity);
    var photoSpot := if HasPhotoSpot(item) then item.photoOpp else None;
    Entry(item.time, ItemIcon(item.activity), item.activity, item.location,
          Rating(restaurant, pick), item.duration, Chips(item), item.description, photoSpot)
  }

  /** The meeting point of a structured itinerary. */
  datatype MeetingPoint = MeetingPoint(name: string, location: string, time: string, reason: string,
                                       mapsUrl: Option<string>)

  /** The structured itinerary the model is asked to return. */
  datatype Plan = Plan(meetingPoint: Option<MeetingPoint>, itinerary: Option<seq<Item>>,
                       summary: Option<string>, totalCost: string)

  /** The summary box: the summary and the estimated total cost. */
  datatype SummaryBox = SummaryBox(summary: string, totalCost: string)

  /** The three screens of `TimelineView`. */
  datatype Screen =
    | NoItinerary
    | TextScreen(text: string)
    | TimelineScreen(meeting: Option<MeetingPoint>, entries: seq<Entry>, summary: Option<SummaryBox>)

  /** The heading of the empty screen. */
  const NoItineraryText := "No itinerary available yet."

  /** `itineraryData.itinerary && itineraryData.itinerary.map(...)`: nothing when the array is missing. */
  function Items(plan: Plan): (r: seq<Item>)
    ensures plan.itinerary.None? ==> r == []
    ensures plan.itinerary.Some? ==> r == plan.itinerary.value
  {
    if plan.itinerary.Some? then plan.itinerary.value else []
  }

  /** The entries of a plan, one per item, in order; `pick(i)` is item `i`'s random draw. */
  function Entries(items: seq<Item>, pick: nat -> nat): (r: seq<Entry>)
    ensures |r| == |items|
    ensures forall i :: 0 <= i < |items| ==> r[i] == EntryOf(items[i], pick(i))
  {
    seq(|items|, i requires 0 <= i < |items| => EntryOf(items[i], pick(i)))
  }

  /**
   * What `JSON.parse` of a fenced block gives, as far as the timeline can
   * tell: `None` for a falsy value (`null`, `false`, `0` or `""`), and
   * otherwise the plan read from it.
   */
  type ParsedPlan = Option<Plan>

  /**
   * `TimelineView({itineraryData})`: the empty screen when `!itineraryData`
   * (no data, or a reply that parsed to a falsy value), the raw text for a
   * text-format result, and otherwise the timeline with the meeting point
   * if there is one, every item in order, and the summary box when the
   * summary is not empty.
   */
  function Show(data: Option<Outcome<ParsedPlan>>, pick: nat -> nat): (r: Screen)
    ensures r.NoItinerary? <==> data.None? || data.value == Parsed(None)
    ensures data.Some? && data.value.TextFormat? ==> r == TextScreen(data.value.itinerary)
    ensures data.Some? && data.value.Parsed? && data.value.value.Some? ==>
              var plan := data.value.value.value;
              && r.TimelineScreen?
              && r.meeting == plan.meetingPoint
              && r.entries == Entries(Items(plan), pick)
              && (r.summary.Some? <==> plan.summary.Some? && plan.summary.value != "")
              && (r.summary.Some? ==> r.summary.value == SummaryBox(plan.summary.value, plan.totalCost))
  {
    match data
    case None => NoItinerary
    case Some(TextFormat(text)) => TextScreen(text)
    case Some(Parsed(None)) => NoItinerary
    case Some(Parsed(Some(plan))) =>
      var summary := if plan.summary.Some? && plan.summary.value != ""
                     then Some(SummaryBox(plan.summary.value, plan.totalCost)) else None;
      TimelineScreen(plan.meetingPoint, Entries(Items(plan), pick), summary)
  }

  /** Some stop of the list has no activity. */
  predicate LacksActivity(items: seq<Item>) {
    exists i :: 0 <= i < |items| && items[i].activity.None?
  }

  /**
   * `TimelineView` as written: drawing a structured itinerary calls
   * `getActivityIcon(item.activity)` on every stop, which throws on the
   * first stop without an activity. Every other input gives the corrected
   * `Show`.
   */
  function ShowAsWritten(data: Option<Outcome<ParsedPlan>>, pick: nat -> nat): (r: Result<Screen>)
    ensures r.Failure? <==>
              data.Some? && data.value.Parsed? && data.value.value.Some? &&
              exists i :: 0 <= i < |Items(data.value.value.value)|
                          && ActivityIconAsWritten(Items(data.value.value.value)[i].activity).Failure?
    ensures r.Success? ==> r.value == Show(data, pick)
  {
    if data.Some? && data.value.Parsed? && data.value.value.Some? && LacksActivity(Items(data.value.value.value))
    then Failure("TypeError: Cannot read properties of undefined (reading 'toLowerCase')")
    else Success(Show(data, pick))
  }

  /** A plan whose only stop has no activity cannot be drawn as written; the corrected screen shows the marker. */
  lemma StopWithoutActivityThrows(pick: nat -> nat)
    ensures var item := Item("10:00", None, "Hyde Park", "", NoCost, None, "", None);
            var data := Some(Parsed(Some(Plan(None, Some([item]), None, ""))));
            && ShowAsWritten(data, pick).Failure?
            && Show(data, pick).entries[0].icon == Marker
  {
    var item := Item("10:00", None, "Hyde Park", "", NoCost, None, "", None);
    assert Items(Plan(None, Some([item]), None, ""))[0].activity.None?;
  }

  /** A structured itinerary shows a restaurant's rating and "Sponsored" chip, and no other stop's. */
  lemma ShownRatingsAreRestaurants(plan: Plan, pick: nat -> nat, i: nat)
    requires i < |Items(plan)|
    ensures var r := Show(Some(Parsed(Some(plan))), pick);
            var e := r.entries[i];
            && (e.rating.Some? <==> IsRestaurant(Items(plan)[i].activity))
            && (SponsoredChip in e.chips <==> IsRestaurant(Items(plan)[i].activity))
            && (e.rating.Some? ==> e.rating.value in RatingTenths)
  {
  }

  /**
   * A reply whose fenced block parses to a falsy value, such as `null`,
   * reaches the timeline as data and still shows the empty screen.
   */
  lemma FalsyReplyShowsNothing(reply: string, parse: string -> Option<ParsedPlan>, pick: nat -> nat)
    requires FindBlock(reply).Some? && Capture(reply, FindBlock(reply).value) != ""
    requires parse(Capture(reply, FindBlock(reply).value)) == Some(None)
    ensures Classify(reply, parse) == Parsed(None)
    ensures Show(Some(Classify(reply, parse)), pick) == NoItinerary
  {
  }

  /** Whatever the draws, the text screen and the screen choice are the same. */
  lemma ShowIgnoresDrawsOutsideTimeline(data: Option<Outcome<ParsedPlan>>, pick: nat -> nat, other: nat -> nat)
    ensures Show(data, pick).NoItinerary? == Show(data, other).NoItinerary?
    ensures Show(data, pick).TextScreen? ==> Show(data, pick) == Show(data, other)
  {
  }
}
