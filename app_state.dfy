/**
 * The state of the `App` component: the two location lists, the place the
 * search box last found, the itinerary text, the loading flag and the view.
 * Each handler is one atomic step.
 */
module AppState {
  import opened Wrappers
  import opened Trip
  import opened MockApi

  /** Which panel the sidebar shows. */
  datatype View = FormView | ResultView

  /** What the itinerary becomes when `mockApiCall` rejects. */
  const GenerateFailure := "Sorry, something went wrong. Please try again."

  /** `s.filter((_, i) => i !== index)`. */
  function RemoveIndex<T>(s: seq<T>, index: int): (r: seq<T>)
    ensures |r| == if 0 <= index < |s| then |s| - 1 else |s|
    decreases |s|
  {
    if |s| == 0 then []
    else (if index == 0 then [] else [s[0]]) + RemoveIndex(s[1..], index - 1)
  }

  /** An index outside the list removes nothing. */
  lemma {:induction false} RemoveIndexOutside<T>(s: seq<T>, index: int)
    requires index < 0 || index >= |s|
    ensures RemoveIndex(s, index) == s
    decreases |s|
  {
    if |s| > 0 {
      RemoveIndexOutside(s[1..], index - 1);
      assert [s[0]] + s[1..] == s;
    }
  }

  /** An index inside the list removes exactly that element and keeps the rest in order. */
  lemma {:induction false} RemoveIndexInside<T>(s: seq<T>, index: int)
    requires 0 <= index < |s|
    ensures RemoveIndex(s, index) == s[..index] + s[index + 1..]
    decreases |s|
  {
    if index == 0 {
      RemoveIndexOutside(s[1..], -1);
    } else {
      RemoveIndexInside(s[1..], index - 1);
      assert s[1..][..index - 1] == s[1..index];
      assert s[1..][index..] == s[index + 1..];
      assert [s[0]] + (s[1..index] + s[index + 1..]) == s[..index] + s[index + 1..];
    }
  }

  /** Removing the element just appended gives the list back. */
  lemma RemoveLastAdded<T>(s: seq<T>, x: T)
    ensures RemoveIndex(s + [x], |s|) == s
  {
    RemoveIndexInside(s + [x], |s|);
    assert (s + [x])[..|s|] == s;
  }

  class App {
    var friends: seq<Place>
    var visits: seq<Place>
    var searchedPlace: Option<Place>
    var itinerary: string
    var isLoading: bool
    var view: View

    /**
     * Between handlers nothing is loading, and the form is only shown with
     * the itinerary cleared.
     */
    ghost predicate Valid()
      reads this
    {
      !isLoading && (view == FormView ==> itinerary == "")
    }

    /** The initial state: no locations, no searched place, no itinerary, the form view. */
    constructor ()
      ensures friends == [] && visits == [] && searchedPlace.None?
      ensures itinerary == "" && !isLoading && view == FormView
      ensures Valid()
    {
      friends := [];
      visits := [];
      searchedPlace := None;
      itinerary := "";
      isLoading := false;
      view := FormView;
    }

    /** The search box found a place (`onPlaceSelected`). */
    method SelectPlace(place: Place)
      requires Valid()
      modifies this
      ensures searchedPlace == Some(place)
      ensures friends == old(friends) && visits == old(visits)
      ensures itinerary == old(itinerary) && isLoading == old(isLoading) && view == old(view)
      ensures Valid()
    {
      searchedPlace := Some(place);
    }

    /** `addLocation(location, type)`: "friend" appends to the friends, any other type to the visits. */
    method AddLocation(location: Place, kind: string)
      requires Valid()
      modifies this
      ensures kind == "friend" ==> friends == old(friends) + [location] && visits == old(visits)
      ensures kind != "friend" ==> visits == old(visits) + [location] && friends == old(friends)
      ensures searchedPlace == old(searchedPlace)
      ensures itinerary == old(itinerary) && isLoading == old(isLoading) && view == old(view)
      ensures Valid()
    {
      if kind == "friend" {
        friends := friends + [location];
      } else {
        visits := visits + [location];
      }
    }

    /** `addSearchedLocation(type)`: add the searched place, then clear it; nothing without one. */
    method AddSearchedLocation(kind: string)
      requires Valid()
      modifies this
      ensures old(searchedPlace).None? ==>
                friends == old(friends) && visits == old(visits) && searchedPlace.None?
      ensures old(searchedPlace).Some? && kind == "friend" ==>
                friends == old(friends) + [old(searchedPlace).value] && visits == old(visits)
      ensures old(searchedPlace).Some? && kind != "friend" ==>
                visits == old(visits) + [old(searchedPlace).value] && friends == old(friends)
      ensures searchedPlace.None?
      ensures itinerary == old(itinerary) && isLoading == old(isLoading) && view == old(view)
      ensures Valid()
    {
      if searchedPlace.None? {
        return;
      }
      var place := searchedPlace.value;
      AddLocation(place, kind);
      searchedPlace := None;
    }

    /** `removeLocation(type, index)`: drop position `index` of the chosen list. */
    method RemoveLocation(kind: string, index: int)
      requires Valid()
      modifies this
      ensures kind == "friend" ==> friends == RemoveIndex(old(friends), index) && visits == old(visits)
      ensures kind != "friend" ==> visits == RemoveIndex(old(visits), index) && friends == old(friends)
      ensures searchedPlace == old(searchedPlace)
      ensures itinerary == old(itinerary) && isLoading == old(isLoading) && view == old(view)
      ensures Valid()
    {
      if kind == "friend" {
        friends := RemoveIndex(friends, index);
      } else {
        visits := RemoveIndex(visits, index);
      }
    }

    /**
     * `handleGenerate(options)`: show the result view and fill the itinerary
     * from `mockApiCall` on the current lists, or with the apology when the
     * call rejects (`failed`). `sent` is the payload handed to the call.
     */
    method HandleGenerate(options: Preferences, failed: bool) returns (sent: Payload)
      requires Valid()
      modifies this
      ensures sent == Payload(old(friends), old(visits), options, None)
      ensures itinerary == if failed then GenerateFailure else MockItinerary(sent)
      ensures view == ResultView && !isLoading
      ensures friends == old(friends) && visits == old(visits) && searchedPlace == old(searchedPlace)
      ensures Valid()
    {
      isLoading := true;
      view := ResultView;
      sent := Payload(friends, visits, options, None);
      if failed {
        itinerary := GenerateFailure;
      } else {
        itinerary := MockItinerary(sent);
      }
      isLoading := false;
    }

    /** `handleBack()`: back to the form with the itinerary cleared; the lists stay. */
    method HandleBack()
      requires Valid()
      modifies this
      ensures view == FormView && itinerary == ""
      ensures friends == old(friends) && visits == old(visits) && searchedPlace == old(searchedPlace)
      ensures isLoading == old(isLoading)
      ensures Valid()
    {
      view := FormView;
      itinerary := "";
    }
  }
}
