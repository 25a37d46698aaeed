/**
 * The form state of the London trip planner: the travel mode chosen with
 * two radio buttons, and the interest check boxes kept as an object whose
 * keys stay in insertion order.
 */
module TripPlanner {
  import opened Wrappers

  /** One key of the `preferences` object and its value. */
  datatype Flag = Flag(key: string, on: bool)

  /** The values of the two travel-mode radio buttons. */
  const Walking := "walking"
  const PublicTransport := "public_transport"

  /** The initial `preferences`: every interest unchecked. */
  const InitialPreferences: seq<Flag> :=
    [Flag("architecture", false), Flag("food", false), Flag("entertainment", false), Flag("museums", false)]

  /** `Object.keys(flags)`. */
  function Keys(flags: seq<Flag>): (r: seq<string>)
    ensures |r| == |flags|
    ensures forall i :: 0 <= i < |flags| ==> r[i] == flags[i].key
  {
    seq(|flags|, i requires 0 <= i < |flags| => flags[i].key)
  }

  /** An object has each key once. */
  ghost predicate DistinctKeys(flags: seq<Flag>) {
    forall i, j :: 0 <= i < j < |flags| ==> flags[i].key != flags[j].key
  }

  /** `flags[key]`, or nothing for a key the object does not have. */
  function Lookup(flags: seq<Flag>, key: string): (r: Option<bool>)
    ensures r.None? <==> key !in Keys(flags)
    decreases |flags|
  {
    if |flags| == 0 then None
    else if flags[0].key == key then Some(flags[0].on)
    else
      assert Keys(flags) == [flags[0].key] + Keys(flags[1..]);
      Lookup(flags[1..], key)
  }

  /**
   * `{...flags, [name]: checked}`: an existing key keeps its place and takes
   * the new value; a new key goes last.
   */
  function SetFlag(flags: seq<Flag>, name: string, checked: bool): (r: seq<Flag>)
    decreases |flags|
  {
    if |flags| == 0 then [Flag(name, checked)]
    else if flags[0].key == name then [Flag(name, checked)] + flags[1..]
    else [flags[0]] + SetFlag(flags[1..], name, checked)
  }

  /**
   * `Object.keys(flags).filter(key => flags[key])`, for an object whose keys
   * are distinct. What it selects is stated by `SelectedMembers` and
   * `SelectedIffTrue`, and its key order by `SelectedAppend`.
   */
  function Selected(flags: seq<Flag>): (r: seq<string>)
    ensures |r| <= |flags|
    decreases |flags|
  {
    if |flags| == 0 then []
    else (if flags[0].on then [flags[0].key] else []) + Selected(flags[1..])
  }

  /** Setting a flag keeps the key order, adding the name at the end when it is new. */
  lemma {:induction false} SetFlagKeys(flags: seq<Flag>, name: string, checked: bool)
    ensures Keys(SetFlag(flags, name, checked)) ==
              if name in Keys(flags) then Keys(flags) else Keys(flags) + [name]
    decreases |flags|
  {
    if |flags| > 0 {
      assert Keys(flags) == [flags[0].key] + Keys(flags[1..]);
      if flags[0].key != name {
        SetFlagKeys(flags[1..], name, checked);
        assert Keys(SetFlag(flags, name, checked)) == [flags[0].key] + Keys(SetFlag(flags[1..], name, checked));
      } else {
        assert Keys(SetFlag(flags, name, checked)) == [name] + Keys(flags[1..]);
      }
    }
  }

  /** After setting, the name has the new value and every other key keeps its old one. */
  lemma {:induction false} SetFlagLookup(flags: seq<Flag>, name: string, checked: bool, other: string)
    ensures Lookup(SetFlag(flags, name, checked), name) == Some(checked)
    ensures other != name ==> Lookup(SetFlag(flags, name, checked), other) == Lookup(flags, other)
    decreases |flags|
  {
    if |flags| > 0 && flags[0].key != name {
      SetFlagLookup(flags[1..], name, checked, other);
      assert SetFlag(flags, name, checked)[1..] == SetFlag(flags[1..], name, checked);
    } else if |flags| > 0 {
      assert SetFlag(flags, name, checked)[1..] == flags[1..];
    }
  }

  /** Setting a flag keeps the keys distinct. */
  lemma SetFlagDistinct(flags: seq<Flag>, name: string, checked: bool)
    requires DistinctKeys(flags)
    ensures DistinctKeys(SetFlag(flags, name, checked))
  {
    var r := SetFlag(flags, name, checked);
    SetFlagKeys(flags, name, checked);
    var ks := Keys(flags);
    assert forall i, j :: 0 <= i < j < |ks| ==> ks[i] != ks[j];
    var rs := Keys(r);
    assert forall i, j :: 0 <= i < j < |rs| ==> rs[i] != rs[j];
  }

  /** The selection of a concatenation is the concatenation of the selections: key order is kept. */
  lemma {:induction false} SelectedAppend(xs: seq<Flag>, ys: seq<Flag>)
    ensures Selected(xs + ys) == Selected(xs) + Selected(ys)
    decreases |xs|
  {
    if |xs| > 0 {
      assert (xs + ys)[1..] == xs[1..] + ys;
      SelectedAppend(xs[1..], ys);
    } else {
      assert xs + ys == ys;
    }
  }

  /** A key is selected exactly when some entry holds it checked. */
  lemma {:induction false} SelectedMembers(flags: seq<Flag>, key: string)
    ensures key in Selected(flags) <==> exists i :: 0 <= i < |flags| && flags[i] == Flag(key, true)
    decreases |flags|
  {
    if |flags| > 0 {
      SelectedMembers(flags[1..], key);
      if flags[0] != Flag(key, true) && key in Selected(flags) {
        var i :| 0 <= i < |flags[1..]| && flags[1..][i] == Flag(key, true);
        assert flags[i + 1] == Flag(key, true);
      }
      if exists i :: 0 <= i < |flags| && flags[i] == Flag(key, true) {
        var i :| 0 <= i < |flags| && flags[i] == Flag(key, true);
        if i > 0 {
          assert flags[1..][i - 1] == Flag(key, true);
        }
      }
    }
  }

  /** With distinct keys, a key is in the selection exactly when its value is true. */
  lemma {:induction false} SelectedIffTrue(flags: seq<Flag>, key: string)
    requires DistinctKeys(flags)
    ensures key in Selected(flags) <==> Lookup(flags, key) == Some(true)
    decreases |flags|
  {
    if |flags| > 0 {
      assert DistinctKeys(flags[1..]);
      SelectedIffTrue(flags[1..], key);
      if flags[0].key == key {
        assert key !in Keys(flags[1..]);
        assert Lookup(flags[1..], key).None?;
      }
    }
  }

  /** Checking a box puts its key in the selection; unchecking it takes the key out. */
  lemma CheckedIsSelected(flags: seq<Flag>, name: string, checked: bool)
    requires DistinctKeys(flags)
    ensures name in Selected(SetFlag(flags, name, checked)) <==> checked
  {
    SetFlagDistinct(flags, name, checked);
    SelectedIffTrue(SetFlag(flags, name, checked), name);
    SetFlagLookup(flags, name, checked, name);
  }

  /** Nothing is selected at first. */
  lemma NothingSelectedInitially()
    ensures Selected(InitialPreferences) == []
    ensures DistinctKeys(InitialPreferences)
  {
  }

  class Planner {
    var travelMode: string
    var preferences: seq<Flag>

    ghost predicate Valid()
      reads this
    {
      (travelMode == Walking || travelMode == PublicTransport) && DistinctKeys(preferences)
    }

    /** The initial state: walking, every interest unchecked. */
    constructor ()
      ensures travelMode == Walking && preferences == InitialPreferences
      ensures Valid()
    {
      travelMode := Walking;
      preferences := InitialPreferences;
    }

    /** `setTravelMode(e.target.value)` from one of the two radio buttons. */
    method SetTravelMode(value: string)
      requires Valid()
      requires value == Walking || value == PublicTransport
      modifies this
      ensures travelMode == value && preferences == old(preferences)
      ensures Valid()
    {
      travelMode := value;
    }

    /** `handlePreferenceChange(event)`: set the named key to `checked`. */
    method HandlePreferenceChange(name: string, checked: bool)
      requires Valid()
      modifies this
      ensures preferences == SetFlag(old(preferences), name, checked)
      ensures travelMode == old(travelMode)
      ensures Valid()
    {
      SetFlagDistinct(preferences, name, checked);
      preferences := SetFlag(preferences, name, checked);
    }

    /** What `generateTrip` hands on: the travel mode and the checked keys, in key order. */
    method GenerateTrip() returns (mode: string, selected: seq<string>)
      requires Valid()
      ensures mode == travelMode
      ensures mode == Walking || mode == PublicTransport
      ensures forall key :: key in selected <==> Lookup(preferences, key) == Some(true)
      ensures selected == Selected(preferences)
    {
      mode := travelMode;
      selected := Selected(preferences);
      forall key
        ensures key in selected <==> Lookup(preferences, key) == Some(true)
      {
        SelectedIffTrue(preferences, key);
      }
    }
  }
}
