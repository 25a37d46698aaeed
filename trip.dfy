/** The records that travel between the planner's components. */
module Trip {
  import opened Wrappers

  /**
   * A location as the UI stores it: `{name, lat, lng}`. The coordinates are
   * kept as the text a template literal renders for them.
   */
  datatype Place = Place(name: string, lat: string, lng: string)

  /** A traveller persona (`PersonaInput.js`); its avatar colour is not modelled. */
  datatype Persona = Persona(id: int, name: string, budget: string, energy: int, interests: seq<string>)

  /**
   * The `preferences` object a request carries. `travelMode` and the
   * `preferences` interest list are `None` when the caller leaves them
   * undefined; `food` and `coffee` are the sidebar's check boxes.
   */
  datatype Preferences = Preferences(
    startTime: string,
    endTime: string,
    budget: string,
    travelMode: Option<string>,
    interests: Option<seq<string>>,
    food: bool,
    coffee: bool)

  /** The request body `{friends, visits, preferences, personas}`. */
  datatype Payload = Payload(
    friends: seq<Place>,
    visits: seq<Place>,
    preferences: Preferences,
    personas: Option<seq<Persona>>)
}
