/**
 * The records the itinerary generator consumes and produces: the planning request, the travel
 * plan with its days, activities, stays, legs and meals, and the JSON values a language model's
 * reply is parsed into.
 */
module TravelTypes {
  import opened Basics

  /**
   * A trip request. Dates are the caller's `YYYY-MM-DD` texts; budget and travelers are whole
   * numbers; an absent `specialRequirements` is `None`.
   */
  datatype PlanningRequest = PlanningRequest(
    destination: string,
    startDate: string,
    endDate: string,
    budget: int,
    travelers: int,
    preferences: seq<string>,
    specialRequirements: Option<string>)

  /** A place; latitude and longitude are zero when unknown. */
  datatype Location = Location(name: string, address: string, lat: real, lng: real)

  datatype ActivityType = Attraction | Shopping | Entertainment | OtherActivity

  /** One activity; `duration` is in minutes and `time` an `HH:MM` label. */
  datatype Activity = Activity(
    id: string,
    name: string,
    kind: ActivityType,
    location: Location,
    duration: nat,
    cost: real,
    time: string,
    description: Option<string>)

  /** A night's stay; check-in and check-out are free-text time labels. */
  datatype Accommodation = Accommodation(
    name: string,
    kind: string,
    location: Location,
    cost: real,
    checkIn: string,
    checkOut: string)

  datatype TransportMode = Flight | Train | Bus | Subway | Taxi | Walk

  /** One leg of travel within a day; `duration` is in minutes. */
  datatype Transportation = Transportation(
    mode: TransportMode,
    from: string,
    to: string,
    cost: real,
    duration: nat,
    time: string)

  datatype MealType = Breakfast | Lunch | Dinner | Snack

  datatype Meal = Meal(kind: MealType, restaurant: string, location: Location, cost: real, time: string)

  /** One day of a trip: `day` counts from 1, `date` is `YYYY-MM-DD`, the stay is absent on the last day. */
  datatype DayItinerary = DayItinerary(
    day: nat,
    date: string,
    activities: seq<Activity>,
    accommodation: Option<Accommodation>,
    transportation: seq<Transportation>,
    meals: seq<Meal>,
    dailyCost: int)

  /** A complete plan with the request's metadata echoed at its root. */
  datatype TravelPlan = TravelPlan(
    title: string,
    destination: string,
    startDate: string,
    endDate: string,
    budget: int,
    travelers: int,
    preferences: seq<string>,
    itinerary: seq<DayItinerary>,
    totalCost: real)

  /** A JSON value (RFC 8259); an object is a map from member names to values. */
  datatype Json =
    | JNull
    | JBool(b: bool)
    | JNumber(n: real)
    | JString(s: string)
    | JArray(items: seq<Json>)
    | JObject(fields: map<string, Json>)
}
