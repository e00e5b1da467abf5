/**
 * The destination view model shared by the static table, the database
 * transforms and the pages. Optional members are `Option`s; a `number` that
 * holds a rating is a `real`, one that holds a count or a month is an `int`.
 */
module DestinationTypes {
  import opened Wrappers

  datatype Activity = Activity(name: string, description: string, duration: string, price: string)

  datatype LocalPhrase = LocalPhrase(english: string, language: string, phrase: string, pronunciation: string)

  datatype DayActivity = DayActivity(time: string, title: string, description: string)

  datatype Day = Day(title: string, description: string, activities: seq<DayActivity>)

  datatype Itinerary = Itinerary(title: string, description: string, days: seq<Day>)

  /** When to go; `recommendedMonths` numbers the months 1 (January) to 12 (December). */
  datatype BestTimeToVisit = BestTimeToVisit(period: string, description: string, recommendedMonths: seq<int>)

  datatype Destination = Destination(
    id: string,
    name: string,
    location: string,
    description: string,
    category: string,
    image: string,
    gallery: Option<seq<string>>,
    rating: real,
    reviews: int,
    highlights: Option<seq<string>>,
    activities: Option<seq<Activity>>,
    recommendedStay: Option<string>,
    budget: Option<string>,
    goodFor: Option<seq<string>>,
    bestTimeToVisit: Option<BestTimeToVisit>,
    localPhrases: Option<seq<LocalPhrase>>,
    culturalEtiquette: Option<seq<string>>,
    itineraries: Option<seq<Itinerary>>)

  predicate ValidMonth(m: int) { 1 <= m <= 12 }

  /** Every recommended month of the destination, if it has any, names a month of the year. */
  predicate MonthsValid(d: Destination) {
    d.bestTimeToVisit.Some? ==>
      forall i | 0 <= i < |d.bestTimeToVisit.value.recommendedMonths| ::
        ValidMonth(d.bestTimeToVisit.value.recommendedMonths[i])
  }
}
