/**
 * The two transforms of `DestinationService` that turn a destination row
 * fetched from the database, with its joined child rows, into the view model:
 * fields are renamed, child rows are sorted by `order_index` (itinerary days
 * by `day_number`) and projected, and missing child lists become empty lists.
 */
module DestinationService {
  import opened Wrappers
  import opened Text
  import opened Sequences
  import opened DestinationTypes

  // ---------------------------------------------------------------------------
  // Database rows
  // ---------------------------------------------------------------------------

  datatype HighlightRow = HighlightRow(id: string, highlight: string, orderIndex: int)

  datatype ActivityRow = ActivityRow(
    id: string, name: string, description: string, duration: string,
    priceXaf: int, category: string, difficultyLevel: string)

  datatype GalleryRow = GalleryRow(id: string, imageUrl: string, caption: string, orderIndex: int)

  /** A phrase row; the pronunciation column may be null. */
  datatype PhraseRow = PhraseRow(
    id: string, englishPhrase: string, localPhrase: string, language: string,
    pronunciation: Option<string>)

  datatype EtiquetteRow = EtiquetteRow(id: string, etiquetteTip: string, orderIndex: int)

  datatype ItineraryActivityRow = ItineraryActivityRow(
    id: string, time: string, title: string, description: string, orderIndex: int)

  datatype ItineraryDayRow = ItineraryDayRow(
    id: string, dayNumber: int, title: string, description: string,
    itineraryActivities: Option<seq<ItineraryActivityRow>>)

  datatype ItineraryRow = ItineraryRow(
    id: string, title: string, description: string, durationDays: int,
    difficultyLevel: string, estimatedCostXaf: int,
    itineraryDays: Option<seq<ItineraryDayRow>>)

  /** The JSON column `best_time_to_visit`. */
  datatype BestTimeRow = BestTimeRow(period: string, description: string, recommendedMonths: seq<int>)

  /** `DatabaseDestination`; a joined list that was not fetched, or a null column, is `None`. */
  datatype DatabaseDestination = DatabaseDestination(
    id: string,
    name: string,
    slug: string,
    location: string,
    description: string,
    category: string,
    imageUrl: string,
    rating: real,
    reviewCount: int,
    recommendedStay: string,
    budgetRange: string,
    bestTimeToVisit: Option<BestTimeRow>,
    goodFor: Option<seq<string>>,
    createdAt: string,
    updatedAt: string,
    destinationHighlights: Option<seq<HighlightRow>>,
    destinationActivities: Option<seq<ActivityRow>>,
    destinationGallery: Option<seq<GalleryRow>>,
    localPhrases: Option<seq<PhraseRow>>,
    culturalEtiquette: Option<seq<EtiquetteRow>>,
    itineraries: Option<seq<ItineraryRow>>)

  // ---------------------------------------------------------------------------
  // Sort keys and projections
  // ---------------------------------------------------------------------------

  function HighlightOrder(h: HighlightRow): int { h.orderIndex }
  function GalleryOrder(g: GalleryRow): int { g.orderIndex }
  function EtiquetteOrder(e: EtiquetteRow): int { e.orderIndex }
  function DayOrder(d: ItineraryDayRow): int { d.dayNumber }
  function StepOrder(a: ItineraryActivityRow): int { a.orderIndex }

  function HighlightText(h: HighlightRow): string { h.highlight }
  function GalleryImage(g: GalleryRow): string { g.imageUrl }
  function EtiquetteText(e: EtiquetteRow): string { e.etiquetteTip }

  /** The activity columns the view shows, with `price_xaf.toString()` as the price, which reads back as `price_xaf`. */
  function ToActivity(a: ActivityRow): (r: Activity)
    ensures r.name == a.name && r.description == a.description && r.duration == a.duration
    ensures ParseInt(r.price) == Some(a.priceXaf)
  {
    DecimalRoundTrip(a.priceXaf);
    Activity(a.name, a.description, a.duration, IntToDecimal(a.priceXaf))
  }

  /** The phrase columns renamed; a missing pronunciation is shown as the empty string. */
  function ToPhrase(p: PhraseRow): (r: LocalPhrase)
    ensures r.english == p.englishPhrase && r.phrase == p.localPhrase && r.language == p.language
    ensures r.pronunciation == if p.pronunciation.Some? then p.pronunciation.value else ""
  {
    LocalPhrase(p.englishPhrase, p.language, p.localPhrase, p.pronunciation.GetOr(""))
  }

  /** A step of a day keeps its time, title and description. */
  function ToDayActivity(a: ItineraryActivityRow): (r: DayActivity)
    ensures r.time == a.time && r.title == a.title && r.description == a.description
  {
    DayActivity(a.time, a.title, a.description)
  }

  /**
   * A day keeps its title and description; its activities are those of a
   * permutation of its rows sorted by `order_index`, and none when the rows
   * are missing.
   */
  function ToDay(d: ItineraryDayRow): (r: Day)
    ensures r.title == d.title && r.description == d.description
    ensures d.itineraryActivities.None? ==> r.activities == []
    ensures d.itineraryActivities.Some? ==>
      exists p :: SortedBy(p, StepOrder) && multiset(p) == multiset(d.itineraryActivities.value) &&
                  r.activities == Map(p, ToDayActivity)
  {
    Day(d.title, d.description,
        match d.itineraryActivities
        case None => []
        case Some(rows) => Map(SortBy(rows, StepOrder), ToDayActivity))
  }

  /**
   * An itinerary keeps its title and description; its days are those of a
   * permutation of its rows sorted by `day_number`, and none when the rows
   * are missing.
   */
  function ToItinerary(t: ItineraryRow): (r: Itinerary)
    ensures r.title == t.title && r.description == t.description
    ensures t.itineraryDays.None? ==> r.days == []
    ensures t.itineraryDays.Some? ==>
      exists p :: SortedBy(p, DayOrder) && multiset(p) == multiset(t.itineraryDays.value) &&
                  r.days == Map(p, ToDay)
  {
    Itinerary(t.title, t.description,
              match t.itineraryDays
              case None => []
              case Some(rows) => Map(SortBy(rows, DayOrder), ToDay))
  }

  /** The best time to visit keeps its period, description and months. */
  function ToBestTime(b: BestTimeRow): (r: BestTimeToVisit)
    ensures r.period == b.period && r.description == b.description && r.recommendedMonths == b.recommendedMonths
  {
    BestTimeToVisit(b.period, b.description, b.recommendedMonths)
  }

  /** `rows?.sort(byKey)?.map(f) || []`. */
  function SortedTexts<T(==,!new)>(rows: Option<seq<T>>, key: T -> int, f: T -> string): (r: seq<string>)
    ensures rows.None? ==> r == []
    ensures rows.Some? ==> |r| == |rows.value|
    ensures rows.Some? ==> exists p :: SortedBy(p, key) && multiset(p) == multiset(rows.value) && r == Map(p, f)
  {
    match rows
    case None => []
    case Some(s) =>
      var p := SortBy(s, key);
      assert |p| == |multiset(p)| == |multiset(s)| == |s|;
      Map(p, f)
  }

  // ---------------------------------------------------------------------------
  // The transforms
  // ---------------------------------------------------------------------------

  /**
   * `transformDestination`: the view model of a row without the phrase,
   * etiquette and itinerary details. Every list member is present (empty when
   * the rows are missing), the gallery and activities keep one entry per row,
   * and the best time to visit is present exactly when the row has one.
   */
  function TransformDestination(db: DatabaseDestination): (r: Destination)
    ensures r.highlights.Some? && r.activities.Some? && r.gallery.Some? && r.goodFor.Some?
    ensures |r.highlights.value| == (if db.destinationHighlights.Some? then |db.destinationHighlights.value| else 0)
    ensures |r.gallery.value| == (if db.destinationGallery.Some? then |db.destinationGallery.value| else 0)
    ensures |r.activities.value| == (if db.destinationActivities.Some? then |db.destinationActivities.value| else 0)
    ensures r.bestTimeToVisit.Some? <==> db.bestTimeToVisit.Some?
    ensures db.bestTimeToVisit.Some? ==> r.bestTimeToVisit.value == ToBestTime(db.bestTimeToVisit.value)
    ensures db.goodFor.Some? ==> r.goodFor == db.goodFor
    ensures db.destinationActivities.Some? ==>
      forall i | 0 <= i < |db.destinationActivities.value| ::
        r.activities.value[i] == ToActivity(db.destinationActivities.value[i])
    ensures r.localPhrases.None? && r.culturalEtiquette.None? && r.itineraries.None?
  {
    Destination(
      id := db.slug,
      name := db.name,
      location := db.location,
      description := db.description,
      category := db.category,
      image := db.imageUrl,
      gallery := Some(SortedTexts(db.destinationGallery, GalleryOrder, GalleryImage)),
      rating := db.rating,
      reviews := db.reviewCount,
      highlights := Some(SortedTexts(db.destinationHighlights, HighlightOrder, HighlightText)),
      activities := Some(match db.destinationActivities
                         case None => []
                         case Some(rows) => Map(rows, ToActivity)),
      recommendedStay := Some(db.recommendedStay),
      budget := Some(db.budgetRange),
      goodFor := Some(db.goodFor.GetOr([])),
      bestTimeToVisit := match db.bestTimeToVisit
                         case None => None
                         case Some(b) => Some(ToBestTime(b)),
      localPhrases := None,
      culturalEtiquette := None,
      itineraries := None)
  }

  /**
   * `transformDestinationWithDetails`: the base view model plus the phrases,
   * the etiquette sorted by `order_index` and the itineraries, each list
   * present and keeping one entry per row.
   */
  function TransformDestinationWithDetails(db: DatabaseDestination): (r: Destination)
    ensures r.localPhrases.Some? && r.culturalEtiquette.Some? && r.itineraries.Some?
    ensures |r.localPhrases.value| == (if db.localPhrases.Some? then |db.localPhrases.value| else 0)
    ensures |r.culturalEtiquette.value| == (if db.culturalEtiquette.Some? then |db.culturalEtiquette.value| else 0)
    ensures |r.itineraries.value| == (if db.itineraries.Some? then |db.itineraries.value| else 0)
    ensures db.localPhrases.Some? ==>
      forall i | 0 <= i < |db.localPhrases.value| :: r.localPhrases.value[i] == ToPhrase(db.localPhrases.value[i])
    ensures db.itineraries.Some? ==>
      forall i | 0 <= i < |db.itineraries.value| :: r.itineraries.value[i] == ToItinerary(db.itineraries.value[i])
  {
    TransformDestination(db).(
      localPhrases := Some(match db.localPhrases
                           case None => []
                           case Some(rows) => Map(rows, ToPhrase)),
      culturalEtiquette := Some(SortedTexts(db.culturalEtiquette, EtiquetteOrder, EtiquetteText)),
      itineraries := Some(match db.itineraries
                          case None => []
                          case Some(rows) => Map(rows, ToItinerary)))
  }

  // ---------------------------------------------------------------------------
  // Properties
  // ---------------------------------------------------------------------------

  /** The scalar fields: `id` is the slug, `image` the image URL, `reviews` the review count, the rest copied. */
  lemma BaseFields(db: DatabaseDestination)
    ensures var r := TransformDestination(db);
      r.id == db.slug && r.image == db.imageUrl && r.reviews == db.reviewCount &&
      r.name == db.name && r.location == db.location && r.description == db.description &&
      r.category == db.category && r.rating == db.rating &&
      r.recommendedStay == Some(db.recommendedStay) && r.budget == Some(db.budgetRange)
  {
  }

  /** The detailed transform agrees with the base one on every base field and only adds the three detail lists. */
  lemma DetailsExtendBase(db: DatabaseDestination)
    ensures TransformDestinationWithDetails(db).(localPhrases := None, culturalEtiquette := None, itineraries := None)
         == TransformDestination(db)
  {
  }

  /** Highlights are the highlight texts of the rows reordered by non-decreasing `order_index`. */
  lemma HighlightsSorted(db: DatabaseDestination)
    requires db.destinationHighlights.Some?
    ensures exists p :: SortedBy(p, HighlightOrder) && multiset(p) == multiset(db.destinationHighlights.value) &&
                        TransformDestination(db).highlights == Some(Map(p, HighlightText))
  {
    var p := SortBy(db.destinationHighlights.value, HighlightOrder);
    assert TransformDestination(db).highlights == Some(Map(p, HighlightText));
  }

  /** Gallery images are the image URLs of the rows reordered by non-decreasing `order_index`. */
  lemma GallerySorted(db: DatabaseDestination)
    requires db.destinationGallery.Some?
    ensures exists p :: SortedBy(p, GalleryOrder) && multiset(p) == multiset(db.destinationGallery.value) &&
                        TransformDestination(db).gallery == Some(Map(p, GalleryImage))
  {
    var p := SortBy(db.destinationGallery.value, GalleryOrder);
    assert TransformDestination(db).gallery == Some(Map(p, GalleryImage));
  }

  /** Missing child rows and a missing `good_for` give empty lists, not undefined ones. */
  lemma MissingListsBecomeEmpty(db: DatabaseDestination)
    requires db.destinationHighlights.None? && db.destinationActivities.None? && db.destinationGallery.None?
    requires db.goodFor.None?
    ensures var r := TransformDestination(db);
      r.highlights == Some([]) && r.activities == Some([]) && r.gallery == Some([]) && r.goodFor == Some([])
  {
  }

  /**
   * Activities keep the order of the rows and their name, description and
   * duration, and each price reads back as the row's `price_xaf`.
   */
  lemma ActivityPrices(db: DatabaseDestination)
    requires db.destinationActivities.Some?
    ensures var acts := TransformDestination(db).activities.value;
      var rows := db.destinationActivities.value;
      |acts| == |rows| &&
      forall i | 0 <= i < |rows| ::
        acts[i].name == rows[i].name && acts[i].description == rows[i].description &&
        acts[i].duration == rows[i].duration && ParseInt(acts[i].price) == Some(rows[i].priceXaf)
  {
  }

  /** A present `good_for` is copied, and a present best time keeps its period, description and months. */
  lemma GoodForAndBestTime(db: DatabaseDestination)
    ensures var r := TransformDestination(db);
      (db.goodFor.Some? ==> r.goodFor == db.goodFor) &&
      (db.bestTimeToVisit.Some? ==>
         r.bestTimeToVisit.value.period == db.bestTimeToVisit.value.period &&
         r.bestTimeToVisit.value.description == db.bestTimeToVisit.value.description &&
         r.bestTimeToVisit.value.recommendedMonths == db.bestTimeToVisit.value.recommendedMonths)
  {
  }

  /** Etiquette tips are the tips of the rows reordered by non-decreasing `order_index`. */
  lemma EtiquetteSorted(db: DatabaseDestination)
    requires db.culturalEtiquette.Some?
    ensures exists p :: SortedBy(p, EtiquetteOrder) && multiset(p) == multiset(db.culturalEtiquette.value) &&
                        TransformDestinationWithDetails(db).culturalEtiquette == Some(Map(p, EtiquetteText))
  {
    var p := SortBy(db.culturalEtiquette.value, EtiquetteOrder);
    assert TransformDestinationWithDetails(db).culturalEtiquette == Some(Map(p, EtiquetteText));
  }

  /**
   * Each itinerary keeps its row's title and description, and lists its days
   * as those of a permutation of the day rows sorted by `day_number`; missing
   * day rows give no days.
   */
  lemma ItineraryDaysSorted(db: DatabaseDestination, i: nat)
    requires db.itineraries.Some? && i < |db.itineraries.value|
    ensures var t := db.itineraries.value[i];
      var it := TransformDestinationWithDetails(db).itineraries.value[i];
      it.title == t.title && it.description == t.description &&
      (t.itineraryDays.None? ==> it.days == []) &&
      (t.itineraryDays.Some? ==>
         exists p :: SortedBy(p, DayOrder) && multiset(p) == multiset(t.itineraryDays.value) && it.days == Map(p, ToDay))
  {
  }

  /**
   * Each day of an itinerary comes from one of its day rows, keeping its
   * title and description, and lists its activities as those of a
   * permutation of that row's activity rows sorted by `order_index` (each
   * step keeping its time, title and description, by `ToDayActivity`).
   */
  lemma DayActivitiesSorted(db: DatabaseDestination, i: nat, j: nat)
    requires db.itineraries.Some? && i < |db.itineraries.value|
    requires db.itineraries.value[i].itineraryDays.Some?
    requires j < |TransformDestinationWithDetails(db).itineraries.value[i].days|
    ensures var dayRows := db.itineraries.value[i].itineraryDays.value;
      var day := TransformDestinationWithDetails(db).itineraries.value[i].days[j];
      exists d :: d in dayRows && day == ToDay(d) && day.title == d.title && day.description == d.description &&
        (d.itineraryActivities.None? ==> day.activities == []) &&
        (d.itineraryActivities.Some? ==>
           exists p :: SortedBy(p, StepOrder) && multiset(p) == multiset(d.itineraryActivities.value) &&
                       day.activities == Map(p, ToDayActivity))
  {
    var dayRows := db.itineraries.value[i].itineraryDays.value;
    var it := TransformDestinationWithDetails(db).itineraries.value[i];
    ItineraryDaysSorted(db, i);
    var p :| SortedBy(p, DayOrder) && multiset(p) == multiset(dayRows) && it.days == Map(p, ToDay);
    var d := p[j];
    assert d in multiset(p);
    assert it.days[j] == ToDay(d);
  }

  /** Phrases keep the order of the rows, with the columns renamed and a present pronunciation kept. */
  lemma PhrasesRenamed(db: DatabaseDestination)
    requires db.localPhrases.Some?
    ensures var out := TransformDestinationWithDetails(db).localPhrases.value;
      var rows := db.localPhrases.value;
      |out| == |rows| &&
      forall i | 0 <= i < |rows| ::
        out[i].english == rows[i].englishPhrase && out[i].phrase == rows[i].localPhrase &&
        out[i].language == rows[i].language &&
        (rows[i].pronunciation.Some? ==> out[i].pronunciation == rows[i].pronunciation.value)
  {
  }

  /** A phrase whose pronunciation is null is shown with an empty pronunciation. */
  lemma MissingPronunciation(db: DatabaseDestination, i: nat)
    requires db.localPhrases.Some? && i < |db.localPhrases.value|
    requires db.localPhrases.value[i].pronunciation.None?
    ensures TransformDestinationWithDetails(db).localPhrases.value[i].pronunciation == ""
  {
  }
}
