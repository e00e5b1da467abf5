/**
 * The built-in table of popular destinations and its three lookups: the whole
 * table, the entry with a given id, and the entries of a category compared
 * without regard to case.
 */
module DestinationData {
  import opened Wrappers
  import opened Text
  import opened Sequences
  import opened DestinationTypes

  const KribiBeach: Destination := Destination(
    id := "kribi-beach",
    name := "Kribi Beach",
    location := "Kribi, South Region",
    description := "Kribi is home to Cameroon's most beautiful beaches with golden sand, palm trees, and clear blue waters. Enjoy fresh seafood, visit the Lobé Waterfalls where the river meets the ocean, and experience the vibrant local culture.",
    category := "Beaches",
    image := "https://images.pexels.com/photos/1591373/pexels-photo-1591373.jpeg",
    gallery := Some([
        "https://images.pexels.com/photos/1021073/pexels-photo-1021073.jpeg",
        "https://images.pexels.com/photos/3935702/pexels-photo-3935702.jpeg",
        "https://images.pexels.com/photos/1287460/pexels-photo-1287460.jpeg",
        "https://images.pexels.com/photos/2499699/pexels-photo-2499699.jpeg"
      ]),
    rating := 4.8,
    reviews := 246,
    highlights := Some([
        "Pristine golden sand beaches stretching for kilometers",
        "Lobé Waterfalls - one of the few places in the world where a waterfall meets the ocean",
        "Fresh seafood restaurants serving the catch of the day",
        "Pygmy village visits for cultural experiences"
      ]),
    activities := Some([
        Activity("Beach Relaxation", "Enjoy swimming, sunbathing, and beach sports on the pristine golden sands", "1-3 hours", "0"),
        Activity("Lobé Waterfalls Tour", "Visit the unique waterfall that flows directly into the Atlantic Ocean", "2 hours", "5,000"),
        Activity("Fishing Excursion", "Join local fishermen for a traditional fishing experience", "4 hours", "15,000"),
        Activity("Pygmy Village Cultural Visit", "Experience the unique culture and traditions of the forest people", "Half day", "20,000")
      ]),
    recommendedStay := Some("2-3 days"),
    budget := Some("25,000 - 50,000 XAF per day"),
    goodFor := Some(["Couples", "Families", "Beach lovers", "Photographers"]),
    bestTimeToVisit := Some(BestTimeToVisit(
        "November to February",
        "The dry season offers sunny days with less rainfall, perfect for beach activities and exploring the waterfalls.",
        [11, 12, 1, 2])),
    localPhrases := Some([
        LocalPhrase("Hello", "French", "Bonjour", "bohn-zhoor"),
        LocalPhrase("Thank you", "French", "Merci", "mehr-see"),
        LocalPhrase("How much is this?", "French", "C'est combien?", "say kom-bee-yan"),
        LocalPhrase("Beautiful beach", "French", "Belle plage", "bell plahzh")
      ]),
    culturalEtiquette := Some([
        "Always greet people before starting a conversation",
        "Ask permission before taking photos of locals",
        "Bargaining is expected at markets, but do it respectfully",
        "Dress modestly when visiting local communities",
        "Remove shoes when invited into someone's home"
      ]),
    itineraries := Some([
        Itinerary(
          "Kribi Beach Weekend Getaway",
          "A perfect 2-day escape to experience the best of Kribi's coastal beauty and culture.",
          [
            Day(
              "Beach Relaxation & Waterfalls",
              "Spend your first day enjoying the beautiful beaches and visiting the famous Lobé Waterfalls.",
              [
                DayActivity("8:00 AM", "Breakfast by the beach", "Start your day with fresh fruits and local pastries at a beachside café."),
                DayActivity("10:00 AM", "Beach time", "Relax on the golden sands, swim in the warm Atlantic waters, or try beach sports."),
                DayActivity("1:00 PM", "Seafood lunch", "Enjoy fresh seafood at one of the many beachside restaurants."),
                DayActivity("3:00 PM", "Lobé Waterfalls visit", "Take a short trip to see the unique waterfall that flows directly into the ocean."),
                DayActivity("6:00 PM", "Sunset drinks", "Watch the sunset over the Atlantic with a refreshing cocktail.")
              ]),
            Day(
              "Cultural Experiences",
              "Explore the local culture and natural surroundings of Kribi.",
              [
                DayActivity("9:00 AM", "Local market visit", "Explore the colorful market to see local produce, crafts, and daily life."),
                DayActivity("11:00 AM", "Pygmy village tour", "Visit a nearby Pygmy community to learn about their traditional forest lifestyle."),
                DayActivity("2:00 PM", "Canoe river trip", "Take a traditional canoe up the Lobé River to see wildlife and lush vegetation."),
                DayActivity("5:00 PM", "Fresh fish barbecue", "Enjoy a traditional fish barbecue prepared by local fishermen on the beach.")
              ])
          ])
      ]))

  const MountCameroon: Destination := Destination(
    id := "mount-cameroon",
    name := "Mount Cameroon",
    location := "Buea, Southwest Region",
    description := "Also known as \"Chariot of the Gods,\" Mount Cameroon is West Africa's highest peak and an active volcano. The mountain offers various trekking routes through diverse ecosystems, from rainforest to alpine grasslands, with stunning views of the Atlantic Ocean.",
    category := "Nature",
    image := "https://images.pexels.com/photos/1271619/pexels-photo-1271619.jpeg",
    gallery := None,
    rating := 4.9,
    reviews := 189,
    highlights := Some([
        "West Africa's highest peak at 4,040 meters (13,255 feet)",
        "Active volcano with the most recent eruption in 2012",
        "Multiple hiking routes for different fitness levels",
        "Diverse ecosystems from rainforest to savannah to alpine"
      ]),
    activities := Some([
        Activity("1-Day Hike to First Hut", "A shorter trek to experience the mountain without summiting", "6-8 hours", "30,000"),
        Activity("2-Day Summit Trek", "The classic route to reach the summit with an overnight stay in mountain huts", "2 days", "80,000"),
        Activity("3-Day Traverse Route", "The complete mountain experience crossing from Buea to Idenau", "3 days", "120,000")
      ]),
    recommendedStay := None,
    budget := None,
    goodFor := None,
    bestTimeToVisit := None,
    localPhrases := None,
    culturalEtiquette := None,
    itineraries := None)

  const LimbeBotanicalGarden: Destination := Destination(
    id := "limbe-botanical-garden",
    name := "Limbe Botanical Garden",
    location := "Limbe, Southwest Region",
    description := "Founded in 1892, these historic gardens showcase Cameroon's incredible plant diversity. Explore lush tropical gardens, medicinal plant collections, and enjoy spectacular views of the Atlantic Ocean with Mount Cameroon as a backdrop.",
    category := "Nature",
    image := "https://images.pexels.com/photos/158028/bellingrath-gardens-alabama-landscape-scenic-158028.jpeg",
    gallery := None,
    rating := 4.6,
    reviews := 157,
    highlights := Some([
        "One of Africa's oldest botanical gardens established in 1892",
        "Over 1,500 plant species including rare medicinal plants",
        "Beautiful ocean views with Mount Cameroon in the background",
        "Monkey sanctuary with several primate species"
      ]),
    activities := None,
    recommendedStay := None,
    budget := None,
    goodFor := None,
    bestTimeToVisit := None,
    localPhrases := None,
    culturalEtiquette := None,
    itineraries := None)

  const WazaNationalPark: Destination := Destination(
    id := "waza-national-park",
    name := "Waza National Park",
    location := "Far North Region",
    description := "Cameroon's most famous wildlife reserve covers over 1,700 square kilometers of savannah. Spot lions, elephants, giraffes, and numerous bird species in their natural habitat. The park offers an authentic safari experience without the crowds of more commercial destinations.",
    category := "Nature",
    image := "https://images.pexels.com/photos/259547/pexels-photo-259547.jpeg",
    gallery := None,
    rating := 4.7,
    reviews := 123,
    highlights := Some([
        "Cameroon's most prominent national park and UNESCO Biosphere Reserve",
        "Home to lions, elephants, giraffes, antelopes, and over 379 bird species",
        "Authentic safari experience with fewer tourists than East African parks",
        "Traditional villages around the park periphery"
      ]),
    activities := None,
    recommendedStay := None,
    budget := None,
    goodFor := None,
    bestTimeToVisit := None,
    localPhrases := None,
    culturalEtiquette := None,
    itineraries := None)

  const BafutPalace: Destination := Destination(
    id := "bafut-palace",
    name := "Bafut Palace",
    location := "Bafut, Northwest Region",
    description := "The traditional residence of the Fon (king) of Bafut showcases the rich cultural heritage of Cameroon's grassland kingdoms. The palace complex includes traditional buildings, a museum, and is famous for its colorful annual festivals featuring masked dancers.",
    category := "Culture",
    image := "https://images.pexels.com/photos/5243606/pexels-photo-5243606.jpeg",
    gallery := None,
    rating := 4.5,
    reviews := 98,
    highlights := Some([
        "Traditional seat of the Fon (king) of the Bafut people",
        "UNESCO World Heritage tentative list site",
        "Historic buildings dating back to the 16th century",
        "Museum with royal artifacts and traditional crafts"
      ]),
    activities := None,
    recommendedStay := None,
    budget := None,
    goodFor := None,
    bestTimeToVisit := None,
    localPhrases := None,
    culturalEtiquette := None,
    itineraries := None)

  const YaoundeCity: Destination := Destination(
    id := "yaounde",
    name := "Yaoundé",
    location := "Centre Region",
    description := "Cameroon's capital is known as the \"city of seven hills,\" offering a blend of modern African urban life with traditional elements. Visit the National Museum, bustling markets, and enjoy the city's vibrant nightlife and culinary scene.",
    category := "Cities",
    image := "https://images.pexels.com/photos/1105766/pexels-photo-1105766.jpeg",
    gallery := None,
    rating := 4.3,
    reviews := 210,
    highlights := Some([
        "The \"City of Seven Hills\" with beautiful viewpoints",
        "National Museum showcasing Cameroon's diverse culture",
        "Fascinating markets including Marché Central and Mokolo Market",
        "Diverse cuisine from all regions of Cameroon"
      ]),
    activities := None,
    recommendedStay := None,
    budget := None,
    goodFor := None,
    bestTimeToVisit := None,
    localPhrases := None,
    culturalEtiquette := None,
    itineraries := None)

  const DoualaCity: Destination := Destination(
    id := "douala",
    name := "Douala",
    location := "Littoral Region",
    description := "Cameroon's largest city and economic capital offers visitors a glimpse into modern urban African life. Explore art galleries, enjoy the vibrant nightlife, sample diverse cuisine, and use the city as a gateway to coastal attractions.",
    category := "Cities",
    image := "https://images.pexels.com/photos/3876328/pexels-photo-3876328.jpeg",
    gallery := None,
    rating := 4.1,
    reviews := 175,
    highlights := Some([
        "Cameroon's largest city and economic powerhouse",
        "Vibrant art scene with galleries and public sculptures",
        "Wouri River and maritime history",
        "Gateway to coastal attractions like Kribi and Limbe"
      ]),
    activities := None,
    recommendedStay := None,
    budget := None,
    goodFor := None,
    bestTimeToVisit := None,
    localPhrases := None,
    culturalEtiquette := None,
    itineraries := None)

  const DjaFaunalReserve: Destination := Destination(
    id := "dja-reserve",
    name := "Dja Faunal Reserve",
    location := "South Region",
    description := "This UNESCO World Heritage site protects one of Africa's largest and best-preserved rainforests. The reserve is home to over 100 mammal species, including forest elephants, gorillas, chimpanzees, and a remarkable diversity of birds and plants.",
    category := "Nature",
    image := "https://images.pexels.com/photos/358457/pexels-photo-358457.jpeg",
    gallery := None,
    rating := 4.8,
    reviews := 75,
    highlights := Some([
        "UNESCO World Heritage Site protecting pristine rainforest",
        "Home to endangered species including forest elephants and gorillas",
        "Over 1,500 plant species and incredible biodiversity",
        "Traditional Baka Pygmy communities with unique forest knowledge"
      ]),
    activities := None,
    recommendedStay := None,
    budget := None,
    goodFor := None,
    bestTimeToVisit := None,
    localPhrases := None,
    culturalEtiquette := None,
    itineraries := None)

  /** `popularDestinations`, in table order. */
  const PopularDestinations: seq<Destination> :=
    [KribiBeach, MountCameroon, LimbeBotanicalGarden, WazaNationalPark,
     BafutPalace, YaoundeCity, DoualaCity, DjaFaunalReserve]

  /** `getAllDestinations`: the table itself, same entries in the same order. */
  function GetAllDestinations(): (r: seq<Destination>)
    ensures r == PopularDestinations
  {
    PopularDestinations
  }

  /**
   * `getDestinationById`: the first entry with that id, or nothing when no
   * entry has it.
   */
  function GetDestinationById(id: string): (r: Option<Destination>)
    ensures r.None? <==> forall i | 0 <= i < |PopularDestinations| :: PopularDestinations[i].id != id
    ensures r.Some? ==> r.value.id == id && r.value in PopularDestinations
  {
    Find(PopularDestinations, (d: Destination) => d.id == id)
  }

  /** `getDestinationsByCategory`: the entries whose category equals the argument once both are lowercased, in table order. */
  function GetDestinationsByCategory(category: string): (r: seq<Destination>)
    ensures Subsequence(r, PopularDestinations)
    ensures forall d :: d in r <==> d in PopularDestinations && Lower(d.category) == Lower(category)
  {
    var r := Filter(PopularDestinations, (d: Destination) => Lower(d.category) == Lower(category));
    forall d ensures d in r <==> d in PopularDestinations && Lower(d.category) == Lower(category) {
      FilterMembership(PopularDestinations, (d: Destination) => Lower(d.category) == Lower(category), d);
    }
    r
  }

  /** No two entries of the table share an id. */
  lemma IdsDistinct()
    ensures forall i, j | 0 <= i < j < |PopularDestinations| :: PopularDestinations[i].id != PopularDestinations[j].id
  {
  }

  /** Every recommended month in the table lies in 1..12. */
  lemma MonthsInRange()
    ensures forall i | 0 <= i < |PopularDestinations| :: MonthsValid(PopularDestinations[i])
  {
  }

  /** As ids are distinct, the lookup by id answers `d` exactly for the entry `d` carrying that id. */
  lemma GetByIdExact(id: string, d: Destination)
    ensures GetDestinationById(id) == Some(d) <==> d in PopularDestinations && d.id == id
  {
    IdsDistinct();
  }

  /** The lookup of an id of the table finds its entry. */
  lemma GetKribiBeach()
    ensures GetDestinationById("kribi-beach") == Some(KribiBeach)
  {
    GetByIdExact("kribi-beach", KribiBeach);
  }

  /** Filters whose predicates agree on every element of the sequence give the same result. */
  lemma {:induction false} FilterAgrees(s: seq<Destination>, p: Destination -> bool, q: Destination -> bool)
    requires forall i | 0 <= i < |s| :: p(s[i]) == q(s[i])
    ensures Filter(s, p) == Filter(s, q)
    decreases |s|
  {
    if s != [] {
      FilterAgrees(s[1..], p, q);
    }
  }

  /** The category lookup ignores the case of its argument: arguments equal once lowercased select the same entries. */
  lemma CategoryIgnoresCase(a: string, b: string)
    requires Lower(a) == Lower(b)
    ensures GetDestinationsByCategory(a) == GetDestinationsByCategory(b)
  {
    FilterAgrees(PopularDestinations,
      (d: Destination) => Lower(d.category) == Lower(a),
      (d: Destination) => Lower(d.category) == Lower(b));
  }

  /** In particular a category and its lowercase form select the same entries. */
  lemma CategoryLowercased(category: string)
    ensures GetDestinationsByCategory(category) == GetDestinationsByCategory(Lower(category))
  {
    LowerIdempotent(category);
    CategoryIgnoresCase(category, Lower(category));
  }

  /** Only the first entry of the table is in the beaches category, once lowercased. */
  lemma OnlyKribiIsBeaches()
    ensures Lower(PopularDestinations[0].category) == "beaches"
    ensures forall i | 1 <= i < |PopularDestinations| :: Lower(PopularDestinations[i].category) != "beaches"
  {
    assert Lower("Beaches") == "beaches";
    assert |Lower("Nature")| != |"beaches"|;
    assert |Lower("Cities")| != |"beaches"|;
    assert Lower("Culture")[0] != "beaches"[0];
  }

  /** The beaches category holds the single beach destination. */
  lemma BeachesCategory()
    ensures GetDestinationsByCategory("beaches") == [KribiBeach]
  {
    var p := (d: Destination) => Lower(d.category) == Lower("beaches");
    assert Lower("beaches") == "beaches";
    OnlyKribiIsBeaches();
    FilterNone(PopularDestinations[1..], p);
    assert Filter(PopularDestinations, p) == [KribiBeach] + Filter(PopularDestinations[1..], p);
  }

  /** "beaches" and "Beaches" select the same entries. */
  lemma BeachesEitherCase()
    ensures GetDestinationsByCategory("Beaches") == GetDestinationsByCategory("beaches")
  {
    assert Lower("Beaches") == Lower("beaches");
    CategoryIgnoresCase("Beaches", "beaches");
  }
}
