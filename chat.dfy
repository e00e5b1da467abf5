/**
 * The rule-based chat responder: the message is lowercased, fifteen topic
 * rules are tried in a fixed order, and the canned reply of the first rule
 * that holds is returned, or a default reply when none holds. Each rule asks
 * whether the lowercased message contains any (or all) of a list of words,
 * as plain substrings.
 */
module Chat {
  import opened Text

  /** The sixteen canned replies: one per rule, in rule order, then the default. */
  datatype Topic =
    | Greeting | BestTime | Beaches | Mountain | Yaounde | Wildlife | Culture | Itinerary
    | Budget | Food | Transport | Language | Safety | Accommodation | OffTopic | Fallback

  /** Position of a topic in the order of evaluation; the default comes last. */
  function Rank(t: Topic): nat {
    match t
    case Greeting => 0
    case BestTime => 1
    case Beaches => 2
    case Mountain => 3
    case Yaounde => 4
    case Wildlife => 5
    case Culture => 6
    case Itinerary => 7
    case Budget => 8
    case Food => 9
    case Transport => 10
    case Language => 11
    case Safety => 12
    case Accommodation => 13
    case OffTopic => 14
    case Fallback => 15
  }

  // ---------------------------------------------------------------------------
  // Word matching
  // ---------------------------------------------------------------------------

  /** `words.some(word => text.includes(word))`. */
  predicate ContainsAnyWord(text: string, words: seq<string>)
    ensures ContainsAnyWord(text, words) <==> exists i | 0 <= i < |words| :: Contains(text, words[i])
    decreases |words|
  {
    |words| > 0 && (Contains(text, words[0]) || ContainsAnyWord(text, words[1..]))
  }

  /** `words.every(word => text.includes(word))`. */
  predicate ContainsAllWords(text: string, words: seq<string>)
    ensures ContainsAllWords(text, words) <==> forall i | 0 <= i < |words| :: Contains(text, words[i])
    decreases |words|
  {
    |words| == 0 || (Contains(text, words[0]) && ContainsAllWords(text, words[1..]))
  }

  const GreetingWords: seq<string> := ["hello", "hi", "hey", "greetings", "bonjour"]
  const BestTimeWords: seq<string> := ["best", "time", "visit"]
  const BeachWords: seq<string> := ["beach", "beaches", "coast", "ocean", "sea"]
  const MountainWords: seq<string> := ["mountain", "mount", "climbing", "hiking", "trekking"]
  const WildlifeWords: seq<string> := ["wildlife", "animals", "safari", "park"]
  const CultureWords: seq<string> := ["culture", "tradition", "history", "heritage", "museum"]
  const TripLengthWords: seq<string> := ["how", "many", "days"]
  const ItineraryWords: seq<string> := ["itinerary", "plan", "schedule"]
  const BudgetWords: seq<string> := ["cost", "budget", "expensive", "cheap", "price", "money"]
  const FoodWords: seq<string> := ["food", "eat", "cuisine", "dish", "restaurant"]
  const TransportWords: seq<string> := ["transport", "transportation", "travel", "car", "bus", "taxi"]
  const LanguageWords: seq<string> := ["language", "speak", "communication", "french", "english"]
  const SafetyWords: seq<string> := ["safety", "safe", "danger", "security"]
  const AccommodationWords: seq<string> := ["accommodation", "hotel", "stay", "lodge", "hostel"]
  const OffTopicWords: seq<string> := ["bitcoin", "crypto", "stock", "invest", "forex", "programming", "coding"]

  /** The condition of each rule on the lowercased message; the default always applies. */
  predicate Matches(t: Topic, lower: string) {
    match t
    case Greeting => ContainsAnyWord(lower, GreetingWords)
    case BestTime => ContainsAllWords(lower, BestTimeWords)
    case Beaches => ContainsAnyWord(lower, BeachWords) || ContainsAllWords(lower, ["kribi"])
    case Mountain => ContainsAnyWord(lower, MountainWords) || ContainsAllWords(lower, ["cameroon", "mount"])
    case Yaounde => ContainsAllWords(lower, ["yaounde"]) || ContainsAllWords(lower, ["yaoundé"])
    case Wildlife => ContainsAnyWord(lower, WildlifeWords) || ContainsAllWords(lower, ["waza"])
    case Culture => ContainsAnyWord(lower, CultureWords)
    case Itinerary => ContainsAllWords(lower, TripLengthWords) || ContainsAnyWord(lower, ItineraryWords)
    case Budget => ContainsAnyWord(lower, BudgetWords)
    case Food => ContainsAnyWord(lower, FoodWords)
    case Transport => ContainsAnyWord(lower, TransportWords)
    case Language => ContainsAnyWord(lower, LanguageWords)
    case Safety => ContainsAnyWord(lower, SafetyWords)
    case Accommodation => ContainsAnyWord(lower, AccommodationWords)
    case OffTopic => ContainsAnyWord(lower, OffTopicWords)
    case Fallback => true
  }

  // ---------------------------------------------------------------------------
  // The responder
  // ---------------------------------------------------------------------------

  /**
   * The chain of rules, tried in source order. The result is the first topic
   * whose rule holds: its rule holds, and no rule tried before it does.
   */
  function Classify(lower: string): (r: Topic)
    ensures Matches(r, lower)
    ensures forall t :: Rank(t) < Rank(r) ==> !Matches(t, lower)
  {
    if Matches(Greeting, lower) then Greeting
    else if Matches(BestTime, lower) then BestTime
    else if Matches(Beaches, lower) then Beaches
    else if Matches(Mountain, lower) then Mountain
    else if Matches(Yaounde, lower) then Yaounde
    else if Matches(Wildlife, lower) then Wildlife
    else if Matches(Culture, lower) then Culture
    else if Matches(Itinerary, lower) then Itinerary
    else if Matches(Budget, lower) then Budget
    else if Matches(Food, lower) then Food
    else if Matches(Transport, lower) then Transport
    else if Matches(Language, lower) then Language
    else if Matches(Safety, lower) then Safety
    else if Matches(Accommodation, lower) then Accommodation
    else if Matches(OffTopic, lower) then OffTopic
    else Fallback
  }

  // ---------------------------------------------------------------------------
  // The replies
  // ---------------------------------------------------------------------------

  const GreetingReply: string :=
    "Hello! I'm your CamTourVisor. How can I help you plan your visit to Cameroon today?"
  const BestTimeReply: string :=
    "The best time to visit Cameroon depends on the region and your interests. Generally, the dry seasons (November to February and June to August) are ideal for most tourist activities. The northern regions are best visited during the cooler months (October to April), while coastal areas like Kribi and Limbe can be enjoyed year-round, with slightly less rainfall from November to February."
  const BeachesReply: string :=
    "Cameroon has beautiful beaches along its Atlantic coastline. The most popular beach destination is Kribi, known for its golden sand beaches and the unique Lobé Waterfalls that flow directly into the ocean. Limbe also offers volcanic black sand beaches with views of Mount Cameroon. Both offer fresh seafood, water activities, and cultural experiences. The best time to visit is during the dry season (November to February). Accommodations range from 15,000 to 100,000 XAF per night depending on your preferences."
  const MountainReply: string :=
    "Mount Cameroon (4,040m) is West Africa's highest peak and an active volcano located near Buea. There are several trekking routes ranging from 1-3 days, suitable for different experience levels. The best time to climb is during the dry season (November to February or June to August). A 2-day trek costs around 80,000-150,000 XAF including guides, porters, and park fees. You'll need good hiking boots, warm clothing for the summit, and rain gear. Guided tours are mandatory for safety reasons.\n\nIn French: 'Le Mont Cameroun est le point culminant de l'Afrique de l'Ouest et un volcan actif.'"
  const YaoundeReply: string :=
    "Yaoundé, the capital city of Cameroon, is known as the 'city of seven hills.' Top attractions include the National Museum, the Reunification Monument, Mefou National Park, and the Notre Dame Cathedral. I recommend spending 2-3 days to fully explore the city. Accommodation costs range from 15,000 to 80,000 XAF per night. The city has a pleasant climate year-round due to its elevation, with temperatures averaging 24°C. You can get around using taxis (starting at 500 XAF for shared taxis) or motorcycle taxis called 'benskins' (300-500 XAF for short trips)."
  const WildlifeReply: string :=
    "Waza National Park in the Far North region is Cameroon's most famous wildlife reserve. It's home to elephants, lions, giraffes, antelopes, and numerous bird species. The best time to visit is during the dry season (November to April) when animals gather around water sources. A safari typically costs 50,000-100,000 XAF per day including guide fees. Other notable wildlife destinations include Lobéké National Park for gorilla tracking and Korup National Park for primates and rare bird species."
  const CultureReply: string :=
    "Cameroon is known as 'Africa in miniature' due to its cultural diversity with over 250 ethnic groups. Cultural highlights include the Bafut Palace (home of the Fon of Bafut), the Sultanate of Foumban with its palace museum, and the Baka Pygmy communities in the east. Traditional festivals occur year-round, with the most spectacular being the Ngondo Festival (Douala, December) and Nyem-Nyem Festival (Adamawa, April). The National Museum in Yaoundé displays artifacts from across the country. Many communities welcome visitors, but always show respect by asking permission before taking photos and following local customs."
  const ItineraryReply: string :=
    "For a comprehensive Cameroon experience, I recommend 10-14 days. Here's a sample itinerary:\n\n- Days 1-2: Yaoundé (capital city, museums, culture)\n- Days 3-5: Kribi (beaches, waterfalls, coastal life)\n- Days 6-8: Limbe & Buea (botanical garden, wildlife center, Mount Cameroon)\n- Days 9-10: Bamenda & Bafut (grassfields culture, traditional palaces)\n\nIf you have less time, focus on one region - either the coastal areas (Douala, Kribi, Limbe) or the western highlands (Bamenda, Bafut, Foumban). For specific interests like wildlife or culture, I can suggest more targeted itineraries."
  const BudgetReply: string :=
    "Cameroon can be enjoyed on various budgets. Here's a rough cost breakdown (in XAF):\n\n- Budget: 25,000-40,000 per day\n  • Accommodation: 10,000-15,000 in guesthouses\n  • Meals: 1,500-3,000 at local restaurants\n  • Transportation: 3,000-5,000 for shared taxis\n\n- Mid-range: 40,000-80,000 per day\n  • Accommodation: 20,000-40,000 in 3-star hotels\n  • Meals: 3,000-8,000 at good restaurants\n  • Transportation: 10,000-15,000 for private taxis\n\n- Luxury: 80,000+ per day\n  • Accommodation: 50,000+ in 4-5 star hotels\n  • Meals: 10,000+ at top restaurants\n  • Transportation: 30,000+ for private drivers\n\nAdditional costs include park fees (5,000-15,000), guided tours (20,000-50,000), and souvenirs."
  const FoodReply: string :=
    "Cameroonian cuisine is diverse and flavorful. Must-try dishes include:\n\n- Ndolé: The national dish made with bitter leaves, nuts, and fish or beef\n- Poulet DG (Directeur Général): Chicken with plantains in a spicy sauce\n- Eru: A nutritious vegetable soup with meat and waterleaf\n- Koki: Steamed bean pudding wrapped in banana leaves\n- Pepper soup: Spicy meat or fish soup with intense flavors\n- Brochettes: Grilled meat skewers found at street stalls\n\nIn major cities, meals at local restaurants cost 1,500-5,000 XAF. Street food is cheaper and often delicious. For drinks, try palm wine (mímbo), 33 Export beer, and Tangui mineral water. French is helpful for reading menus, though many places have pictures or English translations."
  const TransportReply: string :=
    "Getting around Cameroon:\n\n- Between cities: Intercity buses (2,000-10,000 XAF depending on distance) or shared taxis (slightly more expensive but faster)\n- Within cities: Shared taxis (300-500 XAF per trip), motorcycle taxis called 'benskins' (200-500 XAF for short trips), or private taxis (negotiate before boarding, typically 1,000-3,000 XAF)\n- Car rental: Available in major cities (40,000-60,000 XAF per day, international license required)\n\nTravel times: Yaoundé to Douala (3-4 hours), Yaoundé to Kribi (4-5 hours), Douala to Limbe (1-2 hours). Roads vary in quality; major highways are generally good, but secondary roads may be challenging, especially during the rainy season."
  const LanguageReply: string :=
    "Cameroon is officially bilingual with French and English as official languages. French is more widely spoken (about 70% of the population), while English is common in the Northwest and Southwest regions. Additionally, there are over 250 local languages!\n\nUseful French phrases:\n- Hello: Bonjour (bohn-zhoor)\n- Thank you: Merci (mehr-see)\n- How much?: C'est combien? (say kom-bee-yan)\n- Where is...?: Où est...? (oo eh)\n\nUseful English Pidgin phrases:\n- Hello: How di body?\n- Thank you: Thank you plenty\n- How much?: How much?\n- Where is...?: Weti side...?\n\nIn tourist areas, you'll find people who speak basic English, but learning a few French phrases is highly recommended."
  const SafetyReply: string :=
    "Cameroon is generally safe for tourists in the main travel areas, but like any destination, awareness is important. The major tourist destinations like Kribi, Limbe, Yaoundé (central areas), and Douala (central areas) are considered safe for visitors.\n\nTravel advisories recommend avoiding the Far North region (except Waza with proper guides), the Northwest and Southwest regions, and border areas with Nigeria, Central African Republic, and Chad.\n\nPractical safety tips:\n- Keep valuables secure and be discreet with expensive items\n- Use reputable taxi services, especially at night\n- Carry photocopies of your passport and keep the original in a hotel safe\n- Get yellow fever vaccination (required) and take malaria precautions\n- Drink bottled or purified water\n\nIt's advisable to check your country's latest travel advisories before planning your trip."
  const AccommodationReply: string :=
    "Accommodation options in Cameroon range from international hotels to local guesthouses:\n\n- Budget (10,000-20,000 XAF): Simple guesthouses and hostels with basic amenities\n- Mid-range (20,000-50,000 XAF): 3-star hotels with reliable services and amenities\n- Luxury (50,000+ XAF): 4-5 star international hotels mainly in Yaoundé and Douala\n\nIn major tourist areas like Kribi and Limbe, beachfront hotels are available at various price points. In national parks, accommodation options include lodges and tented camps.\n\nIt's advisable to book in advance for high-end hotels and during peak tourist seasons. Many smaller establishments may not have online booking, so contacting them directly by phone is recommended. Most hotels accept cash payment in XAF, and higher-end properties accept credit cards."
  const OffTopicReply: string :=
    "I specialize in helping with tourism-related queries about Cameroon. For information on other topics, please consult a general knowledge assistant or appropriate expert."
  const FallbackReply: string :=
    "Thank you for your interest in Cameroon travel! I'd be happy to provide information about attractions, accommodations, transportation, local customs, or help you plan an itinerary. Could you please specify what aspect of Cameroon travel you'd like to learn more about?"

  /** The canned reply of each topic. */
  function Reply(t: Topic): string {
    match t
    case Greeting => GreetingReply
    case BestTime => BestTimeReply
    case Beaches => BeachesReply
    case Mountain => MountainReply
    case Yaounde => YaoundeReply
    case Wildlife => WildlifeReply
    case Culture => CultureReply
    case Itinerary => ItineraryReply
    case Budget => BudgetReply
    case Food => FoodReply
    case Transport => TransportReply
    case Language => LanguageReply
    case Safety => SafetyReply
    case Accommodation => AccommodationReply
    case OffTopic => OffTopicReply
    case Fallback => FallbackReply
  }

  /** `processChatMessage`: the reply of the first rule that holds on the lowercased message. */
  function ProcessChatMessage(message: string): (r: string)
    ensures exists t :: r == Reply(t) && Matches(t, Lower(message)) &&
                        forall u :: Rank(u) < Rank(t) ==> !Matches(u, Lower(message))
  {
    Reply(Classify(Lower(message)))
  }

  /** Length of each reply; the sixteen lengths differ. */
  function ReplyLength(t: Topic): nat {
    match t
    case Greeting => 83
    case BestTime => 387
    case Beaches => 512
    case Mountain => 591
    case Yaounde => 559
    case Wildlife => 495
    case Culture => 624
    case Itinerary => 584
    case Budget => 694
    case Food => 733
    case Transport => 684
    case Language => 675
    case Safety => 856
    case Accommodation => 799
    case OffTopic => 169
    case Fallback => 268
  }

  lemma LengthOfReply(t: Topic)
    ensures |Reply(t)| == ReplyLength(t)
  {
    match t
    case Greeting => assert |GreetingReply| == ReplyLength(Greeting);
    case BestTime => assert |BestTimeReply| == ReplyLength(BestTime);
    case Beaches => assert |BeachesReply| == ReplyLength(Beaches);
    case Mountain => assert |MountainReply| == ReplyLength(Mountain);
    case Yaounde => assert |YaoundeReply| == ReplyLength(Yaounde);
    case Wildlife => assert |WildlifeReply| == ReplyLength(Wildlife);
    case Culture => assert |CultureReply| == ReplyLength(Culture);
    case Itinerary => assert |ItineraryReply| == ReplyLength(Itinerary);
    case Budget => assert |BudgetReply| == ReplyLength(Budget);
    case Food => assert |FoodReply| == ReplyLength(Food);
    case Transport => assert |TransportReply| == ReplyLength(Transport);
    case Language => assert |LanguageReply| == ReplyLength(Language);
    case Safety => assert |SafetyReply| == ReplyLength(Safety);
    case Accommodation => assert |AccommodationReply| == ReplyLength(Accommodation);
    case OffTopic => assert |OffTopicReply| == ReplyLength(OffTopic);
    case Fallback => assert |FallbackReply| == ReplyLength(Fallback);
  }

  // ---------------------------------------------------------------------------
  // Properties of the responder
  // ---------------------------------------------------------------------------

  lemma ReplyLengthInjective(a: Topic, b: Topic)
    ensures ReplyLength(a) == ReplyLength(b) ==> a == b
  {
  }

  /** The replies are pairwise different, so a reply tells which rule fired. */
  lemma ReplyInjective(a: Topic, b: Topic)
    ensures Reply(a) == Reply(b) ==> a == b
  {
    LengthOfReply(a);
    LengthOfReply(b);
    ReplyLengthInjective(a, b);
  }

  /** The reply to a message is the reply of `t` exactly when the chain of rules selects `t`. */
  lemma ReplySelectsTopic(message: string, t: Topic)
    ensures ProcessChatMessage(message) == Reply(t) <==> Classify(Lower(message)) == t
  {
    ReplyInjective(Classify(Lower(message)), t);
  }

  lemma RankInjective(a: Topic, b: Topic)
    ensures Rank(a) == Rank(b) ==> a == b
  {
  }

  /**
   * First match: the chain selects topic `t` exactly when the rule of `t`
   * holds and no rule tried before it holds.
   */
  lemma FirstMatch(lower: string, t: Topic)
    ensures Classify(lower) == t <==>
      Matches(t, lower) && forall u :: Rank(u) < Rank(t) ==> !Matches(u, lower)
  {
    var c := Classify(lower);
    if Matches(t, lower) && forall u :: Rank(u) < Rank(t) ==> !Matches(u, lower) {
      assert !(Rank(c) < Rank(t));
      assert !(Rank(t) < Rank(c));
      RankInjective(c, t);
    }
  }

  /** Case is ignored: a message and its lowercase form get the same reply. */
  lemma CaseInsensitive(message: string)
    ensures ProcessChatMessage(message) == ProcessChatMessage(Lower(message))
  {
    LowerIdempotent(message);
  }

  /** A message that mentions any greeting word gets the greeting, whatever else it says, and no other message does. */
  lemma GreetingFirst(lower: string)
    ensures Classify(lower) == Greeting <==>
      exists i | 0 <= i < |GreetingWords| :: Contains(lower, GreetingWords[i])
  {
    FirstMatch(lower, Greeting);
  }

  /** The default reply is given exactly when none of the fifteen rules holds. */
  lemma FallbackIffNoRule(lower: string)
    ensures Classify(lower) == Fallback <==> forall t | t != Fallback :: !Matches(t, lower)
  {
    FirstMatch(lower, Fallback);
  }

  /** The off-topic refusal is given exactly when an off-topic word occurs and none of the fourteen tourism rules holds. */
  lemma OffTopicOnlyWithoutTourism(lower: string)
    ensures Classify(lower) == OffTopic <==>
      ContainsAnyWord(lower, OffTopicWords) && forall t | t != OffTopic && t != Fallback :: !Matches(t, lower)
  {
    FirstMatch(lower, OffTopic);
  }

  /** An empty message matches no rule and gets the default reply. */
  lemma EmptyMessage()
    ensures ProcessChatMessage("") == Reply(Fallback)
  {
    assert Lower("") == "";
    forall t | t != Fallback ensures !Matches(t, "") {
      NoWordInEmpty(t);
    }
    FallbackIffNoRule("");
    ReplySelectsTopic("", Fallback);
  }

  /** The empty text contains no word of any rule. */
  lemma NoWordInEmpty(t: Topic)
    requires t != Fallback
    ensures !Matches(t, "")
  {
    match t
    case Greeting => NoWordOf(GreetingWords);
    case BestTime => NoWordOf(BestTimeWords);
    case Beaches => NoWordOf(BeachWords); NoWordOf(["kribi"]);
    case Mountain => NoWordOf(MountainWords); NoWordOf(["cameroon", "mount"]);
    case Yaounde => NoWordOf(["yaounde"]); NoWordOf(["yaoundé"]);
    case Wildlife => NoWordOf(WildlifeWords); NoWordOf(["waza"]);
    case Culture => NoWordOf(CultureWords);
    case Itinerary => NoWordOf(TripLengthWords); NoWordOf(ItineraryWords);
    case Budget => NoWordOf(BudgetWords);
    case Food => NoWordOf(FoodWords);
    case Transport => NoWordOf(TransportWords);
    case Language => NoWordOf(LanguageWords);
    case Safety => NoWordOf(SafetyWords);
    case Accommodation => NoWordOf(AccommodationWords);
    case OffTopic => NoWordOf(OffTopicWords);
  }

  /** Neither any nor all of a non-empty list of non-empty words occur in the empty text. */
  lemma NoWordOf(words: seq<string>)
    requires |words| > 0 && forall i | 0 <= i < |words| :: words[i] != ""
    ensures !ContainsAnyWord("", words) && !ContainsAllWords("", words)
  {
    assert !Contains("", words[0]);
  }

  /** A text holding `u`, where `u` holds `w`, holds `w`. */
  lemma ContainsTransitive(t: string, u: string, w: string)
    requires Contains(t, u) && Contains(u, w)
    ensures Contains(t, w)
  {
    var i :| 0 <= i <= |t| - |u| && OccursAt(t, u, i);
    var j :| 0 <= j <= |u| - |w| && OccursAt(u, w, j);
    forall k | 0 <= k < |w| ensures t[i + j + k] == w[k] {
      CharOfOccurrence(u, w, j, k);
      CharOfOccurrence(t, u, i, j + k);
    }
    OccursByChars(t, w, i + j);
  }

  /**
   * Words are matched as substrings, not whole words: a message holding
   * "they" or "this" is taken for a greeting.
   */
  lemma EmbeddedGreeting(lower: string)
    requires Contains(lower, "they") || Contains(lower, "this")
    ensures Classify(lower) == Greeting
  {
    if Contains(lower, "they") {
      assert OccursAt("they", "hey", 1);
      ContainsTransitive(lower, "they", "hey");
      assert Contains(lower, GreetingWords[2]);
    } else {
      assert OccursAt("this", "hi", 1);
      ContainsTransitive(lower, "this", "hi");
      assert Contains(lower, GreetingWords[1]);
    }
    GreetingFirst(lower);
  }

  /** The second clause of the mountain rule adds nothing: "mount" is already one of its words. */
  lemma MountainClauseRedundant(lower: string)
    ensures Matches(Mountain, lower) <==> ContainsAnyWord(lower, MountainWords)
  {
    if ContainsAllWords(lower, ["cameroon", "mount"]) {
      assert Contains(lower, MountainWords[1]);
    }
  }

  // ---------------------------------------------------------------------------
  // The sample queries and the chat page's suggestions
  // ---------------------------------------------------------------------------

  /** A greeting gets the greeting reply. */
  lemma SampleHello()
    ensures Classify(Lower("Hello!")) == Greeting
  {
    var l := "hello!";
    SampleHelloLowered();
    SampleHelloMatchesGreeting(l);
  }

  lemma SampleHelloLowered()
    ensures Lower("Hello!") == "hello!"
  {
    var s, t := "Hello!", "hello!";
    assert LowerFrom(s, t, 6);
    assert LowerFrom(s, t, 5);
    assert LowerFrom(s, t, 4);
    assert LowerFrom(s, t, 3);
    assert LowerFrom(s, t, 2);
    assert LowerFrom(s, t, 1);
    assert LowerFrom(s, t, 0);
    LowerByChars(s, t);
  }

  lemma SampleHelloMatchesGreeting(l: string)
    requires l == "hello!"
    ensures Matches(Greeting, l)
  {
    OccursByChars(l, "hello", 0);
  }

  /** All three of best, time and visit: the best-time reply. */
  lemma SampleBestTime()
    ensures Classify(Lower("What's the best time to visit Cameroon?")) == BestTime
  {
    var l := "what's the best time to visit cameroon?";
    SampleBestTimeLowered();
    SampleBestTimeSkipsGreeting(l);
    SampleBestTimeMatchesBestTime(l);
  }

  lemma SampleBestTimeLowered()
    ensures Lower("What's the best time to visit Cameroon?") == "what's the best time to visit cameroon?"
  {
    var s, t := "What's the best time to visit Cameroon?", "what's the best time to visit cameroon?";
    assert LowerFrom(s, t, 39);
    assert LowerFrom(s, t, 38);
    assert LowerFrom(s, t, 37);
    assert LowerFrom(s, t, 36);
    assert LowerFrom(s, t, 35);
    assert LowerFrom(s, t, 34);
    assert LowerFrom(s, t, 33);
    assert LowerFrom(s, t, 32);
    assert LowerFrom(s, t, 31);
    assert LowerFrom(s, t, 30);
    assert LowerFrom(s, t, 29);
    assert LowerFrom(s, t, 28);
    assert LowerFrom(s, t, 27);
    assert LowerFrom(s, t, 26);
    assert LowerFrom(s, t, 25);
    assert LowerFrom(s, t, 24);
    assert LowerFrom(s, t, 23);
    assert LowerFrom(s, t, 22);
    assert LowerFrom(s, t, 21);
    assert LowerFrom(s, t, 20);
    assert LowerFrom(s, t, 19);
    assert LowerFrom(s, t, 18);
    assert LowerFrom(s, t, 17);
    assert LowerFrom(s, t, 16);
    assert LowerFrom(s, t, 15);
    assert LowerFrom(s, t, 14);
    assert LowerFrom(s, t, 13);
    assert LowerFrom(s, t, 12);
    assert LowerFrom(s, t, 11);
    assert LowerFrom(s, t, 10);
    assert LowerFrom(s, t, 9);
    assert LowerFrom(s, t, 8);
    assert LowerFrom(s, t, 7);
    assert LowerFrom(s, t, 6);
    assert LowerFrom(s, t, 5);
    assert LowerFrom(s, t, 4);
    assert LowerFrom(s, t, 3);
    assert LowerFrom(s, t, 2);
    assert LowerFrom(s, t, 1);
    assert LowerFrom(s, t, 0);
    LowerByChars(s, t);
  }

  lemma SampleBestTimeSkipsGreeting(l: string)
    requires l == "what's the best time to visit cameroon?"
    ensures !Matches(Greeting, l)
  {
    NotContainsByChar(l, "hello", 2);
    NotOccurringWithin(l, "hi", 0, 17, 1);
    NotOccurringWithin(l, "hi", 16, 39, 0);
    NotContainsByChar(l, "hey", 2);
    NotContainsByChar(l, "greetings", 0);
    NotContainsByChar(l, "bonjour", 3);
  }

  lemma SampleBestTimeMatchesBestTime(l: string)
    requires l == "what's the best time to visit cameroon?"
    ensures Matches(BestTime, l)
  {
    OccursByChars(l, "best", 11);
    OccursByChars(l, "time", 16);
    OccursByChars(l, "visit", 24);
  }

  /** A beach question gets the beaches reply. */
  lemma SampleBeaches()
    ensures Classify(Lower("Tell me about the beaches")) == Beaches
  {
    var l := "tell me about the beaches";
    SampleBeachesLowered();
    SampleBeachesSkipsGreeting(l);
    SampleBeachesSkipsBestTime(l);
    SampleBeachesMatchesBeaches(l);
  }

  lemma SampleBeachesLowered()
    ensures Lower("Tell me about the beaches") == "tell me about the beaches"
  {
    var s, t := "Tell me about the beaches", "tell me about the beaches";
    assert LowerFrom(s, t, 25);
    assert LowerFrom(s, t, 24);
    assert LowerFrom(s, t, 23);
    assert LowerFrom(s, t, 22);
    assert LowerFrom(s, t, 21);
    assert LowerFrom(s, t, 20);
    assert LowerFrom(s, t, 19);
    assert LowerFrom(s, t, 18);
    assert LowerFrom(s, t, 17);
    assert LowerFrom(s, t, 16);
    assert LowerFrom(s, t, 15);
    assert LowerFrom(s, t, 14);
    assert LowerFrom(s, t, 13);
    assert LowerFrom(s, t, 12);
    assert LowerFrom(s, t, 11);
    assert LowerFrom(s, t, 10);
    assert LowerFrom(s, t, 9);
    assert LowerFrom(s, t, 8);
    assert LowerFrom(s, t, 7);
    assert LowerFrom(s, t, 6);
    assert LowerFrom(s, t, 5);
    assert LowerFrom(s, t, 4);
    assert LowerFrom(s, t, 3);
    assert LowerFrom(s, t, 2);
    assert LowerFrom(s, t, 1);
    assert LowerFrom(s, t, 0);
    LowerByChars(s, t);
  }

  lemma SampleBeachesSkipsGreeting(l: string)
    requires l == "tell me about the beaches"
    ensures !Matches(Greeting, l)
  {
    NotOccurringWithin(l, "hello", 0, 15, 0);
    NotOccurringWithin(l, "hello", 11, 25, 2);
    NotContainsByChar(l, "hi", 1);
    NotContainsByChar(l, "hey", 2);
    NotContainsByChar(l, "greetings", 0);
    NotContainsByChar(l, "bonjour", 2);
  }

  lemma SampleBeachesSkipsBestTime(l: string)
    requires l == "tell me about the beaches"
    ensures !Matches(BestTime, l)
  {
    NotOccurringWithin(l, "best", 0, 24, 2);
    NotOccurringWithin(l, "best", 21, 25, 0);
  }

  lemma SampleBeachesMatchesBeaches(l: string)
    requires l == "tell me about the beaches"
    ensures Matches(Beaches, l)
  {
    OccursByChars(l, "beach", 18);
  }

  /** A cost question gets the budget reply. */
  lemma SampleCost()
    ensures Classify(Lower("How much does it cost to visit?")) == Budget
  {
    var l := "how much does it cost to visit?";
    SampleCostLowered();
    SampleCostSkipsGreeting(l);
    SampleCostSkipsBestTime(l);
    SampleCostSkipsBeaches(l);
    SampleCostSkipsMountain(l);
    SampleCostSkipsYaounde(l);
    SampleCostSkipsWildlife(l);
    SampleCostSkipsCulture(l);
    SampleCostSkipsItinerary(l);
    SampleCostMatchesBudget(l);
  }

  lemma SampleCostLowered()
    ensures Lower("How much does it cost to visit?") == "how much does it cost to visit?"
  {
    var s, t := "How much does it cost to visit?", "how much does it cost to visit?";
    assert LowerFrom(s, t, 31);
    assert LowerFrom(s, t, 30);
    assert LowerFrom(s, t, 29);
    assert LowerFrom(s, t, 28);
    assert LowerFrom(s, t, 27);
    assert LowerFrom(s, t, 26);
    assert LowerFrom(s, t, 25);
    assert LowerFrom(s, t, 24);
    assert LowerFrom(s, t, 23);
    assert LowerFrom(s, t, 22);
    assert LowerFrom(s, t, 21);
    assert LowerFrom(s, t, 20);
    assert LowerFrom(s, t, 19);
    assert LowerFrom(s, t, 18);
    assert LowerFrom(s, t, 17);
    assert LowerFrom(s, t, 16);
    assert LowerFrom(s, t, 15);
    assert LowerFrom(s, t, 14);
    assert LowerFrom(s, t, 13);
    assert LowerFrom(s, t, 12);
    assert LowerFrom(s, t, 11);
    assert LowerFrom(s, t, 10);
    assert LowerFrom(s, t, 9);
    assert LowerFrom(s, t, 8);
    assert LowerFrom(s, t, 7);
    assert LowerFrom(s, t, 6);
    assert LowerFrom(s, t, 5);
    assert LowerFrom(s, t, 4);
    assert LowerFrom(s, t, 3);
    assert LowerFrom(s, t, 2);
    assert LowerFrom(s, t, 1);
    assert LowerFrom(s, t, 0);
    LowerByChars(s, t);
  }

  lemma SampleCostSkipsGreeting(l: string)
    requires l == "how much does it cost to visit?"
    ensures !Matches(Greeting, l)
  {
    NotContainsByChar(l, "hello", 2);
    NotOccurringWithin(l, "hi", 0, 14, 1);
    NotOccurringWithin(l, "hi", 13, 31, 0);
    NotContainsByChar(l, "hey", 2);
    NotContainsByChar(l, "greetings", 0);
    NotContainsByChar(l, "bonjour", 0);
  }

  lemma SampleCostSkipsBestTime(l: string)
    requires l == "how much does it cost to visit?"
    ensures !Matches(BestTime, l)
  {
    NotContainsByChar(l, "best", 0);
  }

  lemma SampleCostSkipsBeaches(l: string)
    requires l == "how much does it cost to visit?"
    ensures !Matches(Beaches, l)
  {
    NotContainsByChar(l, "beach", 0);
    NotContainsByChar(l, "beaches", 0);
    NotContainsByChar(l, "coast", 2);
    NotContainsByChar(l, "ocean", 3);
    NotContainsByChar(l, "sea", 2);
    NotContainsByChar(l, "kribi", 0);
  }

  lemma SampleCostSkipsMountain(l: string)
    requires l == "how much does it cost to visit?"
    ensures !Matches(Mountain, l)
  {
    NotContainsByChar(l, "mountain", 3);
    NotContainsByChar(l, "mount", 3);
    NotContainsByChar(l, "climbing", 1);
    NotContainsByChar(l, "hiking", 2);
    NotContainsByChar(l, "trekking", 1);
    NotContainsByChar(l, "cameroon", 1);
  }

  lemma SampleCostSkipsYaounde(l: string)
    requires l == "how much does it cost to visit?"
    ensures !Matches(Yaounde, l)
  {
    NotContainsByChar(l, "yaounde", 0);
    NotContainsByChar(l, "yaoundé", 0);
  }

  lemma SampleCostSkipsWildlife(l: string)
    requires l == "how much does it cost to visit?"
    ensures !Matches(Wildlife, l)
  {
    NotContainsByChar(l, "wildlife", 2);
    NotContainsByChar(l, "animals", 0);
    NotContainsByChar(l, "safari", 1);
    NotContainsByChar(l, "park", 0);
    NotContainsByChar(l, "waza", 1);
  }

  lemma SampleCostSkipsCulture(l: string)
    requires l == "how much does it cost to visit?"
    ensures !Matches(Culture, l)
  {
    NotContainsByChar(l, "culture", 2);
    NotContainsByChar(l, "tradition", 1);
    NotContainsByChar(l, "history", 5);
    NotContainsByChar(l, "heritage", 2);
    NotOccurringWithin(l, "museum", 0, 12, 2);
    NotOccurringWithin(l, "museum", 7, 31, 0);
  }

  lemma SampleCostSkipsItinerary(l: string)
    requires l == "how much does it cost to visit?"
    ensures !Matches(Itinerary, l)
  {
    NotContainsByChar(l, "many", 1);
    NotContainsByChar(l, "itinerary", 3);
    NotContainsByChar(l, "plan", 0);
    NotContainsByChar(l, "schedule", 6);
  }

  lemma SampleCostMatchesBudget(l: string)
    requires l == "how much does it cost to visit?"
    ensures Matches(Budget, l)
  {
    OccursByChars(l, "cost", 17);
  }

  /** A language question gets the greeting reply: "they" contains "hey", and the greeting rule is tried first. */
  lemma SampleLanguages()
    ensures Classify(Lower("What languages do they speak?")) == Greeting
  {
    var l := "what languages do they speak?";
    SampleLanguagesLowered();
    SampleLanguagesMatchesGreeting(l);
  }

  lemma SampleLanguagesLowered()
    ensures Lower("What languages do they speak?") == "what languages do they speak?"
  {
    var s, t := "What languages do they speak?", "what languages do they speak?";
    assert LowerFrom(s, t, 29);
    assert LowerFrom(s, t, 28);
    assert LowerFrom(s, t, 27);
    assert LowerFrom(s, t, 26);
    assert LowerFrom(s, t, 25);
    assert LowerFrom(s, t, 24);
    assert LowerFrom(s, t, 23);
    assert LowerFrom(s, t, 22);
    assert LowerFrom(s, t, 21);
    assert LowerFrom(s, t, 20);
    assert LowerFrom(s, t, 19);
    assert LowerFrom(s, t, 18);
    assert LowerFrom(s, t, 17);
    assert LowerFrom(s, t, 16);
    assert LowerFrom(s, t, 15);
    assert LowerFrom(s, t, 14);
    assert LowerFrom(s, t, 13);
    assert LowerFrom(s, t, 12);
    assert LowerFrom(s, t, 11);
    assert LowerFrom(s, t, 10);
    assert LowerFrom(s, t, 9);
    assert LowerFrom(s, t, 8);
    assert LowerFrom(s, t, 7);
    assert LowerFrom(s, t, 6);
    assert LowerFrom(s, t, 5);
    assert LowerFrom(s, t, 4);
    assert LowerFrom(s, t, 3);
    assert LowerFrom(s, t, 2);
    assert LowerFrom(s, t, 1);
    assert LowerFrom(s, t, 0);
    LowerByChars(s, t);
  }

  lemma SampleLanguagesMatchesGreeting(l: string)
    requires l == "what languages do they speak?"
    ensures Matches(Greeting, l)
  {
    OccursByChars(l, "hey", 19);
  }

  /** A safety question gets the transport reply: "travel" is tried before "safe". */
  lemma SampleSafety()
    ensures Classify(Lower("Is it safe to travel there?")) == Transport
  {
    var l := "is it safe to travel there?";
    SampleSafetyLowered();
    SampleSafetySkipsGreeting(l);
    SampleSafetySkipsBestTime(l);
    SampleSafetySkipsBeaches(l);
    SampleSafetySkipsMountain(l);
    SampleSafetySkipsYaounde(l);
    SampleSafetySkipsWildlife(l);
    SampleSafetySkipsCulture(l);
    SampleSafetySkipsItinerary(l);
    SampleSafetySkipsBudget(l);
    SampleSafetySkipsFood(l);
    SampleSafetyMatchesTransport(l);
  }

  lemma SampleSafetyLowered()
    ensures Lower("Is it safe to travel there?") == "is it safe to travel there?"
  {
    var s, t := "Is it safe to travel there?", "is it safe to travel there?";
    assert LowerFrom(s, t, 27);
    assert LowerFrom(s, t, 26);
    assert LowerFrom(s, t, 25);
    assert LowerFrom(s, t, 24);
    assert LowerFrom(s, t, 23);
    assert LowerFrom(s, t, 22);
    assert LowerFrom(s, t, 21);
    assert LowerFrom(s, t, 20);
    assert LowerFrom(s, t, 19);
    assert LowerFrom(s, t, 18);
    assert LowerFrom(s, t, 17);
    assert LowerFrom(s, t, 16);
    assert LowerFrom(s, t, 15);
    assert LowerFrom(s, t, 14);
    assert LowerFrom(s, t, 13);
    assert LowerFrom(s, t, 12);
    assert LowerFrom(s, t, 11);
    assert LowerFrom(s, t, 10);
    assert LowerFrom(s, t, 9);
    assert LowerFrom(s, t, 8);
    assert LowerFrom(s, t, 7);
    assert LowerFrom(s, t, 6);
    assert LowerFrom(s, t, 5);
    assert LowerFrom(s, t, 4);
    assert LowerFrom(s, t, 3);
    assert LowerFrom(s, t, 2);
    assert LowerFrom(s, t, 1);
    assert LowerFrom(s, t, 0);
    LowerByChars(s, t);
  }

  lemma SampleSafetySkipsGreeting(l: string)
    requires l == "is it safe to travel there?"
    ensures !Matches(Greeting, l)
  {
    NotOccurringWithin(l, "hello", 0, 22, 0);
    NotOccurringWithin(l, "hello", 18, 27, 4);
    NotOccurringWithin(l, "hi", 0, 22, 0);
    NotOccurringWithin(l, "hi", 21, 27, 1);
    NotContainsByChar(l, "hey", 2);
    NotContainsByChar(l, "greetings", 0);
    NotContainsByChar(l, "bonjour", 0);
  }

  lemma SampleSafetySkipsBestTime(l: string)
    requires l == "is it safe to travel there?"
    ensures !Matches(BestTime, l)
  {
    NotContainsByChar(l, "best", 0);
  }

  lemma SampleSafetySkipsBeaches(l: string)
    requires l == "is it safe to travel there?"
    ensures !Matches(Beaches, l)
  {
    NotContainsByChar(l, "beach", 0);
    NotContainsByChar(l, "beaches", 0);
    NotContainsByChar(l, "coast", 0);
    NotContainsByChar(l, "ocean", 1);
    NotOccurringWithin(l, "sea", 0, 9, 1);
    NotOccurringWithin(l, "sea", 7, 27, 0);
    NotContainsByChar(l, "kribi", 0);
  }

  lemma SampleSafetySkipsMountain(l: string)
    requires l == "is it safe to travel there?"
    ensures !Matches(Mountain, l)
  {
    NotContainsByChar(l, "mountain", 0);
    NotContainsByChar(l, "mount", 0);
    NotContainsByChar(l, "climbing", 0);
    NotContainsByChar(l, "hiking", 2);
    NotContainsByChar(l, "trekking", 3);
    NotContainsByChar(l, "cameroon", 0);
  }

  lemma SampleSafetySkipsYaounde(l: string)
    requires l == "is it safe to travel there?"
    ensures !Matches(Yaounde, l)
  {
    NotContainsByChar(l, "yaounde", 0);
    NotContainsByChar(l, "yaoundé", 0);
  }

  lemma SampleSafetySkipsWildlife(l: string)
    requires l == "is it safe to travel there?"
    ensures !Matches(Wildlife, l)
  {
    NotContainsByChar(l, "wildlife", 0);
    NotContainsByChar(l, "animals", 1);
    NotOccurringWithin(l, "safari", 0, 15, 4);
    NotOccurringWithin(l, "safari", 10, 27, 0);
    NotContainsByChar(l, "park", 0);
    NotContainsByChar(l, "waza", 0);
  }

  lemma SampleSafetySkipsCulture(l: string)
    requires l == "is it safe to travel there?"
    ensures !Matches(Culture, l)
  {
    NotContainsByChar(l, "culture", 0);
    NotContainsByChar(l, "tradition", 3);
    NotContainsByChar(l, "history", 6);
    NotContainsByChar(l, "heritage", 6);
    NotContainsByChar(l, "museum", 0);
  }

  lemma SampleSafetySkipsItinerary(l: string)
    requires l == "is it safe to travel there?"
    ensures !Matches(Itinerary, l)
  {
    NotContainsByChar(l, "how", 2);
    NotContainsByChar(l, "itinerary", 3);
    NotContainsByChar(l, "plan", 0);
    NotContainsByChar(l, "schedule", 1);
  }

  lemma SampleSafetySkipsBudget(l: string)
    requires l == "is it safe to travel there?"
    ensures !Matches(Budget, l)
  {
    NotContainsByChar(l, "cost", 0);
    NotContainsByChar(l, "budget", 0);
    NotContainsByChar(l, "expensive", 1);
    NotContainsByChar(l, "cheap", 0);
    NotContainsByChar(l, "price", 0);
    NotContainsByChar(l, "money", 0);
  }

  lemma SampleSafetySkipsFood(l: string)
    requires l == "is it safe to travel there?"
    ensures !Matches(Food, l)
  {
    NotContainsByChar(l, "food", 3);
    NotOccurringWithin(l, "eat", 0, 9, 0);
    NotOccurringWithin(l, "eat", 7, 11, 2);
    NotOccurringWithin(l, "eat", 9, 16, 1);
    NotOccurringWithin(l, "eat", 14, 18, 0);
    NotOccurringWithin(l, "eat", 16, 21, 2);
    NotOccurringWithin(l, "eat", 19, 27, 1);
    NotContainsByChar(l, "cuisine", 0);
    NotContainsByChar(l, "dish", 0);
    NotContainsByChar(l, "restaurant", 5);
  }

  lemma SampleSafetyMatchesTransport(l: string)
    requires l == "is it safe to travel there?"
    ensures Matches(Transport, l)
  {
    OccursByChars(l, "travel", 14);
  }

  /** The beaches suggestion: "best" alone does not trigger the best-time rule. */
  lemma SuggestionBeaches()
    ensures Classify(Lower("What are the best beaches in Cameroon?")) == Beaches
  {
    var l := "what are the best beaches in cameroon?";
    SuggestionBeachesLowered();
    SuggestionBeachesSkipsGreeting(l);
    SuggestionBeachesSkipsBestTime(l);
    SuggestionBeachesMatchesBeaches(l);
  }

  lemma SuggestionBeachesLowered()
    ensures Lower("What are the best beaches in Cameroon?") == "what are the best beaches in cameroon?"
  {
    var s, t := "What are the best beaches in Cameroon?", "what are the best beaches in cameroon?";
    assert LowerFrom(s, t, 38);
    assert LowerFrom(s, t, 37);
    assert LowerFrom(s, t, 36);
    assert LowerFrom(s, t, 35);
    assert LowerFrom(s, t, 34);
    assert LowerFrom(s, t, 33);
    assert LowerFrom(s, t, 32);
    assert LowerFrom(s, t, 31);
    assert LowerFrom(s, t, 30);
    assert LowerFrom(s, t, 29);
    assert LowerFrom(s, t, 28);
    assert LowerFrom(s, t, 27);
    assert LowerFrom(s, t, 26);
    assert LowerFrom(s, t, 25);
    assert LowerFrom(s, t, 24);
    assert LowerFrom(s, t, 23);
    assert LowerFrom(s, t, 22);
    assert LowerFrom(s, t, 21);
    assert LowerFrom(s, t, 20);
    assert LowerFrom(s, t, 19);
    assert LowerFrom(s, t, 18);
    assert LowerFrom(s, t, 17);
    assert LowerFrom(s, t, 16);
    assert LowerFrom(s, t, 15);
    assert LowerFrom(s, t, 14);
    assert LowerFrom(s, t, 13);
    assert LowerFrom(s, t, 12);
    assert LowerFrom(s, t, 11);
    assert LowerFrom(s, t, 10);
    assert LowerFrom(s, t, 9);
    assert LowerFrom(s, t, 8);
    assert LowerFrom(s, t, 7);
    assert LowerFrom(s, t, 6);
    assert LowerFrom(s, t, 5);
    assert LowerFrom(s, t, 4);
    assert LowerFrom(s, t, 3);
    assert LowerFrom(s, t, 2);
    assert LowerFrom(s, t, 1);
    assert LowerFrom(s, t, 0);
    LowerByChars(s, t);
  }

  lemma SuggestionBeachesSkipsGreeting(l: string)
    requires l == "what are the best beaches in cameroon?"
    ensures !Matches(Greeting, l)
  {
    NotContainsByChar(l, "hello", 2);
    NotOccurringWithin(l, "hi", 0, 26, 1);
    NotOccurringWithin(l, "hi", 25, 38, 0);
    NotContainsByChar(l, "hey", 2);
    NotContainsByChar(l, "greetings", 0);
    NotContainsByChar(l, "bonjour", 3);
  }

  lemma SuggestionBeachesSkipsBestTime(l: string)
    requires l == "what are the best beaches in cameroon?"
    ensures !Matches(BestTime, l)
  {
    NotOccurringWithin(l, "time", 0, 31, 2);
    NotOccurringWithin(l, "time", 28, 38, 0);
  }

  lemma SuggestionBeachesMatchesBeaches(l: string)
    requires l == "what are the best beaches in cameroon?"
    ensures Matches(Beaches, l)
  {
    OccursByChars(l, "beach", 18);
  }

  /** The mountain suggestion. */
  lemma SuggestionMountain()
    ensures Classify(Lower("Tell me about Mount Cameroon trekking")) == Mountain
  {
    var l := "tell me about mount cameroon trekking";
    SuggestionMountainLowered();
    SuggestionMountainSkipsGreeting(l);
    SuggestionMountainSkipsBestTime(l);
    SuggestionMountainSkipsBeaches(l);
    SuggestionMountainMatchesMountain(l);
  }

  lemma SuggestionMountainLowered()
    ensures Lower("Tell me about Mount Cameroon trekking") == "tell me about mount cameroon trekking"
  {
    var s, t := "Tell me about Mount Cameroon trekking", "tell me about mount cameroon trekking";
    assert LowerFrom(s, t, 37);
    assert LowerFrom(s, t, 36);
    assert LowerFrom(s, t, 35);
    assert LowerFrom(s, t, 34);
    assert LowerFrom(s, t, 33);
    assert LowerFrom(s, t, 32);
    assert LowerFrom(s, t, 31);
    assert LowerFrom(s, t, 30);
    assert LowerFrom(s, t, 29);
    assert LowerFrom(s, t, 28);
    assert LowerFrom(s, t, 27);
    assert LowerFrom(s, t, 26);
    assert LowerFrom(s, t, 25);
    assert LowerFrom(s, t, 24);
    assert LowerFrom(s, t, 23);
    assert LowerFrom(s, t, 22);
    assert LowerFrom(s, t, 21);
    assert LowerFrom(s, t, 20);
    assert LowerFrom(s, t, 19);
    assert LowerFrom(s, t, 18);
    assert LowerFrom(s, t, 17);
    assert LowerFrom(s, t, 16);
    assert LowerFrom(s, t, 15);
    assert LowerFrom(s, t, 14);
    assert LowerFrom(s, t, 13);
    assert LowerFrom(s, t, 12);
    assert LowerFrom(s, t, 11);
    assert LowerFrom(s, t, 10);
    assert LowerFrom(s, t, 9);
    assert LowerFrom(s, t, 8);
    assert LowerFrom(s, t, 7);
    assert LowerFrom(s, t, 6);
    assert LowerFrom(s, t, 5);
    assert LowerFrom(s, t, 4);
    assert LowerFrom(s, t, 3);
    assert LowerFrom(s, t, 2);
    assert LowerFrom(s, t, 1);
    assert LowerFrom(s, t, 0);
    LowerByChars(s, t);
  }

  lemma SuggestionMountainSkipsGreeting(l: string)
    requires l == "tell me about mount cameroon trekking"
    ensures !Matches(Greeting, l)
  {
    NotContainsByChar(l, "hello", 0);
    NotContainsByChar(l, "hi", 0);
    NotContainsByChar(l, "hey", 0);
    NotContainsByChar(l, "greetings", 8);
    NotContainsByChar(l, "bonjour", 3);
  }

  lemma SuggestionMountainSkipsBestTime(l: string)
    requires l == "tell me about mount cameroon trekking"
    ensures !Matches(BestTime, l)
  {
    NotContainsByChar(l, "best", 2);
  }

  lemma SuggestionMountainSkipsBeaches(l: string)
    requires l == "tell me about mount cameroon trekking"
    ensures !Matches(Beaches, l)
  {
    NotContainsByChar(l, "beach", 4);
    NotContainsByChar(l, "beaches", 4);
    NotContainsByChar(l, "coast", 3);
    NotOccurringWithin(l, "ocean", 0, 20, 1);
    NotOccurringWithin(l, "ocean", 16, 25, 0);
    NotOccurringWithin(l, "ocean", 21, 37, 1);
    NotContainsByChar(l, "sea", 0);
    NotOccurringWithin(l, "kribi", 0, 34, 2);
    NotOccurringWithin(l, "kribi", 30, 37, 3);
  }

  lemma SuggestionMountainMatchesMountain(l: string)
    requires l == "tell me about mount cameroon trekking"
    ensures Matches(Mountain, l)
  {
    OccursByChars(l, "mount", 14);
  }

  /** The best-time suggestion. */
  lemma SuggestionBestTime()
    ensures Classify(Lower("What is the best time to visit Cameroon?")) == BestTime
  {
    var l := "what is the best time to visit cameroon?";
    SuggestionBestTimeLowered();
    SuggestionBestTimeSkipsGreeting(l);
    SuggestionBestTimeMatchesBestTime(l);
  }

  lemma SuggestionBestTimeLowered()
    ensures Lower("What is the best time to visit Cameroon?") == "what is the best time to visit cameroon?"
  {
    var s, t := "What is the best time to visit Cameroon?", "what is the best time to visit cameroon?";
    assert LowerFrom(s, t, 40);
    assert LowerFrom(s, t, 39);
    assert LowerFrom(s, t, 38);
    assert LowerFrom(s, t, 37);
    assert LowerFrom(s, t, 36);
    assert LowerFrom(s, t, 35);
    assert LowerFrom(s, t, 34);
    assert LowerFrom(s, t, 33);
    assert LowerFrom(s, t, 32);
    assert LowerFrom(s, t, 31);
    assert LowerFrom(s, t, 30);
    assert LowerFrom(s, t, 29);
    assert LowerFrom(s, t, 28);
    assert LowerFrom(s, t, 27);
    assert LowerFrom(s, t, 26);
    assert LowerFrom(s, t, 25);
    assert LowerFrom(s, t, 24);
    assert LowerFrom(s, t, 23);
    assert LowerFrom(s, t, 22);
    assert LowerFrom(s, t, 21);
    assert LowerFrom(s, t, 20);
    assert LowerFrom(s, t, 19);
    assert LowerFrom(s, t, 18);
    assert LowerFrom(s, t, 17);
    assert LowerFrom(s, t, 16);
    assert LowerFrom(s, t, 15);
    assert LowerFrom(s, t, 14);
    assert LowerFrom(s, t, 13);
    assert LowerFrom(s, t, 12);
    assert LowerFrom(s, t, 11);
    assert LowerFrom(s, t, 10);
    assert LowerFrom(s, t, 9);
    assert LowerFrom(s, t, 8);
    assert LowerFrom(s, t, 7);
    assert LowerFrom(s, t, 6);
    assert LowerFrom(s, t, 5);
    assert LowerFrom(s, t, 4);
    assert LowerFrom(s, t, 3);
    assert LowerFrom(s, t, 2);
    assert LowerFrom(s, t, 1);
    assert LowerFrom(s, t, 0);
    LowerByChars(s, t);
  }

  lemma SuggestionBestTimeSkipsGreeting(l: string)
    requires l == "what is the best time to visit cameroon?"
    ensures !Matches(Greeting, l)
  {
    NotContainsByChar(l, "hello", 2);
    NotOccurringWithin(l, "hi", 0, 5, 1);
    NotOccurringWithin(l, "hi", 4, 9, 0);
    NotOccurringWithin(l, "hi", 8, 18, 1);
    NotOccurringWithin(l, "hi", 17, 40, 0);
    NotContainsByChar(l, "hey", 2);
    NotContainsByChar(l, "greetings", 0);
    NotContainsByChar(l, "bonjour", 3);
  }

  lemma SuggestionBestTimeMatchesBestTime(l: string)
    requires l == "what is the best time to visit cameroon?"
    ensures Matches(BestTime, l)
  {
    OccursByChars(l, "best", 12);
    OccursByChars(l, "time", 17);
    OccursByChars(l, "visit", 25);
  }

  /** The trip-length suggestion names Yaoundé, whose rule is tried before the itinerary rule. */
  lemma SuggestionYaounde()
    ensures Classify(Lower("How many days should I spend in Yaoundé?")) == Yaounde
  {
    var l := "how many days should i spend in yaoundé?";
    SuggestionYaoundeLowered();
    SuggestionYaoundeSkipsGreeting(l);
    SuggestionYaoundeSkipsBestTime(l);
    SuggestionYaoundeSkipsBeaches(l);
    SuggestionYaoundeSkipsMountain(l);
    SuggestionYaoundeMatchesYaounde(l);
  }

  lemma SuggestionYaoundeLowered()
    ensures Lower("How many days should I spend in Yaoundé?") == "how many days should i spend in yaoundé?"
  {
    var s, t := "How many days should I spend in Yaoundé?", "how many days should i spend in yaoundé?";
    assert LowerFrom(s, t, 40);
    assert LowerFrom(s, t, 39);
    assert LowerFrom(s, t, 38);
    assert LowerFrom(s, t, 37);
    assert LowerFrom(s, t, 36);
    assert LowerFrom(s, t, 35);
    assert LowerFrom(s, t, 34);
    assert LowerFrom(s, t, 33);
    assert LowerFrom(s, t, 32);
    assert LowerFrom(s, t, 31);
    assert LowerFrom(s, t, 30);
    assert LowerFrom(s, t, 29);
    assert LowerFrom(s, t, 28);
    assert LowerFrom(s, t, 27);
    assert LowerFrom(s, t, 26);
    assert LowerFrom(s, t, 25);
    assert LowerFrom(s, t, 24);
    assert LowerFrom(s, t, 23);
    assert LowerFrom(s, t, 22);
    assert LowerFrom(s, t, 21);
    assert LowerFrom(s, t, 20);
    assert LowerFrom(s, t, 19);
    assert LowerFrom(s, t, 18);
    assert LowerFrom(s, t, 17);
    assert LowerFrom(s, t, 16);
    assert LowerFrom(s, t, 15);
    assert LowerFrom(s, t, 14);
    assert LowerFrom(s, t, 13);
    assert LowerFrom(s, t, 12);
    assert LowerFrom(s, t, 11);
    assert LowerFrom(s, t, 10);
    assert LowerFrom(s, t, 9);
    assert LowerFrom(s, t, 8);
    assert LowerFrom(s, t, 7);
    assert LowerFrom(s, t, 6);
    assert LowerFrom(s, t, 5);
    assert LowerFrom(s, t, 4);
    assert LowerFrom(s, t, 3);
    assert LowerFrom(s, t, 2);
    assert LowerFrom(s, t, 1);
    assert LowerFrom(s, t, 0);
    LowerByChars(s, t);
  }

  lemma SuggestionYaoundeSkipsGreeting(l: string)
    requires l == "how many days should i spend in yaoundé?"
    ensures !Matches(Greeting, l)
  {
    NotOccurringWithin(l, "hello", 0, 25, 1);
    NotOccurringWithin(l, "hello", 21, 40, 0);
    NotOccurringWithin(l, "hi", 0, 21, 1);
    NotOccurringWithin(l, "hi", 20, 40, 0);
    NotOccurringWithin(l, "hey", 0, 25, 1);
    NotOccurringWithin(l, "hey", 23, 40, 0);
    NotContainsByChar(l, "greetings", 0);
    NotContainsByChar(l, "bonjour", 0);
  }

  lemma SuggestionYaoundeSkipsBestTime(l: string)
    requires l == "how many days should i spend in yaoundé?"
    ensures !Matches(BestTime, l)
  {
    NotContainsByChar(l, "best", 0);
  }

  lemma SuggestionYaoundeSkipsBeaches(l: string)
    requires l == "how many days should i spend in yaoundé?"
    ensures !Matches(Beaches, l)
  {
    NotContainsByChar(l, "beach", 0);
    NotContainsByChar(l, "beaches", 0);
    NotContainsByChar(l, "coast", 0);
    NotContainsByChar(l, "ocean", 1);
    NotOccurringWithin(l, "sea", 0, 25, 1);
    NotOccurringWithin(l, "sea", 23, 33, 2);
    NotOccurringWithin(l, "sea", 31, 40, 0);
    NotContainsByChar(l, "kribi", 0);
  }

  lemma SuggestionYaoundeSkipsMountain(l: string)
    requires l == "how many days should i spend in yaoundé?"
    ensures !Matches(Mountain, l)
  {
    NotContainsByChar(l, "mountain", 4);
    NotContainsByChar(l, "mount", 4);
    NotContainsByChar(l, "climbing", 0);
    NotContainsByChar(l, "hiking", 2);
    NotContainsByChar(l, "trekking", 0);
    NotContainsByChar(l, "cameroon", 0);
  }

  lemma SuggestionYaoundeMatchesYaounde(l: string)
    requires l == "how many days should i spend in yaoundé?"
    ensures Matches(Yaounde, l)
  {
    OccursByChars(l, "yaoundé", 32);
  }

}
