/**
 * The logic of the administrator's dashboard: validating the destination
 * form, deriving a slug from the name, reading the comma- and newline-
 * separated list fields, and updating a booking's status in the local list.
 */
module AdminDashboard {
  import opened Wrappers
  import opened Text
  import opened Sequences
  import opened Bookings

  datatype BestTimeForm = BestTimeForm(period: string, description: string, recommendedMonths: seq<int>)

  /**
   * The destination being edited. `hasImageFile` says whether a file has
   * been chosen for upload; coordinates and amenities are not modelled.
   */
  datatype DestinationForm = DestinationForm(
    id: string,
    name: string,
    slug: string,
    location: string,
    description: string,
    category: string,
    imageUrl: string,
    hasImageFile: bool,
    rating: real,
    reviewCount: int,
    recommendedStay: string,
    budgetRange: string,
    bestTimeToVisit: BestTimeForm,
    goodFor: seq<string>,
    highlights: seq<string>,
    culturalEtiquette: seq<string>)

  // ---------------------------------------------------------------------------
  // `validateForm`
  // ---------------------------------------------------------------------------

  /** The keys of the form's error dictionary. */
  datatype FormKey =
    | NameKey | LocationKey | DescriptionKey | CategoryKey | ImageKey
    | RecommendedStayKey | BudgetRangeKey | BestTimeKey | GoodForKey

  // The messages of `validateForm`.
  const NameRequired: string := "Name is required"
  const LocationRequired: string := "Location is required"
  const DescriptionRequired: string := "Description is required"
  const CategoryRequired: string := "Category is required"
  const ImageRequired: string := "Image is required"
  const RecommendedStayRequired: string := "Recommended stay is required"
  const BudgetRangeRequired: string := "Budget range is required"
  const BestTimeRequired: string := "Best time to visit is required"
  const GoodForRequired: string := "At least one target audience is required"

  /** The message recorded under each key. */
  function Message(k: FormKey): string {
    match k
    case NameKey => NameRequired
    case LocationKey => LocationRequired
    case DescriptionKey => DescriptionRequired
    case CategoryKey => CategoryRequired
    case ImageKey => ImageRequired
    case RecommendedStayKey => RecommendedStayRequired
    case BudgetRangeKey => BudgetRangeRequired
    case BestTimeKey => BestTimeRequired
    case GoodForKey => GoodForRequired
  }

  /** The field under key `k` is not filled in. */
  predicate Missing(d: DestinationForm, k: FormKey) {
    match k
    case NameKey => IsBlank(d.name)
    case LocationKey => IsBlank(d.location)
    case DescriptionKey => IsBlank(d.description)
    case CategoryKey => IsBlank(d.category)
    case ImageKey => !d.hasImageFile && d.imageUrl == ""
    case RecommendedStayKey => IsBlank(d.recommendedStay)
    case BudgetRangeKey => IsBlank(d.budgetRange)
    case BestTimeKey => IsBlank(d.bestTimeToVisit.period)
    case GoodForKey => |d.goodFor| == 0
  }

  /**
   * The form's error dictionary: at most one message under each key it can
   * hold (`name`, `location`, `description`, `category`, `image`,
   * `recommended_stay`, `budget_range`, `best_time_to_visit`, `good_for`).
   */
  datatype FormErrors = FormErrors(
    name: Option<string>,
    location: Option<string>,
    description: Option<string>,
    category: Option<string>,
    image: Option<string>,
    recommendedStay: Option<string>,
    budgetRange: Option<string>,
    bestTimeToVisit: Option<string>,
    goodFor: Option<string>)

  /** The dictionary with no keys. */
  const NoErrors: FormErrors := FormErrors(None, None, None, None, None, None, None, None, None)

  /** The message under key `k`, if there is one. */
  function Entry(e: FormErrors, k: FormKey): Option<string> {
    match k
    case NameKey => e.name
    case LocationKey => e.location
    case DescriptionKey => e.description
    case CategoryKey => e.category
    case ImageKey => e.image
    case RecommendedStayKey => e.recommendedStay
    case BudgetRangeKey => e.budgetRange
    case BestTimeKey => e.bestTimeToVisit
    case GoodForKey => e.goodFor
  }

  /** A dictionary is determined by its entries. */
  lemma EntriesDetermine(e: FormErrors, f: FormErrors)
    requires forall k :: Entry(e, k) == Entry(f, k)
    ensures e == f
  {
    assert Entry(e, NameKey) == Entry(f, NameKey) && Entry(e, LocationKey) == Entry(f, LocationKey);
    assert Entry(e, DescriptionKey) == Entry(f, DescriptionKey) && Entry(e, CategoryKey) == Entry(f, CategoryKey);
    assert Entry(e, ImageKey) == Entry(f, ImageKey) && Entry(e, RecommendedStayKey) == Entry(f, RecommendedStayKey);
    assert Entry(e, BudgetRangeKey) == Entry(f, BudgetRangeKey) && Entry(e, BestTimeKey) == Entry(f, BestTimeKey);
    assert Entry(e, GoodForKey) == Entry(f, GoodForKey);
  }

  /** Every key, in the order `validateForm` checks them. */
  const AllKeys: seq<FormKey> :=
    [NameKey, LocationKey, DescriptionKey, CategoryKey, ImageKey,
     RecommendedStayKey, BudgetRangeKey, BestTimeKey, GoodForKey]

  lemma InAllKeys(k: FormKey)
    ensures k in AllKeys
  {
    match k
    case NameKey => assert AllKeys[0] == k;
    case LocationKey => assert AllKeys[1] == k;
    case DescriptionKey => assert AllKeys[2] == k;
    case CategoryKey => assert AllKeys[3] == k;
    case ImageKey => assert AllKeys[4] == k;
    case RecommendedStayKey => assert AllKeys[5] == k;
    case BudgetRangeKey => assert AllKeys[6] == k;
    case BestTimeKey => assert AllKeys[7] == k;
    case GoodForKey => assert AllKeys[8] == k;
  }

  /** `Object.keys(errors)`: the keys that hold a message, in the order they were added. */
  function Keys(e: FormErrors): (r: seq<FormKey>)
    ensures forall k :: k in r <==> Entry(e, k).Some?
  {
    var r := Filter(AllKeys, (k: FormKey) => Entry(e, k).Some?);
    forall k ensures k in r <==> Entry(e, k).Some? {
      InAllKeys(k);
      FilterMembership(AllKeys, (k: FormKey) => Entry(e, k).Some?, k);
    }
    r
  }

  /** A dictionary has no keys exactly when it is the empty dictionary. */
  lemma NoKeysIffNoErrors(e: FormErrors)
    ensures |Keys(e)| == 0 <==> e == NoErrors
  {
    if |Keys(e)| == 0 {
      forall k ensures Entry(e, k) == Entry(NoErrors, k) {
        assert k !in Keys(e);
      }
      EntriesDetermine(e, NoErrors);
    } else {
      var k := Keys(e)[0];
      assert Entry(e, k).Some?;
    }
  }

  /** A dictionary filled key by key from `f` holds `f(k)` under each key `k`. */
  lemma EntriesOfFields(r: FormErrors, f: FormKey -> Option<string>)
    requires r == FormErrors(f(NameKey), f(LocationKey), f(DescriptionKey), f(CategoryKey), f(ImageKey),
                             f(RecommendedStayKey), f(BudgetRangeKey), f(BestTimeKey), f(GoodForKey))
    ensures forall k :: Entry(r, k) == f(k)
  {
    forall k ensures Entry(r, k) == f(k) {
      InAllKeys(k);
    }
  }

  /** The check for key `k`: its message when its field is missing, and nothing otherwise. */
  function MessageIf(d: DestinationForm, k: FormKey): Option<string> {
    if Missing(d, k) then Some(Message(k)) else None
  }

  /**
   * The errors `validateForm` records for a form, check by check: under each
   * key, its message exactly when its field is missing.
   */
  function ErrorsOf(d: DestinationForm): (r: FormErrors)
    ensures forall k :: Entry(r, k).Some? <==> Missing(d, k)
    ensures forall k | Entry(r, k).Some? :: Entry(r, k).value == Message(k)
  {
    var r := FormErrors(
      MessageIf(d, NameKey),
      MessageIf(d, LocationKey),
      MessageIf(d, DescriptionKey),
      MessageIf(d, CategoryKey),
      MessageIf(d, ImageKey),
      MessageIf(d, RecommendedStayKey),
      MessageIf(d, BudgetRangeKey),
      MessageIf(d, BestTimeKey),
      MessageIf(d, GoodForKey));
    EntriesOfFields(r, k => MessageIf(d, k));
    r
  }

  /** Under each key, the errors hold its message exactly when its field is missing. */
  lemma ErrorsOfEntries(d: DestinationForm, k: FormKey)
    ensures Entry(ErrorsOf(d), k) == if Missing(d, k) then Some(Message(k)) else None
  {
    match k
    case NameKey =>
    case LocationKey =>
    case DescriptionKey =>
    case CategoryKey =>
    case ImageKey =>
    case RecommendedStayKey =>
    case BudgetRangeKey =>
    case BestTimeKey =>
    case GoodForKey =>
  }

  /** Any dictionary with the message of exactly the missing fields is the form's errors. */
  lemma ErrorsOfUnique(d: DestinationForm, e: FormErrors)
    requires forall k :: Entry(e, k).Some? <==> Missing(d, k)
    requires forall k | Entry(e, k).Some? :: Entry(e, k).value == Message(k)
    ensures e == ErrorsOf(d)
  {
    var r := ErrorsOf(d);
    forall k ensures Entry(e, k) == Entry(r, k) {
      ErrorsOfEntries(d, k);
    }
    EntriesDetermine(e, r);
  }

  /**
   * The field under key `k` is filled in: a required text field has something
   * other than white space in it, there is an image (a chosen file or a
   * non-empty address), and there is at least one target audience.
   */
  predicate Filled(d: DestinationForm, k: FormKey) {
    match k
    case NameKey => !AllSpace(d.name)
    case LocationKey => !AllSpace(d.location)
    case DescriptionKey => !AllSpace(d.description)
    case CategoryKey => !AllSpace(d.category)
    case ImageKey => d.hasImageFile || d.imageUrl != ""
    case RecommendedStayKey => !AllSpace(d.recommendedStay)
    case BudgetRangeKey => !AllSpace(d.budgetRange)
    case BestTimeKey => !AllSpace(d.bestTimeToVisit.period)
    case GoodForKey => |d.goodFor| > 0
  }

  /** A check of `validateForm` fires exactly when its field is not filled in. */
  lemma MissingIffNotFilled(d: DestinationForm, k: FormKey)
    ensures Missing(d, k) <==> !Filled(d, k)
  {
    match k
    case NameKey => BlankIffAllSpace(d.name);
    case LocationKey => BlankIffAllSpace(d.location);
    case DescriptionKey => BlankIffAllSpace(d.description);
    case CategoryKey => BlankIffAllSpace(d.category);
    case ImageKey =>
    case RecommendedStayKey => BlankIffAllSpace(d.recommendedStay);
    case BudgetRangeKey => BlankIffAllSpace(d.budgetRange);
    case BestTimeKey => BlankIffAllSpace(d.bestTimeToVisit.period);
    case GoodForKey =>
  }

  /** A form is complete when every field `validateForm` checks is filled in; the optional lists play no part. */
  predicate Complete(d: DestinationForm) {
    forall k :: Filled(d, k)
  }

  /** A form has no errors exactly when it is complete. */
  lemma NoErrorsIffComplete(d: DestinationForm)
    ensures ErrorsOf(d) == NoErrors <==> Complete(d)
  {
    var r := ErrorsOf(d);
    if r == NoErrors {
      forall k ensures Filled(d, k) {
        MissingIffNotFilled(d, k);
        ErrorsOfEntries(d, k);
        assert Entry(r, k) == None by {
          match k
          case NameKey =>
          case LocationKey =>
          case DescriptionKey =>
          case CategoryKey =>
          case ImageKey =>
          case RecommendedStayKey =>
          case BudgetRangeKey =>
          case BestTimeKey =>
          case GoodForKey =>
        }
      }
    } else {
      forall k ensures Entry(NoErrors, k) == None {
      }
      if forall k :: Entry(r, k) == None {
        EntriesDetermine(r, NoErrors);
      }
      var k :| Entry(r, k) != None;
      ErrorsOfEntries(d, k);
      MissingIffNotFilled(d, k);
    }
  }

  /** Highlights and etiquette tips are optional: changing them changes no error. */
  lemma OptionalListsIgnored(d: DestinationForm, highlights: seq<string>, etiquette: seq<string>)
    ensures ErrorsOf(d.(highlights := highlights, culturalEtiquette := etiquette)) == ErrorsOf(d)
  {
    var e := d.(highlights := highlights, culturalEtiquette := etiquette);
    assert forall k :: MessageIf(e, k) == MessageIf(d, k) by {
      forall k ensures MessageIf(e, k) == MessageIf(d, k) {
        InAllKeys(k);
      }
    }
  }

  // ---------------------------------------------------------------------------
  // The slug: `name.toLowerCase().replace(/\s+/g, '-')`
  // ---------------------------------------------------------------------------

  predicate NoSpace(s: string) {
    forall i | 0 <= i < |s| :: !IsSpace(s[i])
  }

  predicate NoUpper(s: string) {
    forall i | 0 <= i < |s| :: !IsAsciiUpper(s[i])
  }

  /** Replaces each maximal run of white space by a single `-`. */
  function DashSpaceRuns(s: string): (r: string)
    ensures NoSpace(r)
    ensures NoUpper(s) ==> NoUpper(r)
    decreases |s|
  {
    if s == [] then ""
    else if IsSpace(s[0]) then
      var rest := TrimStart(s);
      assert NoUpper(s) ==> NoUpper(rest) by {
        forall i | 0 <= i < |rest| ensures NoUpper(s) ==> !IsAsciiUpper(rest[i]) {
          assert rest[i] == s[|s| - |rest| + i];
        }
      }
      "-" + DashSpaceRuns(rest)
    else
      [s[0]] + DashSpaceRuns(s[1..])
  }

  /** The slug derived from a destination's name while it is typed. */
  function Slugify(name: string): (r: string)
    ensures NoSpace(r) && NoUpper(r)
  {
    DashSpaceRuns(Lower(name))
  }

  /** Text with no white space in it is left alone. */
  lemma {:induction false} DashWithoutSpace(s: string)
    requires NoSpace(s)
    ensures DashSpaceRuns(s) == s
    decreases |s|
  {
    if s != [] {
      DashWithoutSpace(s[1..]);
    }
  }

  lemma LowerWithoutUpper(s: string)
    requires NoUpper(s)
    ensures Lower(s) == s
  {
  }

  /** A slug is its own slug. */
  lemma SlugIdempotent(name: string)
    ensures Slugify(Slugify(name)) == Slugify(name)
  {
    var s := Slugify(name);
    LowerWithoutUpper(s);
    DashWithoutSpace(s);
  }

  /** A name with no white space in it becomes its lower-case form. */
  lemma SlugOfOneWord(name: string)
    requires NoSpace(name)
    ensures Slugify(name) == Lower(name)
  {
    DashWithoutSpace(Lower(name));
  }

  /** Text without white space in front of the rest is kept as it is. */
  lemma {:induction false} DashAfterWord(w: string, rest: string)
    requires NoSpace(w)
    ensures DashSpaceRuns(w + rest) == w + DashSpaceRuns(rest)
    decreases |w|
  {
    if w != [] {
      var s := w + rest;
      assert s[0] == w[0] && !IsSpace(s[0]);
      assert s[1..] == w[1..] + rest;
      DashAfterWord(w[1..], rest);
      assert DashSpaceRuns(s) == [w[0]] + (w[1..] + DashSpaceRuns(rest));
      assert [w[0]] + (w[1..] + DashSpaceRuns(rest)) == w + DashSpaceRuns(rest);
    } else {
      assert w + rest == rest;
    }
  }

  /** A run of white space in front of a word becomes one dash. */
  lemma DashAfterRun(run: string, rest: string)
    requires run != [] && AllSpace(run)
    requires rest == [] || !IsSpace(rest[0])
    ensures DashSpaceRuns(run + rest) == "-" + DashSpaceRuns(rest)
  {
    var s := run + rest;
    assert s[0] == run[0];
    TrimStartOfRun(run, rest);
  }

  /**
   * The slug of `word`, a run of white space and the rest of the name is the
   * lower-cased word, one dash, and the slug of the rest.
   */
  lemma SlugJoinsWords(word: string, run: string, rest: string)
    requires NoSpace(word) && run != [] && AllSpace(run)
    requires rest == [] || !IsSpace(rest[0])
    ensures Slugify(word + run + rest) == Lower(word) + "-" + Slugify(rest)
  {
    LowerConcat(word + run, rest);
    LowerConcat(word, run);
    var lw, lr, lt := Lower(word), Lower(run), Lower(rest);
    assert lr == run;
    assert NoSpace(lw);
    assert lt == [] || !IsSpace(lt[0]);
    assert lw + lr + lt == lw + (lr + lt);
    DashAfterWord(lw, lr + lt);
    DashAfterRun(lr, lt);
  }

  // ---------------------------------------------------------------------------
  // The list fields
  // ---------------------------------------------------------------------------

  /** The "Good For" field: `value.split(',').map(item => item.trim())`. */
  function ParseGoodFor(text: string): (r: seq<string>)
    ensures |r| == Count(text, ',') + 1
    ensures forall i | 0 <= i < |r| :: r[i] == [] || (!IsSpace(r[i][0]) && !IsSpace(r[i][|r[i]| - 1]))
  {
    var pieces := Split(text, ',');
    SplitCount(text, ',');
    seq(|pieces|, i requires 0 <= i < |pieces| => Trim(pieces[i]))
  }

  /** A cleared field reads as one empty entry. */
  lemma GoodForOfEmpty()
    ensures ParseGoodFor("") == [""]
  {
    assert Count("", ',') == 0;
    assert Trim("") == "";
  }

  /** A non-empty audience list passes the `good_for` check, whatever else the form holds. */
  lemma AudiencePasses(d: DestinationForm, audiences: seq<string>)
    requires |audiences| > 0
    ensures ErrorsOf(d.(goodFor := audiences)).goodFor == None
  {
  }

  /**
   * Whatever is typed, the field never reads as an empty list, so once it has
   * been edited `validateForm` never reports the audience as missing.
   */
  lemma GoodForNeverMissing(text: string, d: DestinationForm)
    ensures |ParseGoodFor(text)| >= 1
    ensures ErrorsOf(d.(goodFor := ParseGoodFor(text))).goodFor == None
  {
    AudiencePasses(d, ParseGoodFor(text));
  }

  /** The entries as splitting their `", "` join on commas sees them: all but the first gain a leading space. */
  function SpacedAfterFirst(xs: seq<string>): (r: seq<string>)
    requires |xs| >= 1
    ensures |r| == |xs| && r[0] == xs[0]
    ensures forall i | 1 <= i < |xs| :: r[i] == " " + xs[i]
  {
    [xs[0]] + seq(|xs| - 1, i requires 0 <= i < |xs| - 1 => " " + xs[i + 1])
  }

  /** Text in front of a join belongs to its first piece. */
  lemma JoinPrefixFirst(p: string, ys: seq<string>, sep: string)
    requires |ys| >= 1
    ensures p + JoinWith(ys, sep) == JoinWith([p + ys[0]] + ys[1..], sep)
  {
    var zs := [p + ys[0]] + ys[1..];
    assert zs[1..] == ys[1..];
  }

  /** Joining with `", "` is joining with `","` after a space is put in front of every entry but the first. */
  lemma {:induction false} JoinCommaSpace(xs: seq<string>)
    requires |xs| >= 1
    ensures JoinWith(xs, ", ") == JoinWith(SpacedAfterFirst(xs), ",")
    decreases |xs|
  {
    if |xs| > 1 {
      var tail := xs[1..];
      JoinCommaSpace(tail);
      var ys := SpacedAfterFirst(tail);
      var zs := SpacedAfterFirst(xs);
      JoinPrefixFirst(" ", ys, ",");
      assert zs[1..] == [" " + ys[0]] + ys[1..];
      assert JoinWith(zs, ",") == xs[0] + "," + JoinWith(zs[1..], ",");
      assert JoinWith(xs, ", ") == xs[0] + ", " + JoinWith(tail, ", ");
      assert xs[0] + ", " + JoinWith(tail, ", ") == xs[0] + "," + (" " + JoinWith(ys, ","));
    }
  }

  /** The spaced entries hold no comma when the entries hold none. */
  lemma SpacedWithoutComma(xs: seq<string>)
    requires |xs| >= 1
    requires forall i | 0 <= i < |xs| :: ',' !in xs[i]
    ensures forall i | 0 <= i < |xs| :: ',' !in SpacedAfterFirst(xs)[i]
  {
    var ys := SpacedAfterFirst(xs);
    forall i | 0 <= i < |ys| ensures ',' !in ys[i] {
      if i > 0 {
        assert ys[i] == [' '] + xs[i];
      }
    }
  }

  /** Trimming a spaced entry gives back an entry that was already trimmed. */
  lemma SpacedTrimsBack(xs: seq<string>, i: nat)
    requires 0 <= i < |xs|
    requires xs[i] == [] || (!IsSpace(xs[i][0]) && !IsSpace(xs[i][|xs[i]| - 1]))
    ensures Trim(SpacedAfterFirst(xs)[i]) == xs[i]
  {
    TrimOfTrimmed(xs[i]);
    if i > 0 {
      assert SpacedAfterFirst(xs)[i] == [' '] + xs[i];
      TrimLeadingSpace(' ', xs[i]);
    }
  }

  /**
   * The field shows `goodFor.join(', ')`; reading that text back gives the
   * same list when no entry holds a comma or starts or ends with white space.
   */
  lemma GoodForRoundTrip(xs: seq<string>)
    requires |xs| >= 1
    requires forall i | 0 <= i < |xs| :: ',' !in xs[i] && (xs[i] == [] || (!IsSpace(xs[i][0]) && !IsSpace(xs[i][|xs[i]| - 1])))
    ensures ParseGoodFor(JoinWith(xs, ", ")) == xs
  {
    var text := JoinWith(xs, ", ");
    var ys := SpacedAfterFirst(xs);
    JoinCommaSpace(xs);
    SpacedWithoutComma(xs);
    SplitOfJoin(ys, ',');
    assert [','] == ",";
    forall i | 0 <= i < |xs| ensures Trim(ys[i]) == xs[i] {
      SpacedTrimsBack(xs, i);
    }
    ParseGoodForOfPieces(text, ys, xs);
  }

  /** The field reads as the trimmed pieces of its text. */
  lemma ParseGoodForOfPieces(text: string, pieces: seq<string>, xs: seq<string>)
    requires Split(text, ',') == pieces && |pieces| == |xs|
    requires forall i | 0 <= i < |xs| :: Trim(pieces[i]) == xs[i]
    ensures ParseGoodFor(text) == xs
  {
  }

  /** The highlights and etiquette fields: `value.split('\n').filter(line => line.trim())`. */
  function ParseLines(text: string): (r: seq<string>)
    ensures forall i | 0 <= i < |r| :: !AllSpace(r[i]) && '\n' !in r[i]
  {
    var lines := Split(text, '\n');
    var r := Filter(lines, (line: string) => !IsBlank(line));
    forall i | 0 <= i < |r| ensures !AllSpace(r[i]) && '\n' !in r[i] {
      FilterMembership(lines, (line: string) => !IsBlank(line), r[i]);
      BlankIffAllSpace(r[i]);
    }
    r
  }

  /** A line of the text survives exactly when it is not blank. */
  lemma ParseLinesKeeps(text: string, line: string)
    ensures line in ParseLines(text) <==> line in Split(text, '\n') && !AllSpace(line)
  {
    FilterMembership(Split(text, '\n'), (l: string) => !IsBlank(l), line);
    BlankIffAllSpace(line);
  }

  /**
   * The field shows `lines.join('\n')`; reading that text back gives the
   * same list when every entry is non-blank and on one line.
   */
  lemma ParseLinesRoundTrip(xs: seq<string>)
    requires forall i | 0 <= i < |xs| :: '\n' !in xs[i] && !IsBlank(xs[i])
    ensures ParseLines(JoinWith(xs, "\n")) == xs
  {
    if xs == [] {
      assert Split("", '\n') == [""];
      assert IsBlank("");
    } else {
      SplitOfJoin(xs, '\n');
      FilterAll(xs, (line: string) => !IsBlank(line));
    }
  }

  // ---------------------------------------------------------------------------
  // The dashboard's state
  // ---------------------------------------------------------------------------

  class Dashboard {
    var bookings: seq<Booking>
    var formErrors: FormErrors
    var editing: Option<DestinationForm>

    constructor()
      ensures bookings == [] && formErrors == NoErrors && editing == None
    {
      bookings := [];
      formErrors := NoErrors;
      editing := None;
    }

    /**
     * `validateForm`: records the form's errors, key by key, and succeeds
     * exactly when there are none, that is when the form is complete.
     */
    method ValidateForm(d: DestinationForm) returns (ok: bool)
      modifies this
      ensures formErrors == ErrorsOf(d)
      ensures ok <==> Complete(d)
      ensures unchanged(this`bookings, this`editing)
    {
      var name := MessageIf(d, NameKey);
      var location := MessageIf(d, LocationKey);
      var description := MessageIf(d, DescriptionKey);
      var category := MessageIf(d, CategoryKey);
      var image := MessageIf(d, ImageKey);
      var recommendedStay := MessageIf(d, RecommendedStayKey);
      var budgetRange := MessageIf(d, BudgetRangeKey);
      var bestTimeToVisit := MessageIf(d, BestTimeKey);
      var goodFor := MessageIf(d, GoodForKey);
      var errors := FormErrors(name, location, description, category, image,
                               recommendedStay, budgetRange, bestTimeToVisit, goodFor);
      formErrors := errors;
      ok := |Keys(errors)| == 0;
      NoKeysIffNoErrors(errors);
      NoErrorsIffComplete(d);
    }

    /** `handleEdit`: the chosen destination becomes the one being edited. */
    method StartEditing(d: DestinationForm)
      modifies this
      ensures editing == Some(d)
      ensures unchanged(this`bookings, this`formErrors)
    {
      editing := Some(d);
    }

    /** Typing a name sets the name and the slug derived from it. */
    method EditName(name: string)
      modifies this
      ensures old(editing).Some? ==> editing == Some(old(editing).value.(name := name, slug := Slugify(name)))
      ensures old(editing).None? ==> editing == None
      ensures unchanged(this`bookings, this`formErrors)
    {
      if editing.Some? {
        editing := Some(editing.value.(name := name, slug := Slugify(name)));
      }
    }

    /** Typing in the "Good For" field. */
    method EditGoodFor(text: string)
      modifies this
      ensures old(editing).Some? ==> editing == Some(old(editing).value.(goodFor := ParseGoodFor(text)))
      ensures old(editing).None? ==> editing == None
      ensures unchanged(this`bookings, this`formErrors)
    {
      if editing.Some? {
        editing := Some(editing.value.(goodFor := ParseGoodFor(text)));
      }
    }

    /** Typing in the highlights field. */
    method EditHighlights(text: string)
      modifies this
      ensures old(editing).Some? ==> editing == Some(old(editing).value.(highlights := ParseLines(text)))
      ensures old(editing).None? ==> editing == None
      ensures unchanged(this`bookings, this`formErrors)
    {
      if editing.Some? {
        editing := Some(editing.value.(highlights := ParseLines(text)));
      }
    }

    /** Typing in the cultural etiquette field. */
    method EditEtiquette(text: string)
      modifies this
      ensures old(editing).Some? ==> editing == Some(old(editing).value.(culturalEtiquette := ParseLines(text)))
      ensures old(editing).None? ==> editing == None
      ensures unchanged(this`bookings, this`formErrors)
    {
      if editing.Some? {
        editing := Some(editing.value.(culturalEtiquette := ParseLines(text)));
      }
    }

    /** Closing or cancelling the form drops the edit and its errors. */
    method CloseEditor()
      modifies this
      ensures editing == None && formErrors == NoErrors
      ensures unchanged(this`bookings)
    {
      editing := None;
      formErrors := NoErrors;
    }

    /**
     * `handleUpdateBookingStatus`: once the service has stored the new status,
     * the local list gets it on the booking with that id and no other; when
     * the service fails the list is left as it was.
     */
    method UpdateBookingStatus(id: string, status: BookingStatus, serviceSucceeded: bool) returns (outcome: Outcome)
      modifies this
      ensures serviceSucceeded ==> outcome == Pass && bookings == SetStatusById(old(bookings), id, status)
      ensures !serviceSucceeded ==> outcome == Fail("Failed to update booking status") && unchanged(this`bookings)
      ensures unchanged(this`formErrors, this`editing)
    {
      if serviceSucceeded {
        bookings := SetStatusById(bookings, id, status);
        outcome := Pass;
      } else {
        outcome := Fail("Failed to update booking status");
      }
    }
  }
}
