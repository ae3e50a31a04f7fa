/**
 * Surface-category accounting of the street-view detector
 * (`Mask2FormerDetector` in backend/api/src/vision/mask2former_detector.py),
 * without the neural network: a segmentation map is a sequence of class ids,
 * ids are named through the model's label table (or a fixed fallback table),
 * names are sorted into asphalt, greenery and other, and pixel shares are
 * averaged over the images that could be analysed.
 */
module Segmentation {
  import opened Wrappers
  import Text

  datatype Category = Asphalt | Greenery | Other

  /** `CATEGORY_MAP`: the registered class names, in the order the dictionary lists them, with their categories. */
  const CategoryEntries: seq<(string, Category)> :=
    RoadEntries + VehicleEntries + VegetationEntries + OtherEntries + AdditionalEntries

  /** Roads and transportation infrastructure: impermeable. */
  const RoadEntries: seq<(string, Category)> := [
    ("Road", Asphalt), ("Lane Marking - General", Asphalt), ("Lane Marking - Crosswalk", Asphalt),
    ("Sidewalk", Asphalt), ("Parking", Asphalt), ("Rail Track", Asphalt), ("Bridge", Asphalt),
    ("Tunnel", Asphalt)
  ]

  /** Vehicles: impermeable when parked. */
  const VehicleEntries: seq<(string, Category)> := [
    ("Car", Asphalt), ("Truck", Asphalt), ("Bus", Asphalt), ("Motorcycle", Asphalt), ("Bicycle", Asphalt),
    ("Trailer", Asphalt)
  ]

  /** Vegetation, under several spellings: permeable. */
  const VegetationEntries: seq<(string, Category)> := [
    ("Vegetation", Greenery), ("Tree", Greenery), ("Terrain", Greenery), ("vegetation", Greenery),
    ("tree", Greenery), ("terrain", Greenery), ("grass", Greenery), ("Grass", Greenery),
    ("plants", Greenery), ("Plants", Greenery), ("Nature", Greenery), ("nature", Greenery)
  ]

  /** Buildings, street furniture, sky, people and the rest. */
  const OtherEntries: seq<(string, Category)> := [
    ("Building", Other), ("Wall", Other), ("Fence", Other), ("Guard Rail", Other), ("Utility Pole", Other),
    ("Traffic Sign", Other), ("Traffic Light", Other), ("Fire Hydrant", Other), ("Stop Sign", Other),
    ("Parking Meter", Other), ("Bench", Other), ("Trash Can", Other), ("Mailbox", Other),
    ("Phone Booth", Other), ("Street Light", Other), ("Sky", Other), ("Cloud", Other), ("Person", Other),
    ("Rider", Other), ("Animal", Other), ("Water", Other), ("Snow", Other), ("Manhole", Other),
    ("Curb", Other), ("Curb Cut", Other), ("Pole", Other), ("Dynamic", Other), ("Ground", Other),
    ("Static", Other), ("Ego Vehicle", Other)
  ]

  /** Classes added later; only the pedestrian area is paved. */
  const AdditionalEntries: seq<(string, Category)> := [
    ("Billboard", Other), ("Pedestrian Area", Asphalt), ("Catch Basin", Other), ("Bird", Other),
    ("Traffic Sign (Front)", Other)
  ]

  /** The category registered for `name`, if any. */
  function Lookup(entries: seq<(string, Category)>, name: string): Option<Category> {
    if entries == [] then None
    else if entries[0].0 == name then Some(entries[0].1)
    else Lookup(entries[1..], name)
  }

  /** A name no entry carries is not found. */
  lemma {:induction false} LookupMissing(entries: seq<(string, Category)>, name: string)
    requires forall i :: 0 <= i < |entries| ==> entries[i].0 != name
    ensures Lookup(entries, name) == None
  {
    if entries != [] {
      assert forall i :: 0 <= i < |entries[1..]| ==> entries[1..][i] == entries[i + 1];
      LookupMissing(entries[1..], name);
    }
  }

  /** The first entry carrying `name` gives its category. */
  lemma {:induction false} LookupFound(entries: seq<(string, Category)>, name: string, k: nat)
    requires k < |entries| && entries[k].0 == name
    requires forall i :: 0 <= i < k ==> entries[i].0 != name
    ensures Lookup(entries, name) == Some(entries[k].1)
  {
    if k > 0 {
      assert forall i :: 0 <= i < k - 1 ==> entries[1..][i] == entries[i + 1];
      LookupFound(entries[1..], name, k - 1);
    }
  }

  /** The names `_get_class_name` falls back to without a model label table, for ids 0 to 18. */
  const FallbackNames: seq<string> := [
    "Road", "Sidewalk", "Building", "Wall", "Fence", "Utility Pole", "Traffic Light", "Traffic Sign",
    "Vegetation", "Terrain", "Sky", "Person", "Rider", "Car", "Truck", "Bus", "Motorcycle", "Bicycle", "Tree"
  ]

  /** The name given to an id no table knows. */
  function UnknownName(classId: int): string {
    "Unknown_" + Text.IntToString(classId)
  }

  /**
   * `_get_class_name`: the model's label table when it has one (`Some`), the
   * fallback table otherwise, and `Unknown_<id>` for an id missing from
   * whichever table is used.
   */
  function ClassName(id2label: Option<map<int, string>>, classId: int): (name: string)
    ensures id2label.Some? && classId in id2label.value ==> name == id2label.value[classId]
    ensures id2label.None? && 0 <= classId < |FallbackNames| ==> name == FallbackNames[classId]
    ensures ((id2label.Some? && classId !in id2label.value) || (id2label.None? && !(0 <= classId < |FallbackNames|)))
              ==> name == UnknownName(classId)
  {
    match id2label
    case Some(table) => if classId in table then table[classId] else UnknownName(classId)
    case None => if 0 <= classId < |FallbackNames| then FallbackNames[classId] else UnknownName(classId)
  }

  /** `CATEGORY_MAP.get(name, "other")`. */
  function CategoryOfName(name: string): Category {
    Lookup(CategoryEntries, name).GetOr(Other)
  }

  /**
   * `_map_class_id_to_category`: the category of the id's name, and "other"
   * for an id the table in use does not name.
   */
  function CategoryOfId(id2label: Option<map<int, string>>, classId: int): (c: Category)
    ensures id2label.Some? && classId in id2label.value ==> c == CategoryOfName(id2label.value[classId])
    ensures id2label.None? && 0 <= classId < |FallbackNames| ==> c == CategoryOfName(FallbackNames[classId])
    ensures id2label.Some? && classId !in id2label.value ==> c == Other
    ensures id2label.None? && !(0 <= classId < |FallbackNames|) ==> c == Other
  {
    UnknownIdsAreOther(classId);
    CategoryOfName(ClassName(id2label, classId))
  }

  predicate StartsWithUn(name: string) {
    |name| >= 2 && name[0] == 'U' && name[1] == 'n'
  }

  /** No name in `entries` starts with "Un". */
  predicate NoneStartsWithUn(entries: seq<(string, Category)>) {
    forall i :: 0 <= i < |entries| ==> !StartsWithUn(entries[i].0)
  }

  lemma NoRegisteredNameStartsWithUn()
    ensures NoneStartsWithUn(CategoryEntries)
  {
    assert NoneStartsWithUn(RoadEntries);
    assert NoneStartsWithUn(VehicleEntries);
    assert NoneStartsWithUn(VegetationEntries);
    assert NoneStartsWithUn(OtherEntries);
    assert NoneStartsWithUn(AdditionalEntries);
  }

  /** Any id that no table names falls in "other". */
  lemma UnknownIdsAreOther(classId: int)
    ensures CategoryOfName(UnknownName(classId)) == Other
  {
    var name := UnknownName(classId);
    assert StartsWithUn(name);
    NoRegisteredNameStartsWithUn();
    LookupMissing(CategoryEntries, name);
  }

  /**
   * Without a model label table, ids 0 to 18 have their fixed names and
   * every other id, being unknown, falls in "other".
   */
  lemma FallbackTableCoversZeroToEighteen(classId: int)
    ensures 0 <= classId <= 18 ==> ClassName(None, classId) == FallbackNames[classId]
    ensures !(0 <= classId <= 18) ==> ClassName(None, classId) == UnknownName(classId)
    ensures !(0 <= classId <= 18) ==> CategoryOfId(None, classId) == Other
  {
    if !(0 <= classId <= 18) {
      UnknownIdsAreOther(classId);
    }
  }

  // ---------------------------------------------------------------------------
  // _count_pixels_by_category

  /** How often `x` occurs in `s`. */
  function Occurrences(s: seq<int>, x: int): nat {
    if s == [] then 0 else (if s[0] == x then 1 else 0) + Occurrences(s[1..], x)
  }

  lemma {:induction false} OccurrencesPositive(s: seq<int>, x: int)
    ensures x in s <==> Occurrences(s, x) > 0
  {
    if s != [] {
      OccurrencesPositive(s[1..], x);
      assert s == [s[0]] + s[1..];
    }
  }

  /** `s` without any occurrence of `x`. */
  function Without(s: seq<int>, x: int): (r: seq<int>)
    ensures |r| + Occurrences(s, x) == |s|
  {
    if s == [] then [] else (if s[0] == x then [] else [s[0]]) + Without(s[1..], x)
  }

  /** Removing `x` leaves no `x` and every other value as often as before. */
  lemma {:induction false} WithoutOccurrences(s: seq<int>, x: int, y: int)
    ensures Occurrences(Without(s, x), y) == if y == x then 0 else Occurrences(s, y)
  {
    if s != [] {
      WithoutOccurrences(s[1..], x, y);
      if s[0] != x {
        assert Without(s, x) == [s[0]] + Without(s[1..], x);
        assert ([s[0]] + Without(s[1..], x))[1..] == Without(s[1..], x);
      } else {
        assert Without(s, x) == [] + Without(s[1..], x) == Without(s[1..], x);
      }
    }
  }

  /** How class ids are sorted into categories under a label table. */
  function Classifier(id2label: Option<map<int, string>>): int -> Category {
    classId => CategoryOfId(id2label, classId)
  }

  /** The number of pixels of `seg` whose class `categoryOf` puts in category `c`. */
  function CategoryPixels(categoryOf: int -> Category, seg: seq<int>, c: Category): nat {
    if seg == [] then 0
    else (if categoryOf(seg[0]) == c then 1 else 0) + CategoryPixels(categoryOf, seg[1..], c)
  }

  /** Taking all pixels of one class out of the map moves them, together, into that class's category. */
  lemma {:induction false} CategoryPixelsWithout(categoryOf: int -> Category, seg: seq<int>, x: int, c: Category)
    ensures CategoryPixels(categoryOf, seg, c)
         == (if categoryOf(x) == c then Occurrences(seg, x) else 0) + CategoryPixels(categoryOf, Without(seg, x), c)
  {
    if seg != [] {
      CategoryPixelsWithout(categoryOf, seg[1..], x, c);
      if seg[0] != x {
        assert Without(seg, x) == [seg[0]] + Without(seg[1..], x);
        assert ([seg[0]] + Without(seg[1..], x))[1..] == Without(seg[1..], x);
      } else {
        assert Without(seg, x) == [] + Without(seg[1..], x) == Without(seg[1..], x);
      }
    }
  }

  /** Every pixel is in exactly one category. */
  lemma {:induction false} CategoryPixelsSum(categoryOf: int -> Category, seg: seq<int>)
    ensures CategoryPixels(categoryOf, seg, Asphalt) + CategoryPixels(categoryOf, seg, Greenery)
          + CategoryPixels(categoryOf, seg, Other) == |seg|
  {
    if seg != [] {
      CategoryPixelsSum(categoryOf, seg[1..]);
    }
  }

  /**
   * One step of the count: taking the pixels of `classId` out of the rest of
   * the map moves all of that class's pixels in the whole map to its
   * category, and the ids still left keep their counts.
   */
  lemma RemoveClass(categoryOf: int -> Category, seg: seq<int>, rest: seq<int>, classId: int)
    requires classId in rest
    requires forall x :: x in rest ==> Occurrences(rest, x) == Occurrences(seg, x)
    ensures forall c :: CategoryPixels(categoryOf, rest, c)
              == (if categoryOf(classId) == c then Occurrences(seg, classId) else 0)
                 + CategoryPixels(categoryOf, Without(rest, classId), c)
    ensures forall x :: x in Without(rest, classId) ==> Occurrences(Without(rest, classId), x) == Occurrences(seg, x)
  {
    var next := Without(rest, classId);
    forall c ensures CategoryPixels(categoryOf, rest, c)
        == (if categoryOf(classId) == c then Occurrences(seg, classId) else 0) + CategoryPixels(categoryOf, next, c) {
      CategoryPixelsWithout(categoryOf, rest, classId, c);
    }
    forall x | x in next ensures Occurrences(next, x) == Occurrences(seg, x) {
      WithoutOccurrences(rest, classId, x);
      OccurrencesPositive(next, x);
      OccurrencesPositive(rest, x);
    }
  }

  /** A percentage for each of the three categories: the dictionaries keyed asphalt, greenery and other. */
  datatype Shares = Shares(asphalt: real, greenery: real, other: real) {
    function Get(c: Category): real {
      match c
      case Asphalt => asphalt
      case Greenery => greenery
      case Other => other
    }

    function Total(): real {
      asphalt + greenery + other
    }

    predicate InRange() {
      0.0 <= asphalt <= 100.0 && 0.0 <= greenery <= 100.0 && 0.0 <= other <= 100.0
    }
  }

  /** `(count / total_pixels) * 100`. */
  function Percent(count: nat, total: nat): (p: real)
    requires total > 0
    ensures count <= total ==> 0.0 <= p <= 100.0
    ensures count == total ==> p == 100.0
  {
    (count as real / total as real) * 100.0
  }

  /** The shares of a non-empty segmentation map. */
  function SharesOf(categoryOf: int -> Category, seg: seq<int>): Shares
    requires seg != []
  {
    Shares(Percent(CategoryPixels(categoryOf, seg, Asphalt), |seg|),
           Percent(CategoryPixels(categoryOf, seg, Greenery), |seg|),
           Percent(CategoryPixels(categoryOf, seg, Other), |seg|))
  }

  /** Three counts that add up to the total give percentages that add up to 100. */
  lemma PercentsSum(a: nat, g: nat, o: nat, total: nat)
    requires total > 0 && a + g + o == total
    ensures Percent(a, total) + Percent(g, total) + Percent(o, total) == 100.0
  {
    var t := total as real;
    var x, y, z := a as real / t, g as real / t, o as real / t;
    assert x + y + z == 1.0 by {
      assert (x + y + z) * t == a as real + g as real + o as real == t;
    }
    assert x * 100.0 + y * 100.0 + z * 100.0 == (x + y + z) * 100.0;
  }

  /** The shares of a map add up to 100 and each lies in [0, 100]. */
  lemma SharesOfIsDistribution(categoryOf: int -> Category, seg: seq<int>)
    requires seg != []
    ensures SharesOf(categoryOf, seg).Total() == 100.0
    ensures SharesOf(categoryOf, seg).InRange()
  {
    CategoryPixelsSum(categoryOf, seg);
    PercentsSum(CategoryPixels(categoryOf, seg, Asphalt), CategoryPixels(categoryOf, seg, Greenery),
                CategoryPixels(categoryOf, seg, Other), |seg|);
  }

  /** Dividing by a pixel count of zero raises, which the caller treats as a failed image. */
  datatype CountError = EmptySegmentation

  /** `category_counts`: a pixel count per category. */
  datatype Tally = Tally(asphalt: nat, greenery: nat, other: nat) {
    function Get(c: Category): nat {
      match c
      case Asphalt => asphalt
      case Greenery => greenery
      case Other => other
    }

    /** `category_counts[c] += n`. */
    function Add(c: Category, n: nat): (t: Tally)
      ensures t.Get(c) == Get(c) + n
      ensures forall d :: d != c ==> t.Get(d) == Get(d)
    {
      match c
      case Asphalt => this.(asphalt := asphalt + n)
      case Greenery => this.(greenery := greenery + n)
      case Other => this.(other := other + n)
    }
  }

  /**
   * The counting loop of `_count_pixels_by_category`: for each distinct class
   * id, add the number of its pixels in the whole map to its category's count.
   */
  method TallyCategories(categoryOf: int -> Category, seg: seq<int>) returns (counts: Tally)
    ensures forall c :: counts.Get(c) == CategoryPixels(categoryOf, seg, c)
  {
    counts := Tally(0, 0, 0);
    var rest := seg;
    while rest != []
      invariant forall c :: counts.Get(c) + CategoryPixels(categoryOf, rest, c) == CategoryPixels(categoryOf, seg, c)
      invariant forall x :: x in rest ==> Occurrences(rest, x) == Occurrences(seg, x)
      decreases |rest|
    {
      var classId := rest[0];
      var pixelCount := Occurrences(seg, classId);
      var category := categoryOf(classId);
      RemoveClass(categoryOf, seg, rest, classId);
      counts := counts.Add(category, pixelCount);
      rest := Without(rest, classId);
    }
  }

  /**
   * `_count_pixels_by_category` under any classification of the ids: the
   * category counts as percentages of the map, or the division by zero of an
   * empty map.
   */
  method CountPixels(categoryOf: int -> Category, seg: seq<int>) returns (r: Result<Shares, CountError>)
    ensures seg == [] ==> r == Failure(EmptySegmentation)
    ensures seg != [] ==> r == Success(SharesOf(categoryOf, seg))
  {
    var counts := TallyCategories(categoryOf, seg);
    var total := |seg|;
    if total == 0 {
      return Failure(EmptySegmentation);
    }
    r := Success(Shares(Percent(counts.asphalt, total), Percent(counts.greenery, total), Percent(counts.other, total)));
    assert counts.asphalt == counts.Get(Asphalt) && counts.greenery == counts.Get(Greenery) && counts.other == counts.Get(Other);
  }

  /** `_count_pixels_by_category` with the detector's own naming and category table. */
  method CountPixelsByCategory(id2label: Option<map<int, string>>, seg: seq<int>)
    returns (r: Result<Shares, CountError>)
    ensures seg == [] ==> r == Failure(EmptySegmentation)
    ensures seg != [] ==> r == Success(SharesOf(Classifier(id2label), seg))
  {
    r := CountPixels(Classifier(id2label), seg);
  }

  // ---------------------------------------------------------------------------
  // _aggregate_results

  /** The sum of category `c` over the results. */
  function SumOf(results: seq<Shares>, c: Category): real {
    if results == [] then 0.0 else SumOf(results[..|results| - 1], c) + results[|results| - 1].Get(c)
  }

  /** `np.mean` of each category over the results, or all zeros for an empty list. */
  function MeanShares(results: seq<Shares>): Shares {
    if results == [] then Shares(0.0, 0.0, 0.0)
    else
      var n := |results| as real;
      Shares(SumOf(results, Asphalt) / n, SumOf(results, Greenery) / n, SumOf(results, Other) / n)
  }

  /** `_aggregate_results`: for each category in turn, the mean of its values over the results. */
  method AggregateResults(results: seq<Shares>) returns (aggregated: Shares)
    ensures aggregated == MeanShares(results)
  {
    if results == [] {
      return Shares(0.0, 0.0, 0.0);
    }
    aggregated := Shares(0.0, 0.0, 0.0);
    var categories := [Asphalt, Greenery, Other];
    for k := 0 to 3
      invariant forall j :: 0 <= j < 3 ==>
        aggregated.Get(categories[j]) == if j < k then MeanShares(results).Get(categories[j]) else 0.0
    {
      var category := categories[k];
      var mean := SumOf(results, category) / |results| as real;
      match category {
        case Asphalt => aggregated := aggregated.(asphalt := mean);
        case Greenery => aggregated := aggregated.(greenery := mean);
        case Other => aggregated := aggregated.(other := mean);
      }
    }
    assert aggregated.asphalt == aggregated.Get(categories[0]);
    assert aggregated.greenery == aggregated.Get(categories[1]);
    assert aggregated.other == aggregated.Get(categories[2]);
  }

  lemma {:induction false} SumOfTotals(results: seq<Shares>)
    requires forall i :: 0 <= i < |results| ==> results[i].Total() == 100.0
    ensures SumOf(results, Asphalt) + SumOf(results, Greenery) + SumOf(results, Other) == 100.0 * |results| as real
  {
    if results != [] {
      SumOfTotals(results[..|results| - 1]);
    }
  }

  lemma {:induction false} SumOfBounds(results: seq<Shares>, c: Category)
    requires forall i :: 0 <= i < |results| ==> results[i].InRange()
    ensures 0.0 <= SumOf(results, c) <= 100.0 * |results| as real
  {
    if results != [] {
      SumOfBounds(results[..|results| - 1], c);
    }
  }

  /** The mean of distributions over the three categories is again one. */
  lemma MeanSharesIsDistribution(results: seq<Shares>)
    requires results != []
    requires forall i :: 0 <= i < |results| ==> results[i].Total() == 100.0 && results[i].InRange()
    ensures MeanShares(results).Total() == 100.0
    ensures MeanShares(results).InRange()
  {
    var n := |results| as real;
    SumOfTotals(results);
    SumOfBounds(results, Asphalt);
    SumOfBounds(results, Greenery);
    SumOfBounds(results, Other);
    var a, g, o := SumOf(results, Asphalt), SumOf(results, Greenery), SumOf(results, Other);
    assert a / n + g / n + o / n == (a + g + o) / n;
    MeanBound(a, n);
    MeanBound(g, n);
    MeanBound(o, n);
  }

  /** A sum of `n` values in [0, 100], divided by `n`, lies in [0, 100]. */
  lemma MeanBound(sum: real, n: real)
    requires n > 0.0 && 0.0 <= sum <= 100.0 * n
    ensures 0.0 <= sum / n <= 100.0
  {
    assert sum / n * n == sum;
  }

  // ---------------------------------------------------------------------------
  // analyze_local_images

  /** ValueError for an empty path list, RuntimeError when no image could be analysed. */
  datatype DetectorError = NoImagePaths | AllImagesFailed

  /**
   * What analysing one image yields before the pixels are counted: `None`
   * when loading or inference raises, otherwise the segmentation map.
   */
  type ImageOutcome = Option<seq<int>>

  /** The shares of the images whose analysis succeeded, in order. */
  function Successes(id2label: Option<map<int, string>>, images: seq<ImageOutcome>): seq<Shares> {
    if images == [] then []
    else
      var last := images[|images| - 1];
      Successes(id2label, images[..|images| - 1])
        + (if last.Some? && last.value != [] then [SharesOf(Classifier(id2label), last.value)] else [])
  }

  /** Each successful analysis is a distribution over the three categories. */
  lemma {:induction false} SuccessesAreDistributions(id2label: Option<map<int, string>>, images: seq<ImageOutcome>)
    ensures forall i :: 0 <= i < |Successes(id2label, images)| ==>
              Successes(id2label, images)[i].Total() == 100.0 && Successes(id2label, images)[i].InRange()
  {
    if images != [] {
      var last := images[|images| - 1];
      SuccessesAreDistributions(id2label, images[..|images| - 1]);
      if last.Some? && last.value != [] {
        SharesOfIsDistribution(Classifier(id2label), last.value);
      }
    }
  }

  /**
   * `analyze_local_images`: analyse each image, skip the ones that raise,
   * and average the rest; raise when there are no images or no successes.
   */
  method AnalyzeLocalImages(id2label: Option<map<int, string>>, images: seq<ImageOutcome>)
    returns (r: Result<Shares, DetectorError>)
    ensures images == [] <==> r == Failure(NoImagePaths)
    ensures images != [] && Successes(id2label, images) == [] <==> r == Failure(AllImagesFailed)
    ensures r.Success? ==> r.value == MeanShares(Successes(id2label, images))
  {
    if images == [] {
      return Failure(NoImagePaths);
    }
    var allResults: seq<Shares> := [];
    var successfulAnalyses := 0;
    for i := 0 to |images|
      invariant allResults == Successes(id2label, images[..i])
      invariant successfulAnalyses == |allResults|
    {
      assert images[..i + 1][..i] == images[..i];
      match images[i] {
        case None =>
        case Some(seg) =>
          var counted := CountPixelsByCategory(id2label, seg);
          if counted.Success? {
            allResults := allResults + [counted.value];
            successfulAnalyses := successfulAnalyses + 1;
          }
      }
    }
    assert images[..|images|] == images;
    if successfulAnalyses == 0 {
      return Failure(AllImagesFailed);
    }
    var aggregated := AggregateResults(allResults);
    r := Success(aggregated);
  }

  /** Whatever the images, a successful analysis reports shares that add up to 100, each in [0, 100]. */
  lemma AnalysisIsDistribution(id2label: Option<map<int, string>>, images: seq<ImageOutcome>)
    requires Successes(id2label, images) != []
    ensures MeanShares(Successes(id2label, images)).Total() == 100.0
    ensures MeanShares(Successes(id2label, images)).InRange()
  {
    SuccessesAreDistributions(id2label, images);
    MeanSharesIsDistribution(Successes(id2label, images));
  }
}
