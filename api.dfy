/** The request handlers of the service: seeding the meal catalogue, listing
    meals with filters, scaling a meal's macros to a portion, and upserting a
    diner's preferences. Each handler is one round trip to the store. */
module Api {
  import opened Wrappers
  import opened Sequences
  import opened Identity
  import opened Schemas
  import opened Store

  // ----- Errors -----

  /** The exceptions the handlers' broad `except` turns into a 500. */
  datatype Cause =
    | InvalidId      // `ObjectId(text)` rejected the text
    | MealNotFound   // the 404 raised inside the `try`

  datatype ApiError =
    | Unprocessable(errors: set<Loc>)  // rejected by request validation
    | ServerError(cause: Cause)

  function StatusCode(e: ApiError): (code: nat)
    ensures code == 422 || code == 500
    ensures code == 500 <==> e.ServerError?
  {
    match e
    case Unprocessable(_) => 422
    case ServerError(_) => 500
  }

  // ----- The built-in catalogue -----

  const PROTEIN_PANCAKES: Meal :=
    Meal("Protein Pancakes", Some("Fluffy oat-banana pancakes with whey."), Breakfasts, [Vegetarian],
         9.99, Macros(35.0, 45.0, 8.0, 420.0), None, false, None)
  const SPINACH_OMELETTE: Meal :=
    Meal("Spinach Omelette", Some("Egg whites, spinach, feta."), Breakfasts, [Keto],
         8.50, Macros(32.0, 6.0, 14.0, 290.0), None, false, None)
  const GREEK_YOGURT_BOWL: Meal :=
    Meal("Greek Yogurt Bowl", Some("Greek yogurt, berries, almonds."), Breakfasts, [LowCarb],
         7.90, Macros(28.0, 22.0, 10.0, 320.0), None, false, None)
  const CHICKEN_POWER_BOWL: Meal :=
    Meal("Chicken Power Bowl", Some("Grilled chicken, quinoa, veggies."), MainMeals, [],
         12.99, Macros(50.0, 40.0, 12.0, 520.0), None, false, None)
  const TOFU_TERIYAKI_BOWL: Meal :=
    Meal("Tofu Teriyaki Bowl", Some("High-protein tofu, brown rice, broccoli."), MainMeals, [Vegan],
         11.50, Macros(35.0, 55.0, 14.0, 540.0), None, false, None)
  const CUSTOM_PROTEIN_SMOOTHIE: Meal :=
    Meal("Custom Protein Smoothie", Some("Build your own shake."), SmoothiesAndShakes, [Vegan],
         6.99, Macros(25.0, 30.0, 6.0, 310.0), None, true,
         Some(["whey", "vegan protein", "creatine", "peanut butter", "chia seeds"]))

  /** The built-in catalogue, in insertion order. */
  const INITIAL_MEALS: seq<Meal> := [
    PROTEIN_PANCAKES, SPINACH_OMELETTE, GREEK_YOGURT_BOWL,
    CHICKEN_POWER_BOWL, TOFU_TERIYAKI_BOWL, CUSTOM_PROTEIN_SMOOTHIE
  ]

  function IsCustomizable(m: Meal): bool {
    m.isCustomizable
  }

  /** Six meals, every one valid. */
  lemma InitialMealsValid()
    ensures |INITIAL_MEALS| == 6
    ensures forall i :: 0 <= i < |INITIAL_MEALS| ==> INITIAL_MEALS[i].Valid()
  {
    assert PROTEIN_PANCAKES.Valid() && SPINACH_OMELETTE.Valid() && GREEK_YOGURT_BOWL.Valid();
    assert CHICKEN_POWER_BOWL.Valid() && TOFU_TERIYAKI_BOWL.Valid() && CUSTOM_PROTEIN_SMOOTHIE.Valid();
  }

  /** The catalogue spans the three categories. */
  lemma InitialMealsSpanCategories()
    ensures (set i | 0 <= i < |INITIAL_MEALS| :: INITIAL_MEALS[i].category)
         == {Breakfasts, MainMeals, SmoothiesAndShakes}
  {
    var cats := set i | 0 <= i < |INITIAL_MEALS| :: INITIAL_MEALS[i].category;
    assert INITIAL_MEALS[0].category == Breakfasts;
    assert INITIAL_MEALS[3].category == MainMeals;
    assert INITIAL_MEALS[5].category == SmoothiesAndShakes;
    forall c | c in cats ensures c in {Breakfasts, MainMeals, SmoothiesAndShakes} {
      match c
      case Breakfasts =>
      case MainMeals =>
      case SmoothiesAndShakes =>
    }
  }

  /** Exactly one meal is customizable, the smoothie, and it offers five add-ons. */
  lemma InitialMealsOneCustomizable()
    ensures Filter(INITIAL_MEALS, IsCustomizable) == [CUSTOM_PROTEIN_SMOOTHIE]
    ensures CUSTOM_PROTEIN_SMOOTHIE.availableAddOns.Some?
    ensures |CUSTOM_PROTEIN_SMOOTHIE.availableAddOns.value| == 5
  {
    var first := INITIAL_MEALS[..5];
    assert INITIAL_MEALS == first + [CUSTOM_PROTEIN_SMOOTHIE];
    assert forall i :: 0 <= i < |first| ==> !IsCustomizable(first[i]);
    FilterKeepsNone(first, IsCustomizable);
    FilterConcat(first, [CUSTOM_PROTEIN_SMOOTHIE], IsCustomizable);
    FilterSingleton(CUSTOM_PROTEIN_SMOOTHIE, IsCustomizable);
  }

  // ----- POST /seed -----

  datatype SeedResult = SeedResult(seeded: bool, count: nat)

  /** The documents seeding writes when the store hands out identities from `serial` on. */
  function SeedDocs(serial: nat): seq<MealDoc> {
    seq(|INITIAL_MEALS|, k requires 0 <= k < |INITIAL_MEALS| =>
      MealDoc(Some(ObjectId(serial + k)), None, Dump(INITIAL_MEALS[k])))
  }

  /** The meal collection, next serial and reply after a seed request. */
  function SeedOutcome(docs: seq<MealDoc>, serial: nat): (seq<MealDoc>, nat, SeedResult) {
    if |docs| == 0 then (SeedDocs(serial), serial + |INITIAL_MEALS|, SeedResult(true, |INITIAL_MEALS|))
    else (docs, serial, SeedResult(false, |docs|))
  }

  /** The seeded documents grow by one dumped catalogue meal per identity. */
  lemma SeedDocsStep(serial: nat, i: nat)
    requires i < |INITIAL_MEALS|
    ensures SeedDocs(serial)[..i + 1]
         == SeedDocs(serial)[..i] + [MealDoc(Some(ObjectId(serial + i)), None, Dump(INITIAL_MEALS[i]))]
  {
    assert SeedDocs(serial)[..i + 1] == SeedDocs(serial)[..i] + [SeedDocs(serial)[i]];
  }

  method Seed(store: DocumentStore) returns (r: SeedResult)
    requires store.Valid()
    modifies store
    ensures store.Valid()
    ensures (store.meals, store.nextSerial, r) == SeedOutcome(old(store.meals), old(store.nextSerial))
    ensures store.preferences == old(store.preferences)
  {
    var existing := store.CountMeals();
    if existing == 0 {
      ghost var base := store.nextSerial;
      for i := 0 to |INITIAL_MEALS|
        invariant store.Valid()
        invariant store.nextSerial == base + i
        invariant store.meals == SeedDocs(base)[..i]
        invariant store.preferences == old(store.preferences)
      {
        SeedDocsStep(base, i);
        var oid := store.CreateMeal(INITIAL_MEALS[i]);
      }
      assert SeedDocs(base)[..|INITIAL_MEALS|] == SeedDocs(base);
      return SeedResult(true, |INITIAL_MEALS|);
    }
    return SeedResult(false, existing);
  }

  /** On an empty collection, seeding writes the six built-in meals in order,
      each under a fresh, distinct identity, and reports six. */
  lemma SeedOnEmpty(serial: nat)
    ensures var (docs, next, r) := SeedOutcome([], serial);
      && |docs| == 6 && next == serial + 6 && r == SeedResult(true, 6)
      && DistinctIds(docs)
      && forall k :: 0 <= k < 6 ==>
           docs[k].record == Dump(INITIAL_MEALS[k])
           && docs[k].nativeId.Some? && serial <= docs[k].nativeId.value.serial < next
  {
    SeedDocsAt(serial);
  }

  /** Seeded document k carries identity `serial + k` and the dumped catalogue meal k. */
  lemma SeedDocsAt(serial: nat)
    ensures |SeedDocs(serial)| == 6
    ensures forall k :: 0 <= k < 6 ==>
      SeedDocs(serial)[k].nativeId == Some(ObjectId(serial + k)) && SeedDocs(serial)[k].record == Dump(INITIAL_MEALS[k])
  {
  }

  /** On a non-empty collection, seeding writes nothing and reports the existing count. */
  lemma SeedOnNonEmpty(docs: seq<MealDoc>, serial: nat)
    requires docs != []
    ensures SeedOutcome(docs, serial) == (docs, serial, SeedResult(false, |docs|))
  {
  }

  /** A second seed after any first one changes nothing and reports `seeded = false`. */
  lemma SeedIdempotent(docs: seq<MealDoc>, serial: nat)
    ensures var (d1, s1, _) := SeedOutcome(docs, serial);
      var (d2, s2, r2) := SeedOutcome(d1, s1);
      d2 == d1 && s2 == s1 && !r2.seeded && r2.count == |d1|
  {
    var (d1, s1, _) := SeedOutcome(docs, serial);
    assert |SeedDocs(serial)| == 6;
    assert |d1| > 0;
  }

  // ----- GET /meals -----

  /** Python truthiness of an optional query string: absent and "" are false. */
  predicate Truthy(s: Option<string>) {
    s.Some? && s.value != ""
  }

  /** The store filter built from the query: only truthy parameters take part. */
  function QueryFilter(category: Option<string>, diet: Option<string>): (f: MealFilter)
    ensures f.category.Some? <==> Truthy(category)
    ensures f.dietTag.Some? <==> Truthy(diet)
    ensures f.category.Some? ==> f.category == category
    ensures f.dietTag.Some? ==> f.dietTag == diet
  {
    MealFilter(if Truthy(category) then category else None, if Truthy(diet) then diet else None)
  }

  /** `m.get("macros", {}).get("protein", 0)`: a missing key reads as 0. */
  function ProteinOf(d: MealDoc): (r: real)
    ensures "protein" in d.record.macros ==> r == d.record.macros["protein"]
    ensures "protein" !in d.record.macros ==> r == 0.0
  {
    if "protein" in d.record.macros then d.record.macros["protein"] else 0.0
  }

  /** On a stored meal the protein read is the meal's own protein per serving. */
  lemma ProteinOfDumped(d: MealDoc, m: Meal)
    requires d.record == Dump(m)
    ensures ProteinOf(d) == m.macros.protein
  {
  }

  function ProteinAtLeast(minimum: real): MealDoc -> bool {
    (d: MealDoc) => ProteinOf(d) >= minimum
  }

  /** The documents a listing returns before their identities are exposed:
      the store's filtered find, then the protein post-filter. */
  function Listed(meals: seq<MealDoc>, category: Option<string>, diet: Option<string>, minProtein: Option<real>)
    : seq<MealDoc>
  {
    var fetched := Selected(meals, QueryFilter(category, diet));
    if minProtein.Some? then Filter(fetched, ProteinAtLeast(minProtein.value)) else fetched
  }

  /** What the listing promises of each returned meal, stated directly. */
  predicate Admits(d: MealDoc, category: Option<string>, diet: Option<string>, minProtein: Option<real>) {
    && (Truthy(category) ==> d.record.category == category.value)
    && (Truthy(diet) ==> diet.value in d.record.dietTags)
    && (minProtein.Some? ==> ProteinOf(d) >= minProtein.value)
  }

  /** `m["id"] = str(m.pop("_id"))` when `_id` is present. */
  function ExposeId(d: MealDoc): (r: MealDoc)
    ensures r.nativeId == None && r.record == d.record
    ensures d.nativeId.Some? ==> r.id == Some(IdString(d.nativeId.value))
    ensures d.nativeId.Some? ==> r.id.Some? && ParseObjectId(r.id.value) == d.nativeId
    ensures d.nativeId.None? ==> r == d
  {
    if d.nativeId.Some? then
      ValueOfNumeral(d.nativeId.value.serial);
      MealDoc(None, Some(IdString(d.nativeId.value)), d.record)
    else d
  }

  method ListMeals(store: DocumentStore, category: Option<string>, diet: Option<string>, minProtein: Option<real>)
    returns (r: Result<seq<MealDoc>, ApiError>)
    ensures minProtein.Some? && minProtein.value < 0.0 ==>
      r == Err(Unprocessable({[Name("query"), Name("min_protein")]}))
    ensures minProtein.None? || minProtein.value >= 0.0 ==>
      && r.Ok?
      && |r.value| == |Listed(store.meals, category, diet, minProtein)|
      && forall k :: 0 <= k < |r.value| ==>
           r.value[k] == ExposeId(Listed(store.meals, category, diet, minProtein)[k])
  {
    if minProtein.Some? && minProtein.value < 0.0 {
      return Err(Unprocessable({[Name("query"), Name("min_protein")]}));
    }
    var meals := store.FindMeals(QueryFilter(category, diet));
    if minProtein.Some? {
      meals := Filter(meals, ProteinAtLeast(minProtein.value));
    }
    ghost var listed := meals;
    var i := 0;
    while i < |meals|
      invariant 0 <= i <= |meals| == |listed|
      invariant forall k :: 0 <= k < i ==> meals[k] == ExposeId(listed[k])
      invariant forall k :: i <= k < |meals| ==> meals[k] == listed[k]
    {
      if meals[i].nativeId.Some? {
        var oid := meals[i].nativeId.value;
        meals := meals[i := MealDoc(None, Some(IdString(oid)), meals[i].record)];
      }
      i := i + 1;
    }
    return Ok(meals);
  }

  /** A meal is listed exactly when it is stored and passes every filter that
      applies: exact category, diet tag membership, protein at least the minimum. */
  lemma ListedExactly(meals: seq<MealDoc>, category: Option<string>, diet: Option<string>, minProtein: Option<real>, d: MealDoc)
    ensures d in Listed(meals, category, diet, minProtein) <==> d in meals && Admits(d, category, diet, minProtein)
  {
    var f := QueryFilter(category, diet);
    FilterMembership(meals, MatchesFilter(f), d);
    if minProtein.Some? {
      FilterMembership(Selected(meals, f), ProteinAtLeast(minProtein.value), d);
    }
  }

  /** Listing keeps the store's order: it distributes over concatenation. */
  lemma ListedKeepsOrder(a: seq<MealDoc>, b: seq<MealDoc>, category: Option<string>, diet: Option<string>, minProtein: Option<real>)
    ensures Listed(a + b, category, diet, minProtein) == Listed(a, category, diet, minProtein) + Listed(b, category, diet, minProtein)
  {
    var f := QueryFilter(category, diet);
    FilterConcat(a, b, MatchesFilter(f));
    if minProtein.Some? {
      FilterConcat(Selected(a, f), Selected(b, f), ProteinAtLeast(minProtein.value));
    }
  }

  /** Without query parameters every stored meal is listed, in store order. */
  lemma ListedUnfiltered(meals: seq<MealDoc>)
    ensures Listed(meals, None, None, None) == meals
  {
    FilterKeepsAll(meals, MatchesFilter(QueryFilter(None, None)));
  }

  function IsVegan(d: MealDoc): bool {
    "vegan" in d.record.dietTags
  }

  /** A seeded document carries a tag's name exactly when its catalogue meal has the tag. */
  lemma SeedDocTags(serial: nat, k: nat, t: DietTag)
    requires k < |INITIAL_MEALS|
    ensures DietTagName(t) in SeedDocs(serial)[k].record.dietTags <==> t in INITIAL_MEALS[k].dietTags
  {
    DumpKeepsTags(INITIAL_MEALS[k], t);
  }

  /** Which seeded documents carry the vegan tag: only the last two. */
  lemma SeededVeganFlags(serial: nat)
    ensures forall k :: 0 <= k < 4 ==> !IsVegan(SeedDocs(serial)[k])
    ensures IsVegan(SeedDocs(serial)[4]) && IsVegan(SeedDocs(serial)[5])
  {
    forall k | 0 <= k < 6
      ensures IsVegan(SeedDocs(serial)[k]) <==> Vegan in INITIAL_MEALS[k].dietTags
    {
      SeedDocTags(serial, k, Vegan);
    }
  }

  /** The `diet=vegan` query selects by the vegan tag alone. */
  lemma VeganQuery(meals: seq<MealDoc>)
    ensures Listed(meals, None, Some("vegan"), None) == Filter(meals, IsVegan)
  {
    var vegan := MatchesFilter(QueryFilter(None, Some("vegan")));
    assert Truthy(Some("vegan"));
    FilterCongruent(meals, vegan, IsVegan);
  }

  /** Of six elements where only the last two pass, the filter keeps those two. */
  lemma LastTwoOfSix<T>(s: seq<T>, p: T -> bool)
    requires |s| == 6
    requires forall k :: 0 <= k < 4 ==> !p(s[k])
    requires p(s[4]) && p(s[5])
    ensures Filter(s, p) == [s[4], s[5]]
  {
    var first := s[..4];
    assert s == first + [s[4]] + [s[5]];
    FilterKeepsNone(first, p);
    FilterConcat(first + [s[4]], [s[5]], p);
    FilterConcat(first, [s[4]], p);
    FilterSingleton(s[4], p);
    FilterSingleton(s[5], p);
  }

  /** On the seeded catalogue, the vegan meals are the tofu bowl and the smoothie. */
  lemma SeededVeganMeals(serial: nat)
    ensures Listed(SeedDocs(serial), None, Some("vegan"), None) == [SeedDocs(serial)[4], SeedDocs(serial)[5]]
  {
    SeededVeganFlags(serial);
    LastTwoOfSix(SeedDocs(serial), IsVegan);
    VeganQuery(SeedDocs(serial));
  }

  /** On the seeded catalogue, vegan meals with at least 30 g of protein are
      just the tofu bowl. */
  lemma ListSeededVeganHighProtein(serial: nat)
    ensures Listed(SeedDocs(serial), None, Some("vegan"), Some(30.0)) == [SeedDocs(serial)[4]]
  {
    var docs := SeedDocs(serial);
    SeededVeganMeals(serial);
    assert ProteinOf(docs[4]) == 35.0 && ProteinOf(docs[5]) == 25.0;
    FilterConcat([docs[4]], [docs[5]], ProteinAtLeast(30.0));
    FilterSingleton(docs[4], ProteinAtLeast(30.0));
    FilterSingleton(docs[5], ProteinAtLeast(30.0));
    assert [docs[4], docs[5]] == [docs[4]] + [docs[5]];
  }

  // ----- POST /meals/portion -----

  datatype PortionRequest = PortionRequest(mealId: string, servings: real)

  /** A portion request for one serving, the default. */
  function NewPortionRequest(mealId: string): (req: PortionRequest)
    ensures req.mealId == mealId && req.servings == DEFAULT_SERVINGS
  {
    PortionRequest(mealId, DEFAULT_SERVINGS)
  }

  datatype PortionResponse = PortionResponse(servings: real, macros: map<string, real>)

  /** `max(0.25, servings)`: never below a quarter serving, no upper clamp. */
  function Factor(servings: real): (f: real)
    ensures f >= 0.25
    ensures servings >= 0.25 ==> f == servings
    ensures servings <= 0.25 ==> f == 0.25
  {
    if servings > 0.25 then servings else 0.25
  }

  /** Every macro key kept, each value multiplied by the factor. */
  function Scale(macros: map<string, real>, factor: real): (r: map<string, real>)
    ensures r.Keys == macros.Keys
    ensures forall k :: k in r ==> r[k] == macros[k] * factor
  {
    map k | k in macros :: macros[k] * factor
  }

  /** The reply to a portion request against the stored meals. */
  function Portion(meals: seq<MealDoc>, req: PortionRequest): Result<PortionResponse, ApiError> {
    match ParseObjectId(req.mealId)
    case None => Err(ServerError(InvalidId))
    case Some(oid) =>
      match FindOne(meals, oid)
      case None => Err(ServerError(MealNotFound))
      case Some(d) =>
        var factor := Factor(req.servings);
        Ok(PortionResponse(factor, Scale(d.record.macros, factor)))
  }

  method GetPortionMacros(store: DocumentStore, req: PortionRequest) returns (r: Result<PortionResponse, ApiError>)
    ensures r == Portion(store.meals, req)
  {
    var oid := ParseObjectId(req.mealId);
    if oid.None? {
      return Err(ServerError(InvalidId));
    }
    var doc := store.FindMeal(oid.value);
    if doc.None? {
      return Err(ServerError(MealNotFound));
    }
    var factor := Factor(req.servings);
    return Ok(PortionResponse(factor, Scale(doc.value.record.macros, factor)));
  }

  /** A well-formed identity that no stored meal has yields an error, answered
      with status 500 rather than 404 because the broad handler catches the
      404; never a default or zero record. */
  lemma PortionOfMissingMeal(meals: seq<MealDoc>, req: PortionRequest)
    requires ParseObjectId(req.mealId).Some?
    requires forall i :: 0 <= i < |meals| ==> meals[i].nativeId != ParseObjectId(req.mealId)
    ensures Portion(meals, req) == Err(ServerError(MealNotFound))
    ensures StatusCode(Portion(meals, req).error) == 500
  {
  }

  /** Identity text that does not parse is also answered with status 500. */
  lemma PortionOfMalformedId(meals: seq<MealDoc>, req: PortionRequest)
    requires !WellFormed(req.mealId)
    ensures Portion(meals, req) == Err(ServerError(InvalidId))
  {
  }

  /** Any id text a listing returned locates that same meal for a portion
      request: the reply scales exactly that meal's macros. */
  lemma ListedIdLocatesMeal(
    meals: seq<MealDoc>, category: Option<string>, diet: Option<string>, minProtein: Option<real>,
    k: nat, servings: real)
    requires DistinctIds(meals)
    requires forall i :: 0 <= i < |meals| ==> meals[i].nativeId.Some?
    requires k < |Listed(meals, category, diet, minProtein)|
    ensures var d := Listed(meals, category, diet, minProtein)[k];
      && ExposeId(d).id.Some?
      && Portion(meals, PortionRequest(ExposeId(d).id.value, servings))
         == Ok(PortionResponse(Factor(servings), Scale(d.record.macros, Factor(servings))))
  {
    var d := Listed(meals, category, diet, minProtein)[k];
    ListedExactly(meals, category, diet, minProtein, d);
    var i :| 0 <= i < |meals| && meals[i] == d;
    FindOneLocates(meals, i);
  }

  /** One serving (the default) reports the stored macros unchanged. */
  lemma PortionOfOneServing(macros: map<string, real>)
    ensures Factor(DEFAULT_SERVINGS) == 1.0
    ensures Scale(macros, Factor(DEFAULT_SERVINGS)) == macros
  {
  }

  /** Non-negative macros stay non-negative and are never scaled below a quarter. */
  lemma PortionBounds(macros: map<string, real>, servings: real)
    requires forall k :: k in macros ==> macros[k] >= 0.0
    ensures forall k :: k in macros ==>
      Scale(macros, Factor(servings))[k] >= 0.0 && Scale(macros, Factor(servings))[k] >= macros[k] * 0.25
  {
    forall k | k in macros
      ensures Scale(macros, Factor(servings))[k] >= macros[k] * 0.25
    {
      assert macros[k] * Factor(servings) >= macros[k] * 0.25;
    }
  }

  /** Two servings of {protein 10, carbs 20, fats 5, calories 100}. */
  lemma PortionOfTwoServings()
    ensures Scale(map["protein" := 10.0, "carbs" := 20.0, "fats" := 5.0, "calories" := 100.0], Factor(2.0))
         == map["protein" := 20.0, "carbs" := 40.0, "fats" := 10.0, "calories" := 200.0]
  {
  }

  // ----- POST /preferences -----

  method UpsertPreferences(store: DocumentStore, pref: Preference) returns (r: Result<string, ApiError>)
    requires store.Valid()
    modifies store
    ensures store.Valid()
    ensures !pref.Valid() ==>
      r == Err(Unprocessable(Under(Name("body"), pref.Violations()))) && r.error.errors != {}
      && store.preferences == old(store.preferences) && store.nextSerial == old(store.nextSerial)
    ensures pref.Valid() ==>
      && r == Ok("ok")
      && store.preferences == Upserted(old(store.preferences), pref, old(store.nextSerial))
      && store.nextSerial ==
           if FirstIndex(old(store.preferences), HasEmail(pref.email)).None? then old(store.nextSerial) + 1
           else old(store.nextSerial)
    ensures store.meals == old(store.meals)
  {
    if !pref.Valid() {
      return Err(Unprocessable(Under(Name("body"), pref.Violations())));
    }
    store.UpsertPreference(pref);
    return Ok("ok");
  }
}
