/** The record schemas of the service: the field constraints that request
    bodies and stored documents must satisfy. A closed enumeration becomes a
    datatype together with its wire names; a numeric range becomes a `Valid`
    predicate; a validation failure is reported as the set of offending field
    locations, empty exactly when the record is valid. */
module Schemas {
  import opened Wrappers

  /** One step of a field location: a field name or a list position. */
  datatype Key = Name(name: string) | Index(index: nat)

  /** The location of an offending field, e.g. `items.2.servings`. */
  type Loc = seq<Key>

  /** The reports of a nested value, each placed under the key that holds it. */
  function Under(k: Key, locs: set<Loc>): (r: set<Loc>)
    ensures forall l :: [k] + l in r <==> l in locs
    ensures forall l :: l in r ==> |l| >= 1 && l[0] == k && l[1..] in locs
    ensures r == {} <==> locs == {}
  {
    var r := set l | l in locs :: [k] + l;
    assert forall l :: [k] + l in r <==> l in locs by {
      forall l ensures [k] + l in r ==> l in locs {
        if [k] + l in r {
          var l' :| l' in locs && [k] + l' == [k] + l;
          assert l' == ([k] + l')[1..];
        }
      }
    }
    assert forall l :: l in r ==> l[1..] in locs by {
      forall l | l in r ensures l[1..] in locs {
        var l' :| l' in locs && l == [k] + l';
        assert l' == l[1..];
      }
    }
    assert locs != {} ==> r != {} by {
      if locs != {} {
        var l :| l in locs;
        assert [k] + l in r;
      }
    }
    r
  }

  // ----- Enumerations -----

  datatype DietTag = Vegan | Vegetarian | Keto | LowCarb | GlutenFree | DairyFree

  const DIET_TAG_NAMES: set<string> :=
    {"vegan", "vegetarian", "keto", "low-carb", "gluten-free", "dairy-free"}

  function DietTagName(t: DietTag): string {
    match t
    case Vegan => "vegan"
    case Vegetarian => "vegetarian"
    case Keto => "keto"
    case LowCarb => "low-carb"
    case GlutenFree => "gluten-free"
    case DairyFree => "dairy-free"
  }

  /** Validation of a diet tag: only the six names are accepted. */
  function ParseDietTag(s: string): (r: Option<DietTag>)
    ensures r.Some? <==> s in DIET_TAG_NAMES
    ensures r.Some? ==> DietTagName(r.value) == s
    ensures forall t :: DietTagName(t) == s ==> r == Some(t)
  {
    if s == "vegan" then Some(Vegan)
    else if s == "vegetarian" then Some(Vegetarian)
    else if s == "keto" then Some(Keto)
    else if s == "low-carb" then Some(LowCarb)
    else if s == "gluten-free" then Some(GlutenFree)
    else if s == "dairy-free" then Some(DairyFree)
    else None
  }

  datatype Category = Breakfasts | MainMeals | SmoothiesAndShakes

  const CATEGORY_NAMES: set<string> := {"Breakfasts", "Main Meals", "Smoothies & Shakes"}

  function CategoryName(c: Category): string {
    match c
    case Breakfasts => "Breakfasts"
    case MainMeals => "Main Meals"
    case SmoothiesAndShakes => "Smoothies & Shakes"
  }

  /** Validation of a meal category: only the three names are accepted. */
  function ParseCategory(s: string): (r: Option<Category>)
    ensures r.Some? <==> s in CATEGORY_NAMES
    ensures r.Some? ==> CategoryName(r.value) == s
    ensures forall c :: CategoryName(c) == s ==> r == Some(c)
  {
    if s == "Breakfasts" then Some(Breakfasts)
    else if s == "Main Meals" then Some(MainMeals)
    else if s == "Smoothies & Shakes" then Some(SmoothiesAndShakes)
    else None
  }

  datatype Frequency = Weekly | Biweekly | Monthly

  const FREQUENCY_NAMES: set<string> := {"weekly", "biweekly", "monthly"}

  function FrequencyName(f: Frequency): string {
    match f
    case Weekly => "weekly"
    case Biweekly => "biweekly"
    case Monthly => "monthly"
  }

  /** Validation of a delivery frequency: only the three names are accepted. */
  function ParseFrequency(s: string): (r: Option<Frequency>)
    ensures r.Some? <==> s in FREQUENCY_NAMES
    ensures r.Some? ==> FrequencyName(r.value) == s
    ensures forall f :: FrequencyName(f) == s ==> r == Some(f)
  {
    if s == "weekly" then Some(Weekly)
    else if s == "biweekly" then Some(Biweekly)
    else if s == "monthly" then Some(Monthly)
    else None
  }

  // ----- Records -----

  /** Nutrition per serving; every field must be non-negative. */
  datatype Macros = Macros(protein: real, carbs: real, fats: real, calories: real) {
    predicate Valid() {
      protein >= 0.0 && carbs >= 0.0 && fats >= 0.0 && calories >= 0.0
    }

    function Violations(): (r: set<Loc>)
      ensures r == {} <==> Valid()
      ensures r <= {[Name("protein")], [Name("carbs")], [Name("fats")], [Name("calories")]}
      ensures [Name("protein")] in r <==> protein < 0.0
      ensures [Name("carbs")] in r <==> carbs < 0.0
      ensures [Name("fats")] in r <==> fats < 0.0
      ensures [Name("calories")] in r <==> calories < 0.0
    {
      (if protein < 0.0 then {[Name("protein")]} else {})
      + (if carbs < 0.0 then {[Name("carbs")]} else {})
      + (if fats < 0.0 then {[Name("fats")]} else {})
      + (if calories < 0.0 then {[Name("calories")]} else {})
    }
  }

  datatype Meal = Meal(
    title: string,
    description: Option<string>,
    category: Category,
    dietTags: seq<DietTag>,
    price: real,
    macros: Macros,
    imageUrl: Option<string>,
    isCustomizable: bool,
    availableAddOns: Option<seq<string>>)
  {
    /** Price and every macro are non-negative; category and tags are valid by their types. */
    predicate Valid() {
      price >= 0.0 && macros.Valid()
    }

    function Violations(): (r: set<Loc>)
      ensures r == {} <==> Valid()
      ensures [Name("price")] in r <==> price < 0.0
      ensures forall l :: l in r && l != [Name("price")] ==> |l| == 2 && l[0] == Name("macros")
      ensures forall l :: [Name("macros")] + l in r <==> l in macros.Violations()
    {
      var nested := Under(Name("macros"), macros.Violations());
      assert forall l :: l in nested ==> l[0] == Name("macros") && |l| == 2;
      assert forall l :: ([Name("macros")] + l)[0] == Name("macros");
      (if price < 0.0 then {[Name("price")]} else {}) + nested
    }
  }

  /** A meal built with only its required fields: no description, image or
      diet tags, not customizable, no add-ons. */
  function NewMeal(title: string, category: Category, price: real, macros: Macros): (m: Meal)
    ensures m.title == title && m.category == category && m.price == price && m.macros == macros
    ensures m.description == None && m.imageUrl == None && m.dietTags == []
    ensures !m.isCustomizable && m.availableAddOns == None
    ensures m.Valid() <==> price >= 0.0 && macros.Valid()
  {
    Meal(title, None, category, [], price, macros, None, false, None)
  }

  const DEFAULT_SERVINGS: real := 1.0

  datatype SubscriptionItem = SubscriptionItem(mealId: string, servings: real) {
    predicate Valid() {
      0.5 <= servings <= 5.0
    }
  }

  /** An item built with the default servings multiplier, which lies in [0.5, 5]. */
  function NewSubscriptionItem(mealId: string): (i: SubscriptionItem)
    ensures i.mealId == mealId && i.servings == DEFAULT_SERVINGS
    ensures i.Valid()
  {
    SubscriptionItem(mealId, DEFAULT_SERVINGS)
  }

  predicate ValidProteinTarget(grams: real) {
    20.0 <= grams <= 400.0
  }

  datatype Subscription = Subscription(
    email: string,
    frequency: Frequency,
    targetProteinPerDay: real,
    items: seq<SubscriptionItem>,
    notes: Option<string>)
  {
    /** Protein target in [20, 400], at least one item, and every item valid. */
    predicate Valid() {
      && ValidProteinTarget(targetProteinPerDay)
      && |items| >= 1
      && forall i :: 0 <= i < |items| ==> items[i].Valid()
    }

    function Violations(): (r: set<Loc>)
      ensures r == {} <==> Valid()
      ensures [Name("target_protein_g_per_day")] in r <==> !ValidProteinTarget(targetProteinPerDay)
      ensures [Name("items")] in r <==> items == []
      ensures forall i :: 0 <= i < |items| ==>
        ([Name("items"), Index(i), Name("servings")] in r <==> !items[i].Valid())
      ensures forall l :: l in r ==>
        || l == [Name("target_protein_g_per_day")]
        || l == [Name("items")]
        || exists i :: 0 <= i < |items| && l == [Name("items"), Index(i), Name("servings")]
    {
      var servings := set i | 0 <= i < |items| && !items[i].Valid() :: [Name("items"), Index(i), Name("servings")];
      assert (forall i :: 0 <= i < |items| ==> items[i].Valid()) <==> servings == {} by {
        if exists i :: 0 <= i < |items| && !items[i].Valid() {
          var i :| 0 <= i < |items| && !items[i].Valid();
          assert [Name("items"), Index(i), Name("servings")] in servings;
        }
      }
      (if ValidProteinTarget(targetProteinPerDay) then {} else {[Name("target_protein_g_per_day")]})
      + (if items == [] then {[Name("items")]} else {})
      + servings
    }
  }

  const DEFAULT_TARGET_PROTEIN: real := 120.0

  datatype Preference = Preference(email: string, targetProteinPerDay: real, dietFilters: seq<DietTag>) {
    predicate Valid() {
      ValidProteinTarget(targetProteinPerDay)
    }

    function Violations(): (r: set<Loc>)
      ensures r == {} <==> Valid()
      ensures r <= {[Name("target_protein_g_per_day")]}
    {
      if Valid() then {} else {[Name("target_protein_g_per_day")]}
    }
  }

  /** A preference built from an email alone: 120 g of protein a day, no diet filters. */
  function NewPreference(email: string): (p: Preference)
    ensures p.email == email && p.targetProteinPerDay == DEFAULT_TARGET_PROTEIN && p.dietFilters == []
    ensures p.Valid()
  {
    Preference(email, DEFAULT_TARGET_PROTEIN, [])
  }
}
