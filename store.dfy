/** The document store the service runs against: the collections "meal" and
    "preference", held in memory in insertion order, with the four MongoDB
    operations the handlers issue (count, insert, filtered find, find by
    identity) and the keyed upsert. The `database` helper module that wraps
    these calls is not part of this model; the store below follows MongoDB's
    documented meaning of each call. */
module Store {
  import opened Wrappers
  import opened Sequences
  import opened Identity
  import opened Schemas

  /** A meal as `model_dump` writes it: enumerations become their names and
      the macros become a dictionary keyed by field name. */
  datatype MealRecord = MealRecord(
    title: string,
    description: Option<string>,
    category: string,
    dietTags: seq<string>,
    price: real,
    macros: map<string, real>,
    imageUrl: Option<string>,
    isCustomizable: bool,
    availableAddOns: Option<seq<string>>)

  const MACRO_KEYS: set<string> := {"protein", "carbs", "fats", "calories"}

  function MacrosMap(m: Macros): (r: map<string, real>)
    ensures r.Keys == MACRO_KEYS
    ensures r["protein"] == m.protein && r["carbs"] == m.carbs
    ensures r["fats"] == m.fats && r["calories"] == m.calories
  {
    map["protein" := m.protein, "carbs" := m.carbs, "fats" := m.fats, "calories" := m.calories]
  }

  /** The stored form of a meal; its names read back as the meal's own enumerations. */
  function Dump(m: Meal): (r: MealRecord)
    ensures ParseCategory(r.category) == Some(m.category)
    ensures |r.dietTags| == |m.dietTags|
    ensures forall i :: 0 <= i < |r.dietTags| ==> ParseDietTag(r.dietTags[i]) == Some(m.dietTags[i])
    ensures r.macros == MacrosMap(m.macros)
    ensures r.title == m.title && r.description == m.description && r.price == m.price
    ensures r.imageUrl == m.imageUrl && r.isCustomizable == m.isCustomizable
    ensures r.availableAddOns == m.availableAddOns
    ensures m.Valid() ==> r.price >= 0.0 && forall k :: k in r.macros ==> r.macros[k] >= 0.0
  {
    MealRecord(
      m.title, m.description, CategoryName(m.category),
      seq(|m.dietTags|, i requires 0 <= i < |m.dietTags| => DietTagName(m.dietTags[i])),
      m.price, MacrosMap(m.macros), m.imageUrl, m.isCustomizable, m.availableAddOns)
  }

  /** A stored meal carries a diet tag's name exactly when the meal has that tag. */
  lemma DumpKeepsTags(m: Meal, t: DietTag)
    ensures DietTagName(t) in Dump(m).dietTags <==> t in m.dietTags
  {
    var tags := Dump(m).dietTags;
    if DietTagName(t) in tags {
      var i :| 0 <= i < |tags| && tags[i] == DietTagName(t);
      assert m.dietTags[i] == t;
    }
    if t in m.dietTags {
      var i :| 0 <= i < |m.dietTags| && m.dietTags[i] == t;
      assert tags[i] == DietTagName(t);
    }
  }

  /** A meal document: `_id` (the store's native identity), `id` (its text
      form, once exposed) and the dumped meal fields. */
  datatype MealDoc = MealDoc(nativeId: Option<ObjectId>, id: Option<string>, record: MealRecord)

  /** A preference document: its `_id` and the preference fields. */
  datatype PreferenceDoc = PreferenceDoc(nativeId: ObjectId, pref: Preference)

  // ----- Finding meals -----

  /** A store filter: `{"category": c}` and/or `{"diet_tags": {"$in": [t]}}`. */
  datatype MealFilter = MealFilter(category: Option<string>, dietTag: Option<string>)

  /** MongoDB's reading of the filter: equality on the category and `$in`
      membership of the tag; the empty filter `{}` matches every document. */
  predicate Matches(f: MealFilter, d: MealDoc)
    ensures f.category.None? && f.dietTag.None? ==> Matches(f, d)
  {
    && (f.category.Some? ==> d.record.category == f.category.value)
    && (f.dietTag.Some? ==> f.dietTag.value in d.record.dietTags)
  }

  /** On a stored meal, a filter on a category's name, a tag's name or both
      selects exactly the meals in that category, carrying that tag, or both. */
  lemma MatchesDumpedMeal(d: MealDoc, m: Meal, c: Category, t: DietTag)
    requires d.record == Dump(m)
    ensures Matches(MealFilter(Some(CategoryName(c)), None), d) <==> m.category == c
    ensures Matches(MealFilter(None, Some(DietTagName(t))), d) <==> t in m.dietTags
    ensures Matches(MealFilter(Some(CategoryName(c)), Some(DietTagName(t))), d) <==>
      m.category == c && t in m.dietTags
  {
    DumpKeepsTags(m, t);
    if CategoryName(m.category) == CategoryName(c) {
      assert ParseCategory(CategoryName(c)) == Some(c);
    }
  }

  function MatchesFilter(f: MealFilter): MealDoc -> bool {
    (d: MealDoc) => Matches(f, d)
  }

  /** The documents a filtered `find` returns, in store order. */
  function Selected(docs: seq<MealDoc>, f: MealFilter): seq<MealDoc> {
    Filter(docs, MatchesFilter(f))
  }

  function HasId(oid: ObjectId): MealDoc -> bool {
    (d: MealDoc) => d.nativeId == Some(oid)
  }

  /** `find_one({"_id": oid})`: the first document with that identity. */
  function FindOne(docs: seq<MealDoc>, oid: ObjectId): (r: Option<MealDoc>)
    ensures r.Some? ==> r.value in docs && r.value.nativeId == Some(oid)
    ensures r.None? <==> forall i :: 0 <= i < |docs| ==> docs[i].nativeId != Some(oid)
  {
    match FirstIndex(docs, HasId(oid))
    case Some(i) => Some(docs[i])
    case None => None
  }

  /** No two meal documents share an identity. */
  predicate DistinctIds(docs: seq<MealDoc>) {
    forall i, j :: 0 <= i < j < |docs| ==> docs[i].nativeId != docs[j].nativeId
  }

  /** With distinct identities, looking a stored document up by its identity finds it. */
  lemma FindOneLocates(docs: seq<MealDoc>, i: nat)
    requires DistinctIds(docs)
    requires i < |docs| && docs[i].nativeId.Some?
    ensures FindOne(docs, docs[i].nativeId.value) == Some(docs[i])
  {
    var oid := docs[i].nativeId.value;
    var k := FirstIndex(docs, HasId(oid));
    assert HasId(oid)(docs[i]);
  }

  // ----- Upserting preferences -----

  function HasEmail(email: string): PreferenceDoc -> bool {
    (d: PreferenceDoc) => d.pref.email == email
  }

  function HasOtherEmail(email: string): PreferenceDoc -> bool {
    (d: PreferenceDoc) => d.pref.email != email
  }

  /** At most one preference document per email. */
  predicate EmailsUnique(docs: seq<PreferenceDoc>) {
    forall i, j :: 0 <= i < j < |docs| ==> docs[i].pref.email != docs[j].pref.email
  }

  /** The preference stored for an email: that of the first matching document. */
  function LookupPreference(docs: seq<PreferenceDoc>, email: string): (r: Option<Preference>)
    ensures r.Some? ==> r.value.email == email
    ensures r.None? <==> forall i :: 0 <= i < |docs| ==> docs[i].pref.email != email
  {
    match FirstIndex(docs, HasEmail(email))
    case Some(i) => Some(docs[i].pref)
    case None => None
  }

  /** `update_one({"email": p.email}, {"$set": p}, upsert=True)`: the first
      document with that email gets every preference field set and keeps its
      `_id`; without one, a document for `p` is inserted under identity `serial`. */
  function Upserted(docs: seq<PreferenceDoc>, p: Preference, serial: nat): (r: seq<PreferenceDoc>)
    ensures FirstIndex(docs, HasEmail(p.email)).Some? ==>
      |r| == |docs| && forall i :: 0 <= i < |r| ==> r[i].nativeId == docs[i].nativeId
    ensures FirstIndex(docs, HasEmail(p.email)).None? ==>
      |r| == |docs| + 1 && r[..|docs|] == docs && r[|docs|] == PreferenceDoc(ObjectId(serial), p)
  {
    match FirstIndex(docs, HasEmail(p.email))
    case Some(i) => docs[i := PreferenceDoc(docs[i].nativeId, p)]
    case None => docs + [PreferenceDoc(ObjectId(serial), p)]
  }

  /** After the upsert, the email's stored preference is exactly the payload
      (a full replace, not a merge). */
  lemma UpsertStoresPayload(docs: seq<PreferenceDoc>, p: Preference, serial: nat)
    ensures LookupPreference(Upserted(docs, p, serial), p.email) == Some(p)
  {
    var r := Upserted(docs, p, serial);
    match FirstIndex(docs, HasEmail(p.email))
    case Some(i) =>
      assert HasEmail(p.email)(r[i]);
      assert forall j :: 0 <= j < i ==> r[j] == docs[j];
    case None =>
      assert HasEmail(p.email)(r[|docs|]);
      assert forall j :: 0 <= j < |docs| ==> r[j] == docs[j];
  }

  /** Documents for every other email are untouched, in the same order. */
  lemma {:induction false} UpsertLeavesOthers(docs: seq<PreferenceDoc>, p: Preference, serial: nat)
    ensures Filter(Upserted(docs, p, serial), HasOtherEmail(p.email)) == Filter(docs, HasOtherEmail(p.email))
  {
    var r := Upserted(docs, p, serial);
    var other := HasOtherEmail(p.email);
    match FirstIndex(docs, HasEmail(p.email))
    case Some(i) =>
      FilterAround(docs, i, other);
      FilterAround(r, i, other);
      assert r[..i] == docs[..i] && r[i + 1..] == docs[i + 1..];
      FilterSingleton(docs[i], other);
      FilterSingleton(r[i], other);
    case None =>
      FilterConcat(docs, [r[|docs|]], other);
      FilterSingleton(r[|docs|], other);
      assert r == docs + [r[|docs|]];
  }

  /** Upserting keeps every document's email, or adds one for an email not yet stored. */
  lemma UpsertKeepsEmailsUnique(docs: seq<PreferenceDoc>, p: Preference, serial: nat)
    requires EmailsUnique(docs)
    ensures EmailsUnique(Upserted(docs, p, serial))
  {
    var r := Upserted(docs, p, serial);
    if FirstIndex(docs, HasEmail(p.email)).Some? {
      assert forall j :: 0 <= j < |r| ==> r[j].pref.email == docs[j].pref.email;
    } else {
      assert forall j :: 0 <= j < |docs| ==> r[j] == docs[j];
    }
  }

  lemma UpdateLeavesOneRecord(docs: seq<PreferenceDoc>, p: Preference, serial: nat, i: nat)
    requires EmailsUnique(docs)
    requires FirstIndex(docs, HasEmail(p.email)) == Some(i)
    ensures Filter(Upserted(docs, p, serial), HasEmail(p.email)) == [Upserted(docs, p, serial)[i]]
    ensures Upserted(docs, p, serial)[i].pref == p
  {
    var r := Upserted(docs, p, serial);
    var same := HasEmail(p.email);
    FilterAround(r, i, same);
    FilterSingleton(r[i], same);
    assert r[..i] == docs[..i] && r[i + 1..] == docs[i + 1..];
    FilterKeepsNone(docs[..i], same);
    FilterKeepsNone(docs[i + 1..], same);
  }

  lemma InsertLeavesOneRecord(docs: seq<PreferenceDoc>, p: Preference, serial: nat)
    requires FirstIndex(docs, HasEmail(p.email)).None?
    ensures Filter(Upserted(docs, p, serial), HasEmail(p.email)) == [PreferenceDoc(ObjectId(serial), p)]
  {
    var r := Upserted(docs, p, serial);
    var same := HasEmail(p.email);
    assert r == docs + [r[|docs|]];
    FilterConcat(docs, [r[|docs|]], same);
    FilterKeepsNone(docs, same);
    FilterSingleton(r[|docs|], same);
  }

  /** With at most one document per email beforehand, the upsert leaves exactly
      one document for the payload's email, holding the payload, and keeps
      emails unique. */
  lemma UpsertSingleRecord(docs: seq<PreferenceDoc>, p: Preference, serial: nat)
    requires EmailsUnique(docs)
    ensures EmailsUnique(Upserted(docs, p, serial))
    ensures |Filter(Upserted(docs, p, serial), HasEmail(p.email))| == 1
    ensures Filter(Upserted(docs, p, serial), HasEmail(p.email))[0].pref == p
  {
    UpsertKeepsEmailsUnique(docs, p, serial);
    match FirstIndex(docs, HasEmail(p.email))
    case Some(i) => UpdateLeavesOneRecord(docs, p, serial, i);
    case None => InsertLeavesOneRecord(docs, p, serial);
  }

  /** Two upserts for the same email leave one document, reflecting the second call. */
  lemma UpsertTwice(docs: seq<PreferenceDoc>, first: Preference, second: Preference, s1: nat, s2: nat)
    requires EmailsUnique(docs)
    requires first.email == second.email
    ensures var r := Upserted(Upserted(docs, first, s1), second, s2);
      |Filter(r, HasEmail(second.email))| == 1 && Filter(r, HasEmail(second.email))[0].pref == second
  {
    UpsertSingleRecord(docs, first, s1);
    UpsertSingleRecord(Upserted(docs, first, s1), second, s2);
  }

  // ----- The store -----

  class DocumentStore {
    var meals: seq<MealDoc>
    var preferences: seq<PreferenceDoc>
    /** The serial of the next identity the store hands out. */
    var nextSerial: nat

    /** Every stored document has a `_id` handed out earlier, meal identities
        are distinct, stored meals carry no `id` field, and no two
        preferences share an email. */
    ghost predicate Valid()
      reads this
    {
      && (forall i :: 0 <= i < |meals| ==>
            meals[i].nativeId.Some? && meals[i].nativeId.value.serial < nextSerial && meals[i].id.None?)
      && DistinctIds(meals)
      && (forall i :: 0 <= i < |preferences| ==> preferences[i].nativeId.serial < nextSerial)
      && EmailsUnique(preferences)
    }

    constructor ()
      ensures Valid()
      ensures meals == [] && preferences == [] && nextSerial == 0
    {
      meals, preferences, nextSerial := [], [], 0;
    }

    /** `count_documents({})` on "meal". */
    method CountMeals() returns (n: nat)
      ensures n == |meals|
    {
      n := |meals|;
    }

    /** `create_document("meal", m)`: inserts the dumped meal under a fresh identity. */
    method CreateMeal(m: Meal) returns (oid: ObjectId)
      requires Valid()
      modifies this
      ensures Valid()
      ensures oid == ObjectId(old(nextSerial)) && nextSerial == old(nextSerial) + 1
      ensures meals == old(meals) + [MealDoc(Some(oid), None, Dump(m))]
      ensures preferences == old(preferences)
    {
      oid := ObjectId(nextSerial);
      meals := meals + [MealDoc(Some(oid), None, Dump(m))];
      nextSerial := nextSerial + 1;
    }

    /** `get_documents("meal", f)`: the matching documents in store order. */
    method FindMeals(f: MealFilter) returns (docs: seq<MealDoc>)
      ensures docs == Selected(meals, f)
    {
      docs := Selected(meals, f);
    }

    /** `find_one({"_id": oid})` on "meal". */
    method FindMeal(oid: ObjectId) returns (d: Option<MealDoc>)
      ensures d == FindOne(meals, oid)
    {
      d := FindOne(meals, oid);
    }

    /** The keyed upsert on "preference". */
    method UpsertPreference(p: Preference)
      requires Valid()
      modifies this
      ensures Valid()
      ensures preferences == Upserted(old(preferences), p, old(nextSerial))
      ensures nextSerial ==
        if FirstIndex(old(preferences), HasEmail(p.email)).None? then old(nextSerial) + 1 else old(nextSerial)
      ensures meals == old(meals)
    {
      UpsertKeepsEmailsUnique(preferences, p, nextSerial);
      var inserted := FirstIndex(preferences, HasEmail(p.email)).None?;
      preferences := Upserted(preferences, p, nextSerial);
      if inserted {
        nextSerial := nextSerial + 1;
      }
    }
  }
}
