# Protein Meals API — a Dafny model

This project models the core of a small meal-delivery backend (a FastAPI service over MongoDB):

- **The record schemas** (`schemas.py`): macros, meals, subscription items, subscriptions and preferences. Each gets its closed enumerations (category, diet tag, frequency), its numeric ranges, its non-empty item list and its defaults.
- **Four request handlers** (`main.py`), run against an in-memory document store:
  - seeding the built-in six-meal catalogue;
  - listing meals with category, diet-tag and minimum-protein filters, exposing each `_id` as a string `id`;
  - scaling a meal's macros to a portion;
  - upserting a diner's preferences by email.

Modules, one per file:

- `Wrappers` (`wrappers.dfy`): `Option` and `Result`.
- `Sequences` (`sequences.dfy`): an order-preserving `Filter` and a first-match `FirstIndex`, with their lemmas. The protein post-filter, the store's filtered `find`, `find_one` and the upsert's match are all built from these two.
- `Identity` (`identity.dfy`): store identities (`ObjectId`) and their text form. The store hands out identities from a counter. The text form of an identity is the decimal numeral of its serial. `ParseObjectId` reads back what `IdString` writes and rejects text that is not a numeral, the way `ObjectId(text)` raises `InvalidId`. Like `ObjectId(text)`, which reads 24 hex digits in either letter case while `str()` writes only lower case, the parser also accepts spellings the service never writes (here, numerals with leading zeros). Such a spelling names the same identity (`ZeroPaddedSpelling`), so only the canonical spelling is unique to an identity.
- `Schemas` (`schemas.dfy`): the schemas. Each record has a `Valid()` predicate. Every record except `SubscriptionItem` also has a `Violations()` function; an item's failures are reported by `Subscription.Violations` under `items.i.servings`. `Violations()` gives the set of offending field locations and is empty exactly when the record is valid; this is the field-level 422 rejection. Each enumeration has a `Parse…` function that accepts exactly its names.
- `Store` (`store.dfy`): the collections "meal" and "preference" as a class `DocumentStore`. It has the store calls the handlers make (count, insert, filtered find, find by `_id`, keyed upsert) and an invariant: meal identities are distinct, every identity (of a meal or a preference) was handed out earlier, and there is at most one preference per email. A stored meal is a `MealDoc`: its `_id`, its `id`, and the meal as `model_dump` writes it (names for enumerations, a dictionary for macros).
- `Api` (`api.dfy`): `INITIAL_MEALS` and the four handlers. Each handler is a method proved against a specification function (`SeedOutcome`, `Listed`/`ExposeId`, `Portion`, `Upserted`). Lemmas state the promised properties of those functions.

How a missing meal is reported: `get_portion_macros` raises `HTTPException(404)` inside its `try` block (main.py:110-111). The block's broad `except Exception` (main.py:116-117) catches it and raises a 500 instead. The model does what the code does: `Portion` returns `ServerError(MealNotFound)`, whose `StatusCode` is 500, not 404 (`PortionOfMissingMeal`). The error also carries no default or zero record.

Other behaviours of the code that the model keeps as written:
- A missing meal in a portion request gets a 500, not a 404 (above).
- A listing keeps the store's order. The model proves this (`ListedKeepsOrder`) rather than treating the result as unordered.
- The preference upsert is a `$set` of every preference field. So the stored record carries exactly the payload (no merge with earlier filters) and keeps its `_id`.
- The servings clamp is one-sided: below 0.25 the factor is 0.25, and above that it is the servings however large (`Factor`).

## Model

| member | source | states |
|---|---|---|
| `Schemas.ParseDietTag` | schemas.py:18 | a diet tag is accepted iff it is one of the six names, and it reads back as the tag with that name |
| `Schemas.ParseCategory` | schemas.py:19 | a category is accepted iff it is "Breakfasts", "Main Meals" or "Smoothies & Shakes", and it reads back as that category |
| `Schemas.ParseFrequency` | schemas.py:46 | a frequency is accepted iff it is weekly, biweekly or monthly |
| `Schemas.Macros.Violations` | schemas.py:12-16 | each of protein, carbs, fats and calories is reported iff it is negative; nothing else is reported, so no report means all four are ≥ 0 |
| `Schemas.Meal.Violations` | schemas.py:21-31 | no field is reported iff the meal is valid; price is reported iff it is negative; `macros.x` is reported iff the macros report `x`; nothing else is reported |
| `Schemas.NewMeal` | schemas.py:21-31 | a meal given only its required fields has no description, image or diet tags, is not customizable and has no add-ons; it is valid iff its price and macros are non-negative |
| `Schemas.NewSubscriptionItem` | schemas.py:40-42 | the default servings are 1.0, which lies in [0.5, 5] |
| `Schemas.Subscription.Violations` | schemas.py:44-49 | no field is reported iff the subscription is valid; the protein target is reported iff it is outside [20, 400]; items is reported iff the list is empty; item i's servings are reported iff they are outside [0.5, 5]; nothing else is reported |
| `Schemas.Preference.Violations` | schemas.py:51-54 | no field is reported iff the protein target lies in [20, 400] |
| `Schemas.NewPreference` | schemas.py:51-54 | the default preference has a 120 g target, which is valid, and no diet filters |
| `Identity.ParseObjectId` | main.py:108-109 | identity text is accepted iff it is well formed (a non-empty string of digits) |
| `Identity.IdStringRoundTrip` | main.py:94-109 | the text exposed for an identity parses back to that identity, and it is the only canonical spelling that does |
| `Identity.ZeroPaddedSpelling` | main.py:108 | the parser also accepts a spelling the service never writes, and reads it as the same identity, so parsing is not injective |
| `Store.Dump` | main.py:71 | a stored meal's category and tag names read back as the meal's own enumerations, its macros are keyed by the four field names, title, description, price, image, customizable flag and add-ons are copied, and a valid meal stores non-negative price and macros |
| `Store.DumpKeepsTags` | main.py:71 | a stored meal carries a tag's name iff the meal has that tag |
| `Store.Matches` | main.py:84-89 | a store filter is equality on the category and `$in` membership of the tag; the empty filter matches every document |
| `Store.MatchesDumpedMeal` | main.py:84-89 | on a stored meal, a filter on a category name, a tag name or both matches iff the meal has that category, that tag, or both |
| `Store.FindOne` | main.py:109 | a lookup by identity returns a stored document with that identity, and returns nothing iff no document has it |
| `Store.FindOneLocates` | main.py:109 | when identities are distinct, looking up a stored document's identity finds that document |
| `Store.Upserted` | main.py:131 | if a document with the email exists, the upsert keeps the number of documents and every `_id`; otherwise it appends one document holding the payload under a fresh identity |
| `Store.UpsertStoresPayload` | main.py:131 | after an upsert, the stored preference for the email is exactly the payload |
| `Store.UpsertLeavesOthers` | main.py:131 | documents for every other email are unchanged and stay in the same order |
| `Store.UpsertSingleRecord` | main.py:131 | when each email has at most one document, an upsert leaves exactly one document for the payload's email, holding the payload, and emails stay unique |
| `Store.UpsertTwice` | main.py:131 | two upserts for one email leave one document, which holds the second call's fields |
| `Store.DocumentStore.CountMeals` | main.py:68 | the count is the number of stored meals |
| `Store.DocumentStore.CreateMeal` | main.py:71 | appends the dumped meal under the next identity; the store's invariant is kept |
| `Store.DocumentStore.FindMeals` | main.py:89 | returns the documents matching the filter, in store order |
| `Store.DocumentStore.FindMeal` | main.py:109 | returns the first document with the identity, if any |
| `Store.DocumentStore.UpsertPreference` | main.py:131 | the preference collection becomes the upsert of the payload; an identity is used only when a document is inserted; the invariant (unique emails) is kept |
| `Api.StatusCode` | main.py:116-117 | every error is answered with 422 or 500, and with 500 exactly when it was caught by the handler's broad `except` |
| `Api.InitialMealsValid` | main.py:56-63 | the catalogue has six meals and every one is valid |
| `Api.InitialMealsSpanCategories` | main.py:56-63 | the catalogue covers exactly the three categories |
| `Api.InitialMealsOneCustomizable` | main.py:62 | exactly one meal is customizable, the smoothie, and it lists five add-ons |
| `Api.Seed` | main.py:65-75 | state and reply after seeding are those of `SeedOutcome`; preferences are untouched and the store's invariant is kept |
| `Api.SeedOnEmpty` | main.py:69-72 | on an empty collection, seeding writes the six catalogue meals in order under fresh, distinct identities and replies (true, 6) |
| `Api.SeedOnNonEmpty` | main.py:73 | on a non-empty collection, seeding writes nothing and replies (false, existing count) |
| `Api.SeedIdempotent` | main.py:68-73 | a second seed changes nothing and replies seeded = false with the current count |
| `Api.QueryFilter` | main.py:84-88 | a category or diet condition is sent to the store iff that query parameter is a non-empty string, and it carries that string |
| `Api.ProteinOf` | main.py:92 | the protein read is the stored value when the key is present and 0 when it is missing |
| `Api.ProteinOfDumped` | main.py:92 | on a stored meal, the protein read is the meal's own protein per serving |
| `Api.ExposeId` | main.py:94-96 | a listed item never carries `_id`; an item that had one carries as `id` the canonical text `IdString` writes for it (`str(_id)`), which parses back to it; all other fields are unchanged |
| `Api.ListMeals` | main.py:77-99 | a negative minimum protein is rejected with 422; otherwise the reply is the listed documents, in order, each with its identity exposed |
| `Api.ListedExactly` | main.py:84-92 | a meal is listed iff it is stored and passes every filter that applies: exact category, tag membership, protein (missing counts as 0) at least the minimum |
| `Api.ListedKeepsOrder` | main.py:89-92 | listing distributes over concatenation of the collection, so relative order is kept |
| `Api.ListedUnfiltered` | main.py:84-89 | with no query parameters every stored meal is listed, in store order |
| `Api.VeganQuery` | main.py:87-88 | the `diet=vegan` query selects exactly the meals tagged vegan |
| `Api.SeededVeganMeals` | main.py:56-63 | on the seeded catalogue, `diet=vegan` lists the tofu bowl and the smoothie |
| `Api.ListSeededVeganHighProtein` | main.py:87-92 | on the seeded catalogue, `diet=vegan` with `min_protein=30` lists only the tofu bowl |
| `Api.NewPortionRequest` | main.py:101-103 | a portion request defaults to one serving |
| `Api.Factor` | main.py:113 | the factor is at least 0.25; it equals the servings whenever they are at least 0.25; there is no upper clamp |
| `Api.Scale` | main.py:114 | every macro key is kept and its value is multiplied by the factor |
| `Api.GetPortionMacros` | main.py:105-117 | the reply is `Portion` of the stored meals: malformed identity or missing meal gives a 500, otherwise the factor and the scaled macros |
| `Api.PortionOfMissingMeal` | main.py:110-117 | a well-formed identity that no meal has is answered with 500 (the caught 404), never with a default record |
| `Api.PortionOfMalformedId` | main.py:108-117 | identity text that does not parse is answered with a server error |
| `Api.ListedIdLocatesMeal` | main.py:94-114 | an `id` returned by a listing, sent to the portion endpoint, scales exactly that meal's macros |
| `Api.PortionOfOneServing` | main.py:103-114 | the default single serving reports the stored macros unchanged, before rounding |
| `Api.PortionBounds` | main.py:113-114 | non-negative macros stay non-negative and, before rounding, never fall below a quarter of their stored value |
| `Api.PortionOfTwoServings` | main.py:113-114 | two servings of {protein 10, carbs 20, fats 5, calories 100} give {20, 40, 10, 200} |
| `Api.UpsertPreferences` | main.py:127-134 | an invalid preference is rejected with 422 and its offending fields under `body`, and the store is unchanged; a valid one is upserted by email and acknowledged "ok", and an identity is used only when a record is inserted |

## Left out

- `read_root` and `test_database` (main.py:20-53): static text and a diagnosis of environment variables and store connectivity. Both are I/O and string formatting.
- `create_subscription` (main.py:119-125): it is outside the modelled core. Only its schema, `Subscription`, is modelled.
- The CORS middleware, routing and decorators (main.py:10-18): framework plumbing.
- The `database` module is not part of this model. The store stands in for it and follows MongoDB's semantics for the calls made. Any bookkeeping fields `create_document` may add (timestamps) are not modelled.
- Store and connection failures, and the `db is None` branch of `seed` (main.py:68): the model's store calls always succeed, so the 500 for a store error is not modelled.
- The check-then-insert race in `seed` when two first calls run concurrently, and the same race in the preference upsert (main.py:131): with no unique index on `email`, two concurrent first upserts for one address can both insert. The model is sequential, so the store invariant's one-preference-per-email and `Store.UpsertSingleRecord` hold only for calls that do not overlap.
- `Identity.IdString`: models the 24-hex-digit text of a MongoDB ObjectId as the decimal numeral of a store serial. The round trip and the existence of a second spelling (upper-case hex in the source, leading zeros in the model) are kept; the length and alphabet are not.
- `Api.Scale`: does not round each scaled value to one decimal place (`round(v * factor, 1)`, main.py:114). Numbers are exact reals, not binary floating point, so NaN, infinities and float rounding are out of scope.
- `Api.PortionOfOneServing`: holds only for the unrounded `Scale`. With the rounding of main.py:114, a stored protein of 12.34 at the default single serving is reported as 12.3, not unchanged.
- `Api.PortionBounds`: the quarter bound holds only for the unrounded `Scale`. With the rounding of main.py:114, 5 g of fats at servings 0 (factor 0.25) is reported as `round(1.25, 1)`, which is 1.2 under Python's half-to-even rounding and so below a quarter of 5. Non-negativity does survive rounding.
- `Schemas.Preference.Violations`: does not check the email format (`EmailStr`, schemas.py:45 and 52), a library check. The same holds for `Schemas.Subscription.Violations`.
- `Schemas.Preference`: `EmailStr` also normalises the address (it lower-cases the domain and drops a display name), and the upsert (main.py:131) matches on that normalised text. The model's `email` field stands for the normalised output; the normalisation itself is not modelled.
- Request bodies are modelled after parsing. Enumeration fields are typed values, and the `Parse…` functions state which names are accepted. Rejecting a non-numeric value for a numeric field is the framework's job and is not modelled.
- The unused models `SmoothiePreset`, `User` and `Product` (schemas.py:33-38, 56-69): no endpoint uses them.
