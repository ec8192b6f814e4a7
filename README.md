# Allergen checker: consumer registry and allergen matcher

This project models the core of the Holloway allergen checker. Consumers are
people with a name and a set of allergies. A JSON manager keeps the registry
of consumers, saves each consumer to a file and loads the saved files back.
Given a product from the Open Food Facts catalogue, it reports which of the
registered consumers' allergens occur in the product's ingredient text.

Modules, one per source file or concern:

- `Wrappers` (`wrappers.dfy`): `Option`, which stands for a Java reference that may be `null`, and `Result`, which stands for a call that may throw.
- `Text` (`text.dfy`): `String.toLowerCase` as ASCII case folding (`Lower`) and `String.contains` (`Contains`). `Contains` is proved equal to the substring predicate `IsSubstring`.
- `FoodProducts` (`food_product.dfy`): the immutable product (name, UPC, ingredients) as a datatype.
- `Consumers` (`consumer.dfy`): the mutable `Consumer` class. Its `name` and `allergies` may be `null`, so both are `Option`s.
- `ConsumerRecords` (`consumer_records.dfy`): a saved consumer file, seen as the sequence of `"key": value` fields the JSON reader delivers. `LoadFields` is the field switch folded over that sequence.
- `AllergenMatching` (`allergen_matching.dfy`): the per-allergen test `Found` and the specification `Matches` of the matcher's result.
- `AllergenChecker` (`json_manager.dfy`): the `JsonManager` class. It holds the registry `consumers: set<Consumer>`, with membership by object identity, and has the save, create, update, load and check operations.
- `Scenarios` (`scenarios.dfy`): the source's registry unit tests, replayed against the model.

Dependencies outside the core become parameters:
- The product lookup is an `Option<FoodProduct>` argument.
- The plural form from the English inflection library is a function argument `plural: string -> string`.
- The outcome of each file write is a `bool` argument.
- The directory listing is a sequence of `ConsumerFile`s.

Two behaviours of the code a reader might not expect:

- **Loading a saved file can register a consumer, or stop the whole load.** The loader distinguishes three kinds of file (`ConsumerFile`):
  - `ObjectRecord`: an object. Its fields are applied in order until the closing brace. An I/O or parse error part-way is caught, and the consumer keeps the fields read so far.
  - `Unreadable`: a file that fails before its first field, because it cannot be opened (a sub-directory) or a token before the first field does not parse (`hello`, `5 x`). The error is caught and the default consumer (a null name and an empty allergy set) is registered.
  - `NotAnObject`: a file on which the field loop reaches the key `switch` with no current field name. Examples are an empty file, `5` and `[1, 2]`. The `switch` on the null name throws a `NullPointerException`, which is not caught, so `setUpConsumers` stops. Consumers from earlier files stay registered, and the remaining files are not read. `JsonManager.SetUpConsumers` returns `Failure(NullFieldName(i))` in this case.
- **A `null` allergy set.** A `null` set can come from the two-argument constructor, from `setAllergies`, from the unit test, or from loading a file whose `allergies` value is JSON `null`, which `readValueAs` maps to `null` (`LoadNullAllergies`). Saving a consumer whose set is null writes such a file, so the null set comes back on every later load. When any registered consumer has a null set, `checkForAllergens` throws at `addAll`. This happens before it ever dereferences the looked-up product. The model returns `Failure(NullAllergies)` in this case, ahead of `Failure(ProductNotFound)`.

## Model

| member | source | states |
|---|---|---|
| Text.LowerChar | hollowayallergenchecker/src/main/java/com/holloway/allergenchecker/JSONManager.java:243-245 | upper-case ASCII letters map to lower case; every other character is unchanged; the result is never an upper-case letter |
| Text.Lower | hollowayallergenchecker/src/main/java/com/holloway/allergenchecker/JSONManager.java:243-245 | lower-casing keeps the length, and each character of the result is the folded character at the same position |
| Text.LowerIdempotent | hollowayallergenchecker/src/main/java/com/holloway/allergenchecker/JSONManager.java:243-245 | lower-casing an already lower-cased string changes nothing |
| Text.Contains | hollowayallergenchecker/src/main/java/com/holloway/allergenchecker/JSONManager.java:243-245 | `contains` is true exactly when the pattern occurs at some position of the text |
| Text.LowerKeepsOccurrence | hollowayallergenchecker/src/main/java/com/holloway/allergenchecker/JSONManager.java:243-245 | an occurrence of a pattern survives lower-casing both strings |
| Text.MissingCharNotSubstring | hollowayallergenchecker/src/main/java/com/holloway/allergenchecker/JSONManager.java:243-245 | a pattern that holds a character the text lacks does not occur in it |
| AllergenMatching.Found | hollowayallergenchecker/src/main/java/com/holloway/allergenchecker/JSONManager.java:243-246 | an allergen is found exactly when its lower-cased singular or its lower-cased plural is a substring of the lower-cased ingredients |
| AllergenMatching.Matches | hollowayallergenchecker/src/main/java/com/holloway/allergenchecker/JSONManager.java:240-249 | the result is a subset of the tracked allergens, and holds exactly the tracked allergens that are found |
| AllergenMatching.MatchesMonotone | hollowayallergenchecker/src/main/java/com/holloway/allergenchecker/JSONManager.java:242-249 | more tracked allergens give a superset of matches for the same text |
| AllergenMatching.MatchesUnion | hollowayallergenchecker/src/main/java/com/holloway/allergenchecker/JSONManager.java:235-249 | matching a union is the union of the matches, so the scan order does not matter |
| AllergenMatching.MatchesIgnoreTextCase | hollowayallergenchecker/src/main/java/com/holloway/allergenchecker/JSONManager.java:243-245 | lower-casing the ingredient text first does not change the result |
| AllergenMatching.VerbatimAllergenFound | hollowayallergenchecker/src/main/java/com/holloway/allergenchecker/JSONManager.java:243-248 | a tracked allergen that occurs verbatim in the text is found, even inside a longer word |
| AllergenMatching.VerbatimPluralFound | hollowayallergenchecker/src/main/java/com/holloway/allergenchecker/JSONManager.java:244-248 | a tracked allergen whose plural occurs verbatim in the text is found |
| AllergenMatching.NotFoundWhenCharMissing | hollowayallergenchecker/src/main/java/com/holloway/allergenchecker/JSONManager.java:243-248 | an allergen is not found when its singular and plural share a character that is not an upper-case letter and that the lower-cased text lacks |
| AllergenMatching.EggExample | hollowayallergenchecker/src/test/java/com/holloway/allergenchecker/JSONManagerTest.java:76-79 | with the test's allergens peanut, hazelnut and egg, and an ingredient text of the model's own ("contains eggs and wheat flour"), the matches are exactly {egg}, the detection the test asserts at line 84 |
| AllergenChecker.AllergiesPresent | hollowayallergenchecker/src/main/java/com/holloway/allergenchecker/JSONManager.java:237 | when no registered allergy set is null, every consumer's set is contained in the union, so `addAll` completes for each |
| AllergenChecker.TrackedAllergens | hollowayallergenchecker/src/main/java/com/holloway/allergenchecker/JSONManager.java:235-238 | the union holds every non-null allergy set of a registered consumer, and nothing that is not in one of them |
| AllergenChecker.TrackedAddOne | hollowayallergenchecker/src/main/java/com/holloway/allergenchecker/JSONManager.java:236-238 | adding one consumer's set to the union adds exactly that set |
| AllergenChecker.TrackedUnion | hollowayallergenchecker/src/main/java/com/holloway/allergenchecker/JSONManager.java:235-238 | the union over two groups of consumers is the union of their unions, whatever the order |
| AllergenChecker.TrackedMonotone | hollowayallergenchecker/src/main/java/com/holloway/allergenchecker/JSONManager.java:235-238 | a larger registry has a larger union of allergies |
| AllergenChecker.MatchesGrowWithRegistry | hollowayallergenchecker/src/main/java/com/holloway/allergenchecker/JSONManager.java:235-249 | registering more consumers can only grow the allergens found in the same text |
| AllergenChecker.MatchesGrowWithAllergies | hollowayallergenchecker/src/main/java/com/holloway/allergenchecker/JSONManager.java:235-249 | if no consumer loses an allergen between two states, the union and the matches can only grow |
| AllergenChecker.FilesBeforeFailure | hollowayallergenchecker/src/main/java/com/holloway/allergenchecker/JSONManager.java:68-79 | counts the files before the first one on which the field switch gets a null name; every earlier file is an object or unreadable |
| AllergenChecker.ReadConsumer | hollowayallergenchecker/src/main/java/com/holloway/allergenchecker/JSONManager.java:69-90 | a fresh consumer whose fields are the default consumer's with the file's fields applied in order, up to the first read error |
| AllergenChecker.JsonManager.constructor | hollowayallergenchecker/src/main/java/com/holloway/allergenchecker/JSONManager.java:43-46 | the registry starts empty |
| AllergenChecker.JsonManager.SetUpConsumers | hollowayallergenchecker/src/main/java/com/holloway/allergenchecker/JSONManager.java:64-99 | one fresh, distinct consumer per file before the first that throws: for an object, what the field switch set before the closing brace or a read error; for an unreadable file, the default consumer; the registry only grows; the result is the registry, or a failure naming the first file that is not an object |
| AllergenChecker.JsonManager.SaveConsumer | hollowayallergenchecker/src/main/java/com/holloway/allergenchecker/JSONManager.java:107-119 | afterwards the consumer is registered, whether or not the write succeeded; adding it again changes nothing; nothing is removed |
| AllergenChecker.JsonManager.CreateNewConsumer | hollowayallergenchecker/src/main/java/com/holloway/allergenchecker/JSONManager.java:192-196 | returns a new consumer with exactly the given name and allergies, now registered |
| AllergenChecker.JsonManager.UpdateAllergies | hollowayallergenchecker/src/main/java/com/holloway/allergenchecker/JSONManager.java:205-209 | returns the same object with its allergies replaced and its name unchanged, registered even if the write failed |
| AllergenChecker.JsonManager.UpdateName | hollowayallergenchecker/src/main/java/com/holloway/allergenchecker/JSONManager.java:218-222 | returns the same object with its name replaced and its allergies unchanged, registered even if the write failed |
| AllergenChecker.JsonManager.CheckForAllergens | hollowayallergenchecker/src/main/java/com/holloway/allergenchecker/JSONManager.java:231-253 | fails on a null allergy set, otherwise fails when the product is missing (never an empty answer), otherwise returns exactly the matches of the union of registered allergies; modifies nothing |
| ConsumerRecords.Dispatch | hollowayallergenchecker/src/main/java/com/holloway/allergenchecker/JSONManager.java:79-89 | one pass of the switch: it stops exactly on a value of the wrong shape (a list for `name`, a scalar for `allergies`); `name` sets only the name, to the token's text or `"null"`; `allergies` replaces only the allergy set, with the list or with null for a JSON `null`; any other key changes nothing |
| ConsumerRecords.LoadFields | hollowayallergenchecker/src/main/java/com/holloway/allergenchecker/JSONManager.java:76-90 | every field the load changes comes from a matching field of the record: a name from a text or `null` token, a non-null set from a list, a null set from a JSON `null` |
| ConsumerRecords.LoadedProfile | hollowayallergenchecker/src/main/java/com/holloway/allergenchecker/JSONManager.java:69-90 | starting from `new Consumer()`, a name, or a non-empty allergy set, comes from a field of the record, and the allergy set is null only when the record has an `allergies` field whose value is `null` |
| ConsumerRecords.FileProfile | hollowayallergenchecker/src/main/java/com/holloway/allergenchecker/JSONManager.java:68-96 | a file the loader gets through registers the loaded consumer of an object; a null allergy set is registered only from an object with a `null` `allergies` value |
| ConsumerRecords.LoadIgnoresOtherKeys | hollowayallergenchecker/src/main/java/com/holloway/allergenchecker/JSONManager.java:79-89 | fields with keys other than `name` and `allergies` have no effect on the loaded consumer |
| ConsumerRecords.LoadAppend | hollowayallergenchecker/src/main/java/com/holloway/allergenchecker/JSONManager.java:76-90 | reading a prefix that decodes throughout and then the rest is the same as reading the whole record |
| ConsumerRecords.LoadKeepsAbsentFields | hollowayallergenchecker/src/main/java/com/holloway/allergenchecker/JSONManager.java:79-89 | a record without a `name` field leaves the name as it was (null for a new consumer), and likewise for `allergies` |
| ConsumerRecords.LoadLastNameWins | hollowayallergenchecker/src/main/java/com/holloway/allergenchecker/JSONManager.java:80-82 | the last `name` field that is read sets the name to its token's text, `"null"` for a JSON `null` |
| ConsumerRecords.LoadLastAllergiesWin | hollowayallergenchecker/src/main/java/com/holloway/allergenchecker/JSONManager.java:83-85 | the last `allergies` field that is read replaces the whole allergy set |
| ConsumerRecords.LoadNullAllergies | hollowayallergenchecker/src/main/java/com/holloway/allergenchecker/JSONManager.java:83-85 | when the last `allergies` field that is read is `null`, the loaded allergy set is null |
| Consumers.Consumer.Empty | hollowayallergenchecker/src/main/java/com/holloway/allergenchecker/Consumer.java:19-27 | the default constructor leaves the name null and the allergy set empty |
| Consumers.Consumer.constructor | hollowayallergenchecker/src/main/java/com/holloway/allergenchecker/Consumer.java:35-38 | stores exactly the given name and allergy set |
| Consumers.Consumer.SetName | hollowayallergenchecker/src/main/java/com/holloway/allergenchecker/Consumer.java:45-47 | the name becomes the argument; the allergies are unchanged |
| Consumers.Consumer.GetName | hollowayallergenchecker/src/main/java/com/holloway/allergenchecker/Consumer.java:55-57 | returns the current name and modifies nothing |
| Consumers.Consumer.GetAllergies | hollowayallergenchecker/src/main/java/com/holloway/allergenchecker/Consumer.java:64-66 | returns the current allergy set and modifies nothing |
| Consumers.Consumer.SetAllergies | hollowayallergenchecker/src/main/java/com/holloway/allergenchecker/Consumer.java:75-77 | the allergy set becomes the argument, replacing rather than merging; the name is unchanged |
| FoodProducts.ConstructorStoresFields | hollowayallergenchecker/src/main/java/com/holloway/allergenchecker/FoodProduct.java:24-49 | the constructor stores name, UPC and ingredients exactly as given, and the getters return them |
| FoodProducts.ProductDeterminedByGetters | hollowayallergenchecker/src/main/java/com/holloway/allergenchecker/FoodProduct.java:10-50 | a product never changes after construction, so two products are equal exactly when their getters agree |
| Scenarios.RegistryTests | hollowayallergenchecker/src/test/java/com/holloway/allergenchecker/JSONManagerTest.java:27-70 | "jane" reads back {peanut}, "ross" reads back the three allergies set on him, and "Pierre" reads back the name "Ross", whether or not the writes succeed |

## Left out

- `findProduct` and `URLBuilder`: these do network I/O against the Open Food Facts API and parse JSON with Jackson. The lookup's outcome is a parameter. That includes the doubled `.json` suffix in the URL and the status field.
- `getInstance` and the `Consumer.jsonmanager` field: the process-wide singleton. A manager here is an ordinary object made by its constructor.
- `setConsumerJSONLocation` and `getConsumerJSONLocation`: the storage directory. Building file names from it, `listFiles` (and its null result when the location is not a directory), `createNewFile` and `writeValue` are file-system work. A write is reduced to whether it succeeded. What a save writes, and reloading that file, are not modelled, so neither is a save-then-load round trip.
- Jackson's token-level reading: a file is the sequence of fields read before its closing brace or before a read error. Consequences:
  - A `name` field whose value is a list or an object ends the read in the model, keeping the fields before it. The source instead sets the name to the opening bracket's text (`"["` or `"{"`) and goes on reading token by token:
    - A list of two or more elements brings the key `switch` to an element with no field name, which throws, so such a file is a `NotAnObject` file.
    - A one-element list sets the name to `"]"` and loading continues.
    - An empty list that closes the object also throws.
    - An object value such as `{"a": 1}` ends the field loop at its own closing brace, so the outer object's later fields are never read.
  - An unknown field whose value is a nested object or array is not modelled. In the source, such a field can end the field loop early or make it throw.
- `English.plural`, from the inflection library: a function parameter.
- Java's locale-aware `toLowerCase`: ASCII folding in the model.
- The `System.err` messages are not modelled. `SaveConsumer` returns whether the write succeeded instead of logging.
- `HashSet` aliasing is not modelled:
  - The constructor and `setAllergies` keep the caller's set object, and `getAllergies` hands it out. The model stores set values, so a later change to that set object by the caller is not reflected.
  - `setUpConsumers` returns the live `HashSet`. The model returns the registry's value at that moment.
- Allergy sets holding elements that are not strings are not modelled; allergy sets here hold strings only. In the source, an element such as `null` in `"allergies": ["egg", null]`, or a number, makes `checkForAllergens` throw in its matching loop. A `null` element throws a `NullPointerException` at `toLowerCase`, and a number a `ClassCastException`, just as a null set throws at `addAll`. For such a registry the model answers where the source throws.
- `null` fields of `FoodProduct` are not modelled: the only producer builds the product from `asText()`, which does not return null.
