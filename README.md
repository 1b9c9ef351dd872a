# Nova card catalog and collection store, in Dafny

This project models the two utilities that hold the logic of the Nova card companion app, a children's AR card-collecting app:

- **Card catalog and QR recognizer** (`card_recognition.dfy`, module `CardRecognition`). The six Nova cards are a constant `seq<NovaCard>`. `FindCardByQRCode` is the `find` over the catalog, an exact match on the optional `qrCode`. `RecognizeQRCode` builds the tagged success/failure result with method `"qr"` and, on failure, the fixed Indonesian error message. `RarityColor` and `ElementColor` are the two palette `switch`es. They take a plain string, as the source does, so the default branch is part of the model. Rarity and element are datatypes that stand for the TypeScript union types, and `Name()` gives the text the app uses for each.
- **Collection store** (`collection_manager.dfy`, module `Collection`). It is a class `CollectionManager`. Its field `stored: Option<Blob>` stands for the `AsyncStorage` value under the key `nova_card_collection`:
  - `None` means nothing is stored.
  - `Some(Records(list))` is a list that parses.
  - `Some(Unparseable)` is stored text that makes the read throw, which the read turns into `[]`.

  `GetCollection`, `SaveCollection`, `AddCard`, `HasCard`, `GetStats`, `RemoveCard` and `ClearCollection` each read, modify and write the whole list, as the source does. The loops of the source appear as loops: `find` in `AddCard`, `some` in `HasCard`, `reduce` and `forEach` in `GetStats`, and `filter` in `RemoveCard`. Each is proved against a specification function (`Upsert`, `HasId`, `SumScans`, `CountRarity`, `CountElement`, `Without`).
  - The class invariant `Valid()` says that a stored list has pairwise distinct ids and that every `scanCount` is at least 1. Every operation preserves it.
  - The contract of `Upsert` and the lemmas about `Upsert` and `Without` state the upsert and removal behaviour record by record.

The clock is a parameter: `AddCard(card, now)` stamps a new record with the caller's `now` instead of calling `new Date()`. Serialisation is the identity on records, so saving a list and reading it back gives the same list.

Two facts about the source shape the model:
- A corrupt stored collection is swallowed into `[]` (`utils/CollectionManager.ts:25-28`), and `GetCollection` does the same.
- `utils/CardRecognition.ts` has no lookup of a card by id, so the model has none.

## Model

| member | source | states |
|---|---|---|
| CardRecognition.CatalogIsSound | utils/CardRecognition.ts:15-88 | the catalog has six cards; ids are pairwise distinct; QR payloads are pairwise distinct; every card has non-negative attack, defense and health and carries a QR payload (rarity and element lie in their enumerations by type) |
| CardRecognition.CatalogIdsDistinct | utils/CardRecognition.ts:17-77 | no two catalog cards share an id |
| CardRecognition.CatalogPayloadsDistinct | utils/CardRecognition.ts:26-86 | no QR payload is printed on two catalog cards |
| CardRecognition.CatalogLengths | utils/CardRecognition.ts:15-88 | every id has 8 characters and every QR payload at least 18, so no id equals a payload |
| CardRecognition.FirstQRMatch | utils/CardRecognition.ts:135-137 | the search finds nothing exactly when no card's payload equals the input; otherwise it returns an index whose payload equals the input, and no earlier card matches (the first match) |
| CardRecognition.FindCardByQRCode | utils/CardRecognition.ts:135-137 | a returned card is a catalog card whose payload equals the input exactly; null exactly when no catalog card carries that payload |
| CardRecognition.RecognizeQRCode | utils/CardRecognition.ts:94-115 | success exactly when a card is present; the card is the one the catalog lookup gives; the method is "qr" in both branches; no error on success; a non-empty error on failure |
| CardRecognition.RecognizeSucceedsIffCatalogPayload | utils/CardRecognition.ts:100-114 | a scan succeeds if and only if some catalog card carries exactly that payload |
| CardRecognition.RecognizeCatalogCard | utils/CardRecognition.ts:135-137 | scanning the payload of catalog card i succeeds and returns exactly card i |
| CardRecognition.RecognizeAquaHealer | utils/CardRecognition.ts:40-51 | "NOVA_AQUA_003_RARE" is recognized as NOVA_003 "Nova Aqua Healer" |
| CardRecognition.RecognizeGarbageFails | utils/CardRecognition.ts:109-114 | "GARBAGE" is not recognized, and the result carries the fixed error message |
| CardRecognition.IdIsNotAPayload | utils/CardRecognition.ts:15-88 | scanning a card's id, rather than its payload, fails: there is no partial or fuzzy match |
| CardRecognition.RarityColor | utils/CardRecognition.ts:204-212 | the neutral grey is returned exactly for "Common" and for every string that names no rarity |
| CardRecognition.ElementColor | utils/CardRecognition.ts:215-225 | the neutral grey is returned exactly for "Dark" and for every string that names no element |
| CardRecognition.RarityPalette | utils/CardRecognition.ts:206-209 | the four rarities map to #8e8e93, #007aff, #af52de and #ff9500 |
| CardRecognition.ElementPalette | utils/CardRecognition.ts:217-222 | the six elements map to #ff3b30, #007aff, #34c759, #5ac8fa, #ffcc02 and #8e8e93 |
| CardRecognition.RarityColorsTellRaritiesApart | utils/CardRecognition.ts:204-212 | distinct rarities get distinct colours; an unknown name gets the colour of Common |
| CardRecognition.ElementColorsTellElementsApart | utils/CardRecognition.ts:215-225 | distinct elements get distinct colours; an unknown name gets the colour of Dark |
| Collection.Decode | utils/CollectionManager.ts:15-28 | nothing stored and text that makes the read throw both read as []; a stored list reads back as exactly that list; a non-empty read always comes from a stored list |
| Collection.IndexOfId | utils/CollectionManager.ts:35 | the lookup finds nothing exactly when no record has the id; otherwise it returns the first record with that id |
| Collection.Without | utils/CollectionManager.ts:122 | the filtered list is no longer than the input and holds no record with the id |
| Collection.WithoutMembers | utils/CollectionManager.ts:122 | a record is in the filtered list exactly when it is in the input and has another id |
| Collection.Upsert | utils/CollectionManager.ts:34-51 | a scan keeps the length when the id is collected and adds one record otherwise; afterwards the id is present; every earlier record keeps its card and collectedAt; records with other ids are unchanged; a new record is {card, now, 1} at the end |
| Collection.UpsertAddsOneScan | utils/CollectionManager.ts:34-51 | every scan adds exactly one to the sum of scanCount, whether it bumps a record or appends one |
| Collection.UpsertPresent | utils/CollectionManager.ts:35-41 | scanning a collected card keeps the length; that record's scanCount rises by exactly 1; its card fields and collectedAt are kept; every other record is unchanged |
| Collection.UpsertAbsent | utils/CollectionManager.ts:42-51 | scanning an uncollected card keeps the earlier records and appends one record holding the card, the supplied timestamp and scanCount 1 |
| Collection.UpsertKeepsWellFormed | utils/CollectionManager.ts:32-57 | a scan keeps ids pairwise distinct and every scanCount at least 1, and the scanned id is then present |
| Collection.UpsertTwice | utils/CollectionManager.ts:32-57 | two scans of an uncollected card leave exactly one record with that id, with scanCount 2 and the first scan's timestamp, after the untouched earlier records |
| Collection.WithoutKeepsWellFormed | utils/CollectionManager.ts:119-123 | removal keeps ids pairwise distinct and every scanCount at least 1 |
| Collection.WithoutAbsent | utils/CollectionManager.ts:122 | removing an id that no record holds leaves the list unchanged |
| Collection.WithoutConcat | utils/CollectionManager.ts:122 | filtering distributes over concatenation, so the kept records keep their relative order |
| Collection.WithoutPresent | utils/CollectionManager.ts:122 | with distinct ids, removing the id of record i gives the list with exactly record i cut out |
| Collection.DistinctIdCount | utils/CollectionManager.ts:92 | with distinct ids, the number of records equals the number of distinct ids present |
| Collection.ScansCoverCards | utils/CollectionManager.ts:93 | when every scanCount is at least 1, the total scans are at least the number of records |
| Collection.RarityCountsCoverCards | utils/CollectionManager.ts:98-104 | the per-rarity counts add up to the number of records |
| Collection.ElementCountsCoverCards | utils/CollectionManager.ts:98-104 | the per-element counts add up to the number of records |
| Collection.CollectionManager.constructor | utils/CollectionManager.ts:10 | the store starts over whatever the device already holds under its key, and that content satisfies the invariant |
| Collection.CollectionManager.GetCollection | utils/CollectionManager.ts:13-29 | returns the stored list; returns [] when nothing is stored and when the stored text does not parse; the result has distinct ids and positive counts |
| Collection.CollectionManager.SaveCollection | utils/CollectionManager.ts:60-68 | the slot afterwards holds exactly the given list, so the next read returns it (the save/load round trip) |
| Collection.CollectionManager.AddCard | utils/CollectionManager.ts:32-57 | the slot holds the upserted list, and the invariant is kept. For a new id, the returned record is {card, now, 1}, appended at the end. For a collected id, the returned record is the old record with scanCount + 1, in its place, and every other record is kept |
| Collection.CollectionManager.HasCard | utils/CollectionManager.ts:71-79 | true exactly when some stored record has the id; storage is not changed |
| Collection.CollectionManager.GetStats | utils/CollectionManager.ts:82-116 | totalCards is the number of records and of distinct ids; totalScans is the sum of scanCount and at least totalCards; each rarity and element count is the number of records with it; only present keys appear; each dictionary's counts sum to totalCards |
| Collection.CollectionManager.RemoveCard | utils/CollectionManager.ts:119-128 | the slot holds the list filtered to other ids, in order. No record with the id remains. An absent id leaves the collection unchanged; a present one shortens it by one |
| Collection.CollectionManager.ClearCollection | utils/CollectionManager.ts:131-138 | the slot is emptied, so the next read returns [] |
| Collection.TwoCardsThreeScans | utils/CollectionManager.ts:32-57 | two scans of one card and one scan of a card with another id, from an empty list, leave two records and three scans |
| Collection.ScanScenario | utils/CollectionManager.ts:32-116 | from an empty store: Aqua Healer scanned twice, then the Starbot once, gives 2 cards and 3 scans |

## Left out

- `detectQRCode`, `recognizeCardImage` and `recognizeCard` (utils/CardRecognition.ts:118-201) are not modelled. They are mock detectors driven by `Math.random` and `setTimeout`.
- `AsyncStorage`, `JSON.stringify`/`JSON.parse` and `new Date` are foreign calls:
  - Storage is an in-memory field that never fails. The paths that rethrow a storage error (`addCard`, `saveCollection`, `removeCard`, `clearCollection`) are therefore not modelled.
  - The catch blocks of `hasCard` and `getStats` are not modelled either. In the model they cannot be reached, because `getCollection` swallows its own errors.
- Serialisation is the identity on records. `collectedAt` is an integer timestamp.
- `Unparseable` covers exactly the stored text whose read ends in the catch block (`utils/CollectionManager.ts:25-28`) and so in `[]`. That is text that is not JSON, JSON that is not an array (`null`, an object, a number), and an array holding `null`. A stored empty string reads as `[]` without reaching the catch (`utils/CollectionManager.ts:16-24`), so the model writes it as `None`, like nothing stored.
- A JSON array of malformed records (`[{}]`, `[1]`, `[{"id":"NOVA_001"}]`) parses and maps without throwing. The source returns it as it is, with Invalid Dates, so `hasCard("NOVA_001")` can be true for it. The model cannot represent such a list. It cannot arise while only this store writes the key. The same goes for rarity or element strings outside the enumerations.
- `scanCount`, `attack`, `defense` and `health` are JavaScript numbers. `scanCount += 1` (`utils/CollectionManager.ts:39`) stops changing past 2^53, while the model's integers are unbounded.
- The invariant assumes that only this store writes the key. The constructor requires that a list already on the device has distinct ids and positive counts.
- `getStats` returns dictionaries keyed by the rarity and element strings; the model keys them by the `Rarity` and `Element` datatypes, and a missing key reads as zero (`CountOf`).
- Concurrency is not modelled. Overlapping `addCard` calls can lose an update, because each one loads, modifies and saves the whole list. The model runs the operations one after another.
- The `console.error` logging is not modelled.
- The static class with a module-level key becomes one object whose field is the storage slot.
