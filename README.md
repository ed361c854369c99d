# Nutriscan core in Dafny

Nutriscan is a mobile app. It photographs a meal, uploads the photo to an image host and asks a vision service for labels. It looks up the nutrients of the best label in a food database, and keeps a history of the analyses on the device. Its chat screen talks to a generative model and keeps the transcript in memory only. A separate chat-store module keeps chats and messages in a local SQLite database; the sidebar uses it to list recent chats and to delete a chat. This project models the logic behind that: the nutrition history store, the SQLite chat store, the food-database lookup, the photo-analysis pipeline with its label ranking, the essential-nutrient filter of the nutrients screen, and the transcript updates of the chat screen. It also proves what each of them promises.

Every outside effect is an input of the model:
- The key-value store's read and write either succeed or throw (`StorageAccess`). The clock readings (`Clock`, `insertedAt`, `upsertedAt`) are parameters.
- Each HTTP exchange is a scripted `Http.Response`: the fetch rejected, or it replied with an `ok` flag and a body that did or did not parse as JSON. The food-detail exchange is a function of the food id asked for.
- The image upload is an `UploadOutcome`. The generative model's answer is a `Generation`. Opening the SQLite database either works or fails.

Modules, one per part of the app:
- `NutritionStorage` (nutrition history): a class over the single stored cell.
- `ChatDatabase` (chat database): a class holding the two tables as sequences in rowid order. The SQL statements it issues are modelled by functions: `INSERT OR REPLACE` as delete-then-append, `ORDER BY` as a stable sort over rowid order, `LIMIT` with a negative bound meaning no bound.
- `NutritionLookup` (food-database lookup): a total function from the scripted exchanges to a result and the trace of requests made.
- `FoodAnalysis` (photo analysis): a method that copies the labels into an array, sorts it in place with `StableSort.SortInPlace`, and folds every outcome into one result.
- `EssentialNutrients`: the allow-list filter.
- `BotChat`: a class with the screen's three pieces of state. `startChat` is split at its `await` into `BeginChat` and `CompleteChat`.
- Shared modules: `Seqs` (filtering and subsequences), `StableSort` (a stable descending sort defined as a function and carried out in place on an array), `Wrappers`, `Http`, `NutritionTypes`.

Behaviour of the code that the model keeps as written:
- `deleteNutritionEntry` reads through `getNutritionData`, which turns a failed read into `[]`. A failed read followed by a successful write therefore stores the empty history. `DeleteNutritionEntry` states this case explicitly.
- Entry ids are the save time in milliseconds, so two saves in the same millisecond give two entries with the same id, and a delete removes both. `SaveThenDeleteRestores` therefore requires that no older entry has the new id. `SaveInNewMillisecondThenDeleteRestores` states the same condition as: every earlier entry was saved in another millisecond.
- Saving a message makes its chat the first of `getRecentChats` only when the new row's timestamp is strictly newer than every other chat row. `CURRENT_TIMESTAMP` has one-second resolution, so ties are possible, and the engine does not define the order among ties. `SavedChatIsMostRecent` proves the strict version.

## Model

| member | source | states |
|---|---|---|
| NutritionStorage.DecimalString | src/utils/nutritionStorage.ts:30 | the id text of a millisecond count is a non-empty string of decimal digits |
| NutritionStorage.NutritionHistory.SaveNutritionEntry | src/utils/nutritionStorage.ts:17-47 | a failed read or write is returned as that error with the store unchanged; otherwise the new entry (id from the clock, label, nutrients, image path, date string) is put in front of the stored history, which grows by one, and the entry is returned |
| NutritionStorage.NutritionHistory.GetNutritionData | src/utils/nutritionStorage.ts:49-57 | the stored history, or `[]` when nothing is stored or the read throws; never fails |
| NutritionStorage.NutritionHistory.DeleteNutritionEntry | src/utils/nutritionStorage.ts:59-78 | a failed write is returned with the store unchanged; otherwise the store holds the history without the id, or `[]` when the read failed |
| NutritionStorage.DecimalStringInjective | src/utils/nutritionStorage.ts:30 | different millisecond counts give different ids |
| NutritionStorage.DeleteRemovesEveryMatch | src/utils/nutritionStorage.ts:67 | no entry with the deleted id is left, duplicates included |
| NutritionStorage.DeleteKeepsOthers | src/utils/nutritionStorage.ts:67 | every entry with another id keeps its number of occurrences, and the result is an order-preserving subsequence of the history |
| NutritionStorage.DeleteAbsentIsIdentity | src/utils/nutritionStorage.ts:67 | deleting an id no entry has leaves the history unchanged |
| NutritionStorage.DeleteIdempotent | src/utils/nutritionStorage.ts:67 | deleting the same id twice is deleting it once |
| NutritionStorage.SaveThenDeleteRestores | src/utils/nutritionStorage.ts:37-67 | deleting the entry a save put in front restores the previous history when the id is fresh |
| NutritionStorage.SaveInNewMillisecondThenDeleteRestores | src/utils/nutritionStorage.ts:30-67 | deleting the id of the entry a save put in front restores the previous history whenever every earlier entry was saved in another millisecond |
| ChatDatabase.Split | src/database/SimpleDatabase.ts:130 | splitting at spaces gives at least one piece, and no piece contains a space |
| ChatDatabase.SplitJoinRoundTrip | src/database/SimpleDatabase.ts:130 | joining the pieces with spaces gives back the text |
| ChatDatabase.FirstWordsArePrefix | src/database/SimpleDatabase.ts:130 | the first k pieces joined again are the text up to its k-th space |
| ChatDatabase.GenerateChatTitle | src/database/SimpleDatabase.ts:129-132 | the title is the text up to its fourth space when that is at most 30 characters, else the first 30 characters followed by "..."; never longer than 33 |
| ChatDatabase.ToChat | src/database/SimpleDatabase.ts:109-114 | a chat row as a `Chat`, with a null last message read as "" |
| ChatDatabase.UpsertReplaces | src/database/SimpleDatabase.ts:67-70 | after `INSERT OR REPLACE` exactly one row has the chat id, the new one, and the rows of other chats are kept in order |
| ChatDatabase.UpsertKeepsKeysUnique | src/database/SimpleDatabase.ts:67-70 | `INSERT OR REPLACE` keeps the chat ids a primary key |
| ChatDatabase.SelectMessagesCorrect | src/database/SimpleDatabase.ts:77-80 | the selection is exactly the chat's rows, as a multiset, in non-decreasing timestamp order |
| ChatDatabase.SelectRecentChatsCorrect | src/database/SimpleDatabase.ts:101-104 | the selection has min(limit, rows) rows (all for a negative limit), all from the table and none more often than it is stored (exactly the table's rows, as a multiset, when the limit does not cut), newest first, and every row left out is no newer than every row returned |
| ChatDatabase.SavedChatIsMostRecent | src/database/SimpleDatabase.ts:67-70 | a chat row strictly newer than every other row is the first chat `getRecentChats(limit)` returns for every limit other than 0, and the single chat of `getRecentChats(1)` |
| ChatDatabase.SimpleDatabase.constructor | src/database/SimpleDatabase.ts:20-21 | a fresh handle is not connected, over the tables already stored |
| ChatDatabase.SimpleDatabase.Init | src/database/SimpleDatabase.ts:23-55 | a successful open connects the handle and leaves the tables as they are; a failed open is returned and changes nothing |
| ChatDatabase.SimpleDatabase.SaveMessage | src/database/SimpleDatabase.ts:58-71 | without a connection it fails with "Database not initialized" and nothing changed; otherwise exactly one message row with the given role, text and chat and the next id is appended, the id sequence advances, and the chat row is upserted with the generated title and the text as last message; the two rows carry the two separate clock readings; message ids stay strictly increasing |
| ChatDatabase.SimpleDatabase.GetMessages | src/database/SimpleDatabase.ts:74-95 | without a connection it fails with "Database not initialized"; otherwise it returns the chat's messages one per selected row, all of that chat, oldest first, none missing |
| ChatDatabase.SimpleDatabase.GetRecentChats | src/database/SimpleDatabase.ts:98-118 | without a connection it fails with "Database not initialized"; otherwise it returns one chat per selected row, at most `limit` of them, newest first |
| ChatDatabase.SimpleDatabase.DeleteChat | src/database/SimpleDatabase.ts:121-126 | without a connection it fails with "Database not initialized" and nothing changed; otherwise a message or chat row remains exactly when it belonged to another chat, and the id sequence is untouched |
| NutritionLookup.NotFoundMessageMentions | src/utils/nutrition.ts:18-24 | the not-found message says the photo does not seem to be food and names the label |
| NutritionLookup.ErrorCodesDistinct | src/utils/nutrition.ts:10-59 | the five failures carry five different error codes |
| NutritionLookup.ToNutrient | src/utils/nutrition.ts:50-54 | a nutrient's name and unit come from the nested record when that one is truthy, else from the flat fields; the amount is kept |
| NutritionLookup.ToNutrients | src/utils/nutrition.ts:50-54 | one nutrient per element of the detail list, in order |
| NutritionLookup.FetchNutritionFromLabel | src/utils/nutrition.ts:1-63 | the search is requested first and the detail request exactly when the search found a food, with that food's id; each failure (rejected fetch, unparsable body, not ok, no food, no nutrients) yields its own error and message; success holds exactly when both exchanges went through and the list is non-empty, and then carries the description and the mapped nutrients |
| StableSort.SortInPlace | src/utils/foodAnalysis.ts:58 | the array afterwards holds the stable descending sort of its old contents |
| StableSort.SortSorted | src/utils/foodAnalysis.ts:58 | the sorted sequence is in non-increasing key order |
| StableSort.SortMultiset | src/utils/foodAnalysis.ts:58 | the sorted sequence is a permutation of the input |
| StableSort.SortStable | src/utils/foodAnalysis.ts:58 | the elements of each key appear in the sorted sequence in their input order |
| StableSort.SortHeadIsFirstMax | src/utils/foodAnalysis.ts:58-59 | the first sorted element is the first input element of greatest key |
| FoodAnalysis.RankingIsStable | src/utils/foodAnalysis.ts:58-59 | the ranked labels are in non-increasing topicality order, a permutation of the labels, equal topicalities in input order, and headed by the first label of greatest topicality |
| FoodAnalysis.ErrorCodesDistinct | src/utils/foodAnalysis.ts:35-98 | the four failures carry four different error codes |
| FoodAnalysis.Summaries | src/utils/foodAnalysis.ts:91 | `allLabels` maps the ranked labels one to one, in order, to name and confidence |
| FoodAnalysis.AnalyzeFoodFromPhoto | src/utils/foodAnalysis.ts:10-103 | the upload comes first and the label request asks for 5 labels of the hosted image; a failed upload, a thrown or unparsable vision exchange, or a top label without description yields `ANALYSIS_FAILED` with no image and the original error; a vision reply that is not ok yields `VISION_API_ERROR`, and no labels yields `NO_LABELS_DETECTED`, both with the hosted image; the food database is asked only about the top label; a lookup failure yields `NUTRITION_DATA_ERROR` with the lookup's message and the image; success carries the top label, the lookup's nutrients, the top topicality, the image and the ranked labels |
| EssentialNutrients.GetEssentialNutrients | src/screens/NutrientsScreen.tsx:17-36 | the result is an order-preserving subsequence of the input, every kept nutrient has one of the ten listed names and an amount that is neither undefined nor null, and every input nutrient that meets both is kept as often as it occurs |
| EssentialNutrients.GetEssentialNutrientsIdempotent | src/screens/NutrientsScreen.tsx:31-35 | filtering the filtered list again changes nothing |
| BotChat.TrimStart | src/screens/BotScreen.tsx:41 | leading white space is removed: the result is a suffix of the input that starts with no white space, and everything dropped is white space |
| BotChat.TrimEnd | src/screens/BotScreen.tsx:41 | trailing white space is removed: the result is a prefix of the input that ends with no white space, and everything dropped is white space |
| BotChat.Trim | src/screens/BotScreen.tsx:41 | the trimmed input is empty exactly when the input is all white space, and otherwise has no white space at either end |
| BotChat.ToContents | src/screens/BotScreen.tsx:55-58 | one request content per message, in order; a content has the model role exactly when its message is the bot's, and the message text is its single part |
| BotChat.ContentsRoundTrip | src/screens/BotScreen.tsx:55-58 | the transcript can be read back from the request: the mapping loses nothing |
| BotChat.ContentsOfAppend | src/screens/BotScreen.tsx:44-58 | the request after appending a message is the previous request followed by that message's content |
| BotChat.BotScreen.constructor | src/screens/BotScreen.tsx:13-15 | the screen starts with no messages, an empty input and not loading |
| BotChat.BotScreen.TypeInput | src/screens/BotScreen.tsx:128-129 | typing replaces the input and changes nothing else |
| BotChat.BotScreen.BeginChat | src/screens/BotScreen.tsx:40-58 | blank input changes nothing and sends nothing; otherwise the user's message is appended at the end, the input is cleared, loading is set, and the request is the whole new transcript |
| BotChat.BotScreen.CompleteChat | src/screens/BotScreen.tsx:72-85 | exactly one bot message is appended, the reply text or the fixed apology on failure, and loading is cleared either way |
| BotChat.BotScreen.StartChat | src/screens/BotScreen.tsx:40-86 | blank input changes nothing; otherwise the transcript grows by the user's message and then one bot message, the input is cleared, loading ends false, and the request maps the transcript up to the user's message |

## Left out

- Rendering, navigation and the other screens: they hold no logic beyond what is modelled here.
- The camera screen's orchestration, which calls the pipeline and saves the result: it is screen glue around `AnalyzeFoodFromPhoto` and `SaveNutritionEntry`.
- The image host's upload protocol: `src/utils/cloudinary.ts` is not part of this model, and its result is only an `UploadOutcome`.
- JSON text: the stored history and every HTTP body are modelled as the values they parse to. `JSON.parse` failing on corrupt stored text is the read failing.
- Concurrency: each asynchronous operation runs to completion without interleaving, except that `startChat` is split at its `await` so that another update can come between `BeginChat` and `CompleteChat`.
- Floating point: topicality and timestamps are integers and amounts are exact reals, so a missing topicality or a `NaN` comparator result is not modelled.
- String lengths count code points, where JavaScript counts UTF-16 code units. Titles with characters outside the Basic Multilingual Plane may therefore be cut at a different place.
- `generateChatId`: it depends on the clock and `Math.random`, and no caller in the modelled core uses it.
- `init`'s `CREATE TABLE` statements and every other `executeSql` call are taken to succeed; only the open can fail.
- ChatDatabase.SelectMessages and ChatDatabase.SelectRecentChats: rows of equal timestamp come back in rowid order, a choice the SQL engine does not promise. Through them, `GetMessages` and `GetRecentChats` fix the order among ties, and `GetRecentChats` also fixes which of several equally recent chats `LIMIT` keeps.
- The chat's generation settings (system instruction, model name, token and sampling limits) and the scroll-to-end timers: they do not affect the state.
- BotChat.BotScreen.StartChat: does not model a reply whose `text` is undefined, because it is taken to be a string.
- Null elements inside the label, food or nutrient arrays: the arrays are taken to hold records.
- NutritionStorage.NutritionHistory.SaveNutritionEntry: takes the stored history to be an array; a stored non-array value is not modelled.
- The text input's 500-character limit, which the native widget enforces.
