# Shortcuts — a verified model of its logic

Shortcuts is a keyboard-shortcut catalog for PHPStorm, Arch Linux and Ubuntu. It has two front ends:

- an older client over an Express server, whose data lives in an in-memory store;
- a newer one over a hosted document store (Firestore), with favorites, personal notes, a practice quiz and toasts.

This project models the deterministic logic of both in Dafny 4.11 and proves what the code promises about it. The model covers:

- the in-memory store's maps and id counters;
- the catalog tables and their queries;
- the two catalog pages' filters and category toggles;
- the quiz state machine;
- favorites with optimistic updates and rollback;
- the document-store operations and the seeding of the store;
- the endpoint dispatcher;
- the toast list;
- the key-combination renderer;
- the note editor of the shortcut card.

Randomness, clocks, new document ids and the outcome of each store call are parameters. Each asynchronous handler is a start step followed by a finish step that is given the call's outcome.

## Layout

| file | module | models |
|---|---|---|
| wrappers.dfy | Wrappers | `Option` (undefined/null) and `Result` (a value or a thrown error) |
| text.dfy | Text | ASCII lower-casing, `includes`, `trim`, decimal printing, `parseInt`, `padStart`, string order |
| seqs.dfy | Seqs | `filter`, subsequences, a shuffle driven by a choice sequence, `find` |
| split.dfy | Split | `split` on a character test, `filter(Boolean)`, `join` |
| catalog.dfy | Catalog | the shortcut record, the fixed category color table, the platform/category/search queries |
| shortcuts_data.dfy | ShortcutsData | client/src/lib/shortcuts-data.ts: the tables and their lookups |
| mem_storage.dfy | MemStorage | server/storage.ts: class `MemStorage` |
| home_page.dfy | HomePage | src/pages/Home.tsx: filter, toggle, category color |
| shortcuts_page.dfy | ShortcutsPage | client/src/pages/shortcuts.tsx: initial state, filter, toggle, category color |
| quiz.dfy | Quiz | src/pages/Quiz.tsx: options, question building, scoring, `formatTime`, score color, class `QuizPage` |
| favorites.dfy | Favorites | src/contexts/FavoritesContext.tsx: class `FavoritesProvider` |
| client_favorites.dfy | ClientFavorites | client/src/contexts/FavoritesContext.tsx: toggle decision, class `FavoritesClient` |
| doc_store.dfy | DocStore | src/lib/firebase.ts: collections as sequences, class `Firestore` |
| init_firestore.dfy | InitFirestore | src/lib/initFirestore.ts: class `Seeder` |
| query_client.dfy | QueryClient | src/lib/queryClient.ts: `apiRequest` into an `Op` |
| toasts.dfy | Toasts | src/contexts/ToastContext.tsx: class `ToastProvider` |
| shortcut_card.dfy | ShortcutCard | `renderShortcut` of both shortcut-card files |
| note_editor.dfy | NoteEditor | src/components/enhanced-shortcut-card.tsx: badge color, class `NoteCard` |

## Notes on behaviour

These behaviours of the code are proved as they stand:

- **Dispatcher GET requests.** `apiRequest` routes a read only when no method is given, so an explicit `'GET'` on `/api/favorites/:userId` is refused (`QueryClient.ExplicitGetRefused`).
- **Dispatcher search.** `search` as the first segment matches whatever segments follow it.
- **Seeding is not atomic.** A seeding step that throws after some writes leaves part of the table in its collection, and a later run never completes it, because the collection is no longer empty (`InitFirestore.PartialSeedingSticks`).
- **Toast ids.** A toast can carry the empty id, and `dismiss("")` clears the whole list.
- **Repeated quiz options.** `generateRandomOptions` can offer the same key string twice when two shortcuts share it (`Quiz.OptionsMayRepeat`).
- **Home page category color.** `getCategoryColor` on the home page compares the category's document id with the shortcut's category, not its `originalId`. For seeded documents the document id never matches, so the fixed table decides (`HomePage.CategoryColorOfUnknownDocId`).
- **Note timestamps.** When a note already exists, `createUserNote` replaces its text but leaves `updatedAt` as it was. `updateUserNote` stores the text and a new `updatedAt`, but returns the snapshot read before the write with only the text replaced, so the returned `updatedAt` is the old one.
- **Quiz options.** `generateRandomOptions` offers at most three wrong answers, fewer when the platform has fewer other shortcuts, and they can repeat (`Quiz.GenerateRandomOptionsSpec`, `Quiz.OptionsMayRepeat`).
- **Re-adding a favorite.** In the in-memory store a second add of the same pair replaces the record under a fresh id (`MemStorage.MemStorage.AddFavorite`). The document store returns the existing document and adds nothing (`DocStore.AddFavoriteIdempotent`).
- **Saved quiz score.** The completed quiz saves the score computed before the last answer is counted, while the results screen counts it; see Findings.
- **Hexadecimal user ids.** The dispatcher reads user ids with `parseInt` and no radix, so a `0x` segment is read in base 16 (`QueryClient.HexUserSegment`).

## Model

| member | source | states |
|---|---|---|
| Catalog.TableCategoryColor | client/src/pages/shortcuts.tsx:79-88 | the fixed table gives a non-gray class exactly for the five catalog categories |
| Catalog.ByPlatform | server/storage.ts:704-708 | the platform filter shared by both catalogs; its contract is Catalog.ByPlatformSelects: exactly the entries on that platform, in order, with every copy kept |
| Catalog.ByCategory | server/storage.ts:710-714 | the category filter shared by both catalogs; its contract is Catalog.ByCategorySelects: exactly the entries in that category, in order |
| Catalog.Search | server/storage.ts:716-724 | the case-insensitive title/description/key search shared by both catalogs; its contracts are Catalog.SearchSelects (exactly the matching entries, in order), Catalog.SearchEmptyIsAll and Catalog.SearchIgnoresCase |
| Catalog.FilterIsSelection | client/src/lib/shortcuts-data.ts:280-295 | a filter's result holds exactly the passing elements, each with all its copies, in their original order |
| Catalog.ByPlatformSelects | client/src/lib/shortcuts-data.ts:280-282 | the platform query keeps exactly the entries on that platform, in catalog order |
| Catalog.ByCategorySelects | client/src/lib/shortcuts-data.ts:284-286 | the category query keeps exactly the entries in that category, in catalog order |
| Catalog.SearchSelects | client/src/lib/shortcuts-data.ts:288-295 | the search keeps exactly the entries whose lower-cased title, description or key string contains the lower-cased query |
| Catalog.SearchEmptyIsAll | client/src/lib/shortcuts-data.ts:288-295 | searching for the empty string returns the whole catalog |
| Catalog.SearchIgnoresCase | client/src/lib/shortcuts-data.ts:289 | the result depends on the query only through its lower-cased form |
| ShortcutsData.GetCategoryColor | client/src/lib/shortcuts-data.ts:271-274 | the color of the category with that id, or the gray default when no category has it |
| ShortcutsData.GetCategoryColorIsTable | client/src/lib/shortcuts-data.ts:271-274 | the category table and the pages' fixed color table agree on every category |
| ShortcutsData.GetPlatformData | client/src/lib/shortcuts-data.ts:276-278 | a platform with that id from the table, or undefined exactly when no platform has it |
| ShortcutsData.GetShortcutsByPlatform | client/src/lib/shortcuts-data.ts:280-282 | `getShortcutsByPlatform` over the table; its contract is ShortcutsData.GetShortcutsByPlatformSelects |
| ShortcutsData.GetShortcutsByPlatformSelects | client/src/lib/shortcuts-data.ts:280-282 | the result is exactly the table entries whose platform is the argument, in table order, a subsequence of the table |
| ShortcutsData.GetShortcutsByCategory | client/src/lib/shortcuts-data.ts:284-286 | `getShortcutsByCategory` over the table; its contract is ShortcutsData.GetShortcutsByCategorySelects |
| ShortcutsData.GetShortcutsByCategorySelects | client/src/lib/shortcuts-data.ts:284-286 | the result is exactly the table entries in that category, in table order |
| ShortcutsData.SearchShortcuts | client/src/lib/shortcuts-data.ts:288-295 | `searchShortcuts` over the table; its contract is ShortcutsData.SearchShortcutsSelects |
| ShortcutsData.SearchShortcutsSelects | client/src/lib/shortcuts-data.ts:288-295 | the result is exactly the table entries whose lower-cased title, description or key text contains the lower-cased query, in table order |
| ShortcutsData.IdsUniqueConcat | client/src/lib/shortcuts-data.ts:10-269 | two id-distinct sections with different id prefixes concatenate to an id-distinct list |
| ShortcutsData.IdsStartWithConcat | client/src/lib/shortcuts-data.ts:10-269 | no id of two sections starts with a prefix letter used by neither |
| ShortcutsData.PhpstormSectionHead | client/src/lib/shortcuts-data.ts:10-269 | the first four PHPStorm ids differ from every later PHPStorm id |
| ShortcutsData.PhpstormSectionTail | client/src/lib/shortcuts-data.ts:10-269 | the remaining PHPStorm ids are pairwise distinct |
| ShortcutsData.PhpstormSection | client/src/lib/shortcuts-data.ts:10-269 | the PHPStorm ids are distinct and start with `p` |
| ShortcutsData.ArchlinuxSection | client/src/lib/shortcuts-data.ts:10-269 | the Arch Linux ids are distinct and start with `a` |
| ShortcutsData.UbuntuSection | client/src/lib/shortcuts-data.ts:10-269 | the Ubuntu ids are distinct and start with `u` |
| ShortcutsData.CatalogIdsDistinct | client/src/lib/shortcuts-data.ts:10-269 | no two entries of SHORTCUTS_DATA share an id |
| ShortcutsData.CategoryIds | client/src/lib/shortcuts-data.ts:10-269 | the category table's ids, position by position |
| ShortcutsData.PlatformIds | client/src/lib/shortcuts-data.ts:10-269 | the platform table's ids, position by position |
| ShortcutsData.CatalogFieldsKnown | client/src/lib/shortcuts-data.ts:10-269 | every entry's category and platform is an id of CATEGORIES and of PLATFORMS |
| MemStorage.PutFavoriteStores | server/storage.ts:739-745 | after `favorites.set` the pair is present, held by exactly the new record, and keys stay unique |
| MemStorage.PutFavorite | server/storage.ts:739-745 | `Map.set` on the favorites map seen as an insertion-ordered list; its contracts are MemStorage.PutFavoriteStores and MemStorage.PutFavoriteKeepsOthers |
| MemStorage.PutFavoriteKeepsOthers | server/storage.ts:739-745 | a set changes no record under another key |
| MemStorage.DeleteFavoriteRemoves | server/storage.ts:747-750 | after a delete the pair is absent and every other pair keeps its record, in order |
| MemStorage.DeleteFavorite | server/storage.ts:747-750 | `Map.delete` on the same list; its contracts are MemStorage.DeleteFavoriteRemoves, MemStorage.DeleteAbsentFavorite and MemStorage.DeleteFavoriteKeepsKeysUnique |
| MemStorage.DeleteAbsentFavorite | server/storage.ts:747-750 | deleting an absent pair changes nothing |
| MemStorage.DeleteFavoriteKeepsKeysUnique | server/storage.ts:747-750 | a delete keeps keys unique |
| MemStorage.SubsequenceKeepsKeysUnique | server/storage.ts:747-750 | leaving records out keeps keys unique |
| MemStorage.SubsequenceElements | server/storage.ts:704-724 | every element of a subsequence occurs in the original |
| MemStorage.ShortcutIds | server/storage.ts:733-737 | the shortcut ids of a record list, position by position |
| MemStorage.FavoritesOf | server/storage.ts:733-737 | the `getFavorites` projection; its contracts are MemStorage.FavoritesOfMembers (an id is listed iff the pair is stored) and MemStorage.FavoritesOfDistinct |
| MemStorage.FavoritesOfMembers | server/storage.ts:733-737 | a shortcut id is listed for a user exactly when that pair has a record |
| MemStorage.FavoritesOfDistinct | server/storage.ts:733-737 | with unique keys, no shortcut id is listed twice for a user |
| MemStorage.MemStorage.constructor | server/storage.ts:28-36 | empty users and favorites, counters at 1, then the seed table stored under ids 1, 2, … in order |
| MemStorage.MemStorage.InitializeShortcuts | server/storage.ts:677-681 | each seed record is stored under the next counter value, in seed order, and the counter advances by the seed count |
| MemStorage.MemStorage.GetUser | server/storage.ts:683-685 | the user stored under that id, or undefined exactly when there is none |
| MemStorage.MemStorage.GetUserByUsername | server/storage.ts:687-691 | the first user, in insertion order, with that username, or undefined exactly when there is none |
| MemStorage.MemStorage.CreateUser | server/storage.ts:693-698 | the user gets the current counter value, an id no stored user has; the counter advances |
| MemStorage.MemStorage.GetAllShortcuts | server/storage.ts:700-702 | every stored shortcut in insertion order, with ids strictly increasing |
| MemStorage.MemStorage.GetShortcutsByPlatform | server/storage.ts:704-708 | exactly the stored shortcuts on that platform, in insertion order |
| MemStorage.MemStorage.GetShortcutsByCategory | server/storage.ts:710-714 | exactly the stored shortcuts in that category, in insertion order |
| MemStorage.MemStorage.SearchShortcuts | server/storage.ts:716-724 | exactly the stored shortcuts matching the query case-insensitively; the empty query returns all |
| MemStorage.MemStorage.CreateShortcut | server/storage.ts:726-731 | the record is stored under the current counter value, above every earlier id, and the counter advances, so no id is reused |
| MemStorage.MemStorage.GetFavorites | server/storage.ts:733-737 | the shortcut ids of exactly that user's favorites, each once |
| MemStorage.MemStorage.AddFavorite | server/storage.ts:739-745 | a fresh record under the next favorite id replaces any earlier record for the pair |
| MemStorage.MemStorage.RemoveFavorite | server/storage.ts:747-750 | the pair's record is dropped, if there is one; nothing else changes |
| MemStorage.MemStorage.IsFavorite | server/storage.ts:752-755 | true exactly when the pair has a record |
| HomePage.FilteredSelects | src/pages/Home.tsx:73-94 | the result is exactly the loaded shortcuts that pass all four tests, in load order |
| HomePage.FilteredShortcuts | src/pages/Home.tsx:73-94 | `filteredShortcuts`; its contracts are HomePage.FilteredSelects and the four restriction lemmas below it |
| HomePage.EmptySearchIsQuery | src/pages/Home.tsx:83-87 | the empty-term guard agrees with the case-insensitive substring test |
| HomePage.UnrestrictedShowsAll | src/pages/Home.tsx:74-89 | no platform, no categories, no term and favorites-only off show every shortcut |
| HomePage.ActivePlatformRestricts | src/pages/Home.tsx:74-76 | an active platform keeps, of the rest, exactly the entries whose platform is its `originalId` |
| HomePage.FavoritesOnlyRestricts | src/pages/Home.tsx:88-89 | favorites-only keeps, of the rest, exactly the entries whose id is a favorite |
| HomePage.ToggleFlips | src/pages/Home.tsx:113-119 | a toggle flips the toggled id's membership and no other id's |
| HomePage.ToggleCategory | src/pages/Home.tsx:113-119 | `handleCategoryToggle`; its contracts are HomePage.ToggleFlips and HomePage.ToggleTwiceRestores |
| HomePage.ToggleTwiceRestores | src/pages/Home.tsx:113-119 | toggling an absent category in and out restores the list exactly |
| HomePage.CategoryColorOfUnknownDocId | src/pages/Home.tsx:121-137 | with no category document of that id, the color is the fixed table's, gray for unknown categories |
| HomePage.CategoryColor | src/pages/Home.tsx:121-137 | `getCategoryColor` of the home page; its contracts are HomePage.CategoryColorOfDocument (a stored color wins) and HomePage.CategoryColorOfUnknownDocId (else the fixed table) |
| HomePage.CategoryColorOfDocument | src/pages/Home.tsx:121-125 | the first document with that id wins when it has a color |
| ShortcutsPage.InitialFilters | client/src/pages/shortcuts.tsx:28-33 | the page opens on "phpstorm" with all five category ids active, no term, favorites-only off |
| ShortcutsPage.FilteredSelects | client/src/pages/shortcuts.tsx:43-53 | the result is exactly the fetched shortcuts that pass all four tests, in fetch order |
| ShortcutsPage.FilteredShortcuts | client/src/pages/shortcuts.tsx:43-53 | `filteredShortcuts` of the catalog page; its contracts are ShortcutsPage.FilteredSelects and the lemmas on no categories and on the unrestricted case |
| ShortcutsPage.NoCategoriesShowsNothing | client/src/pages/shortcuts.tsx:45 | an empty active-category list shows nothing |
| ShortcutsPage.UnrestrictedIsPlatformAndCategory | client/src/pages/shortcuts.tsx:46-50 | an empty term and favorites-only off leave only the platform and category tests |
| ShortcutsPage.InitialShowsPhpstorm | client/src/pages/shortcuts.tsx:28-53 | the first render shows the "phpstorm" shortcuts in the five categories |
| ShortcutsPage.ToggleFlips | client/src/pages/shortcuts.tsx:71-77 | a toggle flips the id's membership and no other id's |
| ShortcutsPage.ToggleCategory | client/src/pages/shortcuts.tsx:71-77 | `handleCategoryToggle` on ids; its contracts are ShortcutsPage.ToggleFlips and ShortcutsPage.ToggleTwiceRestores |
| ShortcutsPage.ToggleTwiceRestores | client/src/pages/shortcuts.tsx:71-77 | toggling an absent id in and out restores the list exactly |
| ShortcutsPage.CategoryColorMatchesCatalog | client/src/pages/shortcuts.tsx:79-88 | the page's table agrees with the catalog's category colors and is gray for unknown categories |
| Quiz.Keys | src/pages/Quiz.tsx:131 | the key strings of a shortcut list, position by position |
| Quiz.InShuffle | src/pages/Quiz.tsx:132-137 | shuffling keeps exactly the elements there were |
| Quiz.GenerateRandomOptions | src/pages/Quiz.tsx:125-139 | `generateRandomOptions` with the two random sorts as choice sequences; its contracts are Quiz.GenerateRandomOptionsSpec, Quiz.WrongAnswerFromOthers, Quiz.OfferedOnce and Quiz.OptionsMayRepeat |
| Quiz.GenerateRandomOptionsSpec | src/pages/Quiz.tsx:125-139 | the options hold the right answer exactly once and at most three wrong answers, each the key string of a shortcut and none equal to the right one |
| Quiz.WrongAnswerFromOthers | src/pages/Quiz.tsx:129-133 | a wrong answer differs from the right one and is the key string of some shortcut |
| Quiz.OfferedOnce | src/pages/Quiz.tsx:135-137 | the right answer, shuffled in with answers that differ from it, occurs once |
| Quiz.UnshuffledOptions | src/pages/Quiz.tsx:125-139 | without shuffling, the options are the right answer followed by the other key strings in order |
| Quiz.OptionsMayRepeat | src/pages/Quiz.tsx:129-133 | two shortcuts sharing a key string yield two equal options |
| Quiz.BuildQuestions | src/pages/Quiz.tsx:158-162 | one question per selected shortcut |
| Quiz.MakeQuestion | src/pages/Quiz.tsx:158-162 | one question of `startQuiz`; its contract is Quiz.QuestionsWellFormed: the right answer is the shortcut's key text, offered exactly once, beside up to three wrong options taken from the platform's other key texts |
| Quiz.QuestionsWellFormed | src/pages/Quiz.tsx:158-162 | each question holds its shortcut and its key string as the right answer, offered exactly once among 1 + min(3, others) options, every other option being the key string of one of the platform's shortcuts |
| Quiz.SelectShortcuts | src/pages/Quiz.tsx:154-156 | min(10, n) of the platform's shortcuts |
| Quiz.SelectShortcutsDistinct | src/pages/Quiz.tsx:154-156 | the selection takes no platform entry twice |
| Quiz.CountCorrect | src/pages/Quiz.tsx:198-200 | the final score is at most the number of answers and of questions |
| Quiz.CountCorrectAppend | src/pages/Quiz.tsx:179-184 | one more answer adds one point exactly when it is the right answer at its position |
| Quiz.CorrectAnswers | src/pages/Quiz.tsx:161 | the questions' right answers, position by position |
| Quiz.AllRightScoresAll | src/pages/Quiz.tsx:198-200 | answering every question right scores every question |
| Quiz.AnswersPrefixScore | src/pages/Quiz.tsx:198-200 | the first k right answers score k |
| Quiz.NoneRightScoresZero | src/pages/Quiz.tsx:198-200 | answers right at no position score zero |
| Quiz.SecondsPart | src/pages/Quiz.tsx:225-226 | the seconds sub-string of the display is two digits worth the seconds |
| Quiz.FirstColon | src/pages/Quiz.tsx:226 | the colon after the minute digits is the first colon of the display |
| Quiz.ReadTimeOfDigits | src/pages/Quiz.tsx:223-227 | reading "m:s" for digit strings gives m minutes and s seconds |
| Quiz.FormatTime | src/pages/Quiz.tsx:223-227 | `formatTime`; its contract is Quiz.FormatTimeRoundTrip: reading the text back gives the seconds |
| Quiz.FormatTimeRoundTrip | src/pages/Quiz.tsx:223-227 | the display is the minutes, a colon and two second digits, and reading it back gives the seconds |
| Quiz.DigitsAtLeast | src/pages/Quiz.tsx:224 | three or more digits without a leading zero are worth at least 100 |
| Quiz.GetScoreColor | src/pages/Quiz.tsx:229-234 | green exactly at 80 % or more, red exactly below 60 %, yellow between |
| Quiz.ScoreColorMonotone | src/pages/Quiz.tsx:229-234 | a higher score never gets a worse color |
| Quiz.Percentage | src/pages/Quiz.tsx:343 | `Math.round(100 * score / total)`, undefined for no questions |
| Quiz.PercentageBounds | src/pages/Quiz.tsx:343 | a score within the total is at most 100 %, a full score exactly 100 % |
| Quiz.QuizPage.constructor | src/pages/Quiz.tsx:39-51 | nothing started, the countdown at 300 seconds, nothing saved |
| Quiz.QuizPage.StartQuiz | src/pages/Quiz.tsx:141-174 | fewer than 10 platform shortcuts change nothing; otherwise ten selected shortcuts become the questions, and the score is 0, the index 0, no answers, 300 seconds, timer on |
| Quiz.QuizPage.Begin | src/pages/Quiz.tsx:164-173 | the fresh quiz state once the questions are built |
| Quiz.QuizPage.SelectAnswer | src/pages/Quiz.tsx:170 | only the selection changes |
| Quiz.QuizPage.Complete | src/pages/Quiz.tsx:194-209 | the timer stops, the quiz is completed, and one session with the count of the given answers is saved |
| Quiz.QuizPage.SubmitAnswer | src/pages/Quiz.tsx:176-192 | an empty selection changes nothing; otherwise the answer is appended and scored, the index advances or the quiz completes, saving the count of the answers before this one |
| Quiz.QuizPage.SubmitAnswerScoringAll | src/pages/Quiz.tsx:176-200 | the same steps, the completion saving the count of all answers, as the results screen shows |
| Quiz.QuizPage.TimerStep | src/pages/Quiz.tsx:110-117 | an active timer with time left loses one second; at zero it completes the quiz with the answers given; an inactive one changes nothing |
| Quiz.QuizPage.ResetQuiz | src/pages/Quiz.tsx:211-221 | back to not started, with no answers, score 0, timer off and 300 seconds |
| Quiz.ResultsScore | src/pages/Quiz.tsx:340-342 | the results screen's score, at most the number of questions |
| Quiz.StaleScoreMissesLastAnswer | src/pages/Quiz.tsx:176-200 | when the last answer is right, the results screen shows one more than the saved score |
| Quiz.StaleScoreExample | src/pages/Quiz.tsx:340-342 | ten right answers show as 10 and are saved as 9 |
| Favorites.FavoritesProvider.constructor | src/contexts/FavoritesContext.tsx:18-20 | an empty list, not loading, nothing pending |
| Favorites.FavoritesProvider.IsFavorite | src/contexts/FavoritesContext.tsx:85-87 | membership in the current list |
| Favorites.FavoritesProvider.IsLoading | src/contexts/FavoritesContext.tsx:95 | loading or pending |
| Favorites.FavoritesProvider.BeginFetch | src/contexts/FavoritesContext.tsx:24 | loading is set; nothing else changes |
| Favorites.FavoritesProvider.FinishFetch | src/contexts/FavoritesContext.tsx:25-32 | the fetched list on success, the old one on failure; loading ends |
| Favorites.FavoritesProvider.ToggleFavorite | src/contexts/FavoritesContext.tsx:73-83 | a pending toggle changes nothing; otherwise a present id is filtered out with a snapshot kept, an absent id is appended, and pending is set |
| Favorites.FavoritesProvider.HandleAddFavorite | src/contexts/FavoritesContext.tsx:38-41 | pending set and the id appended before the store call |
| Favorites.FavoritesProvider.HandleRemoveFavorite | src/contexts/FavoritesContext.tsx:54-59 | pending set, the snapshot kept and the id filtered out before the store call |
| Favorites.FavoritesProvider.FinishToggle | src/contexts/FavoritesContext.tsx:43-51 | pending ends; a failed add filters the id out again, a failed remove restores the snapshot |
| Favorites.RolledBack | src/contexts/FavoritesContext.tsx:43-70 | success keeps the list; a failed add drops the id; a failed remove gives the snapshot |
| Favorites.FailedToggleRestores | src/contexts/FavoritesContext.tsx:38-71 | with no update in between, a failed toggle gives back the id's membership, and a failed remove the exact list |
| Favorites.SucceededToggleFlips | src/contexts/FavoritesContext.tsx:38-83 | a successful toggle flips the id's membership and no other |
| ClientFavorites.ToggleDecision | client/src/contexts/FavoritesContext.tsx:52-63 | nothing while a mutation is pending; otherwise remove a present id or add an absent one, never both |
| ClientFavorites.DecisionFlips | client/src/contexts/FavoritesContext.tsx:52-63 | once the refetched list reflects a toggle, the next toggle goes the other way |
| ClientFavorites.FavoritesClient.constructor | client/src/contexts/FavoritesContext.tsx:20-22 | an empty list while the query loads, no mutation pending |
| ClientFavorites.FavoritesClient.IsFavorite | client/src/contexts/FavoritesContext.tsx:65-67 | membership in the list |
| ClientFavorites.FavoritesClient.IsLoading | client/src/contexts/FavoritesContext.tsx:74 | the query or either mutation is pending |
| ClientFavorites.FavoritesClient.ToggleFavorite | client/src/contexts/FavoritesContext.tsx:52-63 | starts the mutation the decision names and no other |
| ClientFavorites.FavoritesClient.MutationSettled | client/src/contexts/FavoritesContext.tsx:24-50 | no mutation pending; the list is invalidated only after an ok response |
| ClientFavorites.FavoritesClient.QuerySettled | client/src/contexts/FavoritesContext.tsx:20-22 | fetched data replaces the list; a failed fetch keeps it |
| DocStore.FirstWithKey | src/lib/firebase.ts:61-69 | the first document with the pair, None exactly when there is none |
| DocStore.UserFavorites | src/lib/firebase.ts:51-56 | the shortcut ids of exactly the user's favorite documents |
| DocStore.AddFavoriteStores | src/lib/firebase.ts:58-79 | after an add the pair is present, nothing earlier changed, and at most one document was appended |
| DocStore.AddedFavorites | src/lib/firebase.ts:58-79 | the favorites collection after `addFavorite`; its contracts are DocStore.AddFavoriteStores, DocStore.AddFavoriteIdempotent and DocStore.AddFavoriteKeepsUnique |
| DocStore.AddFavoriteIdempotent | src/lib/firebase.ts:68-70 | adding the same pair again changes nothing |
| DocStore.AddFavoriteKeepsUnique | src/lib/firebase.ts:58-79 | an add with a fresh id keeps pairs and ids distinct |
| DocStore.RemoveFavoriteRemoves | src/lib/firebase.ts:81-96 | with distinct pairs, a remove leaves the pair absent and only drops its document; an absent pair changes nothing |
| DocStore.RemovedFavorites | src/lib/firebase.ts:81-96 | the favorites collection after `removeFavorite`; its contracts are DocStore.RemoveFavoriteRemoves, DocStore.RemoveFavoriteIdempotent and DocStore.RemoveUndoesAdd |
| DocStore.RemoveFavoriteIdempotent | src/lib/firebase.ts:81-96 | removing twice is removing once |
| DocStore.RemoveUndoesAdd | src/lib/firebase.ts:58-96 | a remove after the add of a new pair gives back the collection |
| DocStore.UserNote | src/lib/firebase.ts:98-115 | null exactly when the pair has no note, else a note of the pair |
| DocStore.UpsertThenRead | src/lib/firebase.ts:117-146 | after `createUserNote` the pair's note reads back with the new text; an existing note is replaced in place, otherwise one document is appended |
| DocStore.UpsertedNotes | src/lib/firebase.ts:117-146 | the notes collection after `createUserNote`; its contracts are DocStore.UpsertThenRead and DocStore.UpsertKeepsUnique |
| DocStore.UpdatedNotes | src/lib/firebase.ts:148-171 | the notes collection after `updateUserNote`, or its not-found error; its contracts are DocStore.UpdateThenRead and DocStore.UpdateKeepsUnique |
| DocStore.DeletedNotes | src/lib/firebase.ts:173-188 | the notes collection after `deleteUserNote`; its contract is DocStore.DeleteNoteIdempotent |
| DocStore.UpdateThenRead | src/lib/firebase.ts:148-171 | an update throws "Note not found" exactly when the pair has no note, changing nothing; otherwise the note reads back updated |
| DocStore.DeleteNoteIdempotent | src/lib/firebase.ts:173-188 | a delete leaves no note for the pair, and deleting twice is deleting once |
| DocStore.UpsertKeepsUnique | src/lib/firebase.ts:117-146 | an upsert keeps pairs distinct, and ids distinct when the new id is fresh |
| DocStore.UpdateKeepsUnique | src/lib/firebase.ts:148-171 | an update keeps pairs and ids distinct |
| DocStore.InsertNewestFirst | src/lib/firebase.ts:196 | inserting into a newest-first list keeps it newest first |
| DocStore.InsertPermutes | src/lib/firebase.ts:196 | inserting adds exactly one copy of the element |
| DocStore.SortNewestFirst | src/lib/firebase.ts:196 | `orderBy('completedAt', 'desc')`: a newest-first list of the same length |
| DocStore.SortPermutes | src/lib/firebase.ts:196 | the sort is a permutation |
| DocStore.NewestFirstChain | src/lib/firebase.ts:196 | in a newest-first list a later session completed no later than an earlier one |
| DocStore.HistoryIsPrefix | src/lib/firebase.ts:190-205 | the history is the first part of the user's sessions sorted newest first |
| DocStore.QuizHistory | src/lib/firebase.ts:190-205 | `getQuizHistory`; its contracts are DocStore.QuizHistorySpec, DocStore.HistoryIsPrefix and DocStore.QuizHistoryKeepsNewest |
| DocStore.QuizHistorySpec | src/lib/firebase.ts:190-205 | at most ten sessions, all of that user, from the collection, newest first |
| DocStore.QuizHistoryKeepsNewest | src/lib/firebase.ts:190-205 | every session of the user left out completed no later than the last one shown |
| DocStore.Firestore.constructor | src/lib/firebase.ts:20-21 | three empty collections |
| DocStore.Firestore.GetFavorites | src/lib/firebase.ts:51-56 | the user's favorite shortcut ids |
| DocStore.Firestore.AddFavorite | src/lib/firebase.ts:58-79 | returns the pair's existing document unchanged, or the one appended under the new id |
| DocStore.Firestore.RemoveFavorite | src/lib/firebase.ts:81-96 | always succeeds and leaves the pair absent |
| DocStore.Firestore.GetUserNote | src/lib/firebase.ts:98-115 | the pair's first note, or null exactly when there is none |
| DocStore.Firestore.CreateUserNote | src/lib/firebase.ts:117-146 | the upsert, returning the pair's note with the new text |
| DocStore.Firestore.UpdateUserNote | src/lib/firebase.ts:148-171 | "Note not found" exactly when the pair has no note, and nothing changes; else the stored note gets the text and the time, and the returned note is the one read before the write with the new text and its old `updatedAt` |
| DocStore.Firestore.DeleteUserNote | src/lib/firebase.ts:173-188 | always succeeds and leaves no note for the pair |
| DocStore.Firestore.GetQuizHistory | src/lib/firebase.ts:190-205 | the user's sessions, newest first, at most ten |
| DocStore.Firestore.CreateQuizSession | src/lib/firebase.ts:207-233 | appends one session under the new id and returns it |
| InitFirestore.PlatformDoc | src/lib/initFirestore.ts:38-43 | the seed entry's fields under the new document id, the entry's id as `originalId`, an empty icon stored as null |
| InitFirestore.Writes | src/lib/initFirestore.ts:37-45 | the writes a step makes, fewer than the entries exactly when the store throws first |
| InitFirestore.Seeded | src/lib/initFirestore.ts:29-45 | a non-empty collection stays; an empty one gets the seed documents in order, up to the failing write |
| InitFirestore.SeedingIsIdempotent | src/lib/initFirestore.ts:9-23 | a step that wrote anything leaves its collection as it is on every later run |
| InitFirestore.PartialSeedingSticks | src/lib/initFirestore.ts:29-45 | a step failing part way leaves a proper non-empty part of the table, which no later run completes |
| InitFirestore.Seeder.constructor | src/lib/initFirestore.ts:1-8 | the seed tables, the collections and the store's write budget as given |
| InitFirestore.Seeder.PlatformDocs | src/lib/initFirestore.ts:37-45 | one platform document per seed entry, in table order |
| InitFirestore.Seeder.CategoryDocs | src/lib/initFirestore.ts:62-69 | one category document per seed entry, in table order, the entry's id as `originalId` |
| InitFirestore.Seeder.ShortcutDocs | src/lib/initFirestore.ts:86-96 | one shortcut document per seed entry, in table order, the entry's id as `originalId` |
| InitFirestore.Seeder.Consume | src/lib/initFirestore.ts:38 | a write is accepted unless the budget is spent, and counted |
| InitFirestore.Seeder.InitializePlatforms | src/lib/initFirestore.ts:25-48 | a non-empty collection is left alone; otherwise the documents are added in order until the store throws; the step reports whether it finished |
| InitFirestore.Seeder.InitializeCategories | src/lib/initFirestore.ts:50-72 | the same for categories |
| InitFirestore.Seeder.InitializeShortcuts | src/lib/initFirestore.ts:74-99 | the same for shortcuts |
| InitFirestore.Seeder.InitializeFirestore | src/lib/initFirestore.ts:9-23 | true exactly when all three steps finish; each step runs on the budget the previous one left, and a step after one that throws leaves its collection as it was; the remaining budget is the one the last step run left; a store that never throws succeeds; a seeded store is left unchanged |
| InitFirestore.Seeder.IsFirestoreInitialized | src/lib/initFirestore.ts:101-110 | true exactly when the read succeeds and the platforms are non-empty |
| Split.SplitOn | src/lib/queryClient.ts:24 | at least one piece, and no piece holds a separator |
| Split.SplitCount | src/lib/queryClient.ts:24 | one piece more than there are separator characters |
| Split.SplitConcat | src/components/shortcut-card.tsx:70 | the pieces put back together are the input without its separators |
| Split.TokensClean | src/lib/queryClient.ts:24 | no token is empty or holds a separator |
| Split.Tokens | src/lib/queryClient.ts:24 | `split` followed by `filter(Boolean)`; its contracts are Split.TokensClean and Split.TokensConcat |
| Split.ConcatAppend | src/components/shortcut-card.tsx:70 | joining with '' distributes over concatenation |
| Split.ConcatDropsEmpty | src/components/shortcut-card.tsx:70 | dropping empty pieces does not change their concatenation |
| Split.TokensConcat | src/components/shortcut-card.tsx:70 | the tokens put back together are the input without its separators |
| Split.SplitAfterPiece | src/lib/queryClient.ts:24 | a separator-free piece, a separator and a rest split into the piece and the rest's pieces |
| Split.SplitWithoutSep | src/lib/queryClient.ts:24 | a separator-free string splits into itself |
| Split.SplitJoin | src/lib/queryClient.ts:24 | joining separator-free pieces and splitting gives the pieces back |
| Split.JoinSplit | src/lib/queryClient.ts:90 | splitting and joining with the same character gives the input back |
| QueryClient.HandleShortcuts | src/lib/queryClient.ts:59-91 | routes `[]`, `platform/:p`, `category/:c` and `search…` (all shortcuts when `q` is empty); anything else is refused with "Unknown shortcuts endpoint: " and the joined path |
| QueryClient.HandleFavorites | src/lib/queryClient.ts:94-116 | POST on the collection, a read of `:userId` with no method, DELETE of `:userId/:shortcutId`; all else refused |
| QueryClient.HandleNotes | src/lib/queryClient.ts:119-151 | POST on the collection; read with no method, PUT or DELETE of `:userId/:shortcutId`; all else refused |
| QueryClient.HandleTags | src/lib/queryClient.ts:154-161 | a read with no method and no segments; all else refused |
| QueryClient.HandleShortcutTags | src/lib/queryClient.ts:164-188 | POST on the collection, a read of two segments, DELETE of exactly three; all else refused |
| QueryClient.HandleQuizHistory | src/lib/queryClient.ts:191-199 | a read of `:userId` with no method; all else refused |
| QueryClient.HandleQuizSessions | src/lib/queryClient.ts:202-211 | POST on the collection; all else refused |
| QueryClient.SegmentsClean | src/lib/queryClient.ts:24 | no segment is empty or holds a `/` |
| QueryClient.Segments | src/lib/queryClient.ts:24 | the endpoint's path segments; its contracts are QueryClient.SegmentsClean and QueryClient.SegmentsOfPath |
| QueryClient.ApiRequest | src/lib/queryClient.ts:22-56 | `apiRequest` up to the store call; its contracts are QueryClient.InvalidEndpoint, QueryClient.UnknownResource, QueryClient.OtherErrorsUnknown and the Dispatch lemmas (every encoded operation is decoded back) |
| QueryClient.Route | src/lib/queryClient.ts:34-50 | the switch on the resource segment; its contract is QueryClient.ApiRequestOfPath |
| QueryClient.InvalidEndpoint | src/lib/queryClient.ts:26-28 | "Invalid endpoint: " + the endpoint exactly when the first segment is missing or not `api` |
| QueryClient.OtherErrorsUnknown | src/lib/queryClient.ts:34-51 | past the `api` check, every error message starts with "Unknown" |
| QueryClient.UnknownResource | src/lib/queryClient.ts:49-50 | a resource outside the seven known ones is refused by name |
| QueryClient.ExplicitGetRefused | src/lib/queryClient.ts:103-106 | an explicit 'GET' on `/api/favorites/:userId` is refused, while no method reads the favorites |
| QueryClient.SegmentsOfPath | src/lib/queryClient.ts:24 | cutting `/a/b/c` gives `[a, b, c]` back |
| QueryClient.UserSegmentParses | src/lib/queryClient.ts:104 | every user id has a segment that `parseInt` reads back |
| QueryClient.EncodedSegmentsValid | src/lib/queryClient.ts:22-211 | the path of every operation is made of valid segments |
| QueryClient.HexUserSegment | src/lib/queryClient.ts:103-104 | a favorites request without a method and with a user segment of `0x` or `0X` and hexadecimal digits asks for the user whose id those digits give in base 16 |
| QueryClient.ApiRequestOfPath | src/lib/queryClient.ts:24-50 | a path of valid segments under `api` is routed on its second segment, with the segments after it passed to that resource's handler |
| QueryClient.DispatchEncoded | src/lib/queryClient.ts:22-211 | every operation is reached by its own request: dispatching it gives the operation back |
| QueryClient.DispatchShortcuts | src/lib/queryClient.ts:59-91 | the round trip for the four shortcuts operations |
| QueryClient.DispatchFavorites | src/lib/queryClient.ts:94-116 | the round trip for the three favorites operations |
| QueryClient.DispatchNoteWrites | src/lib/queryClient.ts:119-141 | the round trip for note create and update |
| QueryClient.DispatchNoteReads | src/lib/queryClient.ts:127-148 | the round trip for note read and delete |
| QueryClient.DispatchTagWrites | src/lib/queryClient.ts:154-170 | the round trip for the tag list and adding a shortcut tag |
| QueryClient.DispatchTagReads | src/lib/queryClient.ts:172-185 | the round trip for reading and removing shortcut tags |
| QueryClient.DispatchQuiz | src/lib/queryClient.ts:191-211 | the round trip for the quiz history and a new session |
| Toasts.Dismissed | src/contexts/ToastContext.tsx:27-33 | no id or the empty id clears the list; a non-empty id leaves no toast with it |
| Toasts.DismissKeepsOthers | src/contexts/ToastContext.tsx:28-29 | a non-empty id drops exactly its toasts and keeps the others in order |
| Toasts.DismissAbsent | src/contexts/ToastContext.tsx:29 | dismissing an id no toast carries changes nothing |
| Toasts.DismissUndoesToast | src/contexts/ToastContext.tsx:22-29 | dismissing a new toast's id right after showing it gives back the list |
| Toasts.ToastProvider.constructor | src/contexts/ToastContext.tsx:20 | an empty list |
| Toasts.ToastProvider.ShowToast | src/contexts/ToastContext.tsx:22-25 | exactly one toast appended at the end, earlier ones unchanged |
| Toasts.ToastProvider.Dismiss | src/contexts/ToastContext.tsx:27-33 | the list after `dismiss` |
| ShortcutCard.RenderShortcut | src/components/shortcut-card.tsx:57-84 | text holding "sudo", "pacman" or "apt" is one block, unsplit; other text is the key row of its keys; the older client's copy (client/src/components/shortcut-card.tsx, lines 51-74) is the same |
| ShortcutCard.KeysClean | client/src/components/shortcut-card.tsx:60 | no key is empty or holds a `+` or white space, in both copies of the tokenizer |
| ShortcutCard.Keys | src/components/shortcut-card.tsx:70 | the key tokens of a shortcut text; its contracts are ShortcutCard.KeysClean and ShortcutCard.KeysConcat |
| ShortcutCard.Layout | src/components/shortcut-card.tsx:72-82 | the rendered key row; its contracts are ShortcutCard.LayoutAlternates and ShortcutCard.SeparatorCount |
| ShortcutCard.KeysConcat | src/components/shortcut-card.tsx:70 | the keys concatenate to the text with every `+` and white space removed |
| ShortcutCard.LayoutAlternates | src/components/shortcut-card.tsx:72-82 | key caps at even positions in order, `+` labels between them, 2n-1 pieces |
| ShortcutCard.SeparatorCount | src/components/shortcut-card.tsx:74-76 | one `+` label fewer than keys |
| NoteEditor.ColorClassAt | src/components/enhanced-shortcut-card.tsx:40-56 | the color name can be read back from its badge class |
| NoteEditor.ColorClass | src/components/enhanced-shortcut-card.tsx:40-56 | the `bg-<color>-100` class of a badge; its contracts are NoteEditor.ColorClassAt and NoteEditor.ColorClassesDistinct |
| NoteEditor.SaveNotice | src/components/enhanced-shortcut-card.tsx:88-134 | the toast of a finished create or update; its contract is NoteEditor.SaveNoticeTells |
| NoteEditor.SaveNoticeTells | src/components/enhanced-shortcut-card.tsx:97-131 | a save toast is titled "Error" exactly when the save failed, has no variant, and the four kind/outcome pairs raise four different toasts |
| NoteEditor.DeleteNotice | src/components/enhanced-shortcut-card.tsx:139-157 | the toast of a finished delete; its contract is NoteEditor.DeleteNoticeTells |
| NoteEditor.DeleteNoticeTells | src/components/enhanced-shortcut-card.tsx:144-154 | a delete toast is titled "Error" exactly when the delete failed, and has no variant |
| NoteEditor.CategoryColorClass | src/components/enhanced-shortcut-card.tsx:40-56 | the gray class exactly for categories other than the five known ones |
| NoteEditor.ColorClassesDistinct | src/components/enhanced-shortcut-card.tsx:40-56 | the five known categories get five different classes |
| NoteEditor.NoteCard.constructor | src/components/enhanced-shortcut-card.tsx:63-71 | no note, empty text, dialog closed, not loading |
| NoteEditor.NoteCard.SaveEnabled | src/components/enhanced-shortcut-card.tsx:282 | save is enabled exactly when the text holds a character that is not white space |
| NoteEditor.NoteCard.DeleteOffered | src/components/enhanced-shortcut-card.tsx:269-273 | delete is offered exactly while a note is loaded |
| NoteEditor.NoteCard.FetchNote | src/components/enhanced-shortcut-card.tsx:74-85 | a fetched note or null replaces the held one; a failed fetch changes nothing |
| NoteEditor.NoteCard.OpenDialog | src/components/enhanced-shortcut-card.tsx:195-198 | the dialog opens on the note's text, or on empty text |
| NoteEditor.NoteCard.CloseDialog | src/components/enhanced-shortcut-card.tsx:274-279 | the dialog closes; nothing else changes |
| NoteEditor.NoteCard.EditText | src/components/enhanced-shortcut-card.tsx:265 | only the text changes |
| NoteEditor.NoteCard.SaveNote | src/components/enhanced-shortcut-card.tsx:187-193 | update exactly when a note is loaded, else create, with the current text; loading starts |
| NoteEditor.NoteCard.FinishSave | src/components/enhanced-shortcut-card.tsx:88-134 | success shows the read-back note, closes the dialog and clears the text; failure keeps them; one toast is added; loading ends |
| NoteEditor.NoteCard.DeleteNote | src/components/enhanced-shortcut-card.tsx:137-138 | loading starts |
| NoteEditor.NoteCard.FinishDelete | src/components/enhanced-shortcut-card.tsx:139-157 | success forgets the note, closes the dialog and clears the text; failure keeps them; one toast is added; loading ends |
| NoteEditor.SavedNoteHoldsText | src/components/enhanced-shortcut-card.tsx:88-134 | after a create or an update and the read-back, the editor's note carries the saved text |
| Text.TrimEmptyIffBlank | src/components/enhanced-shortcut-card.tsx:282 | the trimmed text is empty exactly when every character is white space |
| Text.Trim | src/components/enhanced-shortcut-card.tsx:282 | `trim`; its contract is Text.TrimEmptyIffBlank |
| Text.Includes | src/pages/Home.tsx:85-87 | `includes`; its contract is Text.IncludesAt: true iff the pattern occurs at some position |
| Text.Lower | client/src/lib/shortcuts-data.ts:289 | `toLowerCase` on ASCII letters; its contracts are Text.LowerIdempotent and Catalog.SearchIgnoresCase |
| Text.IncludesAt | src/pages/Home.tsx:85-87 | `includes` holds exactly when the text occurs at some position |
| Text.LowerIdempotent | client/src/lib/shortcuts-data.ts:289 | lower-casing twice is lower-casing once |
| Text.ParseIntSpec | src/lib/queryClient.ts:104 | `parseInt` with no radix is NaN exactly when no digit of the base (sixteen after `0x` or `0X`, else ten) follows the skipped white space and sign; otherwise its sign is the sign read |
| Text.ParseInt | src/lib/queryClient.ts:104 | `parseInt` with no radix; its contracts are Text.ParseIntSpec and the ParseInt lemmas below it |
| Text.ParseIntOfNatToString | src/lib/queryClient.ts:104 | `parseInt` reads back a printed non-negative integer |
| Text.ParseIntOfNegated | src/lib/queryClient.ts:104 | `parseInt` reads back a printed negative integer |
| Text.ParseIntNoDigit | src/lib/queryClient.ts:104 | text starting with a character that is neither white space, a sign nor a digit is NaN |
| Text.ParseIntHex | src/lib/queryClient.ts:104 | after an optional sign, `0x` or `0X` followed by hexadecimal digits is read in base 16 with that sign |
| Text.ParseIntBareHexPrefix | src/lib/queryClient.ts:104 | `0x` with no digit after it is NaN |
| Text.ParseIntHexExample | src/lib/queryClient.ts:104 | `0x10` is read as 16 |
| Text.NatToStringValue | src/pages/Quiz.tsx:226 | a printed number's digits are worth the number |
| Seqs.ShufflePermutes | src/pages/Quiz.tsx:132 | the shuffle is a permutation |
| Seqs.Shuffle | src/pages/Quiz.tsx:132 | a random sort as a sequence of choices; keeps the length, and Seqs.ShufflePermutes shows it is a permutation |
| Seqs.Filter | client/src/pages/shortcuts.tsx:74 | `filter`; keeps the length bounded and every element passing, and Seqs.FilterMembers gives membership both ways |
| Seqs.FilterMembers | client/src/pages/shortcuts.tsx:74 | a value survives `filter` exactly when it occurs and passes |
| Seqs.RemoveMembers | src/contexts/FavoritesContext.tsx:48 | filtering out an id removes exactly that id |
| Seqs.RemoveAppended | src/contexts/FavoritesContext.tsx:41-48 | appending a new id and filtering it out gives back the list |
| Seqs.FindFirst | src/lib/firebase.ts:69 | the first element that passes, or none when none does |

## Left out

- I/O and the Firestore SDK: collections are in-memory sequences; `getDocs`, `addDoc`, `updateDoc` and `deleteDoc` are their effect on the sequence.
- Model outcomes as parameters: a store call's success, a failed read, the refetched note and the response status are parameters of the finish steps.
- Ids and clocks as parameters: new document ids, toast ids (`Math.random`), `Timestamp.now` and `new Date().toISOString()` are parameters.
- Shuffles: the `sort(() => 0.5 - Math.random())` calls are a shuffle driven by a choice sequence, with no claim about the distribution.
- Firestore's default document order: a collection's order is its insertion order, and a query returns matches in that order. Firestore orders by document name instead, so it also breaks ties between quiz sessions with equal `completedAt` by name; the model's `completedAt` sort (`DocStore.SortNewestFirst`, `DocStore.QuizHistory`) keeps tied sessions in insertion order.
- The seed tables of the document-store front end (src/lib/shortcuts-data.ts) are not part of this model; seeding takes them as parameters of `Seeder`. The in-memory store's seed table is transcribed in full.
- Seeding reads: a `getDocs` that throws at the start of a seeding step is not modelled; only a failing write stops a step.
- Concurrency: async handlers are a start step and a finish step that run in order; interleaved calls and React's batching of state updates are not modelled.
- URL parsing: the dispatcher takes the `q` parameter of the request's URL and the JSON body as already-parsed values; `new URL` and `JSON.parse` are not modelled.
- Store calls behind the dispatcher: an endpoint ends at the operation it names. The tag functions the dispatcher imports are not defined in src/lib/firebase.ts, so nothing gives their effect.
- server/routes.ts is not part of this model: it is request plumbing.
- Console logging and the rendering of pages, dialogs and toasts.
- The `action` element of a toast, auto-dismiss and the toaster's timers.
- The copy-to-clipboard flag and its reset; the favorite toasts of the card; `highlightText`.
- Unicode: lower-casing is limited to ASCII letters, and there is no normalisation. White space is the character set of `\s` and `trim`.
- DocStore.Firestore.AddFavorite: when it adds a document, `addFavorite` returns `{ id, userId, shortcutId }` without `createdAt`; the model returns the stored document, which carries it.
- DocStore.Firestore.CreateUserNote: when it adds a document, `createUserNote` returns `{ id, userId, shortcutId, note }` without `createdAt` and `updatedAt`; the model returns the stored document, which carries both.
- Text.ParseInt: the result is an unbounded integer; the precision JavaScript numbers lose past 2^53, and the `-0` that `parseInt("-0")` gives, are not modelled.
- Floating point: the score percentage and the score color are exact integer forms of the divisions.
- Quiz.Percentage: for no questions the source's percentage is NaN, which the model writes as None. The color follows JavaScript for that case: a zero score is red (NaN) and a positive one green (Infinity).
- Regex splitting: `split(/[\+\s]+/).filter(Boolean)` is a split on every separator character followed by dropping empty pieces, which keeps the same tokens.
- Inherited keys: the color tables looked up as `colors[category]` also find inherited keys such as `constructor`; only own keys are modelled. This holds for the home page (`HomePage`), the client shortcuts page (`Catalog.TableCategoryColor`, `ShortcutsPage.CategoryColorMatchesCatalog`) and the note card's badge (`NoteEditor.CategoryColorClass`).
- Quiz.QuizPage.StartQuiz: the failure toast ("Insuficientes shortcuts") is not modelled; the page's state is unchanged.
- Quiz.QuizPage.Complete: the save is recorded as a request in `savedSessions`; the save's own outcome and its toasts belong to the store, which is not called here.
- Favorites.FavoritesProvider.FinishToggle: the rollback is applied to the list as it is at that moment, as the source's functional update does; no other update is assumed in between.
- ClientFavorites.FavoritesClient.MutationSettled: the mutation's effect on the server and the refetch are not modelled; the list changes only when the query settles.
- MemStorage.Key: the favorites map's string key `${userId}-${shortcutId}` is modelled as the pair; that the string is injective for integers is not proved.

## Findings

| source | as written | input that shows it | evidently intended | confidence | as-written member | corrected member |
|---|---|---|---|---|---|---|
| src/pages/Quiz.tsx:176-200 | when the last answer completes the quiz, `handleQuizComplete` counts `userAnswers` from the current render, which does not yet hold the answer just appended, so the saved score leaves it out | ten questions, all answered right: the results screen shows 10 of 10, the saved session records 9 | the saved score equals the score the results screen shows | not executed | Quiz.QuizPage.SubmitAnswer (with Quiz.StaleScoreMissesLastAnswer, Quiz.StaleScoreExample) | Quiz.QuizPage.SubmitAnswerScoringAll (with Quiz.ResultsScore) |
