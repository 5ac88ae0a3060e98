# Your Kitchen — a Dafny model of the meal-planning app's client logic

Your Kitchen is a meal-planning web application. A short questionnaire
(cooking skill, diet, goals) is sent to a hosted language model, which
returns a weekly plan: seven days of meals with ingredients and
instructions, a grocery list grouped by category, a Sunday prep list and a
tip. Users then browse the week, cook a recipe step by step, tick off
groceries, swap meals and keep a cookbook of saved recipes. Profiles are
kept in browser storage or in a hosted table; a Spring backend offers the
same profile store over HTTP.

Once the network calls are set aside, what remains is small, sequential
state logic. This project models it and proves what each piece promises:

- the profile store: recipe save with de-duplication by name, recipe
  delete, the partial profile merge, and the backend's null-skipping
  update;
- the plan edits: the meal swap and the grocery-list replacement, plus
  view and route derivation;
- the grocery page: checked items, category expansion, clear-completed,
  adding an item, the categorisation cache key and fallback, category
  order and progress;
- the day view: default day, prep-time total and its `h`/`m` format,
  featured and other meals, and the weekday offset;
- the recipe page and the meal detail modal: step completion, progress,
  "already on the list" matching, and the ingredient toggles;
- the two onboarding flows: answer collection, validation, joining and
  splitting on `", "`, and the back-step restore;
- sign-up and sign-in: password strength, the email shape, and the
  ordered first-error validation chains;
- the weekly menu: per-day meal counts, category grouping, and the
  swap-request text.

Each source file is one module. `Common` and `Text` hold the shared
sequence, set and string vocabulary. Among these are JavaScript's `trim`
and `includes`, and joining and splitting on `", "`. `Domain` holds the
record shapes and the recipe-list transforms both apps share. React
components whose handlers replace state are classes: each `useState` is
a field, and each handler is a method with `modifies this`. An
asynchronous handler is split into a method that runs before the
network call and one that runs after it. The network result (a
generated plan, a swapped meal, an authentication outcome) is a
parameter of the second method.

## Model

| member | source | states |
|---|---|---|
| Domain.IngredientName | src/pages/Recipe.jsx:52-53 | An ingredient's name is the string itself or the object's `name`; there is none for a missing ingredient or an empty string, and a name given is never empty |
| Domain.InstructionsOf | src/pages/Recipe.jsx:48 | `instructions` when present (even empty), else `steps`, else the empty list |
| Domain.CharSumAppend | src/pages/Recipe.jsx:21 | The character-code sum of a concatenation is the sum of the parts' sums |
| Domain.PlaceholderIndex | src/pages/Recipe.jsx:20-23 | The placeholder image index is always a valid index into the six images, and 0 for a missing or empty name |
| Domain.PlaceholderSwapParts | src/components/MealDetailModal.jsx:18-21 | Names made of the same two parts in either order get the same placeholder image |
| Domain.WithRecipe | App.tsx:64-67 | Saving a recipe whose name is already saved (exact match) leaves the list; otherwise the recipe is prepended and the old list follows unchanged; afterwards the name is always present |
| Domain.WithRecipeIdempotent | App.tsx:66-67 | Saving the same recipe twice is saving it once |
| Domain.WithRecipeKeepsNamesUnique | App.tsx:66-67 | Saving keeps saved-recipe names pairwise distinct |
| Domain.WithoutRecipe | App.tsx:78 | Deleting keeps exactly the recipes whose id differs, in their original order |
| Domain.WithoutAbsentRecipe | src/services/databaseService.js:103 | Deleting an id no recipe carries leaves the list equal |
| Domain.WithoutRecipeLength | src/services/databaseService.js:103 | Deleting shortens the list by exactly the number of recipes carrying the id |
| Domain.ProfileWithRecipe | App.tsx:63-67 | Only the saved list of the profile changes, and it becomes the de-duplicated, prepended list; a profile already holding the name is returned unchanged |
| Domain.ProfileWithRecipeIdempotent | App.tsx:66-67 | After a save the name is present, so a second save changes nothing |
| Domain.ProfileWithoutRecipe | App.tsx:77-79 | Only the saved list changes, to the list without the recipes carrying the id |
| Domain.FindProfile | App.tsx:89 | The first profile carrying the id, or none exactly when no profile carries it |
| Domain.MapProfile | App.tsx:62-70 | Rewriting the profiles carrying an id keeps the length of the profile list |
| Domain.MapProfileOthers | App.tsx:62-70 | Every profile whose id differs is left exactly as it was |
| Domain.FindAfterMap | src/services/databaseService.js:40-44 | When the rewrite keeps ids, the profile found afterwards is the rewrite of the one found before |
| Domain.MapProfileTwice | App.tsx:62-70 | Applying an id-keeping, idempotent rewrite twice equals applying it once |
| DatabaseService.Merge | src/services/databaseService.js:41 | Keys present in the update overwrite; every absent key keeps the stored value. The id and creation time always keep theirs, because the update type has no such keys (no caller passes them) |
| DatabaseService.MergeNeutralAndIdempotent | src/services/databaseService.js:41 | An empty update changes nothing, and merging the same update twice is merging it once |
| DatabaseService.MergeThen | src/services/databaseService.js:41 | Two successive merges equal one merge of the combined update, the later keys on top |
| DatabaseService.RemoteUpdates | src/services/databaseService.js:48-52 | A column is sent exactly when its key is defined in the update, under the renamed columns `weekly_plan` and `saved_recipes`, and no other column is sent |
| DatabaseService.RemoteMatchesLocal | src/services/databaseService.js:48-73 | For updates whose keys are all defined, applying the sent columns to the stored row gives the row of the locally merged profile: the remote branch and the local branch agree |
| DatabaseService.SavedUpdateIsProfileWithRecipe | src/services/databaseService.js:85-93 | When the name is new, the store's `{ savedRecipes: [recipe, ...current] }` update yields the profile the App-level save describes |
| DatabaseService.SavedUpdateIsProfileWithoutRecipe | src/services/databaseService.js:103-104 | The store's delete update yields the profile the App-level delete describes |
| DatabaseService.LocalProfileStore.constructor | src/services/databaseService.js:10-11 | The store starts with the saved profile array |
| DatabaseService.LocalProfileStore.GetProfile | src/services/databaseService.js:10-12 | Returns the first stored profile carrying the id, and nothing exactly when none carries it; nothing is written |
| DatabaseService.LocalProfileStore.UpdateProfile | src/services/databaseService.js:38-44 | Every profile carrying the id gets the update merged in, every other profile is unchanged, the length is kept, and the first updated profile is returned |
| DatabaseService.LocalProfileStore.SaveRecipe | src/services/databaseService.js:78-94 | An unknown profile gives null and no write; a name already saved returns the profile and writes nothing; otherwise the profile with the recipe prepended is stored and returned |
| DatabaseService.LocalProfileStore.DeleteRecipe | src/services/databaseService.js:96-105 | An unknown profile gives null and no write; otherwise the profile keeps exactly the recipes whose id differs, in order |
| ProfileService.NewProfile | backend/src/main/java/com/yourkitchen/model/Profile.java:31-40 | A new entity has no id and no plan, the given creation time, name and answers, and the saved-recipe text `"[]"` |
| ProfileService.ApplyDetails | backend/src/main/java/com/yourkitchen/service/ProfileService.java:37-48 | Each non-null field among name, answers, weekly plan and saved recipes overwrites the stored one; each null field keeps it; id and creation time never change |
| ProfileService.ApplyDetailsNeutralAndIdempotent | backend/src/main/java/com/yourkitchen/service/ProfileService.java:37-48 | All-null details change nothing; applying the same details twice is applying them once |
| ProfileService.ProfileService.constructor | backend/src/main/java/com/yourkitchen/service/ProfileService.java:18-20 | The repository starts empty |
| ProfileService.ProfileService.GetAllProfiles | backend/src/main/java/com/yourkitchen/service/ProfileService.java:22-24 | Returns exactly the stored entities |
| ProfileService.ProfileService.GetProfileById | backend/src/main/java/com/yourkitchen/service/ProfileService.java:26-28 | Returns the entity stored under the id, or empty exactly when the id is not stored |
| ProfileService.ProfileService.CreateProfile | backend/src/main/java/com/yourkitchen/service/ProfileService.java:30-32 | The entity (given a generated id when it has none) is stored under its id and returned; no other entry changes |
| ProfileService.ProfileService.UpdateProfile | backend/src/main/java/com/yourkitchen/service/ProfileService.java:34-52 | An unknown id raises "Profile not found with id: …" and saves nothing; a known id stores and returns the entity with the non-null details applied, other entries unchanged |
| ProfileService.ProfileService.DeleteProfile | backend/src/main/java/com/yourkitchen/service/ProfileService.java:54-56 | Exactly that id is removed |
| ProfileService.ProfileService.DeleteAllProfiles | backend/src/main/java/com/yourkitchen/service/ProfileService.java:58-60 | The repository becomes empty |
| ProfileApp.SelectedProfile | App.tsx:89 | Without a selection no profile is current; otherwise the first profile carrying the selected id |
| ProfileApp.FindAfterAppend | App.tsx:43-45 | After appending a profile, looking up its id finds it, unless an earlier profile already carried that id |
| ProfileApp.ProfileApp.constructor | App.tsx:19-33 | A stored non-empty profile array is loaded with its first profile selected and the dashboard shown; otherwise the app starts with no profiles in onboarding |
| ProfileApp.ProfileApp.CurrentProfile | App.tsx:89 | None without a selection; otherwise the first profile whose id equals the selected id, None when none does; a profile found is one of the profiles and carries the selected id |
| ProfileApp.ProfileApp.HandleProfileComplete | App.tsx:42-47 | The new profile is appended last, selected, and the dashboard shown; when its id is new it is the current profile |
| ProfileApp.ProfileApp.HandleCreateNewProfile | App.tsx:49-52 | Onboarding is shown with no selection, so no profile is current; the profiles are untouched |
| ProfileApp.ProfileApp.HandleSwitchProfile | App.tsx:54-57 | The id is selected and the dashboard shown; the current profile is the first carrying that id |
| ProfileApp.ProfileApp.HandleSaveRecipe | App.tsx:59-71 | Without a selection nothing changes; otherwise only profiles carrying the selected id get the save, the length is kept and every other profile is identical |
| ProfileApp.ProfileApp.HandleDeleteRecipe | App.tsx:73-82 | Without a selection nothing changes; otherwise only profiles carrying the selected id lose the recipes with that id |
| ProfileApp.ProfileApp.HandleSwapMeal | App.tsx:84-87 | The request text becomes the chat input and the chat view is shown; profiles and selection are untouched |
| ProfileApp.SaveTwiceIsSaveOnce | App.tsx:62-70 | Saving the same recipe to the selected profile twice equals saving it once |
| ProfileApp.DeleteTwiceIsDeleteOnce | App.tsx:76-81 | Deleting the same recipe id twice equals deleting it once |
| WebApp.SwapInMeals | src/App.jsx:112-114 | The day keeps its meal count; every meal matching the old one by name and type becomes the new meal, and every other meal keeps its place |
| WebApp.SwapInMealsReplacesAll | src/App.jsx:112-114 | After swapping to a different meal no meal still matches the old one, and repeating the swap changes nothing |
| WebApp.SwapInPlan | src/App.jsx:107-116 | The rewrite succeeds exactly for an existing day with a meal array; then only that day's meals change, every other day and plan field is kept |
| WebApp.WithGroceries | src/App.jsx:145-148 | The grocery list is replaced and every other plan field is kept |
| WebApp.WithGroceriesLastWins | src/App.jsx:145-148 | Two replacements keep only the second list, and putting the old list back restores the plan |
| WebApp.CurrentView | src/App.jsx:163-171 | The view is the first, in the fixed order, whose id occurs in the path; no earlier id occurs; the dashboard when none occurs |
| WebApp.NavigateTarget | src/App.jsx:173-179 | Exactly the five known ids navigate, each to `'/' + id` |
| WebApp.NavigateThenCurrentView | src/App.jsx:163-179 | Navigating to a view and deriving the view from the new path gives that view back |
| WebApp.NeedsOnboarding | src/App.jsx:201 | Holds exactly when a user and a profile exist and the profile has no weekly plan |
| WebApp.ShowAppChrome | src/App.jsx:204 | Holds exactly when a user exists and the path is none of `/onboarding`, `/` and `/login` |
| WebApp.NavigatedPagesShowChrome | src/App.jsx:173-179 | Every route navigation reaches shows the chrome to a signed-in user |
| WebApp.App.constructor | src/App.jsx:20-22 | The app starts with no user and no profile |
| WebApp.App.HandleProfileComplete | src/App.jsx:57-75 | Without a user nothing changes; otherwise the answers, plan and an empty saved list are merged into the stored profile, the returned profile is loaded and the dashboard route taken |
| WebApp.App.HandleSaveRecipe | src/App.jsx:77-87 | Without a user nothing changes; otherwise an unknown profile changes nothing; a recipe whose name is already saved leaves the store's profiles as they were; a new one is prepended to the saved list of every stored profile carrying the user's id, the others unchanged; the saved profile is loaded |
| WebApp.App.HandleDeleteRecipe | src/App.jsx:89-99 | Without a user nothing changes; otherwise an unknown profile changes nothing; every stored profile carrying the user's id keeps only the recipes with another id, the others unchanged; the updated profile is loaded |
| WebApp.App.HandleSwapMeal | src/App.jsx:102-129 | Without a user or plan nothing changes; a rewrite that throws changes nothing; otherwise the swapped plan is stored and loaded |
| WebApp.App.HandleUpdateGroceries | src/App.jsx:141-160 | Without a user or plan nothing changes; otherwise the plan with only its grocery list replaced is stored and loaded |
| WebApp.App.HandleNavigate | src/App.jsx:173-179 | A known view id moves the path to its route; any other id leaves it |
| Groceries.EntryLabel | src/pages/Groceries.jsx:81 | A string entry is labelled by itself; an object by its `name`, else its `item` |
| Groceries.Keys | src/pages/Groceries.jsx:61-62 | One key text per entry, in list order |
| Groceries.CacheKeyCollision | src/pages/Groceries.jsx:61-68 | Two different lists (one item "a\|b" against items "a" and "b") share a cache key, so categorising one skips the other |
| Groceries.Fallback | src/pages/Groceries.jsx:78-84 | A failed categorisation puts every entry under `'other'` only, in order, each with its own index and original entry |
| Groceries.FallbackCoversEachIndexOnce | src/pages/Groceries.jsx:79-83 | The fallback's indices are exactly 0 … n-1, each once, in order |
| Groceries.SortedCategories | src/pages/Groceries.jsx:158-160 | The shown sections are the categories of the fixed order whose bucket is non-empty, in that order, each once, and no others |
| Groceries.UnknownCategoryHidden | src/pages/Groceries.jsx:158-160 | A bucket named outside the fixed order is never shown |
| Groceries.FallbackSections | src/pages/Groceries.jsx:78-84 | After a failed categorisation of a non-empty list exactly the `'other'` section is shown |
| Groceries.Progress | src/pages/Groceries.jsx:364 | The rounded percentage is at most 100 when no more items are checked than exist, 0 with none checked and 100 with all checked |
| Groceries.BannerAndProgress | src/pages/Groceries.jsx:364-373 | The all-checked banner implies a full bar, but 199 of 200 also shows 100% without the banner |
| Groceries.UncheckedIndices | src/pages/Groceries.jsx:125 | The unchecked indices below the length, strictly increasing, and every unchecked index is among them; clearing drops exactly one item per checked index inside the list |
| Groceries.KeepUnchecked | src/pages/Groceries.jsx:125 | The kept items are the list's items at the unchecked indices, in order |
| Groceries.KeepAllUnchecked | src/pages/Groceries.jsx:125 | With no checked index inside the list, clearing keeps the list equal |
| Groceries.NoneCheckedIndices | src/pages/Groceries.jsx:125 | With nothing checked the kept indices are 0 … n-1 |
| Groceries.GroceryPage.constructor | src/pages/Groceries.jsx:43-51 | Nothing is checked, all nine categories are expanded, no buckets and an empty cache key |
| Groceries.GroceryPage.ToggleItem | src/pages/Groceries.jsx:96-106 | Exactly the given index flips in or out of the checked set; every other field, the add-item input's visibility included, stays |
| Groceries.GroceryPage.ToggleCategory | src/pages/Groceries.jsx:109-119 | Exactly the given category flips between expanded and collapsed; every other field, the add-item input's visibility included, stays |
| Groceries.GroceryPage.ClearCompleted | src/pages/Groceries.jsx:122-129 | With nothing checked nothing happens; otherwise the unchecked items are sent in order, the checked set is emptied and the cache key reset |
| Groceries.GroceryPage.HandleAddItem | src/pages/Groceries.jsx:132-140 | Blank text is ignored; otherwise the list with the trimmed text appended is sent, the input is cleared and hidden and the cache key reset |
| Groceries.GroceryPage.RunCategorization | src/pages/Groceries.jsx:54-88 | An empty list empties the buckets; an unchanged key skips; a success stores the buckets and the key; a failure stores the fallback and keeps the old key; the checked set, expanded sections and add-item input stay |
| DayView.InitialDayIndex | src/pages/Dashboard.jsx:13-18 | 0 for an empty plan; otherwise a valid index: the first day equal to today's weekday ignoring case, else 0 |
| DayView.FirstOfType | src/pages/Dashboard.jsx:24-26 | The first meal of the lower-cased type, and none exactly when no meal has it |
| DayView.FeaturedMeal | src/pages/Dashboard.jsx:143-144 | The first dinner, else the first meal; none exactly for a day without meals |
| DayView.SecondaryMeals | src/pages/Dashboard.jsx:182 | At most two meals, lunch or breakfast, taken from the day: the first lunch (when one exists) comes first and the first breakfast (when one exists) comes last |
| DayView.OtherMeals | src/pages/Dashboard.jsx:204-206 | Exactly the meals whose lower-cased type is none of breakfast, lunch and dinner, in their order |
| DayView.FeaturedFallbackAlsoOther | src/pages/Dashboard.jsx:204-206 | A day whose meals have none of the three types shows its first meal both as the featured card and among the other meals |
| DayView.DigitRun | src/pages/Dashboard.jsx:33 | The longest all-digit prefix of a text |
| DayView.FirstDigitRun | src/pages/Dashboard.jsx:33 | A non-empty run of digits occurring in the text, and none exactly when the text has no digit |
| DayView.TotalMinutesAppend | src/pages/Dashboard.jsx:31-35 | The minutes of two lists in a row are the sum of their minutes |
| DayView.FormatMinutes | src/pages/Dashboard.jsx:36-41 | `{n}m` under an hour; `{h}h {m}m` with h = n div 60 and m = n mod 60; `{h}h` on the hour |
| DayView.FormatMinutesRoundTrip | src/pages/Dashboard.jsx:36-41 | Every printed total reads back as the same number of minutes, so distinct totals print differently |
| DayView.TotalPrepTime | src/pages/Dashboard.jsx:29-42 | `"0m"` for a day without meals; otherwise the formatted sum of each meal's first digit run, accumulated meal by meal |
| DayView.TwoDigitMinutes | src/pages/Dashboard.jsx:33-34 | An estimate starting with two digits and a non-digit contributes their two-digit value |
| DayView.OneDigitMinutes | src/pages/Dashboard.jsx:33-34 | An estimate starting with one digit and a non-digit contributes that digit |
| DayView.NoMinutes | src/pages/Dashboard.jsx:33-34 | An estimate without digits contributes 0 |
| DayView.TotalOfThree | src/pages/Dashboard.jsx:31-35 | Three meals contribute the sum of their minutes |
| DayView.ExampleFifteenMinutes | src/pages/Dashboard.jsx:31-35 | "10 minutes", "5m" and "not a time" add up to 15 minutes |
| DayView.FormatFifteen | src/pages/Dashboard.jsx:41 | 15 minutes print as "15m" |
| DayView.ExampleSeventyMinutes | src/pages/Dashboard.jsx:31-35 | "40 min" and "30 min" add up to 70 minutes |
| DayView.ExampleOneHourTen | src/pages/Dashboard.jsx:36-41 | 70 minutes are printed "1h 10m" |
| DayView.GetDayNumber | src/pages/Dashboard.jsx:45-52 | The list position index+1 exactly when the name is none of the seven weekdays ignoring case; otherwise an offset in [-6, 6] that lands inside the week |
| RecipePage.GroceryListOf | src/pages/Recipe.jsx:36 | The plan's grocery list when a profile with a plan exists, else the empty list |
| RecipePage.ListedCases | src/pages/Recipe.jsx:51-63 | A nameless ingredient is never on the list; a name added on the page always is; so is a name equal, up to case, to some entry's text |
| RecipePage.EmptyEntryListsEverything | src/pages/Recipe.jsx:60-61 | One null entry or one object without `item` makes every named ingredient count as listed, because the empty text is contained in every name |
| RecipePage.StepProgress | src/pages/Recipe.jsx:117-119 | 0 without steps or without completed steps; at most 100; 100 when all are done, and exactly when at least 99.5% are |
| RecipePage.CompletionPanelIffAllDone | src/pages/Recipe.jsx:391 | With fewer than 200 steps the completion panel shows exactly when every step is done |
| RecipePage.MissingNames | src/pages/Recipe.jsx:88-94 | No name sent was already added, and every named ingredient unlisted at render time is sent |
| RecipePage.MissingNamesRepeat | src/pages/Recipe.jsx:88-94 | Two ingredients with the same unlisted name are both sent, since every check reads the rendered state |
| RecipePage.MissingNamesComeFromUnlisted | src/pages/Recipe.jsx:88-94 | Every name sent belongs to a named ingredient of the meal that was not listed |
| RecipePage.AddingMissingListsAll | src/pages/Recipe.jsx:88-94 | Once the names sent join the added set, every named ingredient of the meal is listed |
| RecipePage.ListedAddedMore | src/pages/Recipe.jsx:62 | Adding names to the added set never un-lists an ingredient |
| RecipePage.RecipePage.constructor | src/pages/Recipe.jsx:28-36 | The page opens on the navigated meal and day with the profile's grocery list, nothing completed, nothing added, no swap in flight |
| RecipePage.RecipePage.Progress | src/pages/Recipe.jsx:117-119 | 0 without instructions or without completed steps |
| RecipePage.RecipePage.ToggleStep | src/pages/Recipe.jsx:66-76 | Exactly the given step flips in or out of the completed set; nothing else changes |
| RecipePage.RecipePage.HandleAddIngredient | src/pages/Recipe.jsx:79-85 | Nothing happens for a nameless or already listed ingredient; otherwise the name is added and sent once; afterwards a named ingredient is always listed |
| RecipePage.RecipePage.HandleAddAllIngredients | src/pages/Recipe.jsx:88-94 | The names sent are the missing names of the rendered state, in ingredient order; they all join the added set; afterwards every named ingredient is listed |
| RecipePage.RecipePage.StartSwap | src/pages/Recipe.jsx:97-100 | A swap starts exactly when none is in flight; the flag is up afterwards |
| RecipePage.RecipePage.FinishSwap | src/pages/Recipe.jsx:101-113 | With a new meal, a callback and a day index the swap is requested and the page shows the new meal; otherwise nothing is requested; the flag always comes down |
| MealDetail.EntryNameAsWritten | src/components/MealDetailModal.jsx:39-41 | The name the modal reads as written: a string entry itself, an object's `name`; none for a null entry or an empty name |
| MealDetail.EntryName | src/components/MealDetailModal.jsx:39-41 | The corrected name: as written when that gives one, else an object's `item` |
| MealDetail.GeneratedItemMissedAsWritten | src/components/MealDetailModal.jsx:38-45 | A generated grocery item naming the ingredient exactly is not recognised as written, and is by the corrected test |
| MealDetail.InListExtendsAsWritten | src/components/MealDetailModal.jsx:38-45 | The corrected test finds whatever the written one finds, and agrees with it on lists without object entries |
| MealDetail.InListCases | src/components/MealDetailModal.jsx:33-45 | A nameless ingredient is never listed; one equal, up to case, to an entry's name is |
| MealDetail.MissingNames | src/components/MealDetailModal.jsx:68-80 | With the corrected lookup (see Findings): no name sent is empty or already added, and every named ingredient neither listed nor added is sent |
| MealDetail.MissingNamesComeFromUnlisted | src/components/MealDetailModal.jsx:68-80 | With the corrected lookup (see Findings): every name sent belongs to a named, unlisted ingredient of the meal |
| MealDetail.MealDetailModal.constructor | src/components/MealDetailModal.jsx:23-24 | The modal opens on the meal and grocery list with nothing added |
| MealDetail.MealDetailModal.HandleToggleIngredient | src/components/MealDetailModal.jsx:48-66 | Nothing for a nameless ingredient; an added name is removed and reported removed; any other is added and reported added |
| MealDetail.MealDetailModal.HandleAddAllIngredients | src/components/MealDetailModal.jsx:68-80 | With the corrected lookup (see Findings): one pass that sends the missing names in order, adds them all, and leaves every named ingredient listed or added |
| MealPlanner.DayIndexOf | src/pages/MealPlanner.jsx:83-85 | The first day equal to the name ignoring case, and -1 exactly when none is |
| MealPlanner.MealsForDay | src/pages/MealPlanner.jsx:64-69 | The meals of the first matching day, or the empty list when no day matches |
| MealPlanner.ClickedDayShowsSameMeals | src/pages/MealPlanner.jsx:64-87 | The index passed on a click is the day whose meals were shown, and neither lookup depends on the case of the name |
| MealPlanner.SwapTargetDay | src/pages/MealPlanner.jsx:112-114 | The first day holding a meal with the same name and type, and -1 exactly when none does |
| MealPlanner.SwapTargetIsRewritten | src/pages/MealPlanner.jsx:112-117 | The day the planner asks to swap is always one the application can rewrite, and afterwards it holds no meal matching the old one |
| MealPlanner.MealTypeColor | src/pages/MealPlanner.jsx:94-101 | Breakfast, lunch and dinner (any case) get their own colours; the default colour exactly for a missing type or any other type |
| MealPlanner.MealTypeColorIgnoresCase | src/pages/MealPlanner.jsx:95 | Types that differ only in case share their colour |
| MealPlanner.UnplannedDayHasNoButton | src/pages/MealPlanner.jsx:306 | A weekday without a plan shows no meals and no extra "add meal" button |
| MealPlanner.MealPlannerPage.constructor | src/pages/MealPlanner.jsx:27-34 | The planner reads the profile's days (or none), with nothing selected and no swap in flight |
| MealPlanner.MealPlannerPage.StartSwap | src/pages/MealPlanner.jsx:104-107 | A swap starts exactly with a meal and none in flight |
| MealPlanner.MealPlannerPage.FinishSwap | src/pages/MealPlanner.jsx:108-125 | With a new meal and a callback the swap is requested for the first day holding the meal, if any, and the modal shows the new meal; the flag always comes down |
| Onboarding.Selections | src/pages/Onboarding.jsx:22 | The current selections of a multi-select question: the stored list, or empty when nothing is stored |
| Onboarding.AnswerTextSplits | src/pages/Onboarding.jsx:70 | A multi-select answer joined with `", "` splits back into the same selections when no option contains the separator |
| Onboarding.ValidationError | src/pages/Onboarding.jsx:42-61 | Multi-select rejects exactly a missing or empty list, single-select exactly a missing or empty value, text exactly a missing or blank answer, each with its own message |
| Onboarding.FormatAnswers | src/pages/Onboarding.jsx:68-71 | One entry per answered question, in ascending question id, each with its answer and lists joined by `", "` |
| Onboarding.FormattedIdsDistinct | src/pages/Onboarding.jsx:68-71 | No two formatted entries share a question id |
| Onboarding.GenerationErrorMessage | src/pages/Onboarding.jsx:90-99 | One of four messages, chosen by the first matching group of keywords in the lower-cased error message: key, network, quota, else the generic one |
| Onboarding.GenerationErrorCases | src/pages/Onboarding.jsx:90-99 | An error without a message gets the generic text, and the choice ignores the case of the message |
| Onboarding.StepLabelBounds | src/pages/Onboarding.jsx:16-18 | The step counter never exceeds the total, the last question shows the total and a full bar, and the bar never shrinks as the step grows |
| Onboarding.OnboardingPage.constructor | src/pages/Onboarding.jsx:7-10 | The first question, no answers, no error, not generating |
| Onboarding.OnboardingPage.StoreFits | src/pages/Onboarding.jsx:26-34 | Storing an answer of the current question's kind keeps every stored answer of its question's kind |
| Onboarding.OnboardingPage.HandleOptionSelect | src/pages/Onboarding.jsx:20-31 | Multi-select toggles the option in the current list (every copy removed, or appended); single-select stores the option; only the current question's answer changes and the error clears |
| Onboarding.OnboardingPage.HandleInput | src/pages/Onboarding.jsx:33-36 | Only the current question's answer changes, to the typed text; the error clears |
| Onboarding.OnboardingPage.HandleNext | src/pages/Onboarding.jsx:38-106 | A rejected answer sets its message and leaves the step; otherwise the error clears and the step advances by one, or on the last question the formatted answers are submitted and generation starts |
| Onboarding.OnboardingPage.FinishGeneration | src/pages/Onboarding.jsx:74-102 | A generated plan yields the profile named "Chef" with the formatted answers, the plan and no saved recipes; a failure sets the chosen message; generation always ends |
| Onboarding.OnboardingPage.HandleBack | src/pages/Onboarding.jsx:116 | The step goes back by one only when it is above 0; nothing else changes |
| Questionnaire.RecordAnswer | components/Onboarding.tsx:23 | The new answer is last, no earlier entry has its question id, every other answer stays and nothing else is kept |
| Questionnaire.RecordAnswerKeepsOrder | components/Onboarding.tsx:23 | The answers kept stay in their original relative order |
| Questionnaire.RecordAnswerTwice | components/Onboarding.tsx:23 | Answering the same question twice keeps only the second answer, as if answered once |
| Questionnaire.RecordAnswerOnce | components/Onboarding.tsx:23 | After answering, exactly one entry carries the question id |
| Questionnaire.FindAnswer | components/Onboarding.tsx:84 | The first entry carrying the question id, and none exactly when no entry carries it |
| Questionnaire.FindRecorded | components/Onboarding.tsx:23-84 | Looking up a question just answered finds that answer |
| Questionnaire.MultiAnswer | components/Onboarding.tsx:45-57 | The joined selections, plus `", "` and the trimmed other text when that is not blank (alone when nothing is selected); empty exactly when nothing is selected and the other text is blank |
| Questionnaire.RestoreSelections | components/Onboarding.tsx:88-92 | The restored selections are parts of the stored answer that are known options |
| Questionnaire.RestoreOther | components/Onboarding.tsx:95-100 | Without a free-text option the restored other text is empty |
| Questionnaire.JoinNonEmpty | components/Onboarding.tsx:46 | Joining non-empty selections gives the empty text exactly for no selections |
| Questionnaire.RestoreRoundTrip | components/Onboarding.tsx:45-100 | When no option contains `", "` and the other text is neither an option nor contains the separator, going back restores exactly the submitted selections and trimmed other text |
| Questionnaire.OtherMatchingAnOptionBecomesASelection | components/Onboarding.tsx:45-100 | Other text equal to an option comes back as a selection, and the other field comes back empty |
| Questionnaire.QuestionnaireWizard.constructor | components/Onboarding.tsx:12-17 | The first question, no answers, empty inputs, not generating |
| Questionnaire.QuestionnaireWizard.HandleAnswer | components/Onboarding.tsx:22-34 | The answer is recorded for the current question, the inputs are cleared, and the step advances, or on the last question the new answer list is handed to generation |
| Questionnaire.QuestionnaireWizard.ToggleSelection | components/Onboarding.tsx:36-43 | The option is removed from the selections when present (every copy), else appended; nothing else changes |
| Questionnaire.QuestionnaireWizard.HandleMultiSubmit | components/Onboarding.tsx:45-58 | An empty combined answer changes nothing; otherwise the combined answer is recorded as by `handleAnswer` |
| Questionnaire.QuestionnaireWizard.FinishOnboarding | components/Onboarding.tsx:60-77 | A generated plan yields the profile named "My Kitchen" with the answers and the plan; a failure raises the alert and ends generation; the step, answers and inputs stay |
| Questionnaire.QuestionnaireWizard.HandleBack | components/Onboarding.tsx:79-106 | At the first question nothing changes; otherwise the step goes back by one and the previous answer is restored into the selections and other text, or into the text input |
| Common.Toggle | src/pages/Groceries.jsx:96-106 | The set with exactly the given element's membership flipped |
| Common.ToggleTwice | src/pages/Recipe.jsx:66-76 | Flipping the same element twice restores the set |
| Common.ToggleInList | components/Onboarding.tsx:36-43 | The element is in the result exactly when it was not in the list; other elements keep their membership; an absent one is appended; a present one is removed with every copy and the rest keep their order |
| Common.ToggleInListTwice | src/pages/Onboarding.jsx:23-25 | Toggling an absent option twice restores the list |
| Common.RoundPercent | src/pages/Groceries.jsx:364 | The integer nearest to the exact ratio 100·c/t for t > 0, halves rounded up; this is what `Math.round(c / t * 100)` is meant to give, but it can be one more than what the doubles give (see Left out) |
| Common.RoundPercentRange | src/pages/Groceries.jsx:364 | For c ≤ t the percentage is at most 100, 0 for c = 0 and 100 for c = t |
| Common.RoundPercentFull | src/pages/Recipe.jsx:117-119 | The percentage is 100 exactly when at least 99.5% is done, and, below 200 items, exactly when all are done |
| Common.RoundPercentMonotone | src/pages/Recipe.jsx:118 | More completed steps never show less progress |
| Text.Trim | src/pages/Groceries.jsx:133-135 | The text with a leading and a trailing run of whitespace removed and nothing else: a slice of the original preceded and followed only by whitespace, with neither end whitespace; empty exactly when the text is blank |
| Text.TrimIdempotent | src/pages/Groceries.jsx:135 | Trimming twice is trimming once |
| Text.SplitJoin | components/Onboarding.tsx:46-88 | Splitting on `", "` undoes joining with `", "` for parts that do not contain it |
| Text.DecimalRoundTrip | src/pages/Dashboard.jsx:34-41 | The printed decimal of a number reads back as that number |
| Login.Score | src/pages/Login.jsx:7-19 | The strength score is at most 5 |
| Login.CountFive | src/pages/Login.jsx:17 | The number of passing checks is the sum of one per passing check among length, upper case, lower case, digit and special character |
| Login.ScoreExtremes | src/pages/Login.jsx:9-17 | The score is 5 exactly when all five checks pass, and 0 exactly when none does |
| Login.CalculatePasswordStrength | src/pages/Login.jsx:7-20 | The checks are the five character-class and length tests, and the score counted one check at a time equals the number that pass |
| Login.StrengthLabel | src/pages/Login.jsx:22-28 | Weak exactly for a score of at most 1, Excellent exactly above 4, and Fair, Good, Strong for 2, 3, 4 |
| Login.StrengthLabelMonotone | src/pages/Login.jsx:22-28 | A higher score never gets a lower label, and the label is Good or better exactly when the score is at least 3 |
| Login.IsValidEmailMatchesPattern | src/pages/Login.jsx:75-77 | The scanning check accepts exactly the texts the pattern accepts: no whitespace or `@` apart from one `@` with a non-empty local part, and a `.` inside the domain that is neither its first nor last character |
| Login.ValidEmailMatches | src/pages/Login.jsx:76 | Every text the check accepts matches the pattern |
| Login.MatchingEmailValid | src/pages/Login.jsx:76 | Every text matching the pattern is accepted by the check |
| Login.FirstAtIndex | src/pages/Login.jsx:76 | An `@` preceded only by plain characters is the first `@` of the text |
| Login.FirstFailure | src/pages/Login.jsx:84-125 | No error exactly when every check passes; otherwise the message of a failing check |
| Login.FirstFailureIsFirst | src/pages/Login.jsx:84-125 | The reported message is that of the first failing check in order |
| Login.AllPassNine | src/pages/Login.jsx:84-125 | A nine-check chain passes exactly when each of its nine checks does |
| Login.RegisterAccepts | src/pages/Login.jsx:84-125 | Registration reaches sign-up exactly when the trimmed name has at least 2 characters, the email matches the pattern, the password has at least 8 characters and a score of at least 3, and the confirmation equals it |
| Login.StrongPasswordClasses | src/pages/Login.jsx:112 | A password scoring at least 3 has at least two of the four character classes (upper case, lower case, digit, special), whatever its length |
| Login.RegisterNameGiven | src/pages/Login.jsx:84-130 | A registration that passes has a non-empty name, so the `'Chef'` fallback never applies |
| Login.ValidEmailNotBlank | src/pages/Login.jsx:94-101 | An email matching the pattern is never blank, so the empty-email check cannot fire after it |
| Login.ShortPasswordMessage | src/pages/Login.jsx:108-111 | With a valid name and email, a non-empty password shorter than 8 characters reports the length message |
| Login.LoginAccepts | src/pages/Login.jsx:181-194 | Sign-in proceeds exactly when the email matches the pattern and the password is non-empty; a blank email reports the missing-email message |
| Login.MessageOr | src/pages/Login.jsx:70 | `message \|\| fallback` is never empty when the fallback is not |
| Login.SignUpErrorMessage | src/pages/Login.jsx:136-147 | The first matching keyword group picks the message: "already registered"/"already exists", then "invalid email", "weak password", "rate limit"; with none, the error's own text or the generic fallback; never empty |
| Login.SignInErrorMessage | src/pages/Login.jsx:202-213 | The first matching keyword group picks the message: "invalid login"/"invalid credentials", then "email not confirmed", "too many requests"/"rate limit", "user not found"; with none, the error's own text or the generic fallback; never empty |
| Login.MissingMessageFallbacks | src/pages/Login.jsx:136-147 | An error without a message gets the generic sign-up text and the generic sign-in text |
| Login.UnrecognisedSignUpMessageShown | src/pages/Login.jsx:145-146 | A non-empty error message matching none of the keywords is shown as it is |
| Login.LoginPage.constructor | src/pages/Login.jsx:34-48 | Sign-in mode unless the mode parameter is `signup`; the register step, empty fields, no cooldown, no error, not loading |
| Login.LoginPage.Edit | src/pages/Login.jsx:38-41 | Typing replaces the four fields and nothing else |
| Login.LoginPage.HandleRegisterSubmit | src/pages/Login.jsx:79-127 | A failing chain sets the first error and sends nothing; a passing one clears the error, starts loading and sends the email, password and name |
| Login.LoginPage.FinishRegister | src/pages/Login.jsx:129-150 | Success moves to the verify step with a 60-second cooldown; failure sets the chosen message; loading always ends |
| Login.LoginPage.HandleLoginSubmit | src/pages/Login.jsx:176-196 | A failing chain sets the first error and does not sign in; a passing one clears the error and starts loading |
| Login.LoginPage.FinishLogin | src/pages/Login.jsx:198-216 | Success navigates to `/dashboard`; failure sets the chosen message; loading always ends; the mode, step, cooldown and form fields stay |
| Login.LoginPage.HandleResendEmail | src/pages/Login.jsx:62-67 | A resend goes out exactly when the cooldown is 0, and then the error clears; the mode, step, cooldown, loading flag and form fields stay |
| Login.LoginPage.FinishResend | src/pages/Login.jsx:66-71 | Success restarts the 60-second cooldown; failure sets the message or its fallback; the mode, step, loading flag and form fields stay |
| Login.LoginPage.Tick | src/pages/Login.jsx:55-60 | Each second the cooldown drops by one until it reaches 0; everything else stays |
| Login.LoginPage.ShowRegister | src/pages/Login.jsx:277 | The registration form at the register step, with no error; the cooldown, loading flag and form fields stay as typed |
| Login.LoginPage.ShowLogin | src/pages/Login.jsx:374 | The sign-in form, with no error; the step, cooldown, loading flag and form fields stay as typed |
| WeeklyMenu.MealCount | components/Dashboard.tsx:82 | A day with missing meals counts 0; otherwise its number of meals |
| WeeklyMenu.EmptyDayMessage | components/Dashboard.tsx:136 | "No meals scheduled." shows exactly when the count reads 0 |
| WeeklyMenu.CategoryList | components/Dashboard.tsx:191 | Each category once, every item's category present, in order of each category's first item |
| WeeklyMenu.GroupSizesSnoc | components/Dashboard.tsx:195 | One more item adds one to the sizes of distinct categories exactly when its category is among them |
| WeeklyMenu.CategoryGroupsPartition | components/Dashboard.tsx:191-198 | The counts shown beside the categories add up to the length of the grocery list, so every item is counted under exactly one category |
| WeeklyMenu.SwapRequestText | components/Dashboard.tsx:24-26 | The request text is the fixed sentence around the day and the meal name |
| WeeklyMenu.SwapRequestDeterminesMeal | components/Dashboard.tsx:25 | For one day, different meal names give different request texts |
| WeeklyMenu.WeeklyMenuView.constructor | components/Dashboard.tsx:11-12 | The menu tab with nothing selected |
| WeeklyMenu.WeeklyMenuView.SelectTab | components/Dashboard.tsx:54-67 | The chosen tab becomes active; the selection stays |
| WeeklyMenu.WeeklyMenuView.OpenMeal | components/Dashboard.tsx:130 | The meal is selected with its day; the tab stays |
| WeeklyMenu.WeeklyMenuView.CloseMeal | components/Dashboard.tsx:217 | The selection is cleared; the tab stays |
| WeeklyMenu.WeeklyMenuView.HandleSwapRequest | components/Dashboard.tsx:24-26 | The request text for that day and meal; nothing changes |
| WeeklyMenu.WeeklyMenuView.SwapSelected | components/Dashboard.tsx:278-282 | The request for the selected meal and its day, after which the selection is cleared |

## Left out

- Language-model calls are not modelled: plan generation, meal swap and grocery categorisation. Their prompts, response schemas and JSON parsing are foreign code. Their results enter the model as parameters: `Generated`, `Option<PlannedMeal>` and `Option<Buckets>`, where `None` or `Failure` stands for a thrown error.
- The authentication service (sign-up, sign-in, resend) is outside the model. Its outcome is the `AuthOutcome` parameter of the `Finish…` methods in `Login`.
- `DatabaseService.RemoteMatchesLocal`: an update field is either absent or holds a value. A key present with the value `undefined` cannot be expressed. For such a key the two branches of `updateProfile` disagree: the local spread copies `undefined`, while the remote branch skips the key through its `!== undefined` tests. No caller in this code passes such a key.
- Of the hosted database, only the field selection and renaming of the remote `updateProfile` branch is modelled. The network round trip, `getProfile`'s row mapping and the Spring repository are not. Storage is an in-memory sequence (`LocalProfileStore`) or map (`ProfileService`).
- A failing remote update is not modelled, because the local store never throws. The `catch` branches of the App component's handlers that follow such a failure are therefore unmodelled too. One example is the fallback `setProfile(newProfileData)` in `handleProfileComplete`.
- Asynchronous handlers are split at the `await` into a start method and a finish method. Interleavings are not modelled: two overlapping requests, a state update landing after another handler ran, and React's batching of `setState`.
- Clocks and randomness become parameters:
  - the creation time (`now`) and the generated profile id;
  - today's weekday name and day of the week in `DayView`;
  - the one-second resend timer, which is the `Tick` method.
- Calendar arithmetic is not modelled: `weekDates`, `headerDate`, `isToday`, and the date `getDayNumber` finally returns. `DayView.GetDayNumber` stops at the weekday offset.
- Progress bar widths computed in floating point are not modelled, including `getStepInfo` in the sign-in page and its constant of 15 total steps. Only the rounded integer percentages are modelled, as `(200·c + t) div (2·t)`.
- `Common.RoundPercent` rounds the exact quotient. JavaScript rounds the double product `c / t * 100`, which can fall just below a half. In those cases the page shows one less than the model: 23 of 40 gives 57.49999999999999, shown as 57 where the model gives 58, and 29 of 200 shows 14 where the model gives 15. `Groceries.Progress`, `RecipePage.StepProgress` and `RecipePage.RecipePage.Progress` inherit this. Their bounds (0 when nothing is done, at most 100, exactly 100 when everything is done) hold for the doubles too.
- `Login.RegisterChecks`, `Login.RegisterAccepts`, `Login.Checks`, `Domain.CharSum` and `Domain.PlaceholderIndex`: the source counts lengths (`password.length`, `name.trim().length`) and character codes (`split('')` with `charCodeAt`) in UTF-16 code units. The model counts Unicode code points. The two agree on text inside the Basic Multilingual Plane and differ on characters outside it, such as emoji. For example, the name "😀" has length 2 in the source, so it passes the two-character check, but length 1 in the model, so it fails there. Its placeholder index is 1 in the source and 4 in the model.
- `Onboarding.StepLabelBounds`: the onboarding progress bar uses the unrounded quotient. It is stated over the rounded percentage, so it is weaker than the source for widths that differ by less than half a percent.
- `toLowerCase` is modelled on ASCII letters only, with no Unicode case mapping. Whitespace for `trim` and `\s` is the fixed set of JavaScript whitespace characters in `Text.IsSpace`.
- The question table in constants.ts is not part of this model. Both onboarding flows take their questions as a parameter.
- `Onboarding.FormatAnswers` keeps question ids as integers. `Object.entries` turns them into their decimal strings; integer keys are listed in ascending order, as modelled.
- `Onboarding.OnboardingPage.HandleOptionSelect` and `HandleInput` require an answer of the current question's kind. A multi-select question holding a plain string (possible only through a mismatched question table) is not modelled.
- The back button of the sign-in page's verification step (`setStep('register')`, src/pages/Login.jsx:304) is not modelled.
- The effect in App.tsx:35-40 that writes the profiles to local storage whenever they change (when there is at least one) is not modelled. Reading them back at start-up is modelled in `ProfileApp.ProfileApp.constructor`.
- `handleVerifySubmit` in src/pages/Login.jsx is not modelled: it refers to `otpCode` and `verifyOtp`, which the file never defines.
- `ProfileService.ProfileService.GetAllProfiles` returns the stored entities as a set, because the repository's list order is the database's.
- `WeeklyMenu.CategoryList` reads a category from item objects only. A string entry has no category (`undefined`). A `null` entry, on which the page would throw, is given none as well.
- `MealDetail.MissingNames`, `MealDetail.MissingNamesComeFromUnlisted`, `MealDetail.MealDetailModal.IsInGroceryList` and `MealDetail.MealDetailModal.HandleAddAllIngredients` decide "listed" with the corrected lookup `MealDetail.InList` (an entry's `name`, else its `item`), not the written `.name`-only test `MealDetail.InListAsWritten`. On a list holding a generated item `{ item: "Chicken breast" }` and the ingredient "chicken breast", the source's "add all" sends the name and the model sends nothing. On lists without object entries the two agree (`MealDetail.InListExtendsAsWritten`).
- `Groceries.GroceryPage.RunCategorization` stores the buckets the service returns as they are. Whether they cover every index is up to the service and is not modelled.
- Presentation-only files are not modelled: the sidebar, the mobile navigation, the landing page, the recipe books, the profile selector, and the quick-meal chat with its image generation.
- Markup, styling and the icon and colour tables are not modelled, except the meal-type colour and the grocery category order.
- The backend's HTTP controllers only map status codes, and are not modelled.

## Findings

| source | as written | input that shows it | evidently intended | confidence | as-written member | corrected member |
|---|---|---|---|---|---|---|
| src/components/MealDetailModal.jsx:40 | An object grocery entry is named by its `name` field only | A generated plan's grocery item `{ item: "Chicken breast", category: "Protein" }` and the ingredient `{ name: "chicken breast" }`: the ingredient is shown as missing and "add all" adds it again. The symptom is latent as the pages stand: the planner opens the modal only with the new meal after a swap (src/pages/MealPlanner.jsx:118), and meal cards navigate to the recipe page instead | Read `name`, else `item`, as the grocery page and the recipe page do (generated items carry `item`) | not executed | MealDetail.GeneratedItemMissedAsWritten | MealDetail.EntryName |
