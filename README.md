# Niagara: Nature Quest — state layer model

A Dafny model of the state layer of the Niagara: Nature Quest app, a React
Native client. The app's screens share one on-device key-value store
(AsyncStorage). Five screens keep state in memory and synchronise it with
that store:

- **Quests** (`QuestsScreen.tsx`): a static catalog of six quizzes with two
  questions each. A quiz session holds the selected quest and the current
  question index. A completion map `id -> true` is persisted under
  `completedQuests`.
- **Albums** (`AlbumsScreen.tsx`): a list of photo uris under `albumPhotos`.
- **Map** (`MapScreen.tsx`): a list of waterfalls under `customWaterfalls`,
  seeded with two fixed records. It also has an add-waterfall form with
  validation.
- **Profile** (`ProfileScreen.tsx`): name, last name and avatar under three
  separate keys, plus a logout that clears the whole store.
- **Home** (`HomeScreen.tsx`): a counter of completed quests.

The store is the class `Store.KvStore` over a `map<string, Value>`. Each
read, write and clear takes the outcome of the asynchronous call as a
`bool` parameter, so every handler can be followed down its failure path.
Each screen is a class that holds a reference to the shared store and has
the screen's `useState` fields as its fields. Handlers are methods whose
postconditions give the complete new state, in memory and in the store, as a
function of the old state and the outcomes. The pure parts are functions
with lemmas about them:

- the list `filter`, in `Sequences`;
- the completion-map spread;
- the form guards;
- the catalog.

Foreign inputs are parameters:

- the image picker is a `Pick` value (`Picked(uri)`, `Cancelled` or
  `PickFailed`);
- `Date.now()` is an `int`;
- `parseFloat`/`isNaN` is a function `string -> Option<real>`.

`Scenarios` holds client runs that cross handlers and screens.

Where the code departs from what the app evidently intends, the model
follows the code:

- Pressing a quest card (`QuestsScreen.tsx:252`) and "Back to Quests"
  (`QuestsScreen.tsx:238`) do not reset the question index. Leaving a quest
  after its first answer and then opening another one starts the new quest
  at its second question (`Scenarios.ExitKeepsQuestionIndex`). The index
  stays in range only because every quest has exactly two questions
  (`Quests.QuestsScreen.Valid`, `Quests.QuestsScreen.IndexInRange`).
- The completion map changes in memory only after its write succeeds.
  Photos and waterfalls change in memory before the write and stay changed
  when it fails.
- A profile save skips a null avatar, so a later load can bring back an
  older stored avatar (`Scenarios.SaveWithoutAvatarThenLoad`). A load right
  after a save therefore keeps all three fields only under the condition
  stated in `Scenarios.SaveThenLoad`.
- Logout clears the store, but the other screens keep their in-memory copy.
  A load that finds the key absent leaves it as it was
  (`Scenarios.LogoutClearsEveryScreen`). The quest screen reads completions
  only when it is first shown, so the next completion writes the cleared
  entries back (`Scenarios.CompletionAfterLogout`).

## Model

| member | source | states |
|---|---|---|
| `Store.KvStore.GetItem` | src/screen/AlbumsScreen.tsx:33 | a read fails exactly when the call rejects, is absent exactly when the key is missing, and otherwise returns the stored value; it never changes the store |
| `Store.KvStore.SetItem` | src/screen/AlbumsScreen.tsx:25 | a successful write replaces that one key; a failed write changes nothing |
| `Store.KvStore.Clear` | src/screen/ProfileScreen.tsx:70 | a successful clear removes every key; a failed one changes nothing |
| `Sequences.Filter` | src/screen/AlbumsScreen.tsx:69 | filtering never lengthens a list |
| `Sequences.FilterAppend` | src/screen/AlbumsScreen.tsx:69 | filtering distributes over concatenation, so kept elements keep their relative order |
| `Sequences.FilterSnoc` | src/screen/AlbumsScreen.tsx:69 | filtering a list with one element appended equals filtering the list and then appending that element if it is kept |
| `Sequences.FilterMembership` | src/screen/MapScreen.tsx:116-118 | an element is in the result exactly when it is in the input and the predicate keeps it |
| `Sequences.FilterCount` | src/screen/AlbumsScreen.tsx:69 | a kept element keeps its multiplicity; a dropped element loses every copy |
| `Sequences.FilterKeepsAll` | src/screen/AlbumsScreen.tsx:69 | when every element is kept the list comes back equal |
| `Sequences.FilterKeepsDistinct` | src/screen/MapScreen.tsx:116-118 | filtering cannot create two elements with the same key |
| `Quests.Catalog` | src/screen/QuestsScreen.tsx:69-212 | the catalog has six quests; their ids are distinct and drawn from "1".."6"; each has two questions whose correct answer is one of its options |
| `Quests.WaterfallExplorer` | src/screen/QuestsScreen.tsx:70-94 | quest "1" is well formed (two questions, each answer among its options) |
| `Quests.EcoProtector` | src/screen/QuestsScreen.tsx:95-113 | quest "2" is well formed |
| `Quests.WildlifeObserver` | src/screen/QuestsScreen.tsx:114-133 | quest "3" is well formed |
| `Quests.SurvivalSkills` | src/screen/QuestsScreen.tsx:134-163 | quest "4" is well formed |
| `Quests.GreenEnergy` | src/screen/QuestsScreen.tsx:164-187 | quest "5" is well formed |
| `Quests.ClimateChangeAwareness` | src/screen/QuestsScreen.tsx:188-211 | quest "6" is well formed |
| `Quests.CatalogQuest` | src/screen/QuestsScreen.tsx:247-252 | any quest the list offers has the catalog shape: two questions, answers among options, a catalog id |
| `Quests.CompletionAfter` | src/screen/QuestsScreen.tsx:54-57 | the new map has the old keys plus the quest id, maps the id to true and keeps every other entry; re-completing a quest leaves the map equal |
| `Quests.CompletionAfterOk` | src/screen/QuestsScreen.tsx:54-57 | completing a catalog quest keeps every entry true and every key a catalog id |
| `Quests.QuestsScreen.constructor` | src/screen/QuestsScreen.tsx:14-16 | a new screen has no quest selected, index 0 and an empty completion map |
| `Quests.QuestsScreen.IndexInRange` | src/screen/QuestsScreen.tsx:48 | while a quest is selected, the question index is below its question count |
| `Quests.QuestsScreen.Current` | src/screen/QuestsScreen.tsx:48 | the current question belongs to the selected quest and its answer is one of its options |
| `Quests.QuestsScreen.LoadCompleted` | src/screen/QuestsScreen.tsx:22-31 | the map is replaced by the stored map when there is one; an absent key or a failed read keeps it; the session is untouched |
| `Quests.QuestsScreen.SaveCompleted` | src/screen/QuestsScreen.tsx:33-43 | the in-memory map becomes the written map only when the write succeeds |
| `Quests.QuestsScreen.Select` | src/screen/QuestsScreen.tsx:252 | the pressed quest becomes selected; the index and the map are left as they were |
| `Quests.QuestsScreen.Back` | src/screen/QuestsScreen.tsx:238 | no quest is selected afterwards; the index and the map are left as they were |
| `Quests.QuestsScreen.AnswerSelection` | src/screen/QuestsScreen.tsx:45-67 | with no quest nothing changes; a wrong option changes nothing and signals "incorrect"; a correct non-last answer advances the index by one and keeps the quest; a correct last answer records the completion (in memory only if the write succeeds), resets the session to no quest and index 0, and signals "completed"; completion never removes or falsifies an entry |
| `Albums.WithoutPhoto` | src/screen/AlbumsScreen.tsx:69 | the result keeps exactly the photos other than the uri, with their multiplicities, and drops every copy of the uri; an absent uri gives an equal list |
| `Albums.DeleteAfterAddCommutes` | src/screen/AlbumsScreen.tsx:53-69 | deleting u after adding v (v ≠ u) equals adding v after deleting u |
| `Albums.DeleteAfterAddSame` | src/screen/AlbumsScreen.tsx:53-69 | deleting a uri just added gives the earlier list without that uri |
| `Albums.AlbumsScreen.constructor` | src/screen/AlbumsScreen.tsx:16 | a new screen starts with no photos |
| `Albums.AlbumsScreen.LoadPhotos` | src/screen/AlbumsScreen.tsx:31-40 | the list is replaced only when the key holds a list; an absent key or a failed read keeps it; a failed read raises the load alert |
| `Albums.AlbumsScreen.SavePhotos` | src/screen/AlbumsScreen.tsx:23-29 | a successful write stores the list; a failed one stores nothing and raises the save alert |
| `Albums.AlbumsScreen.AddPhoto` | src/screen/AlbumsScreen.tsx:45-56 | a cancelled or failed pick changes neither the list nor the store; a picked uri is appended at the end before the write and stays appended if the write fails; after a successful write the store holds the in-memory list |
| `Albums.AlbumsScreen.DeletePhoto` | src/screen/AlbumsScreen.tsx:68-72 | the list drops every copy of the uri; after a successful write the store holds the in-memory list; a failed write keeps the new list in memory |
| `Waterfalls.Seed` | src/screen/MapScreen.tsx:20-39 | the seed is two records with ids 1 and 2 |
| `Waterfalls.ValidateRequiredFirst` | src/screen/MapScreen.tsx:75-91 | with an empty name, description or image the form is refused as incomplete whatever the coordinates parse to, so that check takes precedence over the coordinate check |
| `Waterfalls.ValidateParserLocal` | src/screen/MapScreen.tsx:75-91 | the verdict depends on `parseFloat` only through its values on the two coordinate strings |
| `Waterfalls.EmptyFormRefused` | src/screen/MapScreen.tsx:79-107 | the blank form that an accepted submission leaves behind is refused as incomplete for every parser |
| `Waterfalls.WithoutId` | src/screen/MapScreen.tsx:116-118 | the result keeps exactly the records whose id differs, each as many times as before, and drops every record with that id; an absent id gives an equal list; unique ids stay unique |
| `Waterfalls.DeleteAfterAddCommutes` | src/screen/MapScreen.tsx:93-118 | deleting an id after adding a record with another id equals adding the record after deleting |
| `Waterfalls.DeleteAfterAddSame` | src/screen/MapScreen.tsx:93-118 | deleting the id of a record just added gives the earlier list without that id |
| `Waterfalls.AddKeepsUniqueIds` | src/screen/MapScreen.tsx:93-96 | with a clock ahead of every stored id, an added record keeps ids unique |
| `Waterfalls.MapScreen.constructor` | src/screen/MapScreen.tsx:20-47 | a new screen holds the seed, a hidden modal and an empty form |
| `Waterfalls.MapScreen.LoadWaterfalls` | src/screen/MapScreen.tsx:64-73 | the list is replaced only when the key holds a list; an absent key or a failed read keeps it (the seed when nothing was stored) |
| `Waterfalls.MapScreen.SaveWaterfalls` | src/screen/MapScreen.tsx:53-62 | a successful write stores the list; a failed one stores nothing and raises the save alert |
| `Waterfalls.MapScreen.AddCustomWaterfall` | src/screen/MapScreen.tsx:75-108 | a refused form changes nothing (list, store, modal, form) and raises "fill in all fields" before "invalid coordinates"; an accepted form appends exactly one record with id = now, the parsed coordinates and the form's other fields, keeps it in memory if the write fails, closes the modal and resets every form field to "" |
| `Waterfalls.MapScreen.DeleteWaterfall` | src/screen/MapScreen.tsx:115-120 | the list drops every record with the id; after a successful write the store holds it; a failed write is not rolled back |
| `Waterfalls.MapScreen.SelectImage` | src/screen/MapScreen.tsx:126-135 | a picked image changes only the form's image field; a cancelled or failed pick changes nothing |
| `Profile.StoredTextAfterWrite` | src/screen/ProfileScreen.tsx:30-42 | a key read back after `setItem` gives the string written, except that an empty string reads as nothing stored (the `if (stored)` test); every other key reads as before |
| `Profile.StoredTextAfterClear` | src/screen/ProfileScreen.tsx:26-32 | after `clear()` every key reads as nothing stored |
| `Profile.ProfileScreen.constructor` | src/screen/ProfileScreen.tsx:17-19 | a new screen has an empty name and last name and no avatar |
| `Profile.ProfileScreen.LoadProfile` | src/screen/ProfileScreen.tsx:25-36 | if any of the three reads fails no field changes; otherwise each field takes its stored non-empty string and keeps its value otherwise |
| `Profile.ProfileScreen.SaveProfile` | src/screen/ProfileScreen.tsx:38-47 | writes name, then last name, then the avatar only when it is set; the first failing write stops the later ones while earlier writes persist; the fields never change |
| `Profile.ProfileScreen.SelectAvatar` | src/screen/ProfileScreen.tsx:49-62 | only a picked image changes the avatar, and nothing is written |
| `Profile.ProfileScreen.Logout` | src/screen/ProfileScreen.tsx:69-74 | a successful clear empties the whole store and then resets name, last name and avatar; a rejected clear changes nothing |
| `Home.CountAtMostCatalog` | src/screen/HomeScreen.tsx:31 | a map holding only catalog ids has at most six keys |
| `Home.HomeScreen.constructor` | src/screen/HomeScreen.tsx:15 | the counter starts at 0 |
| `Home.HomeScreen.LoadCompleted` | src/screen/HomeScreen.tsx:23-36 | the counter becomes the key count of the stored map; an absent key or a failed read leaves it stale; it stays at most 6 when only catalog completions are stored |
| `Scenarios.CompleteFirstQuest` | src/screen/QuestsScreen.tsx:45-67 | quest "1" answered "USA & Canada" then "Angel Falls" moves to index 1, then ends with `completed == {"1": true}` in memory and in the store |
| `Scenarios.WrongAnswerStaysPut` | src/screen/QuestsScreen.tsx:45-66 | answering with no quest, or with a wrong option, leaves the index and the completion map unchanged |
| `Scenarios.ExitKeepsQuestionIndex` | src/screen/QuestsScreen.tsx:238-252 | after exiting a quest at its second question, the next quest opens at its second question |
| `Scenarios.CompletionWriteFails` | src/screen/QuestsScreen.tsx:33-61 | a failed completion write leaves the map unrecorded in memory and in the store, while the session still resets and the alert still shows |
| `Scenarios.NonNumericLatitude` | src/screen/MapScreen.tsx:76-91 | a non-numeric latitude is refused; the list keeps its two seed records and nothing is stored |
| `Scenarios.SaveWithoutAvatarThenLoad` | src/screen/ProfileScreen.tsx:25-47 | with no avatar in memory, save skips it and a load restores the older stored avatar |
| `Scenarios.SaveThenLoad` | src/screen/ProfileScreen.tsx:25-47 | a load right after a successful save keeps name and last name, and keeps the avatar unless it is unset while an older one is stored |
| `Scenarios.LogoutClearsEveryScreen` | src/screen/ProfileScreen.tsx:69-74 | logout empties the store of photos and completions; the album list and the home counter stay stale after reloading |
| `Scenarios.CompletionAfterLogout` | src/screen/QuestsScreen.tsx:18-20 | after a logout, the next completion writes back the completions the logout removed |

## Left out

- `App.tsx` (tab navigation, icons, styles), all JSX, `StyleSheet` objects, `console.log`/`console.error`: presentation only.
- Quest descriptions, card images and question prompts: display text only; they are omitted from `Quests.Quest` and `Quests.Question`. The seed records keep all their fields; their long literals are written as concatenations of the same text.
- JSON serialisation and AsyncStorage internals: the store keeps typed values and serialisation is taken to be lossless. A value of another shape under a key (possible only if another writer stored it) is ignored as if the key were absent: the screen keeps what it shows and raises no alert. In JavaScript `JSON.parse` would succeed and the screen would take the foreign value as is; the home counter would count its keys.
- The image picker, `Alert.alert` and its confirmation dialogs are foreign callbacks. A pick is a `Pick` parameter. Delete and logout are modelled on their confirmed branch. Alerts are returned as `Notice` values.
- `parseFloat`/`isNaN` and floating point: parsing is a parameter `string -> Option<real>`, and coordinates are `real`.
- `Date.now()` is the `now` parameter. Unique waterfall ids need a clock ahead of every stored id (`Waterfalls.AddKeepsUniqueIds`); nothing in the source enforces it.
- Asynchrony and interleavings (the un-awaited `saveCompletedQuests` and `savePhotos`/`saveWaterfalls` calls, focus-triggered reloads racing in-flight writes): each handler is one atomic step. Its end state is the one the awaited sequence produces.
- The form's text-input setters and the "+" and "Cancel" modal buttons each set one field. The map's long-press handler (MapScreen.tsx:147-154) writes both coordinate strings into the form with `toString()` and then opens the modal. None of these is modelled as a method; the model has only the `form` and `modalVisible` fields they set.
- The commented-out delete button of the map callout (MapScreen.tsx:174-178) is rendering only. `deleteWaterfall` itself is modelled.
- Home's "Popular Waterfalls" and featured card are static display data.
