# Recipe sharing app: the logic under the pages

This project models three pieces of client-side logic from a recipe sharing web
application and proves their properties in Dafny. All the app's data, login and
file storage sit with a hosted backend service; these three pieces are the parts
the app computes itself.

- **Recipe list filter** (module `RecipeList`, file `recipe_list.dfy`). The list page
  filters the fetched recipes by three inputs. The name must contain the search term,
  ignoring case. The category must equal the selected one. Some ingredient of the
  recipe must have a name that contains the ingredient term, ignoring case. An empty
  input means that filter does not apply. `FilterRecipes` is the filter. The lemmas
  prove the following. The result is the subsequence of the recipes at exactly the
  passing positions. Each recipe keeps its multiplicity. Empty inputs show everything.
  Letter case in either term does not matter. Ingredients that belong to none of the
  listed recipes never change the result.
- **Recipe creation form** (module `RecipeCreate`, file `recipe_create.dfy`). The class
  `RecipeCreateForm` has one field per state cell of the page. Its methods are the
  page's handlers: change one key of one ingredient entry, append a blank entry, remove
  the entry at a position, pick an image, and submit. The list operations are also
  pure functions with lemmas: removal by position, append then remove, and tagging the
  entries with the recipe id. Two more functions are modelled. One builds the storage
  path of an upload; its timestamp can be read back from the path. The other turns an
  empty image URL into null. `HandleSubmit` receives the backend's answers as inputs.
  It returns the requests it makes, in order, and what the user sees at the end.
- **Session state holder** (module `UserContext`, file `user_context.dfy`). The class
  `UserProvider` holds `session`, `user` and `loading`. Two callbacks of the
  authentication service overwrite them: the answer to the initial session request
  and the auth-state-change notification. They can arrive in either order. `Handle`
  gives the state after one callback, and `Replay` the state after a sequence. The
  lemmas prove four things. Every reachable state shows the session's own user. The
  loading flag only goes from true to false. The last callback decides the session.
  Whether loading is over does not depend on the arrival order.

`text.dfy` (module `Text`) holds the string operations the pages use. These are
lower-casing, substring search and the decimal rendering of the upload timestamp.
`wrappers.dfy` holds `Option` and `Result`.

No handler writes ingredient rows after creation. The edit handler only updates the
recipe row (src/pages/RecipeEditPage.tsx:68-77). The delete handler only deletes the
recipe row (src/components/RecipeDetails.tsx:49-52). Ingredient rows are therefore only
written when a recipe is created. Also, the create form sends the ingredient insert
without looking at its result (src/pages/RecipeCreatePage.tsx:129). `HandleSubmit`
therefore navigates to the new recipe whether that insert succeeded or not.

## Model

| member | source | states |
|---|---|---|
| Text.Lower | src/pages/Recipes.tsx:38-40 | lower-casing keeps the length, leaves no upper-case letter, and changes nothing in a string that has none |
| Text.ToLower | src/pages/Recipes.tsx:39 | an upper-case ASCII letter becomes its own lower-case letter (same place in the alphabet), every other character stays, and no result is upper-case |
| Text.SameIgnoringCaseIff | src/pages/Recipes.tsx:38-40 | two strings differ only in letter case exactly when their lower-cased forms are equal |
| Text.ContainsEmpty | src/pages/Recipes.tsx:38-40 | the empty search term occurs in every name |
| Text.Contains | src/pages/Recipes.tsx:40 | `includes`: the term occurs as a contiguous block; a string never contains a longer one |
| Text.Decimal | src/pages/RecipeCreatePage.tsx:23 | the rendered timestamp is a non-empty string of decimal digits without a leading zero |
| Text.DecimalRoundTrip | src/pages/RecipeCreatePage.tsx:23 | the number can be read back from its rendering |
| RecipeList.FilterRecipes | src/pages/Recipes.tsx:37-54 | the result is no longer than the input, and a recipe is in it exactly when it is in the input and passes the name, category and ingredient filters |
| RecipeList.FilterPositions | src/pages/Recipes.tsx:37-54 | the result is the input's subsequence at strictly increasing positions, and a position is among them exactly when its recipe passes |
| RecipeList.FilterMultiplicity | src/pages/Recipes.tsx:37 | a passing recipe occurs in the result as often as in the input, a failing one not at all (no duplicates are introduced) |
| RecipeList.NoFiltersKeepsAll | src/pages/Recipes.tsx:38-51 | with all three inputs empty the result is the whole input |
| RecipeList.FilterCongruent | src/pages/Recipes.tsx:37-54 | filterings whose predicates agree on every listed recipe give the same result |
| RecipeList.SearchTermIgnoresCase | src/pages/Recipes.tsx:38-40 | replacing the search term by a case variant leaves the result unchanged |
| RecipeList.IngredientTermIgnoresCase | src/pages/Recipes.tsx:45-51 | replacing the ingredient term by a case variant leaves the result unchanged |
| RecipeList.CategoryFilterSound | src/pages/Recipes.tsx:42-43 | with a category selected, every recipe shown has that category |
| RecipeList.IngredientFilterSound | src/pages/Recipes.tsx:45-51 | with an ingredient term given, every recipe shown has an ingredient of its own whose lower-cased name contains the lower-cased term |
| RecipeList.OrphanIngredientsIgnored | src/pages/Recipes.tsx:47-50 | ingredients belonging to no listed recipe, inserted anywhere in the ingredient list, do not change the result |
| RecipeList.PastaSaladExample | src/pages/Recipes.tsx:37-54 | recipes "Pasta" and "Salad" searched for "pa" give only "Pasta" |
| RecipeList.NameMatch | src/pages/Recipes.tsx:38-40 | an empty search term matches every name, and a matching term is never longer than the name |
| RecipeList.CategoryMatch | src/pages/Recipes.tsx:42-43 | no selected category matches every recipe; a recipe without a category matches only then |
| RecipeList.IngredientMatch | src/pages/Recipes.tsx:49-50 | a matching ingredient belongs to the recipe and its name is at least as long as the term |
| RecipeList.HasIngredient | src/pages/Recipes.tsx:45-51 | an empty ingredient term always passes; with no ingredients at all only the empty term passes |
| RecipeList.Keeps | src/pages/Recipes.tsx:53 | with no filters every recipe passes; a passing recipe has the selected category when one is selected |
| RecipeCreate.Get | src/pages/RecipeCreatePage.tsx:12-17 | each key of an entry holds a value of its declared type (a number for the quantity, a string otherwise) |
| RecipeCreate.SetField | src/pages/RecipeCreatePage.tsx:75 | the edited key holds the new value and every other key keeps its old value |
| RecipeCreate.SameFieldsSameEntry | src/pages/RecipeCreatePage.tsx:12-17 | entries that agree on all four keys are equal |
| RecipeCreate.SetFieldToOwnValue | src/pages/RecipeCreatePage.tsx:75 | writing back a key's own value leaves the entry unchanged |
| RecipeCreate.WithBlankAppended | src/pages/RecipeCreatePage.tsx:79-84 | appending grows the list by one, keeps every existing entry and puts the blank entry last |
| RecipeCreate.WithoutPosition | src/pages/RecipeCreatePage.tsx:87 | the position filter shortens the list by one exactly when the index is in range, and keeps only entries of the list |
| RecipeCreate.RemoveInRange | src/pages/RecipeCreatePage.tsx:86-88 | removing an in-range position shortens the list by one, keeps the entries before it and shifts those after it down by one |
| RecipeCreate.RemoveOutOfRange | src/pages/RecipeCreatePage.tsx:86-88 | removing a position the list does not have keeps the list as it is |
| RecipeCreate.AddThenRemoveRestores | src/pages/RecipeCreatePage.tsx:79-88 | appending an entry and removing the last position gives back the original list |
| RecipeCreate.ForRecipe | src/pages/RecipeCreatePage.tsx:124-127 | the tagged rows have the list's length and order, each keeps all its entry's keys and carries the recipe id |
| RecipeCreate.ForRecipeRoundTrip | src/pages/RecipeCreatePage.tsx:124-127 | removing the tags again gives back the list |
| RecipeCreate.UploadPath | src/pages/RecipeCreatePage.tsx:23 | the path starts with "recipes/", the user id and "-", and ends with "-" and the file name after the timestamp |
| RecipeCreate.UploadPathTimestamp | src/pages/RecipeCreatePage.tsx:23 | the part between the user prefix and the file-name suffix is the timestamp's rendering and reads back as the timestamp |
| RecipeCreate.UploadPathsDiffer | src/pages/RecipeCreatePage.tsx:23-30 | uploads of the same user and file name at different times go to different paths, so the overwriting upload never replaces an earlier one |
| RecipeCreate.NullIfEmpty | src/pages/RecipeCreatePage.tsx:116 | the inserted image URL is null exactly when the final URL is empty, and is that URL otherwise |
| RecipeCreate.NullIfEmptyRoundTrip | src/pages/RecipeCreatePage.tsx:116 | with the empty string as default, the normalised URL reads back as the final URL |
| RecipeCreate.UploadErrorMessage | src/pages/RecipeCreatePage.tsx:34 | the thrown message is never empty: it is the service's message when that one is not empty, and "Unbekannter Upload-Fehler" otherwise |
| RecipeCreate.UploadRecipeImage | src/pages/RecipeCreatePage.tsx:19-42 | the upload succeeds exactly when the service reports no error; on success it gives the public URL of the upload path, on failure the thrown message |
| RecipeCreate.LoggedIn | src/pages/RecipeCreatePage.tsx:92 | submission proceeds exactly when there is a user with a non-empty id |
| RecipeCreate.RecipeRoute | src/pages/RecipeCreatePage.tsx:130 | the route is "/rezepte/" followed by exactly the recipe id |
| RecipeCreate.RecipeCreateForm.constructor | src/pages/RecipeCreatePage.tsx:48-58 | the form starts with empty texts, one serving, no image and exactly one blank ingredient entry |
| RecipeCreate.RecipeCreateForm.HandleIngredientChange | src/pages/RecipeCreatePage.tsx:69-77 | the list keeps its length, the entry at the index has the one key set, every other entry is unchanged |
| RecipeCreate.RecipeCreateForm.AddIngredient | src/pages/RecipeCreatePage.tsx:79-84 | the new list is the old list with the blank entry appended |
| RecipeCreate.RecipeCreateForm.RemoveIngredient | src/pages/RecipeCreatePage.tsx:86-88 | the new list is the old one without the given position |
| RecipeCreate.RecipeCreateForm.ChooseImage | src/pages/RecipeCreatePage.tsx:191-197 | a picked file is kept with its preview URL as image URL; no file changes nothing |
| RecipeCreate.RecipeCreateForm.HandleSubmit | src/pages/RecipeCreatePage.tsx:90-131 | without a user id nothing is sent or changed; a picked file is uploaded first to the user's path and a failed upload stops with its alert; then the recipe row goes out with the null-normalised image URL; a failed insert stops with its alert; otherwise exactly one tagged row per entry is inserted and the new recipe's page opens |
| UserContext.UserOf | src/contexts/UserContext.tsx:27 | the user is present exactly when the session is, and is then the session's user |
| UserContext.Handle | src/contexts/UserContext.tsx:25-36 | after either callback the session is the reported one and the state is consistent; loading stays true only if it was true and the callback was an auth-state change |
| UserContext.ReplayConsistent | src/contexts/UserContext.tsx:25-36 | from a consistent state, every sequence of callbacks in any order ends in a consistent state |
| UserContext.LoadingUntilFetched | src/contexts/UserContext.tsx:22-28 | loading is still true exactly when it was true and no initial session answer has arrived |
| UserContext.LoadingNeverResumes | src/contexts/UserContext.tsx:28 | once loading is false it stays false |
| UserContext.LastCallbackDecides | src/contexts/UserContext.tsx:25-36 | after a non-empty sequence of callbacks, session and user are those reported by the last one |
| UserContext.LoadingIgnoresOrder | src/contexts/UserContext.tsx:25-36 | two arrival orders of the same callbacks agree on whether loading is over |
| UserContext.EitherArrivalOrder | src/contexts/UserContext.tsx:25-36 | initial answer then change, or change then initial answer: both end not loading with the later callback's session and its user |
| UserContext.UserProvider.constructor | src/contexts/UserContext.tsx:11-22 | the provider starts consistent, with the context's default value: no user, no session, loading |
| UserContext.UserProvider.Value | src/contexts/UserContext.tsx:42 | the context value carries exactly the provider's user, session and loading cells |
| UserContext.UserProvider.OnSessionFetched | src/contexts/UserContext.tsx:25-29 | the session is the answer, the user is its user or null, loading is false, and the state stays consistent |
| UserContext.UserProvider.OnAuthStateChange | src/contexts/UserContext.tsx:33-36 | the session is the notified one, the user is its user or null, loading is unchanged, and the state stays consistent |

## Left out

- Every call to the backend service (table reads, inserts, updates and deletes; storage upload and public URL; sign-in, sign-up and sign-out) is outside the model. Where the form depends on an answer, the answer is an input of `HandleSubmit` or `UploadRecipeImage`.
- The concurrent fetch of recipes, ingredients and categories on the list page, and the subscription and unsubscription around the auth callbacks: these are asynchronous plumbing; only the state updates they trigger are modelled.
- The category list fetched by the create form, and the page's plain input handlers for name, description, servings, instructions and category: these only assign a form field (public fields of `RecipeCreateForm`).
- Parsing of numeric inputs (`parseFloat(...) || 0`, `Number(...) || 1`): floating-point parsing; a quantity is an uninterpreted `real` that is never computed with.
- `Date.now()` is the input `now`. Its rendering `Decimal` matches the template literal for whole numbers below 10^21, which covers every clock reading.
- `URL.createObjectURL`: a browser call; its result is the input `previewUrl` of `ChooseImage`.
- `console.error` and the alert dialog itself: I/O. `HandleSubmit` returns the alert's text instead.
- Text.Lower: lower-cases ASCII letters only, because full Unicode lower-casing does not map one character to one character.
- RecipeCreate.RecipeCreateForm.HandleIngredientChange: requires an index inside the list and a value of the key's type. Every call site passes the position of a rendered entry and a value of the right type; other arguments would make the JavaScript build a partial entry.
- Stale closures: React handlers see the list of the render they were created in. The model applies each handler to the current state.
- The form's `required` attributes on name and category: browser validation, not code.
- RecipeCreate.RecipeCreateForm.HandleSubmit: `servings` is an `int`. `Number(...) || 1` can produce any non-zero number, such as 2.5 or -3; only the input's `min` attribute and the browser's number validation keep those from being submitted, and the model relies on that validation as it does for `required`.
- UserContext.UserProvider.OnSessionFetched and UserContext.UserProvider.OnAuthStateChange: each callback's two or three state updates are one step, so consumers never see the new session with the old user. This assumes the UI library batches state updates made inside one promise or event callback (automatic batching); under a renderer that renders after each update, consumers can briefly see a session whose user has not been set yet. The library version is not part of this model.
- The rows' other columns (description, servings, image and timestamps on the list page), and every field of the signed-in user except its id (the email is carried along; the rest of the service's user record is not modelled): none of them is inspected. The user id is modelled and used: it gates submission and goes into the upload path and the recipe row. The row type definitions are not part of this model, so `category_id` is modelled as a possibly null string.
- Rendering, routing, the navigation bar, and the profile, login, sign-up, edit, detail and home pages: UI and branches on remote answers, with no logic of their own.
