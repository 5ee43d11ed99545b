# Pet-shop promotions console: storage, hooks and wizards in Dafny

This project models the client-side core of an administration console for a pet
shop's promotions. Everything lives in the browser's key-value store. The model
covers four parts:

- **The storage service** (`LocalStorageService`, storage.dfy). The store keeps
  four independent keys: users, promotions, session and settings. Each key has a
  typed read with a default for an absent key, a write, and for the session a
  removal. `initializeDefaults` seeds an admin user and two sample promotions into
  collections that are empty.
- **The promotions hook** (`Promotions`, promotions_hook.dfy). It holds an
  in-memory list mirrored to the promotions key. On mount it seeds its own samples
  when the key is absent. `addPromotion` appends a record under a clock-derived id.
  `deletePromotion` removes every record with an id.
- **The auth hook** (`Auth`, auth_hook.dfy). Login is an exact email and password
  match against the stored users and writes a session. Logout removes the session.
  Registration appends a user without a duplicate check. On mount the hook restores
  a session and drops one that does not parse.
- **The two-step wizards** (`PromotionForm`, `CreatePromotion`, `EditPromotion`).
  Step 1 validates six fields. Only the edit schema adds the two date rules. Step 1
  moves to step 2 only on valid input, and step 2 always goes back to step 1.
  Create selects one product; edit selects several. The payload gets its image
  from the category map, whose default is `dog-products`.

Modelling choices:

- The store is a class `LocalStore` holding a record of four optional, typed
  slots. `None` is an absent key. JSON text is not modelled. The one exception is
  the session slot, which can hold `Unparsable`, because the auth hook handles that
  case.
- Dates are whole day numbers counted from 1970-01-01. `2024-01-15` is day 19737.
  A form date input is `Blank` (the empty string) or `On(day)`.
- "Today" (for the edit schema) and the id `Date.now().toString()` (for
  `addPromotion`) are parameters.
- Each React handler is one sequential step of a class method. The current form
  values (`getValues()` / the submitted `data`) are passed in as a parameter.
- `handleSubmit(onSubmit)` is modelled as one `Submit` method. It validates the
  whole schema and, only if that passes, runs the body of `onSubmit`.
- Toasts and navigation are outcome tags (`Rejected`, `NoProductSelected`,
  `Created`, `NotFound`, ...).
- The create wizard holds its own promotions-hook instance, and a successful submit
  calls its `AddPromotion`. The edit page calls `updatePromotion`, which the hook
  does not provide. The edit model therefore records the call's id and payload in
  the `Updated` outcome and does not perform it.

Source facts the model makes explicit:

- The hook seeds only an absent key. The service also seeds a stored empty list
  (`SeedingRulesDiffer`).
- The hook's samples use the categories `Alimento` and `Juguetes`, with capitals.
  The catalog and the image map do not know these names, so editing a seeded record
  offers no products (`HookSeedsOutsideCatalog`).
- Clicking a product twice in the create form is not an undo when another product
  was selected before: the earlier choice is lost (`ToggleSingleTwice`).

## Model

| member | source | states |
|---|---|---|
| `Types.Stamp` | src/hooks/usePromotions.ts:41-44 | the new record carries the supplied id, and removing the id gives back exactly the draft |
| `Types.StampUnstamp` | src/types/index.ts:6-17 | a promotion is exactly its id plus its remaining fields |
| `LocalStorageService.KeyNamesDistinct` | src/services/localStorage.service.ts:3-8 | the four key names are pairwise different |
| `LocalStorageService.GetUsers` | src/services/localStorage.service.ts:17-20 | a present key yields the stored list, an absent key `[]` |
| `LocalStorageService.GetSession` | src/services/localStorage.service.ts:27-30 | an absent key yields no session, a stored record yields that session, and unparsable text yields `ParseFailure` where the source's `JSON.parse` throws |
| `LocalStorageService.GetPromotions` | src/services/localStorage.service.ts:41-44 | a present key yields the stored list, an absent key `[]` |
| `LocalStorageService.GetSettings` | src/services/localStorage.service.ts:51-54 | a present key yields the stored settings, an absent key `{contrast: 50, fontSize: 50}` |
| `LocalStorageService.AbsentKeysReadDefaults` | src/services/localStorage.service.ts:17-54 | an absent key reads as `[]` for users and promotions, no session, and `{contrast: 50, fontSize: 50}` for settings |
| `LocalStorageService.SaveUsers` | src/services/localStorage.service.ts:22-24 | only the users key changes, and reading it back gives exactly the saved list |
| `LocalStorageService.SaveSession` | src/services/localStorage.service.ts:32-34 | only the session key changes, and reading it back gives the saved session |
| `LocalStorageService.ClearSession` | src/services/localStorage.service.ts:36-38 | the session key becomes absent (reads as no session); the other three keys are unchanged |
| `LocalStorageService.SavePromotions` | src/services/localStorage.service.ts:46-48 | only the promotions key changes, and reading it back gives exactly the saved list |
| `LocalStorageService.SaveSettings` | src/services/localStorage.service.ts:56-58 | only the settings key changes, and reading it back gives the saved settings |
| `LocalStorageService.SeedDefaults` | src/services/localStorage.service.ts:61-101 | an empty or absent user list becomes `[admin]`; empty or absent promotions become the two samples; non-empty collections, the session and the settings are untouched; afterwards both collections are non-empty |
| `LocalStorageService.SeedDefaultsIdempotent` | src/services/localStorage.service.ts:61-101 | seeding twice gives the same store as seeding once |
| `LocalStorageService.InitializeDefaults` | src/services/localStorage.service.ts:61-101 | the conditional get/save sequence leaves the store equal to `SeedDefaults` of the old store |
| `Promotions.RemoveById` | src/hooks/usePromotions.ts:51 | the result holds no record with the id; every other record keeps its number of occurrences; the list never grows |
| `Promotions.RemoveByIdConcat` | src/hooks/usePromotions.ts:51 | filtering distributes over concatenation, so kept records stay in their original order |
| `Promotions.RemoveByIdAbsent` | src/hooks/usePromotions.ts:50-51 | deleting an id no record has is a no-op |
| `Promotions.RemoveByIdIdempotent` | src/hooks/usePromotions.ts:50-51 | deleting the same id twice equals deleting it once |
| `Promotions.AddThenDelete` | src/hooks/usePromotions.ts:40-54 | appending a record under a fresh id and then deleting that id restores the original list |
| `Promotions.SeedingRulesDiffer` | src/hooks/usePromotions.ts:7-37 | when the stored list is present but empty, the hook loads `[]` while the service seeds the samples |
| `Promotions.PromotionsHook.constructor` | src/hooks/usePromotions.ts:5 | the hook starts with an empty list over the given store |
| `Promotions.PromotionsHook.Mount` | src/hooks/usePromotions.ts:7-38 | a present key (even `[]`) is loaded and nothing is written; an absent key loads the hook's samples and writes them |
| `Promotions.PromotionsHook.AddPromotion` | src/hooks/usePromotions.ts:40-48 | the list grows by one; the old list is an unchanged prefix; the last record is the draft with the clock id; the key holds exactly the new list |
| `Promotions.PromotionsHook.DeletePromotion` | src/hooks/usePromotions.ts:50-54 | the list becomes the id-filtered list and the key holds exactly that list |
| `Auth.FindUser` | src/hooks/useAuth.ts:22-23 | a found user is in the list and has both the email and the password; nothing found means no user has both |
| `Auth.RegisterThenLogin` | src/hooks/useAuth.ts:39-42 | after appending `(email, password)` the credential lookup succeeds, whatever the list held before |
| `Auth.SeededCredentials` | src/hooks/useAuth.ts:21-31 | on a freshly seeded store `admin@petstore.com`/`admin123` is found and `x@x.com`/`wrong` is not |
| `Auth.AuthHook.constructor` | src/hooks/useAuth.ts:5-6 | no user, still loading |
| `Auth.AuthHook.Mount` | src/hooks/useAuth.ts:8-19 | a parsable session becomes the user; an unparsable one is removed and the user is unchanged; an absent one changes nothing; loading ends false in every case |
| `Auth.AuthHook.Login` | src/hooks/useAuth.ts:21-32 | returns true exactly when some stored user matches both fields; on success the user and the session become `{email, isAuthenticated: true}`; on failure neither the user nor the store changes |
| `Auth.AuthHook.Logout` | src/hooks/useAuth.ts:34-37 | the user becomes null and the session key is removed, independently of the prior state (so it is idempotent) |
| `Auth.AuthHook.Register` | src/hooks/useAuth.ts:39-43 | the users key becomes the old list plus `(email, password)` at the end, with no duplicate check; the new credentials then log in |
| `PromotionForm.BaseErrors` | src/pages/admin/CreatePromotion.tsx:18-25 | each field is reported exactly when its rule fails: empty text, a discount outside [1, 100], a missing date |
| `PromotionForm.BaseValidMeans` | src/pages/admin/EditPromotion.tsx:18-24 | the base schema passes iff the three texts are non-empty, 1 ≤ discount ≤ 100 and both dates are present |
| `PromotionForm.DiscountBoundaries` | src/pages/admin/CreatePromotion.tsx:22 | discount 1 and 100 pass, 0 and 101 fail |
| `PromotionForm.ImageFor` | src/pages/admin/CreatePromotion.tsx:116-130 | the image is `cat-products` iff the category is `juguetes` or `accesorios`, and `dog-products` otherwise, for every string that is not an inherited `Object.prototype` member name |
| `PromotionForm.CatalogFor` | src/pages/admin/CreatePromotion.tsx:58-83 | each of the four categories has four products; any other string (except inherited `Object.prototype` member names) has none |
| `PromotionForm.CatalogIds` | src/pages/admin/CreatePromotion.tsx:58-83 | the product ids of each category's catalog, and none for a string outside the four categories |
| `PromotionForm.CatalogsDisjoint` | src/pages/admin/CreatePromotion.tsx:58-83 | two different category strings share no product id, so the category decides which products are offered |
| `PromotionForm.Merge` | src/pages/admin/CreatePromotion.tsx:124-129 | with no snapshot the submitted values are used; a valid snapshot wins entirely; valid inputs merge to valid values |
| `PromotionForm.ServiceSeedsFormConsistent` | src/services/localStorage.service.ts:73-98 | both service samples are active, have a discount in [1, 100], have start ≤ end, carry the mapped image, and select products from their own category's catalog |
| `PromotionForm.HookSeedsOutsideCatalog` | src/hooks/usePromotions.ts:13-33 | the hook's capitalised sample categories have empty catalogs, and the second sample's image differs from its category's mapped image |
| `CreatePromotion.ToggleSingle` | src/pages/admin/CreatePromotion.tsx:150-152 | the selection afterwards is empty or the clicked product, and it is empty exactly when the clicked product was the selected one |
| `CreatePromotion.ToggleSingleTwice` | src/pages/admin/CreatePromotion.tsx:150-152 | clicking a product twice leaves it selected if it was selected, and otherwise leaves nothing selected |
| `CreatePromotion.CreateDraft` | src/pages/admin/CreatePromotion.tsx:116-131 | the fields come from the snapshot if one exists, else from the submitted data; texts are non-empty; discount is in [1, 100]; the image is the category's; there is no `isActive` and no selected product |
| `CreatePromotion.CreateAcceptsReversedDates` | src/pages/admin/CreatePromotion.tsx:18-25 | the create schema accepts an end date before the start date |
| `CreatePromotion.CreateWizard.constructor` | src/pages/admin/CreatePromotion.tsx:31-35 | step 1, no snapshot, no category, no product |
| `CreatePromotion.CreateWizard.HandleNextStep` | src/pages/admin/CreatePromotion.tsx:85-92 | valid input moves to step 2 and snapshots the values; invalid input changes neither the step nor the snapshot |
| `CreatePromotion.CreateWizard.HandlePreviousStep` | src/pages/admin/CreatePromotion.tsx:94-96 | the step becomes 1; the snapshot and the selection are kept |
| `CreatePromotion.CreateWizard.SelectCategory` | src/pages/admin/CreatePromotion.tsx:218-221 | the selected category and the form's category field both become the chosen value; the step, the snapshot and the product are kept |
| `CreatePromotion.CreateWizard.ToggleProductSelection` | src/pages/admin/CreatePromotion.tsx:150-152 | the selected product becomes `ToggleSingle` of the old one; nothing else changes |
| `CreatePromotion.CreateWizard.Catalog` | src/pages/admin/CreatePromotion.tsx:276 | step 2 offers exactly `CatalogFor` of the snapshot's category, or of the selected category when the snapshot's is empty; that catalog is empty for an unknown category |
| `CreatePromotion.CreateWizard.Submit` | src/pages/admin/CreatePromotion.tsx:98-148 | invalid data yields the field errors; step 1 advances; step 2 with no product yields an error; otherwise `addPromotion` is called exactly once with the assembled draft, and never in any other case |
| `EditPromotion.EditErrors` | src/pages/admin/EditPromotion.tsx:18-41 | the base errors, plus `startDate` exactly when the start is missing or before today, and `endDate` exactly when a date is missing or the end is before the start |
| `EditPromotion.EditValidMeans` | src/pages/admin/EditPromotion.tsx:18-41 | the edit schema passes iff the base schema passes, start ≥ today and end ≥ start; so every edit-valid form is create-valid |
| `EditPromotion.DateBoundaries` | src/pages/admin/EditPromotion.tsx:25-40 | a start of today passes and one of yesterday fails; an end equal to the start passes and one a day earlier fails |
| `EditPromotion.EditRejectsReversedDates` | src/pages/admin/EditPromotion.tsx:34-40 | the reversed-date form that creation accepts is rejected by the edit schema |
| `EditPromotion.RemoveAll` | src/pages/admin/EditPromotion.tsx:200 | the id is gone, every other id is kept, and a duplicate-free selection stays duplicate-free |
| `EditPromotion.RemoveAllConcat` | src/pages/admin/EditPromotion.tsx:200 | removing an id distributes over concatenation, which preserves order |
| `EditPromotion.RemoveAllAbsent` | src/pages/admin/EditPromotion.tsx:200 | removing an id that is not selected changes nothing |
| `EditPromotion.ToggleMulti` | src/pages/admin/EditPromotion.tsx:197-203 | a selected id is removed; an unselected id is appended at the end; other ids are unaffected; no duplicates are introduced |
| `EditPromotion.ToggleMultiTwice` | src/pages/admin/EditPromotion.tsx:197-203 | toggling an id twice restores the selected set, and the exact list when the id was not selected |
| `EditPromotion.IndexOfId` | src/pages/admin/EditPromotion.tsx:90 | the first record with the id, or proof that no record has it |
| `EditPromotion.ValuesOf` | src/pages/admin/EditPromotion.tsx:112-117 | the six form fields hold the record's name, description, category, discount and both dates |
| `EditPromotion.LoadedRecordResubmits` | src/pages/admin/EditPromotion.tsx:112-118 | a loaded record submitted unchanged yields a payload with the record's own fields and selection; only the image is recomputed from the category |
| `EditPromotion.EditPatch` | src/pages/admin/EditPromotion.tsx:160-177 | the fields come from the snapshot if one exists, else from the data; discount is in [1, 100]; start ≤ end; the image is the category's; `selectedProducts` is the current selection |
| `EditPromotion.EditWizard.constructor` | src/pages/admin/EditPromotion.tsx:85-88 | step 1, no snapshot, no category, empty selection |
| `EditPromotion.EditWizard.Load` | src/pages/admin/EditPromotion.tsx:103-127 | the first record with the route id fills the form, the category and the selection (absent selection is `[]`); a missing record yields "not found" when the route id is truthy (present and non-empty) and does nothing otherwise |
| `EditPromotion.EditWizard.HandleNextStep` | src/pages/admin/EditPromotion.tsx:129-136 | edit-valid input moves to step 2 and snapshots the values; otherwise the step and the snapshot are unchanged |
| `EditPromotion.EditWizard.HandlePreviousStep` | src/pages/admin/EditPromotion.tsx:138-140 | the step becomes 1; the snapshot and the selection are kept |
| `EditPromotion.EditWizard.SelectCategory` | src/pages/admin/EditPromotion.tsx:265-268 | the selected category and the form's category field both become the chosen value; the step, the snapshot and the selection are kept |
| `EditPromotion.EditWizard.ToggleProductSelection` | src/pages/admin/EditPromotion.tsx:197-203 | the selection becomes `ToggleMulti` of the old one; nothing else changes |
| `EditPromotion.EditWizard.Catalog` | src/pages/admin/EditPromotion.tsx:322 | step 2 offers exactly `CatalogFor` of the selected category, which is empty for an unknown category |
| `EditPromotion.EditWizard.Submit` | src/pages/admin/EditPromotion.tsx:142-195 | invalid data yields the field errors; step 1 advances; an update is issued iff the data is valid, the step is 2, the selection is non-empty and the route id is truthy (present and non-empty); without such an id nothing happens and the step and snapshot are kept; the payload is `EditPatch` of the snapshot, the data and the selection |

## Left out

- JSON serialisation: slots hold typed values, not text. A stored empty string,
  which the source treats like an absent key, has no counterpart. Corrupt text is
  modelled only for the session key. A corrupt users or promotions value would make
  `JSON.parse` throw in the source; the model has no such case.
- `getSession` on unparsable text throws in the source. The model returns the tag
  `ParseFailure` instead.
- A session whose text parses but is not a session record has no counterpart. The
  model's session slot always holds a well-formed `AuthUser`.
- The clock and the calendar: `Date.now()` and `new Date()` are parameters.
  Duplicate ids from two adds in the same millisecond are possible. When that
  happens, `DeletePromotion` removes both records, as `RemoveById` states.
- React rendering and state scheduling. Each handler is one sequential step. The
  asynchronous `trigger` is treated as synchronous, and the re-render between
  `setX` calls is not modelled.
- EditPromotion.EditWizard.Load: effect ordering is not modelled, and the model does not
  capture what the page does on its first render. The hook's list starts as `[]`
  (`src/hooks/usePromotions.ts:5`), and `isLoading` is undefined because the hook
  does not return it (`src/pages/admin/EditPromotion.tsx:82`). The guard at line 109
  therefore never returns. So as written, the load effect first runs with `[]`.
  For every non-empty route id it takes the not-found branch: a toast and
  navigation back to the list (lines 120-125), before the stored list arrives. In
  the model this is `Load([], Some(id))` with `id != ""`, which yields `NotFound`. `Load` with the stored list, which
  fills the form, describes the run the page would make if it stayed mounted.
- EditPromotion.EditWizard.Submit: `updatePromotion` is undefined because the hook does not
  return it (`src/hooks/usePromotions.ts:56`). As written, the call at
  `src/pages/admin/EditPromotion.tsx:168` throws, and the catch at lines 186-190
  shows the error toast; no record is updated and there is no navigation. The
  `Updated` outcome records the call the page attempts (its id and payload). It
  does not model what happens next, and no merge semantics are assumed.
- The link between the selected category and the submitted one: both category
  handlers write the form's category field, and `SelectCategory` returns the form
  values with that field set. `Submit` takes the form's values as a parameter,
  though, so the model does not force the submitted category to be the last one
  selected.
- PromotionForm.ImageFor and PromotionForm.CatalogFor: the source's maps are plain object literals, and only
  their own keys are modelled. A category string naming an inherited
  `Object.prototype` member (`constructor`, `toString`, ...) yields a function in
  the source. Then the image is that function, and rendering step 2 throws on
  `.map`. The model gives `dog-products` and `[]` for such strings. Only a
  hand-edited stored record can carry such a category.
- The `loading` flag of both wizards, toasts, navigation and `console.log` are
  reduced to outcome tags or omitted. The create page's unused `selectedProducts`
  state is omitted.
- react-hook-form and zod internals. The discount is an integer; zod's coerced
  number also admits fractions in [1, 100], and `getValues()` yields the raw input
  text. A non-empty date input is assumed to be a well-formed date.
- Rendering-only files: layout, sidebar, navbar, home page, login page (its only
  logic is a library email check), settings panel (floating-point style
  arithmetic), the promotions list (rendering and a locale date formatter), and the
  filter widget. The filter widget declares statuses but derives or filters none,
  so no status engine, soft delete or restore is modelled.
- Product prices are kept as whole cents.
