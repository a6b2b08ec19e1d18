# Create-listing form controller, modelled in Dafny

This project models the form controller behind a marketplace's "create listing"
page (`useListingForm.js`). The controller holds a listing draft: text fields,
the public URLs of uploaded photos (`photos`), a parallel sequence of local
preview tokens (`photoPreviews`), and two busy flags (`uploadingPhotos` and
`isSubmitting`). It has three operations:

- **Photo intake** takes a batch of selected files.
  - It processes at most `MAX_PHOTOS - |photos|` of them (`MAX_PHOTOS` is 5), in order.
  - It adds a preview for every processed file.
  - It adds a public URL only for files whose upload succeeds. A failed upload raises a notice, and the batch goes on.
  - Without a signed-in identity, the batch is dropped before any upload.
- **Photo removal** filters one index out of both sequences.
- **Submission** first runs a fixed guard chain: identity, at least one photo, a valid price for a sale, then a category. If every guard passes, it builds the row, hands it to the record store while the form is marked busy, and navigates on success. The busy flag is lowered whatever the store answers.

Files:

- `listing.dfy` (module `Listing`) holds the values: profile, selected file, upload and insert outcomes, notices, draft, record. It also holds the pure parts of the operations and the lemmas about them.
- `listing_form.dfy` (module `ListingFormHook`) holds class `ListingForm`, whose fields are the hook's state variables. Its methods are the three operations, with the upload loop in its own method `UploadBatch`.
- `scenarios.dfy` (module `Scenarios`) holds two verified end-to-end scenarios: a successful sale, and an insert that fails with "network error".

External services become inputs:

- A `SelectedFile` carries what the environment will answer for that file: the preview token `URL.createObjectURL` returns, the `Date.now()` reading used in its storage key, and the storage service's reply to its upload.
- `getPublicUrl` is a function parameter `publicUrl: string -> string`.
- `parseFloat` is a function parameter `parse: string -> JsNumber`. `JsNumber` is a finite real, `+Infinity`, `-Infinity` or `NaN`.
- The insert's answer is an `InsertOutcome` parameter.
- Notifications are returned as `Notice` values. `SeverityOf` maps each notice to the severity the source gives it.
- Navigation is returned as the route taken.

Points where the code's behaviour is easy to misread:

- The code warns about the photo limit only when no file at all can be accepted. When a batch is only partly accepted, the surplus files are dropped without a warning.
- When the form is already full, the limit warning comes before the identity check.
- A sale price that `parseFloat` reads as NaN (for example "abc") or +Infinity gets past the price check. Only an empty price, or one that parses to a number at most zero (including -Infinity), is rejected.

## Model

| member | source | states |
|---|---|---|
| `Listing.AcceptedFiles` | useListingForm.js:26 | The files intake processes are a prefix of the batch. When at most `MAX_PHOTOS` photos are held, their number is `min(|files|, MAX_PHOTOS - current)`. A full form accepts none. |
| `Listing.SuccessUrls` | useListingForm.js:33-56 | Definition only: `newPhotoUrls`, the public URLs of the stored files in file order. Its counts and order are proved in `OutcomesAccounted` and `SuccessUrlPosition`. |
| `Listing.UploadNotices` | useListingForm.js:50-53 | Definition only: the upload-error toasts, one per rejected file in file order, each carrying the file name and the store's message. Its count is proved in `OutcomesAccounted`. |
| `Listing.PreviewsOf` | useListingForm.js:34-43 | `newPhotoPreviewsArray`'s additions: exactly one preview per processed file, and position `j` holds file `j`'s preview token. |
| `Listing.UploadKeys` | useListingForm.js:45-48 | The upload requests: exactly one per processed file, and request `j` uses file `j`'s storage key. |
| `Listing.IntakeKeepsBound` | useListingForm.js:26-59 | If the form held at most `MAX_PHOTOS` photos, it still does after the batch's successful URLs are appended. |
| `Listing.OutcomesAccounted` | useListingForm.js:50-56 | Each processed file yields exactly one of a public URL or an upload-error notice. There are at most as many URLs as processed files, and exactly as many only when every upload succeeded. |
| `Listing.SuccessUrlPosition` | useListingForm.js:36-57 | The URL of a successful file sits right after the URLs of the earlier successful files, so the new URLs keep file order. |
| `Listing.FailedUploadsDrift` | useListingForm.js:42-53 | When every upload fails, no URL is added, one preview per file is still added, and one upload-error notice per file is raised, in order. |
| `Listing.StorageKey` | useListingForm.js:45 | Definition only: the template `{owner}/{clock}-{file name}`. Its parts are proved in `StorageKeyParts`, `Decimal` and `DecimalRoundTrip`. |
| `Listing.StorageKeyParts` | useListingForm.js:45 | An upload key is `{owner}/{decimal clock}-{file name}`: it lies in the owner's folder and ends with the file name. |
| `Listing.WithoutIndex` | useListingForm.js:67-69 | Definition only: the filter that keeps every position except `i`. Its closed form is proved in `WithoutIndexRemoves`. |
| `Listing.WithoutIndexRemoves` | useListingForm.js:66-72 | Filtering index `i` deletes position `i` and keeps every other element in relative order. An index outside the sequence leaves it unchanged. |
| `Listing.RemovalLength` | useListingForm.js:66-72 | Removal shortens a sequence by one exactly when the index lies inside it, and otherwise leaves its length alone. |
| `Listing.RemovalAfterDrift` | useListingForm.js:66-72 | After a failed upload followed by a successful one, removing index 0 drops the only URL but keeps the preview of the file that did upload. In this batch, removal pairs a URL with the wrong preview. |
| `Listing.DriftMisaligns` | useListingForm.js:42-72 | Once a file of a batch has failed, every in-range URL position `i` at or after that file holds the URL of a later stored file, while preview position `i` holds file `i`'s preview. So removing index `i` deletes a URL and a preview of two different files. |
| `Listing.PriceRejected` | useListingForm.js:85 | Definition only: a price is rejected when it is empty or parses to a number at most zero by `AtMostZero`. `UnorderedPriceAccepted` proves that NaN and +Infinity pass. |
| `Listing.SubmitGuard` | useListingForm.js:77-92 | The guard passes if and only if: identity is present, photos are non-empty, a sale's price is not rejected, and the category is non-empty. A failure reports the notice of the first failing check in the order identity, photos, price, category, and each notice implies all earlier checks passed. |
| `Listing.TradeIgnoresPrice` | useListingForm.js:85 | For a listing that is not a sale, the guard's verdict does not depend on the price. |
| `Listing.UnorderedPriceAccepted` | useListingForm.js:85 | A non-empty sale price that parses to NaN or +Infinity is not rejected. |
| `Listing.SubmittedRecordIsValid` | useListingForm.js:97-109 | A record built from a draft that passed the guard: is owned by the non-empty profile id; carries the draft's photos (at least one), title, description, category, location and type; is active and not boosted. For a sale, it has the parsed price (not at most zero) and no trade preferences. For a trade, it has the preferences and no price. Any other type has neither. |
| `Listing.CreationErrorText` | useListingForm.js:125 | The failure description is never empty. It is the store's message when that is non-empty, and exactly `DEFAULT_CREATION_ERROR` when the message is empty. |
| `Listing.SeverityOf` | useListingForm.js:28-126 | The toast variant of each notice. The photo-limit, missing-photos, invalid-price and missing-category notices are warnings. The two identity errors, each upload error and the creation error are destructive. Only the creation notice is a success. |
| `Listing.AtMostZero` | useListingForm.js:85 | JavaScript's `n <= 0` on a parsed number. For a finite number it agrees with `<= 0`. It is false for NaN and for +Infinity, and true for -Infinity. |
| `Listing.SliceEnd` | useListingForm.js:26 | The end index that `slice(0, end)` uses. A non-negative end is capped at the length. A negative end drops that many elements from the back, or all of them when it is longer. |
| `Listing.HasIdentity` | useListingForm.js:37 | `!profile \|\| !profile.id` is false exactly when there is a profile whose id is non-empty, that is, when the owner id is non-empty. |
| `Listing.BuildListing` | useListingForm.js:97-109 | The row copies the user id, photos, title, description, category, location and type. It has a price (the parsed one) exactly for a sale, and trade preferences (the draft's) exactly for a trade, so never both. It is not boosted and is active. |
| `Listing.Decimal` | useListingForm.js:45 | The rendering of the clock reading is a non-empty string of decimal digits with no leading zero, except for the reading 0 itself. |
| `Listing.DecimalRoundTrip` | useListingForm.js:45 | The clock rendering in the key is the decimal numeral of the reading: reading its digits back gives the reading. |
| `ListingFormHook.ListingForm.constructor` | useListingForm.js:12-22 | A fresh form has empty text fields, no photos or previews, type "sale", and neither flag raised. |
| `ListingFormHook.ListingForm.HandlePhotoChange` | useListingForm.js:24-64 | An empty selection changes nothing. A full form raises only the limit warning and changes nothing. Without identity, the only notice is the abort notice: no upload is requested, photos and previews are as before, and `uploadingPhotos` is false. Otherwise: photos gain exactly the batch's successful URLs in order, previews gain one token per processed file, the notices are the per-file upload errors, the upload keys are those of the processed files, and `uploadingPhotos` is false. Every upload request is made while `uploadingPhotos` is true (ghost result `busyAtUpload`). The photo bound is preserved, and only `photos`, `photoPreviews` and `uploadingPhotos` may change. |
| `ListingFormHook.ListingForm.UploadBatch` | useListingForm.js:33-57 | The loop completes exactly when the batch is empty or identity is present. When it completes, it yields the successful URLs, the prior previews plus one per file, the upload-error notices, and the request keys, all in file order. An aborted batch yields only the abort notice and no request. The loop may only run while `uploadingPhotos` is raised. |
| `ListingFormHook.ListingForm.RemovePhoto` | useListingForm.js:66-73 | Both `photos` and `photoPreviews` lose position `index` and keep the rest in order, or stay as they were when `index` is outside them. The photo bound is preserved, and nothing else changes. |
| `ListingFormHook.ListingForm.HandleSubmit` | useListingForm.js:75-131 | If the guard fails: its notice is reported, no row is inserted, there is no navigation, and `isSubmitting` is untouched. Otherwise: exactly the row `BuildListing` makes from the draft is handed to the store, `isSubmitting` is true at the moment of hand-off (ghost result `busyAtInsert`), and it is false afterwards. Success reports creation and navigates to the listings page. An error reports the store's message and stays put. The draft is never changed. |
| `Scenarios.SaleEndToEnd` | useListingForm.js:24-120 | Setup: user "u1" adds one file stored at "u1/171234-a.png", price "25", category "books", a sale, and the store accepts. Then one upload is requested under that key. The row has price 25, the one public URL, no trade preferences, is not boosted and is active. The form reports creation and navigates. |
| `Scenarios.InsertErrorEndToEnd` | useListingForm.js:95-130 | With the same draft, an insert error "network error" leaves the form not busy and the draft populated. The notice shows "network error", and there is no navigation. |

## Left out

- The storage `upload`/`getPublicUrl` calls and the table `insert` are not modelled as calls. Their answers are inputs: each file's `upload` outcome, the `publicUrl` function and the `InsertOutcome`.
- `toast`, `navigate` and `console.error` are side effects of the UI. Notices and the route are returned values, and the console log is not modelled. The text of each toast is not modelled except the insert-failure description, and the file name and message of the upload-error description. Each toast is stood for by its `Notice` constructor and the severity `SeverityOf` gives it.
- `URL.createObjectURL` is modelled as an opaque token supplied with each file. Releasing preview tokens is commented out in the source and is not modelled.
- `Date.now()` is a clock reading supplied with each file.
- `parseFloat` is an abstract parameter. Floating-point values are reals plus the three non-finite values. How the store serialises NaN or an infinity in the row is not modelled.
- The React state machinery is not modelled. State updates are direct, sequential field assignments. Overlapping asynchronous calls are not modelled, for example a second batch started while the first is still uploading, which would read a stale `photos.length`.
- The `profile` the hook is created with is a constant of the form. An identity is present when the profile exists and its id is a non-empty string. In the source the hook receives `profile` again on every render, so a form can gain or change its identity after it is created, for example when the profile loads late. The model cannot express that. Each operation reads one profile throughout, so its contract is unaffected.
- The field setters (`setTitle`, `setPrice`, …) are plain field assignments and have no methods of their own.
- DOM plumbing is not modelled: `e.preventDefault()`, resetting `e.target.value`, and the `e.target.files` null test. A missing file list is modelled as an empty batch.
- Intake exceptions and hung calls are not modelled. `handlePhotoChange` has no try/catch. If `upload` throws, or `URL.createObjectURL` throws, the handler stops with `uploadingPhotos` still true and nothing committed, but `UploadOutcome` can only be `Stored` or `Rejected`, so the model cannot express that path. Every call is also assumed to return. A hung upload or insert leaves `uploadingPhotos` or `isSubmitting` raised, and the model has no such state.
- Exceptions other than the store's error answer (a thrown network failure) take the same path and are not told apart.
