# SupplyMela marketplace core in Dafny

A model of the core of SupplyMela, a vendor marketplace. Vendors fill in a
three-step KYC profile, upload compliance documents and list products.
Administrators approve or reject vendors and rate them. The model covers:

- the trust score (`backend/utils/trustScore.js`): eight weighted completeness tests, clamped to 100;
- the vendor and product schemas (`backend/models/Vendor.js`, `backend/models/product.js`):
  datatypes, defaults and validators;
- the vendor handlers (`backend/controllers/vendorController.js`): reading the profile, the
  whitelisted profile update with its file uploads, and the document upload that resets the KYC
  status and reports the trust score;
- the admin handlers (`backend/controllers/adminController.js`): reading a vendor, setting its KYC
  status and rating it;
- the product handlers (`backend/controllers/productController.js`): create and update, with
  their image and catalogue uploads;
- the profile wizard (`frontend/src/pages/profile.jsx`): the phone, PAN, GST and CIN format
  checks, the step each applies to, the request body it builds, the load-time normalisation, and
  the wizard state (form, picked file names, step);
- the public vendor list (`frontend/src/pages/vendorList.jsx`): approved vendors only, stably
  sorted by rating;
- the admin dashboard (`frontend/src/admin/dashboard.jsx`): the search, the status counts and the
  star row.

Modules follow the source files. `Common` holds the Option and Result types, the HTTP-like
failures and the abstract file upload. `Js` holds JavaScript values, truthiness and optional
chaining. `VendorView` holds the vendor as the two list pages receive it.

Each handler is a method over a collection class (`VendorCollection`, `ProductCollection`) whose
`records` map the handler reads and writes. It is proved against a pure function of the old
record: `ProfileUpdated`, `DocumentUploaded`, `CreatedProduct`, `UpdatedProduct` and so on. The
properties the source promises are proved about those functions. The score stays a sequence of
eight guarded additions followed by the clamp. Loops in the source stay loops:

- the `forEach` that builds the profile updates;
- the file loop of `updateProfile`;
- the image upload loop;
- the FormData loop.

Requests run one at a time. The object store is a parameter: each `UploadedFile` carries the URL
the store returned, or None when the upload threw. A `Caller` is the authenticated user the
middleware put on the request.

The model follows the code, in which:

- a product price has no lower bound;
- a rating may be any number in [0, 5], not only an integer;
- any caller may update any product;
- a product or KYC update that fails schema validation is answered with 500, not 4xx;
- the vendor address is one string, not a structured object.

The last point has a consequence that is proved: the score function reads `address.street/city/state/pincode`,
`bankDetails` and `isVerified`, none of which a stored vendor has. So the score the document
upload reports is at most 70 (`VendorModel.StoredVendorScoresAtMostSeventy`).

## Model

| member | source | states |
|---|---|---|
| TrustScore.Criteria | backend/utils/trustScore.js:4-26 | one truthiness test per weight, eight in all |
| TrustScore.Earned | backend/utils/trustScore.js:2-26 | the points earned never exceed the sum of the weights |
| TrustScore.TrustScore | backend/utils/trustScore.js:28 | the score is at most 100 and at most the raw sum; it equals the raw sum up to 100 and is 100 above |
| TrustScore.CalculateTrustScore | backend/utils/trustScore.js:1-29 | the accumulator method (eight guarded additions, then the clamp) returns exactly the weighted, clamped score |
| TrustScore.RawScoreIsGuardedSum | backend/utils/trustScore.js:4-26 | the weighted sum over the criteria is the sum of the eight guarded additions with weights 10,10,20,10,10,20,20,20 |
| TrustScore.ClampedGuardedSum | backend/utils/trustScore.js:28 | `Math.min(score, 100)` applied to the guarded sum is the score |
| TrustScore.WeightsTotal | backend/utils/trustScore.js:4-26 | the weights add up to 120 |
| TrustScore.EmptyRecordScoresZero | backend/utils/trustScore.js:2-28 | a record with no fields scores 0 |
| TrustScore.EmailOnlyScoresTen | backend/utils/trustScore.js:4 | a record with only a non-empty email scores 10 |
| TrustScore.AllTestsPassedScoresHundred | backend/utils/trustScore.js:4-28 | when all eight tests pass the raw sum is 120 and the score is clamped to 100 |
| TrustScore.CompleteExampleScoresHundred | backend/utils/trustScore.js:4-28 | a concrete complete record has raw sum 120 and score 100 |
| TrustScore.AddressNeedsFourParts | backend/utils/trustScore.js:9-14 | the address test passes iff street, city, state and pincode are all truthy members of an address object; a string address fails it |
| TrustScore.BankAndDocumentsNeedBothParts | backend/utils/trustScore.js:16-24 | the bank test needs both accountNumber and ifsc; the documents test needs both gstCert and panCard |
| TrustScore.EarnedFlip | backend/utils/trustScore.js:4-26 | turning one failed test into a passed one adds exactly that test's weight |
| TrustScore.CriterionAddsItsWeight | backend/utils/trustScore.js:4-26 | two records differing in one criterion differ in raw score by that criterion's weight |
| TrustScore.ScoreMonotone | backend/utils/trustScore.js:4-28 | passing more tests never lowers the score |
| TrustScore.FillingFieldNeverLowers | backend/utils/trustScore.js:4-26 | setting a previously falsy field never lowers the score |
| TrustScore.FillingPartNeverLowers | backend/utils/trustScore.js:9-24 | setting a previously falsy member of an address, bank or documents object never lowers the score |
| TrustScore.StoredShapeScoresAtMostSeventy | backend/utils/trustScore.js:9-26 | a record with a string or absent address, no bankDetails and no isVerified scores at most 70 |
| VendorModel.ParseKycStatus | backend/models/Vendor.js:38-42 | the enum accepts exactly "pending", "approved" and "rejected", each naming its status |
| VendorModel.DefaultDocuments | backend/models/Vendor.js:31-36 | new documents have gstCert, panCard and license set to "" and no certifications |
| VendorModel.NewVendor | backend/models/Vendor.js:3-63 | a new vendor gets pending KYC, rating 0 with no reviewer, the default documents, role "vendor" unless given, the creation time, and the schema's validity |
| VendorModel.ScoreView | backend/models/Vendor.js:26-29 | a stored vendor, seen as the object the score reads, has a string address, no bankDetails and no isVerified |
| VendorModel.StoredVendorScoresAtMostSeventy | backend/models/Vendor.js:26-29 | a stored vendor's trust score is at most 70 |
| VendorModel.ScoreIgnoresKycStatus | backend/utils/trustScore.js:4-26 | changing the KYC status keeps the vendor valid and leaves its score unchanged |
| VendorModel.VendorCollection.FindById | backend/controllers/adminController.js:16 | finds the record stored under the id, or nothing when there is none |
| VendorModel.VendorCollection.Save | backend/controllers/adminController.js:32 | the collection afterwards is the old one with this record replaced, and stays valid |
| AdminController.GetVendor | backend/controllers/adminController.js:15-21 | an unknown id gives 404 "Vendor not found"; otherwise the stored record |
| AdminController.WithKycStatus | backend/controllers/adminController.js:31 | only the status changes: text, documents, trust, id, user and creation time are kept |
| AdminController.KycUpdateIdempotent | backend/controllers/adminController.js:31 | setting the same status twice equals setting it once |
| AdminController.UpdateKyc | backend/controllers/adminController.js:24-38 | unknown id: 404 and no write; a status outside the enum: 500 "Failed to update KYC" and no write; otherwise exactly the status is replaced |
| AdminController.RatingGuardAsWritten | backend/controllers/adminController.js:44-46 | the guard `rating < 0 \|\| rating > 5` as written; `MissingRatingPassesGuardAsWritten` and `GuardsAgreeOnNumbers` state that it admits a missing rating and agrees with the corrected guard on every number |
| AdminController.RatingAccepted | backend/controllers/adminController.js:44-46 | the corrected guard: a rating is present and in [0, 5]; `GuardsAgreeOnNumbers` states that 0 and 5 pass and values outside [0, 5] are refused |
| AdminController.MissingRatingPassesGuardAsWritten | backend/controllers/adminController.js:44-46 | the range guard as written lets a request without a rating through, although the intended check refuses it |
| AdminController.GuardsAgreeOnNumbers | backend/controllers/adminController.js:44-46 | on numbers the written guard and the corrected one agree; 0 and 5 pass, values outside [0, 5] are refused |
| AdminController.Rated | backend/controllers/adminController.js:53-55 | the new trust holds the rating, the acting admin and the current time |
| AdminController.RateVendor | backend/controllers/adminController.js:40-66 | a missing or out-of-range rating: 400 before any lookup; unknown id: 404; otherwise only the trust changes, the status is kept and the stored trust is returned |
| VendorController.WithoutPassword | backend/controllers/vendorController.js:13 | the returned record has no password and every other field of the stored one |
| VendorController.GetProfile | backend/controllers/vendorController.js:7-24 | a caller whose role is not "vendor" gets 403 before any lookup; unknown id: 404; otherwise the record without password |
| VendorController.ProfileFieldsAreTextPaths | backend/controllers/vendorController.js:34-38 | the 13 whitelisted fields are schema text paths; kycStatus, trust, email, password, role and documents are not among them |
| VendorController.Whitelisted | backend/controllers/vendorController.js:40-45 | a key is updated iff the body carries it and it is whitelisted, with the body's value |
| VendorController.CollectUpdates | backend/controllers/vendorController.js:40-45 | the `forEach` loop builds exactly the whitelisted part of the body |
| VendorController.FiledDocuments | backend/controllers/vendorController.js:48-56 | the documents after filing each upload in turn; `FiledDocumentsEffect` states what it does to each slot and when it fails |
| VendorController.FiledDocumentsEffect | backend/controllers/vendorController.js:48-56 | filing the uploads fails iff an upload fails; otherwise panCard and gstCert hold the last panFile and gstFile upload or stay as they were, every other document and the certifications are kept |
| VendorController.UploadProfileFiles | backend/controllers/vendorController.js:50-54 | the file loop files each upload in turn and aborts on the first failure |
| VendorController.ProfileUpdated | backend/controllers/vendorController.js:27-72 | the update fails iff an upload fails; status, trust, id, user and creation time never change; whitelisted body fields are written, all other text is kept; no files means documents unchanged, otherwise the documents are the filed ones; validity is kept |
| VendorController.UpdateProfile | backend/controllers/vendorController.js:27-72 | unknown caller: 404 and no write; a failed upload: 500 "Update failed." and no write; otherwise exactly the updated record is written and returned |
| VendorController.AddDocument | backend/controllers/vendorController.js:120-124 | type "certification" appends the URL and keeps the earlier entries; any other type overwrites only that document |
| VendorController.DocumentUploaded | backend/controllers/vendorController.js:120-128 | after an upload the status is pending whatever it was; text, trust, id, user and creation time are kept; validity is kept |
| VendorController.UploadVendorDocument | backend/controllers/vendorController.js:93-146 | no file: 400 before the lookup; unknown vendor: 404; failed upload: 500; all three write nothing; otherwise the document is filed, the status reset, and the answer carries the URL and the trust score of the updated record |
| ProductModel.ParseProductType | backend/models/product.js:14-18 | the type enum accepts exactly "product" and "service" |
| ProductModel.Validate | backend/models/product.js:5-26 | a document is saved iff vendor, a non-empty name, a type from the enum and a price are present; the saved product carries exactly those values, images default to empty |
| ProductModel.NegativePriceIsAccepted | backend/models/product.js:21-24 | a negative price passes validation |
| ProductModel.ProductCollection.FindById | backend/controllers/productController.js:53 | finds the product stored under the id, or nothing |
| ProductModel.ProductCollection.Insert | backend/controllers/productController.js:36-41 | the new product is added under its fresh id and nothing else changes |
| ProductModel.ProductCollection.Save | backend/controllers/productController.js:85 | the collection afterwards is the old one with this product replaced |
| ProductController.UploadImages | backend/controllers/productController.js:12-20 | the loop succeeds iff every upload succeeds, and then yields the URLs in file order |
| ProductController.CreatedProduct | backend/controllers/productController.js:6-48 | creation succeeds iff every upload succeeds and the body has a non-empty name, a valid type and a price; the owner is the body's vendor or the caller; name, type, price, description and specifications come from the body; images are the upload URLs in order; the catalogue is the uploaded URL or "" |
| ProductController.BodyCannotSetUploads | backend/controllers/productController.js:36-41 | images and catalogue in the body never change the created product |
| ProductController.CreateProduct | backend/controllers/productController.js:6-48 | a failure gives 500 "Product creation failed" and no write; otherwise exactly the created product is stored under the new id |
| ProductController.AsFieldsRoundTrip | backend/models/product.js:3-29 | saving a stored product unchanged gives it back |
| ProductController.Overlay | backend/controllers/productController.js:57 | an empty body leaves the document unchanged, a body with every key replaces it, and a complete document stays complete |
| ProductController.OverlayLaws | backend/controllers/productController.js:57 | assigning the same body twice is assigning it once; two bodies in a row act as the second laid over the first |
| ProductController.UpdatedProduct | backend/controllers/productController.js:51-91 | every body key overwrites its field and absent keys are kept; uploaded images replace the whole list in upload order, otherwise the list is kept; the catalogue changes only with a file or a body key; fails iff an upload fails, the name becomes empty or the type leaves the enum |
| ProductController.EmptyUpdateKeepsProduct | backend/controllers/productController.js:57-85 | an empty body without files saves the product unchanged |
| ProductController.UpdateIdempotent | backend/controllers/productController.js:57-85 | sending the same update twice gives the same product as sending it once |
| ProductController.EmptyNameRefused | backend/models/product.js:10-13 | an update that sets the name to "" always fails |
| ProductController.UpdateProduct | backend/controllers/productController.js:51-91 | unknown id: 404 "Product not found" and no write; a failure: 500 "Product update failed" and no write; otherwise exactly the updated product is stored; no owner is compared |
| ProfileChecks.Repeat | frontend/src/pages/profile.jsx:95-97 | `k{n}` is n copies of class k |
| ProfileChecks.MatchesPointwise | frontend/src/pages/profile.jsx:88-97 | an anchored fixed-width pattern accepts a text iff the lengths agree and each character is in the class at its position |
| ProfileChecks.MatchesConcat | frontend/src/pages/profile.jsx:95-97 | matching a concatenated pattern is matching the two parts of the text split at the first pattern's length |
| ProfileChecks.PhoneShape | frontend/src/pages/profile.jsx:88 | a phone passes iff it is exactly ten decimal digits |
| ProfileChecks.PanShape | frontend/src/pages/profile.jsx:95 | a PAN passes iff it is five capitals, four digits and a capital |
| ProfileChecks.GstEmbedsPan | frontend/src/pages/profile.jsx:96 | a GST number passes iff it is two digits, an accepted PAN at positions 2 to 11, one of [1-9A-Z], 'Z' and one of [0-9A-Z]; so it has 15 characters |
| ProfileChecks.CinShape | frontend/src/pages/profile.jsx:97 | a CIN passes iff it is 1 capital, 5 digits, 2 capitals, 4 digits, 3 capitals and 6 digits, 21 characters |
| ProfileChecks.LowerCaseRefused | frontend/src/pages/profile.jsx:95-97 | a lower-case letter anywhere fails every pattern without that literal |
| ProfileChecks.StepError | frontend/src/pages/profile.jsx:86-108 | step 1 fails iff a set phone fails its pattern; step 2 fails iff a set PAN, GST or CIN fails, PAN reported first; no other step checks anything |
| ProfileChecks.BlankFieldsPass | frontend/src/pages/profile.jsx:88-105 | empty or missing values are never checked |
| ProfileChecks.StepsReadTheirOwnFields | frontend/src/pages/profile.jsx:86-108 | step 1 reads only the phone, and step 2 never reads it |
| ProfileChecks.Sendable | frontend/src/pages/profile.jsx:113-121 | a form entry goes into the request iff its value is a file, a string or a number, with that value |
| ProfileChecks.FlatAddress | frontend/src/pages/profile.jsx:43-45 | an object-valued address becomes its truthy street, else ""; other values are kept |
| ProfileChecks.LoadedForm | frontend/src/pages/profile.jsx:32-51 | a missing profile gives an empty form; otherwise every key except panFile, gstFile and documents is kept, with its value, the address flattened |
| ProfileChecks.LoadedAddressIsFlat | frontend/src/pages/profile.jsx:43-45 | an address object with a string or falsy street loads as a string |
| ProfileChecks.LoadIdempotent | frontend/src/pages/profile.jsx:32-51 | normalising a loaded form again changes nothing |
| ProfileWizard.FailureToast | frontend/src/pages/profile.jsx:133 | a refused save shows the server's non-empty message, else "Update failed." |
| ProfileWizard.BuildFormData | frontend/src/pages/profile.jsx:111-121 | the loop over the form's entries puts exactly the sendable entries into the request |
| ProfileWizard.Wizard.constructor | frontend/src/pages/profile.jsx:18-26 | an empty form, empty picked-file names for panFile and gstFile, step 1 |
| ProfileWizard.Wizard.Load | frontend/src/pages/profile.jsx:29-60 | the form becomes the normalised profile; the step is kept |
| ProfileWizard.Wizard.HandleFile | frontend/src/pages/profile.jsx:63-78 | no file: nothing changes; a file goes into the form under its key and its name is shown |
| ProfileWizard.Wizard.RemoveSelectedFile | frontend/src/pages/profile.jsx:138-151 | only that key leaves the form, and its shown name becomes "" |
| ProfileWizard.Wizard.Prev | frontend/src/pages/profile.jsx:81 | the step goes back by one; the button is off on step 1 |
| ProfileWizard.Wizard.Save | frontend/src/pages/profile.jsx:84-137 | a failed check sends nothing and keeps the step; otherwise the sendable entries are sent; accepted on steps 1-2 advances the step by one, accepted on step 3 keeps it and navigates; refused keeps it |
| VendorView.SortRating | frontend/src/pages/vendorList.jsx:13 | a missing trust or rating counts as 0, otherwise the rating |
| VendorList.Approved | frontend/src/pages/vendorList.jsx:12 | every kept vendor is approved, and each approved vendor is kept as often as it occurs |
| VendorList.ApprovedConcat | frontend/src/pages/vendorList.jsx:12 | filtering two joined lists is joining their filtered lists, so the response order is kept |
| VendorList.ApprovedRatedAtCommute | frontend/src/pages/vendorList.jsx:12 | the approved vendors of one rating are the vendors of that rating that are approved, in response order |
| VendorList.SortByRating | frontend/src/pages/vendorList.jsx:13 | the stable sort; `SortPermutes`, `SortOrders` and `SortIsStable` state that it permutes, orders by non-increasing rating and keeps ties in order |
| VendorList.InsertPermutes | frontend/src/pages/vendorList.jsx:13 | inserting adds exactly the inserted vendor |
| VendorList.InsertKeepsOrder | frontend/src/pages/vendorList.jsx:13 | inserting into a non-increasing list keeps it non-increasing |
| VendorList.SortPermutes | frontend/src/pages/vendorList.jsx:13 | sorting is a permutation |
| VendorList.SortOrders | frontend/src/pages/vendorList.jsx:13 | the sorted list is non-increasing by rating |
| VendorList.RatedAt | frontend/src/pages/vendorList.jsx:13 | the sublist of vendors with a given rating has only that rating |
| VendorList.SortIsStable | frontend/src/pages/vendorList.jsx:13 | vendors of equal rating keep their relative order |
| VendorList.Displayed | frontend/src/pages/vendorList.jsx:11-13 | the shown list is a permutation of the approved vendors and is non-increasing by rating |
| VendorList.DisplayedArePreciselyTheApproved | frontend/src/pages/vendorList.jsx:11-13 | the page shows each approved vendor as often as the response lists it, and nothing else |
| VendorList.DisplayedOrder | frontend/src/pages/vendorList.jsx:11-13 | the shown list is non-increasing by rating, and the shown vendors of one rating are exactly the approved vendors of that rating in response order |
| VendorList.UnratedAfterRated | frontend/src/pages/vendorList.jsx:13 | a vendor without trust is shown after every vendor with a positive rating |
| AdminDashboard.Lower | frontend/src/admin/dashboard.jsx:15-16 | lowering keeps the length and lowers each character |
| AdminDashboard.LowerIdempotent | frontend/src/admin/dashboard.jsx:15-16 | lowering twice is lowering once |
| AdminDashboard.IncludesIff | frontend/src/admin/dashboard.jsx:15-16 | `includes` holds iff the term occurs at some position |
| AdminDashboard.IncludesEmpty | frontend/src/admin/dashboard.jsx:15-16 | every text includes the empty text |
| AdminDashboard.Filtered | frontend/src/admin/dashboard.jsx:14-17 | a vendor is listed iff it was fetched and its lowered name or company name includes the lowered term, and each matching vendor is listed as often as it was fetched |
| AdminDashboard.FilteredKeepsOrder | frontend/src/admin/dashboard.jsx:14-17 | the listed vendors are a subsequence of the fetched ones |
| AdminDashboard.NamelessNeverListed | frontend/src/admin/dashboard.jsx:15-16 | a vendor with neither name nor company name is never listed, whatever the term |
| AdminDashboard.EmptySearchListsNamed | frontend/src/admin/dashboard.jsx:14-17 | with an empty term every fetched vendor with a name or company name is listed |
| AdminDashboard.SearchIgnoresCase | frontend/src/admin/dashboard.jsx:15-16 | searching for the lowered term lists the same vendors |
| AdminDashboard.CountStatus | frontend/src/admin/dashboard.jsx:43-44 | a status count never exceeds the number of vendors; it is 0 iff no vendor has the status and equals the length iff every vendor has it |
| AdminDashboard.CountSingle | frontend/src/admin/dashboard.jsx:43-44 | one vendor counts 1 under its own kycStatus and 0 under any other |
| AdminDashboard.CountConcat | frontend/src/admin/dashboard.jsx:43-44 | the count over two lists joined is the sum of their counts |
| AdminDashboard.StatsOf | frontend/src/admin/dashboard.jsx:42-44 | the total is the length of the whole fetched list, the pending and approved cards are the status counts over that list, and pending + approved ≤ total |
| AdminDashboard.CountsDisjoint | frontend/src/admin/dashboard.jsx:43-44 | the counts of two different statuses add up to at most the total |
| AdminDashboard.FilterLowersCounts | frontend/src/admin/dashboard.jsx:14-44 | a count over the listed vendors never exceeds the count over all of them |
| AdminDashboard.StarRow | frontend/src/admin/dashboard.jsx:89-98 | "Unrated" iff the rating is missing or not positive; otherwise five stars, star s filled iff s ≤ rating |
| AdminDashboard.FilledStarsFirst | frontend/src/admin/dashboard.jsx:90-94 | the filled stars come before the empty ones |
| AdminDashboard.SmallRatingShowsEmptyStars | frontend/src/admin/dashboard.jsx:89-98 | a rating strictly between 0 and 1 shows five empty stars rather than "Unrated" |

## Left out

- Authentication, password hashing, tokens and routing: the caller's id and role are inputs.
- The object store and local file clean-up: each upload is an input URL, or a failure.
- Persistence details: `.populate`, `.lean()`, `markModified`, timestamps and concurrent requests.
  The collections are maps changed by one request at a time.
- `getVendors`, `getAllVendors` and `getVendorById`: plain reads with no logic beyond a lookup.
- VendorController.UploadVendorDocument: a type naming no declared document (e.g. "foo") is
  stored in the model's `slots`. Mongoose strict mode would drop it on save.
- VendorController.UploadVendorDocument: the type "certifications" would overwrite the
  certification list with a string. This collision is not modelled.
- VendorController.UploadVendorDocument: the trust score is returned and not stored, because
  `trustScore` is not a schema path.
- VendorController.UpdateProfile: body values are strings, as multipart fields are. A request
  whose documents object is missing in the database is not modelled, since the schema always
  creates one.
- AdminController.UpdateKyc: a request without a status would unset `kycStatus`. The model
  requires a status string.
- AdminController.RateVendor: the rating is a number or absent. A string rating, which JavaScript
  compares numerically and Mongoose casts, is not modelled, and neither is NaN.
- ProductController.CreateProduct: the body is typed, so a price sent as text is not cast, and
  keys outside the schema are not kept. The fresh id is an input.
- ProductModel.Validate: `timestamps` are not modelled.
- ProfileChecks.Passes: a number or array form value is tested through its string form in the
  browser; the model treats every non-string value as failing the check.
- ProfileWizard.BuildFormData: FormData is a map, so the order of entries is not modelled.
- ProfileWizard.Wizard: the text inputs' change handlers, `isSaving`, `loading`, the
  existing-document links, toasts on load and the scroll are presentation.
- AdminDashboard.Lower: only ASCII letters are lowered; full Unicode case mapping is not modelled.
- AdminDashboard.StarRow: it takes the trust object, which the page reads without a guard. The
  schema always provides one.
- The fractional star components (`Star.jsx`, `FractionalRating.jsx`) use floating-point display
  arithmetic.
- The other pages and layouts only post forms and echo state.

## Findings

| source | as written | input that shows it | evidently intended | confidence | as-written member | corrected member |
|---|---|---|---|---|---|---|
| backend/controllers/adminController.js:44-46 | the guard `rating < 0 \|\| rating > 5` (`RatingGuardAsWritten`) is false for an undefined or null rating, so the request passes and the trust rating is overwritten with no value | a rate request whose body has no `rating` | refuse any request whose rating is not a number in [0, 5] with 400 (`RatingAccepted`) | medium, not executed | AdminController.MissingRatingPassesGuardAsWritten | AdminController.RateVendor |
