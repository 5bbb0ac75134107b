# Equipment marketplace: identity, authorization and provisioning core in Dafny

This project models the server and client logic of a marketplace web application built on a hosted Postgres back end. The back end provides an identity provider, tables with row-level security, and object storage. Companies list construction machines on the marketplace.

Each request to the back end is replaced by one of:
- **an input value** — the outcome of a lookup (`Found(row)`, `Missing`, `Failed(message)`), or a fault (`Option<string>`);
- **an abstract store** — a class whose fields are maps keyed by id: `authUsers`, `companies`, `users`, `machines`.

The model then states what each handler does with those inputs, and proves properties of it.

| module | file | models |
|---|---|---|
| `Wrappers` | wrappers.dfy | `Option` and `Result` |
| `Text` | text.dfy | the JavaScript string operations the code uses: `trim`, `toLowerCase` on ASCII and full-width Latin letters, `includes`, `startsWith`, `/…/i` on an ASCII pattern, `split(c).pop()`, UTF-16 `length`, decimal interpolation |
| `Sequences` | sequences.dfy | `Array.prototype.filter` and index removal |
| `Identity` | identity.dfy | `lib/useMe.ts`: the closed enums, the records, and the `refresh` chain as a `MeHook` class proved against `Resolve` |
| `Ownership` | ownership.dfy | `app/supplier/actions.ts`: the ownership-checked status toggle over a `MachineStore` |
| `AdminGate` | admin_gate.dfy | `lib/requirePlatformAdmin.ts`: the three-way gate |
| `Provisioning` | provisioning.dfy | `app/auth/actions.ts`: ordered validation, then three writes with compensating deletes, over a `ProvisioningStore` |
| `AdminUsers` | admin_users.dfy | `app/admin/users/page.tsx`: query parsing, company-id de-duplication, the two indexing loops, the join and the conjunction filter |
| `Storage` | storage.dfy | the upload rules shared by `app/supplier/page.tsx` and `app/me/page.tsx` |
| `SupplierDashboard` | supplier_dashboard.dfy | `app/supplier/page.tsx`: image slots, image columns, toggle, delete and save |
| `Account` | account.dfy | `app/me/page.tsx`: avatar choice, profile save, avatar delete (with the storage-path match) and avatar upload |
| `Catalogue` | catalogue.dfy | `App.tsx` over `types.ts`: search and tab filter, login switch, gated specification cells, post button |
| `AuthPage` | auth_page.dfy | `app/auth/page.tsx`: the three modes and the submit dispatch |
| `ResetPassword` | reset_password.dfy | `app/auth/reset-password/page.tsx`: token verdict, password checks, submit, button rule |

How the source's form is kept:
- **Pure code becomes functions with named results** — the `refresh` resolution, the gate, validation, the filters, the path match.
- **Stateful handlers become methods** on classes whose fields the source updates. Each method's `ensures` ties the new state to a specification function of the old state, or spells out the new state case by case.
- **The two `for` loops over Maps** in the admin page, and the file loop of `handleChangeEditImages`, are `while` loops with invariants.
- **Modes.** The page's `mode` (`'login' | 'signup' | 'reset'`) is the datatype `AuthPage.Mode`. `isLoginMode`, `isSignupMode` and `isResetMode` each test this one value, so exactly one of them holds at a time.

The model follows the code in these choices:
- Roles are `COMPANY_ADMIN`, `COMPANY_MEMBER` and `PLATFORM_ADMIN`.
- In `refresh`, a missing profile row or company row is not an error (`Identity.MissingRowsAreNotErrors`).
- Falsy ids count as absent: an empty `company_id` string is treated like null, as JavaScript truthiness does.
- The avatar extension of a name with no dot is the whole name, because `split('.').pop()` returns it.

## Model

| member | source | states |
|---|---|---|
| Identity.SessionMissingAnyCase | lib/useMe.ts:45-49 | the phrase "Auth session missing", in any ASCII letter case and anywhere in the message, marks the error as a missing session |
| Identity.Resolve | lib/useMe.ts:56-137 | the result has an error exactly when the auth lookup fails for a reason other than a missing session, the profile query fails, or the company query for a truthy `company_id` fails; `me` exists exactly for a signed-in user and carries their id and email; a profile it carries is the row stored under the user's id, and a found row is always carried; a company it carries is the row stored under the profile's `company_id`, and is always carried when found; the metadata `avatarUrl` and `displayName` are the auth user's on every path without an error, and are null on the error paths |
| Identity.MeHook.Refresh | lib/useMe.ts:56-137 | after one refresh, `isLoading` is false and `(me, error)` is the resolution of the three lookups |
| Identity.MeHook.SignOut | lib/useMe.ts:139-142 | `me` is null after sign-out |
| Identity.MissingSessionIsNotAnError | lib/useMe.ts:60-68 | a session-missing auth error gives `me = null` and `error = null` |
| Identity.OtherAuthErrorIsSurfaced | lib/useMe.ts:69-74 | any other auth error gives `me = null` and that error's message |
| Identity.ProfileErrorKeepsSession | lib/useMe.ts:84-101 | a failed profile query keeps the id and email, drops the profile and the company, and reports the query's message |
| Identity.CompanyLookupNeedsCompanyId | lib/useMe.ts:104-105 | without a found profile that has a truthy `company_id`, the companies table does not affect the outcome, and `company` is null |
| Identity.CompanyErrorKeepsProfile | lib/useMe.ts:104-122 | a failed company query keeps the profile, drops the company and reports the message |
| Identity.MissingRowsAreNotErrors | lib/useMe.ts:123-135 | a missing profile row, or a missing company row, leaves `error` null and `company` null; a found profile is kept |
| Identity.FoundRowsAreCarried | lib/useMe.ts:123-135 | when both rows are found, `me` carries the session, the profile, the company and the auth user's metadata, with no error |
| Ownership.NextStatusFlips | app/supplier/actions.ts:64-65 | `STOPPED` is written exactly when the stored status is `PUBLISHED`; any other stored text becomes `PUBLISHED` |
| Ownership.ToggleTwiceRestores | app/supplier/actions.ts:64-65 | toggling a `PUBLISHED` or `STOPPED` status twice restores it |
| Ownership.ToggleDecision | app/supplier/actions.ts:10-77 | the toggle succeeds exactly for a signed-in user with a profile and a truthy `company_id`, when the read goes through, the listing exists, its stored owner is that company and the update goes through; the reported status is the flip of the stored one; the client's `currentStatus` and `ownerCompanyId` are not inputs |
| Ownership.MachineStore.ToggleMachineStatus | app/supplier/actions.ts:10-77 | the result is the decision over the stores before the call, and the machines store becomes the store after that decision; the client-supplied owner and status are accepted and ignored |
| Ownership.NoSessionIsRefused | app/supplier/actions.ts:17-21 | no user, or a provider error, refuses the toggle and leaves the machines store unchanged |
| Ownership.NoCompanyIsRefused | app/supplier/actions.ts:26-37 | a profile error, a missing profile or an empty `company_id` refuses the toggle |
| Ownership.MissingListingIsRefused | app/supplier/actions.ts:42-53 | a failed read of the listing, or a missing listing, refuses the toggle |
| Ownership.CrossTenantIsDenied | app/supplier/actions.ts:56-61 | a listing owned by another company is refused with the ownership message, and the store is unchanged |
| Ownership.ToggleChangesOnlyTargetStatus | app/supplier/actions.ts:67-76 | a successful toggle keeps every key, changes no other row, and changes only the target row's status, to the returned value |
| Ownership.DoubleToggleRestoresStore | app/supplier/actions.ts:64-76 | two successful toggles of a `PUBLISHED` or `STOPPED` listing by its owner restore the whole store |
| AdminGate.RequirePlatformAdmin | lib/requirePlatformAdmin.ts:10-35 | admits exactly a signed-in user whose profile row has role `PLATFORM_ADMIN`, and the context carries that user's id; every other caller is redirected to `/auth` or `/` |
| AdminGate.NoSessionGoesToSignIn | lib/requirePlatformAdmin.ts:13-16 | an auth error or no user redirects to `/auth` |
| AdminGate.NoProfileGoesToSignIn | lib/requirePlatformAdmin.ts:20-28 | a profile error or a missing profile redirects to `/auth` |
| AdminGate.OtherRolesGoHome | lib/requirePlatformAdmin.ts:30-32 | any role other than `PLATFORM_ADMIN` redirects to `/` |
| AdminGate.ChecksRunInOrder | lib/requirePlatformAdmin.ts:13-32 | without a session the profile store does not matter; a redirect home implies the session and the profile both resolved |
| Provisioning.NormalizeOptionalText | app/auth/actions.ts:29-32 | null exactly for absent or blank input, and otherwise the trimmed text, non-empty and with no white space at either end |
| Provisioning.ParseCompanyType | app/auth/actions.ts:34-36 | a company type exists exactly for `DEMAND`, `SUPPLY` and `BOTH`, and its stored name is the input |
| Provisioning.CompanyTypeNamesAreValid | app/auth/actions.ts:34-36 | the name of every company type passes `isCompanyType` and parses back to that type |
| Provisioning.Validate | app/auth/actions.ts:39-55 | on success the email is trimmed and lower-cased, the password is passed through untrimmed, the other texts are trimmed, every field is non-empty, and the type is the one named |
| Provisioning.ValidateFailsOnFirstFailure | app/auth/actions.ts:48-55 | validation fails exactly when some check fails, with the message of the first failing check in the order email, password, userName, companyName, phone, prefecture, city, companyType |
| Provisioning.ProvisioningStore.SignUpWithCompany | app/auth/actions.ts:38-117 | the result and the three stores after the call are those of `SignUp` over the stores before it |
| Provisioning.ProvisioningStore.Write | app/auth/actions.ts:57-116 | the result and the stores are those of `Provision`: create the auth user, insert the company, upsert the profile, and delete the earlier writes in reverse order on failure |
| Provisioning.ValidationFailureWritesNothing | app/auth/actions.ts:48-55 | a validation failure writes nothing and returns the first failing check's message |
| Provisioning.CreateUserFailureWritesNothing | app/auth/actions.ts:66-68 | a failed auth-user creation writes nothing |
| Provisioning.CompanyFailureRollsBack | app/auth/actions.ts:86-90 | a failed company insert writes no company and no profile; with a fresh user id and a delete that goes through, the stores are exactly as before |
| Provisioning.ProfileFailureRollsBack | app/auth/actions.ts:109-114 | a failed profile upsert returns the upsert's message and writes no profile; with fresh ids and both deletes going through, the stores are exactly as before |
| Provisioning.SuccessWritesAllThree | app/auth/actions.ts:58-116 | on success the result carries both new ids; the account holds the normalised email and the raw password; the company is `ACTIVE` with the normalised fields; the profile is an active `COMPANY_ADMIN` of the new company, replacing any row under that id |
| Provisioning.SignUpThenResolve | app/auth/actions.ts:96-116 | after a successful signup, resolving the new user gives no error, a `COMPANY_ADMIN` profile and the new company row |
| AdminUsers.ParseFilter | app/admin/users/page.tsx:29-38 | a filter value is `all` for blank or non-text input and the trimmed text otherwise, and is never empty |
| AdminUsers.ParseSearchParams | app/admin/users/page.tsx:33-40 | `q` is the trimmed text (possibly empty), and the four other filters are parsed as above |
| AdminUsers.SelectedOption | app/admin/users/page.tsx:190-241 | a select shows its default value when that is one of its options, and its first option otherwise |
| AdminUsers.FormSelectsHaveFormOptions | app/admin/users/page.tsx:195-240 | each of the four selects lists `all` first, and no option has white space at either end |
| AdminUsers.ResubmitKeepsFilter | app/admin/users/page.tsx:190-241 | submitting the form unchanged: a filter that is one of the select's options parses back to itself; any other value is shown as the first option and comes back as `all` |
| AdminUsers.ResubmitKeepsQuery | app/admin/users/page.tsx:179-181 | the search box is a text input showing `q`, so submitting it unchanged parses to the same query |
| AdminUsers.PresentCompanyIds | app/admin/users/page.tsx:72 | an id is kept exactly when it is non-empty and some fetched user has it as `company_id` |
| AdminUsers.Distinct | app/admin/users/page.tsx:71-73 | `Array.from(new Set(…))` has no duplicates and the same elements |
| AdminUsers.CompanyIds | app/admin/users/page.tsx:71-73 | the company ids are distinct, and an id is among them exactly when it is non-empty and some fetched user has it |
| AdminUsers.IndexById | app/admin/users/page.tsx:89-91 | every fetched company's id is a key, and each entry is a fetched row stored under its own id |
| AdminUsers.IndexByIdLastWins | app/admin/users/page.tsx:89-91 | the last fetched row with a given id is the one kept |
| AdminUsers.IndexCompanies | app/admin/users/page.tsx:89-91 | the loop builds the index that `IndexById` specifies |
| AdminUsers.ListingCounts | app/admin/users/page.tsx:105-109 | no empty owner is a key, and every count is positive |
| AdminUsers.CountListings | app/admin/users/page.tsx:105-109 | the loop, skipping rows without an owner, builds the map that `ListingCounts` specifies |
| AdminUsers.ListingCountsCountRows | app/admin/users/page.tsx:105-109 | for every non-empty id, the map holds the number of fetched rows that id owns |
| AdminUsers.QueryCountsPublished | app/admin/users/page.tsx:95-100 | among the rows the machines query returns, a requested company owns exactly its `PUBLISHED` listings |
| AdminUsers.NormalizeRow | app/admin/users/page.tsx:113-117 | a company is attached exactly for a truthy `company_id` that the index holds, and it is the indexed row; without a company the listing count is 0, otherwise it is the company's count |
| AdminUsers.NormalizeAll | app/admin/users/page.tsx:113-117 | the join keeps every user, in order, each normalised |
| AdminUsers.AdminUsersPage | app/admin/users/page.tsx:49-135 | the page renders exactly when the gate admits the caller, and then shows the specified view; otherwise it redirects where the gate says |
| AdminUsers.LoadIndexes | app/admin/users/page.tsx:71-111 | both indexes and both error messages are as specified; the lookups run only when some user has a company id |
| AdminUsers.NoCompanyIdsNoLookups | app/admin/users/page.tsx:79 | with no company id among the users, the view depends on neither the companies store nor the machines store, and reports no lookup error |
| AdminUsers.ListingCountIsPublishedCount | app/admin/users/page.tsx:95-117 | a user whose company resolved is shown with the number of `PUBLISHED` listings that company owns |
| AdminUsers.OpenFiltersShowEverything | app/admin/users/page.tsx:119-135 | with every filter at `all` and an empty `q`, every joined row is shown |
| AdminUsers.FilteredIsOrderedSelection | app/admin/users/page.tsx:119-135 | the shown rows are an order-preserving subsequence; a row is shown exactly when it passes every filter |
| AdminUsers.NullActiveIsExcluded | app/admin/users/page.tsx:121-122 | a user with null `is_active` is excluded by both `active=true` and `active=false` |
| AdminUsers.NoCompanyMatchesNone | app/admin/users/page.tsx:124-128 | a user without a company passes a company filter exactly when it is `all` or `NONE` |
| AdminUsers.SearchFindsNames | app/admin/users/page.tsx:130-133 | the search finds a user whose own name, or whose company's name, contains the query in any ASCII or full-width Latin letter case |
| Text.Trim | app/admin/users/page.tsx:34 | `trim` is the input with a blank prefix and a blank suffix cut off; it is empty exactly for blank input, and otherwise starts and ends with a non-space |
| Text.TrimIdempotent | app/admin/users/page.tsx:34 | trimming twice is trimming once |
| Text.Utf16Length | app/auth/reset-password/page.tsx:45 | a string's `length` lies between its number of characters and twice that |
| Text.Utf16LengthAppend | app/auth/reset-password/page.tsx:45 | the `length` of a concatenation is the sum of the lengths |
| Text.Utf16LengthOfBmp | app/auth/reset-password/page.tsx:45 | `length` equals the number of characters exactly when no character lies outside the Basic Multilingual Plane |
| Text.LastSegment | app/me/page.tsx:251 | `split(sep).pop()` is a suffix with no separator, preceded by a separator when it is not the whole text |
| Storage.FileExtension | app/me/page.tsx:251 | the extension is never empty: the text after the last dot, or `jpg` when that is empty |
| Storage.ExtensionAfterLastDot | app/supplier/page.tsx:167 | a name `base.ext` with no dot in `ext` yields `ext` |
| Storage.ExtensionOfDotlessName | app/me/page.tsx:251 | a name without a dot is its own extension |
| Storage.UploadErrorText | app/me/page.tsx:272-284 | the text shown is the bucket text, the security text, the message or the fallback, and the fallback when there is no message |
| Storage.MissingBucketAnyCase | app/supplier/page.tsx:178-183 | a message that mentions a missing bucket, in any ASCII case and anywhere, gets the bucket text |
| SupplierDashboard.AllowedFiles | app/supplier/page.tsx:257-258 | at most the remaining slots, taken from the front of the pick |
| SupplierDashboard.AddedImages | app/supplier/page.tsx:257-274 | the slots never overflow; only image files are added, in pick order; no image file within the allowance is dropped |
| SupplierDashboard.AllImageUrls | app/supplier/page.tsx:197 | at most five URLs, taken from the front of existing followed by new |
| SupplierDashboard.MainImageUrl | app/supplier/page.tsx:198 | the main image is the first URL when there is one and it is non-empty, and null otherwise |
| SupplierDashboard.StoredImageUrls | app/supplier/page.tsx:223 | `image_urls` is null exactly when there are no images, and otherwise the list itself |
| SupplierDashboard.LocationText | app/supplier/page.tsx:329-330 | empty exactly when neither part is truthy; with one truthy part it is that part; with both it is the prefecture, one space and the city |
| SupplierDashboard.LocationTextIsJoin | app/supplier/page.tsx:329-330 | the location text equals a general filter-truthy-then-join of the two parts |
| SupplierDashboard.SelectImages | app/supplier/page.tsx:260-267 | the loop keeps exactly the image files in order, and reports a refusal exactly when some file is not an image |
| SupplierDashboard.Dashboard.OpenEdit | app/supplier/page.tsx:113-144 | the form starts with `image_urls` when it is non-empty, else `[main_image_url]` when that is set, else none, with no new images and cleared banners |
| SupplierDashboard.Dashboard.ClickImageUpload | app/supplier/page.tsx:239-242 | opening the picker clears the error |
| SupplierDashboard.Dashboard.ChangeEditImages | app/supplier/page.tsx:244-276 | with five or more images the form is unchanged and the limit error is set; otherwise the added images are appended after the previous new ones, and the type error is set when a file in the allowance is refused |
| SupplierDashboard.Dashboard.RemoveExistingImage | app/supplier/page.tsx:278-284 | removes exactly the existing image at that index |
| SupplierDashboard.Dashboard.RemoveNewImage | app/supplier/page.tsx:286-292 | removes exactly the new image at that index |
| SupplierDashboard.Dashboard.ToggleStatus | app/supplier/page.tsx:294-314 | without a company id nothing happens; on an update error only the error is set; otherwise the row is flipped only where id and owner both match, and the message names the new status |
| SupplierDashboard.Dashboard.Delete | app/supplier/page.tsx:316-327 | without a company id or a confirmation nothing happens; otherwise the row with that id is gone and every other row is kept as it was; nothing in the contract depends on who owns the deleted row, as the query has no ownership filter |
| SupplierDashboard.Dashboard.SaveEdit | app/supplier/page.tsx:146-237 | a failed upload sets the translated error and writes nothing; otherwise the first five images, the main image and the status are written to the row with the form's id, and the form closes; `savingEdit` ends false |
| SupplierDashboard.SlotsNeverOverflow | app/supplier/page.tsx:248-274 | a pick never takes the form past five images |
| SupplierDashboard.AddedImagesKeepPickOrder | app/supplier/page.tsx:258-274 | the added images are an order-preserving subsequence of the picked files |
| SupplierDashboard.ReopenShowsSavedImages | app/supplier/page.tsx:115 | reopening a saved listing shows exactly the saved images, and re-saving it unchanged writes the same images |
| SupplierDashboard.SavedColumnsAgree | app/supplier/page.tsx:222-223 | `image_urls` is null exactly for no images; the main image is the head of `image_urls`; the owner is untouched |
| SupplierDashboard.ClientToggleAgreesWithServer | app/supplier/page.tsx:299-305 | on a current copy of the status, the dashboard's toggle writes what the server action writes |
| Account.ChooseAvatar | app/me/page.tsx:60-64 | the user's avatar when truthy; otherwise the mock avatar when truthy; otherwise the fallback |
| Account.FallbackIsUnreachable | constants.tsx:11 | the mock avatar is always defined, so the fallback URL is never chosen |
| Account.ProfileAuthUpdate | app/me/page.tsx:151-162 | the email is sent exactly when its trimmed value is non-empty and differs from the current email; the display name is the trimmed text, or null when it is empty |
| Account.UnchangedEmailIsNotSent | app/me/page.tsx:156-158 | the email already on file, padded with white space, is not sent |
| Account.TrimPadded | app/me/page.tsx:133-135 | padding trimmed text with white space on both sides trims back to it |
| Account.MatchAt | app/me/page.tsx:194 | a match attempt at one position returns the path it captures |
| Account.MatchAtFindsPath | app/me/page.tsx:194 | the attempt finds every match there is, and its capture is the only one |
| Account.FirstMatchIndex | app/me/page.tsx:194 | the leftmost position at or after `j` where the pattern matches, or none when it matches nowhere |
| Account.MatchMentionsMarker | app/me/page.tsx:193-194 | every match contains `/storage/v1/object`, so the `includes` test rejects none |
| Account.AvatarStoragePath | app/me/page.tsx:189-198 | a path is found only for a truthy URL that matches `…/object/[public/]avatars/<rest>`, and the path is the rest captured by the leftmost match, since no position before it matches; a URL that matches nowhere gives none |
| Account.PublicUrlYieldsPath | app/me/page.tsx:192-198 | a public avatar URL gives back the object path it was built from |
| Account.UploadPathShape | app/me/page.tsx:251-252 | the upload path lies in the user's own folder, and its extension is the file's extension |
| Account.AccountPage.ShowAvatar | app/me/page.tsx:60-64 | the avatar shown is the user's own, else the mock user's |
| Account.AccountPage.AvatarButtonClick | app/me/page.tsx:117-120 | opening the picker clears the avatar error |
| Account.AccountPage.SaveProfile | app/me/page.tsx:122-177 | without a session only the error is set; a blank user name fails before any write; a failed profile write sends no provider update; otherwise the name is written and then the update, and the first failure's message, or the success message, is shown |
| Account.AccountPage.WriteProfile | app/me/page.tsx:141-170 | the profile name is written, then the provider update, stopping at the first failure |
| Account.AccountPage.AvatarDelete | app/me/page.tsx:179-226 | without a session only the error is set; otherwise the matched object is removed when its removal goes through, `avatar_url` is cleared whether or not the removal worked, and the avatar becomes the mock avatar; `avatarUploading` ends false |
| Account.AccountPage.RemoveAvatar | app/me/page.tsx:200-224 | the removal, then the clear, with the errors each sets |
| Account.AccountPage.AvatarFileChange | app/me/page.tsx:228-291 | a non-image, a file over 5 MiB or a missing session is refused before any upload; otherwise the file is stored at the upload path, and its public URL becomes `avatar_url` and the avatar |
| Account.AccountPage.StoreAvatar | app/me/page.tsx:254-284 | the upload, then the provider update, with the translated errors |
| Catalogue.FilteredMachines | App.tsx:121-128 | exactly the machines that match the search and carry the tab's deal type, each as often as the catalogue lists it, as an order-preserving subsequence |
| Sequences.FilterMultiplicity | App.tsx:121-128 | `filter` keeps each kept element as often as the input has it, and a dropped one not at all |
| Catalogue.EmptyQueryMatches | App.tsx:122 | the empty query matches every machine |
| Catalogue.EverythingShownByDefault | App.tsx:121-123 | with an empty query on the `all` tab, the whole catalogue is shown |
| Catalogue.TabNarrowsAllTab | App.tsx:123-126 | a deal tab shows a machine exactly when the `all` tab does and the machine offers that deal |
| Catalogue.FindsManufacturerAnyCase | App.tsx:122 | a query in any ASCII or full-width Latin letter case finds a machine whose manufacturer contains it |
| Catalogue.FullWidthQueryFindsManufacturer | App.tsx:122 | the full-width query `ＫＯＭＡＴＳＵ` finds a machine whose manufacturer is `ｋｏｍａｔｓｕ` |
| Text.LowerIdempotent | App.tsx:122 | lower-casing a lower-cased text changes nothing |
| Catalogue.SpecGrid | App.tsx:254-258 | four cells; the size is always shown; year, hours and condition are shown only when logged in |
| Catalogue.LockedGridRevealsOnlySize | App.tsx:254-258 | logged out, two machines with the same size show the same grid |
| Catalogue.OpenGridShowsYear | App.tsx:256 | logged in, machines with different years show different year cells |
| Catalogue.DecimalInjective | App.tsx:256 | different numbers print differently |
| Catalogue.CataloguePage.Login | App.tsx:130-132 | only `isLoggedIn` changes, and it becomes true |
| Catalogue.CataloguePage.Logout | App.tsx:134-136 | only `isLoggedIn` changes, and it becomes false |
| Catalogue.CataloguePage.PostButton | App.tsx:398 | logged in, it opens the form; logged out, it logs in instead |
| AuthPage.ResetTarget | app/auth/page.tsx:50-53 | the reset address is empty exactly for a blank email, and is as long as the trimmed email |
| AuthPage.RedirectTo | app/auth/page.tsx:57-61 | undefined exactly when there is no origin, and otherwise the origin followed by `/auth/reset-password` |
| AuthPage.SignInPage.SelectTab | app/auth/page.tsx:141-160 | the tabs select login or signup |
| AuthPage.SignInPage.SwitchResetForm | app/auth/page.tsx:351-380 | the reset links switch mode and clear both banners |
| AuthPage.SignInPage.HandleSubmit | app/auth/page.tsx:42-121 | `submitting` ends false. In reset mode the outcome is that of `SubmitReset`, and in login mode that of `SubmitLogin`. In signup mode: a missing company type or a blank phone fails before provisioning; otherwise the stores are provisioning's result, and the user is sent to onboarding only after provisioning and the follow-up sign-in both succeed |
| AuthPage.SignInPage.SubmitReset | app/auth/page.tsx:49-71 | a blank address fails before any provider call; otherwise one reset request goes out with the trimmed, lower-cased address and the redirect, and its error or the sent message is shown |
| AuthPage.SignInPage.SubmitLogin | app/auth/page.tsx:73-83 | one sign-in request; its error, or the logged-in message and navigation to `/` |
| AuthPage.SignInPage.SubmitSignUp | app/auth/page.tsx:85-115 | the page's two checks, then provisioning, then the follow-up sign-in and navigation to onboarding |
| AuthPage.SignInPage.SignIn | app/auth/page.tsx:106-115 | one sign-in request; its error, or the success message and the navigation |
| AuthPage.PageChecksAreNecessary | app/auth/page.tsx:86-91 | whatever the page's checks refuse, server-side validation would refuse too, writing nothing |
| ResetPassword.TokenValid | app/auth/reset-password/page.tsx:19-38 | valid exactly when the `type` parameter is absent, empty or `recovery`, and the provider answered with a user and no error |
| ResetPassword.ForeignTypeIgnoresProvider | app/auth/reset-password/page.tsx:22-26 | a foreign link type makes the token invalid, whatever the provider would answer |
| ResetPassword.PasswordProblem | app/auth/reset-password/page.tsx:45-52 | too short exactly when under eight UTF-16 units; a mismatch exactly when long enough but different; no problem exactly when long enough and confirmed |
| ResetPassword.AstralCharactersCountTwice | app/auth/reset-password/page.tsx:45 | four characters outside the Basic Multilingual Plane already make a long enough password |
| ResetPassword.BmpPasswordLength | app/auth/reset-password/page.tsx:45 | for a password with no character outside the Basic Multilingual Plane, it is refused as too short exactly when it has fewer than eight characters |
| ResetPassword.Disabled | app/auth/reset-password/page.tsx:72 | disabled exactly when submitting, or when the token is known invalid; an unknown verdict does not disable it |
| ResetPassword.ResetPasswordPage.CheckToken | app/auth/reset-password/page.tsx:19-38 | the verdict stored is `TokenValid` of the link and the provider's answer |
| ResetPassword.ResetPasswordPage.HandleSubmit | app/auth/reset-password/page.tsx:40-70 | a rejected password never reaches the provider; otherwise one update is sent, and its error, or the success message and the scheduled redirect to `/auth`, follow, and `submitting` ends false |

## Left out

- `Text.Lower` models `toLowerCase` on the ASCII capitals and the full-width Latin capitals (U+FF21-U+FF3A) only. Other cased letters keep their case in the model: Greek, Cyrillic, accented Latin and the Kelvin sign, for example. The source lower-cases them with full Unicode rules, which affects three kinds of use:
  - The fixed phrases tested with `/…/i` are ASCII patterns, and their tests are exact.
  - The catalogue search (App.tsx:122) and the admin `q` filter (app/admin/users/page.tsx:130-133) agree with the source only when the name and the query differ in case on those letters. A machine named in Greek capitals, searched in Greek small letters, is shown by the source and hidden by the model.
  - Email normalisation also agrees only on those letters. This covers the address sent to the provider and stored at sign-up (app/auth/actions.ts:39-40) and the reset target (app/auth/page.tsx:50). Any other upper-case letter in an address is lower-cased by the source and kept by the model.
- `Catalogue.Machine`: `yearOfManufacture` and `operatingHours` are optional `number`s in the source (types.ts:22-23) but optional natural numbers (`Option<nat>`) here. `NumberText` prints them in decimal, so the `${n}年` and `${n}h` cells (App.tsx:256-257) are modelled only for non-negative integers. A fractional or negative value prints differently in the source. `condition` is the integer grade 1-5, which the source's type admits.
- Query limits (`limit(500)`, `limit(1000)`, `limit(10000)`) and orderings (`order('created_at')`) are not modelled: a query returns every matching row.
- The edit form's other fields (title, maker, prices, dates and the like) and their `Number(...)` parsing are not modelled, because they involve floating point. The save model writes only the image columns and the status.
- Date formatting (`formatDateTimeJa`, `toLocaleString`) and `Date.now()` are not modelled; the upload timestamp is a parameter.
- The reset-password `setTimeout` is modelled as a scheduled redirect; the timer itself is not.
- Storage uploads, `getPublicUrl` and `URL.createObjectURL` are I/O. Their outcomes (`Step`, `UploadOutcome`) and the public URL are parameters.
- Dashboard save uploads each new image in turn. This is modelled as one `UploadOutcome`; which upload failed, and the objects stored before the failure, are not tracked.
- The `onAuthStateChange` subscription and the effect lifecycles of `useMe` are not modelled. So are the `refresh()` calls after sign-in and after a profile save, the redirects in effects, and the favourites loading in `app/me/page.tsx`. These are event-driven.
- `loadMachines` after a dashboard write is not modelled as a query; its error is the `reloadFault` parameter.
- Row-level security is not modelled inside the stores. A refused query is a `Failed` lookup or a fault parameter.
- The error of the admin page's `users` query is only rendered by the page, so it is not modelled; the users are given as a sequence.
- The `catch` defaults for an error without a message (`'エラーが発生しました'` on the sign-in page, the password-update default on the reset page) are not modelled. Every fault the model takes carries a message.
- Resetting `event.target.value` after a file pick is not modelled; it is UI state only.
- JSX rendering, router internals and `window.confirm` are not modelled. The confirmation is a boolean parameter.
- `owner_company_id` filtering in the dashboard toggle: a successful update that matched no row still shows the success message. The model does the same, because that is what the code does.
- `ResetPassword.ResetPasswordPage.HandleSubmit`: the submit does not check `isTokenValid`. Only the disabled button guards it, and the model keeps that.
- Files named `app/auth/page 2.tsx` and `lib/useMe 2.ts` are stale copies of the modelled files and are not part of this model.
- `AdminUsers.AdminUsersPage`: the `requirePlatformAdmin` redirect is modelled as a returned outcome rather than a thrown navigation.
- `Identity.MeHook.SignOut`: the provider's `signOut` call is not modelled; only the state change is.
