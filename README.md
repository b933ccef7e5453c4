# Car-rental web client — a Dafny model

The system is the browser client of a car-rental service. Customers browse and search the
fleet, book a car at a branch for a date range, sign in or register, and look after their
profile and their rentals. Administrators use a dashboard to manage cars, branches, rentals
and user accounts. A separate REST back end owns pricing, status transitions and
persistence. The client builds the requests, validates the forms, filters, sorts and pages
the lists it gets back, and keeps the signed-in session in a store that is mirrored into the
browser's local storage.

This project models that client logic in Dafny. There is one module per source file.

- Pure code is written as functions with lemmas: validation schemes, query and request
  builders, filters, sorting, paging and the auth reducer.
- Components and objects that change state step by step are written as classes. Their
  methods carry `modifies` clauses, and each `ensures` ties the new state to a
  specification function of the old state. This covers forms with their fields and error
  maps, page state with its filters and page numbers, the store and the local storage.
- Four helper modules hold what several files share:
  - `Common`: optional values, JavaScript string and array operations.
  - `Entities`: accounts and roles.
  - `ApiClient`: query parameters, the token check before authenticated calls, and the
    extraction of error messages from failed responses.
  - `Pagination`: the window of page numbers and the Previous and Next buttons of the
    admin user and rental lists.

Things the client gets from the browser or from libraries are passed in as parameters:
e-mail and URL checks, the current date, and date and number parsing. Network calls are
modelled as the request they send plus a response value handed back to the caller.

## Model

| member | source | states |
|---|---|---|
| Common.Filter | src/app/dashboard/rentals/page.tsx:93-104 | `Array.prototype.filter`: the result keeps exactly the elements satisfying the predicate, each as many times as the input holds it and none of the others, is no longer than the input, and is an order-preserving subsequence of it |
| Common.Unique | src/app/dashboard/branches/page.tsx:88 | `Array.from(new Set(xs))`: no duplicates, exactly the elements of the input, listed in the order of their first occurrence in the input |
| Common.FirstIndex | src/app/dashboard/branches/page.tsx:88 | the position of an element's first occurrence: it holds the element and no earlier position does |
| Common.FirstIndexPrefix | src/app/dashboard/branches/page.tsx:88 | an element of a prefix first occurs in the whole list where it first occurs in the prefix |
| Common.WithoutIndex | src/components/profile/ProfileForm.tsx:150-154 | `filter((_, i) => i !== index)`: for an index in range the element at that index is removed and the others keep their order; out of range nothing changes |
| Common.ContainsIffOccurs | src/app/dashboard/branches/page.tsx:61-64 | the scanning definition of `includes` holds exactly when the term occurs at some position of the text |
| Common.ContainsEmpty | src/app/rentals/page.tsx:191-206 | every text includes the empty string, which is why an empty search keeps everything |
| Common.OrUndefined | src/components/profile/ProfileForm.tsx:102-104 | `s \|\| undefined`: undefined exactly for the empty string, otherwise the string itself |
| Common.Lower | src/app/dashboard/branches/page.tsx:61-64 | `toLowerCase` keeps the length and lower-cases character by character |
| AuthStorage.Cleared | src/lib/auth.ts:67-78 | after `clearAuthData` neither storage key exists and every other key is untouched |
| AuthStorage.Lookup | src/lib/auth.ts:28-65 | `getAuthData` returns a session only when the auth key holds a session record; any session it returns has a non-empty token and reports `isAuthenticated`; a token stored without an account under the user key reads back as null (lines 43-45, 60) |
| AuthStorage.IsTokenValid | src/lib/auth.ts:80-88 | a token is valid exactly when it is present and non-empty |
| AuthStorage.SaveThenLookup | src/lib/auth.ts:11-22 | round trip: after saving a session with a non-empty token, reading gives back the same account and token with `isAuthenticated` true (via the fallback read, since the token record carries no account, lines 43-52), and the read does not wipe storage |
| AuthStorage.SaveWithoutTokenThenLookup | src/lib/auth.ts:39-60 | a session saved with a missing or empty token reads back as null |
| AuthStorage.ClearThenLookup | src/lib/auth.ts:67-78 | after `clearAuthData` the read returns null (lines 34-35) and wipes nothing |
| AuthStorage.UnparsableAccountIsDiscarded | src/lib/auth.ts:53-56 | when the stored account cannot be parsed, the read returns null and both keys are removed, after which the read stays null |
| AuthStorage.LocalStorage.constructor | src/lib/auth.ts:12-14 | the storage starts with the given availability (false on the server) and contents |
| AuthStorage.LocalStorage.SaveAuthData | src/lib/auth.ts:11-26 | writes the token and flag under `car_rental_auth` and the account under `car_rental_user`; does nothing without a browser storage |
| AuthStorage.LocalStorage.ClearAuthData | src/lib/auth.ts:67-78 | removes both keys; does nothing without a browser storage |
| AuthStorage.LocalStorage.GetAuthData | src/lib/auth.ts:28-65 | returns what `Lookup` gives for the contents before the call (null without a browser storage), and clears both keys exactly when the stored account is unparsable |
| AuthSlice.ReducePreservesSession | src/store/authSlice.ts:55-151 | every reducer keeps "`isAuthenticated` holds exactly when a token is set, and then an account is set" |
| AuthSlice.Reduce | src/store/authSlice.ts:66-150 | signed in after exactly the two success actions, kept by every other action but logout; a success stores the payload's account and token, a profile update replaces only the account, logout gives the initial state, a failure records its message, and `clearError`/`setLoading` leave the session alone |
| AuthSlice.ReduceLoadingFlag | src/store/authSlice.ts:67-141 | start actions raise `loading` and clear `error`; success, failure and logout actions lower `loading` |
| AuthSlice.FailureKeepsSession | src/store/authSlice.ts:84-87 | a register, login or update failure records its message and leaves account, token and `isAuthenticated` unchanged (also lines 106-109, 138-141) |
| AuthSlice.LogoutResets | src/store/authSlice.ts:111-120 | `logout` from any state gives exactly `initialState` (lines 55-61) |
| AuthSlice.Slice.constructor | src/store/store.ts:21-26 | the slice starts from the preloaded state when there is one, else from `initialState` |
| AuthSlice.Slice.RegisterStart | src/store/authSlice.ts:67-70 | the new state is the reducer's image of the old one: loading on, error cleared, nothing else |
| AuthSlice.Slice.RegisterSuccess | src/store/authSlice.ts:71-83 | account and token from the payload, signed in, loading off, error cleared; storage then holds that account and token with the flag true |
| AuthSlice.Slice.RegisterFailure | src/store/authSlice.ts:84-87 | loading off and the message recorded, nothing else |
| AuthSlice.Slice.LoginStart | src/store/authSlice.ts:89-92 | loading on, error cleared, nothing else |
| AuthSlice.Slice.LoginSuccess | src/store/authSlice.ts:93-105 | account and token from the payload, signed in, loading off, error cleared; the session is persisted |
| AuthSlice.Slice.LoginFailure | src/store/authSlice.ts:106-109 | loading off and the message recorded, nothing else |
| AuthSlice.Slice.Logout | src/store/authSlice.ts:111-120 | every field back to its initial value and both storage keys removed |
| AuthSlice.Slice.UpdateUserStart | src/store/authSlice.ts:122-125 | loading on, error cleared, nothing else |
| AuthSlice.Slice.UpdateUserSuccess | src/store/authSlice.ts:126-137 | the account is replaced, token and `isAuthenticated` kept, and storage is rewritten with the current token and flag |
| AuthSlice.Slice.UpdateUserFailure | src/store/authSlice.ts:138-141 | loading off and the message recorded, nothing else |
| AuthSlice.Slice.ClearError | src/store/authSlice.ts:143-145 | only `error` changes, to null |
| AuthSlice.Slice.SetLoading | src/store/authSlice.ts:147-149 | only `loading` changes, to the payload |
| Store.LoadAuthState | src/store/store.ts:5-19 | a state is preloaded exactly when the stored session is authenticated with an account and a non-empty token; it then carries that account and token, with loading off, no error, and the session invariant |
| Store.CreateStore | src/store/store.ts:21-26 | the store's auth state is the preloaded state read from storage, or `initialState` when nothing is preloaded |
| Store.ReloadAfterSignIn | src/store/store.ts:5-19 | reloading after a login success restores exactly the state the login produced (with src/store/authSlice.ts:93-104) |
| Store.ReloadAfterLogout | src/store/store.ts:5-19 | reloading after logout starts from `initialState` (with src/store/authSlice.ts:111-120) |
| Store.ReloadAfterSignedOutUpdate | src/store/authSlice.ts:126-137 | a profile update saved while signed out leaves nothing to restore, because the saved token is null |
| Validation.RegisterErrors | src/lib/validation.ts:3-26 | the keys reported are exactly the schema keys whose rule fails: names under 2 characters, an invalid e-mail, a password or phone under 6 characters, an empty licence or address subfield; the password mismatch is reported under `confirmPassword`, and `dateOfBirth` is never reported |
| Validation.RegisterValidIffNoErrors | src/lib/validation.ts:3-26 | the registration schema accepts the data exactly when no key carries an issue |
| Validation.RegisterValid | src/lib/validation.ts:3-26 | data the registration schema accepts has no key with an issue, and its e-mail and password also pass the login schema |
| Validation.LoginValid | src/lib/validation.ts:28-31 | a malformed e-mail, or a password under six characters, fails the login schema on its own |
| AuthResponse.Classify | src/components/auth/LoginForm.tsx:45-62 | sign-in succeeds exactly for an OK reply carrying an account (`data`, else `user`) and a non-empty token, and then yields that account and token; an OK reply without them gives "Invalid response format"; a failed reply gives `error`, else `message`, else the fallback; a thrown request or unreadable body gives "Network error" (same rules at src/components/auth/RegisterForm.tsx:79-98) |
| LoginForm.Settle | src/components/auth/LoginForm.tsx:50-61 | the dispatched action is always a login success or a login failure |
| LoginForm.SettledState | src/components/auth/LoginForm.tsx:35-62 | after `loginStart` and the settling action the form is no longer loading; an accepted reply signs in with its account and token and clears the error, a rejected one keeps the previous session and shows the message |
| LoginForm.Submit | src/components/auth/LoginForm.tsx:35-63 | input the login schema rejects changes nothing; otherwise `loginStart` then exactly one success or failure, the dialog closes exactly on success, and storage changes exactly on success |
| RegisterForm.FieldsForStep | src/components/auth/RegisterForm.tsx:55-68 | each step's key list has no duplicates, and any step outside 1 to 4 validates nothing |
| RegisterForm.StepsPartitionFields | src/components/auth/RegisterForm.tsx:55-68 | every schema key belongs to exactly one of the four steps (step groups are disjoint and cover `registerSchema`, src/lib/validation.ts:3-22) |
| RegisterForm.AllStepsIffValid | src/components/auth/RegisterForm.tsx:43-68 | passing the per-step check at each of the four steps is the same as the whole schema accepting the data |
| RegisterForm.Wizard.constructor | src/components/auth/RegisterForm.tsx:31 | the wizard starts at step 1 |
| RegisterForm.Wizard.NextStep | src/components/auth/RegisterForm.tsx:43-49 | advances by one, never past step 4, exactly when the current step's fields pass; otherwise the step is unchanged; the step stays in 1 to 4 |
| RegisterForm.Wizard.PrevStep | src/components/auth/RegisterForm.tsx:51-53 | goes back by one, never below step 1 |
| RegisterForm.Settle | src/components/auth/RegisterForm.tsx:84-97 | the dispatched action is always a register success or a register failure |
| RegisterForm.Submit | src/components/auth/RegisterForm.tsx:70-99 | data the schema rejects changes nothing; otherwise `registerStart` then exactly one success or failure, with fallback "Registration failed"; the dialog closes and storage changes exactly on success |
| AuthModal.Modal.constructor | src/components/auth/AuthModal.tsx:14-21 | the dialog starts in its default mode (sign-in unless told otherwise) |
| AuthModal.Modal.OpenChanged | src/components/auth/AuthModal.tsx:23-27 | opening the dialog sets the mode to the default; a closing change leaves it |
| AuthModal.Modal.SwitchToRegister | src/components/auth/AuthModal.tsx:29-31 | the mode becomes sign-up |
| AuthModal.Modal.SwitchToLogin | src/components/auth/AuthModal.tsx:33-35 | the mode becomes sign-in |
| AuthModal.Modal.Close | src/components/auth/AuthModal.tsx:37-40 | closing resets the mode to the default and calls the parent's `onClose` exactly once |
| AuthModal.Modal.Title | src/components/auth/AuthModal.tsx:46 | "Sign In" in sign-in mode, "Create Account" in sign-up mode |
| AuthModal.CloseThenReopen | src/components/auth/AuthModal.tsx:23-40 | whatever form was switched to, closing and reopening shows the default form again |
| DashboardAuth.CustomerGuardAdmitsNobody | src/components/dashboard/DashboardAuth.tsx:35 | as written, a guard requiring "customer" admits no state, because account roles are only "user" and "admin" (src/store/authSlice.ts:27) |
| DashboardAuth.AdmitsAgreesExceptCustomer | src/components/dashboard/DashboardAuth.tsx:29-38 | the corrected admission test agrees with the written one for "all" and "admin", and for "customer" admits exactly signed-in ordinary accounts |
| DashboardAuth.Guard.constructor | src/components/dashboard/DashboardAuth.tsx:14-22 | the guard starts loading, with no redirect |
| DashboardAuth.Guard.CheckAuth | src/components/dashboard/DashboardAuth.tsx:24-41 | a state the written test admits (signed in, and "all" required or the account's role name equal to the required one) ends the loading and redirects nowhere; any other state pushes "/" and stays loading |
| DashboardAuth.Guard.Render | src/components/dashboard/DashboardAuth.tsx:46-63 | the children are shown exactly when loading is over and the visitor is signed in; the verifying view exactly while loading |
| DashboardAuth.MountAndCheck | src/components/dashboard/DashboardAuth.tsx:14-64 | once the access test has run, a fresh guard shows the page exactly when the written test admits the state, which for "all" and "admin" is the intended admission; a guard requiring "customer" never shows the page; otherwise the verifying view stays |
| DashboardLayout.Layout.constructor | src/app/dashboard/layout.tsx:20-21 | not mounted, sidebar closed, no redirect |
| DashboardLayout.Layout.Mount | src/app/dashboard/layout.tsx:23-31 | mounting sets `isMounted` and redirects to "/" exactly when signed out |
| DashboardLayout.Layout.Effect | src/app/dashboard/layout.tsx:27-31 | pushes "/" exactly when mounted and signed out, changing nothing else |
| DashboardLayout.Layout.OpenSidebar | src/app/dashboard/layout.tsx:53 | the menu click opens the sidebar and changes nothing else |
| DashboardLayout.Layout.CloseSidebar | src/app/dashboard/layout.tsx:49 | the sidebar's close callback closes it and changes nothing else |
| DashboardLayout.Layout.Render | src/app/dashboard/layout.tsx:33-60 | only the loading view before mount; the shell with the children exactly when mounted and signed in, carrying the sidebar flag |
| DashboardLayout.SignOutWhileShown | src/app/dashboard/layout.tsx:27-43 | signing out while the shell is shown renders nothing and sends the visitor to "/" (with src/store/authSlice.ts:111-120) |
| ConditionalLayout.ChromeFor | src/components/ConditionalLayout.tsx:13-27 | a path is rendered bare (children only) exactly when its first ten characters are "/dashboard"; every other path gets the navigation bar and footer |
| ConditionalLayout.ExtensionsAreBare | src/components/ConditionalLayout.tsx:13 | the test is a plain prefix check, so any extension of "/dashboard", "/dashboards" included, is rendered bare |
| Accordion.Toggled | src/components/Sections/Accordion.tsx:37-39 | toggling opens the item exactly when it was not the open one, and otherwise leaves nothing open |
| Accordion.ToggleTwice | src/components/Sections/Accordion.tsx:37-39 | toggling an item twice restores the open item only when it was that item; otherwise everything ends closed |
| Accordion.Panels.constructor | src/components/Sections/Accordion.tsx:7 | the first question starts open |
| Accordion.Panels.Toggle | src/components/Sections/Accordion.tsx:37-39 | the open item becomes the toggled value, and stays a valid question index |
| Accordion.Panels.OpenPanels | src/components/Sections/Accordion.tsx:68-79 | at most one answer is expanded, and it is the open index |
| RentalForm.FieldsForStep | src/components/rental/RentalForm.tsx:116-127 | each step's key list has no duplicates, and any step outside 1 to 3 validates nothing |
| RentalForm.StepsPartitionFields | src/components/rental/RentalForm.tsx:116-127 | every schema key belongs to exactly one of the three steps, so the groups are disjoint and cover the schema of lines 36-62 |
| RentalForm.AllStepsIffValid | src/components/rental/RentalForm.tsx:36-62 | passing the per-step check at each of the three steps is the same as the schema accepting the data, where every string except `specialRequests` must be non-empty |
| RentalForm.RentalValid | src/components/rental/RentalForm.tsx:36-62 | data the booking schema accepts has no key with an issue |
| RentalForm.FindBranch | src/components/rental/RentalForm.tsx:314-316 | `branches.find` by id: none exactly when no branch has the id; otherwise a listed branch with that id, the first such |
| RentalForm.Picked | src/components/rental/RentalForm.tsx:313-319 | choosing a branch stores its id as `branch` and its name as `location`, the empty string when the id is unknown; the time is kept (same picker for the return at lines 374-380) |
| RentalForm.Payload | src/components/rental/RentalForm.tsx:133-160 | the payload passes the car id, branch ids, location names, licence number, mileage and payment method through unchanged, converts the start, end and licence-expiry dates and the two times with the given converter, and turns a missing `specialRequests` into ""; a date the converter rejects aborts with "Invalid time value" |
| RentalForm.FailureNotice | src/components/rental/RentalForm.tsx:180-205 | a message containing "Authentication token not found" or "Please log in again" gives the sign-in notice; any other message gives "Rental Creation Failed" with that message |
| RentalForm.TokenMissingNeedsSignIn | src/components/rental/RentalForm.tsx:184-199 | the missing-token error of the request helpers (src/lib/crud/rentals.ts:151-154) is classified as needing sign-in |
| RentalForm.SignedOutSubmitNeedsSignIn | src/components/rental/RentalForm.tsx:129-209 | with well-formed dates and no token, the visitor is asked to sign in whatever the server would have answered |
| RentalForm.CreatedOnlyOnSuccess | src/components/rental/RentalForm.tsx:165-177 | the booking is reported created exactly when the payload was built, a token exists, and the server answered with `success` |
| RentalForm.SubmitNotice | src/components/rental/RentalForm.tsx:129-209 | a date the converter rejects gives the failure notice for "Invalid time value"; without a token, the notice for the missing-token error; a booking is reported created only on an answered reply flagged `success`, with the server's message, or "Your car rental has been confirmed." when it sent none; an answer without `success` gives the failure notice for its message or "Failed to create rental"; a failed call gives the failure notice for the rethrown `message \|\| error \|\| "Failed to create rental"` |
| RentalForm.Form.constructor | src/components/rental/RentalForm.tsx:81-83 | the form starts at step 1, not submitting, with no notice |
| RentalForm.Form.NextStep | src/components/rental/RentalForm.tsx:103-110 | advances by one, never past step 3, exactly when the current step's fields pass; the step stays in 1 to 3 and nothing else changes |
| RentalForm.Form.PrevStep | src/components/rental/RentalForm.tsx:112-114 | goes back by one, never below step 1, and nothing else changes |
| RentalForm.Form.SelectPickup | src/components/rental/RentalForm.tsx:313-319 | only the pickup location and branch change, to the chosen branch's name and id |
| RentalForm.Form.SelectReturn | src/components/rental/RentalForm.tsx:374-380 | only the return location and branch change; nothing stops the return branch from equalling the pickup branch |
| RentalForm.Form.Submit | src/components/rental/RentalForm.tsx:129-209 | data the schema rejects changes nothing; otherwise exactly one notice is shown, the form closes exactly when the booking was created, and `isSubmitting` ends false whatever the outcome |
| BookingForm.SearchUrl | src/components/Sections/BookingForm.tsx:37-47 | the URL is "/vehicles" with the single parameter `brand` when a brand other than "all" is chosen, and plain "/vehicles" otherwise; nothing else enters the URL |
| BookingForm.Search.constructor | src/components/Sections/BookingForm.tsx:31-35 | every field starts empty and nothing has been navigated to |
| BookingForm.Search.IsFormValid | src/components/Sections/BookingForm.tsx:49-55 | the search is disabled when the two locations are equal, and while the brand or either date is missing |
| BookingForm.Search.LocationError | src/components/Sections/BookingForm.tsx:173-179 | the "must be different" message shows exactly for equal non-empty locations, and then the search is disabled (line 55) |
| BookingForm.Search.SetBrand | src/components/Sections/BookingForm.tsx:31 | only the brand changes |
| BookingForm.Search.SetLocations | src/components/Sections/BookingForm.tsx:32-33 | only the two locations change |
| BookingForm.Search.SetDates | src/components/Sections/BookingForm.tsx:34-35 | only the two dates change |
| BookingForm.Search.ClickSearch | src/components/Sections/BookingForm.tsx:37-55 | a click while the form is invalid (button disabled, line 237) does nothing; otherwise exactly one navigation, to the brand URL; no field changes |
| BookingForm.SameBranchBlocksSearch | src/components/Sections/BookingForm.tsx:49-55 | picking the same branch for pickup and return blocks the search whatever else is chosen |
| ChangePasswordForm.Score | src/components/profile/ChangePasswordForm.tsx:73-78 | the score counts the criteria met (length of at least 8, a lower-case letter, an upper-case letter, a digit, another character) and lies in 0 to 5 |
| ChangePasswordForm.StrengthOf | src/components/profile/ChangePasswordForm.tsx:70-93 | the empty password gives strength 0 with empty label and colour; otherwise the percentage is the score times 20 and the label and colour are the score's entries |
| ChangePasswordForm.GetPasswordStrength | src/components/profile/ChangePasswordForm.tsx:70-93 | the step-by-step counter gives the same meter as the reference definition |
| ChangePasswordForm.NonEmptyScoresAtLeastOne | src/components/profile/ChangePasswordForm.tsx:75-78 | every character falls into one class, so a non-empty password scores at least 1 and is never labelled "Very Weak" |
| ChangePasswordForm.AppendNeverLowersScore | src/components/profile/ChangePasswordForm.tsx:73-78 | appending a character never lowers the score |
| ChangePasswordForm.AcceptedPasswordIsStrong | src/components/profile/ChangePasswordForm.tsx:17-19 | a new password the schema accepts scores at least 4, so its label is "Strong" or "Very Strong" (lines 84-85) |
| ChangePasswordForm.ChangePasswordValid | src/components/profile/ChangePasswordForm.tsx:15-24 | an accepted confirmation meets the new-password rules too; a confirmation that differs, or an empty current password, fails the schema |
| ChangePasswordForm.Form.constructor | src/components/profile/ChangePasswordForm.tsx:29-34 | all inputs empty, all hidden, not submitting |
| ChangePasswordForm.Form.ToggleVisibility | src/components/profile/ChangePasswordForm.tsx:49-54 | flips only the named visibility flag |
| ChangePasswordForm.Form.Submit | src/components/profile/ChangePasswordForm.tsx:56-68 | input the schema rejects (including `newPassword` differing from `confirmPassword`, lines 21-24) changes nothing; an accepted change shows the success toast and resets the inputs; a refused one shows the failure toast and keeps them; submitting ends false |
| ChangePasswordForm.Form.Meter | src/components/profile/ChangePasswordForm.tsx:95 | the meter under the new password lies in 0 to 100 in steps of 20, has an empty label exactly for the empty password, and never reads "Very Weak" |
| UserForm.GermanyMissingAsWritten | src/components/dashboard/UserForm.tsx:60 | as written, the country options offer "Germunknown" and not "Germany" |
| UserForm.CountriesOfferGermany | src/components/dashboard/UserForm.tsx:60 | the corrected options offer "Germany", have the same length, and differ from the written ones in the fourth entry only |
| UserForm.ValidationErrors | src/components/dashboard/UserForm.tsx:128-149 | the error map has an entry exactly for each key whose rule fails, holding that rule's message: trimmed-blank names, phone, street, city, state, ZIP and licence number; an empty date of birth or expiry; "Email is required" for a blank e-mail, else "Email is invalid" when it does not match `\S+@\S+\.\S+`; "Password is required", else the length message under 6; "Passwords do not match" on `confirmPassword` |
| UserForm.ValidationErrorsEmptyIff | src/components/dashboard/UserForm.tsx:128-149 | validation passes exactly when every rule holds, so whitespace-only required text is rejected and the country fields are never checked |
| UserForm.ClearedOnEdit | src/components/dashboard/UserForm.tsx:174-180 | editing a field blanks the message stored under its key, if any, and leaves every other key and message as it was |
| UserForm.LicenseErrorSurvivesEditAsWritten | src/components/dashboard/UserForm.tsx:200-215 | as written, editing any licence sub-field clears the key "number", "expiryDate" or "issuingCountry", so a "Driver license number is required" message stored under "licenseNumber" (line 144) survives the edit |
| UserForm.LicenseErrorKey | src/components/dashboard/UserForm.tsx:144-145 | the licence number and expiry are reported under keys validation actually sets |
| UserForm.LicenseErrorClearedOnEdit | src/components/dashboard/UserForm.tsx:200-215 | with the keys validation uses, editing the licence number clears "licenseNumber" and editing the expiry clears "licenseExpiry" |
| UserForm.ToggledType | src/components/dashboard/UserForm.tsx:227-234 | a checkbox click makes the type present exactly when it was absent, and leaves every other type's presence unchanged |
| UserForm.FilterAbsent | src/components/dashboard/UserForm.tsx:230 | filtering out a type that is absent changes nothing |
| UserForm.FilterAppended | src/components/dashboard/UserForm.tsx:229-231 | removing a type that was just appended gives back the original list |
| UserForm.TickThenUntick | src/components/dashboard/UserForm.tsx:227-234 | ticking an unticked type and unticking it again restores the list exactly |
| UserForm.ToggledTypeUnique | src/components/dashboard/UserForm.tsx:227-234 | a list without duplicates stays without duplicates after a click |
| UserForm.FilterUnique | src/components/dashboard/UserForm.tsx:230 | filtering keeps a list free of duplicates |
| UserForm.Dialog.constructor | src/components/dashboard/UserForm.tsx:63-92 | the dialog starts from the blank form (role "user", country "USA", fuel "Petrol", budget 100) with no errors |
| UserForm.Dialog.Closed | src/components/dashboard/UserForm.tsx:94-126 | closing resets every field to the blank form and clears the errors |
| UserForm.Dialog.ValidateForm | src/components/dashboard/UserForm.tsx:128-149 | stores the error map of the current values and reports true exactly when every rule holds |
| UserForm.Dialog.Submit | src/components/dashboard/UserForm.tsx:151-166 | an invalid form is not handed on; a valid one is, the dialog closes unless the parent throws, and loading ends false |
| UserForm.Dialog.HandleInputChange | src/components/dashboard/UserForm.tsx:168-181 | only the named field changes, and its message is blanked |
| UserForm.Dialog.HandleRoleChange | src/components/dashboard/UserForm.tsx:315 | only the role changes |
| UserForm.Dialog.HandleAddressChange | src/components/dashboard/UserForm.tsx:183-198 | only the named address sub-field changes, and its message is blanked |
| UserForm.Dialog.HandleDriverLicenseChange | src/components/dashboard/UserForm.tsx:200-215 | only the named licence sub-field changes; as written, the message under the sub-field's own name ("number", "expiryDate", "issuingCountry") is blanked, so the messages validation stored under "licenseNumber" and "licenseExpiry" stay |
| UserForm.Dialog.HandleCarTypeToggle | src/components/dashboard/UserForm.tsx:227-234 | only the preferred car types change, toggled as above |
| UserForm.Dialog.HandleFuelTypeChange | src/components/dashboard/UserForm.tsx:503 | only the preferred fuel changes |
| UserForm.Dialog.HandleBudgetChange | src/components/dashboard/UserForm.tsx:524 | only the budget changes, to the parsed number or 0 when the text does not parse |
| ProfileForm.Defaults | src/components/profile/ProfileForm.tsx:66-90 | each default, the licence and address fields and the fuel type included, is the account's value or "" when that is missing or empty; the dates are converted by the given day function; the car types are the account's list; a missing licence, address or car-type list gives blank entries; the budget is always present: the account's budget when it is non-zero, else 0 |
| ProfileForm.ProfileValid | src/components/profile/ProfileForm.tsx:19-43 | a name under two characters, a malformed e-mail, an image that is neither empty nor a URL, or a missing or negative budget each fails the schema on its own |
| ProfileForm.UpdatePayload | src/components/profile/ProfileForm.tsx:98-122 | names and e-mail are sent as typed; each optional text is left out exactly when empty; the licence is sent exactly when its number is filled, the address exactly when the street is filled, and the preferences exactly when some car type is listed, with a zero budget left out and any other budget sent as entered |
| ProfileForm.DependentFieldsDropped | src/components/profile/ProfileForm.tsx:105-121 | expiry and issuing country without a licence number, an address without a street, and fuel type and budget without a car type are not sent |
| ProfileForm.AddCarType | src/components/profile/ProfileForm.tsx:145-148 | the list grows by one empty entry at the end and keeps its other entries |
| ProfileForm.RemoveCarType | src/components/profile/ProfileForm.tsx:150-154 | for an index in range, the list shrinks by one and every later entry moves down one place |
| ProfileForm.AddThenRemove | src/components/profile/ProfileForm.tsx:145-154 | adding an entry and removing that entry restores the list |
| ProfileForm.UpdateCarType | src/components/profile/ProfileForm.tsx:156-161 | a copy of the list with only the entry at the index replaced |
| ProfileForm.Editor.constructor | src/components/profile/ProfileForm.tsx:52-90 | the editor starts closed, not submitting, on the defaults of the account |
| ProfileForm.Editor.StartEditing | src/components/profile/ProfileForm.tsx:171 | the edit button opens the editor and changes nothing else |
| ProfileForm.Editor.Cancel | src/components/profile/ProfileForm.tsx:140-143 | cancel closes the editor and returns the values to the mount-time defaults |
| ProfileForm.Editor.Edit | src/components/profile/ProfileForm.tsx:147-160 | typing replaces the values and changes nothing else |
| ProfileForm.Editor.Save | src/components/profile/ProfileForm.tsx:95-138 | values the schema rejects change nothing; a success notes "updated", closes the editor and, when the reply carries the account, updates the slice and storage as `updateUserSuccess`; a failure notes the error and keeps the editor open; submitting ends false |
| ApiClient.Keys | src/lib/api/users.ts:176-185 | the keys of the appended parameters, one per parameter, in order |
| ApiClient.OptionalText | src/lib/api/users.ts:182-183 | `if (value) append(key, value)`: nothing for a missing or empty string, otherwise exactly that key and value |
| ApiClient.OptionalTexts | src/lib/crud/rentals.ts:258-262 | a run of such appends emits at most one parameter per candidate |
| ApiClient.OptionalTextsFrom | src/lib/crud/rentals.ts:258-262 | the appends from position i are that position's append followed by the rest |
| ApiClient.DefinedFlag | src/lib/api/users.ts:184-185 | `if (flag !== undefined) append(...)`: nothing for an undefined flag, otherwise the flag, `false` included |
| ApiClient.DefinedFlags | src/lib/api/users.ts:184-185 | a run of such appends emits at most one parameter per candidate |
| ApiClient.OptionalTextsEmits | src/lib/crud/rentals.ts:258-262 | with distinct keys, a key and value appear in the query exactly when that candidate holds that non-empty value |
| ApiClient.OptionalTextsKeepOrder | src/lib/crud/rentals.ts:258-262 | the emitted keys are the candidates' keys with some dropped and the rest in their order |
| ApiClient.CandidateKeys | src/lib/crud/rentals.ts:258-262 | the keys of the candidates, one per candidate, in order |
| ApiClient.BearerToken | src/lib/api/users.ts:190-193 | the stored token when there is a non-empty one; otherwise the error "Authentication token not found. Please log in again." |
| ApiClient.Authorized | src/lib/api/users.ts:190-200 | an authenticated request carries exactly the given method, path, query and body and the stored token; it fails with the missing-token error exactly when no non-empty token is stored |
| ApiClient.ErrorMessage | src/lib/api/users.ts:204-214 | a server reply's `message`, else its `error`, else the call's fallback; a thrown error's own message; the fallback for anything else thrown |
| ApiClient.Outcome | src/lib/api/users.ts:190-214 | the caller sees the missing-token error when no request could be built, and the reply's data when it answered, and otherwise the rethrown `message \|\| error \|\| fallback` of the failure |
| ApiClient.NoTokenNoRequest | src/lib/api/users.ts:190-193 | without a token the caller sees the missing-token message whatever the server would have answered |
| UsersApi.BuildAdminUsersQuery | src/lib/api/users.ts:163-185 | the appends build the list query: page, limit, sortBy and sortOrder first, with defaults 1, 10, "createdAt" and "desc" |
| UsersApi.AdminUsersQueryParts | src/lib/api/users.ts:176-185 | the list query is the paging part, then search and role when non-empty, then isActive and isEmailVerified when defined, in that order |
| UsersApi.AdminUsersFilters | src/lib/api/users.ts:182-185 | a `false` flag is still sent; with no filters only the paging part is sent |
| UsersApi.BuildSearchUsersQuery | src/lib/api/users.ts:225-230 | the appends build the search query |
| UsersApi.SearchUsersQueryParts | src/lib/api/users.ts:225-230 | the search query is name, email and role when non-empty, then isActive when defined, in that order |
| UsersApi.EmptySearchHasNoQuery | src/lib/api/users.ts:225-230 | a search with no criteria sends no parameters |
| UsersApi.UpdateUserStatusRequest | src/lib/api/users.ts:338-340 | the status update is a PUT to the user whose body is exactly `{isActive}`, and needs a token |
| UsersApi.UpdateUserRoleRequest | src/lib/api/users.ts:343-345 | the role update is a PUT to the user whose body is exactly `{role}`, and needs a token |
| UsersApi.UpdateUserRequest | src/lib/api/users.ts:295-320 | `updateUser` is a PUT of the update fields to the admin user endpoint, and fails with the missing-token error without a token |
| UsersApi.FetchAllUsersRequest | src/lib/api/users.ts:163-203 | the list request carries the list query, or fails with the missing-token error |
| UsersApi.SearchUsersRequest | src/lib/api/users.ts:218-248 | the search request carries the search query, or fails with the missing-token error |
| RentalsApi.BuildAdminRentalsQuery | src/lib/crud/rentals.ts:238-262 | the appends build the admin query: page, limit, sortBy and sortOrder first, with defaults 1, 10, "createdAt" and "desc" |
| RentalsApi.AdminRentalsQueryParts | src/lib/crud/rentals.ts:253-262 | the admin query is the paging part, then status, userId, carId, startDate and endDate, each only when non-empty |
| RentalsApi.OptionalTexts5 | src/lib/crud/rentals.ts:258-262 | five conditional appends in a row are the five appends one after another |
| RentalsApi.AdminRentalsFilters | src/lib/crud/rentals.ts:258-262 | a filter appears with its value exactly when it is a non-empty string, and the filters keep the order status, userId, carId, startDate, endDate |
| RentalsApi.UpdateStatusBody | src/lib/crud/rentals.ts:334-335 | the status body always starts with the status and has the notes as a second field exactly when they are non-empty |
| RentalsApi.CancelBody | src/lib/crud/rentals.ts:430-431 | the cancel body is empty exactly when no reason is given, else holds the reason alone |
| RentalsApi.CompleteBody | src/lib/crud/rentals.ts:399 | the complete body is the return data, or an empty object when there is none |
| RentalsApi.CreateRentalRequest | src/lib/crud/rentals.ts:146-161 | `createRental` POSTs the payload unchanged to the rentals collection with the stored token, and fails with the missing-token error without one |
| RentalsApi.FetchUserRentalsRequest | src/lib/crud/rentals.ts:185-199 | `fetchUserRentals` GETs the rentals collection with exactly `page` and `limit`, defaulting to 1 and 10, only with a token |
| RentalsApi.FetchAllRentalsRequest | src/lib/crud/rentals.ts:238-277 | `fetchAllRentals` GETs the admin collection with the admin query, only with a token |
| RentalsApi.FetchRentalByIdRequest | src/lib/crud/rentals.ts:294-308 | `fetchRentalById` GETs the one rental from the admin collection, only with a token |
| RentalsApi.UpdateRentalStatusRequest | src/lib/crud/rentals.ts:325-342 | `updateRentalStatus` PATCHes the status endpoint whose body is exactly the status body: the status, then the notes as given exactly when they are non-empty; only with a token |
| RentalsApi.ActivateRentalRequest | src/lib/crud/rentals.ts:359-373 | `activateRental` PATCHes an empty body to the user-side activate endpoint, only with a token |
| RentalsApi.CompleteRentalRequest | src/lib/crud/rentals.ts:390-404 | `completeRental` PATCHes the return data, or an empty object, to the complete endpoint, only with a token |
| RentalsApi.CancelRentalRequest | src/lib/crud/rentals.ts:421-438 | `cancelRental` PATCHes the cancel endpoint whose body is exactly the cancel body: empty when no reason is given, else the reason as given; only with a token |
| RentalsApi.DeleteRentalRequest | src/lib/crud/rentals.ts:455-469 | `deleteRental` DELETEs the rental from the admin collection, only with a token |
| RentalsApi.RentalStatsRequest | src/lib/crud/rentals.ts:486-512 | `getRentalStats` GETs the admin statistics, only with a token |
| RentalsApi.RentalCallsNeedToken | src/lib/crud/rentals.ts:151-154 | without a stored token every rental call fails with the missing-token error before any request |
| CarsApi.OptionalNumber | src/lib/crud/cars.ts:54-55 | `if (price) append(...)`: a missing or zero price is left out, otherwise appended |
| CarsApi.CarSearchQueryParts | src/lib/crud/cars.ts:51-55 | the search query is brand, gearBox and fuel when non-empty, then minPrice and maxPrice when non-zero, in that order |
| CarsApi.BuildCarSearchQuery | src/lib/crud/cars.ts:49-55 | the appends build the search query |
| CarsApi.CarSearchUrl | src/lib/crud/cars.ts:57 | the "?" is written exactly when some criterion is set, and then the query is non-empty |
| CarsApi.ImageEntries | src/lib/crud/cars.ts:112-116 | one `images` entry per file, in order |
| CarsApi.BuildCarForm | src/lib/crud/cars.ts:97-116 | the appends, with a loop over the images, build exactly the car form |
| CarsApi.FilesUnderAppend | src/lib/crud/cars.ts:97-116 | the files under a key in two forms joined are the files of each, in order |
| CarsApi.FilesUnderOtherKeys | src/lib/crud/cars.ts:98-110 | a form with no entry under a key carries no file under it |
| CarsApi.FilesUnderImages | src/lib/crud/cars.ts:112-116 | the image entries carry exactly the given files, in order |
| CarsApi.CarFormImages | src/lib/crud/cars.ts:97-116 | the car form carries exactly the car's images, in order, under "images" |
| CarsApi.CarFormFields | src/lib/crud/cars.ts:98-110 | name, brand, pricePerDay, technicalSpecs and equipment always come first; the description is sent exactly when non-empty; availability `false` is still sent |
| BranchesApi.Countries | src/lib/crud/branches.ts:230 | the country of each branch, in order |
| BranchesApi.Cities | src/lib/crud/branches.ts:231 | the city of each branch, in order |
| BranchesApi.TallyCounts | src/lib/crud/branches.ts:229-232 | `d[k] = (d[k] \|\| 0) + 1` over a list gives a key exactly when it occurs, and then its number of occurrences, at least 1 |
| BranchesApi.OccurrencesAbsent | src/lib/crud/branches.ts:229-232 | a key that does not occur is counted zero times |
| BranchesApi.TotalWithout | src/lib/crud/branches.ts:226-232 | the sum of a dictionary's counts does not depend on which key is taken first |
| BranchesApi.TotalIncrement | src/lib/crud/branches.ts:230-231 | one counting step adds one to the sum of the counts |
| BranchesApi.TallyTotal | src/lib/crud/branches.ts:229-232 | the counts of the dictionary add up to the number of keys counted |
| BranchesApi.GetBranchStats | src/lib/crud/branches.ts:222-240 | the loop gives the total and active count as the list's length and the per-country and per-city dictionaries as the tallies of the branches' countries and cities |
| BranchesApi.StatsSumToTotal | src/lib/crud/branches.ts:222-240 | the per-country counts and the per-city counts each add up to the total |
| BranchesApi.StatsPerCountry | src/lib/crud/branches.ts:230 | a country is a key exactly when some branch is in it, and its count is the number of such branches |
| BranchesApi.StatsPerCity | src/lib/crud/branches.ts:231 | a city is a key exactly when some branch is in it, and its count is the number of such branches |
| BranchForm.CityOptions | src/components/dashboard/BranchForm.tsx:163-167 | the city picker offers the table's city names, one per entry, in declaration order |
| BranchForm.Lookup | src/components/dashboard/BranchForm.tsx:124 | a city has coordinates exactly when the table lists it, and then they are that entry's |
| BranchForm.CityLocation | src/components/dashboard/BranchForm.tsx:118-127 | picking a listed city puts the point at that city's table coordinates, a city missing from the table puts it at (0, 0), and the point type is kept |
| BranchForm.CityTableOffAxes | src/components/dashboard/BranchForm.tsx:105-116 | no built-in city has a zero longitude or latitude |
| BranchForm.ListedCitiesShowPreview | src/components/dashboard/BranchForm.tsx:118-127 | picking any offered city makes the map preview condition of line 245 hold |
| BranchForm.GermanyNotOfferedAsWritten | src/components/dashboard/BranchForm.tsx:183-192 | as written, the country picker offers "Germunknown" and not "Germany" |
| BranchForm.GermanyOffered | src/components/dashboard/BranchForm.tsx:183-192 | the corrected picker offers "Germany" and not "Germunknown", and differs from the written one in the eighth entry only |
| BranchForm.InitialData | src/components/dashboard/BranchForm.tsx:45-69 | with no branch the form is blank at the origin; with one, each text is its value or "" and the location is its location or the origin |
| BranchForm.Dialog.constructor | src/components/dashboard/BranchForm.tsx:32-43 | the dialog starts blank at the origin and not loading |
| BranchForm.Dialog.Initialize | src/components/dashboard/BranchForm.tsx:45-69 | the effect loads the initial data of the branch and changes nothing else |
| BranchForm.Dialog.HandleInputChange | src/components/dashboard/BranchForm.tsx:85-90 | only the named text field changes |
| BranchForm.Dialog.HandleCityChange | src/components/dashboard/BranchForm.tsx:118-127 | the city and the point change together, the point to that city's coordinates |
| BranchForm.Dialog.HandleLocationChange | src/components/dashboard/BranchForm.tsx:92-102 | only the typed coordinate changes; the other is kept |
| BranchForm.Dialog.Submit | src/components/dashboard/BranchForm.tsx:71-83 | the data is handed on exactly when the required inputs are filled; the dialog asks to close only when the parent succeeds; loading ends false |
| CarForm.FalseFlagLoadsTrueAsWritten | src/components/dashboard/CarForm.tsx:72-79 | as written, `flag \|\| true` is true for every stored flag, `false` included |
| CarForm.FlagOrTrue | src/components/dashboard/CarForm.tsx:76-79 | the corrected load keeps a stored flag as it is and uses true only when it is absent |
| CarForm.InitialValues | src/components/dashboard/CarForm.tsx:61-110 | without a car the blank values; with one, never any image, availability as stored or true, price `pricePerDay \|\| price \|\| 0`; and, through `flag \|\| true`, every feature box and the air-conditioner box ticked whatever is stored |
| CarForm.CorrectedInitialValues | src/components/dashboard/CarForm.tsx:61-110 | the intended load differs from the written one only in the flags, and keeps a stored ABS flag |
| CarForm.StoredFalseLoadsTicked | src/components/dashboard/CarForm.tsx:76 | a car stored with ABS false loads with ABS ticked as written, and unticked with the corrected load |
| CarForm.LoadedEquipmentMatchesCar | src/components/dashboard/CarForm.tsx:75-80 | with the corrected load, the four equipment boxes show exactly what the car has stored |
| CarForm.Previews | src/components/dashboard/CarForm.tsx:124 | one preview per chosen file, in order |
| CarForm.PreviewsWithoutIndex | src/components/dashboard/CarForm.tsx:129-138 | removing index i from the previews gives the previews of the images with index i removed |
| CarForm.Dialog.constructor | src/components/dashboard/CarForm.tsx:34-59 | the dialog starts on the blank car with no previews and not loading |
| CarForm.Dialog.Initialize | src/components/dashboard/CarForm.tsx:61-110 | the effect loads the initial values as written (every feature box ticked) and drops every preview, keeping one preview per image |
| CarForm.Dialog.HandleImageUpload | src/components/dashboard/CarForm.tsx:112-127 | only as many of the chosen files as still fit under three are appended, each with its preview; nothing else changes |
| CarForm.Dialog.RemoveImage | src/components/dashboard/CarForm.tsx:129-138 | the image at the index and its preview go together, and the pairing and the limit of three are kept |
| CarForm.Dialog.HandleSpecsChange | src/components/dashboard/CarForm.tsx:161-169 | only the named text spec changes |
| CarForm.Dialog.HandleInputChange | src/components/dashboard/CarForm.tsx:154-159 | only the named text field changes |
| CarForm.Dialog.HandlePriceChange | src/components/dashboard/CarForm.tsx:218 | only the price changes, to the parsed number or NaN |
| CarForm.Dialog.HandleCountChange | src/components/dashboard/CarForm.tsx:267-280 | only the doors or the seats change, to the parsed number or NaN |
| CarForm.Dialog.HandleAirConditionerChange | src/components/dashboard/CarForm.tsx:360 | only the air-conditioner spec changes |
| CarForm.Dialog.HandleEquipmentChange | src/components/dashboard/CarForm.tsx:171-179 | only the named equipment flag changes; the other three keep their state |
| CarForm.Dialog.HandleAvailabilityChange | src/components/dashboard/CarForm.tsx:433-434 | availability becomes true exactly when "available" is picked |
| CarForm.Dialog.Collected | src/components/dashboard/CarForm.tsx:145 | the data handed on carries the chosen images, name, brand, price, description and availability |
| CarForm.Dialog.Submit | src/components/dashboard/CarForm.tsx:140-152 | with the required inputs filled, the collected data is handed on once and the dialog asks to close only when the parent succeeds; otherwise nothing is handed on |
| CarForm.SubmittedImagesSent | src/components/dashboard/CarForm.tsx:112-116 | the form sent for a submitted car carries exactly its chosen images, at most three |
| Pagination.PageWindow | src/app/dashboard/users/page.tsx:551-552 | at most five buttons, and none for no pages; the i-th is the window start plus i, the start being two before the current page, pulled back so five fit, and never below 1 |
| Pagination.WindowCoversCurrent | src/app/dashboard/users/page.tsx:551-552 | on a valid page the window holds only existing pages, holds the current page, and is as wide as min(5, total) |
| Pagination.Previous | src/app/dashboard/users/page.tsx:543 | one page back, never below the first |
| Pagination.Next | src/app/dashboard/users/page.tsx:570 | one page on, never past the last |
| Pagination.PreviousNextStayInRange | src/app/dashboard/rentals/page.tsx:564-591 | from a valid page both buttons lead to a valid page |
| Pagination.TotalPagesOr1 | src/app/dashboard/users/page.tsx:118 | a missing or zero page count shows as one page; any other count as given |
| UsersPage.SearchParamsOf | src/app/dashboard/users/page.tsx:71-75 | the name is the debounced term or undefined; no e-mail; the role is set exactly when a role is chosen; isActive is set exactly when a status is chosen, and is true exactly for "active" |
| UsersPage.FilterQuery | src/app/dashboard/users/page.tsx:71-75 | the search sends name, then role, then isActive, each only when that filter is in use |
| UsersPage.NoFiltersNoSearchQuery | src/app/dashboard/users/page.tsx:86 | with every filter cleared the search query is empty |
| UsersPage.ActiveResult | src/app/dashboard/users/page.tsx:104-107 | the search response is shown while filtering, the paged list otherwise |
| UsersPage.NextRole | src/app/dashboard/users/page.tsx:485 | the role button always proposes one of the three roles, different from the current one |
| UsersPage.NextRoleCycles | src/app/dashboard/users/page.tsx:485 | three presses bring each of the three roles back, through two other roles |
| UsersPage.RoleButtonRequest | src/app/dashboard/users/page.tsx:484-486 | the role button sends `{role}` with the next role in the cycle, and needs a token |
| UsersPage.StatusButtonRequest | src/app/dashboard/users/page.tsx:474 | the status button sends the negation of the row's `isActive`, and needs a token |
| UsersPage.Page.constructor | src/app/dashboard/users/page.tsx:48-56 | no term, every role and status, page 1 of size 10 sorted by creation descending, so not filtering |
| UsersPage.Page.ListParams | src/app/dashboard/users/page.tsx:78-94 | `{}` while filtering; otherwise page, size and sorting and no filter |
| UsersPage.Page.SearchParams | src/app/dashboard/users/page.tsx:96-101 | `{}` unless filtering; otherwise the search parameters of the filters |
| UsersPage.Page.PaginationShown | src/app/dashboard/users/page.tsx:521 | the page controls appear only when browsing the paged list with more than one page |
| UsersPage.Page.ChangeSearchTerm | src/app/dashboard/users/page.tsx:307 | only the typed term changes; the query keeps the old term until the delay elapses |
| UsersPage.Page.DebounceElapsed | src/app/dashboard/users/page.tsx:61-68 | the typed term takes effect and the list returns to page 1 |
| UsersPage.Page.ChangeRoleFilter | src/app/dashboard/users/page.tsx:315 | only the role filter changes |
| UsersPage.Page.ChangeStatusFilter | src/app/dashboard/users/page.tsx:330 | only the status filter changes |
| UsersPage.Page.ToggleSortOrder | src/app/dashboard/users/page.tsx:345 | ascending becomes descending and anything else ascending; nothing else changes |
| UsersPage.Page.Clear | src/app/dashboard/users/page.tsx:352-358 | no term, every role and status, page 1, so not filtering; page size and sorting stay |
| UsersPage.Page.GoToPrevious | src/app/dashboard/users/page.tsx:543 | the page becomes the Previous page |
| UsersPage.Page.GoToNext | src/app/dashboard/users/page.tsx:570 | the page becomes the Next page |
| UsersPage.Page.GoToPage | src/app/dashboard/users/page.tsx:551-558 | a numbered button moves to its window entry, and from a valid page to a valid page |
| UsersPage.Page.ChangePageSize | src/app/dashboard/users/page.tsx:525 | only the page size changes |
| RentalsAdminPage.SearchedTexts | src/app/dashboard/rentals/page.tsx:98-102 | the five texts the search box looks at: renter first name, last name and e-mail, car name and brand, each missing when its record is |
| RentalsAdminPage.SearchMatchesSomeText | src/app/dashboard/rentals/page.tsx:93-104 | for a non-empty term, a row matches exactly when one of its five texts includes the term, ignoring case |
| RentalsAdminPage.FilteredRentals | src/app/dashboard/rentals/page.tsx:93-104 | the rows shown are the fetched rows that match, in their order |
| RentalsAdminPage.EmptySearchKeepsAll | src/app/dashboard/rentals/page.tsx:94 | an empty search shows the page exactly as fetched |
| RentalsAdminPage.QueryParamsOf | src/app/dashboard/rentals/page.tsx:58-67 | page, size and sorting are always sent; `status` is set exactly when the filter is not "all", to the chosen status; no other filter |
| RentalsAdminPage.StatusFilterQuery | src/app/dashboard/rentals/page.tsx:58-67 | the query sent is the paging part, then the status when one is chosen |
| RentalsAdminPage.ActionsFor | src/app/dashboard/rentals/page.tsx:474-520 | every row offers view and delete; complete exactly for active rentals; activate exactly for pending ones; cancel exactly for pending or active ones |
| RentalsAdminPage.ClosedRentalsOnlyViewOrDelete | src/app/dashboard/rentals/page.tsx:480-510 | any other status can only be viewed or deleted, and no row offers both complete and activate |
| RentalsAdminPage.ActionRequest | src/app/dashboard/rentals/page.tsx:135-176 | viewing sends nothing; cancel sends the reason "Cancelled by admin"; each other button sends exactly its rentals call: activate the user-side activate PATCH, complete the admin complete PATCH with an empty body, delete the admin DELETE; every request needs a token |
| RentalsAdminPage.Page.constructor | src/app/dashboard/rentals/page.tsx:48-53 | no search, every status, page 1 of size 10 sorted by creation descending |
| RentalsAdminPage.Page.QueryParams | src/app/dashboard/rentals/page.tsx:58-67 | the status is sent exactly when one is chosen |
| RentalsAdminPage.Page.Shown | src/app/dashboard/rentals/page.tsx:93-104 | the rows shown are among the fetched ones in their order, and all of them for an empty search |
| RentalsAdminPage.Page.ChangeSearchTerm | src/app/dashboard/rentals/page.tsx:332 | only the search term changes |
| RentalsAdminPage.Page.ChangeStatusFilter | src/app/dashboard/rentals/page.tsx:340 | only the status filter changes |
| RentalsAdminPage.Page.ChangeSortBy | src/app/dashboard/rentals/page.tsx:357 | only the sort key changes, and the next query sorts by it |
| RentalsAdminPage.Page.ChangePageSize | src/app/dashboard/rentals/page.tsx:546 | only the page size changes, and the next query asks for that many rows |
| RentalsAdminPage.Page.Clear | src/app/dashboard/rentals/page.tsx:380-385 | no search, every status, page 1, so no status is sent; size and sorting stay |
| RentalsAdminPage.Page.ToggleSortOrder | src/app/dashboard/rentals/page.tsx:374 | ascending becomes descending and anything else ascending |
| RentalsAdminPage.Page.GoToPrevious | src/app/dashboard/rentals/page.tsx:564 | the page becomes the Previous page |
| RentalsAdminPage.Page.GoToNext | src/app/dashboard/rentals/page.tsx:591 | the page becomes the Next page |
| RentalsAdminPage.Page.GoToPage | src/app/dashboard/rentals/page.tsx:572-579 | a numbered button moves to its window entry, and from a valid page to a valid page |
| MyRentalsPage.MatchesDate | src/app/rentals/page.tsx:213-224 | a rental without a start date, or with no bound typed, passes; otherwise it passes exactly when each typed bound is a valid date and the start lies on the right side of it; a start date that does not parse fails once a bound is typed |
| MyRentalsPage.MatchesAmount | src/app/rentals/page.tsx:226-234 | a rental with a missing or zero amount, or with no bound typed, passes; otherwise it passes exactly when each typed bound parses and the amount lies on the right side of it |
| MyRentalsPage.FilteredRentals | src/app/rentals/page.tsx:189-240 | the rentals shown are the fetched ones that pass the search, status, date and amount tests, in their order |
| MyRentalsPage.NoFiltersKeepAll | src/app/rentals/page.tsx:172-187 | the cleared filters are not active, and they show every fetched rental |
| MyRentalsPage.TotalPages | src/app/rentals/page.tsx:161 | the fewest pages of ten that hold every item |
| MyRentalsPage.TotalItems | src/app/rentals/page.tsx:160 | the reported count, or 0 when it is missing |
| MyRentalsPage.Page.constructor | src/app/rentals/page.tsx:27-35 | not mounted, page 1, panel closed, every filter cleared, no redirect |
| MyRentalsPage.Page.Mount | src/app/rentals/page.tsx:39-47 | after mounting, a signed-out visitor is sent to "/" once and a signed-in one stays |
| MyRentalsPage.Page.Effect | src/app/rentals/page.tsx:42-46 | when the session changes, a mounted page that is signed out pushes "/"; nothing else changes |
| MyRentalsPage.Page.Renders | src/app/rentals/page.tsx:155-157 | the page renders exactly when mounted and signed in |
| MyRentalsPage.Page.PageRequest | src/app/rentals/page.tsx:49-53 | the request asks for the current page, ten per page |
| MyRentalsPage.Page.ChangeFilter | src/app/rentals/page.tsx:317-397 | only the typed filter input changes |
| MyRentalsPage.Page.ToggleFilterPanel | src/app/rentals/page.tsx:341 | only the filter panel opens or closes |
| MyRentalsPage.Page.ClearFilters | src/app/rentals/page.tsx:172-179 | every filter input returns to its initial value, so none is active |
| MyRentalsPage.Page.HandlePageChange | src/app/rentals/page.tsx:163-166 | only the page changes |
| BranchesPage.FilterBranches | src/app/dashboard/branches/page.tsx:60-70 | the branches kept are those whose name, address or city includes the term ignoring case, and whose country matches a chosen country ("" and "all" match every country), in their order |
| BranchesPage.EmptyTermFiltersByCountryOnly | src/app/dashboard/branches/page.tsx:62-67 | with an empty search term, a branch is kept exactly when its country matches |
| BranchesPage.TextLeTotal | src/app/dashboard/branches/page.tsx:80-84 | any two texts are ordered one way or the other by the code-unit comparison |
| BranchesPage.TextLeTransitive | src/app/dashboard/branches/page.tsx:80-84 | the code-unit comparison is transitive |
| BranchesPage.PrecedesTotal | src/app/dashboard/branches/page.tsx:71-85 | in either direction, of two branches one may stand before the other by the lower-cased key |
| BranchesPage.PrecedesTransitive | src/app/dashboard/branches/page.tsx:71-85 | standing-before by the lower-cased key is transitive in either direction |
| BranchesPage.Insert | src/app/dashboard/branches/page.tsx:71-85 | inserting a branch adds exactly that branch to the list |
| BranchesPage.PrependSorted | src/app/dashboard/branches/page.tsx:71-85 | a branch that may stand before every member of a sorted list keeps it sorted when put first |
| BranchesPage.InsertSorted | src/app/dashboard/branches/page.tsx:71-85 | inserting into a sorted list gives a sorted list |
| BranchesPage.SortBranches | src/app/dashboard/branches/page.tsx:71-85 | the sort returns the same branches, ordered by the lower-cased chosen key, ascending or descending |
| BranchesPage.ShownBranches | src/app/dashboard/branches/page.tsx:60-85 | the rows shown are exactly the branches the filters keep, each as often as in the list, in the chosen order |
| BranchesPage.CountryChoices | src/app/dashboard/branches/page.tsx:88 | the country choices hold each country of some branch, once, and no other, in the order the branch list first shows them |
| BranchesPage.Page.constructor | src/app/dashboard/branches/page.tsx:39-46 | no search and no country, sorted by name ascending, dialog closed with no branch being edited |
| BranchesPage.Page.Shown | src/app/dashboard/branches/page.tsx:60-85 | the rows shown are ordered by the current key and direction and are the filtered branches |
| BranchesPage.Page.ToggleSortOrder | src/app/dashboard/branches/page.tsx:325 | only the direction flips |
| BranchesPage.Page.OpenCreateForm | src/app/dashboard/branches/page.tsx:139-142 | the dialog opens with no branch being edited |
| BranchesPage.Page.OpenEditForm | src/app/dashboard/branches/page.tsx:129-132 | the dialog opens on the chosen branch |
| BranchesPage.Page.CloseForm | src/app/dashboard/branches/page.tsx:144-147 | the dialog closes and forgets the edited branch |
| BranchesPage.Page.SubmitFor | src/app/dashboard/branches/page.tsx:431 | the dialog's data goes to an update of the edited branch exactly when one is being edited, otherwise to a creation |
| BranchesPage.Page.UpdateSettled | src/app/dashboard/branches/page.tsx:100-114 | a successful update forgets the edited branch; a failed one keeps it |
| CarsPage.AmountOr | src/app/dashboard/cars/page.tsx:69-70 | `a \|\| b` on prices: the first price unless it is missing or 0, else the second |
| CarsPage.ToRow | src/app/dashboard/cars/page.tsx:65-87 | a row's status is "available" exactly when the car is not marked unavailable, and "unavailable" exactly when it is; its name is the car's name, or brand and model; its price is `pricePerDay \|\| price`; its id is `_id \|\| id`; its location is the car's, or "Main Branch" when that is missing or empty |
| CarsPage.ToRows | src/app/dashboard/cars/page.tsx:65-87 | one row per fetched car, in order |
| CarsPage.FilterCars | src/app/dashboard/cars/page.tsx:143-155 | the rows kept are those matching the search on name or brand ignoring case, the chosen status, and the chosen brand ignoring case, in their order |
| CarsPage.RowStatusIsTwoValued | src/app/dashboard/cars/page.tsx:81-83 | every row's status is "available" or "unavailable" |
| CarsPage.UnreachableStatusesShowNothing | src/app/dashboard/cars/page.tsx:260-264 | picking "rented", "maintenance" or "out of service" always shows an empty table |
| CarsPage.ClearedFiltersKeepAll | src/app/dashboard/cars/page.tsx:143-155 | with every filter cleared each row is shown |
| CarsPage.RowBrands | src/app/dashboard/cars/page.tsx:172 | the brand of each row, in row order |
| CarsPage.Brands | src/app/dashboard/cars/page.tsx:172 | the brand choices hold each brand of some row, once, and no other, in the order the rows first show them |
| CarsPage.Page.constructor | src/app/dashboard/cars/page.tsx:50-56 | no search, every status and brand, dialog closed, no car selected |
| CarsPage.Page.ChangeFilters | src/app/dashboard/cars/page.tsx:247-271 | only the three filters change |
| CarsPage.Page.ClearFilters | src/app/dashboard/cars/page.tsx:290-294 | the filters are cleared, after which every row is shown |
| CarsPage.Page.OpenAddForm | src/app/dashboard/cars/page.tsx:126-130 | the dialog opens for a new car, with no car selected |
| CarsPage.Page.OpenEditForm | src/app/dashboard/cars/page.tsx:132-136 | the dialog opens for editing the chosen car |
| CarsPage.Page.SubmitFor | src/app/dashboard/cars/page.tsx:100-101 | the dialog creates exactly when not editing, and updates only the selected car, and only when it has an id |
| VehiclesPage.UrlGet | src/app/vehicles/page.tsx:34-38 | `get(key)` gives a value the URL holds under the key, and nothing exactly when the key is absent |
| VehiclesPage.TextIfSet | src/app/vehicles/page.tsx:41-43 | a text filter is set exactly when the URL value is non-empty, and then to that value |
| VehiclesPage.PriceIfSet | src/app/vehicles/page.tsx:44-45 | a price filter is set exactly when the URL value is non-empty, even when it does not parse, and then holds the parse of that value |
| VehiclesPage.ImportedFilters | src/app/vehicles/page.tsx:34-45 | each of the five filters is imported exactly when the URL gives it a non-empty value: the three texts as given, the two prices as the parse of the given text |
| VehiclesPage.PriceParam | src/lib/crud/cars.ts:54-55 | a missing price or one that did not parse is not sent; a parsed one is sent as is |
| VehiclesPage.SearchParamsOf | src/app/vehicles/page.tsx:63-67 | the text filters reach `searchCars` unchanged; a missing price or one that did not parse is not sent, and a parsed one is sent as is (src/lib/crud/cars.ts:54-55) |
| VehiclesPage.ShownCars | src/app/vehicles/page.tsx:54-73 | the search response is shown when some filter is defined, the full list otherwise |
| VehiclesPage.ZeroMinimumSearchesWithoutParameters | src/app/vehicles/page.tsx:54-67 | a minimum price of 0 counts as a filter and selects the search, but the search URL then carries no parameter |
| VehiclesPage.Choice | src/app/vehicles/page.tsx:180-237 | a picker's "all" undefines its filter; any other choice sets it |
| VehiclesPage.PriceTyped | src/app/vehicles/page.tsx:260-277 | an emptied price box undefines its filter; any other text sets it |
| VehiclesPage.NatText | src/lib/crud/cars.ts:54-55 | `toString` of a non-negative number is a non-empty string of decimal digits |
| VehiclesPage.NatTextRoundTrip | src/lib/crud/cars.ts:54-55 | reading the digits back gives the number |
| VehiclesPage.UrlPairs | src/components/Sections/BookingForm.tsx:40-46 | one URL pair per query parameter, with its key, a text as it is and a number as its decimal text |
| VehiclesPage.BookingSearchRoundTrip | src/app/vehicles/page.tsx:32-51 | the home-page search URL, read back on this page, imports exactly its brand; without a brand nothing is imported |
| VehiclesPage.Page.constructor | src/app/vehicles/page.tsx:24-25 | no filter, panel closed |
| VehiclesPage.Page.ImportFromUrl | src/app/vehicles/page.tsx:32-52 | when the URL carries some filter, the imported filters replace the state and the panel opens; otherwise nothing changes |
| VehiclesPage.Page.ChooseBrand | src/app/vehicles/page.tsx:180-190 | only the brand filter changes, as chosen |
| VehiclesPage.Page.ChooseGearBox | src/app/vehicles/page.tsx:207-214 | only the gearbox filter changes, as chosen |
| VehiclesPage.Page.ChooseFuel | src/app/vehicles/page.tsx:230-237 | only the fuel filter changes, as chosen |
| VehiclesPage.Page.TypeMinPrice | src/app/vehicles/page.tsx:260-265 | only the minimum price changes, as typed |
| VehiclesPage.Page.TypeMaxPrice | src/app/vehicles/page.tsx:273-278 | only the maximum price changes, as typed |
| VehiclesPage.Page.ToggleFilterPanel | src/app/vehicles/page.tsx:139 | only the panel opens or closes |
| VehiclesPage.Page.ClearFilters | src/app/vehicles/page.tsx:79-86 | every filter is undefined, so none is active, and the panel closes |
| Common.OccursShift | src/app/dashboard/branches/page.tsx:61-64 | an occurrence in the tail of a text is an occurrence one position later in the whole text, and back |
| Common.SubsequencePrepend | src/app/dashboard/rentals/page.tsx:93-104 | a subsequence of the tail is a subsequence of the whole list |
| Common.SubsequenceDropHead | src/app/dashboard/rentals/page.tsx:93-104 | dropping the first element of a subsequence leaves a subsequence |

## Left out

- Network I/O, react-query hooks, their caching and retries. Requests are modelled as the values they send, and responses as values passed in.
- Timers: the search debounce, the simulated delay in the dashboard guard and the users page, and toast durations. A timer firing is modelled as a separate method call.
- Toast notifications, markup, styling and window scrolling (`window.scrollTo`). They change nothing the logic depends on.
- The random mileage shown on the dashboard cars page (`Math.random`). It is not deterministic.
- Image URLs built from an environment variable, and `URL.createObjectURL` for previews. A preview is modelled as a `PreviewOf` value of its file.
- Exceptions thrown by local storage (quota, private mode) other than storage being unavailable.
- JSON serialisation of stored and sent values. A stored value is one of a small set of parsed forms, or malformed.
- Zod's error attribution and abort order. Only the accept/reject outcome and the messages of each field are modelled, and the refinements skipped by multi-step forms are not.
- Unicode case folding and Unicode whitespace. `toLowerCase` and `trim` are modelled on ASCII.
- Dates, `parseInt` and `parseFloat`. They are parameters or optional numbers, and mileage is kept as the text the user typed.
- Sort stability. The sort functions state order and permutation but not the order of equal keys, and sort keys outside the offered options are not modelled.
- RentalForm.Form.Submit: a thrown value that is not an `Error` shows "Please try again later."; the model's failures always carry a message.
- The delete confirmation dialogs and delete handlers of the dashboard pages, and the page-size selector's fixed option list.
- The list/map view switch of the branches page. BranchesPage's search, country and sort setters are plain state assignments and have no methods of their own.
- The login form's loading view. That exactly one of the login and register forms shows follows from the two-valued mode and is not stated separately.
- `fetchUserById`, `deleteUser`, `getUserStats`, the profile fetch and `changePassword` in src/lib/api/users.ts. They share the token check and error extraction modelled in `ApiClient`, but their bodies are not modelled.
- The other requests in src/lib/crud: branch create/update/delete, car get/update/delete and similar cars. They follow the modelled request pattern.

## Findings

| source | as written | input that shows it | evidently intended | confidence | as-written member | corrected member |
|---|---|---|---|---|---|---|
| src/components/dashboard/UserForm.tsx:200-215 | editing a licence field clears the error under "number", "expiryDate" or "issuingCountry", but validation stores the licence errors under "licenseNumber" and "licenseExpiry" | submit with an empty licence number, then type a number: "Driver license number is required" stays | typing in a licence field clears that field's message | not executed | UserForm.LicenseErrorSurvivesEditAsWritten | UserForm.LicenseErrorClearedOnEdit |
| src/components/dashboard/UserForm.tsx:60 | the country options hold "Germunknown" | open the country picker of the address or licence: Germany cannot be chosen | "Germany" | not executed | UserForm.GermanyMissingAsWritten | UserForm.CountriesOfferGermany |
| src/components/dashboard/BranchForm.tsx:183-192 | the branch country options hold "Germunknown" | open the country picker of a branch: Germany cannot be chosen | "Germany" | not executed | BranchForm.GermanyNotOfferedAsWritten | BranchForm.GermanyOffered |
| src/components/dashboard/DashboardAuth.tsx:11-35 | `requiredRole="customer"` is compared with the account's role, whose only values are "user" and "admin" (src/store/authSlice.ts:27) | a signed-in ordinary account on a page guarded for "customer" is redirected | "customer" admits ordinary accounts | not executed | DashboardAuth.CustomerGuardAdmitsNobody | DashboardAuth.AdmitsAgreesExceptCustomer |
| src/components/dashboard/CarForm.tsx:72-79 | each equipment flag is loaded as `flag \|\| true` | edit a car stored with `abs: false`: the dialog shows ABS ticked | `flag ?? true` | not executed | CarForm.StoredFalseLoadsTicked | CarForm.LoadedEquipmentMatchesCar |
