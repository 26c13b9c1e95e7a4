# Eventide: the data layer, session and form rules

Eventide is a map of nearby events and local-business promotions. Users sign up, sign in, create
events and, as business owners, manage a listing and its current promotion. This project models
the logic under that interface and proves properties of it in Dafny:

- the mock data store (`src/services/api.ts`), written as a class `Api.MockStore`. It holds the
  business and event tables as `seq` fields. The two viewport queries are functions that read the
  tables. The two inserts and the promotion update are methods that reassign the tables.
- the records (`src/lib/types.ts`), written as datatypes in `Types`.
- the session (`src/contexts/AuthContext.tsx`), written as a class `Auth.AuthProvider`. Its fields
  are `user`, `loading` and the browser's storage, modelled as a map from key to stored value. Its
  methods are the startup restore, `login` and `logout`.
- the three forms (`EventForm`, `BusinessForm`, `SignupForm`). Each schema is a function from the
  already-parsed form values to the set of fields (or issues) in error. Each submit handler is a
  method that applies the sign-in and role gates, reshapes the values into the store's payload and
  calls the store or the session.
- the navigation bar helpers (`Navbar`): `getInitials`, which links are shown, and the account area.

Clock and library values are parameters:
- `stamp` is the decimal `Date.now()` in generated ids.
- `toIso` is `Date.prototype.toISOString`.
- `isEmail` is zod's e-mail check.

Coordinates are `real`; the code only compares them. Dates in the forms are integer milliseconds.

Validation follows zod 3's behaviour for an object schema with `.refine`:
- A failed length or range check marks the result as failed but still runs the refinement.
- A failed type check on a field aborts the result; the refinement does not run.

So the event form reports the end-before-start error only when a start date is present. The
sign-up form reports the password mismatch only when an account type is present.

## Model

| member | source | states |
|---|---|---|
| `Types.PointAt` | src/lib/types.ts:1-4 | a location stores longitude first and latitude second, and reads them back in that order |
| `Types.Role.Tag` | src/lib/types.ts:37 | a role's tag is one of "user", "business_owner", "admin" |
| `Types.RoleTagInjective` | src/lib/types.ts:37 | two roles have the same tag iff they are the same role, so a user has exactly one of the three roles |
| `Types.MapItem.Kind` | src/lib/types.ts:40 | the `type` tag is "business" exactly for business items and "event" exactly for event items |
| `Api.Filter` | src/services/api.ts:65-70 | a filter's result holds exactly the elements that pass the test, each as many times as it occurs in the input, is no longer than the input, and is an order-preserving subsequence of it |
| `Api.SubsequenceReflexive` | src/services/api.ts:63 | a table is a subsequence of itself; this covers the unbounded fetch, which returns the whole table |
| `Api.FilterNoneKept` | src/services/api.ts:65-70 | a filter that rejects every element returns the empty list |
| `Api.FilterAllKept` | src/services/api.ts:65-70 | a filter that accepts every element returns the table unchanged |
| `Api.FilterAppend` | src/services/api.ts:76-81 | filtering a table with one item appended gives the old result, followed by the item if it passes |
| `Api.InvertedContainsNothing` | src/services/api.ts:65-70 | when a minimum exceeds its maximum on either axis, no location is within the bounds |
| `Api.MockStore.FetchBusinessesInView` | src/services/api.ts:61-71 | with no bounds the result is the whole business table; with bounds, a business is returned iff it is in the table and minLat ≤ coordinates[1] ≤ maxLat and minLng ≤ coordinates[0] ≤ maxLng, and each passing record occurs in the result exactly as often as in the table; inverted bounds give []; the result is an order-preserving subsequence of the table; the fetch reads the table and never changes it |
| `Api.MockStore.FetchEventsInView` | src/services/api.ts:73-82 | the same viewport query over the event table |
| `Api.FindIndex` | src/services/api.ts:109 | the result is -1 iff no business has the id; otherwise it is the first index holding the id |
| `Api.SeedBusinesses` | src/services/api.ts:5-25 | the initial business table has two entries, "biz1" then "biz2" |
| `Api.SeedEvents` | src/services/api.ts:27-49 | the initial event table has two entries, "evt1" then "evt2" |
| `Api.SeedHoldsBiz1` | src/services/api.ts:7 | the initial table holds "biz1", at index 0 |
| `Api.MockStore.constructor` | src/services/api.ts:5-49 | the store starts with the two seeded tables |
| `Api.MockStore.CreateNewEvent` | src/services/api.ts:84-94 | exactly one event is appended at the end: id "evt" + stamp, interest count 0, every input field kept; earlier events and all businesses are unchanged; the returned event is the appended one |
| `Api.MockStore.CreateNewBusiness` | src/services/api.ts:96-105 | exactly one business is appended at the end: id "biz" + stamp, every input field kept; earlier businesses and all events are unchanged; the returned business is the appended one |
| `Api.MockStore.UpdatePromotion` | src/services/api.ts:107-115 | an unknown id gives the error "Business not found" and changes nothing; a known id always succeeds; on success only the `currentPromotion` of the first business with that id changes, the table length and every other business stay the same, and that business is returned |
| `Auth.RoleFor` | src/contexts/AuthContext.tsx:46-49 | the role is business owner iff the e-mail is "owner@example.com", and user otherwise; admin is never produced |
| `Auth.SignedIn` | src/contexts/AuthContext.tsx:50 | the signed-in record keeps id, e-mail and name and carries the role the e-mail decides |
| `Auth.SignedInIgnoresRole` | src/contexts/AuthContext.tsx:46-50 | the role the caller passes never affects the signed-in record |
| `Auth.AuthProvider.constructor` | src/contexts/AuthContext.tsx:25-26 | the provider starts with no user and `loading` true |
| `Auth.AuthProvider.Restore` | src/contexts/AuthContext.tsx:28-41 | afterwards `loading` is false. A stored user under "eventideUser" is restored. A stored value that does not parse is removed and the user is left unset. An empty stored string is skipped. Starting from no user, the in-memory user then equals the persisted one |
| `Auth.AuthProvider.Login` | src/contexts/AuthContext.tsx:43-53 | the user becomes the signed-in record, the same record is stored under "eventideUser", and the user and the persisted copy agree |
| `Auth.AuthProvider.Logout` | src/contexts/AuthContext.tsx:55-59 | the user is unset and the "eventideUser" key is absent |
| `EventForm.Errors` | src/components/forms/CreateEventForm.tsx:29-40 | title length must be 3–100 and description length 10–500; latitude must lie in [-90, 90] and longitude in [-180, 180]; a start date is required; the error is on `endTime` iff an end is given that is not strictly after the start |
| `EventForm.Parse` | src/components/forms/CreateEventForm.tsx:29-40 | the form is accepted iff every constraint holds; the accepted values keep every field and `isPublic` defaults to true; a rejection carries a non-empty set of fields |
| `EventForm.DefaultsRejected` | src/components/forms/CreateEventForm.tsx:49-55 | the default coordinates (37.7749, -122.4194) are within range; the defaults are rejected on exactly title, description and start date |
| `EventForm.Payload` | src/components/forms/CreateEventForm.tsx:64-73 | the payload's location has coordinates [longitude, latitude] of the form; creator is the user's id; dates become ISO strings; the other values are kept and there is no separate latitude/longitude field |
| `EventForm.ValidPayloadOnGlobe` | src/components/forms/CreateEventForm.tsx:32-33 | every accepted form places its event inside a world-wide viewport |
| `EventForm.OnSubmit` | src/components/forms/CreateEventForm.tsx:58-76 | with no signed-in user nothing is created and the store is unchanged; otherwise one event is appended carrying the payload's title, description, [longitude, latitude] point, ISO start and end dates, visibility and creator, with id "evt" + stamp and no interest, and any viewport containing the entered point then returns its old result followed by the new event |
| `BusinessForm.Errors` | src/components/forms/CreateBusinessForm.tsx:30-37 | name length must be 2–100, address 5–200 and category 2–50; a description may be absent or at most 500 long; latitude must lie in [-90, 90] and longitude in [-180, 180] |
| `BusinessForm.DefaultsRejected` | src/components/forms/CreateBusinessForm.tsx:57-64 | the defaults are rejected on exactly name, address and category |
| `BusinessForm.PromotionErrors` | src/components/forms/CreateBusinessForm.tsx:39-43 | promotion title length must be 3–100 and details length 10–500 |
| `BusinessForm.PromotionExpiryUnchecked` | src/components/forms/CreateBusinessForm.tsx:42 | the expiry date is optional and never affects validity |
| `BusinessForm.CheckOwner` | src/components/forms/CreateBusinessForm.tsx:76-83 | the gate reports no user iff nobody is signed in, not an owner iff the user's role is not business owner, and lets exactly business owners through |
| `BusinessForm.BusinessPayload` | src/components/forms/CreateBusinessForm.tsx:86-91 | the payload's coordinates are [longitude, latitude]; owner is the user's id; name, address, category and description are kept; there is no promotion |
| `BusinessForm.PromotionPayload` | src/components/forms/CreateBusinessForm.tsx:120-123 | title and details are kept; the expiry is present iff it was given, as its ISO string |
| `BusinessForm.OnBusinessSubmit` | src/components/forms/CreateBusinessForm.tsx:75-107 | with no user, or a user who is not a business owner, the store is unchanged (the no-user check comes first); otherwise one business with the payload's fields is appended |
| `BusinessForm.OnPromotionSubmit` | src/components/forms/CreateBusinessForm.tsx:109-137 | the same two gates, in the same order, come before any update; the update always targets "biz1" whoever the user is; a failed update changes nothing |
| `BusinessForm.PromotionOnSeededStore` | src/components/forms/CreateBusinessForm.tsx:48 | on the initial store, a business owner's promotion update succeeds and sets the promotion of "biz1" (Cool Cafe) |
| `SignupForm.AccountType.AsRole` | src/components/forms/SignupForm.tsx:29-31 | the two account types map to the roles "user" and "business_owner" |
| `SignupForm.Issues` | src/components/forms/SignupForm.tsx:24-35 | name length must be ≥ 2; e-mail must pass the format check; password and confirmation lengths must each be ≥ 6; an account type is required; the mismatch issue is present iff an account type is chosen and the passwords differ |
| `SignupForm.Issue.Path` | src/components/forms/SignupForm.tsx:34 | the password-mismatch issue is shown on `confirmPassword` |
| `SignupForm.Parse` | src/components/forms/SignupForm.tsx:24-35 | the form is accepted iff every constraint holds, the passwords being equal; a rejection carries a non-empty set of issues |
| `SignupForm.DefaultsRejected` | src/components/forms/SignupForm.tsx:44-50 | the defaults preselect the "user" account type and are rejected on name, e-mail and both password lengths only |
| `SignupForm.MockUser` | src/components/forms/SignupForm.tsx:58 | the mock user has id "mock-" + stamp, the form's e-mail and name, and the chosen account type as role |
| `SignupForm.AccountTypeOverridden` | src/components/forms/SignupForm.tsx:58-59 | once signed in, the role depends only on the e-mail; choosing a business account with any other e-mail gives an ordinary user |
| `SignupForm.OnSubmit` | src/components/forms/SignupForm.tsx:53-59 | the session's user becomes the signed-in mock user, whose role is business owner iff the e-mail is the owner address, and the same record is persisted |
| `Navbar.Split` | src/components/layout/Navbar.tsx:29 | `split(' ')` gives at least one piece, and no piece contains a space |
| `Navbar.SplitJoin` | src/components/layout/Navbar.tsx:29 | joining the pieces with single spaces gives back the name: the split loses nothing |
| `Navbar.Heads` | src/components/layout/Navbar.tsx:29 | taking first characters yields at most one character per piece |
| `Navbar.Upper` | src/components/layout/Navbar.tsx:29 | upper-casing keeps the length and maps each character on its own |
| `Navbar.GetInitials` | src/components/layout/Navbar.tsx:27-30 | a missing or empty name gives "U"; otherwise the result is no longer than the number of pieces |
| `Navbar.WordStarts` | src/components/layout/Navbar.tsx:29 | a reference definition of initials, by scanning the name; its characters are never spaces |
| `Navbar.HeadsOfSplit` | src/components/layout/Navbar.tsx:29 | the first characters of the split pieces are exactly the word starts, in order; empty pieces from repeated spaces contribute nothing |
| `Navbar.InitialsAreWordStarts` | src/components/layout/Navbar.tsx:29 | for a non-empty name, `getInitials` is the word starts upper-cased, and contains no space |
| `Navbar.SpacesOnlyNameHasNoInitials` | src/components/layout/Navbar.tsx:28-29 | a non-empty name made of spaces only passes the "U" guard and gives "" |
| `Navbar.SpacesOnlyExample` | src/components/layout/Navbar.tsx:28-29 | the name "  " gives "" |
| `Navbar.RepeatedSpacesExample` | src/components/layout/Navbar.tsx:29 | the name "al  b" gives "AB" |
| `Navbar.AvatarInitials` | src/components/layout/Navbar.tsx:28-29 | the corrected definition from "## Findings", not what the source does: at least one character, the upper-cased word starts, or "U" when the name has no word |
| `Navbar.DisplayName` | src/components/layout/Navbar.tsx:77 | the menu label is the user's name, or "User" when the name is missing or empty; it is never empty |
| `Navbar.VisibleLinks` | src/components/layout/Navbar.tsx:42-60 | the map link is always first; "Create Event" is shown iff a user is signed in; "My Business" is shown iff a user is signed in with the business-owner role |
| `Navbar.MyBusinessLinkMatchesGate` | src/components/layout/Navbar.tsx:54-60 | "My Business" is shown to exactly the users the business form's gate lets through |
| `Navbar.Account` | src/components/layout/Navbar.tsx:62-108 | while loading, a placeholder; otherwise the user menu if someone is signed in, whose avatar fallback is `getInitials(user.name)` as written, with its label and e-mail; otherwise the Login and Sign Up buttons |
| `Navbar.AccountCorrected` | src/components/layout/Navbar.tsx:62-108 | the corrected account area from "## Findings": identical to `Account` except that the avatar fallback is `AvatarInitials`, which is never empty |
| `Navbar.SpacesOnlyAvatar` | src/components/layout/Navbar.tsx:70 | for a signed-in user whose name is spaces only, the menu as written shows an empty avatar fallback and the corrected one shows "U"; nothing else in the menu differs |
| `Navbar.NoWordStarts` | src/components/layout/Navbar.tsx:29 | a string of spaces has no word starts |

## Findings

| source | as written | input that shows it | evidently intended | confidence | as-written member | corrected member |
|---|---|---|---|---|---|---|
| src/components/layout/Navbar.tsx:28-29 | `getInitials` falls back to "U" only when the name is missing or empty. A name made of spaces only is truthy, splits into empty pieces, and yields "". The sign-up schema accepts such a name, because its only rule is a length of at least 2. | name "  " | the avatar always shows at least one character, "U" when the name has no word | medium, not executed | `Navbar.GetInitials`, `Navbar.SpacesOnlyNameHasNoInitials` | `Navbar.AvatarInitials`, `Navbar.AccountCorrected`, `Navbar.SpacesOnlyAvatar` |

## Left out

- Simulated latency, `async`/`await` and `Promise.all`: timing only. Each call to the store is one atomic step.
- Aliasing: the unbounded fetch returns the store's own array, and every fetch returns the store's own objects. In the source, a later insert or promotion update is therefore visible through an earlier result. The model returns values, so it does not capture this.
- `Api.MockStore.CreateNewEvent`, `Api.MockStore.CreateNewBusiness`: id freshness is not claimed. The ids come from the clock, so two inserts in the same millisecond share an id; `updatePromotion` then touches only the first match.
- Clock and library calls are parameters: `Date.now()`, `toISOString`, the seed dates, `date-fns` formatting, and the calendar and time-picker date arithmetic in the event form.
- zod's internals: the e-mail format check (a parameter), the string-to-number coercion of latitude and longitude (inputs are already numbers), and invalid `Date` objects.
- String lengths are counted in Dafny characters; zod counts UTF-16 code units.
- `Navbar.Heads`, `Navbar.GetInitials`: the source's `n[0]` takes one UTF-16 code unit, while the model takes one Dafny character, which is a whole Unicode scalar value. For a word that starts outside the Basic Multilingual Plane, such as "😀b", the source gives half a surrogate pair and the model the whole character.
- `Navbar.Upper`: ASCII letters only. JavaScript's full Unicode upper-casing, which can change lengths, is not modelled.
- `Auth.AuthProvider.Restore`: stored text either is a serialised user or fails to parse. Valid JSON that is not a user (such as `null`) is not modelled, nor is a throwing `localStorage.getItem`.
- Console logging, toasts, router navigation, form resets, the logout click handler's redirect, and the unused `MOCK_USER_EMAIL` constant: UI effects only.
- `src/components/map/MapView.tsx`, `src/components/layout/MapProvider.tsx` and `src/app/page.tsx` are not part of this model. They hold rendering, map SDK calls and routing; the map's bounds feed the store's viewport query as modelled.
- The JSX of the sign-up form, and the JSX of the other forms beyond their schemas, default values and submit handlers.
