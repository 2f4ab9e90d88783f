# JendoubaLife backend core, modelled in Dafny

JendoubaLife is a tourism-platform REST backend written in JavaScript (Express over MySQL). Users, places, events, reviews and reservations are stored in MySQL tables. Requests pass through a mock authentication middleware and express-validator rule arrays before reaching the controllers. This project models the part of the backend that makes decisions:

- **Reservations**: the availability verdict (event seats, one booking per place per day), the listing query with its role scoping, the price a reservation is created with, the provider whitelist and the admin price recalculation on update, and the access checks on read, update and delete.
- **Query builders**: the models of reservations, places, reviews and users build SQL text and a parameter array step by step. The model keeps a statement as a sequence of literal pieces and `?` placeholders plus its parameters. It proves when the two stay in step, in which order values are bound, that `updatedAt` is always stamped, and that `password` is swapped for `password_hash`.
- **Reviews and users**: the author-or-admin rule, the defaults at creation, login and registration, the field selection of `updateUser`, and the branching of `updateUser` and `deleteUser`.
- **Validators**: the enumerations, numeric bounds, end-after-start checks, the "required with `placeId`/`eventId`" rules and the `near` grammar of `middleware/validate.js`.
- **Mock authentication**: `protect`, `admin`, `provider` and `isOwnerOrAdmin` seen as a small state machine on `req.user`.
- **API documentation generator**: route-line classification, method/path/access extraction, descriptions, parameter lists, test examples and the assembled document.

The database is an in-memory set of typed row sequences (`Store.Db`). A MySQL lookup by id is the first row whose key matches under a simplified MySQL equality (numbers, and strings that read as the same number). JavaScript values, truthiness, `||`, `===`, `parseInt`, `Number()` and objects with insertion-ordered keys are written out in module `Js`. Where the source mutates an object in place (a request body, `req.query`, `req.user`, an `updates` argument), the model uses a class (`Js.JsObject`, `Http.Request`) whose methods state the whole new state. The decisions themselves are functions, and the listed properties are lemmas about them. Password hashing and comparison, the clock, reading a file and `JSON.stringify` are parameters.

Where the code departs from what it evidently intends, the model follows the code:

- `login` calls `User.verifyPassword`, which `models/userModel.js` does not define. Every known email therefore ends in 500, and the "wrong password" 401 is never reached.
- The "required with" validators sit behind `.optional()`, so they never fire for a field that is absent.
- The `placeIds` that `getAllReservations` sets for a provider is ignored by `Reservation.getAll`.
- `protect` takes the caller id `user.user_id || user.id`, but `findById` selects no `id` column. A found user with `user_id` 0 therefore gets an undefined id, and as a `user` is then listed every reservation (`ReservationController.UserWithoutIdSeesAll`).

## Model

| member | source | states |
|---|---|---|
| Auth.Protected | middleware/auth.js:11-57 | with no `user-id` header the caller is the default admin with id 1; with a header and a found user, the caller has the user's role (admin if empty) and the id `user_id`, or undefined for id 0; with the user missing or the lookup failing, the role is admin and the id is the parsed header (the lookup error falls back to 1 when that is NaN or 0) |
| Auth.Protect | middleware/auth.js:11-57 | the middleware always installs that caller on the request and changes nothing else on it |
| Auth.AfterAdmin | middleware/auth.js:61-73 | after `admin` the caller is an admin, keeps the id it had, and has id 1 when there was no caller |
| Auth.Admin | middleware/auth.js:61-73 | the request's user becomes that caller, with headers and route parameters unchanged |
| Auth.AfterProvider | middleware/auth.js:76-91 | after `provider` the caller is an admin or a provider; it is an admin exactly when it was one already (or there was none), and its id is unchanged |
| Auth.Provider | middleware/auth.js:76-91 | the request's user becomes that caller, nothing else changes |
| Auth.AfterOwner | middleware/auth.js:94-111 | `isOwnerOrAdmin` keeps the role and replaces the id by the route parameter when that parses to a non-zero number, else keeps the id (1 without a caller) |
| Auth.IsOwnerOrAdmin | middleware/auth.js:94-111 | the request's user becomes that caller, nothing else changes |
| Auth.RoleMachine | middleware/auth.js:61-91 | `admin` and `provider` are idempotent, and `admin` absorbs `provider` whichever runs first |
| Auth.ProtectedThenGuards | middleware/auth.js:11-91 | behind `protect` + `admin` the route runs as an admin, behind `protect` + `provider` as an admin or provider; unless a user was found, `protect` alone already yields an admin |
| Store.FirstMatch | models/reservationModel.js:53-56 | a `getById` lookup returns a row of the table whose id column matches, and no earlier row matches; it returns nothing exactly when no row matches |
| ReservationModel.CheckAvailability | models/reservationModel.js:100-137 | the check fails with "Invalid entity type" exactly when the type is neither `event` nor a `place` with a date; an unknown event is not available |
| ReservationModel.EventAvailableIff | models/reservationModel.js:104-131 | an existing event is available exactly when its capacity less the tickets of its non-cancelled reservations (0 when there are none) is at least the requested count, both read as numbers; the date plays no part |
| ReservationModel.DayCountZero | models/reservationModel.js:114-121 | the day count is zero exactly when no reservation of the table takes that place on that day |
| ReservationModel.PlaceAvailableIff | models/reservationModel.js:114-135 | a place with a date is available exactly when no non-cancelled reservation of the place falls on that calendar day, whatever the quantity asked |
| ReservationModel.NoOverbooking | models/reservationModel.js:104-131 | once the check says yes for `k` tickets, recording a pending reservation of `k` tickets keeps the event's booked tickets within its capacity |
| ReservationModel.TextCountSame | models/reservationModel.js:104-131 | a ticket count that arrives as the text JavaScript writes for a number (up to 20 digits after the point) gets the same availability verdict as the number itself |
| ReservationModel.CancelReleases | models/reservationModel.js:106-110 | cancelling a reservation lowers the event's booked count by exactly the tickets it held |
| ReservationModel.CancelKeepsAvailable | models/reservationModel.js:104-131 | an event that was available for a quantity stays available after any reservation holding a non-negative ticket count is cancelled |
| ReservationModel.ListingClausesBalanced | models/reservationModel.js:10-43 | each filter clause of `getAll` binds as many values as it has placeholders (the date-range clauses bind the date twice) |
| ReservationModel.GetAll | models/reservationModel.js:6-50 | `getAll` appends one clause per truthy filter in source order, after the joined SELECT and before the ordering, with the parameters in step, and the result has one placeholder per parameter |
| ReservationModel.ListingBalanced | models/reservationModel.js:6-46 | the whole listing statement has exactly one placeholder per parameter, for any filters |
| ReservationModel.Listing | models/reservationModel.js:6-49 | a row is listed exactly when it is in the table and satisfies every filter given |
| ReservationModel.ListingIgnores | models/reservationModel.js:10-43 | a filter key the listing does not read (such as `placeIds`) changes neither the statement nor the rows |
| ReservationModel.CreateParams | models/reservationModel.js:59-76 | one parameter per column: `userId` as given, `status` defaulting to `pending`, every other column the given value when truthy and NULL otherwise |
| ReservationModel.CreateBalanced | models/reservationModel.js:60-63 | the INSERT has as many placeholders as parameters |
| ReservationModel.Update | models/reservationModel.js:81-92 | `update` stamps `updatedAt` on the caller's object and builds the statement from all of its keys with the id bound last |
| ReservationModel.UpdateWellFormed | models/reservationModel.js:81-92 | because `updatedAt` is always added, the update statement is never empty, has one `key = ?` per key in key order and one placeholder per parameter |
| ReservationModel.Delete | models/reservationModel.js:95-97 | the rows left are exactly the reservations whose id does not match; the other tables are untouched |
| ReservationController.ScopeListing | controllers/reservationController.js:9-28 | a user's query gets `userId` set to its own id; a provider owning places keeps its `placeId` filter when it owns that place and otherwise gets `placeIds` set to all its place ids; every other query is left as it was |
| ReservationController.UserSeesOwnOnly | controllers/reservationController.js:10-30 | a user with a truthy id is shown only reservations whose `userId` is that id, whatever `userId` it asked for |
| ReservationController.UserWithoutIdSeesAll | controllers/reservationController.js:10-30 | a user whose id is falsy (a found user with `user_id` 0 gets an undefined id from `protect`) gets no `userId` filter: the listing is that of the query without `userId`, and an empty query shows every reservation |
| ReservationController.ProviderSeesOtherPlaces | controllers/reservationController.js:17-30 | as written, the `placeIds` set for a provider is ignored by `getAll`: a provider owning place 1 is shown a reservation of place 2 |
| ReservationController.ListingFixed | controllers/reservationController.js:25-30 | the listing with `placeIds` honoured lists a row exactly when it matches every filter and, if `placeIds` is given, one of those places |
| ReservationController.FixedListingBalanced | controllers/reservationController.js:25-30 | the listing statement with an added `placeId IN (...)` clause still binds one value per placeholder |
| ReservationController.ProviderSeesOwnPlacesFixed | controllers/reservationController.js:14-30 | with `placeIds` honoured, a provider owning places sees only reservations of the place it asked for, when it owns it, or else of one of its own places |
| ReservationController.ProviderAccessIff | controllers/reservationController.js:273-291 | with unique ids, `checkProviderAccess` holds exactly when the reservation names a place or an event of the table whose `provider_id` is the provider's id |
| ReservationController.GetReservation | controllers/reservationController.js:41-70 | 404 exactly when the reservation does not exist; a 200 answer to a user is its own reservation and to a provider one it has access to; any other role always gets the row |
| ReservationController.DeleteReservation | controllers/reservationController.js:220-248 | 204 exactly when the reservation exists and the caller is not denied, and then the table is the model's delete; on any refusal the tables are unchanged; an admin may always delete an existing reservation |
| ReservationController.EntranceFee | controllers/reservationController.js:129-137 | the fee is always truthy: the parsed `adult` fee when truthy, 10 otherwise (also when the column is empty or does not parse) |
| ReservationController.CreateReservation | controllers/reservationController.js:73-152 | filling in a copy of the body step by step gives the create outcome whose refusals, stored data and price `CreateRefusals`, `CreatedData` and `CreatedPrice` state: 400 on invalid input, 404 for a missing event or place, 400 when the event or the dated place is unavailable, else the INSERT |
| ReservationController.CreatedData | controllers/reservationController.js:81-141 | a created reservation keeps every field of the body but `userId` and `totalPrice`, and its `userId` is the body's, or the caller's id when the body has none |
| ReservationController.CreatedPrice | controllers/reservationController.js:87-139 | a created reservation naming a place with persons is priced by the place's entrance fee; otherwise one naming an event with tickets by the ticket price; otherwise it keeps the price it was sent |
| ReservationController.CreateRefusals | controllers/reservationController.js:74-126 | invalid input is refused; an unknown event gives 404 and an event without enough tickets 400; a 404 "Place not found" or a 400 for the date only when the place is unknown or already booked that day; a body naming neither an event nor a place is always created |
| ReservationController.CreatePlaceRefusals | controllers/reservationController.js:109-139 | once the event step lets a request through, a place reservation gets 404 "Place not found" when the place is unknown, 400 "Place not available on this date" when a visit date is given and that day is already booked, and is created otherwise; a reservation created with a place and a visit date always books a free day |
| ReservationController.Only | controllers/reservationController.js:180-185 | the whitelisted object has a key's value exactly for the allowed keys and undefined elsewhere, and no key the original lacked |
| ReservationController.KeepOnly | controllers/reservationController.js:179-185 | deleting the keys not allowed, one at a time, leaves exactly the allowed fields of the original, in order |
| ReservationController.Recalculate | controllers/reservationController.js:188-204 | only an admin changing the event, place or quantities reprices; only the price field may change, and only when an event and ticket count are given; an existing event gives ticket price times tickets; a missing event is the error and nothing else is |
| ReservationController.UpdateReservation | controllers/reservationController.js:155-217 | invalid input, 404 and 403 as for read; a provider's body is cut to `status` and `paymentStatus` in place, other bodies stay as sent; a write is the stamped UPDATE of the repriced copy, and happens exactly when repricing does not fail |
| ReservationController.AvailabilityRules | controllers/reservationController.js:251-270 | 400 exactly when the type or the id is missing; otherwise the model's verdict on `date || null` and `numberOfTickets || 1`, its error message the only 500, and a place without a date always that error |
| ReservationController.DefaultOneTicket | controllers/reservationController.js:263 | a request without a ticket count is answered as one asking for one ticket |
| ReservationController.ProviderPlaces | models/placeModel.js:157-163 | `getAllByProvider` returns exactly the places of the table whose `provider_id` matches |
| ReservationController.PlaceIds | controllers/reservationController.js:19 | the id list has one entry per owned place, in order, each that place's id |
| PlaceModel.NearParams | models/placeModel.js:39-52 | the distance query binds four values: the latitude twice (first and third) around the longitude, and the radius last |
| PlaceModel.AppendFilters | models/placeModel.js:18-35 | the type, name and region filters are appended in that order, each exactly when truthy, with their values pushed in step |
| PlaceModel.Search | models/placeModel.js:18-66 | `search` built by `+=` and `push` sends the filter clauses with their parameters in order (`SearchPlain`), or with a string `near` the distance query (`SearchNear`); a `near` that is not a string throws "split is not a function" |
| PlaceModel.LimitShape | models/placeModel.js:59-62 | a truthy `limit` adds ` LIMIT ?` bound to `parseInt(limit)`, and nothing is added otherwise |
| PlaceModel.SearchPlain | models/placeModel.js:18-62 | without `near`, the search binds one parameter per placeholder: one per truthy filter, then the parsed limit last |
| PlaceModel.SearchNear | models/placeModel.js:37-62 | with a string `near`, the SQL is the distance query with four placeholders (plus the limit's), and the radius bound is `radius` or 10 |
| PlaceModel.SearchNearNotString | models/placeModel.js:39 | a truthy `near` that is not a string makes the search fail |
| PlaceModel.NearDropsClauses | models/placeModel.js:22-52 | as written, a `near` search binds one parameter per placeholder exactly when no other filter is given; with a filter there are more parameters than placeholders |
| PlaceModel.NearWithTypeUnbalanced | models/placeModel.js:22-52 | a search by type and position produces a statement whose placeholders and parameters disagree |
| PlaceModel.SearchFixedBalanced | models/placeModel.js:18-66 | the corrected search succeeds exactly when the original does, always binds one parameter per placeholder, equals the original without `near`, and binds the filters' values right after the formula's three |
| PlaceModel.FilterClausesBalanced | models/placeModel.js:22-35 | each filter clause binds one value, and the filters bind as many values as they have placeholders |
| PlaceModel.CreateParams | models/placeModel.js:96-117 | one parameter per column: name, type and description as given; location, opening hours and fees serialised with `{}` for a falsy value and images with `[]`; the provider or NULL |
| PlaceModel.CreateBalanced | models/placeModel.js:103-106 | the INSERT has as many placeholders as parameters |
| PlaceModel.SerialisedFacts | models/placeModel.js:125-141 | the serialised copy has the payload's keys, in the payload's order |
| PlaceModel.SerialisedValue | models/placeModel.js:125-141 | in the copy, a JSON column with a truthy value holds its serialisation and every other key keeps its value |
| PlaceModel.Update | models/placeModel.js:123-148 | the statement is built from the serialised copy, leaving the caller's payload untouched; an empty payload leaves the SET list empty and the call fails with the database's syntax error; otherwise the result is true exactly when a place has that id |
| PlaceModel.FoundIff | models/placeModel.js:12-15 | `getById` finds a place exactly when some place of the table has a matching id |
| PlaceModel.UpdateWellFormed | models/placeModel.js:143-146 | the UPDATE names every payload key once in order, binds the serialised values in that order and the id last, and has one placeholder per parameter; its SET list is empty (`UPDATE places SET  WHERE id = ?`) exactly when the payload is |
| PlaceModel.Delete | models/placeModel.js:151-154 | the places left are exactly those without that id, the result says whether one matched, and the other tables are untouched |
| ReviewModel.GetAll | models/reviewModel.js:6-27 | `getAll` appends the place filter and then the user filter, each exactly when truthy, between the SELECT and the ordering, with the parameters in step |
| ReviewModel.ListingShape | models/reviewModel.js:6-23 | the review listing has one placeholder per parameter, and the parameters are the place id when given, then the user id when given |
| ReviewModel.CreateStmt | models/reviewModel.js:36-47 | the INSERT binds user, place, rating and comment as given, in that order; the creation time is not a parameter |
| ReviewModel.CreateBalanced | models/reviewModel.js:37-40 | the INSERT has as many placeholders as parameters |
| ReviewModel.Update | models/reviewModel.js:52-62 | `update` stamps `updatedAt` on the caller's object and builds the statement from all of its keys |
| ReviewModel.UpdateWellFormed | models/reviewModel.js:52-62 | the stamped review UPDATE is never empty: one `key = ?` per key, the id bound last, one placeholder per parameter |
| ReviewModel.Delete | models/reviewModel.js:65-67 | the reviews left are exactly those without that id; the other tables are untouched |
| ReviewModel.RatingsOf | models/reviewModel.js:71-74 | the ratings averaged are ratings of reviews of that place, no more of them than there are reviews |
| ReviewModel.AverageRating | models/reviewModel.js:70-76 | a place without reviews has average 0 |
| ReviewModel.SumBounds | models/reviewModel.js:72 | a sum of values in [lo, hi] lies between `lo` and `hi` times their number |
| ReviewModel.AverageBounds | models/reviewModel.js:70-76 | when every rating lies in [lo, hi] (0 to 5 for validated reviews), so does the average of a place that has reviews |
| UserModel.CreateParams | models/userModel.js:7-22 | one parameter per column: names and email as given, the hash of the password and never the password, the role or `user`, the profile image and the phone or NULL |
| UserModel.CreateBalanced | models/userModel.js:9-12 | the INSERT has as many placeholders as parameters |
| UserModel.Hashed | models/userModel.js:45-48 | with a truthy password the payload loses `password`, gains `password_hash` holding its hash, and keeps every other key; otherwise it is unchanged |
| UserModel.Update | models/userModel.js:44-57 | `update` swaps the password for its hash on the caller's object and builds the statement from all of its keys |
| UserModel.UpdateShape | models/userModel.js:50-56 | the user UPDATE binds one value per key of the hashed payload with the id last; it is well formed exactly when that payload has a key, so an empty payload leaves a stray placeholder |
| UserModel.UpdateHidesPassword | models/userModel.js:45-48 | a truthy password reaches the statement only as its hash: the SET list names `password_hash` and not `password` |
| UserModel.ProjectionsHideHash | models/userModel.js:37-66 | neither the `findById` nor the `getAll` projection selects `password_hash` |
| UserModel.GetAll | models/userModel.js:65-93 | `getAll` appends the role, status and search clauses in that order, each exactly when truthy, between the SELECT and the ordering, with the parameters in step |
| UserModel.ListingBalanced | models/userModel.js:65-89 | the user listing has one placeholder per parameter |
| UserModel.ListingShape | models/userModel.js:69-86 | role and status bind one parameter each and a search three identical `%term%` patterns, last |
| UserModel.Profile | models/userModel.js:35-41 | `findById` answers with exactly the projected columns, in order, without the hash, carrying the row's id, email and role |
| UserModel.Delete | models/userModel.js:60-62 | the users left are exactly those without that id; the other tables are untouched |
| UserController.Login | controllers/userController.js:8-50 | an unknown email gets 401 "Invalid credentials"; for a known email the call to `User.verifyPassword`, which the user model does not define, throws and the answer is 500 |
| UserController.LoginData | controllers/userController.js:31-42 | the response of a successful (corrected) login has exactly the keys id, firstName, lastName, email, role, phone and status; `firstName` is the row's `prenom`, `lastName` its surname `nom`, the id its `user_id`, the phone the row's or null, and no password field is present (the `SELECT *` row has no `id`, `firstName` or `lastName` column, so the model reads the columns these evidently stand for) |
| UserController.LoginFixed | controllers/userController.js:13-42 | with the password compared to the stored hash, login succeeds exactly when the email is known and the password matches; every failure is the same 401, and a success carries no password field |
| UserController.LoginNeverSucceeds | controllers/userController.js:13-49 | as written, no login answers 200; for a known email the answer is 500, where the corrected login succeeds exactly when the password matches |
| UserController.CreateInsert | controllers/userController.js:59-82 | the INSERT of a registration binds undefined names, the email, the hash of the password, the role or `user`, a NULL image and the phone or NULL, one parameter per placeholder |
| UserController.Register | controllers/userController.js:55-82 | `register` refuses with 400 exactly when the email is taken, and otherwise inserts its `userData` |
| UserController.CreateUser | controllers/userController.js:156-179 | `createUser` refuses with 400 exactly when the email is taken, and otherwise inserts its own `userData` |
| UserController.RegisterIsCreateUser | controllers/userController.js:59-80 | `register` and `createUser` send the same statement for every body, despite their different role defaults |
| UserController.RegisterDropsNames | controllers/userController.js:73-82 | as written, a registration binds `nom` and `prenom` to undefined, whatever names the client sent |
| UserController.RegisterFixed | controllers/userController.js:63-82 | the corrected registration still refuses exactly the taken emails, with the same 400 |
| UserController.FixedDataNames | controllers/userController.js:73-80 | the corrected `userData` carries the surname (`lastName`) as `nom` and the given name (`firstName`) as `prenom`, the table's keys |
| UserController.RegisterFixedBindsNames | controllers/userController.js:73-82 | the corrected registration is an INSERT with one placeholder per parameter whose first two parameters are the client's `lastName` (for `nom`) and `firstName` (for `prenom`) |
| UserController.RegisterFixedRest | controllers/userController.js:73-82 | every other parameter of the corrected registration is the one the original sends |
| UserController.SelectedFacts | controllers/userController.js:213-220 | after the first n `if`s, `updates` holds exactly the truthy ones of the first n fields, each with its value |
| UserController.Pick | controllers/userController.js:214-220 | one `if (x) updates.x = x` adds the field exactly when the body's value is truthy |
| UserController.SelectUpdates | controllers/userController.js:213-220 | the seven `if`s build a fresh `updates` object equal to the selection of all seven fields |
| UserController.UpdateSelection | controllers/userController.js:213-220 | what reaches the UPDATE is exactly the truthy ones of the seven fields, each with its value, and no other key |
| UserController.UpdateUser | controllers/userController.js:198-243 | an unknown user gets 404 before any write; otherwise the UPDATE of the selected fields, password hashed, is sent, and the answer is 400 "Update failed" when the database accepts it and 500 when it does not, never 200 |
| UserController.NothingSelected | controllers/userController.js:213-222 | with none of the seven fields truthy the UPDATE has a placeholder without a parameter |
| UserController.NamesNotColumns | controllers/userController.js:214 | a truthy `firstName` is sent as a column `firstName`, which the users table does not have |
| UserController.DeleteUser | controllers/userController.js:248-281 | an unknown user gets 404; otherwise the row is deleted and the answer is 400 "Delete failed" when the database accepts it (500 otherwise, and the table is then unchanged), never 204 |
| ReviewController.Filled | controllers/reviewController.js:55-58 | the body's `userId` becomes the caller's id only when it is falsy and a caller exists; the place is untouched |
| ReviewController.CreateRefusals | controllers/reviewController.js:45-69 | invalid input is refused first, before any store access; then 404 exactly when the place does not exist, with nothing inserted; otherwise the filled-in body is inserted |
| ReviewController.CreateAuthor | controllers/reviewController.js:55-69 | the review inserted is by the body's `userId` when truthy, else by the caller, and about the body's place |
| ReviewController.CreateReview | controllers/reviewController.js:45-83 | the controller returns that outcome and leaves the request body filled in (untouched on invalid input) |
| ReviewController.UpdateRefusals | controllers/reviewController.js:86-113 | invalid input first; then 404 exactly for a missing review; 403 exactly when a caller exists that is neither admin nor the author; without a caller or as admin the update is written, as the stamped UPDATE of the body |
| ReviewController.UpdateReview | controllers/reviewController.js:86-127 | the controller returns that outcome, and the body gains `updatedAt` exactly when the update is written |
| ReviewController.DeleteReview | controllers/reviewController.js:130-160 | 404 exactly for a missing review, 403 exactly under the same author-or-admin rule, otherwise 204 with the review deleted; on refusal the tables are unchanged |
| ReviewController.AuthorMayModify | controllers/reviewController.js:106-142 | the author, an admin, or a request without a caller may always update and delete an existing review |
| ReviewController.SameRule | controllers/reviewController.js:106-142 | update is refused with 403 exactly when delete is |
| Validate.IntText | middleware/validate.js:59-90 | a string read as an integer is an optional sign followed by at least one digit |
| Validate.IntTextRoundTrip | middleware/validate.js:88-144 | an integer written out as JavaScript writes it reads back as itself, as an integer and as a float |
| Validate.ShownReadsBack | middleware/validate.js:64 | a JSON number with up to 20 digits after the point, as the validator's string conversion writes it, is read by `isFloat` as that very number (whole numbers and fixed-point decimals alike) |
| Validate.NearTextMatches | middleware/validate.js:187-190 | every `lat,lng[,distance]` with signed decimals for the position and an unsigned decimal for the distance matches the `near` pattern, and splits back into its parts |
| Validate.NearMatchesText | middleware/validate.js:187-190 | every string that matches the `near` pattern is of that form |
| Validate.NearBindsNumbers | middleware/validate.js:187-190 | a `near` that passes validation gives numbers, not NaN, for the latitude and longitude of the distance query |
| Validate.RuleErrorsMeaning | middleware/validate.js:72-126 | a chain reports a message exactly when one of its checks carrying that message fails, every failing check reporting |
| Validate.ChainErrors | middleware/validate.js:73-85 | an `optional()` chain reports nothing for an absent field |
| Validate.ErrorsMeaning | middleware/validate.js:72-126 | a validator array reports a message exactly when one of its chains does |
| Validate.OnlyChain | middleware/validate.js:72-126 | when only one chain can report a message, the array reports it exactly when that chain does |
| Validate.ReservationStatusRule | middleware/validate.js:122-125 | "Invalid status value" is reported exactly when a status is given and is not pending, confirmed, cancelled or completed |
| Validate.RoleRule | middleware/validate.js:172-175 | "Invalid role" is reported exactly when a role is given outside admin, user, premium and provider |
| Validate.UserStatusRule | middleware/validate.js:176-179 | "Invalid status" is reported exactly when a status is given outside active, blocked and inactive |
| Validate.CategoryRule | middleware/validate.js:183-186 | "Invalid category" is reported exactly when a category is given outside the five |
| Validate.SortRule | middleware/validate.js:191-194 | "Invalid sort parameter" is reported exactly when a sort key is given outside the four |
| Validate.NearRule | middleware/validate.js:187-190 | the `near` message is reported exactly when a `near` is given and does not match the pattern |
| Validate.RatingRule | middleware/validate.js:63-65 | the rating message is reported exactly when the rating is missing or not a number in [0, 5] |
| Validate.DiscountRule | middleware/validate.js:151-153 | the discount message is reported exactly when the discount is missing or not a number in [0, 100] |
| Validate.TicketPriceRule | middleware/validate.js:143 | the ticket price message is reported exactly when a price is given that is not a number at least 0 |
| Validate.RatingOfNumber | middleware/validate.js:63-65 | a rating sent as a JSON number (4.5 included) is refused exactly when it lies outside [0, 5] |
| Validate.DiscountOfNumber | middleware/validate.js:151-153 | a discount sent as a JSON number is refused exactly when it lies outside [0, 100] |
| Validate.TicketPriceOfNumber | middleware/validate.js:143 | a ticket price sent as a JSON number is refused exactly when it is negative |
| Validate.CapacityRule | middleware/validate.js:144 | the capacity message is reported exactly when a capacity is given that is not an integer at least 1 |
| Validate.TicketCountRule | middleware/validate.js:88-91 | the ticket count message is reported exactly when a count is given that is not an integer at least 1 |
| Validate.PersonCountRule | middleware/validate.js:98-101 | the person count message is reported exactly when a count is given that is not an integer at least 1 |
| Validate.IntegerCount | middleware/validate.js:88-91 | a ticket count sent as the number n is accepted exactly when n is at least 1 |
| Validate.EventDatesRule | middleware/validate.js:132-140 | "End date must be after start date" is reported exactly when both dates parse and the end is not after the start |
| Validate.PromotionDatesRule | middleware/validate.js:155-163 | the same rule for a promotion's `end_date` and `start_date` |
| Validate.EitherIdRule | middleware/validate.js:74-83 | as written, "Either eventId or placeId is required" is reported exactly when `eventId` is sent but falsy and `placeId` is falsy |
| Validate.TicketsRequiredRule | middleware/validate.js:88-97 | as written, the tickets-required message is reported exactly when `numberOfTickets` is sent but falsy and `eventId` is truthy |
| Validate.PersonsRequiredRule | middleware/validate.js:98-107 | as written, the persons-required message is reported exactly when `numberOfPersons` is sent but falsy and `placeId` is truthy |
| Validate.VisitRequiredRule | middleware/validate.js:108-117 | as written, the visit-date message is reported exactly when `visitDate` is sent but falsy and `placeId` is truthy |
| Validate.MissingFieldsPass | middleware/validate.js:74-117 | a place reservation with neither persons nor a visit date, and a body naming neither an event nor a place, are not refused for it |
| Validate.EitherIdRuleFixed | middleware/validate.js:74-83 | with the required-with checks in chains of their own, a reservation naming neither an event nor a place is always refused |
| Validate.TicketsRequiredRuleFixed | middleware/validate.js:88-97 | with the fix, an event reservation without a truthy ticket count is refused, and only then |
| Validate.PersonsRequiredRuleFixed | middleware/validate.js:98-107 | with the fix, a place reservation without a truthy person count is refused, and only then |
| Validate.VisitRequiredRuleFixed | middleware/validate.js:108-117 | with the fix, a place reservation without a truthy visit date is refused, and only then |
| Validate.MissingFieldsRefused | middleware/validate.js:74-117 | the bodies the array as written lets through are refused by the corrected one |
| ApiDoc.CapturedName | utils/apiDocGenerator.js:41-42 | a line matched by the route pattern yields a method whose name is the captured verb upper-cased, whatever its case in the line |
| ApiDoc.VerbLetters | utils/apiDocGenerator.js:41-42 | each verb of the pattern is the lower-case spelling of its method's name, letter by letter |
| ApiDoc.QuotedShape | utils/apiDocGenerator.js:43 | a captured path is a non-empty run without quotes that sits between two single quotes |
| ApiDoc.NoQuoteNoPath | utils/apiDocGenerator.js:43-44 | a route line with no single quote is documented with the fallback path 'chemin non détecté' |
| ApiDoc.AccessRules | utils/apiDocGenerator.js:47-63 | an endpoint is public exactly when its line does not mention `protect` (whatever it says about `admin`), and admin-only exactly when it mentions both |
| ApiDoc.BaseNameStem | utils/apiDocGenerator.js:122 | the base name of a file `<x>Routes.js` is `<x>` |
| ApiDoc.DescriptionDeterminedBy | utils/apiDocGenerator.js:121-134 | two endpoints of one file with the same method (and, for GET, the same presence of `:id`) get the same description |
| ApiDoc.DescriptionTellsMethod | utils/apiDocGenerator.js:124-131 | endpoints with equal descriptions have the same method: no two methods share a description |
| ApiDoc.IdEntryRule | utils/apiDocGenerator.js:142-156 | the `id` entry is listed exactly when the path contains `:id` and the route is not one whose list is replaced wholesale (user register/login, place and event POST/PUT) |
| ApiDoc.NoParamsIffEmpty | utils/apiDocGenerator.js:158 | 'Aucun paramètre requis' is written exactly when the parameter list is empty |
| ApiDoc.UrlRules | utils/apiDocGenerator.js:163-169 | the example URL is the lower-cased base URL for the root path, and otherwise that base followed by the path with no `:id` and no `:userId` placeholder left; a path holding no `:` is appended unchanged |
| ApiDoc.TestExample | utils/apiDocGenerator.js:161-257 | the example built line by line is the fetch call with the endpoint's URL and method, the JSON body for POST, PUT and PATCH only, and the response handlers |
| ApiDoc.NoBodyIndependent | utils/apiDocGenerator.js:177 | the example of a GET or DELETE route does not depend on how bodies are serialised |
| ApiDoc.BodyShown | utils/apiDocGenerator.js:177-249 | the example of a POST, PUT or PATCH route contains the serialised request body chosen for its file and path |
| ApiDoc.CollectEndpoints | utils/apiDocGenerator.js:36-57 | the endpoints collected from a file's lines are those of its route lines, in line order |
| ApiDoc.EndpointsAppend | utils/apiDocGenerator.js:39-57 | the endpoints of two runs of lines are the endpoints of the first followed by those of the second |
| ApiDoc.EndpointsOfLine | utils/apiDocGenerator.js:41-56 | a single line contributes its parsed endpoint when it is a route line and nothing otherwise |
| ApiDoc.WriteEndpoint | utils/apiDocGenerator.js:61-65 | an endpoint's section is its heading with method and URL, description, access label, parameters and test example |
| ApiDoc.WriteEndpoints | utils/apiDocGenerator.js:60-66 | the file's endpoint sections are appended in endpoint order |
| ApiDoc.WriteRoute | utils/apiDocGenerator.js:29-72 | a readable route file gives its titled section of endpoints ended by `---`; an unreadable one gives only the error heading with the read error's message |
| ApiDoc.FailedSection | utils/apiDocGenerator.js:70-72 | the section of an unreadable route file is exactly its error heading |
| ApiDoc.SectionsAppend | utils/apiDocGenerator.js:28-73 | documenting two lists of route files one after the other is documenting their concatenation |
| ApiDoc.FailingFileIsolated | utils/apiDocGenerator.js:28-73 | a route file that cannot be read contributes only its error section, and the files before and after it are documented as if it were absent |
| ApiDoc.GenerateApiDoc | utils/apiDocGenerator.js:22-111 | the document is the dated header, then one section per route file in list order, then the fixed tests section |
| Sql.AppendWhen | models/reservationModel.js:11-14 | an optional filter appends its clause to the query text and its value to the parameters together, exactly when its condition is truthy, so text and parameters stay in step |
| Sql.ConcatBalanced | models/reservationModel.js:10-43 | a statement assembled from clauses that each bind one value per placeholder binds one value per placeholder |
| Sql.SetListShape | models/userModel.js:50 | the joined SET list reads `k1 = ?, ..., kn = ?` and has one placeholder per key, but a stray one when there is no key |
| Sql.UpdateStmtShape | models/userModel.js:50-56 | an UPDATE built from an object binds its values in key order with the id last, and is well formed exactly when the object has a key |
| Sql.StampedUpdate | models/reservationModel.js:83-91 | an UPDATE of an object stamped with `updatedAt` is always well formed, and binds the stamped object's values in key order with the id last |
| Sql.UpdateStmtMappedShape | models/placeModel.js:143-146 | the place model's mapped SET list always binds one value per placeholder, and for a non-empty object is the same statement as the joined form |
| Sql.SetListsAgree | models/placeModel.js:143 | for at least one key, the mapped and the joined SET lists are the same text |
| Sql.InsertBalanced | models/reviewModel.js:37-40 | an INSERT with `n` placeholders is well formed exactly when it binds `n` values |
| Sql.RenderCount | models/userModel.js:50 | the rendered statement text has as many `?` as the statement has placeholders when no literal piece contains a `?` |
| Store.DeleteWhere | models/placeModel.js:151-154 | the rows left are exactly those whose key does not match, and the reported deletion is true exactly when some row matched |
| Js.Put | controllers/reviewController.js:55-58 | assigning a property sets that property, leaves every other one as it was, and adds the key last only when it is new |
| Js.Remove | controllers/reservationController.js:181-184 | deleting a property removes it, leaves every other one as it was, and adds no key |
| Js.JsObject.Assign | controllers/reviewController.js:55-58 | assigning on a request body changes its fields exactly as `Put` does |
| Js.JsObject.Delete | controllers/reservationController.js:181-184 | deleting on a request body changes its fields exactly as `Remove` does |
| Text.SplitJoin | utils/apiDocGenerator.js:36 | splitting the route file on newlines loses nothing: joining the lines back gives the file |

## Left out

- Database round-trips: the SQL engine is not executed. Statements are modelled as (text pieces, parameters), and the rows a lookup, a listing or a delete touches are modelled on the in-memory tables. `LIKE`, `JSON_EXTRACT`, `AVG`, `insertId` and `affectedRows` beyond "some row matched" are not interpreted; `DATE()` and `SUM` are, where the availability check needs them.
- The haversine distance expression of the place search is trigonometric floating point. Only its placeholders and the parameters bound to them are modelled.
- bcrypt hashing and comparison are opaque function parameters (`hash`, `matches`).
- `JSON.parse` and `JSON.stringify` are not modelled as text. A place's entrance fee is a `Fee` value: absent, unparsable, or parsed with its `adult` entry. Serialisation is a `stringify` parameter.
- `new Date()`, `toLocaleDateString` and the validators' date parsing are parameters (`now`, `date`, `env.time`). The email, ISO 8601 and date formats of express-validator are the predicate parameter `env.format`.
- express-validator internals beyond the modelled checks: the `notEmpty`, `isLength`, `isEmail` and `isObject` chains are listed in the rule arrays, but only the enumerations, bounds, date orders, required-with rules and `near` carry lemmas.
- Money and JavaScript numbers are Dafny reals. Floating-point rounding is not modelled.
- Js.ToStr: writes a number that is not whole in fixed-point notation with up to 20 digits after the point, and as the empty string past that. It does not use JavaScript's exponent notation for magnitudes from 1e21 up or below 1e-6, nor does it write the shortest text that reads back as the same double. `Validate.ShownReadsBack`, `Validate.RatingOfNumber`, `Validate.DiscountOfNumber`, `Validate.TicketPriceOfNumber` and `ReservationModel.TextCountSame` are stated for numbers within those 20 places.
- Js.StrToNumber: reads the empty string, a decimal `-?digits(.digits)?` and `+digits(.digits)?`. It gives NaN for the other forms `Number` accepts: exponents (`1e3`), `0x`/`0o`/`0b` prefixes, `Infinity`, and a point with digits on one side only (`.5`, `5.`). An unvalidated query value in one of those forms (the availability check's `numberOfTickets`) is therefore read as NaN, and the verdict is false, where JavaScript would compare the number.
- Validate.FloatText: reads `isFloat`'s `[-+]?digits?(.digits?)?` with at least one digit, without the exponent part `e[-+]?digits` the validator also accepts, and without its locale-specific decimal separators. A text with an exponent is refused in the model where the validator would check its value.
- `toLowerCase`/`toUpperCase` fold ASCII letters only. `Object.keys` ordering of integer-like keys is not modelled: keys keep insertion order.
- Console logging, the file write and the return value of `generateApiDoc`, and the final `'interagir avec'` description, which the route pattern can never reach.
- Express routing and route order, server start-up, sessions, CORS, connection pools and schema loading are outside the model.
- The race between the availability check and the insert of a reservation is a concurrency matter and is not modelled.
- controllers/placeController.js is not part of this model: it is response formatting over `JSON.parse`.
- `Place.getAll`, `Place.getByRegion`, `Place.getPopular`, `User.updateStatus`, `getAllUsers`, `getUserById`, `getAllReviews` and `getReviewById` are fixed single queries or pass-throughs with no decision of their own. They are not modelled separately; the lookups by id and by email they rely on are `Store.FirstMatch`.
- Exceptions thrown by the driver are caught by each controller, which answers 500 in most handlers and 400 with the error message in `createReservation`, `updateReservation`, `createReview` and `updateReview`. They are modelled only as an `accepted` flag on the writes of `updateUser` and `deleteUser`, as the `verifyPassword` failure of `login`, and as the failure of `Place.update` on an empty payload; the other handlers' catch blocks are not modelled.
- The controllers' re-reads of a row after a write (`getById` after create and update) are not modelled. The reply is modelled as the statement that is written.
- PlaceModel.NearParams: states the shape of the four bound values (latitude twice, radius last), not that they are `Number()` of the comma fields; `Validate.NearBindsNumbers` covers the numeric reading for validated input.
- ReviewModel.RatingsOf: states only that the averaged ratings come from that place's reviews; it does not state that every such rating is included.
- ReviewModel.AverageRating: states only the zero fallback. The mean itself is bounded by `ReviewModel.AverageBounds`.
- Auth.Protected: the found user's id is `user_id`, or undefined for id 0, because `findById` projects no `id` column to fall back on.

## Findings

| source | as written | input that shows it | evidently intended | confidence | as-written member | corrected member |
|---|---|---|---|---|---|---|
| controllers/reservationController.js:17-30 | a provider's query gets `placeIds`, which `Reservation.getAll` never reads, so the provider lists every reservation | a provider with id 7 owning place 1, and a reservation of place 2 | the listing restricted to the provider's own places | not executed | ReservationController.ProviderSeesOtherPlaces | ReservationController.ProviderSeesOwnPlacesFixed |
| models/placeModel.js:22-52 | a `near` search replaces the query text, dropping the type, name and region clauses but keeping their parameters | filters `{type: "museum", near: "36.8,10.1"}` | the filters kept in the distance query, each bound to its own placeholder | not executed | PlaceModel.NearWithTypeUnbalanced | PlaceModel.SearchFixedBalanced |
| controllers/userController.js:22 | `User.verifyPassword` is not defined, so every login with a known email answers 500 | any body whose email belongs to a user | 200 when the password matches the stored hash, 401 otherwise | not executed | UserController.LoginNeverSucceeds | UserController.LoginFixed |
| controllers/userController.js:73-82 | `register` passes `firstName` and `lastName` while `User.create` reads `nom` and `prenom`, so both are stored as NULL | a body with `firstName: "Jean"`, `lastName: "Dupont"` and a new email | the surname stored in `nom` and the given name in `prenom` | not executed | UserController.RegisterDropsNames | UserController.RegisterFixedBindsNames |
| middleware/validate.js:74-117 | the required-with rules sit behind `.optional()`, so an absent person count, visit date or ticket count, and an empty body, pass | body `{placeId: 3}`, and the empty body | a place reservation without persons or visit date refused, and a body naming neither event nor place refused | not executed | Validate.MissingFieldsPass | Validate.MissingFieldsRefused |
