# BPPC Marketplace: the marketplace rules, in Dafny

This project models the rule layer of the BPPC Marketplace back end: a
campus marketplace where students list products, bid on them, keep
wishlists, rate and report each other. It covers the Django models and the
hooks that run when rows are saved, the GraphQL mutations and query
resolvers, the helpers behind them, account creation from an email address,
and the older schema helpers.

The database is one class, `Models.Db`. Each table is a map from primary key
to row, or a sequence for the append-only tables (offers, ratings and
reports). Every row is a datatype value. A save hook that changes an
instance in place and saves it is a `Db` method that rewrites the row. Each
method's `modifies` clause names the tables it may touch, so every other
table is unchanged by construction. `Db.Valid()` is the store invariant:
keys lie below their auto-increment counters, the username index is exact,
every user has exactly one profile and each profile belongs to exactly one
user, and every profile has a wishlist. Every method preserves it, except
two. `Db.CreateProfile` starts from the invariant without the new user's
profile and restores it. `Db.SaveImage` keeps only the image part
(`ImagesBelowCounter`); `Utils.SaveImages` calls it in a loop and restores
`Valid()` after the loop.

An exception that escapes to the caller is a `Failure` of `Wrappers.Result`,
with the exception class as an `Models.Exc` value. A mutation's `{ok,
errors}` answer is a `Mutation.Payload`. The calling account is
`Option<int>`, where None is the anonymous request.

Modules, one per source file:

- `Models`: backend/main/models.py.
- `Services`: backend/main/services.py.
- `Utils`: backend/main/schema/utils.py.
- `Mutation`: backend/main/schema/mutation.py.
- `Query`: backend/main/schema/query.py.
- `Auth`: backend/main/auth_helpers.py.
- `LegacyUtils`: main/schema/utils.py.
- `Text`: Python's `str.split` around one separator, with its round trip `Join(Split(s)) == s`.
- `Wrappers`: the `Option` and `Result` types.

Behaviour the code has that its tests and comments do not intend is modelled
as written and stated as a lemma:

- `Profile.save` compares the list of `@`-pieces of the address with the
  campus domain string. That comparison never holds, so every saved profile
  gets BUYER (`Models.SavedLevelIsBuyer`, `Models.CampusAddressNotRecognised`).
  The tests expect SELLER for a campus address.
- The save re-derives the level, so the ban that `moderate_profile` writes
  is overwritten by the save it triggers (`Services.ModerateProfile`).
- A NULL contact number is unequal to `""`, so it counts as given
  (`Services.CompletenessCases`).
- Both error paths of the `UpdateProfile` mutation evaluate a misspelt name
  and raise NameError instead of answering in the envelope.
- `set_permission_level` assigns only in its non-campus branch, so it can
  only ever write BUYER.
- `CreateOffer` enforces neither rule that the product fields describe. A
  first bid on a non-negotiable product is stored with the amount given,
  not the asking price (`Mutation.NonNegotiableBidKeptAsGiven`). A buyer
  may make a second offer on the same product: a higher bid is stored
  beside the earlier one (`Mutation.RepeatHigherBidAccepted`).

## Model

| member | source | states |
|---|---|---|
| `Text.Split` | backend/main/models.py:87 | splitting at a separator gives one more piece than there are separators, no piece holds the separator, and joining the pieces gives back the string |
| `Text.SplitAround` | backend/main/services.py:31 | an address with exactly one separator splits into the part before it and the part after it |
| `Text.SplitAfterHead` | backend/main/services.py:31 | splitting `head@rest` gives `head` followed by the pieces of `rest` |
| `Models.LevelsTotallyOrdered` | backend/main/models.py:37-46 | BANNED < BUYER < SELLER < ADMIN |
| `Models.SavedLevelIsBuyer` | backend/main/models.py:86-97 | whatever the address, the level `Profile.save` writes is BUYER |
| `Models.DomainOf` | backend/main/services.py:31 | the domain is absent exactly when the address has no `@` (the IndexError case), and never contains `@` |
| `Models.DomainIsSecondPiece` | backend/main/services.py:31 | the domain of `local@rest` is the second `@`-piece of the address: the part of `rest` before its next `@` |
| `Models.SavedLevel` | backend/main/models.py:87-95 | the level `Profile.save` derives is SELLER or BUYER, never BANNED or ADMIN |
| `Models.IntendedLevel` | backend/main/tests/test_models.py:17-29 | the level the tests expect is SELLER or BUYER, and BUYER for an address without `@` |
| `Models.CampusAddressNotRecognised` | backend/main/models.py:87-95 | for every campus address the intended rule gives SELLER but the code as written gives BUYER |
| `Models.OtherDomainIsBuyer` | backend/main/tests/test_models.py:24-29 | a non-campus address gets BUYER under both the intended rule and the code |
| `Models.Rated` | backend/main/models.py:152 | the new average times the new count is the old total plus the new rating; the first rating becomes the average |
| `Models.AggregateIsMean` | backend/main/models.py:149-153 | starting from 0 / 0, the running average after ratings r1..rk is exactly their mean and the count is k |
| `Models.PreviousOffer` | backend/main/schema/mutation.py:154-157 | the previous offer is the last offer of the same offerer on the same product, or none exactly when there is no such offer |
| `Models.AcceptedOfferKeepsIncreasing` | backend/main/schema/mutation.py:159-163 | appending an offer that beats its pair's previous offer keeps every pair's amounts strictly increasing |
| `Models.OffersOn` | backend/main/schema/query.py:87 | exactly the offers on the product, each as many times as it occurs in the store, and no others |
| `Models.FreshProduct` | backend/main/models.py:174-192 | a new product carries the given fields and the column defaults: not sold, not a ticket, visible, not negotiable, no offers, no images |
| `Models.ProductReportCount` | backend/main/models.py:296 | the count is at most the number of reports, and zero exactly when no report is about the product |
| `Models.UserReportCount` | backend/main/services.py:72 | the count is at most the number of reports, and zero exactly when no report is about the profile |
| `Models.ProductReportCountAppend` | backend/main/models.py:296 | a new report adds one to its product's report count and leaves every other count alone |
| `Models.UserReportCountAppend` | backend/main/services.py:72 | a new user report adds one to its profile's report count and leaves every other count alone |
| `Models.ProductReportCountMonotone` | backend/main/models.py:288-298 | report counts never fall as reports are added |
| `Models.VisibleAfterReports` | backend/main/models.py:294-297 | more than 5 reports means hidden; 5 or fewer leave visibility as it was |
| `Models.VisibilityIsAValve` | backend/main/models.py:294-298 | the visibility valve never re-shows a product, is idempotent, and stays shut as reports accumulate |
| `Models.Db.SaveProfile` | backend/main/models.py:86-99 | the row becomes the instance with the re-derived level, which is BUYER, whatever level (BANNED included) the instance carried |
| `Models.Db.SaveNewUser` | backend/main/models.py:101-110 | saving a new account creates exactly one profile (level BUYER) and one empty wishlist for it, and every existing account keeps its profile; a taken username fails and changes nothing |
| `Models.Db.CreateProfile` | backend/main/models.py:107-109 | the created branch adds one new profile linked to the user and one empty wishlist |
| `Models.Db.SaveExistingUser` | backend/main/models.py:101-110 | re-saving an account creates no profile or wishlist and re-saves its profile with level BUYER |
| `Models.Db.UpdateProfileRating` | backend/main/models.py:144-154 | a new rating sets the count to n+1 and the average to (avg*n + r)/(n+1); re-saving a rating changes nothing |
| `Models.Db.UpdateProductOffers` | backend/main/models.py:250-258 | a new offer adds exactly one to its product's offer count; re-saving an offer changes nothing |
| `Models.Db.ModerateProduct` | backend/main/models.py:288-298 | past 5 reports the product becomes invisible; otherwise nothing changes |
| `Models.Db.SaveImage` | backend/main/schema/utils.py:119-121 | a new image row under a fresh id |
| `Models.Db.SaveProductReport` | backend/main/models.py:282-298 | the report is appended; the reported product's visibility becomes what the valve gives for its new report count (hidden past 5, unchanged otherwise) and nothing else about any product changes |
| `Services.IsComplete` | backend/main/services.py:45-49 | complete exactly when name and hostel are non-empty and the contact number is NULL or non-empty |
| `Services.UpdateIsComplete` | backend/main/services.py:43-52 | the flag is set exactly when name, hostel and contact number are given, and nothing else changes |
| `Services.CompletenessCases` | backend/main/tests/test_models.py:31-39 | an empty name, hostel or contact number makes a profile incomplete; a NULL contact number does not |
| `Services.SetPermissionLevel` | backend/main/services.py:30-40 | an empty address leaves the profile alone; an address without `@` raises; the campus domain leaves the level; any other domain sets BUYER; no other level is ever written |
| `Services.LevelAfterReports` | backend/main/services.py:70-73 | more than 5 reports means BANNED; 5 or fewer leave the level as it was |
| `Services.LevelRuleIsAValve` | backend/main/services.py:64-74 | the ban rule never raises a level, is idempotent, and keeps a banned profile banned as reports accumulate |
| `Services.ModerateProfile` | backend/main/services.py:64-74 | with 5 or fewer reports nothing changes; past 5 the profile is saved and, because the save re-derives the level, ends BUYER rather than BANNED |
| `Utils.NumPages` | backend/main/schema/utils.py:7 | exactly one page for an empty listing; otherwise the pages hold all objects with the last page non-empty |
| `Utils.GetPaginator` | backend/main/schema/utils.py:6-21 | the page is in [1, pages]; a non-integer page gives page 1, an out-of-range page the last; has_prev iff page > 1 and has_next iff page < pages; the page shows the objects at positions (page-1)*size up to page*size, cut off at the end of the listing |
| `Utils.PageStartInListing` | backend/main/schema/utils.py:14-19 | every in-range page starts inside the listing (at 0 when it is empty) and spans one page size |
| `Utils.EveryObjectOnItsPage` | backend/main/schema/utils.py:14-19 | every object of the listing is shown on the page its position selects, and that page is in range |
| `Utils.NewProduct` | backend/main/schema/utils.py:24-37 | the saved row has the seller and the given name, price (not negative), negotiability, description and category, and the column defaults for the rest |
| `Utils.CreateProduct` | backend/main/schema/utils.py:24-39 | a missing NOT NULL field or a negative price fails and changes nothing; otherwise one new product with the given fields, not sold, visible, no offers, no images |
| `Utils.PatchedProductFields` | backend/main/schema/utils.py:51-56 | a patch sets name, expected price, description and category where a value is given and changes no other field |
| `Utils.PatchedProductIdempotent` | backend/main/schema/utils.py:53-58 | applying a patch twice equals applying it once |
| `Utils.EmptyPatchIsIdentity` | backend/main/schema/utils.py:53-56 | a patch whose fields are all None changes nothing |
| `Utils.UpdateProduct` | backend/main/schema/utils.py:42-60 | the loop over the field list yields the patched product, which is saved; a negative price fails and leaves the row |
| `Utils.IdRangeMembers` | backend/main/schema/utils.py:118-123 | the ids given to n uploaded files are exactly the n ids from the image counter on |
| `Utils.IdRangeSize` | backend/main/schema/utils.py:118-123 | the ids given to n uploaded files are n distinct ids |
| `Utils.ImagesFromRows` | backend/main/schema/utils.py:119-121 | the k-th uploaded file becomes the image row numbered k places after the counter |
| `Utils.SaveImages` | backend/main/schema/utils.py:117-123 | one new image row per file, numbered consecutively, all new |
| `Utils.AddImagesToProduct` | backend/main/schema/utils.py:112-126 | an unknown product raises; otherwise the product gains exactly the new images, one per file, and zero files add nothing |
| `Utils.PatchedProfileFields` | backend/main/schema/utils.py:64-69 | a profile patch sets name, hostel and contact number where given and changes no other field |
| `Utils.UpdateProfile` | backend/main/schema/utils.py:62-73 | the patched profile is saved with level BUYER; a contact number held by another profile fails the unique index and changes nothing |
| `Utils.CreateOffer` | backend/main/schema/utils.py:75-85 | the offer stores offerer, product, amount and message as given; a missing amount or message fails; the product's offer count rises by one |
| `Utils.ProfileRating` | backend/main/schema/utils.py:87-97 | the rating is recorded and folded into the rated profile's average and count |
| `Utils.CreateUserReport` | backend/main/schema/utils.py:99-110 | an unknown username fails and changes nothing; otherwise the report records reporter, reported profile and category, and the ban rule runs |
| `Mutation.ResolveErrors` | backend/main/schema/mutation.py:24-25 | the stored errors, an absent list read as empty |
| `Mutation.ResolveOk` | backend/main/schema/mutation.py:21-22 | ok exactly when the error list is absent or empty |
| `Mutation.OkIffNoErrors` | backend/main/schema/mutation.py:21-25 | ok is true iff the errors list is empty |
| `Mutation.Gate` | backend/main/schema/mutation.py:37-38 | a call proceeds exactly when the caller is logged in and has at least the required level; otherwise permission is denied |
| `Mutation.GateOrder` | backend/main/tests/test_mutations.py:47-54 | a BUYER is refused by the SELLER gate, a BANNED caller by the BUYER gate, the anonymous caller by every gate |
| `Mutation.CreateProduct` | backend/main/schema/mutation.py:31-46 | refused unless the caller is logged in with level SELLER or higher; a missing input raises; otherwise it succeeds exactly when the input is storable, adding one new product row built from the input with the caller's profile as seller and leaving every other product as it was |
| `Mutation.UpdateProduct` | backend/main/schema/mutation.py:49-72 | an unknown id answers "does not exist", a caller who is not the seller "not allowed", both with no object and no change; the seller's patch is applied |
| `Mutation.UpdateProfile` | backend/main/schema/mutation.py:75-102 | only the owner's profile is patched; another's is refused with no change; a missing input or unknown username raises |
| `Mutation.Toggled` | backend/main/schema/mutation.py:124-127 | present means removed, absent means added |
| `Mutation.ToggleTwiceIsIdentity` | backend/main/schema/mutation.py:123-127 | toggling the same product twice restores the wishlist |
| `Mutation.ToggleFlipsOnlyItsProduct` | backend/main/schema/mutation.py:124-127 | a toggle flips its product's membership and no other product's |
| `Mutation.UpdateWishlist` | backend/main/schema/mutation.py:105-129 | a missing product and the caller's own product are refused with no change; otherwise the caller's wishlist is toggled |
| `Mutation.CreateOffer` | backend/main/schema/mutation.py:132-166 | refused below BUYER; a missing or own product is refused; a bid not above the caller's previous bid on the product is refused; an accepted offer keeps per-pair amounts strictly increasing |
| `Mutation.NonNegotiableBidKeptAsGiven` | backend/main/schema/mutation.py:140-166 | a first bid on a product that is not negotiable succeeds and is stored with the amount given, so it differs from the asking price whenever the caller's amount does |
| `Mutation.RepeatHigherBidAccepted` | backend/main/schema/mutation.py:154-166 | a bid above the caller's previous bid on the same product succeeds, is appended as the pair's latest offer, and the earlier offer stays stored |
| `Query.ResolveProduct` | backend/main/schema/query.py:38-47 | the product with the given id; a miss or no id answers None |
| `Query.ProfileByEmail` | backend/main/schema/query.py:63-67 | no match answers None, one match answers that profile, several raise |
| `Query.ResolveProfile` | backend/main/schema/query.py:49-68 | username first, then id, then email; a miss answers None; only an ambiguous email raises |
| `Query.ResolveProfilePrecedence` | backend/main/schema/query.py:50-62 | a username makes id and email irrelevant, an id makes email irrelevant, and a username lookup finds that user's profile |
| `Query.ResolveWishlist` | backend/main/schema/query.py:70-77 | the caller's wishlist |
| `Query.ResolveProductOffer` | backend/main/schema/query.py:79-89 | exactly the offers on the given product, with their multiplicity; a miss or no id answers None |
| `Query.ResolveProducts` | backend/main/schema/query.py:91-95 | the page `get_paginator` selects for the product count, page size and requested page, which is in range |
| `Query.ResolveMyProfile` | backend/main/schema/query.py:97-100 | anonymous callers are refused with PermissionDenied; otherwise the answer is exactly the profile linked to the caller, which is the only profile whose user is the caller |
| `Query.AnonymousRefused` | backend/main/tests/test_queries.py:49-57 | every resolver refuses the anonymous caller with PermissionDenied |
| `Auth.Password` | backend/main/auth_helpers.py:7-13 | eight characters, all from the fixed alphabet |
| `Auth.PasswordMayRepeatCharacters` | backend/main/auth_helpers.py:9-11 | distinct positions can give the same character, because '0' occurs twice in the alphabet |
| `Auth.CreateUserFromEmail` | backend/main/auth_helpers.py:23-30 | an address without exactly one `@` raises; the username is the part before `@`; the profile gets the full address and level BUYER; the generated password is not stored |
| `Auth.UsernameIsLocalPart` | backend/main/auth_helpers.py:24 | for local@domain the username is exactly local |
| `Auth.MalformedAddresses` | backend/main/auth_helpers.py:24 | an address with no `@` or with two is refused |
| `LegacyUtils.PatchedFields` | main/schema/utils.py:28-33 | a patch sets name, base price, description and category where given and leaves the seller and every absent field alone |
| `LegacyUtils.PatchedIdempotent` | main/schema/utils.py:30-35 | applying a patch twice equals applying it once |
| `LegacyUtils.EmptyPatchIsIdentity` | main/schema/utils.py:31-33 | all-None arguments change nothing |
| `LegacyUtils.Product.constructor` | main/schema/utils.py:8 | a new product instance with only its seller set |
| `LegacyUtils.Product.Set` | main/schema/utils.py:32-33 | one field is assigned when its argument is not None |
| `LegacyUtils.CreateProduct` | main/schema/utils.py:4-16 | a new product whose seller, name, base price, description and category are the arguments as given |
| `LegacyUtils.UpdateProduct` | main/schema/utils.py:19-37 | the product's fields become the patched fields, in place |

## Left out

- Concurrency: two requests saving the same row can lose an update; every operation here runs alone.
- Models.Rated: the average is an exact rational. The database column keeps one decimal digit (`max_digits=2`), and that rounding is not modelled.
- The `UpdateOffer` mutation is not modelled, because the helper it calls is commented out. `ProductOffer.validate_offer_amount` is not modelled either: it is never called and it reads an undefined name.
- Utils.CreateProduct: the helper's unused `files` parameter is not modelled. The mutation's call does not supply it, which as written is a TypeError.
- Mutation.UpdateProfile: the mutation module imports `ProfileInput` at backend/main/schema/mutation.py:5, but the inputs module defines only `ProfileUpdateInput`. As written the import fails, so no mutation of the module loads at all. The model assumes the name resolves to that input type's three fields.
- Utils.GetPaginator: requires a positive page size. The resolver passes whatever the client sends, and a zero page size is not modelled.
- Query.ResolveProducts: the page is described by the positions it shows. The listing is ordered by `created_at`, a column the Product model does not have (it has `created`). Neither that ordering nor its failure is modelled.
- Services.SetPermissionLevel: lines 23-24 read `Profile.UNSET` and `tasks`, which are defined nowhere, so they are not modelled. The module also uses `Profile`, `User`, `UserReport`, `ProfileRating` (services.py:55) and `ProductOffer` (services.py:77) without importing them. Its rules are modelled as standalone operations on a profile value, and `Models.Db.SaveProfile` does not run the services receivers.
- Services.UpdateIsComplete: `Profile` in models.py has no `is_complete` column; the model keeps the flag on the profile row.
- Utils.CreateUserReport: models.py declares no `UserReport` model, although the schema, admin and tests use one. As written, `models.UserReport` at backend/main/schema/types.py:18 fails, which breaks the schema types. The model assumes the name resolves. The model records the report with the fields the helper assigns and runs `moderate_profile`, as its receiver declares.
- Utils.ContactTaken: `contact_no` is a `PhoneNumberField` (backend/main/models.py:53), which parses and normalises the number it stores. The model compares raw strings, so two spellings of one number collide on the unique index in the program but not in the model. `Services.IsComplete` compares raw strings in the same way.
- Models.PreviousOffer: `list(ProductOffer.objects.filter(...))[-1]` runs a query with no `order_by`, and `ProductOffer` declares no default ordering, so the database may return the rows in any order. The model takes insertion order. The strictly-increasing invariant of `Models.AcceptedOfferKeepsIncreasing` depends on that order.
- Foreign keys are not checked: a category id, or a product id in an offer, is not looked up in its table on save.
- The `created` timestamp, image files and thumbnails, JWT encoding, and the GraphQL type layer are not modelled.
- `generate_random_password` is random: the model takes the positions `random.sample` picks as a parameter.
- The field-length limits of character columns are not modelled. SQLite does not enforce them.
- The legacy helpers' save is not modelled, because main/models.py is not part of this model.
