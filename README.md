# Real-estate listing API: a Dafny model of its route handlers

The backend is a FastAPI application over a MongoDB database. It keeps ten
collections: users, properties, listings, verification documents, saved
listings, property comparisons, reviews, messages, notifications and audit
logs. Each route either looks up, inserts, updates or deletes documents in
them. This project models what the routes do to those collections:

- which request is refused, with which error, before anything changes;
- what record a create route stores, with its defaults;
- what a partial update overwrites and what it leaves alone;
- the side effects:
  - a changed price is appended to the property's price history;
  - a fetched listing's view counter goes up by one;
  - a verified identity-proof document verifies its owner;
- what each collection read returns.

Files:

- `entities.dfy` (module `Entities`): the enumerations, stored records and
  request payloads. `Option` stands for Python's optional fields. In an
  update payload, `None` means "not supplied".
- `updates.dfy` (module `Updates`): the record each create route builds, and
  the effect of each `$set`, `$push` and `$inc` on one record. It also holds
  the lemmas about those effects: the price history over many updates, and
  repeated views.
- `filters.dfy` (module `Filters`): the filter each list route builds from
  its query parameters. Python's `if x:` is modelled exactly. An empty string
  adds no condition, and a price bound of zero does.
- `query.dfy` (module `Query`): how a filtered read is answered:
  `find(...).to_list(limit)`, and `find(...).sort(t, -1).to_list(limit)`
  for newest-first reads. The answer holds the matching documents, each
  once, and as many as the limit allows. A sorted answer holds the newest
  ones, newest first.
- `store.dfy` (module `Store`): class `Store` has one `map` per collection,
  keyed by the record's identifying field, and one method per route.
  `Valid()` is the store invariant:
  - every record sits under its own id;
  - every property's price history is non-empty and ends at the current
    price;
  - no user has saved the same listing twice.

  Every method keeps `Valid()`. A method that fails returns `Err` and leaves
  its collections unchanged. Its `modifies` clause names the collections it
  may change, so the other collections stay as they were.

Errors: `NotFound(detail)` is the route's 404 and `BadRequest(detail)` its
400, each with the route's own message. `DuplicateKey` is an insert refused
by the collection's unique index (created at `backend/server.py:955-1008`).
Seven create routes have no check of their own: listings, documents,
comparisons, reviews, messages, notifications and audit logs. For them,
reusing an id gives `DuplicateKey`, and so does reusing a `saved_id`. The
route does not catch this error, so the server answers with a 500.

Timestamps are opaque integers passed in as `now`. A route uses one `now`,
although the source calls `datetime.now` several times per request. Prices
and ratings are `real`.

Points where the code behaves differently from what one might expect, and
the model does what the code does:

- A duplicate user, property or saved listing gets a 400 (`BadRequest`), not
  a separate conflict status.
- `mark_message_read` overwrites `read_at` on every call. It fails only when
  the stored message already carries exactly the new values.
- `mark_notification_read`, `suspend_user` and `ban_user` answer 404 whenever
  MongoDB reports nothing modified. This includes the case where the flag
  already has the requested value.
- `update_listing` sets `verified_at` when the status becomes verified, but
  not `verified_by_admin_uid`.
- `updated_at` is refreshed on every successful update, even when no field
  was supplied.

## Model

| member | source | states |
|---|---|---|
| `Updates.NewUser` | backend/server.py:62-76 | the stored user carries the whole payload, which can be read back from it; it is not verified, two-factor is off, it is neither suspended nor banned, and both timestamps are now |
| `Updates.ApplyUserUpdate` | backend/server.py:355-358 | each of name, phone, picture and two-factor flag takes the supplied value when given and keeps the stored one otherwise; every other field keeps its value; `updated_at` becomes now; an empty payload changes only `updated_at` |
| `Updates.UserUpdateIdempotent` | backend/server.py:355-358 | the same update applied twice at the same instant equals applying it once |
| `Updates.WithSuspended` | backend/server.py:897-900 | the suspension flag takes the given value and nothing else changes, not even `updated_at` |
| `Updates.WithBanned` | backend/server.py:910-913 | the ban flag takes the given value and nothing else changes, not even `updated_at` |
| `Updates.NewProperty` | backend/server.py:388-391 | a new property's history is exactly one "Initial listing" entry at the creation price, so the history invariant holds from creation; the payload can be read back from the property; both timestamps are now |
| `Updates.ApplyPropertyUpdate` | backend/server.py:423-436 | the history grows by one entry iff a price is supplied and differs from the stored one; old entries keep their places; the new entry is the supplied price with reason "Price updated"; the history invariant is preserved; title, description, bedrooms, bathrooms, area, amenities, images, documents and tour URL each take the supplied value when given and keep the stored one otherwise; type, location, year built and creation time never change |
| `Updates.HistoryAppendOnly` | backend/server.py:426-436 | after any series of updates, the old history is a prefix of the new one; it grew by at most one entry per update; the invariant still holds |
| `Updates.EveryPriceChangeRecorded` | backend/server.py:426-436 | N updates that each supply a new price add exactly N entries after the old ones, in order, carrying those prices and instants |
| `Updates.NewListing` | backend/server.py:157-170 | the stored listing carries the payload, which can be read back from it; it is pending, has no views, no verification and no rejection reason; both timestamps are now |
| `Updates.ApplyListingUpdate` | backend/server.py:540-547 | supplied fields are overwritten; `verified_at` becomes now iff the supplied status is verified; the verifying admin, view count, ids and creation time are untouched |
| `Updates.Viewed` | backend/server.py:521 | the view count goes up by exactly one and nothing else changes |
| `Updates.ViewsAddUp` | backend/server.py:520-521 | K view increments raise `views_count` by exactly K and change nothing else |
| `Updates.NewDocument` | backend/server.py:184-195 | the stored document carries the payload, which can be read back from it; it is pending, with no verifying admin, instant or rejection reason; created now |
| `Updates.ApplyVerification` | backend/server.py:640-649 | status, verifying admin and verification instant are always set; the rejection reason changes only when a non-empty one is given; nothing else changes |
| `Updates.CascadeUsers` | backend/server.py:651-656 | the owner's status becomes verified iff the new status is verified, the document is an identity proof and the owner exists; otherwise the users are unchanged; no other user changes |
| `Updates.NewSavedListing` | backend/server.py:204-211 | the stored bookmark carries the payload, which can be read back from it, saved now |
| `Updates.NewComparison` | backend/server.py:220-226 | the stored comparison carries the payload, which can be read back from it, created now |
| `Updates.NewReview` | backend/server.py:234-244 | the stored review carries the payload, which can be read back from it; both timestamps are now |
| `Updates.NewMessage` | backend/server.py:255-266 | the stored message carries the payload, which can be read back from it; it is unread, has no read time, and was sent now |
| `Updates.AsRead` | backend/server.py:811-814 | the message becomes read at now and nothing else changes |
| `Updates.ReadMarkIdempotent` | backend/server.py:809-817 | marking an already-marked message again at the same instant changes nothing, so MongoDB would report nothing modified |
| `Updates.NewNotification` | backend/server.py:277-286 | the stored notification carries the payload, which can be read back from it; it is unread and created now |
| `Updates.NewAuditLog` | backend/server.py:296-305 | the stored entry carries the payload, which can be read back from it, stamped now |
| `Filters.UsersFilter` | backend/server.py:370 | without a role every user matches; with one, exactly the users holding it |
| `Filters.PropertiesFilter` | backend/server.py:457-465 | no parameter means no condition; each parameter only narrows; a minimum of zero still excludes negative prices; an inverted price range matches nothing |
| `Filters.ListingsFilter` | backend/server.py:567-571 | no parameter means no condition; an empty lister is the same as none; each parameter only narrows; a given lister fixes the listing's lister |
| `Filters.DocumentsFilter` | backend/server.py:618-622 | no parameter means no condition; an empty owner is the same as none; each parameter only narrows; a given owner fixes the document's owner |
| `Filters.ReviewsFilter` | backend/server.py:743-747 | no parameter means no condition; an empty target is the same as none; each parameter only narrows; a given target fixes the review's target |
| `Filters.MessagesFilter` | backend/server.py:784-797 | the user is sender or receiver of every message returned; an empty partner is the same as none |
| `Filters.NotificationsFilter` | backend/server.py:834-839 | a broadcast is visible to every user; a notification addressed to someone else never is |
| `Filters.AuditLogsFilter` | backend/server.py:878-884 | no parameter, or only empty strings, means no condition; each parameter only narrows; a given action fixes the entry's action |
| `Filters.ThreadWithinInboxes` | backend/server.py:784-797 | a two-party thread lies within both members' unfiltered message lists, and is the same set of messages seen from either side |
| `Query.Find` | backend/server.py:469 | the answer holds distinct matching documents, exactly min(limit, number of matches) of them; an answer shorter than the limit holds every match |
| `Query.PickNewest` | backend/server.py:799 | the chosen document is in the pool and no document in the pool is newer |
| `Query.NewestFirst` | backend/server.py:799 | like `Find`, and also: timestamps never increase along the answer, and no matching document left out is newer than any returned one |
| `Query.MatchingWithin` | backend/server.py:925-927 | a filter never counts more documents than the collection holds |
| `Store.Store.CreateUser` | backend/server.py:322-334 | 400 "User already exists" with no change when the uid is taken; otherwise exactly the `NewUser` record is added: not verified, not suspended, not banned, two-factor off |
| `Store.Store.GetUser` | backend/server.py:336-340 | the stored user iff the uid exists, otherwise 404 |
| `Store.Store.UpdateUser` | backend/server.py:349-358 | 404 with no change when the user is missing; otherwise only that user changes, by the partial update |
| `Store.Store.GetUsers` | backend/server.py:368-371 | distinct stored users with the requested role (any role when none given), min(limit, matches) of them |
| `Store.Store.SuspendUser` | backend/server.py:895-906 | succeeds iff the user exists and the suspension flag actually changes; then only that flag of that user changes |
| `Store.Store.BanUser` | backend/server.py:908-919 | succeeds iff the user exists and the ban flag actually changes; then only that flag of that user changes |
| `Store.Store.CreateProperty` | backend/server.py:382-399 | 400 "Property ID already exists" with no change when the id is taken; otherwise exactly the `NewProperty` record is added, its history one entry at the creation price |
| `Store.Store.GetProperty` | backend/server.py:401-405 | the stored property iff it exists (its history consistent), otherwise 404 |
| `Store.Store.UpdateProperty` | backend/server.py:417-436 | 404 with no change when missing; otherwise only that property changes, by the update with its history push; the result keeps the history invariant |
| `Store.Store.GetProperties` | backend/server.py:449-469 | distinct stored properties of the requested type whose price lies within the inclusive bounds, min(limit, matches) of them |
| `Store.Store.DeleteProperty` | backend/server.py:482-487 | succeeds iff the property existed, removing exactly it; 404 with no change otherwise |
| `Store.Store.CreateListing` | backend/server.py:490-512 | 404 "Property not found" when the property is missing (checked first), then 404 "Lister not found"; success iff both exist and the id is free; the new listing is pending, unviewed, unverified |
| `Store.Store.GetListing` | backend/server.py:514-532 | 404 with no change when missing; otherwise returns the listing as read before the increment, whose view count alone goes up by one, and no other listing changes |
| `Store.Store.UpdateListing` | backend/server.py:534-547 | 404 with no change when missing; otherwise only that listing changes, by the partial update |
| `Store.Store.GetListings` | backend/server.py:561-573 | distinct stored listings matching the status and non-empty lister filters, min(limit, matches) of them |
| `Store.Store.CreateDocument` | backend/server.py:588-597 | adds exactly one pending document, unless the id is taken (index refusal, no change) |
| `Store.Store.GetDocument` | backend/server.py:599-603 | the stored document iff it exists, otherwise 404 |
| `Store.Store.GetDocuments` | backend/server.py:612-624 | distinct stored documents matching the non-empty owner and status filters, min(limit, matches) of them |
| `Store.Store.VerifyDocument` | backend/server.py:634-658 | 404 with no change when the document is missing; otherwise that document is stamped and the users change only by the identity-proof cascade |
| `Store.Store.SaveListing` | backend/server.py:661-677 | 400 "Listing already saved" when the user already saved that listing; success iff the pair is new and the saved id free, adding exactly that bookmark; no pair is ever saved twice |
| `Store.Store.GetSavedListings` | backend/server.py:679-681 | distinct bookmarks of that user, min(limit, matches) of them |
| `Store.Store.RemoveSavedListing` | backend/server.py:689-694 | succeeds iff the bookmark existed, removing exactly it; 404 with no change otherwise |
| `Store.Store.CreateComparison` | backend/server.py:697-704 | adds exactly that comparison unless the id is taken (index refusal, no change) |
| `Store.Store.GetComparisons` | backend/server.py:706-708 | distinct comparisons of that user, min(limit, matches) of them |
| `Store.Store.DeleteComparison` | backend/server.py:716-721 | succeeds iff the comparison existed, removing exactly it; 404 with no change otherwise |
| `Store.Store.CreateReview` | backend/server.py:724-735 | 400 for a rating below 1 or above 5; success iff the rating is within [1, 5] (bounds accepted) and the id is free, adding exactly that review |
| `Store.Store.GetReviews` | backend/server.py:737-749 | distinct reviews matching the target kind and non-empty target filters, min(limit, matches) of them |
| `Store.Store.DeleteReview` | backend/server.py:759-764 | succeeds iff the review existed, removing exactly it; 404 with no change otherwise |
| `Store.Store.SendMessage` | backend/server.py:767-776 | adds exactly one unread message with no read time, unless the id is taken (index refusal, no change) |
| `Store.Store.GetMessages` | backend/server.py:778-799 | with a non-empty partner C, exactly messages U to C or C to U; otherwise messages U sent or received; newest first, the newest min(limit, matches) of them |
| `Store.Store.MarkMessageRead` | backend/server.py:809-819 | succeeds iff the message exists and is unread or has a different read time; then it alone becomes read at now |
| `Store.Store.CreateNotification` | backend/server.py:822-829 | adds exactly one unread notification unless the id is taken (index refusal, no change) |
| `Store.Store.GetNotifications` | backend/server.py:831-841 | exactly the notifications addressed to the user or to nobody (broadcast), newest first, the newest min(limit, matches) of them |
| `Store.Store.MarkNotificationRead` | backend/server.py:849-859 | succeeds iff the notification exists and is unread; then it alone becomes read |
| `Store.Store.CreateAuditLog` | backend/server.py:862-869 | adds exactly that log entry unless the id is taken (index refusal, no change) |
| `Store.Store.GetAuditLogs` | backend/server.py:871-886 | entries matching the non-empty user, action and resource-type filters, newest first, the newest min(limit, matches) of them |
| `Store.Store.GetAnalytics` | backend/server.py:921-935 | the five live counts; active listings never exceed all listings, pending documents never exceed all documents |

## Left out

- MongoDB and motor I/O, `async`, the `_id` projection and the startup index
  creation. The store is plain maps. The unique indexes matter only where a
  create route has no check of its own, and there they give `DuplicateKey`.
  No other index is modelled.
- FastAPI routing and request validation: enum and literal checks, the
  `EmailStr` check, CORS, logging, and the `GET /api/` greeting.
- The `limit` parameter is a `nat`, so negative limits are not modelled.
  The route itself rejects values above 1000, and the model requires
  `limit <= 1000`. A limit of 0 gives an empty answer in the model. Whether
  the driver's `to_list(0)` behaves the same way is driver behaviour and is
  not modelled.
- The order of an unsorted read (`Query.Find`) is the database's natural
  order and is not modelled. Only which documents come back is modelled, and
  how many.
- The ISO-8601 `isoformat` and `fromisoformat` conversions, and the loops
  that rewrite result documents with them. Timestamps are opaque values.
- Store.Store.GetProperties: the case-insensitive `$regex` city filter is not
  modelled, because it depends on the regular-expression engine. The model
  answers as if no city were given.
- Floating-point behaviour: a NaN rating slips past the range check of
  `create_review`. Latitude and longitude are carried, never computed with.
- Audit-log `metadata` is an arbitrary JSON object. It is modelled as a map
  from strings to strings.
- Success responses of the create, get and update routes return the record.
  The action routes return a message string, and those messages are modelled.
- Concurrency: check-then-insert races between requests, and the non-atomic
  steps of `get_listing`, `verify_document` and `update_property`, whose
  `$push` and `$set` are two separate writes. Each route runs alone.
