/**
 What each route writes into one stored record: the record a create route
 builds from its payload (with the model defaults), and the effect of each
 `$set`, `$push` and `$inc` on a record that exists. An update payload field
 that is `None` is left out of the `$set`, so it leaves the stored value as
 it was; `updated_at` is always part of the `$set`.
 */
module Updates {
  import opened Entities

  // ---------------------------------------------------------------- users

  /** A user as `create_user` stores it: not yet verified, two-factor off,
      neither suspended nor banned. The payload can be read back from it. */
  function NewUser(c: UserCreate, now: Time): (r: User)
    ensures UserCreate(r.firebaseUid, r.email, r.name, r.role, r.phone, r.profilePicture) == c
    ensures r.verificationStatus == NotSubmitted && !r.twoFactorEnabled && !r.isSuspended && !r.isBanned
    ensures r.createdAt == now && r.updatedAt == now
  {
    User(c.firebaseUid, c.email, c.name, c.role, c.phone, c.profilePicture,
         NotSubmitted, false, false, false, now, now)
  }

  /** `update_user`: only the supplied fields are overwritten, and the update
      time is refreshed even when nothing was supplied. */
  function ApplyUserUpdate(u: User, upd: UserUpdate, now: Time): (r: User)
    ensures r.updatedAt == now
    ensures r.name == Or(upd.name, u.name)
    ensures r.phone == if upd.phone.Some? then upd.phone else u.phone
    ensures r.profilePicture == if upd.profilePicture.Some? then upd.profilePicture else u.profilePicture
    ensures r.twoFactorEnabled == Or(upd.twoFactorEnabled, u.twoFactorEnabled)
    ensures r.(name := u.name, phone := u.phone, profilePicture := u.profilePicture,
               twoFactorEnabled := u.twoFactorEnabled, updatedAt := u.updatedAt) == u
    ensures upd == UserUpdate(None, None, None, None) ==> r == u.(updatedAt := now)
  {
    u.(name := Or(upd.name, u.name),
       phone := if upd.phone.Some? then upd.phone else u.phone,
       profilePicture := if upd.profilePicture.Some? then upd.profilePicture else u.profilePicture,
       twoFactorEnabled := Or(upd.twoFactorEnabled, u.twoFactorEnabled),
       updatedAt := now)
  }

  /** Applying the same update twice at the same instant is applying it once. */
  lemma UserUpdateIdempotent(u: User, upd: UserUpdate, now: Time)
    ensures ApplyUserUpdate(ApplyUserUpdate(u, upd, now), upd, now) == ApplyUserUpdate(u, upd, now)
  {
  }

  /** `suspend_user` and `ban_user`: the one flag the admin sets; nothing
      else changes, not even the update time. */
  function WithSuspended(u: User, flag: bool): (r: User)
    ensures r.isSuspended == flag && r.(isSuspended := u.isSuspended) == u
  {
    u.(isSuspended := flag)
  }

  function WithBanned(u: User, flag: bool): (r: User)
    ensures r.isBanned == flag && r.(isBanned := u.isBanned) == u
  {
    u.(isBanned := flag)
  }

  // ----------------------------------------------------------- properties

  const InitialReason: string := "Initial listing"
  const UpdateReason: string := "Price updated"

  /** The price-history invariant: there is at least one entry, and the last
      one carries the current price. */
  predicate HistoryConsistent(p: Property)
  {
    |p.priceHistory| > 0 && p.priceHistory[|p.priceHistory| - 1].price == p.currentPrice
  }

  /** A property as `create_property` stores it: the history is seeded with
      exactly one entry, at the creation price. */
  function NewProperty(c: PropertyCreate, now: Time): (p: Property)
    ensures p.priceHistory == [PriceEntry(c.currentPrice, now, Some(InitialReason))]
    ensures HistoryConsistent(p)
    ensures PropertyCreate(p.propertyId, p.title, p.description, p.propertyType, p.currentPrice, p.location,
                           p.bedrooms, p.bathrooms, p.areaSqft, p.yearBuilt, p.amenities, p.images,
                           p.documents, p.virtualTourUrl) == c
    ensures p.createdAt == now && p.updatedAt == now
  {
    Property(c.propertyId, c.title, c.description, c.propertyType, c.currentPrice,
             [PriceEntry(c.currentPrice, now, Some(InitialReason))],
             c.location, c.bedrooms, c.bathrooms, c.areaSqft, c.yearBuilt,
             c.amenities, c.images, c.documents, c.virtualTourUrl, now, now)
  }

  /** The price is supplied and differs from the stored one. */
  predicate PriceChanges(p: Property, upd: PropertyUpdate)
  {
    upd.currentPrice.Some? && upd.currentPrice.value != p.currentPrice
  }

  /** `update_property`: a price that changes pushes one "Price updated"
      entry onto the history before the `$set` of the supplied fields. */
  function ApplyPropertyUpdate(p: Property, upd: PropertyUpdate, now: Time): (r: Property)
    ensures |r.priceHistory| == |p.priceHistory| + (if PriceChanges(p, upd) then 1 else 0)
    ensures r.priceHistory[..|p.priceHistory|] == p.priceHistory
    ensures PriceChanges(p, upd) ==>
              r.priceHistory[|p.priceHistory|] == PriceEntry(upd.currentPrice.value, now, Some(UpdateReason))
    ensures r.currentPrice == Or(upd.currentPrice, p.currentPrice)
    ensures HistoryConsistent(p) ==> HistoryConsistent(r)
    ensures r.updatedAt == now
    ensures r.propertyId == p.propertyId && r.propertyType == p.propertyType
    ensures r.location == p.location && r.yearBuilt == p.yearBuilt && r.createdAt == p.createdAt
    ensures r.title == Or(upd.title, p.title) && r.description == Or(upd.description, p.description)
    ensures r.bedrooms == if upd.bedrooms.Some? then upd.bedrooms else p.bedrooms
    ensures r.bathrooms == if upd.bathrooms.Some? then upd.bathrooms else p.bathrooms
    ensures r.areaSqft == if upd.areaSqft.Some? then upd.areaSqft else p.areaSqft
    ensures r.amenities == Or(upd.amenities, p.amenities) && r.images == Or(upd.images, p.images)
    ensures r.documents == Or(upd.documents, p.documents)
    ensures r.virtualTourUrl == if upd.virtualTourUrl.Some? then upd.virtualTourUrl else p.virtualTourUrl
  {
    var history := if PriceChanges(p, upd)
                   then p.priceHistory + [PriceEntry(upd.currentPrice.value, now, Some(UpdateReason))]
                   else p.priceHistory;
    p.(title := Or(upd.title, p.title),
       description := Or(upd.description, p.description),
       currentPrice := Or(upd.currentPrice, p.currentPrice),
       priceHistory := history,
       bedrooms := if upd.bedrooms.Some? then upd.bedrooms else p.bedrooms,
       bathrooms := if upd.bathrooms.Some? then upd.bathrooms else p.bathrooms,
       areaSqft := if upd.areaSqft.Some? then upd.areaSqft else p.areaSqft,
       amenities := Or(upd.amenities, p.amenities),
       images := Or(upd.images, p.images),
       documents := Or(upd.documents, p.documents),
       virtualTourUrl := if upd.virtualTourUrl.Some? then upd.virtualTourUrl else p.virtualTourUrl,
       updatedAt := now)
  }

  /** A series of updates, each with the instant it was made. */
  function UpdateAll(p: Property, edits: seq<(PropertyUpdate, Time)>): Property
    decreases |edits|
  {
    if edits == [] then p else UpdateAll(ApplyPropertyUpdate(p, edits[0].0, edits[0].1), edits[1..])
  }

  /** Whatever the updates, the history only grows at its end, by at most
      one entry per update, and keeps the invariant. */
  lemma {:induction false} HistoryAppendOnly(p: Property, edits: seq<(PropertyUpdate, Time)>)
    ensures var h := UpdateAll(p, edits).priceHistory;
            |p.priceHistory| <= |h| <= |p.priceHistory| + |edits| && h[..|p.priceHistory|] == p.priceHistory
    ensures HistoryConsistent(p) ==> HistoryConsistent(UpdateAll(p, edits))
    decreases |edits|
  {
    if edits != [] {
      var q := ApplyPropertyUpdate(p, edits[0].0, edits[0].1);
      HistoryAppendOnly(q, edits[1..]);
      var h := UpdateAll(q, edits[1..]).priceHistory;
      assert h[..|p.priceHistory|] == h[..|q.priceHistory|][..|p.priceHistory|];
    }
  }

  /** Every update supplies a price different from the one before it. */
  ghost predicate EveryPriceNew(price: real, edits: seq<(PropertyUpdate, Time)>)
  {
    && (forall i :: 0 <= i < |edits| ==> edits[i].0.currentPrice.Some?)
    && (|edits| > 0 ==> edits[0].0.currentPrice.value != price)
    && (forall i :: 0 < i < |edits| ==> edits[i].0.currentPrice.value != edits[i - 1].0.currentPrice.value)
  }

  /** N updates that each change the price add exactly N entries, in order,
      carrying the supplied prices. */
  lemma {:induction false} EveryPriceChangeRecorded(p: Property, edits: seq<(PropertyUpdate, Time)>)
    requires EveryPriceNew(p.currentPrice, edits)
    ensures var h := UpdateAll(p, edits).priceHistory;
            && |h| == |p.priceHistory| + |edits|
            && h[..|p.priceHistory|] == p.priceHistory
            && forall i :: 0 <= i < |edits| ==>
                 h[|p.priceHistory| + i] == PriceEntry(edits[i].0.currentPrice.value, edits[i].1, Some(UpdateReason))
    decreases |edits|
  {
    if edits != [] {
      var q := ApplyPropertyUpdate(p, edits[0].0, edits[0].1);
      assert PriceChanges(p, edits[0].0);
      var rest := edits[1..];
      assert EveryPriceNew(q.currentPrice, rest) by {
        forall i | 0 <= i < |rest|
          ensures rest[i].0.currentPrice.Some?
        {
          assert rest[i] == edits[i + 1];
        }
        forall i | 0 < i < |rest|
          ensures rest[i].0.currentPrice.value != rest[i - 1].0.currentPrice.value
        {
          assert rest[i] == edits[i + 1] && rest[i - 1] == edits[i];
        }
        if |rest| > 0 {
          assert rest[0] == edits[1];
        }
      }
      EveryPriceChangeRecorded(q, rest);
      var h := UpdateAll(q, rest).priceHistory;
      assert h[..|p.priceHistory|] == h[..|q.priceHistory|][..|p.priceHistory|];
      forall i | 0 <= i < |edits|
        ensures h[|p.priceHistory| + i] == PriceEntry(edits[i].0.currentPrice.value, edits[i].1, Some(UpdateReason))
      {
        if i == 0 {
          assert h[|p.priceHistory|] == h[..|q.priceHistory|][|p.priceHistory|];
        } else {
          assert rest[i - 1] == edits[i];
        }
      }
    }
  }

  // ------------------------------------------------------------- listings

  /** A listing as `create_listing` stores it: pending, never viewed, not verified. */
  function NewListing(c: ListingCreate, now: Time): (r: Listing)
    ensures ListingCreate(r.listingId, r.propertyId, r.listerFirebaseUid, r.expiresAt) == c
    ensures r.status == ListingStatus.Pending && r.viewsCount == 0
    ensures r.verifiedAt.None? && r.verifiedByAdminUid.None? && r.rejectionReason.None?
    ensures r.createdAt == now && r.updatedAt == now
  {
    Listing(c.listingId, c.propertyId, c.listerFirebaseUid, ListingStatus.Pending, 0,
            None, None, None, c.expiresAt, now, now)
  }

  /** `update_listing`: the supplied fields are overwritten, and setting the
      status to verified also stamps `verified_at`; the verifying admin is
      not recorded. */
  function ApplyListingUpdate(l: Listing, upd: ListingUpdate, now: Time): (r: Listing)
    ensures r.status == Or(upd.status, l.status)
    ensures r.verifiedAt == if upd.status == Some(ListingStatus.Verified) then Some(now) else l.verifiedAt
    ensures r.rejectionReason == if upd.rejectionReason.Some? then upd.rejectionReason else l.rejectionReason
    ensures r.expiresAt == if upd.expiresAt.Some? then upd.expiresAt else l.expiresAt
    ensures r.updatedAt == now
    ensures r.(status := l.status, verifiedAt := l.verifiedAt, rejectionReason := l.rejectionReason,
               expiresAt := l.expiresAt, updatedAt := l.updatedAt) == l
  {
    var stamped := if upd.status == Some(ListingStatus.Verified) then Some(now) else l.verifiedAt;
    l.(status := Or(upd.status, l.status),
       rejectionReason := if upd.rejectionReason.Some? then upd.rejectionReason else l.rejectionReason,
       expiresAt := if upd.expiresAt.Some? then upd.expiresAt else l.expiresAt,
       verifiedAt := stamped,
       updatedAt := now)
  }

  /** The `$inc` of `get_listing`. */
  function Viewed(l: Listing): (r: Listing)
    ensures r.viewsCount == l.viewsCount + 1 && r.(viewsCount := l.viewsCount) == l
  {
    l.(viewsCount := l.viewsCount + 1)
  }

  function ViewedTimes(l: Listing, k: nat): Listing
  {
    if k == 0 then l else Viewed(ViewedTimes(l, k - 1))
  }

  /** K successful fetches raise the counter by exactly K and touch nothing else. */
  lemma {:induction false} ViewsAddUp(l: Listing, k: nat)
    ensures ViewedTimes(l, k) == l.(viewsCount := l.viewsCount + k)
  {
    if k > 0 {
      ViewsAddUp(l, k - 1);
    }
  }

  // ------------------------------------------------ verification documents

  /** A document as `create_verification_document` stores it: pending, not
      yet seen by an admin. */
  function NewDocument(c: DocumentCreate, now: Time): (r: VerificationDocument)
    ensures DocumentCreate(r.documentId, r.userFirebaseUid, r.documentType, r.documentUrl) == c
    ensures r.status == VerificationStatus.Pending && r.createdAt == now
    ensures r.verifiedAt.None? && r.verifiedByAdminUid.None? && r.rejectionReason.None?
  {
    VerificationDocument(c.documentId, c.userFirebaseUid, c.documentType, c.documentUrl,
                         VerificationStatus.Pending, None, None, None, now)
  }

  /** The document half of `verify_document`: status, admin and instant are
      always set; a rejection reason only when a non-empty one is given. */
  function ApplyVerification(d: VerificationDocument, admin: string, status: VerificationStatus,
                             reason: Option<string>, now: Time): (r: VerificationDocument)
    ensures r.status == status && r.verifiedByAdminUid == Some(admin) && r.verifiedAt == Some(now)
    ensures r.rejectionReason == if Supplied(reason) then reason else d.rejectionReason
    ensures r.(status := d.status, verifiedByAdminUid := d.verifiedByAdminUid,
               verifiedAt := d.verifiedAt, rejectionReason := d.rejectionReason) == d
  {
    d.(status := status, verifiedByAdminUid := Some(admin), verifiedAt := Some(now),
       rejectionReason := if Supplied(reason) then reason else d.rejectionReason)
  }

  /** Verifying this document with this status verifies its owner. */
  predicate VerifiesOwner(d: VerificationDocument, status: VerificationStatus)
  {
    status == VerificationStatus.Verified && d.documentType == IdentityProof
  }

  /** The user half of `verify_document`: an update on the owner that is a
      no-op when the owner does not exist. */
  function CascadeUsers(users: map<string, User>, d: VerificationDocument, status: VerificationStatus)
    : (r: map<string, User>)
    ensures r.Keys == users.Keys
    ensures forall uid :: uid in users && uid != d.userFirebaseUid ==> r[uid] == users[uid]
    ensures d.userFirebaseUid in users ==>
              r[d.userFirebaseUid].verificationStatus ==
                (if VerifiesOwner(d, status) then VerificationStatus.Verified
                 else users[d.userFirebaseUid].verificationStatus)
    ensures d.userFirebaseUid in users ==>
              r[d.userFirebaseUid] == users[d.userFirebaseUid].(verificationStatus := r[d.userFirebaseUid].verificationStatus)
    ensures !VerifiesOwner(d, status) ==> r == users
  {
    var uid := d.userFirebaseUid;
    if VerifiesOwner(d, status) && uid in users
    then users[uid := users[uid].(verificationStatus := VerificationStatus.Verified)]
    else users
  }

  // ---------------------------------------------------- other new records

  /** A bookmark as `save_listing` stores it. */
  function NewSavedListing(c: SavedListingCreate, now: Time): (r: SavedListing)
    ensures SavedListingCreate(r.savedId, r.userFirebaseUid, r.listingId, r.notes) == c && r.savedAt == now
  {
    SavedListing(c.savedId, c.userFirebaseUid, c.listingId, c.notes, now)
  }

  /** A comparison as `create_comparison` stores it. */
  function NewComparison(c: ComparisonCreate, now: Time): (r: Comparison)
    ensures ComparisonCreate(r.comparisonId, r.userFirebaseUid, r.propertyIds) == c && r.createdAt == now
  {
    Comparison(c.comparisonId, c.userFirebaseUid, c.propertyIds, now)
  }

  /** The rating check of `create_review`, written as the route writes it. */
  predicate RatingRejected(rating: real)
  {
    rating < 1.0 || rating > 5.0
  }

  /** A review as `create_review` stores it. */
  function NewReview(c: ReviewCreate, now: Time): (r: Review)
    ensures ReviewCreate(r.reviewId, r.reviewerFirebaseUid, r.targetType, r.targetId, r.rating, r.comment) == c
    ensures r.createdAt == now && r.updatedAt == now
  {
    Review(c.reviewId, c.reviewerFirebaseUid, c.targetType, c.targetId, c.rating, c.comment, now, now)
  }

  /** A message as `send_message` stores it: unread, never read. */
  function NewMessage(c: MessageCreate, now: Time): (r: Message)
    ensures MessageCreate(r.messageId, r.senderFirebaseUid, r.receiverFirebaseUid, r.listingId, r.subject,
                          r.content) == c
    ensures r.status == Unread && r.readAt.None? && r.sentAt == now
  {
    Message(c.messageId, c.senderFirebaseUid, c.receiverFirebaseUid, c.listingId, c.subject,
            c.content, Unread, now, None)
  }

  /** The `$set` of `mark_message_read`: read, at this instant, on every call. */
  function AsRead(m: Message, now: Time): (r: Message)
    ensures r.status == Read && r.readAt == Some(now)
    ensures r.(status := m.status, readAt := m.readAt) == m
  {
    m.(status := Read, readAt := Some(now))
  }

  /** A second read mark at the same instant changes nothing, which is why
      `mark_message_read` then reports that no message was modified. */
  lemma ReadMarkIdempotent(m: Message, now: Time)
    ensures AsRead(AsRead(m, now), now) == AsRead(m, now)
  {
  }

  /** A notification as `create_notification` stores it: unread. */
  function NewNotification(c: NotificationCreate, now: Time): (r: Notification)
    ensures NotificationCreate(r.notificationId, r.userFirebaseUid, r.title, r.message, r.notificationType) == c
    ensures !r.isRead && r.createdAt == now
  {
    Notification(c.notificationId, c.userFirebaseUid, c.title, c.message, c.notificationType, false, now)
  }

  /** An entry as `create_audit_log` stores it. */
  function NewAuditLog(c: AuditLogCreate, now: Time): (r: AuditLog)
    ensures AuditLogCreate(r.logId, r.userFirebaseUid, r.action, r.resourceType, r.resourceId, r.metadata) == c
    ensures r.timestamp == now
  {
    AuditLog(c.logId, c.userFirebaseUid, c.action, c.resourceType, c.resourceId, c.metadata, now)
  }
}
