/**
 The route handlers of the marketplace API over its ten collections. Each
 collection is a map from the record's identifying field to the record.
 Every route either fails with an error and leaves the store as it was, or
 makes exactly the change it describes; a route's `modifies` clause names
 the collections it may touch, so every other collection keeps its value.
 */
module Store {
  import opened Entities
  import opened Updates
  import opened Filters
  import Query

  /** `NotFound` and `BadRequest` are the route's own 404 and 400 answers;
      `DuplicateKey` is an insert the collection's unique index refuses,
      which the route does not catch. */
  datatype Error = NotFound(detail: string) | BadRequest(detail: string) | DuplicateKey

  datatype Result<T> = Ok(value: T) | Err(error: Error)

  datatype Analytics = Analytics(
    totalUsers: nat,
    totalProperties: nat,
    totalListings: nat,
    activeListings: nat,
    pendingVerifications: nat)

  // Each collection is keyed by its records' identifying field.

  ghost predicate UsersKeyed(m: map<string, User>) { forall k :: k in m ==> m[k].firebaseUid == k }

  ghost predicate PropertiesKeyed(m: map<string, Property>) { forall k :: k in m ==> m[k].propertyId == k }

  ghost predicate ListingsKeyed(m: map<string, Listing>) { forall k :: k in m ==> m[k].listingId == k }

  ghost predicate DocumentsKeyed(m: map<string, VerificationDocument>) { forall k :: k in m ==> m[k].documentId == k }

  ghost predicate SavedKeyed(m: map<string, SavedListing>) { forall k :: k in m ==> m[k].savedId == k }

  ghost predicate ComparisonsKeyed(m: map<string, Comparison>) { forall k :: k in m ==> m[k].comparisonId == k }

  ghost predicate ReviewsKeyed(m: map<string, Review>) { forall k :: k in m ==> m[k].reviewId == k }

  ghost predicate MessagesKeyed(m: map<string, Message>) { forall k :: k in m ==> m[k].messageId == k }

  ghost predicate NotificationsKeyed(m: map<string, Notification>) { forall k :: k in m ==> m[k].notificationId == k }

  ghost predicate AuditLogsKeyed(m: map<string, AuditLog>) { forall k :: k in m ==> m[k].logId == k }

  /** Every stored property keeps its price-history invariant. */
  ghost predicate HistoriesConsistent(m: map<string, Property>) { forall k :: k in m ==> HistoryConsistent(m[k]) }

  /** The user has already bookmarked the listing. */
  predicate AlreadySaved(saved: map<string, SavedListing>, user: string, listing: string)
  {
    exists k :: k in saved && saved[k].userFirebaseUid == user && saved[k].listingId == listing
  }

  /** No user has bookmarked the same listing twice. */
  ghost predicate SavedPairsUnique(m: map<string, SavedListing>)
  {
    forall a, b ::
      (a in m && b in m && m[a].userFirebaseUid == m[b].userFirebaseUid && m[a].listingId == m[b].listingId)
      ==> a == b
  }

  class Store {
    var users: map<string, User>
    var properties: map<string, Property>
    var listings: map<string, Listing>
    var documents: map<string, VerificationDocument>
    var saved: map<string, SavedListing>
    var comparisons: map<string, Comparison>
    var reviews: map<string, Review>
    var messages: map<string, Message>
    var notifications: map<string, Notification>
    var auditLogs: map<string, AuditLog>

    ghost predicate Valid()
      reads this
    {
      && UsersKeyed(users)
      && PropertiesKeyed(properties) && HistoriesConsistent(properties)
      && ListingsKeyed(listings)
      && DocumentsKeyed(documents)
      && SavedKeyed(saved) && SavedPairsUnique(saved)
      && ComparisonsKeyed(comparisons)
      && ReviewsKeyed(reviews)
      && MessagesKeyed(messages)
      && NotificationsKeyed(notifications)
      && AuditLogsKeyed(auditLogs)
    }

    constructor ()
      ensures Valid()
      ensures users == map[] && properties == map[] && listings == map[] && documents == map[]
      ensures saved == map[] && comparisons == map[] && reviews == map[] && messages == map[]
      ensures notifications == map[] && auditLogs == map[]
    {
      users, properties, listings, documents, saved := map[], map[], map[], map[], map[];
      comparisons, reviews, messages, notifications, auditLogs := map[], map[], map[], map[], map[];
    }

    // ================================================================ users

    /** `create_user`: 400 when the uid is taken; otherwise the new user is
        stored with the default flags. */
    method CreateUser(c: UserCreate, now: Time) returns (r: Result<User>)
      requires Valid()
      modifies this`users
      ensures Valid()
      ensures c.firebaseUid in old(users) ==> r == Err(BadRequest("User already exists")) && users == old(users)
      ensures c.firebaseUid !in old(users) ==> r.Ok? && users == old(users)[c.firebaseUid := r.value]
      ensures r.Ok? ==> && r.value == NewUser(c, now)
                        && r.value.firebaseUid == c.firebaseUid && r.value.email == c.email
                        && r.value.name == c.name && r.value.role == c.role
                        && r.value.verificationStatus == NotSubmitted && !r.value.twoFactorEnabled
                        && !r.value.isSuspended && !r.value.isBanned
                        && r.value.createdAt == now && r.value.updatedAt == now
    {
      if c.firebaseUid in users {
        return Err(BadRequest("User already exists"));
      }
      var u := NewUser(c, now);
      users := users[c.firebaseUid := u];
      r := Ok(u);
    }

    /** `get_user`. */
    method GetUser(uid: string) returns (r: Result<User>)
      requires Valid()
      ensures r.Ok? <==> uid in users
      ensures r.Ok? ==> r.value == users[uid] && r.value.firebaseUid == uid
      ensures r.Err? ==> r.error == NotFound("User not found")
    {
      if uid !in users {
        return Err(NotFound("User not found"));
      }
      r := Ok(users[uid]);
    }

    /** `update_user`: 404 when missing; otherwise the partial update. */
    method UpdateUser(uid: string, upd: UserUpdate, now: Time) returns (r: Result<User>)
      requires Valid()
      modifies this`users
      ensures Valid()
      ensures uid !in old(users) ==> r == Err(NotFound("User not found")) && users == old(users)
      ensures uid in old(users) ==>
                && users == old(users)[uid := ApplyUserUpdate(old(users)[uid], upd, now)]
                && r == Ok(users[uid])
    {
      if uid !in users {
        return Err(NotFound("User not found"));
      }
      var u := ApplyUserUpdate(users[uid], upd, now);
      users := users[uid := u];
      r := Ok(u);
    }

    /** `get_users`. */
    method GetUsers(role: Option<UserRole>, limit: nat) returns (rs: seq<User>)
      requires Valid() && limit <= Query.MaxLimit
      ensures forall i :: 0 <= i < |rs| ==> rs[i].firebaseUid in users && users[rs[i].firebaseUid] == rs[i]
      ensures forall i :: 0 <= i < |rs| ==> UserMatches(rs[i], role)
      ensures forall i, j :: 0 <= i < j < |rs| ==> rs[i].firebaseUid != rs[j].firebaseUid
      ensures |rs| == Query.Min(limit, |set k | k in users && UserMatches(users[k], role)|)
      ensures |rs| < limit ==> forall k :: k in users && UserMatches(users[k], role) ==> users[k] in rs
    {
      var keep := (u: User) => UserMatches(u, role);
      var ks := Query.Find(users, keep, limit);
      assert Query.Matching(users, keep) == set k | k in users && UserMatches(users[k], role);
      rs := Query.Values(users, ks);
      forall k | k in users && UserMatches(users[k], role) && |rs| < limit
        ensures users[k] in rs
      {
        assert keep(users[k]) && k in Query.Matching(users, keep) && k in ks;
        var i :| 0 <= i < |ks| && ks[i] == k;
        assert rs[i] == users[k];
      }
    }

    /** `suspend_user`: 404 unless the flag actually changes. */
    method SuspendUser(uid: string, isSuspended: bool) returns (r: Result<string>)
      requires Valid()
      modifies this`users
      ensures Valid()
      ensures r.Ok? <==> uid in old(users) && old(users)[uid].isSuspended != isSuspended
      ensures r.Ok? ==> users == old(users)[uid := WithSuspended(old(users)[uid], isSuspended)]
                        && r.value == (if isSuspended then "User suspended" else "User unsuspended")
      ensures r.Err? ==> r.error == NotFound("User not found") && users == old(users)
    {
      if uid !in users || users[uid].isSuspended == isSuspended {
        return Err(NotFound("User not found"));
      }
      users := users[uid := WithSuspended(users[uid], isSuspended)];
      r := Ok(if isSuspended then "User suspended" else "User unsuspended");
    }

    /** `ban_user`: 404 unless the flag actually changes. */
    method BanUser(uid: string, isBanned: bool) returns (r: Result<string>)
      requires Valid()
      modifies this`users
      ensures Valid()
      ensures r.Ok? <==> uid in old(users) && old(users)[uid].isBanned != isBanned
      ensures r.Ok? ==> users == old(users)[uid := WithBanned(old(users)[uid], isBanned)]
                        && r.value == (if isBanned then "User banned" else "User unbanned")
      ensures r.Err? ==> r.error == NotFound("User not found") && users == old(users)
    {
      if uid !in users || users[uid].isBanned == isBanned {
        return Err(NotFound("User not found"));
      }
      users := users[uid := WithBanned(users[uid], isBanned)];
      r := Ok(if isBanned then "User banned" else "User unbanned");
    }

    // =========================================================== properties

    /** `create_property`: 400 when the id is taken; otherwise the property
        is stored with a one-entry price history. */
    method CreateProperty(c: PropertyCreate, now: Time) returns (r: Result<Property>)
      requires Valid()
      modifies this`properties
      ensures Valid()
      ensures c.propertyId in old(properties) ==>
                r == Err(BadRequest("Property ID already exists")) && properties == old(properties)
      ensures c.propertyId !in old(properties) ==>
                r.Ok? && properties == old(properties)[c.propertyId := r.value]
      ensures r.Ok? ==> && r.value == NewProperty(c, now)
                        && r.value.propertyId == c.propertyId && r.value.currentPrice == c.currentPrice
                        && r.value.priceHistory == [PriceEntry(c.currentPrice, now, Some(InitialReason))]
    {
      if c.propertyId in properties {
        return Err(BadRequest("Property ID already exists"));
      }
      var p := NewProperty(c, now);
      properties := properties[c.propertyId := p];
      r := Ok(p);
    }

    /** `get_property`. */
    method GetProperty(id: string) returns (r: Result<Property>)
      requires Valid()
      ensures r.Ok? <==> id in properties
      ensures r.Ok? ==> r.value == properties[id] && HistoryConsistent(r.value)
      ensures r.Err? ==> r.error == NotFound("Property not found")
    {
      if id !in properties {
        return Err(NotFound("Property not found"));
      }
      r := Ok(properties[id]);
    }

    /** `update_property`: 404 when missing; otherwise the partial update,
        with a history entry when the price changes. */
    method UpdateProperty(id: string, upd: PropertyUpdate, now: Time) returns (r: Result<Property>)
      requires Valid()
      modifies this`properties
      ensures Valid()
      ensures id !in old(properties) ==> r == Err(NotFound("Property not found")) && properties == old(properties)
      ensures id in old(properties) ==>
                && properties == old(properties)[id := ApplyPropertyUpdate(old(properties)[id], upd, now)]
                && r == Ok(properties[id])
      ensures r.Ok? ==> HistoryConsistent(r.value)
    {
      if id !in properties {
        return Err(NotFound("Property not found"));
      }
      var p := ApplyPropertyUpdate(properties[id], upd, now);
      properties := properties[id := p];
      r := Ok(p);
    }

    /** `get_properties` (without the city condition). */
    method GetProperties(propertyType: Option<PropertyType>, minPrice: Option<real>, maxPrice: Option<real>,
                         limit: nat) returns (rs: seq<Property>)
      requires Valid() && limit <= Query.MaxLimit
      ensures forall i :: 0 <= i < |rs| ==> rs[i].propertyId in properties && properties[rs[i].propertyId] == rs[i]
      ensures forall i :: 0 <= i < |rs| ==> PropertyMatches(rs[i], propertyType, minPrice, maxPrice)
      ensures forall i, j :: 0 <= i < j < |rs| ==> rs[i].propertyId != rs[j].propertyId
      ensures |rs| == Query.Min(limit, |set k | k in properties &&
                                          PropertyMatches(properties[k], propertyType, minPrice, maxPrice)|)
      ensures |rs| < limit ==> forall k ::
                (k in properties && PropertyMatches(properties[k], propertyType, minPrice, maxPrice))
                ==> properties[k] in rs
    {
      var keep := (p: Property) => PropertyMatches(p, propertyType, minPrice, maxPrice);
      var ks := Query.Find(properties, keep, limit);
      assert Query.Matching(properties, keep) ==
             set k | k in properties && PropertyMatches(properties[k], propertyType, minPrice, maxPrice);
      rs := Query.Values(properties, ks);
      forall k | k in properties && PropertyMatches(properties[k], propertyType, minPrice, maxPrice) && |rs| < limit
        ensures properties[k] in rs
      {
        assert keep(properties[k]) && k in Query.Matching(properties, keep) && k in ks;
        var i :| 0 <= i < |ks| && ks[i] == k;
        assert rs[i] == properties[k];
      }
    }

    /** `delete_property`: 404 exactly when nothing was deleted. */
    method DeleteProperty(id: string) returns (r: Result<string>)
      requires Valid()
      modifies this`properties
      ensures Valid()
      ensures r.Ok? <==> id in old(properties)
      ensures r.Ok? ==> properties == old(properties) - {id} && r.value == "Property deleted successfully"
      ensures r.Err? ==> r.error == NotFound("Property not found") && properties == old(properties)
    {
      if id !in properties {
        return Err(NotFound("Property not found"));
      }
      properties := properties - {id};
      r := Ok("Property deleted successfully");
    }

    // ============================================================= listings

    /** `create_listing`: the property must exist (checked first), then the
        lister; the new listing is pending and unviewed. */
    method CreateListing(c: ListingCreate, now: Time) returns (r: Result<Listing>)
      requires Valid()
      modifies this`listings
      ensures Valid()
      ensures c.propertyId !in properties ==> r == Err(NotFound("Property not found"))
      ensures c.propertyId in properties && c.listerFirebaseUid !in users ==> r == Err(NotFound("Lister not found"))
      ensures c.propertyId in properties && c.listerFirebaseUid in users && c.listingId in old(listings) ==>
                r == Err(DuplicateKey)
      ensures r.Ok? <==> c.propertyId in properties && c.listerFirebaseUid in users && c.listingId !in old(listings)
      ensures r.Err? ==> listings == old(listings)
      ensures r.Ok? ==> && listings == old(listings)[c.listingId := r.value]
                        && r.value == NewListing(c, now)
                        && r.value.status == ListingStatus.Pending && r.value.viewsCount == 0
                        && r.value.verifiedAt.None? && r.value.verifiedByAdminUid.None?
    {
      if c.propertyId !in properties {
        return Err(NotFound("Property not found"));
      }
      if c.listerFirebaseUid !in users {
        return Err(NotFound("Lister not found"));
      }
      if c.listingId in listings {
        return Err(DuplicateKey);
      }
      var l := NewListing(c, now);
      listings := listings[c.listingId := l];
      r := Ok(l);
    }

    /** `get_listing`: counts one view and answers with the listing as it was
        read before the count. */
    method GetListing(id: string) returns (r: Result<Listing>)
      requires Valid()
      modifies this`listings
      ensures Valid()
      ensures id !in old(listings) ==> r == Err(NotFound("Listing not found")) && listings == old(listings)
      ensures id in old(listings) ==> r == Ok(old(listings)[id]) && listings == old(listings)[id := Viewed(r.value)]
      ensures id in old(listings) ==> listings[id].viewsCount == old(listings)[id].viewsCount + 1
    {
      if id !in listings {
        return Err(NotFound("Listing not found"));
      }
      var l := listings[id];
      listings := listings[id := Viewed(l)];
      r := Ok(l);
    }

    /** `update_listing`: 404 when missing; otherwise the partial update. */
    method UpdateListing(id: string, upd: ListingUpdate, now: Time) returns (r: Result<Listing>)
      requires Valid()
      modifies this`listings
      ensures Valid()
      ensures id !in old(listings) ==> r == Err(NotFound("Listing not found")) && listings == old(listings)
      ensures id in old(listings) ==>
                && listings == old(listings)[id := ApplyListingUpdate(old(listings)[id], upd, now)]
                && r == Ok(listings[id])
    {
      if id !in listings {
        return Err(NotFound("Listing not found"));
      }
      var l := ApplyListingUpdate(listings[id], upd, now);
      listings := listings[id := l];
      r := Ok(l);
    }

    /** `get_listings`. */
    method GetListings(status: Option<ListingStatus>, lister: Option<string>, limit: nat) returns (rs: seq<Listing>)
      requires Valid() && limit <= Query.MaxLimit
      ensures forall i :: 0 <= i < |rs| ==> rs[i].listingId in listings && listings[rs[i].listingId] == rs[i]
      ensures forall i :: 0 <= i < |rs| ==> ListingMatches(rs[i], status, lister)
      ensures forall i, j :: 0 <= i < j < |rs| ==> rs[i].listingId != rs[j].listingId
      ensures |rs| == Query.Min(limit, |set k | k in listings && ListingMatches(listings[k], status, lister)|)
      ensures |rs| < limit ==> forall k :: k in listings && ListingMatches(listings[k], status, lister) ==> listings[k] in rs
    {
      var keep := (l: Listing) => ListingMatches(l, status, lister);
      var ks := Query.Find(listings, keep, limit);
      assert Query.Matching(listings, keep) == set k | k in listings && ListingMatches(listings[k], status, lister);
      rs := Query.Values(listings, ks);
      forall k | k in listings && ListingMatches(listings[k], status, lister) && |rs| < limit
        ensures listings[k] in rs
      {
        assert keep(listings[k]) && k in Query.Matching(listings, keep) && k in ks;
        var i :| 0 <= i < |ks| && ks[i] == k;
        assert rs[i] == listings[k];
      }
    }

    // =============================================== verification documents

    /** `create_verification_document`: no check of its own; a pending document. */
    method CreateDocument(c: DocumentCreate, now: Time) returns (r: Result<VerificationDocument>)
      requires Valid()
      modifies this`documents
      ensures Valid()
      ensures c.documentId in old(documents) ==> r == Err(DuplicateKey) && documents == old(documents)
      ensures c.documentId !in old(documents) ==>
                && r == Ok(NewDocument(c, now)) && documents == old(documents)[c.documentId := r.value]
                && r.value.status == VerificationStatus.Pending
    {
      if c.documentId in documents {
        return Err(DuplicateKey);
      }
      var d := NewDocument(c, now);
      documents := documents[c.documentId := d];
      r := Ok(d);
    }

    /** `get_verification_document`. */
    method GetDocument(id: string) returns (r: Result<VerificationDocument>)
      requires Valid()
      ensures r.Ok? <==> id in documents
      ensures r.Ok? ==> r.value == documents[id] && r.value.documentId == id
      ensures r.Err? ==> r.error == NotFound("Document not found")
    {
      if id !in documents {
        return Err(NotFound("Document not found"));
      }
      r := Ok(documents[id]);
    }

    /** `get_verification_documents`. */
    method GetDocuments(user: Option<string>, status: Option<VerificationStatus>, limit: nat)
      returns (rs: seq<VerificationDocument>)
      requires Valid() && limit <= Query.MaxLimit
      ensures forall i :: 0 <= i < |rs| ==> rs[i].documentId in documents && documents[rs[i].documentId] == rs[i]
      ensures forall i :: 0 <= i < |rs| ==> DocumentMatches(rs[i], user, status)
      ensures forall i, j :: 0 <= i < j < |rs| ==> rs[i].documentId != rs[j].documentId
      ensures |rs| == Query.Min(limit, |set k | k in documents && DocumentMatches(documents[k], user, status)|)
      ensures |rs| < limit ==> forall k :: k in documents && DocumentMatches(documents[k], user, status) ==> documents[k] in rs
    {
      var keep := (d: VerificationDocument) => DocumentMatches(d, user, status);
      var ks := Query.Find(documents, keep, limit);
      assert Query.Matching(documents, keep) == set k | k in documents && DocumentMatches(documents[k], user, status);
      rs := Query.Values(documents, ks);
      forall k | k in documents && DocumentMatches(documents[k], user, status) && |rs| < limit
        ensures documents[k] in rs
      {
        assert keep(documents[k]) && k in Query.Matching(documents, keep) && k in ks;
        var i :| 0 <= i < |ks| && ks[i] == k;
        assert rs[i] == documents[k];
      }
    }

    /** `verify_document`: 404 when missing; otherwise the document is
        stamped, and a verified identity proof verifies its owner, if the
        owner exists. No other user changes. */
    method VerifyDocument(id: string, adminUid: string, status: VerificationStatus,
                          rejectionReason: Option<string>, now: Time) returns (r: Result<string>)
      requires Valid()
      modifies this`documents, this`users
      ensures Valid()
      ensures id !in old(documents) ==>
                r == Err(NotFound("Document not found")) && documents == old(documents) && users == old(users)
      ensures id in old(documents) ==>
                && r == Ok("Document verification updated")
                && documents == old(documents)[id := ApplyVerification(old(documents)[id], adminUid, status, rejectionReason, now)]
                && users == CascadeUsers(old(users), old(documents)[id], status)
    {
      if id !in documents {
        return Err(NotFound("Document not found"));
      }
      var d := documents[id];
      documents := documents[id := ApplyVerification(d, adminUid, status, rejectionReason, now)];
      users := CascadeUsers(users, d, status);
      r := Ok("Document verification updated");
    }

    // =========================================== saved listings, comparisons

    /** `save_listing`: 400 when the user already saved this listing. */
    method SaveListing(c: SavedListingCreate, now: Time) returns (r: Result<SavedListing>)
      requires Valid()
      modifies this`saved
      ensures Valid()
      ensures AlreadySaved(old(saved), c.userFirebaseUid, c.listingId) ==> r == Err(BadRequest("Listing already saved"))
      ensures !AlreadySaved(old(saved), c.userFirebaseUid, c.listingId) && c.savedId in old(saved) ==> r == Err(DuplicateKey)
      ensures r.Ok? <==> !AlreadySaved(old(saved), c.userFirebaseUid, c.listingId) && c.savedId !in old(saved)
      ensures r.Err? ==> saved == old(saved)
      ensures r.Ok? ==> r.value == NewSavedListing(c, now) && saved == old(saved)[c.savedId := r.value]
    {
      if AlreadySaved(saved, c.userFirebaseUid, c.listingId) {
        return Err(BadRequest("Listing already saved"));
      }
      if c.savedId in saved {
        return Err(DuplicateKey);
      }
      var s := NewSavedListing(c, now);
      saved := saved[c.savedId := s];
      r := Ok(s);
    }

    /** `get_saved_listings`. */
    method GetSavedListings(user: string, limit: nat) returns (rs: seq<SavedListing>)
      requires Valid() && limit <= Query.MaxLimit
      ensures forall i :: 0 <= i < |rs| ==> rs[i].savedId in saved && saved[rs[i].savedId] == rs[i]
      ensures forall i :: 0 <= i < |rs| ==> SavedBy(rs[i], user)
      ensures forall i, j :: 0 <= i < j < |rs| ==> rs[i].savedId != rs[j].savedId
      ensures |rs| == Query.Min(limit, |set k | k in saved && SavedBy(saved[k], user)|)
      ensures |rs| < limit ==> forall k :: k in saved && SavedBy(saved[k], user) ==> saved[k] in rs
    {
      var keep := (s: SavedListing) => SavedBy(s, user);
      var ks := Query.Find(saved, keep, limit);
      assert Query.Matching(saved, keep) == set k | k in saved && SavedBy(saved[k], user);
      rs := Query.Values(saved, ks);
      forall k | k in saved && SavedBy(saved[k], user) && |rs| < limit
        ensures saved[k] in rs
      {
        assert keep(saved[k]) && k in Query.Matching(saved, keep) && k in ks;
        var i :| 0 <= i < |ks| && ks[i] == k;
        assert rs[i] == saved[k];
      }
    }

    /** `remove_saved_listing`: 404 exactly when nothing was deleted. */
    method RemoveSavedListing(id: string) returns (r: Result<string>)
      requires Valid()
      modifies this`saved
      ensures Valid()
      ensures r.Ok? <==> id in old(saved)
      ensures r.Ok? ==> saved == old(saved) - {id} && r.value == "Saved listing removed"
      ensures r.Err? ==> r.error == NotFound("Saved listing not found") && saved == old(saved)
    {
      if id !in saved {
        return Err(NotFound("Saved listing not found"));
      }
      saved := saved - {id};
      r := Ok("Saved listing removed");
    }

    /** `create_comparison`: no check of its own. */
    method CreateComparison(c: ComparisonCreate, now: Time) returns (r: Result<Comparison>)
      requires Valid()
      modifies this`comparisons
      ensures Valid()
      ensures c.comparisonId in old(comparisons) ==> r == Err(DuplicateKey) && comparisons == old(comparisons)
      ensures c.comparisonId !in old(comparisons) ==>
                r == Ok(NewComparison(c, now)) && comparisons == old(comparisons)[c.comparisonId := r.value]
    {
      if c.comparisonId in comparisons {
        return Err(DuplicateKey);
      }
      var cmp := NewComparison(c, now);
      comparisons := comparisons[c.comparisonId := cmp];
      r := Ok(cmp);
    }

    /** `get_comparisons`. */
    method GetComparisons(user: string, limit: nat) returns (rs: seq<Comparison>)
      requires Valid() && limit <= Query.MaxLimit
      ensures forall i :: 0 <= i < |rs| ==> rs[i].comparisonId in comparisons && comparisons[rs[i].comparisonId] == rs[i]
      ensures forall i :: 0 <= i < |rs| ==> ComparedBy(rs[i], user)
      ensures forall i, j :: 0 <= i < j < |rs| ==> rs[i].comparisonId != rs[j].comparisonId
      ensures |rs| == Query.Min(limit, |set k | k in comparisons && ComparedBy(comparisons[k], user)|)
      ensures |rs| < limit ==> forall k :: k in comparisons && ComparedBy(comparisons[k], user) ==> comparisons[k] in rs
    {
      var keep := (c: Comparison) => ComparedBy(c, user);
      var ks := Query.Find(comparisons, keep, limit);
      assert Query.Matching(comparisons, keep) == set k | k in comparisons && ComparedBy(comparisons[k], user);
      rs := Query.Values(comparisons, ks);
      forall k | k in comparisons && ComparedBy(comparisons[k], user) && |rs| < limit
        ensures comparisons[k] in rs
      {
        assert keep(comparisons[k]) && k in Query.Matching(comparisons, keep) && k in ks;
        var i :| 0 <= i < |ks| && ks[i] == k;
        assert rs[i] == comparisons[k];
      }
    }

    /** `delete_comparison`: 404 exactly when nothing was deleted. */
    method DeleteComparison(id: string) returns (r: Result<string>)
      requires Valid()
      modifies this`comparisons
      ensures Valid()
      ensures r.Ok? <==> id in old(comparisons)
      ensures r.Ok? ==> comparisons == old(comparisons) - {id} && r.value == "Comparison deleted"
      ensures r.Err? ==> r.error == NotFound("Comparison not found") && comparisons == old(comparisons)
    {
      if id !in comparisons {
        return Err(NotFound("Comparison not found"));
      }
      comparisons := comparisons - {id};
      r := Ok("Comparison deleted");
    }

    // ============================================================== reviews

    /** `create_review`: 400 for a rating outside 1..5, bounds included. */
    method CreateReview(c: ReviewCreate, now: Time) returns (r: Result<Review>)
      requires Valid()
      modifies this`reviews
      ensures Valid()
      ensures (c.rating < 1.0 || 5.0 < c.rating) ==> r == Err(BadRequest("Rating must be between 1 and 5"))
      ensures 1.0 <= c.rating <= 5.0 && c.reviewId in old(reviews) ==> r == Err(DuplicateKey)
      ensures r.Ok? <==> 1.0 <= c.rating <= 5.0 && c.reviewId !in old(reviews)
      ensures r.Err? ==> reviews == old(reviews)
      ensures r.Ok? ==> r.value == NewReview(c, now) && reviews == old(reviews)[c.reviewId := r.value]
    {
      if RatingRejected(c.rating) {
        return Err(BadRequest("Rating must be between 1 and 5"));
      }
      if c.reviewId in reviews {
        return Err(DuplicateKey);
      }
      var rv := NewReview(c, now);
      reviews := reviews[c.reviewId := rv];
      r := Ok(rv);
    }

    /** `get_reviews`. */
    method GetReviews(targetType: Option<TargetType>, targetId: Option<string>, limit: nat) returns (rs: seq<Review>)
      requires Valid() && limit <= Query.MaxLimit
      ensures forall i :: 0 <= i < |rs| ==> rs[i].reviewId in reviews && reviews[rs[i].reviewId] == rs[i]
      ensures forall i :: 0 <= i < |rs| ==> ReviewMatches(rs[i], targetType, targetId)
      ensures forall i, j :: 0 <= i < j < |rs| ==> rs[i].reviewId != rs[j].reviewId
      ensures |rs| == Query.Min(limit, |set k | k in reviews && ReviewMatches(reviews[k], targetType, targetId)|)
      ensures |rs| < limit ==> forall k :: k in reviews && ReviewMatches(reviews[k], targetType, targetId) ==> reviews[k] in rs
    {
      var keep := (rv: Review) => ReviewMatches(rv, targetType, targetId);
      var ks := Query.Find(reviews, keep, limit);
      assert Query.Matching(reviews, keep) == set k | k in reviews && ReviewMatches(reviews[k], targetType, targetId);
      rs := Query.Values(reviews, ks);
      forall k | k in reviews && ReviewMatches(reviews[k], targetType, targetId) && |rs| < limit
        ensures reviews[k] in rs
      {
        assert keep(reviews[k]) && k in Query.Matching(reviews, keep) && k in ks;
        var i :| 0 <= i < |ks| && ks[i] == k;
        assert rs[i] == reviews[k];
      }
    }

    /** `delete_review`: 404 exactly when nothing was deleted. */
    method DeleteReview(id: string) returns (r: Result<string>)
      requires Valid()
      modifies this`reviews
      ensures Valid()
      ensures r.Ok? <==> id in old(reviews)
      ensures r.Ok? ==> reviews == old(reviews) - {id} && r.value == "Review deleted"
      ensures r.Err? ==> r.error == NotFound("Review not found") && reviews == old(reviews)
    {
      if id !in reviews {
        return Err(NotFound("Review not found"));
      }
      reviews := reviews - {id};
      r := Ok("Review deleted");
    }

    // ============================================================= messages

    /** `send_message`: no check of its own; an unread message. */
    method SendMessage(c: MessageCreate, now: Time) returns (r: Result<Message>)
      requires Valid()
      modifies this`messages
      ensures Valid()
      ensures c.messageId in old(messages) ==> r == Err(DuplicateKey) && messages == old(messages)
      ensures c.messageId !in old(messages) ==>
                && r == Ok(NewMessage(c, now)) && messages == old(messages)[c.messageId := r.value]
                && r.value.status == Unread && r.value.readAt.None?
    {
      if c.messageId in messages {
        return Err(DuplicateKey);
      }
      var m := NewMessage(c, now);
      messages := messages[c.messageId := m];
      r := Ok(m);
    }

    /** `get_messages`: the user's thread with the partner, or everything the
        user sent or received; the newest ones, newest first. */
    method GetMessages(user: string, partner: Option<string>, limit: nat) returns (rs: seq<Message>)
      requires Valid() && limit <= Query.MaxLimit
      ensures forall i :: 0 <= i < |rs| ==> rs[i].messageId in messages && messages[rs[i].messageId] == rs[i]
      ensures forall i :: 0 <= i < |rs| ==> InConversation(rs[i], user, partner)
      ensures forall i, j :: 0 <= i < j < |rs| ==> rs[i].messageId != rs[j].messageId && rs[j].sentAt <= rs[i].sentAt
      ensures |rs| == Query.Min(limit, |set k | k in messages && InConversation(messages[k], user, partner)|)
      ensures forall k, i ::
                (k in messages && InConversation(messages[k], user, partner) && messages[k] !in rs && 0 <= i < |rs|)
                ==> messages[k].sentAt <= rs[i].sentAt
      ensures |rs| < limit ==> forall k :: k in messages && InConversation(messages[k], user, partner) ==> messages[k] in rs
    {
      var keep := (m: Message) => InConversation(m, user, partner);
      var ks := Query.NewestFirst(messages, keep, (m: Message) => m.sentAt, limit);
      assert Query.Matching(messages, keep) == set k | k in messages && InConversation(messages[k], user, partner);
      rs := Query.Values(messages, ks);
      forall k | k in messages && InConversation(messages[k], user, partner) && |rs| < limit
        ensures messages[k] in rs
      {
        assert keep(messages[k]) && k in Query.Matching(messages, keep) && k in ks;
        var i :| 0 <= i < |ks| && ks[i] == k;
        assert rs[i] == messages[k];
      }
    }

    /** `mark_message_read`: sets read and the read instant; 404 when the
        message is missing or already carries exactly those values. */
    method MarkMessageRead(id: string, now: Time) returns (r: Result<string>)
      requires Valid()
      modifies this`messages
      ensures Valid()
      ensures r.Ok? <==> id in old(messages) && (old(messages)[id].status == Unread || old(messages)[id].readAt != Some(now))
      ensures r.Ok? ==> messages == old(messages)[id := AsRead(old(messages)[id], now)] && r.value == "Message marked as read"
      ensures r.Err? ==> r.error == NotFound("Message not found") && messages == old(messages)
    {
      if id !in messages || AsRead(messages[id], now) == messages[id] {
        return Err(NotFound("Message not found"));
      }
      messages := messages[id := AsRead(messages[id], now)];
      r := Ok("Message marked as read");
    }

    // ======================================================== notifications

    /** `create_notification`: no check of its own; unread. */
    method CreateNotification(c: NotificationCreate, now: Time) returns (r: Result<Notification>)
      requires Valid()
      modifies this`notifications
      ensures Valid()
      ensures c.notificationId in old(notifications) ==> r == Err(DuplicateKey) && notifications == old(notifications)
      ensures c.notificationId !in old(notifications) ==>
                && r == Ok(NewNotification(c, now)) && notifications == old(notifications)[c.notificationId := r.value]
                && !r.value.isRead
    {
      if c.notificationId in notifications {
        return Err(DuplicateKey);
      }
      var n := NewNotification(c, now);
      notifications := notifications[c.notificationId := n];
      r := Ok(n);
    }

    /** `get_notifications`: the user's own and the broadcast ones, newest first. */
    method GetNotifications(user: string, limit: nat) returns (rs: seq<Notification>)
      requires Valid() && limit <= Query.MaxLimit
      ensures forall i :: 0 <= i < |rs| ==>
                rs[i].notificationId in notifications && notifications[rs[i].notificationId] == rs[i]
      ensures forall i :: 0 <= i < |rs| ==> VisibleTo(rs[i], user)
      ensures forall i, j :: 0 <= i < j < |rs| ==>
                rs[i].notificationId != rs[j].notificationId && rs[j].createdAt <= rs[i].createdAt
      ensures |rs| == Query.Min(limit, |set k | k in notifications && VisibleTo(notifications[k], user)|)
      ensures forall k, i ::
                (k in notifications && VisibleTo(notifications[k], user) && notifications[k] !in rs && 0 <= i < |rs|)
                ==> notifications[k].createdAt <= rs[i].createdAt
      ensures |rs| < limit ==> forall k :: k in notifications && VisibleTo(notifications[k], user) ==> notifications[k] in rs
    {
      var keep := (n: Notification) => VisibleTo(n, user);
      var ks := Query.NewestFirst(notifications, keep, (n: Notification) => n.createdAt, limit);
      assert Query.Matching(notifications, keep) == set k | k in notifications && VisibleTo(notifications[k], user);
      rs := Query.Values(notifications, ks);
      forall k | k in notifications && VisibleTo(notifications[k], user) && |rs| < limit
        ensures notifications[k] in rs
      {
        assert keep(notifications[k]) && k in Query.Matching(notifications, keep) && k in ks;
        var i :| 0 <= i < |ks| && ks[i] == k;
        assert rs[i] == notifications[k];
      }
    }

    /** `mark_notification_read`: 404 when missing or already read. */
    method MarkNotificationRead(id: string) returns (r: Result<string>)
      requires Valid()
      modifies this`notifications
      ensures Valid()
      ensures r.Ok? <==> id in old(notifications) && !old(notifications)[id].isRead
      ensures r.Ok? ==> notifications == old(notifications)[id := old(notifications)[id].(isRead := true)]
                        && r.value == "Notification marked as read"
      ensures r.Err? ==> r.error == NotFound("Notification not found") && notifications == old(notifications)
    {
      if id !in notifications || notifications[id].isRead {
        return Err(NotFound("Notification not found"));
      }
      notifications := notifications[id := notifications[id].(isRead := true)];
      r := Ok("Notification marked as read");
    }

    // =========================================================== audit logs

    /** `create_audit_log`: no check of its own. */
    method CreateAuditLog(c: AuditLogCreate, now: Time) returns (r: Result<AuditLog>)
      requires Valid()
      modifies this`auditLogs
      ensures Valid()
      ensures c.logId in old(auditLogs) ==> r == Err(DuplicateKey) && auditLogs == old(auditLogs)
      ensures c.logId !in old(auditLogs) ==>
                r == Ok(NewAuditLog(c, now)) && auditLogs == old(auditLogs)[c.logId := r.value]
    {
      if c.logId in auditLogs {
        return Err(DuplicateKey);
      }
      var a := NewAuditLog(c, now);
      auditLogs := auditLogs[c.logId := a];
      r := Ok(a);
    }

    /** `get_audit_logs`: newest first. */
    method GetAuditLogs(user: Option<string>, action: Option<string>, resourceType: Option<string>, limit: nat)
      returns (rs: seq<AuditLog>)
      requires Valid() && limit <= Query.MaxLimit
      ensures forall i :: 0 <= i < |rs| ==> rs[i].logId in auditLogs && auditLogs[rs[i].logId] == rs[i]
      ensures forall i :: 0 <= i < |rs| ==> AuditMatches(rs[i], user, action, resourceType)
      ensures forall i, j :: 0 <= i < j < |rs| ==> rs[i].logId != rs[j].logId && rs[j].timestamp <= rs[i].timestamp
      ensures |rs| == Query.Min(limit, |set k | k in auditLogs && AuditMatches(auditLogs[k], user, action, resourceType)|)
      ensures forall k, i ::
                (k in auditLogs && AuditMatches(auditLogs[k], user, action, resourceType) && auditLogs[k] !in rs &&
                 0 <= i < |rs|)
                ==> auditLogs[k].timestamp <= rs[i].timestamp
      ensures |rs| < limit ==> forall k ::
                (k in auditLogs && AuditMatches(auditLogs[k], user, action, resourceType)) ==> auditLogs[k] in rs
    {
      var keep := (a: AuditLog) => AuditMatches(a, user, action, resourceType);
      var ks := Query.NewestFirst(auditLogs, keep, (a: AuditLog) => a.timestamp, limit);
      assert Query.Matching(auditLogs, keep) ==
             set k | k in auditLogs && AuditMatches(auditLogs[k], user, action, resourceType);
      rs := Query.Values(auditLogs, ks);
      forall k | k in auditLogs && AuditMatches(auditLogs[k], user, action, resourceType) && |rs| < limit
        ensures auditLogs[k] in rs
      {
        assert keep(auditLogs[k]) && k in Query.Matching(auditLogs, keep) && k in ks;
        var i :| 0 <= i < |ks| && ks[i] == k;
        assert rs[i] == auditLogs[k];
      }
    }

    // ============================================================ analytics

    /** `get_analytics`: live counts; the active listings and the pending
        documents are among all listings and all documents. */
    method GetAnalytics() returns (a: Analytics)
      ensures a.totalUsers == |users| && a.totalProperties == |properties| && a.totalListings == |listings|
      ensures a.activeListings == |set k | k in listings && listings[k].status == Active|
      ensures a.pendingVerifications == |set k | k in documents && documents[k].status == VerificationStatus.Pending|
      ensures a.activeListings <= a.totalListings && a.pendingVerifications <= |documents|
    {
      var active := Query.Matching(listings, (l: Listing) => l.status == Active);
      var pending := Query.Matching(documents, (d: VerificationDocument) => d.status == VerificationStatus.Pending);
      Query.MatchingWithin(listings, (l: Listing) => l.status == Active);
      Query.MatchingWithin(documents, (d: VerificationDocument) => d.status == VerificationStatus.Pending);
      assert active == set k | k in listings && listings[k].status == Active;
      assert pending == set k | k in documents && documents[k].status == VerificationStatus.Pending;
      a := Analytics(|users|, |properties|, |listings|, |active|, |pending|);
    }
  }
}
