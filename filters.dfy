/**
 The filter each collection read builds from its query parameters. An
 optional parameter adds a condition only when the route's `if` lets it
 through: an enumeration value whenever it is given, a string only when it
 is given and not empty, a price bound whenever it is not `None` (so a bound
 of zero counts). All conditions are conjoined.
 */
module Filters {
  import opened Entities

  /** `get_users`: by role. */
  predicate UserMatches(u: User, role: Option<UserRole>)
  {
    role.None? || u.role == role.value
  }

  /** `get_properties`: by type and by an inclusive price range. The city
      condition is not part of this model. */
  predicate PropertyMatches(p: Property, propertyType: Option<PropertyType>,
                            minPrice: Option<real>, maxPrice: Option<real>)
  {
    && (propertyType.None? || p.propertyType == propertyType.value)
    && (minPrice.None? || minPrice.value <= p.currentPrice)
    && (maxPrice.None? || p.currentPrice <= maxPrice.value)
  }

  /** `get_listings`: by status and by lister. */
  predicate ListingMatches(l: Listing, status: Option<ListingStatus>, lister: Option<string>)
  {
    && (status.None? || l.status == status.value)
    && (!Supplied(lister) || l.listerFirebaseUid == lister.value)
  }

  /** `get_verification_documents`: by owner and by status. */
  predicate DocumentMatches(d: VerificationDocument, user: Option<string>, status: Option<VerificationStatus>)
  {
    && (!Supplied(user) || d.userFirebaseUid == user.value)
    && (status.None? || d.status == status.value)
  }

  /** `get_saved_listings`: the user's bookmarks. */
  predicate SavedBy(s: SavedListing, user: string)
  {
    s.userFirebaseUid == user
  }

  /** `get_comparisons`: the user's comparisons. */
  predicate ComparedBy(c: Comparison, user: string)
  {
    c.userFirebaseUid == user
  }

  /** `get_reviews`: by target kind and by target. */
  predicate ReviewMatches(r: Review, targetType: Option<TargetType>, targetId: Option<string>)
  {
    && (targetType.None? || r.targetType == targetType.value)
    && (!Supplied(targetId) || r.targetId == targetId.value)
  }

  /** `get_messages`: with a partner, the two-party thread in either
      direction; without one, everything the user sent or received. */
  predicate InConversation(m: Message, user: string, partner: Option<string>)
  {
    if Supplied(partner) then
      || (m.senderFirebaseUid == user && m.receiverFirebaseUid == partner.value)
      || (m.senderFirebaseUid == partner.value && m.receiverFirebaseUid == user)
    else
      m.senderFirebaseUid == user || m.receiverFirebaseUid == user
  }

  /** `get_notifications`: the user's own notifications and every broadcast. */
  predicate VisibleTo(n: Notification, user: string)
  {
    n.userFirebaseUid == Some(user) || n.userFirebaseUid.None?
  }

  /** `get_audit_logs`: by user, by action and by resource kind. */
  predicate AuditMatches(a: AuditLog, user: Option<string>, action: Option<string>, resourceType: Option<string>)
  {
    && (!Supplied(user) || a.userFirebaseUid == user)
    && (!Supplied(action) || a.action == action.value)
    && (!Supplied(resourceType) || a.resourceType == resourceType)
  }

  /** The query of `get_users`: without a role every user matches; with one,
      exactly the users holding it. */
  lemma UsersFilter(u: User, role: Option<UserRole>)
    ensures UserMatches(u, None)
    ensures role.Some? ==> (UserMatches(u, role) <==> u.role == role.value)
  {
  }

  /** The query of `get_properties`: no parameter means no condition; each
      parameter only narrows; a bound of zero is a real bound; an inverted
      price range matches nothing. */
  lemma PropertiesFilter(p: Property, propertyType: Option<PropertyType>, minPrice: Option<real>, maxPrice: Option<real>)
    ensures PropertyMatches(p, None, None, None)
    ensures PropertyMatches(p, propertyType, minPrice, maxPrice) ==>
              && PropertyMatches(p, None, minPrice, maxPrice)
              && PropertyMatches(p, propertyType, None, maxPrice)
              && PropertyMatches(p, propertyType, minPrice, None)
    ensures p.currentPrice < 0.0 ==> !PropertyMatches(p, propertyType, Some(0.0), maxPrice)
    ensures (minPrice.Some? && maxPrice.Some? && maxPrice.value < minPrice.value) ==>
              !PropertyMatches(p, propertyType, minPrice, maxPrice)
  {
  }

  /** The query of `get_listings`: an empty lister is no lister; each
      parameter only narrows; a given lister pins the listing's lister. */
  lemma ListingsFilter(l: Listing, status: Option<ListingStatus>, lister: Option<string>)
    ensures ListingMatches(l, None, None)
    ensures ListingMatches(l, status, Some("")) == ListingMatches(l, status, None)
    ensures ListingMatches(l, status, lister) ==> ListingMatches(l, None, lister) && ListingMatches(l, status, None)
    ensures Supplied(lister) && ListingMatches(l, status, lister) ==> l.listerFirebaseUid == lister.value
  {
  }

  /** The query of `get_verification_documents`, in the same way. */
  lemma DocumentsFilter(d: VerificationDocument, user: Option<string>, status: Option<VerificationStatus>)
    ensures DocumentMatches(d, None, None)
    ensures DocumentMatches(d, Some(""), status) == DocumentMatches(d, None, status)
    ensures DocumentMatches(d, user, status) ==> DocumentMatches(d, None, status) && DocumentMatches(d, user, None)
    ensures Supplied(user) && DocumentMatches(d, user, status) ==> d.userFirebaseUid == user.value
  {
  }

  /** The query of `get_reviews`, in the same way. */
  lemma ReviewsFilter(r: Review, targetType: Option<TargetType>, targetId: Option<string>)
    ensures ReviewMatches(r, None, None)
    ensures ReviewMatches(r, targetType, Some("")) == ReviewMatches(r, targetType, None)
    ensures ReviewMatches(r, targetType, targetId) ==>
              ReviewMatches(r, None, targetId) && ReviewMatches(r, targetType, None)
    ensures Supplied(targetId) && ReviewMatches(r, targetType, targetId) ==> r.targetId == targetId.value
  {
  }

  /** The query of `get_audit_logs`, in the same way. */
  lemma AuditLogsFilter(a: AuditLog, user: Option<string>, action: Option<string>, resourceType: Option<string>)
    ensures AuditMatches(a, None, None, None)
    ensures AuditMatches(a, Some(""), Some(""), Some(""))
    ensures AuditMatches(a, Some(""), action, resourceType) == AuditMatches(a, None, action, resourceType)
    ensures AuditMatches(a, user, action, resourceType) ==>
              && AuditMatches(a, None, action, resourceType)
              && AuditMatches(a, user, None, resourceType)
              && AuditMatches(a, user, action, None)
    ensures Supplied(action) && AuditMatches(a, user, action, resourceType) ==> a.action == action.value
  {
  }

  /** The query of `get_messages`: the user is a party to every message it
      returns, and an empty partner is no partner. */
  lemma MessagesFilter(m: Message, user: string, partner: Option<string>)
    ensures InConversation(m, user, partner) ==> m.senderFirebaseUid == user || m.receiverFirebaseUid == user
    ensures InConversation(m, user, Some("")) == InConversation(m, user, None)
  {
  }

  /** The query of `get_notifications`: a broadcast reaches every user, and a
      notification addressed to someone else never does. */
  lemma NotificationsFilter(n: Notification, user: string)
    ensures n.userFirebaseUid.None? ==> VisibleTo(n, user)
    ensures n.userFirebaseUid.Some? && n.userFirebaseUid.value != user ==> !VisibleTo(n, user)
  {
  }

  /** A thread is part of each of its two members' inbox, and is the same
      thread seen from either side. */
  lemma ThreadWithinInboxes(m: Message, user: string, partner: string)
    requires partner != ""
    ensures InConversation(m, user, Some(partner)) ==> InConversation(m, user, None)
    ensures InConversation(m, user, Some(partner)) ==> InConversation(m, partner, None)
    ensures user != "" ==> (InConversation(m, user, Some(partner)) <==> InConversation(m, partner, Some(user)))
  {
  }
}
