/**
 The records of the real-estate marketplace backend: the enumerations, the
 stored entities and the request payloads of the create and update routes.
 Timestamps are opaque, ordered instants (the backend stores them as UTC
 ISO-8601 strings, which order the same way); prices and ratings are reals.
 */
module Entities {

  /** An instant in UTC. Later instants are larger. */
  type Time = int

  /** An optional field: `None` is Python's `None`, both as a stored null and
      as "not supplied" in an update payload. */
  datatype Option<T> = None | Some(value: T)

  /** Python's truth test `if s:` on an optional string: present and not empty. */
  predicate Supplied(s: Option<string>)
  {
    s.Some? && s.value != ""
  }

  /** The supplied value of an update field, or the stored one when it is `None`. */
  function Or<T>(supplied: Option<T>, stored: T): T
  {
    if supplied.Some? then supplied.value else stored
  }

  datatype UserRole = Visitor | Buyer | Renter | Lister | Admin

  datatype VerificationStatus = Pending | Verified | Rejected | NotSubmitted

  datatype ListingStatus = Active | Hidden | Pending | Verified | Rejected | Expired

  datatype PropertyType = Residential | Commercial | Land | Rental

  datatype MessageStatus = Unread | Read

  /** What a review is about: a property or a lister. */
  datatype TargetType = PropertyTarget | ListerTarget

  // ---------------------------------------------------------------- users

  datatype User = User(
    firebaseUid: string,
    email: string,
    name: string,
    role: UserRole,
    phone: Option<string>,
    profilePicture: Option<string>,
    verificationStatus: VerificationStatus,
    twoFactorEnabled: bool,
    isSuspended: bool,
    isBanned: bool,
    createdAt: Time,
    updatedAt: Time)

  datatype UserCreate = UserCreate(
    firebaseUid: string,
    email: string,
    name: string,
    role: UserRole,
    phone: Option<string>,
    profilePicture: Option<string>)

  /** Every field is optional; `None` means "leave the stored value alone". */
  datatype UserUpdate = UserUpdate(
    name: Option<string>,
    phone: Option<string>,
    profilePicture: Option<string>,
    twoFactorEnabled: Option<bool>)

  // ----------------------------------------------------------- properties

  datatype Location = Location(
    street: string,
    city: string,
    state: string,
    zipCode: string,
    country: string,
    latitude: Option<real>,
    longitude: Option<real>)

  datatype PriceEntry = PriceEntry(price: real, changedAt: Time, reason: Option<string>)

  datatype Property = Property(
    propertyId: string,
    title: string,
    description: string,
    propertyType: PropertyType,
    currentPrice: real,
    priceHistory: seq<PriceEntry>,
    location: Location,
    bedrooms: Option<int>,
    bathrooms: Option<real>,
    areaSqft: Option<real>,
    yearBuilt: Option<int>,
    amenities: seq<string>,
    images: seq<string>,
    documents: seq<string>,
    virtualTourUrl: Option<string>,
    createdAt: Time,
    updatedAt: Time)

  datatype PropertyCreate = PropertyCreate(
    propertyId: string,
    title: string,
    description: string,
    propertyType: PropertyType,
    currentPrice: real,
    location: Location,
    bedrooms: Option<int>,
    bathrooms: Option<real>,
    areaSqft: Option<real>,
    yearBuilt: Option<int>,
    amenities: seq<string>,
    images: seq<string>,
    documents: seq<string>,
    virtualTourUrl: Option<string>)

  /** The updatable fields of a property. The type, the location and the year
      built cannot be changed after creation. */
  datatype PropertyUpdate = PropertyUpdate(
    title: Option<string>,
    description: Option<string>,
    currentPrice: Option<real>,
    bedrooms: Option<int>,
    bathrooms: Option<real>,
    areaSqft: Option<real>,
    amenities: Option<seq<string>>,
    images: Option<seq<string>>,
    documents: Option<seq<string>>,
    virtualTourUrl: Option<string>)

  // ------------------------------------------------------------- listings

  datatype Listing = Listing(
    listingId: string,
    propertyId: string,
    listerFirebaseUid: string,
    status: ListingStatus,
    viewsCount: nat,
    verifiedAt: Option<Time>,
    verifiedByAdminUid: Option<string>,
    rejectionReason: Option<string>,
    expiresAt: Option<Time>,
    createdAt: Time,
    updatedAt: Time)

  datatype ListingCreate = ListingCreate(
    listingId: string,
    propertyId: string,
    listerFirebaseUid: string,
    expiresAt: Option<Time>)

  datatype ListingUpdate = ListingUpdate(
    status: Option<ListingStatus>,
    rejectionReason: Option<string>,
    expiresAt: Option<Time>)

  // ------------------------------------------------ verification documents

  /** The document type that, once verified, verifies its owner. */
  const IdentityProof: string := "identity_proof"

  datatype VerificationDocument = VerificationDocument(
    documentId: string,
    userFirebaseUid: string,
    documentType: string,
    documentUrl: string,
    status: VerificationStatus,
    verifiedAt: Option<Time>,
    verifiedByAdminUid: Option<string>,
    rejectionReason: Option<string>,
    createdAt: Time)

  datatype DocumentCreate = DocumentCreate(
    documentId: string,
    userFirebaseUid: string,
    documentType: string,
    documentUrl: string)

  // --------------------------------------- saved listings and comparisons

  datatype SavedListing = SavedListing(
    savedId: string,
    userFirebaseUid: string,
    listingId: string,
    notes: Option<string>,
    savedAt: Time)

  datatype SavedListingCreate = SavedListingCreate(
    savedId: string,
    userFirebaseUid: string,
    listingId: string,
    notes: Option<string>)

  datatype Comparison = Comparison(
    comparisonId: string,
    userFirebaseUid: string,
    propertyIds: seq<string>,
    createdAt: Time)

  datatype ComparisonCreate = ComparisonCreate(
    comparisonId: string,
    userFirebaseUid: string,
    propertyIds: seq<string>)

  // -------------------------------------------------------------- reviews

  datatype Review = Review(
    reviewId: string,
    reviewerFirebaseUid: string,
    targetType: TargetType,
    targetId: string,
    rating: real,
    comment: string,
    createdAt: Time,
    updatedAt: Time)

  datatype ReviewCreate = ReviewCreate(
    reviewId: string,
    reviewerFirebaseUid: string,
    targetType: TargetType,
    targetId: string,
    rating: real,
    comment: string)

  // ---------------------------------------- messages and notifications

  datatype Message = Message(
    messageId: string,
    senderFirebaseUid: string,
    receiverFirebaseUid: string,
    listingId: Option<string>,
    subject: Option<string>,
    content: string,
    status: MessageStatus,
    sentAt: Time,
    readAt: Option<Time>)

  datatype MessageCreate = MessageCreate(
    messageId: string,
    senderFirebaseUid: string,
    receiverFirebaseUid: string,
    listingId: Option<string>,
    subject: Option<string>,
    content: string)

  /** A notification without a user is a broadcast to every user. */
  datatype Notification = Notification(
    notificationId: string,
    userFirebaseUid: Option<string>,
    title: string,
    message: string,
    notificationType: string,
    isRead: bool,
    createdAt: Time)

  datatype NotificationCreate = NotificationCreate(
    notificationId: string,
    userFirebaseUid: Option<string>,
    title: string,
    message: string,
    notificationType: string)

  // ----------------------------------------------------------- audit logs

  datatype AuditLog = AuditLog(
    logId: string,
    userFirebaseUid: Option<string>,
    action: string,
    resourceType: Option<string>,
    resourceId: Option<string>,
    metadata: Option<map<string, string>>,
    timestamp: Time)

  datatype AuditLogCreate = AuditLogCreate(
    logId: string,
    userFirebaseUid: Option<string>,
    action: string,
    resourceType: Option<string>,
    resourceId: Option<string>,
    metadata: Option<map<string, string>>)
}
