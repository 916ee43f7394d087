/** The record shapes and closed vocabularies of the donation store
    (src/lib/types/database.ts).

    Records carry `status`, `category` and `donation_type` as the strings the
    store sends: the declared unions are compile-time types only, nothing
    checks them at run time, and the dashboard counts an undeclared status under
    its literal value. `Status`, `Category` and `DonationType` enumerate the
    declared values, and `Parse*` tells which strings are declared. */
module Database {
  import opened Js

  /** An instant; ISO-8601 strings of one format compare like the instants. */
  type Timestamp = int

  /** A monetary value, in whole units of the currency. */
  type Money = int

  // ---------------------------------------------------------------------------
  // Closed vocabularies

  /** `DonationRequestStatus`. */
  datatype Status = New | UnderReview | Approved | Denied | Fulfilled

  function StatusName(s: Status): string
  {
    match s
    case New => "new"
    case UnderReview => "under_review"
    case Approved => "approved"
    case Denied => "denied"
    case Fulfilled => "fulfilled"
  }

  /** The declared status a string names, if any. */
  function ParseStatus(name: string): (r: Option<Status>)
    ensures r.Some? ==> StatusName(r.value) == name
    ensures forall s :: StatusName(s) == name ==> r == Some(s)
  {
    if name == "new" then Some(New)
    else if name == "under_review" then Some(UnderReview)
    else if name == "approved" then Some(Approved)
    else if name == "denied" then Some(Denied)
    else if name == "fulfilled" then Some(Fulfilled)
    else None
  }

  /** `RequesterCategory`. */
  datatype Category = School | Nonprofit | SportsTeam | CommunityEvent | Religious | OtherCategory

  function CategoryName(c: Category): string
  {
    match c
    case School => "school"
    case Nonprofit => "nonprofit"
    case SportsTeam => "sports_team"
    case CommunityEvent => "community_event"
    case Religious => "religious"
    case OtherCategory => "other"
  }

  /** The declared category a string names, if any. */
  function ParseCategory(name: string): (r: Option<Category>)
    ensures r.Some? ==> CategoryName(r.value) == name
    ensures forall c :: CategoryName(c) == name ==> r == Some(c)
  {
    if name == "school" then Some(School)
    else if name == "nonprofit" then Some(Nonprofit)
    else if name == "sports_team" then Some(SportsTeam)
    else if name == "community_event" then Some(CommunityEvent)
    else if name == "religious" then Some(Religious)
    else if name == "other" then Some(OtherCategory)
    else None
  }

  /** `DonationType`. */
  datatype DonationType = Monetary | GiftCard | Product | Sponsorship | InKind | OtherType

  function DonationTypeName(t: DonationType): string
  {
    match t
    case Monetary => "monetary"
    case GiftCard => "gift_card"
    case Product => "product"
    case Sponsorship => "sponsorship"
    case InKind => "in_kind"
    case OtherType => "other"
  }

  /** The declared donation type a string names, if any. */
  function ParseDonationType(name: string): (r: Option<DonationType>)
    ensures r.Some? ==> DonationTypeName(r.value) == name
    ensures forall t :: DonationTypeName(t) == name ==> r == Some(t)
  {
    if name == "monetary" then Some(Monetary)
    else if name == "gift_card" then Some(GiftCard)
    else if name == "product" then Some(Product)
    else if name == "sponsorship" then Some(Sponsorship)
    else if name == "in_kind" then Some(InKind)
    else if name == "other" then Some(OtherType)
    else None
  }

  // ---------------------------------------------------------------------------
  // Records

  /** An organisation or person asking for donations. Only `org_name` is
      required; the contact fields may be null. */
  datatype Requester = Requester(
    id: string,
    orgName: string,
    contactName: Option<string>,
    contactEmail: Option<string>,
    contactPhone: Option<string>,
    category: string,
    address: Option<string>,
    notes: Option<string>,
    createdAt: Timestamp,
    updatedAt: Timestamp)

  /** The write payload for a new requester; `None` leaves a column to the
      store (null, or its default for `category` and `id`). */
  datatype RequesterInsert = RequesterInsert(
    id: Option<string>,
    orgName: string,
    contactName: Option<string>,
    contactEmail: Option<string>,
    contactPhone: Option<string>,
    category: Option<string>,
    address: Option<string>,
    notes: Option<string>)

  /** One donation request. `emailSentAt` and `emailSubject` are not declared
      by the record type, but the reply dialog reads them, so they are here as
      optional columns. */
  datatype DonationRequest = DonationRequest(
    id: string,
    requesterId: string,
    description: string,
    requestDate: string,
    eventDate: Option<string>,
    eventName: Option<string>,
    amountRequested: Option<Money>,
    amountApproved: Option<Money>,
    donationType: string,
    status: string,
    reviewedBy: Option<string>,
    reviewedAt: Option<Timestamp>,
    fulfilledAt: Option<Timestamp>,
    notes: Option<string>,
    internalNotes: Option<string>,
    taxReceiptSent: bool,
    followUpDate: Option<string>,
    createdBy: Option<string>,
    createdAt: Timestamp,
    updatedAt: Timestamp,
    emailSentAt: Option<Timestamp>,
    emailSubject: Option<string>)

  /** The write payload for a new donation request: only `requesterId` and
      `description` are required; `None` leaves a column to the store. */
  datatype DonationRequestInsert = DonationRequestInsert(
    id: Option<string>,
    requesterId: string,
    description: string,
    requestDate: Option<string>,
    eventDate: Option<string>,
    eventName: Option<string>,
    amountRequested: Option<Money>,
    amountApproved: Option<Money>,
    donationType: Option<string>,
    status: Option<string>,
    notes: Option<string>,
    internalNotes: Option<string>,
    createdBy: Option<string>)

  /** A donation request together with the requester it belongs to, as the
      listing endpoint returns it. */
  datatype RequestWithRequester = RequestWithRequester(request: DonationRequest, requester: Requester)
}
