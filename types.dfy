/** The records of types/index.ts that the session core and the catalogue
    queries touch. String-literal unions become enumerations, optional
    properties become `Option`, and floating-point quantities (volume,
    coordinates, distances, ratings, amounts) are carried as opaque `real`
    values that the model never computes with. Counts and ages are carried
    as integers. */
module Types {
  import opened Wrappers

  /** The two roles a user can have. */
  datatype Role = Tourist | Admin

  /** The string a role has at run time; routing compares these strings. */
  function RoleName(r: Role): (s: string)
    ensures s == "tourist" || s == "admin"
    ensures (s == "tourist") == r.Tourist?
  {
    match r
    case Tourist => "tourist"
    case Admin => "admin"
  }

  /** The three quality levels in which audio guides can be downloaded. */
  datatype DownloadQuality = Low | Medium | High

  datatype AudioGuideSettings = AudioGuideSettings(
    autoPlay: bool,
    volume: real,
    preferredNarratorVoice: string,
    downloadQuality: DownloadQuality)

  datatype UserPreferences = UserPreferences(
    language: string,
    notifications: bool,
    offlineMode: bool,
    audioGuideSettings: AudioGuideSettings)

  /** An authenticated principal; `avatar` and `preferences` are optional. */
  datatype User = User(
    id: string,
    email: string,
    name: string,
    role: Role,
    avatar: Option<string>,
    preferences: Option<UserPreferences>)

  datatype Location = Location(
    latitude: real,
    longitude: real,
    address: string,
    city: string,
    region: string,
    country: string)

  /** The five kinds of place listed near a monastery. */
  datatype AttractionType = MonasterySite | Museum | Restaurant | Accommodation | Nature

  datatype Attraction = Attraction(
    id: string,
    name: string,
    description: string,
    location: Location,
    distance: real,
    kind: AttractionType,
    rating: real,
    imageUrl: string)

  /** The five kinds of cultural event a monastery hosts. */
  datatype CulturalEventType = Festival | Ritual | Exhibition | Workshop | Ceremony

  datatype CulturalEvent = CulturalEvent(
    id: string,
    title: string,
    description: string,
    startDate: string,
    endDate: string,
    location: string,
    kind: CulturalEventType,
    ticketsRequired: bool,
    maxParticipants: Option<nat>,
    currentParticipants: nat,
    imageUrl: string)

  /** The fields of a monastery record the catalogue queries read or hand
      back; the media collections, visiting hours and ticket prices are not
      part of this model. */
  datatype Monastery = Monastery(
    id: string,
    name: string,
    description: string,
    location: Location,
    images: seq<string>,
    nearbyAttractions: seq<Attraction>,
    culturalEvents: seq<CulturalEvent>)

  /** The four stages a booking passes through. */
  datatype BookingStatus = Pending | Confirmed | Cancelled | Completed

  /** Whether a booking's payment is outstanding, settled or returned. */
  datatype PaymentStatus = PaymentPending | Paid | Refunded

  datatype VisitorInfo = VisitorInfo(name: string, age: int, ticketType: string)

  datatype Booking = Booking(
    id: string,
    userId: string,
    monasteryId: string,
    eventId: Option<string>,
    visitDate: string,
    visitors: seq<VisitorInfo>,
    totalAmount: real,
    status: BookingStatus,
    paymentStatus: PaymentStatus,
    specialRequests: Option<string>)

  /** What a client supplies when it books a visit: a booking without its
      id and its two status fields, which the catalogue assigns. */
  datatype BookingRequest = BookingRequest(
    userId: string,
    monasteryId: string,
    eventId: Option<string>,
    visitDate: string,
    visitors: seq<VisitorInfo>,
    totalAmount: real,
    specialRequests: Option<string>)
}
