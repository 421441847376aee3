/**
 * The records the temple site stores and shows: donations, devotee
 * registrations and the site settings document. Dates are millisecond
 * timestamps (the code keeps them as ISO-8601 strings of such instants) and
 * amounts are whole rupees.
 */
module Types {
  import opened Base

  /** The three outcomes a donation record is created with. */
  datatype DonationStatus = Successful | Pending | Failed

  function StatusName(s: DonationStatus): string {
    match s
    case Successful => "Successful"
    case Pending => "Pending"
    case Failed => "Failed"
  }

  datatype Donation = Donation(
    id: string,
    amount: int,
    fullName: string,
    email: string,
    mobile: string,
    address1: string,
    address2: string,
    city: string,
    state: string,
    pincode: string,
    status: DonationStatus,
    date: int,
    paymentId: Option<string>)

  datatype Devotee = Devotee(
    id: string,
    name: string,
    email: string,
    mobile: string,
    birthDate: string,
    registrationDate: int)

  datatype ServiceCard = ServiceCard(title: string, description: string, icon: string)

  datatype ContactInfo = ContactInfo(address: string, email: string, phone: string)

  /** One slide of the home-page carousel. */
  datatype LandingPage = LandingPage(
    id: int,
    imageUrl: string,
    title: string,
    subtitle: string,
    description: string,
    ctaText1: string,
    ctaLink1: string,
    ctaText2: string,
    ctaLink2: string)

  datatype TempleSettings = TempleSettings(
    logoUrl: string,
    landingPages: seq<LandingPage>,
    contactInfo: ContactInfo,
    serviceCards: seq<ServiceCard>)

  /** One calendar day in milliseconds (no daylight-saving shifts). */
  const Day: int := 86_400_000

  /** The three service cards the site ships with. */
  const DefaultServiceCards: seq<ServiceCard> := [
    ServiceCard("Annadaan",
      "Contribute to our daily food distribution program, providing sanctified meals to all devotees and visitors.",
      "\U{1F35A}"),
    ServiceCard("Gau Seva",
      "Support the care and protection of our sacred cows at the temple Goshala, an act of great spiritual merit.",
      "\U{1F404}"),
    ServiceCard("Spiritual Education",
      "Help us organize classes, seminars, and distribute spiritual literature to spread timeless Vedic wisdom.",
      "\U{1F4D6}")
  ]

  /** The first entry of the state list, the donation form's default state. */
  const FirstIndianState: string := "Andhra Pradesh"
}
