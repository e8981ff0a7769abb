/** The records of `types.ts`, and the two wrappers the model uses for absent
    values and for the errors a call can fail with.

    The fields that `types.ts` declares as string unions or as the `VisaType`
    enum (visa type, difficulty, budget comparison, activity type) are kept as
    the strings that travel in JSON, because the application casts the parsed
    AI reply to `DestinationData` without checking them; which strings the
    response schema admits is stated in module `DestinationIntel`.
    Every `number` is a mathematical real; dates of trips are whole day numbers
    (days since 1970-01-01, UTC). */
module Types {

  datatype Option<T> = None | Some(value: T)

  datatype Result<T, E> = Ok(value: T) | Err(error: E)

  /** `VisaType` of `types.ts` and the string each member stands for. */
  datatype VisaType = VisaFree | VisaOnArrival | EVisa | EmbassyRequired {
    function Label(): string {
      match this
      case VisaFree => "Visa Free"
      case VisaOnArrival => "Visa On Arrival"
      case EVisa => "E-Visa"
      case EmbassyRequired => "Embassy Visa Required"
    }
  }

  datatype VisaInfo = VisaInfo(
    visaType: string,
    cost: string,
    processingTime: string,
    documents: seq<string>,
    warning: string,
    difficultyLevel: string,
    allowedStay: string)

  datatype TransportOption = TransportOption(
    mode: string, routeInfo: string, costLocal: real, costHome: real)

  datatype Expense = Expense(id: string, category: string, amount: real, currency: string)

  datatype Activity = Activity(
    id: string, time: string, title: string, description: string, location: string, kind: string)

  datatype DayPlan = DayPlan(day: int, activities: seq<Activity>)

  datatype Economics = Economics(
    localCurrency: string,
    homeCurrency: string,
    exchangeRate: real,
    inverseRate: real,
    budgetComparison: string,
    dailyCostLocal: real,
    dailyCostHome: real)

  datatype TimeInfo = TimeInfo(
    timeZoneName: string, gmtOffset: real, timeDifference: string, bestTimeToVisit: string)

  datatype WeatherInfo = WeatherInfo(season: string, temperature: string, advisory: string)

  datatype Coordinates = Coordinates(lat: real, lng: real)

  datatype DestinationData = DestinationData(
    name: string,
    tagline: string,
    coordinates: Coordinates,
    economics: Economics,
    timeInfo: TimeInfo,
    weatherInfo: WeatherInfo,
    cultureTips: seq<string>,
    visa: VisaInfo,
    itinerary: seq<DayPlan>,
    localTransport: seq<TransportOption>,
    lastUpdated: int)

  /** A saved trip; `startDay` and `endDay` are day numbers. */
  datatype UserTrip = UserTrip(
    id: string,
    destination: string,
    startDay: int,
    endDay: int,
    budget: real,
    expenses: seq<Expense>,
    data: DestinationData)

  datatype Post = Post(
    id: string,
    username: string,
    userAvatar: string,
    image: string,
    location: string,
    caption: string,
    likes: int,
    timeAgo: string)

  datatype UserPlan = Free | Plus | Premium

  datatype UserProfile = UserProfile(
    fullName: string,
    email: string,
    phone: string,
    homeCountry: string,
    passportCountry: string,
    currency: string)

  /** The channel a one-time code is sent over: `'email' | 'phone'`. */
  datatype ContactMethod = Email | Phone

  /** The screens a handler navigates to; the code-entry screen is given the
      contact and the channel the code went to. */
  datatype Route = Root | OtpPage(contact: string, mode: ContactMethod) | SignupPage | LoginPage | OnboardingPage | TripsPage | CommunityPage {
    function Path(): string {
      match this
      case Root => "/"
      case OtpPage(_, _) => "/otp"
      case SignupPage => "/signup"
      case LoginPage => "/login"
      case OnboardingPage => "/onboarding"
      case TripsPage => "/trips"
      case CommunityPage => "/community"
    }
  }

  /** The user record the authentication service keeps (`$id` is `id`). */
  datatype AuthUser = AuthUser(id: string, name: string, email: string, phone: string, contact: string)
}
