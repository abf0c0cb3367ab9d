/** The UI's display model of one flight: the shapes declared at the top of lib/mockData.ts. */
module MockData {
  import opened Wrappers

  /** The three grades a feature indicator can show. */
  datatype IndicatorStatus = Excellent | Fair | Poor

  datatype Tooltip = Tooltip(description: string, rank: string, average: string, best: string)

  /** One feature indicator; the tooltip is optional in the declared type. */
  datatype Feature = Feature(icon: string, name: string, value: string, status: IndicatorStatus, tooltip: Option<Tooltip>)

  datatype Route = Route(from: string, to: string, departTime: string, arriveTime: string, duration: string)

  datatype Features = Features(
    bedLength: Feature, aisleAccess: Feature, wifi: Feature,
    screenSize: Feature, privacy: Feature, cabinAge: Feature)

  datatype SeatAndSleep = SeatAndSleep(
    seatWidth: string, seatPitch: string, recline: string, bedLength: string, bedWidth: string,
    bedType: string, comfortFeatures: seq<string>, bedding: seq<string>)

  datatype Entertainment = Entertainment(
    screenSize: string, resolution: string, systemName: string, contentLibrary: string,
    audio: seq<string>, gaming: string)

  datatype Connectivity = Connectivity(
    wifiAvailability: string, wifiSpeed: string, wifiPricing: string, powerOutlets: seq<string>,
    deviceStorage: string, holders: string)

  datatype Dining = Dining(serviceStyle: string, menuQuality: string, beverages: seq<string>, timingOptions: string)

  datatype PrivacyAndLayout = PrivacyAndLayout(
    configuration: string, directAisleAccess: string, privacyFeatures: seq<string>,
    windowVsAisle: string, totalSeats: string)

  datatype Environment = Environment(
    cabinAltitude: string, noiseLevel: string, airQuality: string, lightingControl: string,
    temperatureControl: string, cabinAge: string)

  datatype Details = Details(
    seatAndSleep: SeatAndSleep, entertainment: Entertainment, connectivity: Connectivity,
    dining: Dining, privacyAndLayout: PrivacyAndLayout, environment: Environment)

  /** The number `parseFloat(text)` yields; floating-point parsing itself is not modelled. */
  datatype PriceNumber = ParseFloatOf(text: string)

  datatype FlightData = FlightData(
    id: string, airline: string, aircraft: string, route: Route, flightNumber: string,
    price: PriceNumber, features: Features, details: Details, images: seq<string>)
}
