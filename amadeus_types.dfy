/**
 * A subset of the Amadeus Flight Offers Search types (lib/amadeus-types.ts): every property
 * the transformer reads, together with some neighbours that give the records their shape
 * (`oneWay`, `numberOfStops`, `grandTotal`, `travelerType` and others the core never reads).
 * Fees, taxes, the operating carrier, stops, pricing options and the response metadata are
 * left out. Optional properties are `Option`s.
 */
module AmadeusTypes {
  import opened Wrappers

  datatype FlightEndPoint = FlightEndPoint(iataCode: string, terminal: Option<string>, at: string)

  datatype AircraftEquipment = AircraftEquipment(code: string)

  datatype Segment = Segment(
    id: string, departure: FlightEndPoint, arrival: FlightEndPoint, carrierCode: string,
    number: string, aircraft: AircraftEquipment, duration: string, numberOfStops: Option<int>)

  datatype Itinerary = Itinerary(duration: string, segments: seq<Segment>)

  datatype Price = Price(currency: string, total: string, base: string, grandTotal: Option<string>)

  /** `cabin` is a travel-class name; it is kept as text because the code tests it for truthiness. */
  datatype FareDetailsBySegment = FareDetailsBySegment(segmentId: string, cabin: string, bookingClass: string)

  datatype TravelerPricing = TravelerPricing(
    travelerId: string, travelerType: string, price: Price, fareDetailsBySegment: seq<FareDetailsBySegment>)

  datatype AmadeusFlightOffer = AmadeusFlightOffer(
    id: string, oneWay: bool, numberOfBookableSeats: int, itineraries: seq<Itinerary>, price: Price,
    validatingAirlineCodes: seq<string>, travelerPricings: seq<TravelerPricing>)

  datatype LocationValue = LocationValue(cityCode: string, countryCode: string)

  /** The lookup tables sent with a response; each one may be absent. */
  datatype Dictionaries = Dictionaries(
    locations: Option<map<string, LocationValue>>, aircraft: Option<map<string, string>>,
    currencies: Option<map<string, string>>, carriers: Option<map<string, string>>)
}
