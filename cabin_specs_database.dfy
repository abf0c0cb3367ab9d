/**
 * The static table of cabin amenities (lib/cabin-specs-database.ts), keyed by
 * `AIRLINE_AIRCRAFT_CABIN`, and its total lookup with a `DEFAULT` fallback.
 */
module CabinSpecsDatabase {

  /** The amenities of one cabin, every one as display text or a list of display texts. */
  datatype CabinSpecs = CabinSpecs(
    // seat and sleep
    seatWidth: string, seatPitch: string, recline: string, bedLength: string, bedWidth: string,
    bedType: string, comfortFeatures: seq<string>, bedding: seq<string>,
    // entertainment
    screenSize: string, resolution: string, systemName: string, contentLibrary: string,
    audio: seq<string>, gaming: string,
    // connectivity
    wifiAvailability: string, wifiSpeed: string, wifiPricing: string, powerOutlets: seq<string>,
    deviceStorage: string, holders: string,
    // dining
    serviceStyle: string, menuQuality: string, beverages: seq<string>, timingOptions: string,
    // privacy and layout
    configuration: string, directAisleAccess: string, privacyFeatures: seq<string>,
    windowVsAisle: string, totalSeats: string,
    // environment
    cabinAltitude: string, noiseLevel: string, airQuality: string, lightingControl: string,
    temperatureControl: string, cabinAge: string)

  /** The record used when no table entry matches (lib/cabin-specs-database.ts:61-102). */
  const DefaultBusinessClass: CabinSpecs := CabinSpecs(
    seatWidth := "21 inches",
    seatPitch := "60 inches",
    recline := "Fully flat 180\U{00B0}",
    bedLength := "198cm (78 inches)",
    bedWidth := "53cm (21 inches)",
    bedType := "Fully flat bed",
    comfortFeatures := ["Adjustable headrest", "Footrest"],
    bedding := ["Blanket", "Pillow"],
    screenSize := "18 inches",
    resolution := "Full HD",
    systemName := "In-flight entertainment system",
    contentLibrary := "200+ entertainment options",
    audio := ["Headphones included"],
    gaming := "Limited gaming available",
    wifiAvailability := "Available",
    wifiSpeed := "15 Mbps",
    wifiPricing := "Varies by airline",
    powerOutlets := ["110V AC outlet", "USB port"],
    deviceStorage := "Storage compartments",
    holders := "Basic device holder",
    serviceStyle := "Menu service",
    menuQuality := "Premium dining",
    beverages := ["Wine", "Spirits", "Soft drinks"],
    timingOptions := "Set meal times",
    configuration := "1-2-1",
    directAisleAccess := "Most seats",
    privacyFeatures := ["Dividers"],
    windowVsAisle := "Window preferred",
    totalSeats := "40 business class seats",
    cabinAltitude := "6,500 feet",
    noiseLevel := "Moderate",
    airQuality := "Standard filtration",
    lightingControl := "Cabin lighting",
    temperatureControl := "Climate controlled",
    cabinAge := "5 years")

  /** Lufthansa A350-900 business class (Allegris). */
  const Lh359Business: CabinSpecs := CabinSpecs(
    seatWidth := "22 inches",
    seatPitch := "76 inches",
    recline := "Fully flat 180\U{00B0}",
    bedLength := "205cm (81 inches)",
    bedWidth := "55cm (22 inches)",
    bedType := "Fully flat bed with memory foam",
    comfortFeatures := ["Adjustable headrest", "Footrest", "Lumbar support", "Massage function"],
    bedding := ["Memory foam mattress pad", "Duvet", "2 pillows"],
    screenSize := "24 inches",
    resolution := "4K Ultra HD",
    systemName := "Allegris Entertainment",
    contentLibrary := "300+ movies, 200+ TV shows",
    audio := ["Noise-canceling headphones", "Bluetooth connectivity"],
    gaming := "Xbox controller compatible",
    wifiAvailability := "Complimentary throughout flight",
    wifiSpeed := "50+ Mbps",
    wifiPricing := "Free",
    powerOutlets := ["110V AC outlet", "USB-A port", "USB-C port"],
    deviceStorage := "Multiple storage compartments",
    holders := "Adjustable phone and tablet holders",
    serviceStyle := "On-demand dining",
    menuQuality := "Star chef designed menu",
    beverages := ["Premium wines", "Champagne", "Spirits", "Fresh juice bar"],
    timingOptions := "Dine anytime during flight",
    configuration := "1-2-1 (all aisle access)",
    directAisleAccess := "Yes - all seats",
    privacyFeatures := ["Closing door", "High dividers", "Personal suite"],
    windowVsAisle := "Both have equal benefits",
    totalSeats := "32 business class seats",
    cabinAltitude := "6,000 feet",
    noiseLevel := "Very quiet",
    airQuality := "Advanced HEPA filtration, 50% humidity",
    lightingControl := "Personal LED controls with presets",
    temperatureControl := "Individual climate zones",
    cabinAge := "2 years")

  /** Lufthansa A340-600 business class. */
  const Lh346Business: CabinSpecs := CabinSpecs(
    seatWidth := "20 inches",
    seatPitch := "60 inches",
    recline := "Fully flat 180\U{00B0}",
    bedLength := "193cm (76 inches)",
    bedWidth := "51cm (20 inches)",
    bedType := "Fully flat bed",
    comfortFeatures := ["Basic headrest"],
    bedding := ["Blanket", "Pillow"],
    screenSize := "15 inches",
    resolution := "Standard definition",
    systemName := "Legacy entertainment",
    contentLibrary := "100+ entertainment options",
    audio := ["Basic headphones"],
    gaming := "No gaming",
    wifiAvailability := "Available for purchase",
    wifiSpeed := "5 Mbps",
    wifiPricing := "$24.95 per flight",
    powerOutlets := ["110V AC outlet"],
    deviceStorage := "Minimal storage",
    holders := "No holders",
    serviceStyle := "Tray service",
    menuQuality := "Basic menu",
    beverages := ["House wines", "Beer"],
    timingOptions := "Fixed meal times",
    configuration := "2-2-2 (no aisle access)",
    directAisleAccess := "No - middle seats blocked",
    privacyFeatures := ["Minimal dividers"],
    windowVsAisle := "Aisle seats slightly better",
    totalSeats := "48 business class seats",
    cabinAltitude := "8,000 feet",
    noiseLevel := "Louder",
    airQuality := "Basic filtration, 30% humidity",
    lightingControl := "Cabin lights only",
    temperatureControl := "Cabin climate control",
    cabinAge := "11 years")

  /** Qatar Airways A350-900 Qsuite. */
  const Qr359Business: CabinSpecs := CabinSpecs(
    seatWidth := "21.5 inches",
    seatPitch := "74 inches",
    recline := "Fully flat 180\U{00B0}",
    bedLength := "203cm (80 inches)",
    bedWidth := "54cm (21.5 inches)",
    bedType := "Fully flat bed",
    comfortFeatures := ["Adjustable headrest", "Footrest", "Lumbar support", "Massage function"],
    bedding := ["Mattress pad", "Duvet", "2 pillows"],
    screenSize := "21.5 inches",
    resolution := "Full HD",
    systemName := "Oryx One",
    contentLibrary := "4000+ entertainment options",
    audio := ["Noise-canceling headphones", "Bluetooth connectivity"],
    gaming := "Gaming options available",
    wifiAvailability := "Complimentary throughout flight",
    wifiSpeed := "30 Mbps",
    wifiPricing := "Free",
    powerOutlets := ["110V AC outlet", "USB-A port", "USB-C port"],
    deviceStorage := "Multiple storage compartments",
    holders := "Phone and tablet holders",
    serviceStyle := "On-demand dining",
    menuQuality := "Award-winning cuisine",
    beverages := ["Premium wines", "Champagne", "Spirits", "Fresh juices"],
    timingOptions := "Dine anytime during flight",
    configuration := "1-2-1 (all aisle access)",
    directAisleAccess := "Yes - all seats",
    privacyFeatures := ["Closing door", "High dividers", "Personal suite"],
    windowVsAisle := "Both have equal benefits",
    totalSeats := "36 business class seats",
    cabinAltitude := "6,000 feet",
    noiseLevel := "Very quiet",
    airQuality := "Advanced filtration, 45% humidity",
    lightingControl := "Personal LED controls",
    temperatureControl := "Individual climate zones",
    cabinAge := "4 years")

  /** Singapore Airlines A350-900 business class. */
  const Sq359Business: CabinSpecs := CabinSpecs(
    seatWidth := "25 inches",
    seatPitch := "60 inches",
    recline := "Fully flat 180\U{00B0}",
    bedLength := "198cm (78 inches)",
    bedWidth := "63cm (25 inches)",
    bedType := "Fully flat bed",
    comfortFeatures := ["Adjustable headrest", "Footrest", "Lumbar support"],
    bedding := ["Mattress pad", "Blanket", "Pillow"],
    screenSize := "18 inches",
    resolution := "Full HD",
    systemName := "KrisWorld",
    contentLibrary := "1800+ entertainment options",
    audio := ["Noise-canceling headphones"],
    gaming := "Limited gaming options",
    wifiAvailability := "Complimentary throughout flight",
    wifiSpeed := "25 Mbps",
    wifiPricing := "Free",
    powerOutlets := ["110V AC outlet", "USB-A port"],
    deviceStorage := "Storage compartments",
    holders := "Phone holder",
    serviceStyle := "Menu service",
    menuQuality := "Premium cuisine",
    beverages := ["Premium wines", "Champagne", "Spirits"],
    timingOptions := "Set meal times with flexibility",
    configuration := "1-2-1 (all aisle access)",
    directAisleAccess := "Yes - all seats",
    privacyFeatures := ["High dividers", "Enclosed suite (no door)"],
    windowVsAisle := "Both have equal benefits",
    totalSeats := "42 business class seats",
    cabinAltitude := "6,000 feet",
    noiseLevel := "Quiet",
    airQuality := "HEPA filtration, 40% humidity",
    lightingControl := "Mood lighting controls",
    temperatureControl := "Zone climate control",
    cabinAge := "5 years")

  /** Emirates 777-300ER business class. */
  const Ek77WBusiness: CabinSpecs := CabinSpecs(
    seatWidth := "20.5 inches",
    seatPitch := "72 inches",
    recline := "Fully flat 180\U{00B0}",
    bedLength := "195cm (77 inches)",
    bedWidth := "52cm (20.5 inches)",
    bedType := "Fully flat bed",
    comfortFeatures := ["Adjustable headrest", "Footrest"],
    bedding := ["Mattress pad", "Blanket", "Pillow"],
    screenSize := "23 inches",
    resolution := "Full HD",
    systemName := "ICE",
    contentLibrary := "5000+ entertainment options",
    audio := ["Noise-canceling headphones"],
    gaming := "Gaming available",
    wifiAvailability := "Complimentary throughout flight",
    wifiSpeed := "15 Mbps",
    wifiPricing := "Free",
    powerOutlets := ["110V AC outlet", "USB port"],
    deviceStorage := "Storage compartments",
    holders := "Device holder",
    serviceStyle := "Menu service",
    menuQuality := "Multi-course dining",
    beverages := ["Premium wines", "Spirits"],
    timingOptions := "Set meal times",
    configuration := "1-2-1 (all aisle access)",
    directAisleAccess := "Yes - all seats",
    privacyFeatures := ["High dividers", "Enclosed suite (no door)"],
    windowVsAisle := "Both have equal benefits",
    totalSeats := "42 business class seats",
    cabinAltitude := "7,000 feet",
    noiseLevel := "Moderate",
    airQuality := "Standard filtration, 35% humidity",
    lightingControl := "Cabin mood lighting",
    temperatureControl := "Cabin climate control",
    cabinAge := "7 years")

  /** American Airlines 787-9 business class. */
  const Aa789Business: CabinSpecs := CabinSpecs(
    seatWidth := "21 inches",
    seatPitch := "64 inches",
    recline := "Fully flat 180\U{00B0}",
    bedLength := "193cm (76 inches)",
    bedWidth := "53cm (21 inches)",
    bedType := "Fully flat bed",
    comfortFeatures := ["Adjustable headrest"],
    bedding := ["Blanket", "Pillow"],
    screenSize := "16 inches",
    resolution := "HD",
    systemName := "Panasonic eX3",
    contentLibrary := "300+ entertainment options",
    audio := ["Basic headphones"],
    gaming := "No gaming",
    wifiAvailability := "Available for purchase",
    wifiSpeed := "10 Mbps",
    wifiPricing := "$19.95 per flight",
    powerOutlets := ["110V AC outlet", "USB port"],
    deviceStorage := "Limited storage",
    holders := "No holders",
    serviceStyle := "Tray service",
    menuQuality := "Standard menu",
    beverages := ["House wines", "Beer", "Spirits"],
    timingOptions := "Fixed meal times",
    configuration := "1-2-1 (all aisle access)",
    directAisleAccess := "Yes - all seats",
    privacyFeatures := ["Low dividers"],
    windowVsAisle := "Window seats preferred",
    totalSeats := "44 business class seats",
    cabinAltitude := "6,000 feet",
    noiseLevel := "Moderate",
    airQuality := "Standard filtration, 40% humidity",
    lightingControl := "Basic cabin lighting",
    temperatureControl := "Cabin climate control",
    cabinAge := "6 years")

  /** `cabinSpecsDatabase`: the default record under "DEFAULT" and six airline-specific cabins. */
  const Database: map<string, CabinSpecs> := map[
    "DEFAULT" := DefaultBusinessClass,
    "LH_359_BUSINESS" := Lh359Business,
    "LH_346_BUSINESS" := Lh346Business,
    "QR_359_BUSINESS" := Qr359Business,
    "SQ_359_BUSINESS" := Sq359Business,
    "EK_77W_BUSINESS" := Ek77WBusiness,
    "AA_789_BUSINESS" := Aa789Business
  ]

  /** The table key `${airlineCode}_${aircraftCode}_${cabin}`. */
  function CompositeKey(airlineCode: string, aircraftCode: string, cabin: string): string {
    airlineCode + "_" + aircraftCode + "_" + cabin
  }

  /** `getCabinSpecs`: the entry stored under the composite key, or the `DEFAULT` entry when there is none. */
  function GetCabinSpecs(airlineCode: string, aircraftCode: string, cabin: string): (r: CabinSpecs)
    ensures CompositeKey(airlineCode, aircraftCode, cabin) in Database ==>
              r == Database[CompositeKey(airlineCode, aircraftCode, cabin)]
    ensures CompositeKey(airlineCode, aircraftCode, cabin) !in Database ==> r == DefaultBusinessClass
  {
    var key := CompositeKey(airlineCode, aircraftCode, cabin);
    if key in Database then Database[key] else Database["DEFAULT"]
  }

  /** Every lookup answers with a record of the table; nothing is invented. */
  lemma LookupAnswersFromTable(airlineCode: string, aircraftCode: string, cabin: string)
    ensures GetCabinSpecs(airlineCode, aircraftCode, cabin) in Database.Values
  {
  }

  /** The number of occurrences of `c` in `s`. */
  function Occurrences(s: string, c: char): nat {
    if s == [] then 0 else (if s[0] == c then 1 else 0) + Occurrences(s[1..], c)
  }

  lemma {:induction false} OccurrencesConcat(s: string, t: string, c: char)
    ensures Occurrences(s + t, c) == Occurrences(s, c) + Occurrences(t, c)
  {
    if s != [] {
      assert (s + t)[1..] == s[1..] + t;
      OccurrencesConcat(s[1..], t, c);
    } else {
      assert s + t == t;
    }
  }

  lemma {:induction false} OccurrencesAbsent(s: string, c: char)
    requires c !in s
    ensures Occurrences(s, c) == 0
  {
    if s != [] {
      assert s[0] in s;
      assert c !in s[1..];
      OccurrencesAbsent(s[1..], c);
    }
  }

  /** Every composite key holds at least two underscores, so none of them is "DEFAULT". */
  lemma CompositeKeyNeverDefault(airlineCode: string, aircraftCode: string, cabin: string)
    ensures Occurrences(CompositeKey(airlineCode, aircraftCode, cabin), '_') >= 2
    ensures Occurrences("DEFAULT", '_') == 0
    ensures CompositeKey(airlineCode, aircraftCode, cabin) != "DEFAULT"
  {
    OccurrencesConcat(airlineCode + "_" + aircraftCode + "_", cabin, '_');
    OccurrencesConcat(airlineCode + "_" + aircraftCode, "_", '_');
    OccurrencesConcat(airlineCode + "_", aircraftCode, '_');
    OccurrencesConcat(airlineCode, "_", '_');
    assert Occurrences("_", '_') == 1;
    OccurrencesAbsent("DEFAULT", '_');
  }

  /** The lookup sees the three codes only through the joined key: equal keys give equal records. */
  lemma LookupDependsOnlyOnKey(a1: string, b1: string, c1: string, a2: string, b2: string, c2: string)
    requires CompositeKey(a1, b1, c1) == CompositeKey(a2, b2, c2)
    ensures GetCabinSpecs(a1, b1, c1) == GetCabinSpecs(a2, b2, c2)
  {
  }

  /** Two different triples can join to the same key: ("A_B", "C", "D") and ("A", "B_C", "D"). */
  lemma KeyCollision()
    ensures CompositeKey("A_B", "C", "D") == CompositeKey("A", "B_C", "D")
    ensures GetCabinSpecs("A_B", "C", "D") == GetCabinSpecs("A", "B_C", "D")
  {
    assert CompositeKey("A_B", "C", "D") == "A_B_C_D";
    assert CompositeKey("A", "B_C", "D") == "A_B_C_D";
  }

  /** ("LH", "359", "BUSINESS") finds the Lufthansa A350-900 entry. */
  lemma LufthansaA350Lookup()
    ensures GetCabinSpecs("LH", "359", "BUSINESS") == Lh359Business
  {
    assert CompositeKey("LH", "359", "BUSINESS") == "LH_359_BUSINESS";
  }

  /** A triple the table does not know gets the default business-class record. */
  lemma UnknownTripleFallsBack()
    ensures GetCabinSpecs("XX", "999", "BUSINESS") == DefaultBusinessClass
  {
    assert CompositeKey("XX", "999", "BUSINESS") == "XX_999_BUSINESS";
  }
}
