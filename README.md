# Flight offer transformer, cabin table, Amadeus client and indicator styles in Dafny

This project models the data core of a flight-search web app. The app shows business-class
flights with graded cabin features.

- **Offer transformer** (`lib/flight-transformer.ts`), module `FlightTransformer`. This is a set
  of pure functions. They turn one Amadeus flight offer into the UI's `FlightData` record:
  - the `PT9H15M` duration is shown as `9h 15m`, and the time as `21:50`;
  - the airline and aircraft names come from the response dictionaries, with fallbacks;
  - the cabin record is looked up, and six features are graded from it as excellent, fair or
    poor;
  - an offer without segments fails the whole batch.
- **Cabin-specification table** (`lib/cabin-specs-database.ts`), module `CabinSpecsDatabase`.
  This is a `map<string, CabinSpecs>` with a `DEFAULT` entry and six airline entries, and a total
  lookup keyed by `airline_aircraft_cabin`.
- **Amadeus client** (`lib/amadeus-client.ts`), module `AmadeusApi`.
  - The class `AmadeusClient` holds the access-token cache of the OAuth 2.0
    client-credentials grant (section 4.4 of RFC 6749). Tokens are dropped 60 seconds early.
  - Each method is proved against the specification function `NextToken`.
  - The query of the flight-offers search is built by successive appends. The method is proved
    against the function `SearchQuery`.
  - The clock is the parameter `now`. The token endpoint's answer is the parameter `response`.
    A ghost field logs the token requests the client sends.
- **Indicator styles** (`lib/utils.ts`), module `Utils`. This maps each status to its
  Tailwind colour classes and its symbol.

Support modules:
- `Wrappers` holds `Option` and `Result`.
- `JsString` models the JavaScript string built-ins the core calls: `indexOf`, `replace` with a
  one-character pattern, `trim`, `split`, `parseInt` and `String(n)`.
- `MockData` and `AmadeusTypes` hold the record types of `lib/mockData.ts` and
  `lib/amadeus-types.ts`.

## Model

| member | source | states |
|---|---|---|
| FlightTransformer.MatchDuration | lib/flight-transformer.ts:26-27 | the pattern `PT(\d+H)?(\d+M)?` matches exactly when "PT" occurs in the text |
| FlightTransformer.UnitGroup | lib/flight-transformer.ts:26 | an optional group `\d+U` is a slice of the input: one or more digits and then the letter; when the group is absent, no digit run at that position is followed by the letter |
| FlightTransformer.FormatDuration | lib/flight-transformer.ts:25-33 | text without "PT" is returned unchanged |
| FlightTransformer.FormatDurationReadsDesignators | lib/flight-transformer.ts:25-33 | for every duration of the form `PT[<h>H][<m>M]<rest>`, the result is `<h>h <m>m`, `<h>h`, `<m>m` or "" (the trailing space of an hours-only result is trimmed), whatever `rest` holds (seconds included) as long as `rest` does not itself begin with a group the pattern takes in place of an absent one: digits and M when the minutes are absent, digits and H as well when both are absent |
| FlightTransformer.MatchDurationString | lib/flight-transformer.ts:26 | on such a duration, under the same condition on `rest`, the two groups captured are exactly the hour and minute designators |
| FlightTransformer.RenderCaptured | lib/flight-transformer.ts:29-32 | replacing 'H' by "h " and 'M' by "m" in the captured groups and trimming gives the intended text |
| FlightTransformer.FormatDurationDropsSeconds | lib/flight-transformer.ts:25-33 | "PT1H30S" gives "1h": seconds are not shown |
| FlightTransformer.FormatDurationSecondsOnly | lib/flight-transformer.ts:25-33 | "PT30S" gives the empty text |
| FlightTransformer.FormatDurationWithDays | lib/flight-transformer.ts:26-27 | "P1DT2H" has no "PT" and comes back unchanged |
| FlightTransformer.FormatTime | lib/flight-transformer.ts:40-42 | the result is the input, or a non-empty text of at most 5 characters |
| FlightTransformer.FormatTimeWithoutT | lib/flight-transformer.ts:41 | input without a 'T' is returned unchanged |
| FlightTransformer.FormatTimeBetweenSeparators | lib/flight-transformer.ts:41 | for `date T time [T...]`, the result is the first five characters of `time`, or the whole input when `time` is empty |
| FlightTransformer.FormatTimeExample | lib/flight-transformer.ts:37-38 | "2023-11-01T21:50:00" gives "21:50" |
| FlightTransformer.GetCabinSpecs | lib/flight-transformer.ts:72-79 | the transformer's own lookup agrees with `CabinSpecsDatabase.GetCabinSpecs` on every input |
| FlightTransformer.CalculateStatus | lib/flight-transformer.ts:93-108 | excellent iff value >= excellent, and fair iff below that but >= fair; in reverse mode the same with <= |
| FlightTransformer.CalculateStatusMonotone | lib/flight-transformer.ts:93-108 | a higher value is never graded worse; in reverse mode a lower value is never graded worse |
| FlightTransformer.CreateFeature | lib/flight-transformer.ts:113-135 | the feature carries the given icon, name, value and status, and a tooltip built from the four tooltip texts |
| FlightTransformer.ParseIntOr | lib/flight-transformer.ts:269-272 | a parsed non-zero number is kept; NaN and 0 both give the fallback |
| FlightTransformer.LeadingNumberRead | lib/flight-transformer.ts:269-272 | a value such as "205cm (81 inches)" is read by its leading digits, and the default applies only when they spell 0 |
| FlightTransformer.BedFeature | lib/flight-transformer.ts:269-295 | bed: excellent iff at least 203 cm, poor iff below 198; value is the bed-length text; tooltip rank is the fixed text, and the description opens with the grade |
| FlightTransformer.AisleFeature | lib/flight-transformer.ts:276-305 | aisle: excellent iff direct access is "Yes - all seats", never poor; value is the configuration |
| FlightTransformer.WifiFeature | lib/flight-transformer.ts:271-316 | Wi-Fi: excellent iff at least 30 Mbps, poor iff below 15; value is "pricing, speed" |
| FlightTransformer.ScreenFeature | lib/flight-transformer.ts:270-327 | screen: excellent iff at least 21 inches, poor iff below 17 |
| FlightTransformer.PrivacyFeature | lib/flight-transformer.ts:279-338 | privacy: excellent iff an entry "Closing door" exists; poor iff neither it nor "High dividers" does; value is the first entry, or "Standard" |
| FlightTransformer.AgeFeature | lib/flight-transformer.ts:272-349 | cabin age, graded in reverse: excellent iff at most 3 years, poor iff above 6 |
| FlightTransformer.BuildFeatureIndicators | lib/flight-transformer.ts:263-351 | all six features carry a tooltip with the fixed rank text and a description that opens with the feature's grade |
| FlightTransformer.UnparsableSizesGradeFair | lib/flight-transformer.ts:269-278 | a bed length or screen size that is unparsable or 0 takes 198 or 18, which grades as fair |
| FlightTransformer.UnparsableServiceValuesGradeFair | lib/flight-transformer.ts:271-282 | a Wi-Fi speed or cabin age that is unparsable or 0 takes 15 or 5, which grades as fair |
| FlightTransformer.OfferCabin | lib/flight-transformer.ts:162 | the first fare detail's cabin when it is present and non-empty, else "BUSINESS" |
| FlightTransformer.NameOr | lib/flight-transformer.ts:167-168 | a present, non-empty dictionary entry wins; otherwise the fallback |
| FlightTransformer.DetailsRoundTrip | lib/flight-transformer.ts:189-237 | regrouping a cabin record into the six detail panels loses and invents nothing, in both directions |
| FlightTransformer.TransformFlightOffer | lib/flight-transformer.ts:148-258 | fails with "missing segments" iff the first itinerary is absent or has no segments; otherwise gives every output field: id, the airline and aircraft with fallbacks, route from the first and last segments, flight number, price, the six detail panels of the looked-up cabin record, its features, and the four images |
| FlightTransformer.MapUntilError | lib/flight-transformer.ts:362 | a map whose function may throw: every result in order, or the error of the first element that fails |
| FlightTransformer.TransformFlightOffers | lib/flight-transformer.ts:358-363 | succeeds iff every offer has segments; then one record per offer, in order, each with its offer's id, each transformed against the whole batch |
| CabinSpecsDatabase.GetCabinSpecs | lib/cabin-specs-database.ts:404-411 | total; the entry under the composite key when there is one, else the default business-class record |
| CabinSpecsDatabase.LookupAnswersFromTable | lib/cabin-specs-database.ts:404-411 | every answer is a record of the table |
| CabinSpecsDatabase.CompositeKeyNeverDefault | lib/cabin-specs-database.ts:409-410 | every composite key has at least two underscores, so it never equals "DEFAULT" |
| CabinSpecsDatabase.LookupDependsOnlyOnKey | lib/cabin-specs-database.ts:409 | triples that join to the same key get the same record |
| CabinSpecsDatabase.KeyCollision | lib/cabin-specs-database.ts:409 | ("A_B","C","D") and ("A","B_C","D") join to one key and get one record |
| CabinSpecsDatabase.LufthansaA350Lookup | lib/cabin-specs-database.ts:117-160 | ("LH","359","BUSINESS") gives the LH_359_BUSINESS record |
| CabinSpecsDatabase.UnknownTripleFallsBack | lib/cabin-specs-database.ts:409-410 | the unknown triple ("XX", "999", "BUSINESS") gives the default business record (every absent key falls back, by the second ensures of `GetCabinSpecs`) |
| AmadeusApi.NextToken | lib/amadeus-client.ts:56-97 | the token endpoint is called iff no fresh token is cached and both credentials are set; a failure leaves the cache as it was; a success returns the cached token |
| AmadeusApi.CachedTokenServed | lib/amadeus-client.ts:58-60 | a fresh cached token is returned without a request and with the cache unchanged, even when the credentials are empty |
| AmadeusApi.MissingCredentialsFailEarly | lib/amadeus-client.ts:58-67 | with no fresh token and a missing credential, the call fails without a request and leaves the cache alone |
| AmadeusApi.RejectionKeepsCache | lib/amadeus-client.ts:82-87 | a rejected token request reports its status and keeps the old cache |
| AmadeusApi.GrantServesUntilExpiry | lib/amadeus-client.ts:58-96 | after a grant, every call before now + expires_in*1000 - 60000 is served the granted token without a request |
| AmadeusApi.GrantLifetime | lib/amadeus-client.ts:58-96 | after a grant, a later call sends a new request iff it comes at or after now + expires_in*1000 - 60000 |
| AmadeusApi.ShortGrantNotReused | lib/amadeus-client.ts:58-96 | a grant of 60 seconds or less is stale at once, and the next call requests again |
| AmadeusApi.FreshnessMonotone | lib/amadeus-client.ts:58 | a token fresh at some time was fresh at every earlier time |
| AmadeusApi.ActiveIffServedWithoutRequest | lib/amadeus-client.ts:58-60 | a cached token is fresh iff the next call succeeds without a request |
| AmadeusApi.AmadeusClient.constructor | lib/amadeus-client.ts:45-51 | the client keeps its configuration and starts with no token and no requests sent |
| AmadeusApi.AmadeusClient.GetAccessToken | lib/amadeus-client.ts:56-97 | the result and the new cache are those of `NextToken`, and one token request is logged exactly when `NextToken` sends it |
| AmadeusApi.AmadeusClient.SearchFlights | lib/amadeus-client.ts:104-147 | the token step as in `GetAccessToken`; a token failure is passed on; otherwise the request goes to `/v2/shopping/flight-offers` with the query `SearchQuery` and a `Bearer` token |
| AmadeusApi.AmadeusClient.TestConnection | lib/amadeus-client.ts:284-292 | true iff a token is obtained; it never fails, and it updates the cache as `GetAccessToken` does |
| AmadeusApi.AmadeusClient.GetConfigStatus | lib/amadeus-client.ts:298-308 | the credential flags, the endpoint, whether the cached token is fresh, and its expiry unless that is 0 |
| AmadeusApi.ActiveTokenStatus | lib/amadeus-client.ts:298-308 | `hasActiveToken` holds iff a `getAccessToken` call at that time takes the fast path |
| AmadeusApi.NumberOr | lib/amadeus-client.ts:112-137 | a number option with a fallback: a given non-zero number is kept; absent and 0 give the fallback |
| AmadeusApi.BuildSearchQuery | lib/amadeus-client.ts:108-137 | the pairs appended one by one form exactly `SearchQuery(p)` |
| AmadeusApi.SearchQueryKeys | lib/amadeus-client.ts:108-137 | the query's keys are the four required keys, then each option's key when it is sent, then "max" |
| AmadeusApi.QueryBeginsWithRequired | lib/amadeus-client.ts:108-113 | the query begins with originLocationCode, destinationLocationCode, departureDate, adults |
| AmadeusApi.QueryKeysInOrder | lib/amadeus-client.ts:108-137 | the keys are a subsequence of the fixed key order, so each appears at most once and in that order |
| AmadeusApi.QueryKeyOrderDistinct | lib/amadeus-client.ts:108-137 | the twelve keys of the fixed order are pairwise different |
| AmadeusApi.QueryKeyPresence | lib/amadeus-client.ts:116-137 | returnDate, travelClass and currencyCode are sent iff non-empty; children, infants, nonStop and maxPrice iff given (even 0 or false); max always |
| AmadeusApi.AdultsReadBack | lib/amadeus-client.ts:112 | the fourth pair is "adults", and it parses back as the given count, or 1 when the count is absent or 0 |
| AmadeusApi.MaxReadBack | lib/amadeus-client.ts:137 | the last pair is "max", and it parses back as the given limit, or 50 when absent or 0 |
| AmadeusApi.NumberOrReadBack | lib/amadeus-client.ts:112-137 | a number sent with a fallback parses back as the number, or the fallback |
| Utils.GetIndicatorStyles | lib/utils.ts:9-38 | total over the three statuses; each class is its property prefix (bg-, border-, text-), the status's colour family (emerald, amber, red) and its shade (-100, -500, -700), read back by `ClassFamily`; the symbol reads back as the status |
| Utils.StatusOfSymbol | lib/utils.ts:16-36 | a symbol read back as a status is that status's symbol |
| Utils.StylesInjective | lib/utils.ts:16-36 | different statuses get different symbols and different classes |
| JsString.IndexOf | lib/flight-transformer.ts:26 | the first occurrence, or none exactly when the pattern does not occur |
| JsString.ReplaceFirst | lib/flight-transformer.ts:29-30 | text without the pattern is unchanged |
| JsString.ReplaceFirstAt | lib/flight-transformer.ts:29-30 | the first occurrence is the one that is replaced |
| JsString.Trim | lib/flight-transformer.ts:32 | the result is a slice of the input with only white space on either side of it, and it neither starts nor ends with white space |
| JsString.TrimUntouched | lib/flight-transformer.ts:32 | text without white space at either end is unchanged |
| JsString.TrimTrailingSpace | lib/flight-transformer.ts:32 | one trailing space after text that does not end in white space is removed |
| JsString.Split | lib/flight-transformer.ts:41 | at least one part, and no part contains the separator |
| JsString.JoinSplit | lib/flight-transformer.ts:41 | joining the parts with the separator gives back the input |
| JsString.SplitFirstTwo | lib/flight-transformer.ts:41 | the first two parts are the text before the first separator and the text between the first and second |
| JsString.SplitNoSeparator | lib/flight-transformer.ts:41 | text without the separator is a single part |
| JsString.ParseInt | lib/flight-transformer.ts:269-272 | after the leading white space and an optional `+` or `-`: NaN (None) iff no digit follows; otherwise the value of the longest digit run there, negated after `-` |
| JsString.ParseIntLeadingDigits | lib/flight-transformer.ts:269-272 | a run of digits followed by a non-digit parses as the run's decimal value |
| JsString.IntToString | lib/amadeus-client.ts:112-137 | `String(n)` is never empty |
| JsString.ParseIntOfString | lib/amadeus-client.ts:112-137 | parsing the plain decimal `String(n)` gives back `n`, for every integer |

## Left out

- Strings are UTF-16 code units in the source and sequences of code points in the model. This touches
  the pattern match and `trim` in `formatDuration`, and `split` and `substring(0, 5)` in
  `formatTime`. The two agree on the ASCII dates, times and durations Amadeus sends; a time with
  characters outside the Basic Multilingual Plane would be cut at a different place.
- `parseInt` with a hexadecimal `0x` prefix is not modelled. A value such as "0x1A" is read as 0,
  which takes the default.
- `FlightTransformer.BuildFeatureIndicators`: `allOffers` and `dictionaries` are passed through and
  unused, as in the source. Every rank is the constant "Comparative rank unavailable".
- The price is the opaque value `ParseFloatOf(total)`. Floating-point parsing is not modelled.
- `calculateDuration` (lib/flight-transformer.ts:50-59) parses dates and is never called.
- `formatPrice`, `formatDate` and `cn` (lib/utils.ts:5-7, 40-55) depend on Intl, clsx and
  tailwind-merge.
- Lookups through the JavaScript prototype chain are not modelled, with the key `"__proto__"` as
  one example. Only own entries are looked up, both in the cabin table and in the carrier and
  aircraft dictionaries (lib/flight-transformer.ts:167-168).
- `AmadeusApi.AmadeusClient.constructor` takes the configuration; the `process.env` defaults
  (lib/amadeus-client.ts:46-50) are not modelled.
- The network and JSON are parameters or are left out:
  - `fetch` becomes the `response` parameter, or the request record that is returned;
  - `response.json()` and the error-body text are not modelled;
  - the percent-encoding of `URLSearchParams.toString()` is not modelled;
  - the search response is not modelled: `SearchFlights` stops at the request it would send.
- `searchFlightsPost`, `getAircraftInfo`, `getAirlineInfo` and `getFlightPricing` are not modelled.
  They only forward HTTP calls.
- `Date.now()` is read twice in the source, at lines 58 and 93. The model reads the clock once per
  call, as `now`.
- `testConnection` logs a failure with `console.error` (lib/amadeus-client.ts:289). The log is
  not modelled; only the `false` result is.
- Concurrent token refreshes are not modelled, and neither is the module-level singleton instance.
- `AmadeusApi.AmadeusClient.GetConfigStatus`: `tokenExpiresAt` is the number of milliseconds, not
  the ISO text `new Date(...).toISOString()` that the source builds from it.
- `AmadeusApi.FlightSearchParams.maxPrice` is an integer, while the source allows any number.
  `String(x)` of a fractional number is not modelled.
- `JsString.ParseIntOfString` is stated for the model's `String(n)`, which is plain decimal. All
  five numeric search options (`adults`, `children`, `infants`, `maxPrice`, `maxResults`) are
  integers in the model. JavaScript numbers are doubles, and `String(n)` agrees with the model
  only for |n| < 10^21: from there on it writes an exponent (`String(1e21)` is "1e+21"), so the
  query would carry that text and `parseInt` would read it back as 1. `AmadeusApi.AdultsReadBack`,
  `AmadeusApi.MaxReadBack` and `AmadeusApi.NumberOrReadBack` hold under the same bound.
- Error messages are symbolic (`MissingCredentials`, `TokenRequestFailed(status)`), not the
  source's message texts. The one exception is "Invalid flight offer: missing segments", which is
  kept verbatim.
- `AmadeusApi.QueryKeyPresence` covers the seven optional keys and "max". The four required
  keys are stated by `AmadeusApi.QueryBeginsWithRequired`.
