# Verification of the supplier hub

A Dafny model of the concurrent and the pricing code of the supplier hub, with proofs about every
run and every input. `dafny verify dfyconfig.toml` checks all of it.

## What is modelled

**Traffic-light grouping** (`Grouping*.dfy`). Requests for the same rates share a Redis lock key and
a Redis response key. The protocol is a transition system: the clock in milliseconds, the two keys
with their times to live, and one program counter per process. A label names one atomic step and
what the environment decided in it (time passed, a failed command that was or was not carried out, the
supplier's reply, a crash), so a run is a list of labels and every theorem is about all such lists.
`GroupingService` has the request manager and its storage in the source's own form, as classes whose
methods update shared state while other processes move in between; each operation is a step of the
transition system, and the tail recursion that waits is proved to end by the waiting bound.
`GroupingByKey` puts all keys into one keyspace and projects its runs, key by key, onto runs of the
single-key protocol, so that every bound holds group by group; `GroupingKeys` shows that the key
builders keep the keys apart, and says exactly which queries can share one. `GroupingSharpness` shows
that the bounds cannot be improved. A key is present while the clock is before the time it was set
plus its time to live.

**Fan-outs** (`LocationsProtocol`, `QuoteProtocol`, `RatesProtocol`). The goroutines and channels of
three requests as interleaved steps. Each has an invariant of all its steps, a proof that no reachable
state is stuck, and a measure that every step decreases; so every run is finite and ends with the
channels closed and nobody sending. `LocationsRequest` and `QuoteRequest` carry the steps out on the
fields of request objects, `RatesProtocol.Run` on a state value. There a loop takes *any* step that is
possible, so what their contracts promise holds under every scheduler. `HertzRates` builds the rates
and quote requests on top. `Interleaving` defines merging of ordered senders and proves that a merge
is a permutation.

**Pricing** (`Ota`, `OtaPricing`, `HertzPricing`, `ProfitMaxPricing`, `PricingTheorems`). The loops of
the source are methods proved against specification functions, and the theorems relate two runs:
two configurations of one supplier, or the two suppliers. Amounts are exact reals. Code that the Hertz
and ProfitMax packages have in common word for word (`Price`, `Charges`, `TaxCharge`, extras,
coverage prices) is modelled once, in `OtaPricing`. What each specification function means for the
fields of the messages is stated with the constants of the source, without the names of the model
(`ChargesListed`, `CoveragesListed`, `AvailPricing`, `AvailableOneByOne` and the contracts of the
methods); `Selection` has the ascending positions these statements speak of.

**Booking code lists** (`CodeList`, on `Text`). Printing of repeated codes, and what splitting recovers.

## Where the code and its own descriptions differ

The model follows the code.

- The configuration schema says IncludeCoveragesInRate puts all required coverages into the vehicle
  price. The code also adds the price of coverages the supplier already marks as included in the rate
  (`PricingTheorems.IncludedCoverageRaisesPrice`); `RiseIsRequiredTotal` says when this matters.
- It says FpPaynowVehiclePriceWithTax adds the tax to the vehicle price of full-prepay deals. The code
  does so only when there are no payment rules.
- It says for ProfitMax, too, that FpPayFeesLocally decides how fees are paid. The ProfitMax code
  uses it for the tax item only (`PricingTheorems.ProfitMaxRefinesHertz` gives the exact consequence).
- The lock is not what its name suggests: a release deletes it whoever holds it, a failed SETNX goes
  ahead, and the response is not fetched again after the lock is won. `GroupingWitnesses` has a run in
  which mutual exclusion is lost by an expiry, by a foreign release after one, and by a SETNX error,
  and one in which a second supplier call is started by a stale miss and by a fetch error.
- Pieces are joined into a cache key without escaping colons: `GroupingKeys.ColonsCollide` gives, for
  every ambiguous query, another one with the same key.

## Model

| member | source | states |
|---|---|---|
| GroupingSafety.BoundedWaiting | internal/trafficlight/grouping/requesst_manager.go:79-131 | In every run, among N requests for one key each makes at most 150 * (N - 1) failed SETNX polls, whatever commands fail or keys expire |
| GroupingSafety.PollsPerTenure | internal/trafficlight/grouping/storage.go:27-31 | Every past tenure of the lock costs a process at most 150 polls, the running one at most those that fit between its beginning and the process's last poll |
| GroupingSafety.PollsAreSpaced | internal/trafficlight/grouping/requesst_manager.go:128-130 | A process that has polled in vain is not ready for another poll before the interval has passed |
| GroupingSafety.PollsApart | internal/trafficlight/grouping/requesst_manager.go:128-130 | In every run two failed polls of one process are at least 400 ms apart |
| GroupingSafety.StartersLeave | internal/trafficlight/grouping/requesst_manager.go:122-126 | A process is let through SETNX at most once, so the lock has at most as many tenures as processes have been let through |
| GroupingSafety.BoundedConcurrency | internal/trafficlight/grouping/requesst_manager.go:45-77 | In every run the processes inside requestSupplierAndStore before their release are at most 1 for a present lock, plus the lock expiries, plus the SETNX errors so far |
| GroupingSafety.MutualExclusion | internal/trafficlight/grouping/requesst_manager.go:122-126 | Without expiry and SETNX error there is at most one such process, and the lock is there while it is |
| GroupingWitnesses.ExclusionLostByError | internal/trafficlight/grouping/requesst_manager.go:122-126 | A run with one SETNX error and no expiry in which two processes are inside |
| GroupingWitnesses.ExclusionLostByExpiry | internal/trafficlight/grouping/storage.go:27-35 | A run with one expiry and no SETNX error in which two processes are inside |
| GroupingWitnesses.ExclusionLostByForeignRelease | internal/trafficlight/grouping/storage.go:33-35 | A run in which a process whose lock expired deletes the unexpired lock of the next owner, and a third process gets in beside that owner |
| GroupingSharpness.WaitingIsSharp | internal/trafficlight/grouping/requesst_manager.go:79-131 | For every N there is a run of N requests in which one polls in vain exactly 150 * (N - 1) times |
| GroupingSharpness.ConcurrencyIsSharp | internal/trafficlight/grouping/requesst_manager.go:122-126 | For any number of expiries and of SETNX errors there is a run that meets the concurrency bound |
| GroupingCache.NearSingleFlight | internal/trafficlight/grouping/requesst_manager.go:86-130 | Over any segment in which the response key stays present and no fetch fails, the supplier calls that start, plus the misses still pending, are at most the misses pending at its beginning |
| GroupingCache.WarmFetchHits | internal/trafficlight/grouping/requesst_manager.go:102-119 | Every fetch in such a segment ends its process with the cached response, marked as a hit |
| GroupingWitnesses.SecondCallForAStaleMiss | internal/trafficlight/grouping/requesst_manager.go:122-126 | A run without errors and expiries in which a second call starts while the answer is in the cache |
| GroupingWitnesses.SecondCallByFetchError | internal/trafficlight/grouping/requesst_manager.go:92-100 | A run without SETNX error and expiry in which a fetch error starts a second call beside the owner of the lock |
| GroupingSharpness.NearSingleFlightIsSharp | internal/trafficlight/grouping/requesst_manager.go:122-126 | For every N a reachable state with the answer in the cache from which N pending misses start N calls, without errors and expiries |
| GroupingCache.CacheProvenance | internal/trafficlight/grouping/requesst_manager.go:60-74 | The response key holds an error-free answer that a process let through SETNX received and stored later in the run, with expiry 10 minutes after the store, or 1 minute for a non-2xx, unparsable or error-carrying one |
| GroupingCache.BoundedStaleness | internal/trafficlight/grouping/requesst_manager.go:102-119 | A hit is such an answer, code and body unchanged and with the header x-trafficlight-grouping-hit set, stored less than 10 minutes before the fetch when its code is 200 to 299 and it parses without errors, else less than 1 minute |
| GroupingService.Storage.AcquireLock | internal/trafficlight/grouping/storage.go:27-31 | SETNX with a TTL of 1 minute: wins exactly when the key is absent; on an error the key may or may not have been written |
| GroupingService.Storage.ReleaseLock | internal/trafficlight/grouping/storage.go:33-35 | DEL of the lock key, whoever set it, or nothing when it fails |
| GroupingService.Storage.StoreResponse | internal/trafficlight/grouping/storage.go:37-53 | SET of the response with its duration, or nothing when it fails |
| GroupingService.Storage.FetchResponse | internal/trafficlight/grouping/storage.go:55-83 | An error, or the stored response, or nothing when the key is absent |
| GroupingService.RequestManager.RequestSupplierAndStore | internal/trafficlight/grouping/requesst_manager.go:41-77 | With interference between its operations, its result is this process's own supplier reply; a successful one is stored between the reply and the release, unless the SET fails, for 10 minutes when its code is 200 to 299 and it parses without errors, else for 1 minute; the release is the last step, on the error path too |
| GroupingService.RequestManager.Fetch | internal/trafficlight/grouping/requesst_manager.go:86-120 | A hit is an answer that some process received and stored earlier in the run, plus the hit header |
| GroupingService.RequestManager.TryLock | internal/trafficlight/grouping/requesst_manager.go:122-128 | The process goes on to the supplier when it wins and when Redis fails; otherwise it has made one more failed poll and sleeps |
| GroupingService.RequestManager.RequestOrWait | internal/trafficlight/grouping/requesst_manager.go:79-131 | With any interference the waiting recursion ends, with at most 150 * (N - 1) failed polls; a cached result was answered and stored before, any other response is this process's own reply |
| GroupingKeys.KeysAreSeparate | internal/platform/implementations/hertz/hertz.go:30-62 | No response key is a lock key, response keys are as different as lock keys, and keys of different platforms never meet |
| GroupingKeys.KeyBeginning | internal/platform/implementations/profitmaxdht/profitmax.go:39-55 | Every key begins with its group name and its platform, whatever the lower-casing does to the rest |
| GroupingKeys.KeyDeterminesPieces | internal/platform/implementations/bookingcom/bookingcom.go:34-45 | When no piece of a query holds a colon, exactly the queries with its lower-cased pieces share its key, and splitting the key gives these pieces |
| GroupingKeys.HertzKeyFields | internal/platform/implementations/hertz/hertz.go:39-61 | The pieces of a Hertz key in their order; without colons two queries share it exactly when trip and all configuration fields agree, lower-cased |
| GroupingKeys.ProfitMaxKeyFields | internal/platform/implementations/profitmaxdht/profitmax.go:39-55 | The same for ProfitMax, whose key ends in six empty pieces |
| GroupingKeys.BookingComKeyFields | internal/platform/implementations/bookingcom/bookingcom.go:34-45 | The same for Booking.com |
| GroupingKeys.KeyIsExact | internal/platform/implementations/bookingcom/bookingcom.go:28-45 | For every query with a printed date and duration: all queries that share its key have its lower-cased pieces, if and only if no piece holds a colon, or only the Booking.com supplier name does and no date and duration can be read out of it |
| GroupingKeys.ColonsCollide | internal/platform/implementations/hertz/hertz.go:36-61 | Every other query shares its key with a query that has other pieces |
| GroupingByKey.OwnStep | internal/trafficlight/grouping/requesst_manager.go:86-86 | A step under a key in the shared keyspace, and the passing of time, is the same step of the single-key protocol |
| GroupingByKey.ForeignStep | internal/trafficlight/grouping/storage.go:27-53 | A step under another key is invisible through this key |
| GroupingByKey.RunProjects | internal/trafficlight/grouping/requesst_manager.go:79-131 | A run over many keys projects, key by key, onto runs of the single-key protocol |
| GroupingByKey.WaitingPerKey | internal/trafficlight/grouping/requesst_manager.go:79-131 | The waiting bound counts only the requests for the same key, whatever the other groups do and left in Redis before |
| GroupingByKey.ConcurrencyPerKey | internal/trafficlight/grouping/requesst_manager.go:45-77 | The concurrency bound counts only the lock, the expiries and the SETNX errors of the same key |
| GroupingByKey.ExclusionPerKey | internal/trafficlight/grouping/requesst_manager.go:122-126 | Two processes of one group are inside together only after an expiry or a SETNX error of that group |
| GroupingByKey.NearSingleFlightPerKey | internal/trafficlight/grouping/requesst_manager.go:86-130 | While the response of one key stays in the shared keyspace and no fetch of its group fails, the group's calls are paid for by its pending misses |
| GroupingByKey.BoundedStalenessPerKey | internal/trafficlight/grouping/requesst_manager.go:102-119 | A hit in the shared run is an answer that a request for the same key received and stored earlier in it, within 10 minutes, or 1 minute for a bad one |
| Schema.ErrorsBucket.AddErrors | internal/schema/error.go:18-22 | Appends the errors in order |
| Schema.ErrorsBucket.AddError | internal/schema/error.go:24-28 | Appends one error |
| LocationsProtocol.InvStep | internal/platform/implementations/anyrent/locations.go:145-175 | Every step keeps: what each worker delivered and still has to send makes up its page, and finished plus the buffered done value counts the workers that are through |
| LocationsProtocol.LoopEndsComplete | internal/platform/implementations/anyrent/locations.go:105-131 | When the select loop ends every worker has made its last send, so nothing can be sent on the closed channels; locations and errors are interleavings of the pages' that keep each page's order |
| LocationsProtocol.NeverStuck | internal/platform/implementations/anyrent/locations.go:105-131 | Until the channels are closed some step is always possible, although the done channel holds one value |
| LocationsProtocol.MeasureDecreases | internal/platform/implementations/anyrent/locations.go:118-131 | Every step decreases the sends, receives and closes still to come |
| LocationsProtocol.RunsEndClosed | internal/platform/implementations/anyrent/locations.go:102-133 | In every run: no more steps than the work there is, no stuck state before the channels are closed, and once they are every worker has made its last send and no step is possible |
| LocationsRequest.Request.FetchRestOfPages | internal/platform/implementations/anyrent/locations.go:102-133 | Under any scheduler the fan-in ends with all workers through, having appended interleavings of the pages' locations and errors |
| LocationsRequest.Request.Execute | internal/platform/implementations/anyrent/locations.go:30-143 | Case by case of the authorization (a failed request, an unreadable body, an error message, a token that cannot be stored, a token) and of the first page; after a good first page either no error and the first page followed by an interleaving of the others, or an interleaving of the pages' errors and no location |
| LocationsRequest.PartsOfPages | internal/platform/implementations/anyrent/locations.go:145-175 | What each page contributes: all its locations, or those before a broken one and one error, or one error alone |
| LocationsRequest.ErrorsCountFailedPages | internal/platform/implementations/anyrent/locations.go:135-140 | The error list then holds exactly one error per failed page, each with the message of a failed page, and is empty exactly when no page failed |
| LocationsRequest.AllLocationsArrive | internal/platform/implementations/anyrent/locations.go:102-133 | The collected locations are, as a multiset, all locations of the pages |
| Interleaving.MergesPermutes | internal/platform/implementations/anyrent/locations.go:120-131 | An interleaving of ordered senders is a permutation of everything they send |
| QuoteProtocol.InvStep | internal/platform/implementations/hertz/quote.go:254-315 | Every step keeps: the WaitGroup counts the spawned goroutines that have not sent, the queued items, and the item each collector holds before its Done; each queue with its collector holds what was sent, in order |
| QuoteProtocol.CounterIsNeverNegative | internal/platform/implementations/hertz/quote.go:303-317 | The WaitGroup counter never goes below zero |
| QuoteProtocol.ReturnedIsComplete | internal/platform/implementations/hertz/quote.go:317-324 | After the closes every goroutine has sent, both queues are drained, and vehicles and errors are interleavings of the attempts' results |
| QuoteProtocol.NeverStuck | internal/platform/implementations/hertz/quote.go:254-317 | Before the return some step is always possible, although the error queue holds one item |
| QuoteProtocol.MeasureDecreases | internal/platform/implementations/hertz/quote.go:254-322 | Every step decreases the spawns, starts, sends, receives, appends and Dones still to come |
| QuoteProtocol.RunsEndClosed | internal/platform/implementations/hertz/quote.go:252-326 | In every run: at most five steps per vehicle and three more, the counter never negative, at most one queued error, no stuck state before the queues are closed, and once they are every goroutine has sent and no step is possible |
| QuoteProtocol.NothingLostNothingAdded | internal/platform/implementations/hertz/quote.go:252-326 | Vehicles and new errors together are as many as the vehicles asked for; the vehicles are a permutation of the successful parses, the errors of the failures |
| QuoteRequest.Request.Execute | internal/platform/implementations/hertz/quote.go:211-327 | Under any scheduler the request ends, with the rates errors followed by an interleaving of the failures, an interleaving of the parsed vehicles, drained closed queues and a zero counter |
| RatesProtocol.Run | internal/platform/implementations/hertz/rates.go:227-268 | Under any scheduler both outcomes are received and the request ends |
| RatesProtocol.NeverStuck | internal/platform/implementations/hertz/rates.go:297-350 | Some step is always possible until the channels are closed |
| RatesProtocol.RunsEndClosed | internal/platform/implementations/hertz/rates.go:391-436 | In every run the request returns only after both goroutines made their single send, so no send meets a closed channel, and with their two outcomes; at most five steps, exactly five when the channels are closed, no stuck state before and no step after |
| HertzRates.RatesRequest.Execute | internal/platform/implementations/hertz/rates.go:356-463 | The extras error comes first; without rates there is the rates error and no vehicle; with rates the vehicles and errors of the available vehicles in order, even without extras; the equipment lines of every vehicle are exactly the delivered items, in order |
| HertzRates.OneResultEach | internal/platform/implementations/hertz/rates.go:444-456 | Each available vehicle yields exactly one vehicle or one error |
| HertzRates.AvailableOneByOne | internal/platform/implementations/hertz/rates.go:444-456 | The vehicles come, in order, from the vehicles of status "Available" that can be priced, the errors from those that cannot, with the reason as a supplier error |
| HertzRates.QuoteVehicles | internal/platform/implementations/hertz/quote.go:211-326 | Each call contributes one vehicle or one error, case by case of its own answer: the connection error for a panic, the request error, the error for an unreadable body, the supplier's message, or the priced reservation; as many vehicles come back as calls were answered by a reservation that can be priced |
| HertzRates.GetRates | internal/platform/implementations/hertz/hertz.go:64-95 | Rates alone without a booking or without vehicles; otherwise the quotes of exactly these vehicles |
| HertzRates.QuotesConfirmRates | internal/platform/implementations/hertz/quote.go:102-187 | When every reservation carries the data of the rates vehicle it was asked for, the quote gives the same vehicles in some order, prices and line items included, and no new error |
| OtaPricing.Price | internal/platform/implementations/hertz/ota/vehavailraters.go:185-217 | There is a price exactly when the amount and currency the payment type looks at are present, it is that amount, and each error has its message |
| OtaPricing.Charges | internal/platform/implementations/hertz/ota/vehavailraters.go:239-273 | The loop and the list of printed purposes compute the lines of exactly the charges for purposes 2, 8 and 23 |
| OtaPricing.ChargesListed | internal/platform/implementations/hertz/ota/vehavailraters.go:239-273 | One line per charge of purpose 2, 8 or 23, in order, with its text, amount and flags; additional distance is optional and never part of the rate |
| OtaPricing.TaxCharge | internal/platform/implementations/hertz/ota/vehavailraters.go:275-320 | Over the "Tax" entries of rental-fee charges, by their position: the first decides for partial prepay and full prepay without rules, else the last; the multiplier is 1 plus its percentage, the item states its total; 1 and no item when there is none; never both a tax item and tax in the price |
| OtaPricing.CoveragePrice | internal/platform/implementations/hertz/ota/vehavailraters.go:442-467 | The stated amount, else the first calculation per day (times the rental days) or per rental period, else none |
| HertzPricing.ExtrasOf | internal/platform/implementations/hertz/rates.go:128-141 | One optional equipment line per item, in order, its amount times the tax multiplier |
| HertzPricing.Fees | internal/platform/implementations/hertz/ota/vehavailraters.go:85-168 | One mandatory line per fee, in order; whether it is in the rate, paid now or paid locally follows from the payment type, the locally payable fees by upper-case name and country, the prepay rule and FpPayFeesLocally |
| HertzPricing.VehicleCoverages | internal/platform/implementations/hertz/ota/vehavailraters.go:412-507 | The loop computes the lines of the coverages; the amount moved into the vehicle price is the total of the emitted mandatory lines, or zero when the setting is off |
| HertzPricing.CoveragesListed | internal/platform/implementations/hertz/ota/vehavailraters.go:412-547 | One line per coverage with a price, in order: taxed when it is not tax-inclusive and either listed for tax or optional outside the excluded countries, and with the flags its settings, payment type and rule ask for |
| HertzPricing.ParseVehicle | internal/platform/implementations/hertz/rates.go:143-218 | Price and line items of a rates vehicle are the closed form, or its error |
| HertzPricing.AvailPricing | internal/platform/implementations/hertz/rates.go:143-218 | Name, code and currency are those of the message; the amount is the base, times the tax when it is part of the price, plus the coverages moved into it; then come the tax item, extras, charges, fees, coverages |
| HertzPricing.ParseQuote | internal/platform/implementations/hertz/quote.go:102-187 | Price and line items of a reservation are the closed form of its own fields, or its error |
| HertzPricing.ReservationPricing | internal/platform/implementations/hertz/quote.go:102-187 | The same for the fields of a reservation |
| ProfitMaxPricing.Fees | internal/platform/implementations/profitmaxdht/ota/vehavailraters.go:119-161 | One mandatory line per fee: in the rate under the prepay rule, or as stated under partial prepay; never paid locally under full prepay |
| ProfitMaxPricing.VehicleCoverages | internal/platform/implementations/profitmaxdht/ota/vehavailraters.go:405-490 | The loop computes the lines of the coverages; the amount moved into the vehicle price is the total of the mandatory lines |
| ProfitMaxPricing.CoveragesListed | internal/platform/implementations/profitmaxdht/ota/vehavailraters.go:405-527 | One line per coverage with a price, in order, taxed unless tax-inclusive, in the rate exactly when it is mandatory |
| ProfitMaxPricing.ParseVehicle | internal/platform/implementations/profitmaxdht/rates.go:115-189 | Price and line items are the ProfitMax closed form, or its error |
| ProfitMaxPricing.AvailPricing | internal/platform/implementations/profitmaxdht/rates.go:115-189 | Name, code and currency of the message; the amount is the base, times the tax when it is part of the price, plus all mandatory coverages; the line items in the same order |
| PricingTheorems.PricedExactlyWhen | internal/platform/implementations/hertz/ota/vehavailraters.go:185-217 | A vehicle is priced exactly when the amount its payment type looks at is nonzero and its currency named; no configuration changes that |
| PricingTheorems.TaxToggle | internal/platform/implementations/hertz/ota/vehavailraters.go:275-320 | Turning on FpPaynowVehiclePriceWithTax changes nothing, unless payment is full prepay without rules and there is a "Tax" entry of p percent: then the leading tax item goes, base + S becomes base * (100 + p) / 100 + S, all other line items stay |
| PricingTheorems.CoverageToggle | internal/platform/implementations/hertz/ota/vehavailraters.go:412-507 | Turning on IncludeCoveragesInRate raises the price by exactly the taxed prices of the emitted mandatory coverages and changes only their inclusion flags |
| PricingTheorems.RiseIsRequiredTotal | internal/schema/gen_schema.go:590-591 | The rise is the total of the required coverages plus that of the others marked as included in the rate; it is the first alone, as the setting is described, if and only if the second is 0 |
| PricingTheorems.IncludedCoverageRaisesPrice | internal/platform/implementations/hertz/ota/vehavailraters.go:489-493 | An offer without any required coverage whose price the setting raises |
| PricingTheorems.UnpricedCoveragesVanish | internal/platform/implementations/hertz/ota/vehavailraters.go:469-471 | Leaving out unpriced coverages beforehand gives the same lines, one per remaining coverage, in order |
| PricingTheorems.CoveragesAgree | internal/platform/implementations/profitmaxdht/ota/vehavailraters.go:466-476 | ProfitMax coverage lines are the Hertz ones under the translated settings |
| PricingTheorems.ProfitMaxRefinesHertz | internal/platform/implementations/profitmaxdht/ota/vehavailraters.go:86-527 | ProfitMax pricing equals Hertz pricing under the translated settings, price and all line items, if and only if there is no price, or FpPayFeesLocally is off, or payment is not full prepay without rules, or there are no fees; price, tax and coverages agree always |
| CodeList.RequestBody | internal/platform/implementations/anyrent/booking.go:128-167 | The loop prints the extra and the other codes, each repeated by its quantity, and trims the trailing comma |
| CodeList.CodesGrow | internal/platform/implementations/anyrent/booking.go:139-157 | One more item adds its code as often as its quantity says, once without one, to its own list only |
| CodeList.RoundTrip | internal/platform/implementations/anyrent/booking.go:159-167 | Splitting the field gives back the codes if and only if none holds a comma and the last one is not empty unless it is the only one; the field is absent exactly when there is no code |
| CodeList.BookingRoundTrip | internal/platform/implementations/anyrent/booking.go:139-167 | With nonempty comma-free codes the receiver recovers them in order and number, and the field is absent exactly when the total quantity is 0 |

## Left out

- HTTP clients, middleware and routing, logging, request history, generated code, JSON, XML and compression: encoding a response and decoding it again is taken to give the same response, and a body is seen through the attempt to parse it.
- Redis beyond atomic GET, SET, SETNX and DEL with a time to live: no eviction, failover or replication, and no retry inside the client library (a retried SETNX could report its own lock as taken).
- Floating-point rounding and the two-decimal printing of amounts: amounts are exact reals.
- FeeIncludedType: upper-cases ASCII letters of the fee description only, where the source upper-cases all of Unicode.
- CacheKey: lower-casing is any character-wise function that is right on ASCII and makes nothing but a colon into a colon; lower-casings of one character to several are not covered. Any duration is taken to go with any date, also at the ends of the years 0000 and 9999.
- CodeList.RequestBody: asks for quantities that are not negative, since strings.Repeat panics on others; the other fields of the booking request are not modelled.
- QuoteProtocol.InvStep: a goroutine makes one send; a panic after that send, in a deferred log call, is not modelled.
- The token request of AnyRent beyond what it returns to the locations request, and the construction of a location from a station.
- The ProfitMax rates request around its vehicle pricing: one goroutine and the same loop, with each vehicle's own extras.
- Descriptive vehicle fields (doors, transmission, mileage, references): copied or mapped value by value.
- The Rently and Booking.com mappers, bookings, cancellations, and the transliteration table: straight-line code.
