# Payment ledger of the service-job records

A model of the record handlers of a small billing service. A record stores a
customer's job: ten billing fields (name, phone, address, note, hours, minutes,
hourly rate, total amount, labour count, job date). It also stores an ordered
ledger of payments (`totalPayments`), two soft-delete flags (`status`,
`deleteflag`) and the store's `createdAt`/`updatedAt` timestamps.

The handlers modelled are these:

- `createRecord` builds a record whose ledger holds one entry.
- `addPayment` appends a payment after a two-stage overpayment check: "already fully paid", then "exceeds the remaining amount".
- `updateRecord` applies the same check only to a non-zero `totalPaid`, and then overwrites every billing field.
- `deleteRecord` flips the two flags.
- `getAll` lists the active records with the most recently updated first.

Modules:

- `Wrappers`: option and result values.
- `Ledger`: payment entries, the ledger total, and the `reduce` fold the handlers use to compute it.
- `Rules`: the overpayment check (`Validate`).
- `Records`: the record as a value (`RecordState`), the new value each handler produces (`Created`, `Pay`, `Update`, `SoftDeleted`), the lemmas about them, and the stored document as a class (`Record`) whose fields the handlers change in place.
- `Controller`: the handlers as methods over the loaded document. A `null` document means the identifier did not resolve. The listing sorts an array in place.

Amounts are whole currency units (`int`). The clock (`Date.now()`) is the
parameter `now`. The payment date `date || Date.now()` keeps the request's date
unless it is absent or falsy (a zero timestamp).

## Behaviour of the code where a stricter ledger design would differ

- Creating a record performs no overpayment check. It always stores exactly one entry, even a zero one or one above the total (`CreateSkipsCheck`).
- An update checks its payment against the stored total and then overwrites that total. An accepted update can therefore leave the ledger above the new total (`UpdateCanLeaveOverpaid`). So "paid ≤ total" is guaranteed only right after an accepted payment (`Pay`, `PayAllKeepsBound`). It is not an invariant of every stored record.
- Once a record is fully paid, a further payment is refused as "already fully paid", which carries no remaining amount. The "exceeds remaining" refusal always reports a remaining amount greater than zero (`FullPaymentScenario`, `Validate`).
- Amounts are not checked for sign. A negative payment passes the check whenever the record is not yet fully paid.
- A soft-deleted record can still be updated or paid. The handlers look records up by identifier and never consult the flags.
- The listing orders by `updatedAt` alone. The comment at controller/Record.controller.js:257 mentions `createdAt`, but no `createdAt` tie-break exists.
- No payment status (pending/paid) is computed or stored by the handlers.

## Model

| member | source | states |
|---|---|---|
| `Ledger.ReduceIsTotal` | controller/Record.controller.js:188-191 | `Ledger.Reduce`, the `reduce` fold of lines 90-93 and 188-191, started at any accumulator yields that accumulator plus the sum of all ledger amounts (so from 0, the ledger total) |
| `Ledger.TotalAppend` | controller/Record.controller.js:224-228 | pushing one entry raises the ledger total by exactly its amount |
| `Rules.Validate` | controller/Record.controller.js:193-221 | a payment is accepted iff paid < total and paid + amount ≤ total; "already paid" iff paid ≥ total; an "exceeds remaining" refusal carries total − paid, which is positive and below the amount |
| `Records.Created` | controller/Record.controller.js:18-39 | a new record holds the given billing fields and a ledger of exactly one entry for totalPaid, so its paid total is totalPaid; the entry's date is `now` when the request's date is absent or zero and the request's date otherwise; its mode is "cash" when absent and the sent mode otherwise; status true and deleteflag false (an assumption, see Left out) |
| `Records.Pay` | controller/Record.controller.js:171-228 | add-payment succeeds iff paid < total and paid + amount ≤ total; a refusal is the check's verdict; a success appends one entry at the end (date `now` when the request's is absent or zero; mode stored as sent, with no cash default), changes nothing else but `updatedAt`, and leaves paid = old paid + amount ≤ total |
| `Records.Update` | controller/Record.controller.js:89-143 | with totalPaid = 0 the result is always a success that only overwrites the billing fields; otherwise the check runs against the stored total, a refusal changes nothing, and a success appends one entry (date `now` when the request's is absent or zero; mode "cash" when absent) and overwrites all ten billing fields; the ledger only grows |
| `Records.SoftDeleted` | controller/Record.controller.js:281-285 | deletion sets status false and deleteflag true, so the record is no longer listed; billing fields, ledger and `createdAt` are kept; `updatedAt` becomes the time of the save |
| `Records.PayWhenFullyPaid` | controller/Record.controller.js:194-205 | when paid ≥ total, every payment, a zero one included, is refused as already paid |
| `Records.PayBoundary` | controller/Record.controller.js:207-221 | a payment equal to the remaining amount is accepted and brings paid to the total; one unit more is refused reporting the remaining amount |
| `Records.PayAllKeepsBound` | controller/Record.controller.js:208-228 | any run of add-payment requests (each with its own amount, mode, date and clock reading) on a record with paid ≤ total keeps paid ≤ total, keeps the billing fields and only appends to the ledger |
| `Records.UpdateSharesPayRule` | controller/Record.controller.js:96-131 | an update with non-zero totalPaid is refused exactly when add-payment of that amount would be, with the same verdict |
| `Records.UpdateCanLeaveOverpaid` | controller/Record.controller.js:96-143 | for every record with paid ≤ total, an update without a payment that lowers totalAmount below the paid total is accepted and leaves paid above the new total |
| `Records.CreateSkipsCheck` | controller/Record.controller.js:21-39 | creation stores an initial payment larger than the total |
| `Records.SoftDeleteIdempotent` | controller/Record.controller.js:281-285 | deleting twice gives the same record as deleting once, up to the last save time |
| `Records.FullPaymentScenario` | controller/Record.controller.js:188-228 | total 1000 with 300 paid at creation: paying 700 reaches 1000; a further payment of 1 is refused as already paid |
| `Records.Record.constructor` | controller/Record.controller.js:21-41 | the saved new document equals `Created` of the request |
| `Records.Record.Push` | controller/Record.controller.js:224-228 | push appends the entry at the end of the ledger and changes nothing else |
| `Records.Record.Assign` | controller/Record.controller.js:134-143 | the ten billing fields take the request's values; ledger, flags and timestamps are kept |
| `Records.Record.Save` | controller/Record.controller.js:230 | saving refreshes `updatedAt` and nothing else |
| `Controller.AddPayment` | controller/Record.controller.js:168-250 | a missing record answers NotFound; otherwise the document becomes `Pay` of its old value on success, and on refusal it is unchanged and the answer carries the verdict |
| `Controller.UpdateRecord` | controller/Record.controller.js:57-165 | a missing record answers NotFound; otherwise the document becomes `Update` of its old value on success, and is left entirely unchanged (billing fields included) on refusal |
| `Controller.DeleteRecord` | controller/Record.controller.js:278-299 | the answer is the looked-up document (none when missing, not an error); a found one becomes `SoftDeleted` of its old value |
| `Controller.Active` | controller/Record.controller.js:256 | the query keeps every active, undeleted record as often as the store holds it, and no other |
| `Controller.SortNewestFirst` | controller/Record.controller.js:259-261 | the array is rearranged (same multiset) into non-increasing `updatedAt` order |
| `Controller.GetAll` | controller/Record.controller.js:254-275 | the listing is a permutation of the active, undeleted records, newest update first; a record is listed iff it is stored with status true and deleteflag false |
| `Controller.NewestHeadsListing` | controller/Record.controller.js:259-261 | a record saved strictly later than every other listed record comes first |

## Left out

- HTTP transport, route wiring (index.js, routes/Record.router.js), response envelopes, status codes, the English/Hindi messages and the catch-all 500 handlers: not logic of the ledger. Failures are a datatype (`NotFound`, `Overpayment` with the check's verdict).
- Persistence: `findById` and `findByIdAndUpdate` are modelled as the document they return (`null` when missing); `save` is modelled as refreshing `updatedAt`. The store's skipping of a save with no modified field is not modelled.
- Schema validation and casting (required fields, `Number` coercion) and the schema's default for `date`: a save that fails validation answers 500 in the source, and the model takes every request field as given.
- The schema in models/Record.model.js does not declare `totalPayments`, `status` or `deleteflag`, and `createRecord` never sets the two flags; in mongoose's default strict mode such undeclared paths are dropped on save. The model follows the handlers, which read and write these paths, and its `status: true` / `deleteflag: false` for a new record (`Records.Created`, `Records.Record.constructor`) is an assumption about a schema revision that declares them with those defaults, not something the handlers do.
- The schema's `paymentStatus` and `totalPaid` fields: the handlers never compute or write them.
- JavaScript number semantics (floating point, string concatenation on a non-numeric body field, `undefined` amounts): amounts are unbounded integers.
- Concurrency: two requests that read the same ledger and both pass the check are outside this sequential model.
- The "Delete Payment" placeholder (controller/Record.controller.js:301) has no handler to model.
- Controller.SortNewestFirst: does not state that records with equal `updatedAt` keep the store's order (JavaScript's sort is stable), only sortedness and permutation.
- Controller.GetAll: works on the value snapshots the query returns rather than on live documents.
