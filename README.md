# UFA chaincode: a verified model

A Dafny model of the Hyperledger Fabric chaincode that keeps "Upfront
Agreements" (UFAs). A UFA is a charge contract between a buyer and a seller,
with a net charge and a tolerance percentage. The chaincode also reconciles
customer and vendor invoices against it. All of its state lives in the
ledger's key-value world state, as JSON text:

- the agreement's primary record is stored under its number N;
- the master index of every number created is stored under `ALL_RECS`;
- the audit ledger of N holds the raw payloads of its create and updates, under `UFA_TRXN_HISTORY_`+N;
- the invoice index of N is stored under `UFA_INVOICE_PREFIX_`+N.

Modules, leaves first:

- `Wrappers`: `Option`.
- `JsonCodec`: the decoders and encoders the chaincode uses. They are an
  abstract `Codec`, and `Lawful` states the encoding/json facts the proofs need:
  - marshal/unmarshal round trips;
  - a JSON object never decodes as a `[]string`;
  - `null` decodes as an empty `[]string`;
  - the empty list is written `[]`.
- `Numbers`: decimal `ParseFloat` over exact rationals, and `validateNumber`
  with its fail-closed sentinel -1.
- `Validation`: `validateNewUFA`, the role, net-charge and tolerance rules. The
  tolerance field key is spelled `chargTolrence`, as in the chaincode.
- `Reconciliation`: the ordered, short-circuiting checks of
  `validateInvoiceDetails`, as a pure function of what was read.
- `UFAChainCode`: `updateRecord`, and the class `Ledger`. Its field
  `state: map<string, string>` is the world state. Its methods are the
  chaincode's read-modify-write operations. Each one states the whole new
  state and that no other key changes. The read-only queries loop as the
  chaincode does and are proved against specification functions.

Behaviour taken from the code where it departs from the intended design:

- An unset or undecodable agreement is not "Invalid UFA provided". That message
  comes only from a failed ledger read (`InvalidOnlyOnReadError`). Otherwise
  the agreement reads as an empty record whose numbers are all -1
  (`MissingAgreementAccepted`).
- `createUFA` does not check whether the number already exists. Creating it
  again overwrites the record and appends the number to the master index a
  second time.
- `createUFA` ignores a failed master-index append. The record and the audit
  ledger are still written.
- Agreement numbers share one key space with `ALL_RECS` and the
  `UFA_TRXN_HISTORY_` keys. So createUFA or updateUFA with such a number
  overwrites the master index or another agreement's audit ledger. After
  createUFA the overwritten list no longer decodes; updateUFA with `{}` on a
  history key stores JSON `null` there, which reads as the empty list.
- `Init` resets the master index to `[]` every time it runs.
- `updateUFA` re-validates nothing. On an unset or non-object record it panics when the
  update has fields. When the update is empty it stores JSON `null`.
- Nothing in the chaincode writes a `UFA_INVOICE_PREFIX_` key with a list:
  the only writes are the agreement record, `ALL_RECS` and the audit ledger.
  So every invoice index is unset, undecodable or empty in any store that
  starts empty and changes only through `createUFA`, `updateUFA` and `Init`
  (`NoInvoicesIndexed`, kept by each of them). `checkInvoicesRaised` is then
  always false, and the "Invoice all already raised" line cannot be produced
  (`DuplicatePeriodUnreachable`). `DuplicatePeriodRejected` and the duplicate
  half of `ScenarioWithinTolerance` describe a store that some other writer
  has filled.

## Model

| member | source | states |
|---|---|---|
| `Numbers.ParseFloat` | ufatool.go:238 | No empty text parses. A run of digits parses to its decimal value. A negative result needs a leading minus sign. |
| `Numbers.ParseDecimalRoundTrip` | ufatool.go:238 | Parsing the decimal text of any whole number, with or without a minus sign, gives that number back. |
| `Numbers.ValidateNumber` | ufatool.go:237-242 | Gives the parsed value when the text parses, and the sentinel -1 when it does not. |
| `Validation.ValidateNewUFA` | ufatool.go:208-234 | A role other than SELLER or BUYER gives exactly the not-authorized line, and no numeric check runs. For SELLER or BUYER: the message is empty iff netCharge > 0 and 0 < tolerance <= 10. When both fail, the net-charge line comes before the tolerance line; each single failure gives its own line alone. An accepted payload is a JSON object. |
| `Validation.UnparseableRejected` | ufatool.go:218-227 | A net charge or tolerance that does not parse always gives a non-empty message. |
| `Validation.ToleranceBoundaries` | ufatool.go:224-227 | With any net charge that parses to a positive value, tolerance "10" is accepted; "0" and "10.5" give exactly the tolerance line. |
| `Reconciliation.ReconcileDecision` | ufatool.go:43-72 | The missing-invoice line iff fewer than 2 invoices. The invalid-UFA line iff at least 2 invoices and the read failed. After that, in order: the duplicate-period line for the first invoice's period iff the period was raised; the unequal-amount line iff not raised and the first two amounts differ; the exceeded line iff the amounts are equal and netCharge + netCharge*tol/100 < invAmt1 + raisedInvTotal; empty iff none of these. |
| `Reconciliation.AtMostOneViolation` | ufatool.go:43-72 | The message is empty or exactly one of the five message lines. |
| `Reconciliation.OnlyFirstPairConsulted` | ufatool.go:63-65 | Invoices after the second never change the message. |
| `Reconciliation.UnequalAmountsEitherOrder` | ufatool.go:68-69 | With the read successful and the billing period not yet raised for either order's first invoice, two invoices of different amounts get the not-same line in either order. Swapping the pair changes which agreement and period are consulted, so the same pair may hit an earlier check in one order. |
| `Reconciliation.ScenarioWithinTolerance` | ufatool.go:56-71 | Agreement text netCharge "1000", chargTolrence "5", no raisedInvTotal; two invoices of "1040": accepted, since 1040 - 1 <= 1050. The same pair for a period already raised is refused as a duplicate. |
| `Reconciliation.MissingAgreementAccepted` | ufatool.go:51-72 | The agreement reads as nil, the read did not fail and the billing period is not raised. Then a pair of unparseable amounts gives the empty message: the unequal-amount and total checks both pass. |
| `UFAChainCode.UpdateRecord` | ufatool.go:245-253 | Merge law: every changed key takes its new value, every other existing key keeps its value, and the key set is the union. It panics iff the record is nil and there is something to write; a nil record with no update stays nil. |
| `UFAChainCode.Ledger.GetAllRecordsList` | ufatool.go:174-184 | The master index as decoded from ALL_RECS. An unset ALL_RECS is an error, not an empty list. |
| `UFAChainCode.Ledger.GetAllInvoiceList` | ufatool.go:121-131 | The invoice index as decoded from UFA_INVOICE_PREFIX_+N. Unset or undecodable gives an error. |
| `UFAChainCode.Ledger.GetInvoicesForUFA` | ufatool.go:99-119 | One record per listed invoice, in index order, each being what its key decodes to. An unset or undecodable index gives no invoices. |
| `UFAChainCode.Ledger.CheckInvoicesRaised` | ufatool.go:81-96 | True iff some record listed under UFA_INVOICE_PREFIX_+N has that billingPeriod. False for an unset or undecodable index. |
| `UFAChainCode.Ledger.ValidateInvoiceDetails` | ufatool.go:31-78 | The message is the decision chain applied to the decoded invoices, to the agreement named by the first invoice, and to whether its index holds the first invoice's period. |
| `UFAChainCode.InvoiceKeyDistinct` | ufatool.go:17-24 | An invoice-index key is never an audit-ledger key and never `ALL_RECS`. |
| `UFAChainCode.Ledger.EmptyStoreNoInvoices` | ufatool.go:121-131 | In the empty world state no invoice index lists an invoice. |
| `UFAChainCode.Ledger.DuplicatePeriodUnreachable` | ufatool.go:65-67 | While no invoice index lists an invoice, no billing period counts as raised, and validateInvoiceDetails never gives the duplicate-period line. |
| `Reconciliation.MessagesDistinct` | ufatool.go:43-72 | The five reconciliation lines are pairwise different texts (all ten pairs), whatever the billing period. |
| `UFAChainCode.Ledger.DuplicatePeriodRejected` | ufatool.go:65-67 | A period already in the agreement's invoice index gives the duplicate line, whatever the amounts. |
| `UFAChainCode.Ledger.InvalidOnlyOnReadError` | ufatool.go:51-55 | Without a read error the invalid-UFA line never appears. With one, it always appears once there are two invoices. |
| `UFAChainCode.Ledger.UpdateMasterRecords` | ufatool.go:134-147 | If ALL_RECS decodes, it becomes the old list followed by N and nothing else changes. Otherwise it fails and writes nothing. Either way "no invoice index lists an invoice" is preserved. |
| `UFAChainCode.Ledger.AppendUFATransactionHistory` | ufatool.go:150-171 | The history becomes its old list (empty when unset) followed by the raw payload, and nothing else changes. An undecodable history fails and writes nothing. Either way "no invoice index lists an invoice" is preserved. |
| `UFAChainCode.Ledger.CreateUFA` | ufatool.go:187-205 | A non-empty validation message gives "Validation failure: "+message and leaves the store unchanged. On success: N holds the payload and reads back as its decoding. For N other than ALL_RECS, ALL_RECS is the old list followed by N when it decoded, and is untouched otherwise; N = ALL_RECS leaves the payload there. The history is extended by the payload. These writes are made by `StoreNewUFA` once validation passes. No other key changes, no key disappears, and two invariants are preserved: "every indexed number has a record" and "no invoice index lists an invoice". |
| `UFAChainCode.Ledger.UpdateUFA` | ufatool.go:256-279 | Panics and writes nothing iff the record is nil and the update has fields. Otherwise N holds the merged record, the history is extended by the raw update payload rather than the merge, no other key changes, and both invariants ("every indexed number has a record", "no invoice index lists an invoice") are preserved. |
| `UFAChainCode.Ledger.GetAllUFA` | ufatool.go:282-301 | An error iff the master index does not decode. Otherwise one record per listed number, in order; a missing or corrupt record reads as nil. |
| `UFAChainCode.Ledger.GetUFADetails` | ufatool.go:304-315 | The record stored under N, nil (JSON null) when N is unset. Reading changes nothing. |
| `UFAChainCode.Ledger.Init` | ufatool.go:318-323 | ALL_RECS becomes `[]` and decodes as the empty master index. Nothing else changes, and "no invoice index lists an invoice" is preserved. |

## Left out

- JSON text: encoding/json's byte format is abstracted by `JsonCodec.Codec` and its laws. A map that decodes partly, because a value has the wrong type, is whatever `decodeObject` returns.
- `Numbers.ParseFloat`: models decimal text only: optional sign, digits, an optional '.', an optional exponent. It does not accept "Inf", "Infinity", "NaN", hexadecimal floats or underscore digit separators ("1_000"). It does not round to float64 or report range errors, and arithmetic is exact. So "NaN", which passes validateNewUFA in Go because every comparison with NaN is false, is rejected here. An out-of-range number, which validateNumber turns into -1, is accepted here. "1_000", which Go parses as 1000, is refused here as unparseable.
- Output marshalling: getAllUFA and getUFADetails return decoded records instead of the JSON bytes built from them.
- GetState errors: modelled only where the code acts on one, the agreement read of validateInvoiceDetails (parameter `ufaReadFails`). Everywhere else the error is discarded and the read is treated like an unset key.
- PutState errors: ignored by the chaincode, so a write is an unconditional map update.
- Concurrency: the model runs one call at a time. The lost updates that concurrent read-modify-write appends to one key can cause are outside it.
- Unused role arguments: `who` in updateUFA, getAllUFA and validateInvoiceDetails is never read, so those operations take no role.
- Invoice records and invoice indexes: the chaincode only reads them and never writes them, so the model has no operation that writes them either.
- Not modelled: logging; `probe`, which reads the wall clock; the `Invoke`/`Query` dispatch; the JSON text built by `validateNewUFAData`; `main`, `shim.Start` and the security-level setup.
