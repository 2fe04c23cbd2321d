# Client portal gateway: quote calculator and listing reshapers

This project models the logic of the client-portal REST gateway that runs in
JavaScript. The rest of the gateway runs SQL or PL/SQL in the Oracle core
system and forwards the result. Three controllers are modelled, all as pure
functions with lemmas:

- **Motor quote calculator** (`quotes.dfy`, module `Quotes`).
  - It validates the year of manufacture against the fixed lower bound 2008
    and against the current year. The age check runs first.
  - An accepted request is priced from the declared value: premium at 3.4,
    stamp duty 40, training levy at 0.2 of the premium, and a Policyholders
    Compensation Fund contribution at 0.25 of the value.
  - The request fields are echoed in a one-element list.
  - The non-motor endpoint is a stub that answers a fixed message.
- **Receipts listing** (`receipts.dfy`, module `Receipts`).
  - The intermediary code picks one of two queries over `ar_receipts_header`.
  - Returned rows become receipt records by position.
  - An absent or empty result becomes `success: false` with no records.
- **Claim credit-note listing** (`claim_credit_notes.dfy`, module `ClaimCreditNotes`).
  - It has the same shape over a join of journal headers and lines.
  - The two variants swap the line columns they filter on with the ones
    the insured's name is looked up from.

`rows.dfy` (module `Rows`) holds what the two listings share:
- JavaScript values and database rows. Reading past the end of a row gives `Undefined`.
- SELECT lists, whose items are plain columns or aliased expressions.
- A by-name column lookup. Each positional read of a controller is proved
  equal to this lookup, on the SELECT list of whichever variant ran.
- The intermediary-code test, which uses strict equality on strings.
- The success/failure envelope around `rows.map`.

Things outside the model are parameters. `execute` stands for the database,
`reportUrl` and `journalUrl` for the report-configuration helpers, `toText`
for JavaScript's `String`, and `currentYear` for the clock.

The year check cites "more than 15 years" but compares with the fixed year 2008.
`Quotes.FixedBoundMatchesAgeCapOnlyIn2023` proves that the two agree for every
vehicle only when the current year is 2023. The model keeps the code's fixed
bound. The code validates the year, and the model follows the code.

## Model

| member | source | states |
|---|---|---|
| `Quotes.YearError` | src/controllers/quotes/request-qoute.ts:10-15 | no error exactly when 2008 <= year <= current year; below 2008 the age message, otherwise above the current year the future message (the age check wins) |
| `Quotes.ErrorGateMeansErrorSet` | src/controllers/quotes/request-qoute.ts:16 | the gate `error.length > 1` holds exactly when the year is rejected |
| `Quotes.PriceQuote` | src/controllers/quotes/request-qoute.ts:19-35 | echoes model, reqNumber, use and year unchanged; premium = value·17/5, stamp duty 40, levy = premium/5 = value·0.68, fund = value/4 |
| `Quotes.RequestMotorQuote` | src/controllers/quotes/request-qoute.ts:5-37 | status 200 exactly for an accepted year, else 400 with the age message (year < 2008) or the future message; 200 carries success and exactly one priced quote |
| `Quotes.RejectionCarriesNoFigures` | src/controllers/quotes/request-qoute.ts:16-18 | a rejected request answers only an error message, one of the two year messages |
| `Quotes.OutcomeDependsOnlyOnYear` | src/controllers/quotes/request-qoute.ts:7-18 | acceptance and the error message depend only on the year of manufacture |
| `Quotes.CorollaQuote` | src/controllers/quotes/request-qoute.ts:19-37 | a 2020 vehicle declared at 1,000,000 quotes 3,400,000 premium, 40 duty, 680,000 levy, 250,000 fund |
| `Quotes.FixedBoundMatchesAgeCapOnlyIn2023` | src/controllers/quotes/request-qoute.ts:11-12 | "year < 2008" coincides with "older than 15 years" for every year exactly when the current year is 2023 |
| `Quotes.RequestNonMotorQuote` | src/controllers/quotes/request-qoute.ts:43-46 | always 200 with the message "This is non-motor quote" |
| `Quotes.NonMotorIgnoresRequest` | src/controllers/quotes/request-qoute.ts:45-46 | the non-motor answer is the same for every request |
| `Rows.AgentFilterExactlyForAgentCodes` | src/controllers/receipts/receipts-controller.js:16-20 | numbers (even 15, 70, 25), null and an absent code never choose the agent variant: the test is strict equality with strings |
| `Rows.SelectsAgentFilter` | src/controllers/claimCreditNotes/claim-credit-notes-controller.js:14-18 | the branch condition shared by both listings (also receipts-controller.js lines 16-20): true exactly for a string among "15", "70", "25" |
| `Rows.At` | src/controllers/receipts/receipts-controller.js:190-200 | JavaScript's `row[i]`: the i-th value inside the row, `undefined` past its end |
| `Rows.BindsFor` | src/controllers/receipts/receipts-controller.js:99-185 | the binds of both variants carry the request's intermediary and client codes unchanged and organisation "50"; the credit-note controller (its lines 53 and 90) binds the same values but names the organisation bind `org_code` instead of `p_org_code`, and the model merges the two names into one field |
| `Rows.MapRows` | src/controllers/receipts/receipts-controller.js:190 | one record per row, the i-th record projected from the i-th row |
| `Rows.MapRowsAppend` | src/controllers/receipts/receipts-controller.js:190 | mapping commutes with concatenation, so the records keep the rows' order |
| `Rows.Envelope` | src/controllers/receipts/receipts-controller.js:189-208 | success exactly when rows are present and non-empty, then one projected record per row in order; otherwise an empty list |
| `Receipts.VariantsSelectSameColumns` | src/controllers/receipts/receipts-controller.js:22-180 | both receipt queries select the same 67 items in the same order |
| `Receipts.ReceiptsQuery` | src/controllers/receipts/receipts-controller.js:16-187 | agent codes filter on hd_aent_code/hd_ent_code, others on hd_int_aent_code/hd_int_ent_code; the same SELECT list and binds in both |
| `Receipts.ReceiptColumnPositions` | src/controllers/receipts/receipts-controller.js:190-199 | positions 1, 2, 4, 8, 12, 13, 21, 37, 39 are the first items named hd_index, hd_no, hd_remitter_from, hd_mode, hd_narration, hd_gl_date, hd_lc_amount, hd_posted, hd_status |
| `Receipts.ProjectReceipt` | src/controllers/receipts/receipts-controller.js:190-201 | the positional record equals the by-name record: each field from its column, amount as text, URL from (receipt number, index) |
| `Receipts.GetReceipts` | src/controllers/receipts/receipts-controller.js:8-208 | success iff the chosen query returns rows; empty list otherwise; on success each record is the by-name reading of its row under the SELECT list that ran |
| `Receipts.ProjectionIgnoresVariant` | src/controllers/receipts/receipts-controller.js:16-205 | given the same rows, two requests get the same response whichever variant they chose |
| `ClaimCreditNotes.VariantsReturnSameColumns` | src/controllers/claimCreditNotes/claim-credit-notes-controller.js:20-83 | both queries return the same 27 column names; their items differ only at position 25 (insured) |
| `ClaimCreditNotes.CreditNotesQuery` | src/controllers/claimCreditNotes/claim-credit-notes-controller.js:14-92 | agent codes filter on LN_AENT_CODE/LN_ENT_CODE and name the insured from LN_LINK_*, others the reverse; binds pass the codes and organisation "50" |
| `ClaimCreditNotes.VariantsSwapFilterAndInsured` | src/controllers/claimCreditNotes/claim-credit-notes-controller.js:45-87 | the pair one variant filters on is the pair the other names the insured from |
| `ClaimCreditNotes.CreditNoteColumnPositions` | src/controllers/claimCreditNotes/claim-credit-notes-controller.js:95-106 | positions 1, 2, 5, 6, 7, 9, 10, 13, 15, 16, 25 are the first items named hd_no, hd_index, hd_narration, hd_gl_date, hd_cur_code, hd_lc_dr_amount, hd_lc_cr_amount, hd_type, hd_status, hd_posted, insured |
| `ClaimCreditNotes.ByNameIgnoresVariant` | src/controllers/claimCreditNotes/claim-credit-notes-controller.js:20-83 | reading a row by column name gives the same record under either variant's SELECT list |
| `ClaimCreditNotes.ProjectCreditNote` | src/controllers/claimCreditNotes/claim-credit-notes-controller.js:95-108 | the positional record equals the by-name record, with the URL from (journal number, index) |
| `ClaimCreditNotes.GetClaimCreditNotes` | src/controllers/claimCreditNotes/claim-credit-notes-controller.js:6-115 | success iff the chosen query returns rows; empty list otherwise; on success each record is the by-name reading of its row |
| `ClaimCreditNotes.ProjectionIgnoresVariant` | src/controllers/claimCreditNotes/claim-credit-notes-controller.js:14-112 | given the same rows, two requests get the same response whichever variant they chose |

## Left out

- Database I/O is not modelled: the connection pool, `getConnection`, `execute`, `close` and the `finally` release. The rows a query returns are an arbitrary `Option<seq<Row>>` given by the `execute` parameter.
- The catch blocks that answer 500 with the error object are not modelled. They fire on any exception in the handler: an I/O or driver failure, a missing request body (destructuring it throws), or a report helper that throws inside `rows.map`. None of these is modelled: the request datatypes always hold a body, and `reportUrl`, `journalUrl` and `toText` are total.
- SQL semantics are not modelled: the NVL filters, `hd_posted = 'Y'`, `hd_type = 'CREDIT NOTE'`, the join, `ORDER BY`, `DECODE` and the `pkg_gl`, `pkg_sa` and `pkg_system_admin` lookups. A query is modelled only by its SELECT list, its filter columns and its binds.
- The report helpers `getARReceiptsReportConfig` and `getJournaleReportConfig` are parameters. Their code is not part of this model.
- JavaScript's `String` on a column value is the `toText` parameter.
- `Quotes.PriceQuote`: JavaScript multiplies IEEE-754 doubles, so 3.4, 0.2 and 0.25 are rounded there. The model computes with exact reals and does not reproduce double rounding.
- `Quotes.RequestMotorQuote`: the year is an integer and the current year is a parameter. JavaScript would also compare fractional or non-numeric years; that is not modelled.
- The HTTP status of the listing responses is not modelled; both the success and the failure envelope are sent with 200. Logging and JSON serialisation beyond the response datatypes are also left out.
- The client policy creation controller is not modelled. Its logic runs inside PL/SQL procedures whose code is not part of this model.
- The route files are not modelled. They only wire URLs to controllers.
