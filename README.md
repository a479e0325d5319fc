# Donation store model

A Dafny model of the server of a small donation-tracking web application
(`server.js`). The server holds every donation record in memory together with
two running aggregates, the total amount and the number of donors. It answers
four requests that matter here:

- loading the records at startup (`loadDonations`);
- `POST /donate`, which validates a submission, appends one record and
  updates the aggregates step by step;
- `GET /stats`, a read-only projection: totals, progress towards the
  10000 goal, and the five newest donations;
- `POST /contact`, which only validates its input.

The state lives in the class `Store.DonationStore`. Its fields are
`donations`, `totalAmount` and `totalDonors`, plus `lastSaved`, the record list
the data file is known to hold. Its invariant `Valid()` says the two running
aggregates always equal what a from-scratch recomputation over `donations`
gives. The load path computes them that way: a left-to-right sum of the
amounts, and the number of distinct emails. The constructor `Load`
establishes the invariant. `Donate` keeps it with its `+=` and its conditional
`++`. The lemmas `SumAppend` and `DonorCountAppend` connect the incremental
steps to the recomputation.

The pure parts are separate modules:

- `Text`: ECMAScript `String.prototype.trim`.
- `Aggregates`: the sum, the email set, the donor count and the `some` test.
- `Stats`: the sort by date (stable, as JavaScript's sort is), the top five,
  the projection with the "Anonymous" default, and the capped progress.
- `Requests`: the donate guard, how the record is built, the responses, and
  the contact endpoint.

Inputs the server takes from its environment are parameters:

- JavaScript's `Number(...)` on the amount string is `toNumber: string ->
  Option<real>`, where `None` stands for NaN;
- the id (`Date.now()`) and the date (`new Date()`) are `id` and `now`;
- the outcome of reading and parsing the data file is a `LoadOutcome`;
- whether writing the file succeeds is `saveSucceeds`.

The handler trims name, email and message (server.js:117-121) and keeps
`type` as given, untrimmed (server.js:120).

## Model

| member | source | states |
|---|---|---|
| Text.Trim | server.js:117-121 | `trim()` returns a string that neither starts nor ends with whitespace (ECMAScript WhiteSpace and LineTerminator) and is no longer than its input |
| Text.TrimRemovesOnlyWhitespace | server.js:117-121 | the trimmed string is a contiguous part of the input, and everything removed before and after it is whitespace |
| Text.TrimIdempotent | server.js:117-121 | trimming an already trimmed name, email or message changes nothing |
| Text.TrimEmptyIff | server.js:117-118 | a field trims to "" exactly when it is all whitespace, so a whitespace-only name passes the guard and is stored as "" |
| Aggregates.Sum | server.js:25 | the reference total: `reduce` of the amounts from 0, folded left to right; SumAppend and SumConcat state its properties |
| Aggregates.Emails | server.js:26 | the set of donor emails, `new Set(donations.map(d => d.email))`; EmailsAppend and EmailsHas state its properties |
| Aggregates.DonorCount | server.js:26 | the reference donor count, the size of that set; DonorCountAppend and DonorCountBounds state its properties |
| Aggregates.HasEmail | server.js:125 | the `some(d => d.email === email)` test; EmailsHas proves it equals membership in the email set |
| Aggregates.SumAppend | server.js:128 | appending one record raises the left-fold total by exactly that record's amount, which is the `totalAmount +=` step |
| Aggregates.SumConcat | server.js:25 | the total over two lists joined is the sum of their totals, so N accepted donations add exactly their N amounts |
| Aggregates.SumPositive | server.js:108-119 | when every amount is positive, as the guard ensures for appended records, the total is at least 0, and above 0 once a record exists |
| Aggregates.EmailsAppend | server.js:26 | the donor email set after an append is the old set plus the new record's email |
| Aggregates.EmailsHas | server.js:125 | an email is in the donor set exactly when `some` record carries it, compared exactly and case-sensitively |
| Aggregates.DonorCountAppend | server.js:125-131 | the number of distinct emails grows by one exactly when no earlier record has the new email, and otherwise stays the same |
| Aggregates.DonorCountBounds | server.js:26 | there are never more donors than records, and at least one donor once a record exists |
| Stats.Insert | server.js:87 | inserting into a newest-first list gives a newest-first list holding exactly the old records plus the new one |
| Stats.SortNewestFirst | server.js:85-87 | sorting a copy with the comparator `b.date - a.date` gives a newest-first permutation of the records |
| Stats.InsertKeepsTieOrder | server.js:87 | an inserted record goes ahead of every record with the same date, so ties keep their input order |
| Stats.SortKeepsTieOrder | server.js:87 | the sort is stable: for every date, the records with that date appear in input order |
| Stats.TopNewest | server.js:85-88 | `slice(0, 5)` keeps min(5, n) records, newest first, all drawn from the store, and every record when there are at most five |
| Stats.TopNewestFromInput | server.js:85-88 | every record shown in the feed is one of the stored records |
| Stats.TopNewestLeavesOutOnlyOlder | server.js:85-88 | no record left out of the feed is newer than any record shown in it |
| Stats.Project | server.js:89-93 | a feed entry carries the record's amount and type, and its name, or exactly "Anonymous" when the name is empty, so the shown name is never empty |
| Stats.RecentDonations | server.js:85-93 | `recentDonations` is, entry by entry and in order, the projection of the five newest records (`TopNewest`), so it is newest first, omits nothing newer than what it shows, and lists every record when there are at most 5; each entry has a non-empty name and projects a stored record |
| Stats.Progress | server.js:99 | progress is at most 100; it equals 100 exactly when the total reaches the goal, and below the goal it is total / 10000 * 100 |
| Stats.ProgressMonotone | server.js:99 | a larger total never shows less progress |
| Requests.Truthy | server.js:108 | JavaScript truthiness of a string field, the `!x` tests of both guards: present and not "" |
| Requests.OrElse | server.js:120-121 | a field falls back to its default (type "General", message "") exactly when it is missing or empty |
| Requests.CheckDonation | server.js:108-113 | a donation passes exactly when name, email and amount are non-empty and the amount converts to a number above 0; that number is the amount |
| Requests.NewDonation | server.js:115-123 | the record builder; NewDonationFields states every field it sets |
| Requests.NewDonationFields | server.js:115-123 | the new record has the trimmed name and email, the converted amount, the type or "General", the trimmed message or "", and the given id and date; name, email and message carry no surrounding whitespace |
| Requests.PlainSubmissionStoredAsGiven | server.js:105-123 | a submission whose name and email have no surrounding whitespace, with a positive amount and no type or message (such as name "Ann", email "a@x.com", amount "50"), passes and is stored with that amount, type "General" and an empty message |
| Requests.DonateResponse.Status | server.js:109-137 | a donate answer is 400 exactly when it is a rejection and 200 exactly when it is an acceptance |
| Requests.Contact | server.js:141-161 | contact succeeds with status 200 exactly when name, email and message are all non-empty, and otherwise answers 400; it cannot reach the store |
| Store.DonationStore.Load | server.js:19-37 | at startup, parsed records replace the empty list and the totals are recomputed from them; a missing or unreadable file leaves the store empty; either way the invariant holds |
| Store.DonationStore.Save | server.js:40-47 | a successful write makes the file hold the current list; after a failed one the file's contents are unknown (it may be truncated), and the in-memory state is never touched |
| Store.DonationStore.Donate | server.js:105-138 | a rejected request answers 400 and changes nothing; an accepted one appends exactly the new record at the end, adds its amount, counts a donor only for an unseen email, keeps the invariant, and leaves the file holding the new list only when the write succeeds |
| Store.DonationStore.GetStats | server.js:84-102 | stats report the recomputed totals, the goal, the capped progress and the five-newest feed, and change nothing in the store |
| Store.DonationStore.Restart | server.js:19-47 | reloading a file whose contents are known gives a valid store holding exactly that list; when it is the current list, the totals come back identical |

## Left out

- Express plumbing is not modelled: static files, the `sendFile` page routes (server.js:55-81), body parsing and `app.listen` (server.js:164-167).
- The browser script public/js/main.js is not part of this model: it is DOM updates, `fetch` and polling.
- File I/O and JSON are not modelled. The outcome of `readFileSync` plus `JSON.parse` is the `LoadOutcome` parameter. `writeFileSync` is the `saveSucceeds` flag. JSON text, its formatting and the ISO-8601 date strings are left out.
- Parsed files whose top level is not an array, or whose records lack fields or hold non-numeric amounts, are left out: records are typed `Donation` values.
- Store.DonationStore.Load: it is a constructor from the initial empty state. The source's missing-file branch resets only the list and leaves the totals alone; that is harmless because `loadDonations` runs once, when the totals are still 0.
- `Number(...)` is the `toNumber` parameter. Its JavaScript rules are not modelled: whitespace, hex, exponents, and "Infinity", which passes the guard.
- Amounts are exact reals. IEEE-754 rounding is left out, and so are infinite totals and `toFixed(2)` / `toLocaleString` formatting of `totalAmount` and `progress`.
- Dates are integer timestamps. The source sorts on `new Date(...)` of stored strings; an unparsable date gives the comparator NaN, which is not modelled.
- Request fields are optional strings. A field sent as a JSON number or object is not modelled; for a name or email that makes `.trim()` throw.
- Ids come from the clock (`Date.now()`) and are taken as given. The model proves nothing about their uniqueness, which the source does not ensure either: two donations in the same millisecond share an id.
- Console logging is not modelled, including the contact message log (server.js:151-155).
- Interleaving of concurrent requests is not modelled; each handler runs to completion.
