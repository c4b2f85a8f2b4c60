# Fraud-labelled invoice generators, modelled in Dafny

The repository builds synthetic invoice datasets for a graph-based fraud
detector. This project models its four generator scripts.

- **`FraudDetectionMemgraph/datasetcsvGenerator.py`**, the fraud-labelled generator:
  - 1000 users, each passing through an anomaly chain of four rewrites (email, phone, registration hour, VAT number).
  - 1500 invoice iterations. Each one passes through an anomaly chain (amount, IBAN, date inconsistency), then an optional duplicate record, a temporal "rapid-fire" check over the user's last three records, and a round-amount pass.
  - A join that labels each row 1 when the user or the invoice is flagged.
- **`fakeData.py`**, a simpler generator with independent email and phone placeholders, amounts that, for a user with earlier invoices, may be replaced by that user's average shifted up or down by 1000..5000 euros, and a threshold labeller.
- **`Memgraph_ML/fakeData.py`**, the same code with comments added. Module `FakeData` models both files (see below).
- **`FraudDetectionMemgraph/dashboard.py`**, the on-demand generator `generate_csv_data`. It numbers invoices from a counter re-read from the database by `get_last_invoice_id`.

Modelling conventions:
- **Randomness.** Every random draw is an input. A coin is a `real` in [0, 1) compared with the source's rate. A `randint` or `choice` result is an integer or index constrained by an `...InRange` predicate.
- **Faker output** is an opaque string.
- **The VAT allocator.** `generate_unique_vat_id` retries forever. Here it reads a finite sequence of candidate numbers. It returns `None` when every candidate is already used, and the generators then stop with a failure result.
- **Timestamps** are integer seconds since 1970-01-01. They are computed from the drawn date fields by the proleptic Gregorian day count. The `strftime`/`strptime` round trip is only the representation.
- **Amounts** are integer cents.
- **Module globals** become class fields: `used_vat_numbers`, `users`, `invoices`, `recent_invoices` and `last_invoice_id`. In the user and invoice loops of `datasetcsvGenerator.py` and `fakeData.py`, each loop body is a method proved to perform one step of a pure step function. Every loop, including the dashboard's loops and the output joins, is proved to compute its pure whole-loop function.
- **`recent_invoices`** holds the same list objects as `invoices`. The model stores, per user, the positions of that user's records in `invoices`, so a later in-place rewrite is seen through both.

Modules:

| file | module | models |
|---|---|---|
| util.dfy | `Util` | `Option`, first-fire-wins selection, decimal rendering, lower-casing |
| clock.dfy | `Clock` | datetimes as seconds, `replace(hour, minute)`, `get_random_date` bounds |
| vat.dfy | `Vat` | `generate_unique_vat_id` and repeated allocation |
| fraud_users.dfy | `FraudUsers` | the user anomaly chain and the user loop |
| fraud_invoices.dfy | `FraudInvoices` | the invoice chain, duplicate injector, temporal and round-amount passes, the invoice loop |
| fraud_dataset.dfy | `FraudDataset` | the stateful fraud-labelled generator and its output join |
| fake_data.dfy | `FakeData` | both `fakeData.py` files |
| dashboard.dfy | `Dashboard` | `get_last_invoice_id` and `generate_csv_data` |

`Memgraph_ML/fakeData.py` differs from `fakeData.py` only in comments and blank lines. The corresponding line ranges are:

| part | fakeData.py | Memgraph_ML/fakeData.py |
|---|---|---|
| allocator | 17-22 | 21-26 |
| user loop | 25-39 | 29-47 |
| generate_fraud_label | 42-51 | 50-59 |
| invoice loop | 54-83 | 62-94 |
| output loop | 99-113 | 115-129 |

## Model

| member | source | states |
|---|---|---|
| Util.FirstMatch | FraudDetectionMemgraph/datasetcsvGenerator.py:36-89 | the guarded-if chain selects the first check that fires; no earlier check fired; the result is None iff no check fired |
| Clock.TimestampFields | FraudDetectionMemgraph/datasetcsvGenerator.py:22-29 | a drawn datetime keeps its day, hour, minute and second as a timestamp |
| Clock.DayWithinYear | FraudDetectionMemgraph/datasetcsvGenerator.py:23-25 | every drawn month and day (capped at 28) lies between January 1 and December 28 of the drawn year |
| Clock.RandomDateBounds | FraudDetectionMemgraph/datasetcsvGenerator.py:22-29 | get_random_date(start, end) lies between start-01-01 00:00:00 and end-12-28 23:59:59 |
| Clock.WithHourMinuteFields | FraudDetectionMemgraph/datasetcsvGenerator.py:78-81 | replacing hour and minute keeps the date and the seconds and sets the given hour and minute |
| Clock.WithHourMinuteIsReplace | FraudDetectionMemgraph/datasetcsvGenerator.py:78-81 | the timestamp rewrite equals the timestamp of datetime.replace(hour, minute) |
| Vat.VatIdShape | FraudDetectionMemgraph/datasetcsvGenerator.py:16 | an allocated id is "VAT" followed by the nine digits of a number in 100000000..999999999, 12 characters |
| Vat.FreshVatIsFirstUnused | FraudDetectionMemgraph/datasetcsvGenerator.py:14-19 | the allocator returns the first candidate not already used, and fails only when every candidate is used |
| Vat.AllocateVat | FraudDetectionMemgraph/datasetcsvGenerator.py:14-19 | the while loop returns an id absent from the used set, and the set grows by exactly that id; on failure it is unchanged |
| Vat.AllocateEachStep | FraudDetectionMemgraph/datasetcsvGenerator.py:71 | one more allocation succeeds iff the earlier ones did and a free candidate exists; it appends a new id and adds exactly that id to the set |
| Vat.AllocateEachFresh | FraudDetectionMemgraph/datasetcsvGenerator.py:33-91 | ids allocated in sequence are new, pairwise distinct, and are exactly what the used set gained |
| Vat.AllocateEachExtend | FraudDetectionMemgraph/datasetcsvGenerator.py:71 | after i successful allocations, the next one either extends the run by its fresh id and adds it to the set, or makes the whole run fail |
| Vat.AllocateEachPrefixNone | FraudDetectionMemgraph/datasetcsvGenerator.py:33-91 | once one allocation fails, the whole sequence of allocations fails |
| FraudUsers.UserChainFirstFireWins | FraudDetectionMemgraph/datasetcsvGenerator.py:36-89 | each rewrite applies iff its check fires and no earlier one did; is_fraud_user iff some check fired; at most one field changes; an unflagged user is unchanged |
| FraudUsers.RegistrationRewriteBand | FraudDetectionMemgraph/datasetcsvGenerator.py:74-81 | a rewritten registration has hour 2..4, the same date and seconds, and the user is flagged |
| FraudUsers.MaskLastFiveShape | FraudDetectionMemgraph/datasetcsvGenerator.py:65 | the masked phone keeps its length and all but its last five characters, which become "00000" |
| FraudUsers.NameEmailIsCompact | FraudDetectionMemgraph/datasetcsvGenerator.py:46 | the name template is the space-free lower-case name, one of 123/999/007, then "@mail.com" |
| FraudUsers.SuspiciousVatShape | FraudDetectionMemgraph/datasetcsvGenerator.py:84-89 | the rewrite keeps "VAT" and the six middle digits, ends in the chosen suffix, and stays 12 characters long |
| FraudUsers.SuspiciousVatRenumbers | FraudDetectionMemgraph/datasetcsvGenerator.py:88-89 | the rewrite is the id of the same number with its last three digits replaced, again in the allocator's range |
| FraudUsers.SuspiciousVatMayCollide | FraudDetectionMemgraph/datasetcsvGenerator.py:84-89 | for every six leading digits q, the ids ending in 999 and in 000 are distinct and both allocatable, and the rewrite turns the first into the second: the rewritten VAT is not checked against the used set |
| FraudUsers.FraudUserKeeps | FraudDetectionMemgraph/datasetcsvGenerator.py:83-91 | the chain keeps the user id, and keeps the allocated VAT unless the VAT rule fired |
| FraudUsers.RunUsers | FraudDetectionMemgraph/datasetcsvGenerator.py:33-91 | a completed user loop yields one user and one allocated id per iteration |
| FraudUsers.RunUsersBuiltByChain | FraudDetectionMemgraph/datasetcsvGenerator.py:33-91 | users are numbered 1..n in order, each built by the chain from its draws and its allocated id |
| FraudUsers.RunUsersVatsFresh | FraudDetectionMemgraph/datasetcsvGenerator.py:71 | the loop's allocated ids are new and pairwise distinct, and the used set gains exactly them |
| FraudUsers.ChainUsersKeptDistinct | FraudDetectionMemgraph/datasetcsvGenerator.py:83-91 | distinct allocated ids stay distinct on every pair of users the VAT rule left alone |
| FraudUsers.RunUsersKeptVatsDistinct | FraudDetectionMemgraph/datasetcsvGenerator.py:33-91 | no two users whose VAT was not rewritten share a VAT number |
| FraudInvoices.SuspiciousIbanShape | FraudDetectionMemgraph/datasetcsvGenerator.py:129-132 | the templated IBAN is an invalid country code, invalid check digits and the 20 drawn digits, 24 characters |
| FraudInvoices.RoundCentsNear | FraudDetectionMemgraph/datasetcsvGenerator.py:178-182 | round(x, 2) in cents is within half a cent of x |
| FraudInvoices.RoundHalfEvenNear | FraudDetectionMemgraph/datasetcsvGenerator.py:185 | round(total_amount) is a whole number of units within 50 cents of the amount, strictly nearer than 50 cents unless the amount ends in .50, and then even (halves to even) |
| FraudInvoices.InvoiceChainFirstFireWins | FraudDetectionMemgraph/datasetcsvGenerator.py:98-148 | amount, IBAN and date triggers each apply iff no earlier one fired; flag iff one fired; due before the date iff the date trigger applied, by 1..60 days, else 14..60 days after |
| FraudInvoices.TaxIdOrigin | FraudDetectionMemgraph/datasetcsvGenerator.py:150-153 | the tax id is a user's VAT, or a suspicious constant that only a flagged invoice can carry |
| FraudInvoices.Append | FraudDetectionMemgraph/datasetcsvGenerator.py:156-163 | appending to invoices and to the user's recent list adds one record and keeps every window within the list |
| FraudInvoices.AppendValid | FraudDetectionMemgraph/datasetcsvGenerator.py:156-163 | after an append, each user's recent list is still exactly the positions of that user's records, the new one at its end |
| FraudInvoices.SetLastValid | FraudDetectionMemgraph/datasetcsvGenerator.py:183 | rewriting the amount or flag of invoices[-1] keeps every user's recent list exact |
| FraudInvoices.DuplicateStageShape | FraudDetectionMemgraph/datasetcsvGenerator.py:166-191 | the injector rewrites only the last record's amount and appends one duplicate with id len(invoices)+1, the original's fields, a shifted date, and a set flag |
| FraudInvoices.DuplicateStageValid | FraudDetectionMemgraph/datasetcsvGenerator.py:166-191 | the injector keeps recent_invoices exact; the duplicate joins its user's recent list |
| FraudInvoices.SplitKeepsTotal | FraudDetectionMemgraph/datasetcsvGenerator.py:179-183 | a split keeps the total within one cent and gives the duplicate 30..70% of it up to rounding |
| FraudInvoices.DuplicateAmountsByStrategy | FraudDetectionMemgraph/datasetcsvGenerator.py:174-185 | the other strategies keep the original's amount; the duplicate copies it, jitters it by at most 5%, or rounds it to whole units |
| FraudInvoices.LaterPassesValid | FraudDetectionMemgraph/datasetcsvGenerator.py:194-216 | the temporal and round-amount passes leave recent_invoices untouched |
| FraudInvoices.LaterPassesTouchLastFlag | FraudDetectionMemgraph/datasetcsvGenerator.py:194-216 | the later passes change only the flag of invoices[-1], raise it iff the rapid-fire or the round-amount condition holds, and never clear it |
| FraudInvoices.StepValid | FraudDetectionMemgraph/datasetcsvGenerator.py:155-216 | one iteration keeps recent_invoices equal to each user's record positions |
| FraudInvoices.StepKeepsEarlierRecords | FraudDetectionMemgraph/datasetcsvGenerator.py:162-216 | one iteration appends one record, or two with a duplicate, and leaves every earlier record unchanged |
| FraudInvoices.StepMainRecord | FraudDetectionMemgraph/datasetcsvGenerator.py:159-216 | the new record differs from the chain's record only in its split amount and its flag; the flag only moves from 0 to 1 |
| FraudInvoices.StepDuplicateRecord | FraudDetectionMemgraph/datasetcsvGenerator.py:166-191 | the duplicate has id len(invoices)+1, the original's user, IBAN, supplier, status, due date and tax id, a date 1..72 hours later, and flag 1 |
| FraudInvoices.DuplicateIdCollides | FraudDetectionMemgraph/datasetcsvGenerator.py:99-169 | a step that finds n records and injects a duplicate gives it id len(invoices)+1 = n+2, the id iteration n+1 gives its invoice (the next iteration while no duplicate has been injected, n = i), so ids are not unique |
| FraudInvoices.FirstDrawDuplicates | FraudDetectionMemgraph/datasetcsvGenerator.py:98-169 | a first iteration that injects a duplicate leaves two records, the duplicate having id 2 |
| FraudInvoices.RunRepeatsInvoiceId | FraudDetectionMemgraph/datasetcsvGenerator.py:98-169 | in a run of two iterations whose first injects a duplicate, records 1 and 2 both have id 2 |
| FraudInvoices.StepUserIds | FraudDetectionMemgraph/datasetcsvGenerator.py:159-191 | every record an iteration appends carries the drawn user id |
| FraudInvoices.RunInvoices | FraudDetectionMemgraph/datasetcsvGenerator.py:98-216 | the invoice loop keeps every recent window within the invoice list |
| FraudInvoices.StepUserIdsInRange | FraudDetectionMemgraph/datasetcsvGenerator.py:159-191 | if every record names a user in 1..num_users before an iteration, every record does after it |
| FraudInvoices.RunInvoicesLength | FraudDetectionMemgraph/datasetcsvGenerator.py:98-216 | n iterations from no invoices leave between n and 2n records |
| FraudInvoices.RunInvoicesUserIds | FraudDetectionMemgraph/datasetcsvGenerator.py:98-216 | after the loop every record names a user in 1..num_users |
| FraudInvoices.RunInvoicesValid | FraudDetectionMemgraph/datasetcsvGenerator.py:98-216 | after the loop, each user's recent_invoices list is exactly the positions of that user's records |
| FraudInvoices.RunInvoicesShape | FraudDetectionMemgraph/datasetcsvGenerator.py:98-216 | n iterations leave n..2n records, each for a user in 1..num_users, with recent_invoices exact |
| FraudDataset.FindUser | FraudDetectionMemgraph/datasetcsvGenerator.py:223 | the lookup finds a user with the given id, and returns None iff there is none |
| FraudDataset.FindUserIsFirst | FraudDetectionMemgraph/datasetcsvGenerator.py:223 | next() returns the first user in the list with the given id: no earlier user has it |
| FraudDataset.FindNumberedUser | FraudDetectionMemgraph/datasetcsvGenerator.py:223 | with users numbered 1..n, id u is found at position u-1 |
| FraudDataset.JoinRows | FraudDetectionMemgraph/datasetcsvGenerator.py:219-233 | the output loop computes the labelled join, at most one row per invoice |
| FraudDataset.OutputRowsJoinAll | FraudDetectionMemgraph/datasetcsvGenerator.py:219-233 | with users numbered 1..n and every invoice naming one of them, there is one row per invoice, in order, joined with users[user_id-1] |
| FraudDataset.OutputRowsComplete | FraudDetectionMemgraph/datasetcsvGenerator.py:219-233 | exactly one row per invoice, in order, labelled 1 iff the user flag or the final invoice flag is set |
| FraudDataset.FraudDatasetGenerator.constructor | FraudDetectionMemgraph/datasetcsvGenerator.py:10-95 | the globals start empty |
| FraudDataset.FraudDatasetGenerator.GenerateUniqueVatId | FraudDetectionMemgraph/datasetcsvGenerator.py:14-19 | the allocator on the generator's used set; nothing else changes |
| FraudDataset.FraudDatasetGenerator.GenerateUser | FraudDetectionMemgraph/datasetcsvGenerator.py:33-91 | one iteration appends the chain's user numbered len(users)+1 with its fresh VAT |
| FraudDataset.FraudDatasetGenerator.GenerateUsers | FraudDetectionMemgraph/datasetcsvGenerator.py:33-91 | the loop leaves exactly the users of the pure user loop |
| FraudDataset.FraudDatasetGenerator.BuildInvoice | FraudDetectionMemgraph/datasetcsvGenerator.py:98-160 | the guarded ifs build the chain's record, flagged iff a trigger fired |
| FraudDataset.FraudDatasetGenerator.AppendRecord | FraudDetectionMemgraph/datasetcsvGenerator.py:156-163 | the two appends, in place |
| FraudDataset.FraudDatasetGenerator.InjectDuplicate | FraudDetectionMemgraph/datasetcsvGenerator.py:166-191 | the injector in place, including the rewrite of invoices[-1][3] |
| FraudDataset.FraudDatasetGenerator.TemporalCheck | FraudDetectionMemgraph/datasetcsvGenerator.py:194-211 | the temporal check in place |
| FraudDataset.FraudDatasetGenerator.RoundAmountCheck | FraudDetectionMemgraph/datasetcsvGenerator.py:214-216 | the round-amount pass in place |
| FraudDataset.FraudDatasetGenerator.GenerateInvoice | FraudDetectionMemgraph/datasetcsvGenerator.py:98-216 | one loop body performs one step of the pure invoice step and keeps the generator's invariant |
| FraudDataset.FraudDatasetGenerator.GenerateInvoices | FraudDetectionMemgraph/datasetcsvGenerator.py:98-216 | the loop computes the pure invoice loop |
| FraudDataset.FraudDatasetGenerator.Run | FraudDetectionMemgraph/datasetcsvGenerator.py:8-233 | the script succeeds iff every VAT allocation does, and then leaves the users and used-VAT set of the user loop, the records of the invoice loop, and yields the labelled join, one row per invoice |
| FakeData.FakeEmailShape | fakeData.py:30-31 | the placeholder email is "fake", four digits and "@example.com" |
| FakeData.FakeUserRewrites | fakeData.py:30-36 | email and phone rewrites are independent, both can apply, and the registration is at midnight |
| FakeData.FakeUsers | Memgraph_ML/fakeData.py:29-47 | one user per iteration |
| FakeData.AdjustedAmountNear | fakeData.py:63-70 | the adjusted amount is the mean of the user's earlier amounts shifted by the drawn euros, to the nearest cent |
| FakeData.AdjustmentMayGoNegative | Memgraph_ML/fakeData.py:71-78 | a decrease can make the amount negative |
| FakeData.FakeInvoiceShape | fakeData.py:54-83 | id i+1; midnight dates; due before the date iff the early coin falls, by 1..60 days either way; tax id a user's VAT; amount changed only by an adjustment for a user with earlier invoices |
| FakeData.GenerateFraudLabel | fakeData.py:42-51 | 1 iff the amount is above 5000.00 or below 50.00, else 0; the other fields are ignored |
| FakeData.LabelledOnlyIfAdjusted | Memgraph_ML/fakeData.py:50-78 | an unadjusted amount lies in 50..5000, so only an adjusted invoice can be labelled 1 |
| FakeData.RunFakeInvoices | fakeData.py:54-83 | one invoice per iteration |
| FakeData.RunFakeInvoicesShape | Memgraph_ML/fakeData.py:62-94 | invoice ids are 1..n in order, so they are distinct, and every user_id is in 1..num_users |
| FakeData.JoinFakeRows | fakeData.py:99-113 | one row per invoice, joined with users[user_id-1], labelled 1 iff the amount is above 5000.00 or below 50.00 |
| FakeData.FakeDataGenerator.constructor | fakeData.py:12-14 | the globals start empty |
| FakeData.FakeDataGenerator.GenerateUniqueVatId | fakeData.py:17-22 | a fresh id; the used set grows by exactly it |
| FakeData.FakeDataGenerator.GenerateUser | Memgraph_ML/fakeData.py:29-47 | one iteration appends the rewritten user with its fresh VAT |
| FakeData.FakeDataGenerator.GenerateUsers | fakeData.py:25-39 | the loop leaves the users of the pure user loop |
| FakeData.FakeDataGenerator.GenerateInvoice | Memgraph_ML/fakeData.py:62-94 | one iteration appends the invoice computed from the invoices so far |
| FakeData.FakeDataGenerator.GenerateInvoices | fakeData.py:54-83 | the loop computes the pure invoice loop |
| FakeData.FakeDataGenerator.Run | fakeData.py:9-113 | the script succeeds iff every VAT allocation does, and then yields one labelled row per invoice |
| Dashboard.StoredLastId | FraudDetectionMemgraph/dashboard.py:57-66 | the maximum when the query returns one, 0 when it raises, returns no row, lacks the key or returns null |
| Dashboard.DashUsersNumbered | FraudDetectionMemgraph/dashboard.py:75-82 | users are numbered 1..num_users |
| Dashboard.DashInvoices | FraudDetectionMemgraph/dashboard.py:86-100 | one invoice per iteration |
| Dashboard.DashInvoicesShape | FraudDetectionMemgraph/dashboard.py:86-100 | ids are last+1..last+n, increasing and above last; user ids in 1..num_users; due 14..60 days after the date; tax id a user's VAT |
| Dashboard.NewIdsAboveStoredMax | FraudDetectionMemgraph/dashboard.py:57-100 | with a reported maximum the new ids exceed it; otherwise they are 1..n |
| Dashboard.FindDashUser | FraudDetectionMemgraph/dashboard.py:107 | the lookup finds a user with the given id, and returns None iff there is none |
| Dashboard.FindDashUserIsFirst | FraudDetectionMemgraph/dashboard.py:107 | next() returns the first user in the list with the given id: no earlier user has it |
| Dashboard.JoinDashRows | FraudDetectionMemgraph/dashboard.py:104-112 | the combining loop computes the join, at most one row per invoice |
| Dashboard.DashRowsComplete | FraudDetectionMemgraph/dashboard.py:104-112 | exactly one 14-field row per invoice, with the invoice's user |
| Dashboard.DashboardGenerator.constructor | FraudDetectionMemgraph/dashboard.py:32-55 | no used VATs, counter 2000 |
| Dashboard.DashboardGenerator.GetLastInvoiceId | FraudDetectionMemgraph/dashboard.py:57-66 | the counter becomes the stored maximum or 0 |
| Dashboard.DashboardGenerator.GenerateUniqueVatId | FraudDetectionMemgraph/dashboard.py:36-41 | a fresh id; the used set grows by exactly it; the counter is untouched |
| Dashboard.DashboardGenerator.GenerateUsers | FraudDetectionMemgraph/dashboard.py:75-82 | the loop yields users 1..n with fresh VATs, or fails when an allocation does |
| Dashboard.DashboardGenerator.GenerateInvoices | FraudDetectionMemgraph/dashboard.py:86-100 | the loop numbers invoices from the counter, which advances by exactly n |
| Dashboard.DashboardGenerator.GenerateCsvData | FraudDetectionMemgraph/dashboard.py:70-112 | re-reads the counter; succeeds iff every VAT allocation does, and then yields one row per invoice, numbered from the stored value, leaving the counter n higher |

## Left out

- Faker: names, emails, phone numbers, companies, IBANs, words and domains are opaque input strings. The uniqueness of `fake.unique.email()` is not modelled.
- Floating point: random.uniform results and `round(..., 2)` are inputs in cents, and round(x, 2) is modelled as rounding half up on exact reals. Binary-float ties and representation error are not modelled.
- The VAT allocator's retries: each call reads a finite list of candidates. The source would keep drawing forever; the model reports failure when the list runs out.
- The status weights 0.7/0.2/0.1: the status is a drawn choice, and its probabilities are not modelled.
- Probabilities in general: the model proves what each outcome of the draws produces, not how likely it is.
- The `fraud_patterns` tally in datasetcsvGenerator.py: diagnostic only, it never affects the output.
- The unused user lookup at datasetcsvGenerator.py:105: its result is never read.
- CSV writing, the header rows, `os.makedirs` and the `print` summaries: file I/O.
- fakeData.py dates: `date_this_decade` and `date_this_year` depend on the clock. They are day numbers given as inputs, without their range.
- Python `IndexError` paths in fakeData.py: `users[user_id - 1]` and `random.choice(users)` are given indices within the user list, as the source's draws always are.
- Dashboard: the Flask routes, sessions, uploads and every Memgraph/Cypher call except the maximum-id query. That query's outcome is an input.
- Memgraph loading, node2vec, node classification and the XGBoost/sklearn scripts: database and machine-learning code outside the generators.
- FakeData.AdjustedAmountNear: rounds the exact mean of the earlier amounts, in cents, half up; the source rounds a binary float with round(x, 2), whose ties and representation error are not modelled.
- Util.Lower: ASCII case mapping only ("A".."Z"); str.lower()'s Unicode case mapping of other letters in the Faker names is not modelled.
