/** The invoices of the fraud-labelled generator: the per-invoice anomaly
    chain (amount, IBAN, date inconsistency, first fire wins), the supplier
    tax id, the duplicate injector, the temporal check over a user's last
    three invoices and the round-amount pass.  The invoice list and the
    recent_invoices dictionary are a Batch value here; the generator class
    holds the same two pieces of state as fields and is specified by
    InvoiceStep. */
module FraudInvoices {
  import opened Util
  import opened Clock
  import opened Vat
  import opened FraudUsers

  const AmountRate: real := 0.12
  const IbanRate: real := 0.08
  const DateRate: real := 0.07
  const TaxOverrideRate: real := 0.5
  const DuplicateRate: real := 0.06
  const TemporalRate: real := 0.8
  const RoundRate: real := 0.4

  /** time_diff < 2 on hours computed as seconds / 3600. */
  const TemporalGap: int := 2 * SecondsPerHour

  datatype Status = Paid | Pending | Overdue
  const Statuses: seq<Status> := [Paid, Pending, Overdue]

  /** [invoice_id, user_id, invoice_date, total_amount, supplier_iban,
      supplier_name, status, due_date, supplier_tax_id, is_fraud_invoice];
      amounts in cents, dates as timestamps. */
  datatype Invoice = Invoice(id: int, userId: int, date: int, amount: int, iban: string,
                             supplier: string, status: Status, due: int, taxId: string, fraud: bool)

  const RepeatedDigitAmounts: seq<int> := [111111, 222222, 333333, 444444, 555555]
  const JustUnderAmounts: seq<int> := [9999, 19999, 29999, 39999, 49999]

  /** The five amount templates, each already rounded to cents, and the choice. */
  datatype AmountDraw = AmountDraw(nearTenThousand: int, large: int, tiny: int,
                                   repeatedChoice: nat, underChoice: nat, pattern: nat)

  predicate AmountDrawInRange(a: AmountDraw)
  {
    && 990000 <= a.nearTenThousand <= 1010000
    && 1500000 <= a.large <= 2500000
    && 100 <= a.tiny <= 1000
    && a.repeatedChoice < |RepeatedDigitAmounts|
    && a.underChoice < |JustUnderAmounts|
    && a.pattern < 5
  }

  function SuspiciousAmount(a: AmountDraw): int
    requires AmountDrawInRange(a)
  {
    [a.nearTenThousand, a.large, a.tiny,
     RepeatedDigitAmounts[a.repeatedChoice], JustUnderAmounts[a.underChoice]][a.pattern]
  }

  const CountryCodes: seq<string> := ["XX", "YY", "ZZ", "00"]
  const CheckDigits: seq<string> := ["00", "99", "01"]

  /** f"{country_code}{check_digits}{rest_of_iban}" */
  function SuspiciousIban(country: nat, check: nat, rest: string): string
    requires country < |CountryCodes| && check < |CheckDigits|
  {
    CountryCodes[country] + CheckDigits[check] + rest
  }

  /** The templated IBAN: an invalid country code and check digits, then the
      twenty drawn digits, 24 characters in all. */
  lemma SuspiciousIbanShape(country: nat, check: nat, rest: string)
    requires country < |CountryCodes| && check < |CheckDigits|
    requires |rest| == 20 && AllDigits(rest)
    ensures var r := SuspiciousIban(country, check, rest);
      |r| == 24 && r[..2] in CountryCodes && r[2..4] in CheckDigits
      && r[4..] == rest && AllDigits(r[4..])
  {
    var r := SuspiciousIban(country, check, rest);
    assert r[..2] == CountryCodes[country];
    assert r[2..4] == CheckDigits[check];
  }

  const SuspiciousTaxDigits: seq<string> := ["000000000", "123456789", "999999999"]

  /** round(x, 2) on a non-negative amount, in cents (ties of binary floats
      are not modelled: a tie rounds up). */
  function RoundCents(x: real): int
  {
    (x + 0.5).Floor
  }

  lemma RoundCentsNear(x: real)
    ensures x - 0.5 < RoundCents(x) as real <= x + 0.5
  {
  }

  /** Rounding a non-negative amount scaled by a factor in [lo, hi]. */
  lemma RoundCentsScaled(a: real, f: real, lo: real, hi: real)
    requires a >= 0.0 && lo <= f <= hi
    ensures lo * a - 0.5 < RoundCents(a * f) as real <= hi * a + 0.5
  {
    RoundCentsNear(a * f);
    ScaleBound(a, lo, f);
    ScaleBound(a, f, hi);
  }

  /** The two rounded shares of a split add up to the whole within a cent. */
  lemma RoundCentsComplement(a: real, f: real)
    ensures a - 1.0 < RoundCents(a * f) as real + RoundCents(a * (1.0 - f)) as real <= a + 1.0
  {
    RoundCentsNear(a * f);
    RoundCentsNear(a * (1.0 - f));
    assert a * f + a * (1.0 - f) == a;
  }

  /** Python's round(total_amount) on an amount of c cents: whole units,
      halves to even (a two-decimal float ending in .50 is exact). */
  function RoundHalfEven(c: int): int
  {
    var q, r := c / 100, c % 100;
    if r > 50 || (r == 50 && q % 2 == 1) then q + 1 else q
  }

  lemma RoundHalfEvenNear(c: int)
    ensures -50 <= 100 * RoundHalfEven(c) - c <= 50
    ensures c % 100 != 50 ==> 2 * Abs(100 * RoundHalfEven(c) - c) < 100
    ensures c % 100 == 50 ==> RoundHalfEven(c) % 2 == 0
  {
  }

  /** Everything one iteration of the invoice loop draws.  The split and
      jitter factors are the uniform reals; the base amount is already rounded
      to cents.  A draw the source only makes on one branch is still a field. */
  datatype InvoiceDraw = InvoiceDraw(
    userId: int, date: DateTime, amount: int,
    amountCoin: real, amountDraw: AmountDraw,
    supplier: string, iban: string,
    ibanCoin: real, countryChoice: nat, checkChoice: nat, ibanRest: string,
    statusChoice: nat,
    dateCoin: real, daysBefore: int, daysAfter: int,
    taxCoin: real, taxConstChoice: nat, taxUserChoice: nat,
    dupCoin: real, shiftHours: int, strategy: int, jitterFactor: real, splitFactor: real,
    temporalCoin: real, roundCoin: real)

  predicate InvoiceDrawInRange(d: InvoiceDraw, numUsers: nat)
  {
    && 1 <= d.userId <= numUsers
    && RandomDateFields(d.date, 2023, 2025)
    && 5000 <= d.amount <= 500000
    && AmountDrawInRange(d.amountDraw)
    && d.countryChoice < |CountryCodes| && d.checkChoice < |CheckDigits|
    && |d.ibanRest| == 20 && AllDigits(d.ibanRest)
    && d.statusChoice < |Statuses|
    && 1 <= d.daysBefore <= 60
    && 14 <= d.daysAfter <= 60
    && d.taxConstChoice < |SuspiciousTaxDigits|
    && d.taxUserChoice < numUsers
    && 1 <= d.shiftHours <= 72
    && 1 <= d.strategy <= 4
    && 0.95 <= d.jitterFactor <= 1.05
    && 0.3 <= d.splitFactor <= 0.7
  }

  /** The three invoice checks in priority order. */
  function InvoiceTriggers(d: InvoiceDraw): seq<bool>
  {
    [d.amountCoin < AmountRate, d.ibanCoin < IbanRate, d.dateCoin < DateRate]
  }

  /** The invoice record as appended, before the later passes touch it. */
  function MainInvoice(users: seq<User>, i: nat, d: InvoiceDraw): Invoice
    requires InvoiceDrawInRange(d, |users|)
  {
    var fired := FirstMatch(InvoiceTriggers(d));
    var date := Timestamp(d.date);
    var amount := if fired == Some(0) then SuspiciousAmount(d.amountDraw) else d.amount;
    var iban := if fired == Some(1) then SuspiciousIban(d.countryChoice, d.checkChoice, d.ibanRest) else d.iban;
    var due := if fired == Some(2) then date - d.daysBefore * SecondsPerDay else date + d.daysAfter * SecondsPerDay;
    var flagged := fired.Some?;
    var taxId := if flagged && d.taxCoin < TaxOverrideRate then VatPrefix + SuspiciousTaxDigits[d.taxConstChoice]
                 else users[d.taxUserChoice].vat;
    Invoice(i + 1, d.userId, date, amount, iban, d.supplier, Statuses[d.statusChoice], due, taxId, flagged)
  }

  /** The chain as sequential guarded ifs: the amount, IBAN and date
      triggers each apply only when no earlier one fired, the flag is set
      exactly when one of them fired, and the due date lies 1..60 days before
      the invoice date exactly when the date trigger applied, 14..60 days
      after it otherwise. */
  lemma {:induction false} InvoiceChainFirstFireWins(users: seq<User>, i: nat, d: InvoiceDraw)
    requires InvoiceDrawInRange(d, |users|)
    ensures var inv := MainInvoice(users, i, d);
      var a := d.amountCoin < AmountRate;
      var b := !a && d.ibanCoin < IbanRate;
      var c := !a && !b && d.dateCoin < DateRate;
      && inv.id == i + 1 && inv.userId == d.userId && inv.date == Timestamp(d.date)
      && inv.amount == (if a then SuspiciousAmount(d.amountDraw) else d.amount)
      && inv.iban == (if b then SuspiciousIban(d.countryChoice, d.checkChoice, d.ibanRest) else d.iban)
      && (inv.fraud <==> a || b || c)
      && (inv.due < inv.date <==> c)
      && (c ==> SecondsPerDay <= inv.date - inv.due <= 60 * SecondsPerDay)
      && (!c ==> 14 * SecondsPerDay <= inv.due - inv.date <= 60 * SecondsPerDay)
  {
    var t := InvoiceTriggers(d);
    assert t[0] == (d.amountCoin < AmountRate) && t[1] == (d.ibanCoin < IbanRate) && t[2] == (d.dateCoin < DateRate);
    match FirstMatch(t)
    case None =>
    case Some(k) =>
      assert k < 3 && t[k];
      assert forall j :: 0 <= j < k ==> !t[j];
  }

  /** A suspicious constant tax id appears only on a flagged invoice; an
      unflagged invoice carries the VAT of one of the users. */
  lemma TaxIdOrigin(users: seq<User>, i: nat, d: InvoiceDraw)
    requires InvoiceDrawInRange(d, |users|)
    ensures var inv := MainInvoice(users, i, d);
      (exists k :: 0 <= k < |users| && inv.taxId == users[k].vat)
      || (inv.fraud && inv.taxId[3..] in SuspiciousTaxDigits && inv.taxId[..3] == VatPrefix)
    ensures !MainInvoice(users, i, d).fraud ==>
      exists k :: 0 <= k < |users| && MainInvoice(users, i, d).taxId == users[k].vat
  {
    var inv := MainInvoice(users, i, d);
    if inv.taxId != users[d.taxUserChoice].vat {
      assert inv.taxId == VatPrefix + SuspiciousTaxDigits[d.taxConstChoice];
    }
  }

  /** recent_invoices.get(user_id, []) */
  function RecentOf(recent: map<int, seq<nat>>, userId: int): seq<nat>
  {
    if userId in recent then recent[userId] else []
  }

  /** invoices plus recent_invoices; recent_invoices holds, per user, the
      positions of that user's records in invoices (the source stores the
      same list objects in both). */
  datatype Batch = Batch(invoices: seq<Invoice>, recent: map<int, seq<nat>>)

  /** Every recorded position points into the invoice list. */
  predicate WindowsInRange(b: Batch)
  {
    forall u, k :: u in b.recent && 0 <= k < |b.recent[u]| ==> b.recent[u][k] < |b.invoices|
  }

  /** invoices.append(r); recent_invoices[user_id].append(r) */
  function Append(b: Batch, inv: Invoice): (r: Batch)
    requires WindowsInRange(b)
    ensures WindowsInRange(r) && |r.invoices| == |b.invoices| + 1
  {
    Batch(b.invoices + [inv], b.recent[inv.userId := RecentOf(b.recent, inv.userId) + [|b.invoices|]])
  }

  /** invoices[-1] = f(invoices[-1]) for the two fields the source overwrites. */
  function SetLastAmount(b: Batch, amount: int): (r: Batch)
    requires |b.invoices| > 0 && WindowsInRange(b)
    ensures WindowsInRange(r) && |r.invoices| == |b.invoices|
  {
    var n := |b.invoices|;
    Batch(b.invoices[n - 1 := b.invoices[n - 1].(amount := amount)], b.recent)
  }

  function SetLastFlag(b: Batch): (r: Batch)
    requires |b.invoices| > 0 && WindowsInRange(b)
    ensures WindowsInRange(r) && |r.invoices| == |b.invoices|
  {
    var n := |b.invoices|;
    Batch(b.invoices[n - 1 := b.invoices[n - 1].(fraud := true)], b.recent)
  }

  /** The duplicate's amount and the original's amount afterwards, by strategy. */
  function DuplicateAmounts(amount: int, d: InvoiceDraw): (int, int)
  {
    if d.strategy == 1 then (amount, amount)
    else if d.strategy == 2 then (RoundCents(amount as real * d.jitterFactor), amount)
    else if d.strategy == 3 then (RoundCents(amount as real * d.splitFactor), RoundCents(amount as real * (1.0 - d.splitFactor)))
    else (100 * RoundHalfEven(amount), amount)
  }

  /** The duplicate injector, run right after `main` was appended.  Returns
      the batch and the value of the local total_amount afterwards. */
  function DuplicateStage(b: Batch, main: Invoice, d: InvoiceDraw): (r: (Batch, int))
    requires |b.invoices| > 0 && WindowsInRange(b)
    ensures WindowsInRange(r.0)
    ensures |r.0.invoices| == |b.invoices| + if d.dupCoin < DuplicateRate then 1 else 0
  {
    if d.dupCoin < DuplicateRate then
      var (dupAmount, total) := DuplicateAmounts(main.amount, d);
      var b1 := if d.strategy == 3 then SetLastAmount(b, total) else b;
      var dup := Invoice(|b.invoices| + 1, main.userId, main.date + d.shiftHours * SecondsPerHour, dupAmount,
                         main.iban, main.supplier, main.status, main.due, main.taxId, true);
      (Append(b1, dup), total)
    else (b, main.amount)
  }

  /** Whether the last three records of the user's window lie less than two
      hours apart, consecutively, in absolute value. */
  predicate RapidFire(b: Batch, userId: int)
    requires WindowsInRange(b)
  {
    var w := RecentOf(b.recent, userId);
    |w| >= 3 &&
    var t1, t2, t3 := b.invoices[w[|w| - 3]].date, b.invoices[w[|w| - 2]].date, b.invoices[w[|w| - 1]].date;
    Abs(t2 - t1) < TemporalGap && Abs(t3 - t2) < TemporalGap
  }

  /** The temporal check: flags invoices[-1] when the window is rapid-fire and
      the coin falls. */
  function TemporalStage(b: Batch, userId: int, coin: real): (r: Batch)
    requires |b.invoices| > 0 && WindowsInRange(b)
    ensures WindowsInRange(r) && |r.invoices| == |b.invoices|
  {
    if RapidFire(b, userId) && coin < TemporalRate && !b.invoices[|b.invoices| - 1].fraud then SetLastFlag(b) else b
  }

  /** The round-amount pass: reads the chain's flag and the local
      total_amount, and flags invoices[-1]. */
  function RoundStage(b: Batch, chainFlag: bool, total: int, coin: real): (r: Batch)
    requires |b.invoices| > 0 && WindowsInRange(b)
    ensures WindowsInRange(r) && |r.invoices| == |b.invoices|
  {
    if !chainFlag && total % 100 == 0 && coin < RoundRate then SetLastFlag(b) else b
  }

  /** One iteration of the invoice loop. */
  function InvoiceStep(users: seq<User>, b: Batch, i: nat, d: InvoiceDraw): (r: Batch)
    requires InvoiceDrawInRange(d, |users|) && WindowsInRange(b)
    ensures WindowsInRange(r)
  {
    var main := MainInvoice(users, i, d);
    var b1 := Append(b, main);
    var (b2, total) := DuplicateStage(b1, main, d);
    var b3 := TemporalStage(b2, main.userId, d.temporalCoin);
    RoundStage(b3, main.fraud, total, d.roundCoin)
  }

  // ---------------------------------------------------------------------
  // The recent_invoices dictionary

  /** Positions, in order, of the records of user u. */
  function IndicesOf(invs: seq<Invoice>, u: int): seq<nat>
  {
    if |invs| == 0 then []
    else IndicesOf(invs[..|invs| - 1], u) + (if invs[|invs| - 1].userId == u then [|invs| - 1] else [])
  }

  lemma {:induction false} IndicesOfBounds(invs: seq<Invoice>, u: int)
    ensures forall k :: 0 <= k < |IndicesOf(invs, u)| ==>
      IndicesOf(invs, u)[k] < |invs| && invs[IndicesOf(invs, u)[k]].userId == u
  {
    if |invs| > 0 {
      var init := invs[..|invs| - 1];
      IndicesOfBounds(init, u);
      forall k | 0 <= k < |IndicesOf(init, u)|
        ensures invs[IndicesOf(init, u)[k]] == init[IndicesOf(init, u)[k]]
      {
      }
    }
  }

  lemma {:induction false} IndicesOfSameUsers(a: seq<Invoice>, b: seq<Invoice>, u: int)
    requires |a| == |b|
    requires forall k :: 0 <= k < |a| ==> a[k].userId == b[k].userId
    ensures IndicesOf(a, u) == IndicesOf(b, u)
  {
    if |a| > 0 {
      IndicesOfSameUsers(a[..|a| - 1], b[..|b| - 1], u);
    }
  }

  /** recent_invoices[u] is the list of u's records, duplicates included. */
  ghost predicate ValidBatch(b: Batch)
  {
    forall u :: RecentOf(b.recent, u) == IndicesOf(b.invoices, u)
  }

  lemma ValidBatchInRange(b: Batch)
    requires ValidBatch(b)
    ensures WindowsInRange(b)
  {
    forall u, k | u in b.recent && 0 <= k < |b.recent[u]|
      ensures b.recent[u][k] < |b.invoices|
    {
      assert RecentOf(b.recent, u) == IndicesOf(b.invoices, u);
      IndicesOfBounds(b.invoices, u);
    }
  }

  lemma AppendValid(b: Batch, inv: Invoice)
    requires ValidBatch(b) && WindowsInRange(b)
    ensures ValidBatch(Append(b, inv))
    ensures RecentOf(Append(b, inv).recent, inv.userId) == RecentOf(b.recent, inv.userId) + [|b.invoices|]
  {
    var r := Append(b, inv);
    assert r.invoices[..|r.invoices| - 1] == b.invoices;
    forall u
      ensures RecentOf(r.recent, u) == IndicesOf(r.invoices, u)
    {
      assert RecentOf(b.recent, u) == IndicesOf(b.invoices, u);
    }
  }

  lemma SetLastValid(b: Batch, amount: int)
    requires ValidBatch(b) && WindowsInRange(b) && |b.invoices| > 0
    ensures ValidBatch(SetLastAmount(b, amount)) && ValidBatch(SetLastFlag(b))
  {
    forall u
      ensures RecentOf(b.recent, u) == IndicesOf(SetLastAmount(b, amount).invoices, u)
      ensures RecentOf(b.recent, u) == IndicesOf(SetLastFlag(b).invoices, u)
    {
      assert RecentOf(b.recent, u) == IndicesOf(b.invoices, u);
      IndicesOfSameUsers(b.invoices, SetLastAmount(b, amount).invoices, u);
      IndicesOfSameUsers(b.invoices, SetLastFlag(b).invoices, u);
    }
  }

  lemma DuplicateStageValid(b: Batch, main: Invoice, d: InvoiceDraw)
    requires |b.invoices| > 0 && ValidBatch(b) && WindowsInRange(b)
    ensures ValidBatch(DuplicateStage(b, main, d).0) && WindowsInRange(DuplicateStage(b, main, d).0)
    ensures d.dupCoin < DuplicateRate ==>
      RecentOf(DuplicateStage(b, main, d).0.recent, main.userId) == RecentOf(b.recent, main.userId) + [|b.invoices|]
  {
    if d.dupCoin < DuplicateRate {
      var (dupAmount, total) := DuplicateAmounts(main.amount, d);
      SetLastValid(b, total);
      var b1 := if d.strategy == 3 then SetLastAmount(b, total) else b;
      var dup := Invoice(|b.invoices| + 1, main.userId, main.date + d.shiftHours * SecondsPerHour, dupAmount,
                         main.iban, main.supplier, main.status, main.due, main.taxId, true);
      AppendValid(b1, dup);
      ValidBatchInRange(Append(b1, dup));
    }
  }

  lemma LaterPassesValid(b: Batch, userId: int, chainFlag: bool, total: int, d: InvoiceDraw)
    requires |b.invoices| > 0 && ValidBatch(b) && WindowsInRange(b)
    ensures var b3 := TemporalStage(b, userId, d.temporalCoin);
      ValidBatch(b3) && ValidBatch(RoundStage(b3, chainFlag, total, d.roundCoin))
    ensures RoundStage(TemporalStage(b, userId, d.temporalCoin), chainFlag, total, d.roundCoin).recent == b.recent
  {
    SetLastValid(b, 0);
    var b3 := TemporalStage(b, userId, d.temporalCoin);
    SetLastValid(b3, 0);
  }

  /** A step keeps recent_invoices equal to the per-user positions, and the
      window it inspected ends with the record appended last: the duplicate
      when one was injected. */
  lemma StepValid(users: seq<User>, b: Batch, i: nat, d: InvoiceDraw)
    requires InvoiceDrawInRange(d, |users|) && ValidBatch(b) && WindowsInRange(b)
    ensures ValidBatch(InvoiceStep(users, b, i, d))
    ensures var r := InvoiceStep(users, b, i, d);
      var w := RecentOf(r.recent, d.userId);
      |w| > 0 && w[|w| - 1] == |r.invoices| - 1
  {
    var main := MainInvoice(users, i, d);
    var b1 := Append(b, main);
    AppendValid(b, main);
    DuplicateStageValid(b1, main, d);
    var (b2, total) := DuplicateStage(b1, main, d);
    LaterPassesValid(b2, main.userId, main.fraud, total, d);
  }

  // ---------------------------------------------------------------------
  // What one step does to the invoice list

  /** The temporal and round-amount passes touch only invoices[-1], and only
      its flag, which they can raise but never clear. */
  lemma LaterPassesTouchLastFlag(b: Batch, userId: int, chainFlag: bool, total: int, d: InvoiceDraw)
    requires |b.invoices| > 0 && WindowsInRange(b)
    ensures var r := RoundStage(TemporalStage(b, userId, d.temporalCoin), chainFlag, total, d.roundCoin);
      var n := |b.invoices|;
      && |r.invoices| == n
      && r.invoices[..n - 1] == b.invoices[..n - 1]
      && r.invoices[n - 1].(fraud := b.invoices[n - 1].fraud) == b.invoices[n - 1]
      && (r.invoices[n - 1].fraud <==>
           b.invoices[n - 1].fraud
           || (RapidFire(b, userId) && d.temporalCoin < TemporalRate)
           || (!chainFlag && total % 100 == 0 && d.roundCoin < RoundRate))
  {
    var b3 := TemporalStage(b, userId, d.temporalCoin);
    var n := |b.invoices|;
    assert b3.invoices[..n - 1] == b.invoices[..n - 1];
    var r := RoundStage(b3, chainFlag, total, d.roundCoin);
    assert r.invoices[..n - 1] == b3.invoices[..n - 1];
  }

  lemma DuplicateStageShape(b: Batch, main: Invoice, d: InvoiceDraw)
    requires |b.invoices| > 0 && WindowsInRange(b) && b.invoices[|b.invoices| - 1] == main
    ensures var (r, total) := DuplicateStage(b, main, d);
      var n := |b.invoices|;
      var dup := d.dupCoin < DuplicateRate;
      && |r.invoices| == (if dup then n + 1 else n)
      && r.invoices[..n - 1] == b.invoices[..n - 1]
      && r.invoices[n - 1] == main.(amount := total)
      && total == (if dup then DuplicateAmounts(main.amount, d).1 else main.amount)
      && (dup ==> r.invoices[n] == Invoice(n + 1, main.userId, main.date + d.shiftHours * SecondsPerHour,
                                          DuplicateAmounts(main.amount, d).0, main.iban, main.supplier,
                                          main.status, main.due, main.taxId, true))
  {
    var n := |b.invoices|;
    if d.dupCoin < DuplicateRate {
      var (dupAmount, total) := DuplicateAmounts(main.amount, d);
      var b1 := if d.strategy == 3 then SetLastAmount(b, total) else b;
      assert b1.invoices[..n - 1] == b.invoices[..n - 1];
      assert b1.invoices[n - 1] == main.(amount := total);
      var r := DuplicateStage(b, main, d).0;
      assert r.invoices[..n] == b1.invoices;
      assert r.invoices[..n - 1] == b1.invoices[..n - 1];
    }
  }

  /** One step appends the new invoice (and its duplicate, if one is drawn)
      and leaves every earlier record as it was. */
  lemma {:induction false} StepKeepsEarlierRecords(users: seq<User>, b: Batch, i: nat, d: InvoiceDraw)
    requires InvoiceDrawInRange(d, |users|) && WindowsInRange(b)
    ensures var r := InvoiceStep(users, b, i, d);
      var n := |b.invoices|;
      && |r.invoices| == n + (if d.dupCoin < DuplicateRate then 2 else 1)
      && r.invoices[..n] == b.invoices
  {
    var main := MainInvoice(users, i, d);
    var b1 := Append(b, main);
    var (b2, total) := DuplicateStage(b1, main, d);
    DuplicateStageShape(b1, main, d);
    LaterPassesTouchLastFlag(b2, main.userId, main.fraud, total, d);
    var r := InvoiceStep(users, b, i, d);
    var n := |b.invoices|;
    assert b1.invoices[..n] == b.invoices;
    if d.dupCoin < DuplicateRate {
      assert r.invoices[..n + 1] == b2.invoices[..n + 1];
      assert b2.invoices[..n] == b.invoices;
      assert r.invoices[..n] == r.invoices[..n + 1][..n];
    } else {
      assert r.invoices[..n] == b2.invoices[..n];
    }
  }

  /** The invoice the step generated, after every later pass: only its amount
      (by a split) and its flag (raised, never cleared) differ from the record
      the chain built.  After a duplicate the later passes flag the duplicate,
      not it; without one, its flag is the chain's, or the temporal check's,
      or the round-amount pass's. */
  lemma {:induction false} StepMainRecord(users: seq<User>, b: Batch, i: nat, d: InvoiceDraw)
    requires InvoiceDrawInRange(d, |users|) && WindowsInRange(b)
    ensures var r := InvoiceStep(users, b, i, d);
      var main := MainInvoice(users, i, d);
      var n := |b.invoices|;
      var dup := d.dupCoin < DuplicateRate;
      && |r.invoices| > n
      && r.invoices[n].(amount := main.amount, fraud := main.fraud) == main
      && r.invoices[n].amount == (if dup && d.strategy == 3 then DuplicateAmounts(main.amount, d).1 else main.amount)
      && (main.fraud ==> r.invoices[n].fraud)
      && (dup ==> r.invoices[n].fraud == main.fraud)
      && (!dup ==> (r.invoices[n].fraud <==>
                     main.fraud
                     || (RapidFire(Append(b, main), d.userId) && d.temporalCoin < TemporalRate)
                     || (main.amount % 100 == 0 && d.roundCoin < RoundRate)))
  {
    var main := MainInvoice(users, i, d);
    var b1 := Append(b, main);
    var (b2, total) := DuplicateStage(b1, main, d);
    DuplicateStageShape(b1, main, d);
    LaterPassesTouchLastFlag(b2, main.userId, main.fraud, total, d);
    var n := |b.invoices|;
    var r := InvoiceStep(users, b, i, d);
    if d.dupCoin < DuplicateRate {
      assert r.invoices[..n + 1][n] == b2.invoices[..n + 1][n];
    }
  }

  /** The duplicate record: id len(invoices)+1 just before its append, the
      original's user, IBAN, supplier, status, due date and tax id, a date
      1..72 hours later, and always flagged. */
  lemma {:induction false} StepDuplicateRecord(users: seq<User>, b: Batch, i: nat, d: InvoiceDraw)
    requires InvoiceDrawInRange(d, |users|) && WindowsInRange(b)
    requires d.dupCoin < DuplicateRate
    ensures var r := InvoiceStep(users, b, i, d);
      var main := MainInvoice(users, i, d);
      var n := |b.invoices|;
      && |r.invoices| == n + 2
      && var x := r.invoices[n + 1];
      && x.id == n + 2
      && x.userId == main.userId && x.iban == main.iban && x.supplier == main.supplier
      && x.status == main.status && x.due == main.due && x.taxId == main.taxId
      && SecondsPerHour <= x.date - main.date <= 72 * SecondsPerHour
      && x.amount == DuplicateAmounts(main.amount, d).0
      && x.fraud
  {
    var main := MainInvoice(users, i, d);
    var b1 := Append(b, main);
    var (b2, total) := DuplicateStage(b1, main, d);
    DuplicateStageShape(b1, main, d);
    LaterPassesTouchLastFlag(b2, main.userId, main.fraud, total, d);
  }

  /** Ids are not unique: a step that finds n records and injects a
      duplicate gives it id len(invoices)+1 == n + 2, the id that iteration
      n + 1 gives its own invoice.  While no duplicate has been injected
      n == i, so that is the very next iteration. */
  lemma DuplicateIdCollides(users: seq<User>, b: Batch, i: nat, d: InvoiceDraw, next: InvoiceDraw)
    requires InvoiceDrawInRange(d, |users|) && InvoiceDrawInRange(next, |users|) && WindowsInRange(b)
    requires d.dupCoin < DuplicateRate
    ensures var r := InvoiceStep(users, b, i, d);
      var n := |b.invoices|;
      && |r.invoices| == n + 2
      && r.invoices[n + 1].id == n + 2
      && r.invoices[n + 1].id == MainInvoice(users, n + 1, next).id
  {
    StepDuplicateRecord(users, b, i, d);
  }

  /** A first iteration that injects a duplicate leaves two records, with ids
      1 and 2. */
  lemma FirstDrawDuplicates(users: seq<User>, draws: seq<InvoiceDraw>)
    requires AllInvoiceDrawsInRange(draws, |users|) && |draws| >= 1
    requires draws[0].dupCoin < DuplicateRate
    ensures AllInvoiceDrawsInRange(draws[..1], |users|)
    ensures var b1 := RunInvoices(users, Batch([], map[]), draws[..1]);
      |b1.invoices| == 2 && b1.invoices[1].id == 2
  {
    var first := draws[..1];
    assert AllInvoiceDrawsInRange(first, |users|) && first[0] == draws[0];
    var b0 := RunInvoices(users, Batch([], map[]), first[..0]);
    assert |b0.invoices| == 0;
    StepDuplicateRecord(users, b0, 0, first[0]);
  }

  /** The collision in an actual run of two iterations: when the first
      injects a duplicate, the duplicate (record 1) and the second
      iteration's invoice (record 2) both have id 2. */
  lemma RunRepeatsInvoiceId(users: seq<User>, draws: seq<InvoiceDraw>)
    requires AllInvoiceDrawsInRange(draws, |users|) && |draws| == 2
    requires draws[0].dupCoin < DuplicateRate
    ensures var r := RunInvoices(users, Batch([], map[]), draws);
      |r.invoices| >= 3 && r.invoices[1].id == r.invoices[2].id == 2
  {
    FirstDrawDuplicates(users, draws);
    RunInvoicesSnoc(users, draws, 1);
    assert draws[..2] == draws;
    var b1 := RunInvoices(users, Batch([], map[]), draws[..1]);
    var r := RunInvoices(users, Batch([], map[]), draws);
    StepKeepsEarlierRecords(users, b1, 1, draws[1]);
    StepMainRecord(users, b1, 1, draws[1]);
    assert r.invoices[1] == r.invoices[..2][1];
  }

  /** A split keeps the total within a cent and gives the duplicate 30..70%
      of it (up to rounding). */
  lemma SplitKeepsTotal(amount: int, d: InvoiceDraw)
    requires amount >= 0 && d.strategy == 3 && 0.3 <= d.splitFactor <= 0.7
    ensures var (dup, kept) := DuplicateAmounts(amount, d);
      && amount - 1 <= dup + kept <= amount + 1
      && 0.3 * amount as real - 0.5 < dup as real <= 0.7 * amount as real + 0.5
  {
    var a := amount as real;
    var f := d.splitFactor;
    RoundCentsComplement(a, f);
    RoundCentsScaled(a, f, 0.3, 0.7);
    assert RoundCents(a * f) as real <= 0.7 * a + 0.5;
    assert DuplicateAmounts(amount, d).0 == RoundCents(a * f);
  }

  /** The other strategies leave the original's amount alone and give the
      duplicate the same amount, the amount jittered by at most 5% (up to
      rounding), or the amount rounded to whole units. */
  lemma DuplicateAmountsByStrategy(amount: int, d: InvoiceDraw)
    requires amount >= 0 && 0.95 <= d.jitterFactor <= 1.05
    ensures var (dup, kept) := DuplicateAmounts(amount, d);
      && (d.strategy != 3 ==> kept == amount)
      && (d.strategy == 1 ==> dup == amount)
      && (d.strategy == 2 ==> 0.95 * amount as real - 0.5 < dup as real <= 1.05 * amount as real + 0.5)
      && (d.strategy !in {1, 2, 3} ==> dup % 100 == 0 && -50 <= dup - amount <= 50)
  {
    var a := amount as real;
    var j := d.jitterFactor;
    RoundCentsScaled(a, j, 0.95, 1.05);
    assert d.strategy == 2 ==> DuplicateAmounts(amount, d).0 == RoundCents(a * j);
    RoundHalfEvenNear(amount);
  }

  /** Every record a step appends belongs to the drawn user. */
  lemma StepUserIds(users: seq<User>, b: Batch, i: nat, d: InvoiceDraw)
    requires InvoiceDrawInRange(d, |users|) && WindowsInRange(b)
    ensures var r := InvoiceStep(users, b, i, d);
      forall k :: |b.invoices| <= k < |r.invoices| ==> r.invoices[k].userId == d.userId
  {
    StepKeepsEarlierRecords(users, b, i, d);
    StepMainRecord(users, b, i, d);
    InvoiceChainFirstFireWins(users, i, d);
    if d.dupCoin < DuplicateRate {
      StepDuplicateRecord(users, b, i, d);
    }
  }

  // ---------------------------------------------------------------------
  // The whole invoice loop

  predicate AllInvoiceDrawsInRange(draws: seq<InvoiceDraw>, numUsers: nat)
  {
    forall i :: 0 <= i < |draws| ==> InvoiceDrawInRange(draws[i], numUsers)
  }

  /** for i in range(len(draws)): one step per draw, i counting from 0. */
  function RunInvoices(users: seq<User>, b: Batch, draws: seq<InvoiceDraw>): (r: Batch)
    requires AllInvoiceDrawsInRange(draws, |users|) && WindowsInRange(b)
    ensures WindowsInRange(r)
  {
    if |draws| == 0 then b
    else
      var n := |draws| - 1;
      InvoiceStep(users, RunInvoices(users, b, draws[..n]), n, draws[n])
  }

  /** The loop runs one more step on draw i. */
  lemma {:induction false} RunInvoicesSnoc(users: seq<User>, draws: seq<InvoiceDraw>, i: nat)
    requires AllInvoiceDrawsInRange(draws, |users|) && i < |draws|
    ensures AllInvoiceDrawsInRange(draws[..i], |users|) && AllInvoiceDrawsInRange(draws[..i + 1], |users|)
    ensures RunInvoices(users, Batch([], map[]), draws[..i + 1])
         == InvoiceStep(users, RunInvoices(users, Batch([], map[]), draws[..i]), i, draws[i])
  {
    assert AllInvoiceDrawsInRange(draws[..i], |users|);
    assert AllInvoiceDrawsInRange(draws[..i + 1], |users|);
    var prefix := draws[..i + 1];
    assert prefix[..i] == draws[..i] && prefix[i] == draws[i];
  }

  /** One step keeps every user id in 1..num_users. */
  lemma StepUserIdsInRange(users: seq<User>, b: Batch, i: nat, d: InvoiceDraw)
    requires InvoiceDrawInRange(d, |users|) && WindowsInRange(b)
    requires forall k :: 0 <= k < |b.invoices| ==> 1 <= b.invoices[k].userId <= |users|
    ensures var r := InvoiceStep(users, b, i, d);
      forall k :: 0 <= k < |r.invoices| ==> 1 <= r.invoices[k].userId <= |users|
  {
    StepKeepsEarlierRecords(users, b, i, d);
    StepUserIds(users, b, i, d);
    var r := InvoiceStep(users, b, i, d);
    forall k | 0 <= k < |b.invoices|
      ensures r.invoices[k] == b.invoices[k]
    {
      assert r.invoices[k] == r.invoices[..|b.invoices|][k];
    }
  }

  lemma {:induction false} RunInvoicesLength(users: seq<User>, draws: seq<InvoiceDraw>)
    requires AllInvoiceDrawsInRange(draws, |users|)
    ensures |draws| <= |RunInvoices(users, Batch([], map[]), draws).invoices| <= 2 * |draws|
  {
    if |draws| > 0 {
      var n := |draws| - 1;
      assert AllInvoiceDrawsInRange(draws[..n], |users|);
      RunInvoicesLength(users, draws[..n]);
      StepKeepsEarlierRecords(users, RunInvoices(users, Batch([], map[]), draws[..n]), n, draws[n]);
    }
  }

  lemma {:induction false} RunInvoicesUserIds(users: seq<User>, draws: seq<InvoiceDraw>)
    requires AllInvoiceDrawsInRange(draws, |users|)
    ensures forall k :: 0 <= k < |RunInvoices(users, Batch([], map[]), draws).invoices| ==>
      1 <= RunInvoices(users, Batch([], map[]), draws).invoices[k].userId <= |users|
  {
    if |draws| > 0 {
      var n := |draws| - 1;
      assert AllInvoiceDrawsInRange(draws[..n], |users|);
      RunInvoicesUserIds(users, draws[..n]);
      StepUserIdsInRange(users, RunInvoices(users, Batch([], map[]), draws[..n]), n, draws[n]);
    }
  }

  lemma {:induction false} RunInvoicesValid(users: seq<User>, draws: seq<InvoiceDraw>)
    requires AllInvoiceDrawsInRange(draws, |users|)
    ensures ValidBatch(RunInvoices(users, Batch([], map[]), draws))
  {
    if |draws| > 0 {
      var n := |draws| - 1;
      assert AllInvoiceDrawsInRange(draws[..n], |users|);
      RunInvoicesValid(users, draws[..n]);
      StepValid(users, RunInvoices(users, Batch([], map[]), draws[..n]), n, draws[n]);
    } else {
      forall u
        ensures RecentOf(map[], u) == IndicesOf([], u)
      {
      }
    }
  }

  /** What the loop leaves behind, starting from no invoices: one or two
      records per iteration, each for a user in 1..num_users, and
      recent_invoices listing exactly each user's records. */
  lemma RunInvoicesShape(users: seq<User>, draws: seq<InvoiceDraw>)
    requires AllInvoiceDrawsInRange(draws, |users|)
    ensures var r := RunInvoices(users, Batch([], map[]), draws);
      && |draws| <= |r.invoices| <= 2 * |draws|
      && (forall k :: 0 <= k < |r.invoices| ==> 1 <= r.invoices[k].userId <= |users|)
      && ValidBatch(r)
  {
    RunInvoicesLength(users, draws);
    RunInvoicesUserIds(users, draws);
    RunInvoicesValid(users, draws);
  }
}
