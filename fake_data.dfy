/** The simpler generator: users with independent placeholder rewrites of
    email and phone, invoices whose amount may be replaced, for a user with
    earlier invoices, by that user's average shifted up or down by 1000..5000
    euros, and a fraud label that looks only at the amount.  The
    same script exists twice in the repository (fakeData.py and
    Memgraph_ML/fakeData.py); this module models both. */
module FakeData {
  import opened Util
  import opened Clock
  import opened Vat
  import opened FraudInvoices

  const NumUsers: nat := 1000
  const NumInvoices: nat := 1000

  const FakeEmailRate: real := 0.05
  const FakePhoneRate: real := 0.05
  const AdjustRate: real := 0.2
  const IncreaseRate: real := 0.5
  const EarlyDueRate: real := 0.05

  const PlaceholderPhone: string := "0000000000"

  /** Label thresholds in cents: above 5000 or below 50. */
  const LabelHigh: int := 500000
  const LabelLow: int := 5000

  /** users.append([user_name, email, phone_number, registration_date, vat_number]);
      the user's id is its position plus one. */
  datatype FakeUser = FakeUser(name: string, email: string, phone: string, registration: int, vat: string)

  /** The user loop's draws.  Faker dates are whole days, so a registration
      is a day number (days since 1970-01-01) and formats at 00:00:00. */
  datatype FakeUserDraw = FakeUserDraw(
    name: string, email: string, phone: string,
    emailCoin: real, emailNumber: nat, phoneCoin: real,
    registrationDay: int, vatDraws: seq<nat>)

  predicate FakeUserDrawInRange(d: FakeUserDraw)
  {
    && 1000 <= d.emailNumber <= 9999
    && (forall i :: 0 <= i < |d.vatDraws| ==> InVatRange(d.vatDraws[i]))
  }

  /** f"fake{n}@example.com" */
  function FakeEmail(n: nat): string
  {
    "fake" + Decimal(n) + "@example.com"
  }

  lemma FakeEmailShape(n: nat)
    requires 1000 <= n <= 9999
    ensures |FakeEmail(n)| == 20
    ensures FakeEmail(n)[..4] == "fake" && AllDigits(FakeEmail(n)[4..8]) && FakeEmail(n)[8..] == "@example.com"
  {
    assert Pow10(3) == 1000 && Pow10(4) == 10000;
    DecimalLength(n, 4);
    assert FakeEmail(n)[4..8] == Decimal(n);
  }

  /** The user the loop body builds from its draws and allocated VAT. */
  function FakeUserOf(d: FakeUserDraw, vat: string): FakeUser
  {
    FakeUser(d.name,
             if d.emailCoin < FakeEmailRate then FakeEmail(d.emailNumber) else d.email,
             if d.phoneCoin < FakePhoneRate then PlaceholderPhone else d.phone,
             d.registrationDay * SecondsPerDay, vat)
  }

  /** The two rewrites are independent: each applies exactly when its own
      coin falls, both may apply to the same user, and the registration time
      is always midnight. */
  lemma FakeUserRewrites(d: FakeUserDraw, vat: string)
    requires FakeUserDrawInRange(d)
    ensures var u := FakeUserOf(d, vat);
      && (u.email != d.email ==> d.emailCoin < FakeEmailRate)
      && (d.emailCoin < FakeEmailRate ==> u.email == FakeEmail(d.emailNumber))
      && (u.phone != d.phone ==> d.phoneCoin < FakePhoneRate)
      && (d.phoneCoin < FakePhoneRate ==> u.phone == PlaceholderPhone)
      && HourOf(u.registration) == 0 && MinuteOf(u.registration) == 0 && SecondOf(u.registration) == 0
      && u.vat == vat
    ensures var both := d.(emailCoin := 0.0, phoneCoin := 0.0);
      FakeUserOf(both, vat).email == FakeEmail(d.emailNumber) && FakeUserOf(both, vat).phone == PlaceholderPhone
  {
    TimeOfDayFields(d.registrationDay, 0, 0, 0);
  }

  function FakeUsers(draws: seq<FakeUserDraw>, vats: seq<string>): (us: seq<FakeUser>)
    requires |vats| == |draws|
    ensures |us| == |draws|
  {
    seq(|draws|, k requires 0 <= k < |draws| => FakeUserOf(draws[k], vats[k]))
  }

  /** The loop appends the user built from draw i. */
  lemma FakeUsersSnoc(draws: seq<FakeUserDraw>, vats: seq<string>, i: nat, v: string)
    requires i < |draws| && |vats| == i
    ensures FakeUsers(draws[..i + 1], vats + [v]) == FakeUsers(draws[..i], vats) + [FakeUserOf(draws[i], v)]
  {
    var before, after := FakeUsers(draws[..i], vats), FakeUsers(draws[..i + 1], vats + [v]);
    var expected := before + [FakeUserOf(draws[i], v)];
    forall k | 0 <= k <= i
      ensures after[k] == expected[k]
    {
      assert draws[..i + 1][k] == draws[k] && (vats + [v])[k] == (if k < i then vats[k] else v);
      if k < i {
        assert draws[..i][k] == draws[k];
      }
    }
    assert |after| == |expected|;
  }

  function FakeVatStreams(draws: seq<FakeUserDraw>): (s: seq<seq<nat>>)
    ensures |s| == |draws| && forall k :: 0 <= k < |draws| ==> s[k] == draws[k].vatDraws
  {
    seq(|draws|, k requires 0 <= k < |draws| => draws[k].vatDraws)
  }

  /** The invoice loop's draws.  The invoice date is a day number; the due
      offset is one randint(1, 60) used in either direction. */
  datatype FakeInvoiceDraw = FakeInvoiceDraw(
    userId: int, invoiceDay: int, amount: int,
    adjustCoin: real, increaseCoin: real, adjustEuros: int,
    iban: string, statusChoice: nat,
    dueCoin: real, dueDays: int,
    taxUserChoice: nat)

  predicate FakeInvoiceDrawInRange(d: FakeInvoiceDraw, numUsers: nat)
  {
    && 1 <= d.userId <= numUsers
    && 5000 <= d.amount <= 500000
    && 1000 <= d.adjustEuros <= 5000
    && d.statusChoice < |Statuses|
    && 1 <= d.dueDays <= 60
    && d.taxUserChoice < numUsers
  }

  /** invoices.append([invoice_id, user_id, invoice_date, total_amount, supplier_iban, status, due_date, supplier_tax_id]) */
  datatype FakeInvoice = FakeInvoice(id: int, userId: int, date: int, amount: int, iban: string,
                                     status: Status, due: int, taxId: string)

  /** [invoice[3] for invoice in invoices if invoice[1] == user_id] */
  function UserAmounts(invoices: seq<FakeInvoice>, userId: int): seq<int>
  {
    if |invoices| == 0 then []
    else
      var n := |invoices| - 1;
      UserAmounts(invoices[..n], userId) + (if invoices[n].userId == userId then [invoices[n].amount] else [])
  }

  function Sum(xs: seq<int>): int
  {
    if |xs| == 0 then 0 else Sum(xs[..|xs| - 1]) + xs[|xs| - 1]
  }

  /** round(avg_amount + delta, 2) in cents, for an average of `count`
      amounts summing to `sum` cents and a shift of `delta` whole euros:
      the exact mean n / count rounded half up is (2n + count) div (2 count). */
  function AdjustedAmount(sum: int, count: nat, delta: int): int
    requires count > 0
  {
    (2 * (sum + 100 * delta * count) + count) / (2 * count)
  }

  /** The adjusted amount is the user's average shifted by delta euros, to
      the nearest cent: count * r is within count / 2 of the shifted sum. */
  lemma AdjustedAmountNear(sum: int, count: nat, delta: int)
    requires count > 0
    ensures var r := AdjustedAmount(sum, count, delta);
      2 * Abs(count * r - (sum + 100 * delta * count)) <= count
  {
    var n := sum + 100 * delta * count;
    var r := AdjustedAmount(sum, count, delta);
    var m := (2 * n + count) % (2 * count);
    assert 2 * n + count == (2 * count) * r + m && 0 <= m < 2 * count;
    assert 2 * (count * r - n) == count - m;
  }

  /** Nothing bounds an adjusted amount from below: a user whose only
      earlier invoice was 50.00 and who draws a 1000-euro decrease gets an
      invoice of -950.00. */
  lemma AdjustmentMayGoNegative()
    ensures AdjustedAmount(5000, 1, -1000) == -95000
  {
  }

  /** The amount the loop body settles on. */
  function FakeAmount(invoices: seq<FakeInvoice>, d: FakeInvoiceDraw): int
  {
    var mine := UserAmounts(invoices, d.userId);
    if d.adjustCoin < AdjustRate && |mine| > 0 then
      AdjustedAmount(Sum(mine), |mine|, if d.increaseCoin < IncreaseRate then d.adjustEuros else -d.adjustEuros)
    else d.amount
  }

  /** The invoice numbered i the loop body builds on top of `invoices`. */
  function FakeInvoiceOf(users: seq<FakeUser>, invoices: seq<FakeInvoice>, i: nat, d: FakeInvoiceDraw): FakeInvoice
    requires FakeInvoiceDrawInRange(d, |users|)
  {
    var date := d.invoiceDay * SecondsPerDay;
    var due := if d.dueCoin < EarlyDueRate then date - d.dueDays * SecondsPerDay else date + d.dueDays * SecondsPerDay;
    FakeInvoice(i + 1, d.userId, date, FakeAmount(invoices, d), d.iban, Statuses[d.statusChoice], due, users[d.taxUserChoice].vat)
  }

  /** The invoice's fields: sequential id, midnight dates, the due date 1..60
      days before the invoice date exactly when the early coin falls (after
      it otherwise), a user's VAT as tax id, and an amount that is the drawn
      one unless an adjustment applied to a user with earlier invoices. */
  lemma FakeInvoiceShape(users: seq<FakeUser>, invoices: seq<FakeInvoice>, i: nat, d: FakeInvoiceDraw)
    requires FakeInvoiceDrawInRange(d, |users|)
    ensures var inv := FakeInvoiceOf(users, invoices, i, d);
      && inv.id == i + 1 && inv.userId == d.userId
      && inv.date % SecondsPerDay == 0 && inv.due % SecondsPerDay == 0
      && (inv.due < inv.date <==> d.dueCoin < EarlyDueRate)
      && SecondsPerDay <= Abs(inv.due - inv.date) <= 60 * SecondsPerDay
      && (exists k :: 0 <= k < |users| && inv.taxId == users[k].vat)
      && (inv.amount != d.amount ==> d.adjustCoin < AdjustRate && |UserAmounts(invoices, d.userId)| > 0)
  {
    var inv := FakeInvoiceOf(users, invoices, i, d);
    DivModUnique(d.invoiceDay, 0, SecondsPerDay);
    if d.dueCoin < EarlyDueRate {
      DivModUnique(d.invoiceDay - d.dueDays, 0, SecondsPerDay);
    } else {
      DivModUnique(d.invoiceDay + d.dueDays, 0, SecondsPerDay);
    }
    assert inv.taxId == users[d.taxUserChoice].vat;
  }

  /** The fields generate_fraud_label is handed. */
  datatype LabelInput = LabelInput(amount: int, status: Status, invoiceDate: int, due: int, taxId: string)

  /** generate_fraud_label: 1 for amounts above 5000.00 or below 50.00. */
  function GenerateFraudLabel(row: LabelInput): (r: int)
    ensures r == 0 || r == 1
    ensures r == 1 <==> row.amount > LabelHigh || row.amount < LabelLow
  {
    if row.amount > LabelHigh then 1
    else if row.amount < LabelLow then 1
    else 0
  }

  function LabelInputOf(inv: FakeInvoice): LabelInput
  {
    LabelInput(inv.amount, inv.status, inv.date, inv.due, inv.taxId)
  }

  /** A drawn amount lies in 50.00..5000.00, so only an adjusted invoice can
      be labelled fraudulent. */
  lemma LabelledOnlyIfAdjusted(users: seq<FakeUser>, invoices: seq<FakeInvoice>, i: nat, d: FakeInvoiceDraw)
    requires FakeInvoiceDrawInRange(d, |users|)
    ensures GenerateFraudLabel(LabelInputOf(FakeInvoiceOf(users, invoices, i, d))) == 1 ==>
      d.adjustCoin < AdjustRate && |UserAmounts(invoices, d.userId)| > 0
  {
    FakeInvoiceShape(users, invoices, i, d);
  }

  predicate AllFakeInvoiceDrawsInRange(draws: seq<FakeInvoiceDraw>, numUsers: nat)
  {
    forall i :: 0 <= i < |draws| ==> FakeInvoiceDrawInRange(draws[i], numUsers)
  }

  /** for i in range(len(draws)), each body reading the invoices so far. */
  function RunFakeInvoices(users: seq<FakeUser>, draws: seq<FakeInvoiceDraw>): (r: seq<FakeInvoice>)
    requires AllFakeInvoiceDrawsInRange(draws, |users|)
    ensures |r| == |draws|
  {
    if |draws| == 0 then []
    else
      var n := |draws| - 1;
      var prev := RunFakeInvoices(users, draws[..n]);
      prev + [FakeInvoiceOf(users, prev, n, draws[n])]
  }

  /** Unlike the fraud-labelled generator, ids here are 1..n in order, hence
      distinct, and every invoice names a user in 1..num_users. */
  lemma {:induction false} RunFakeInvoicesShape(users: seq<FakeUser>, draws: seq<FakeInvoiceDraw>)
    requires AllFakeInvoiceDrawsInRange(draws, |users|)
    ensures forall k :: 0 <= k < |draws| ==> RunFakeInvoices(users, draws)[k].id == k + 1
    ensures forall k :: 0 <= k < |draws| ==> 1 <= RunFakeInvoices(users, draws)[k].userId <= |users|
  {
    if |draws| > 0 {
      var n := |draws| - 1;
      assert AllFakeInvoiceDrawsInRange(draws[..n], |users|);
      RunFakeInvoicesShape(users, draws[..n]);
      var prev := RunFakeInvoices(users, draws[..n]);
      FakeInvoiceShape(users, prev, n, draws[n]);
      var r := RunFakeInvoices(users, draws);
      assert r == prev + [FakeInvoiceOf(users, prev, n, draws[n])];
      assert FakeInvoiceDrawInRange(draws[n], |users|);
      forall k | 0 <= k < |r|
        ensures r[k].id == k + 1 && 1 <= r[k].userId <= |users|
      {
        if k < n {
          assert r[k] == prev[k];
        } else {
          assert r[k] == FakeInvoiceOf(users, prev, n, draws[n]);
        }
      }
    }
  }

  /** One output row: [user_id] + user + [invoice_id, user_id, invoice_date,
      total_amount, supplier_iban, status, due_date, supplier_tax_id, fraud_label]. */
  datatype FakeRow = FakeRow(
    userId: int, userName: string, email: string, phone: string, registration: int, vat: string,
    invoiceId: int, invoiceUserId: int, invoiceDate: int, amount: int, iban: string,
    status: Status, due: int, taxId: string, fraudLabel: int)

  function FakeRowOf(u: FakeUser, inv: FakeInvoice): FakeRow
  {
    FakeRow(inv.userId, u.name, u.email, u.phone, u.registration, u.vat,
            inv.id, inv.userId, inv.date, inv.amount, inv.iban, inv.status, inv.due, inv.taxId,
            GenerateFraudLabel(LabelInputOf(inv)))
  }

  predicate UserIdsInRange(users: seq<FakeUser>, invoices: seq<FakeInvoice>)
  {
    forall k :: 0 <= k < |invoices| ==> 1 <= invoices[k].userId <= |users|
  }

  /** One row per invoice, joined with users[user_id - 1]. */
  function FakeRows(users: seq<FakeUser>, invoices: seq<FakeInvoice>): seq<FakeRow>
    requires UserIdsInRange(users, invoices)
  {
    seq(|invoices|, k requires 0 <= k < |invoices| => FakeRowOf(users[invoices[k].userId - 1], invoices[k]))
  }

  /** The output loop: one row per invoice, carrying the invoice's user, its
      own fields and the amount-based label. */
  method JoinFakeRows(users: seq<FakeUser>, invoices: seq<FakeInvoice>) returns (rows: seq<FakeRow>)
    requires UserIdsInRange(users, invoices)
    ensures rows == FakeRows(users, invoices)
    ensures forall k :: 0 <= k < |invoices| ==>
      && rows[k].userId == rows[k].invoiceUserId == invoices[k].userId
      && rows[k].vat == users[invoices[k].userId - 1].vat
    ensures forall k :: 0 <= k < |invoices| ==>
      (rows[k].fraudLabel == 1 <==> invoices[k].amount > LabelHigh || invoices[k].amount < LabelLow)
  {
    rows := [];
    var i := 0;
    while i < |invoices|
      invariant 0 <= i <= |invoices| && |rows| == i
      invariant forall k :: 0 <= k < i ==> rows[k] == FakeRowOf(users[invoices[k].userId - 1], invoices[k])
    {
      var invoice := invoices[i];
      var user := users[invoice.userId - 1];
      var fraudLabel := GenerateFraudLabel(LabelInputOf(invoice));
      rows := rows + [FakeRow(invoice.userId, user.name, user.email, user.phone, user.registration, user.vat,
                              invoice.id, invoice.userId, invoice.date, invoice.amount, invoice.iban,
                              invoice.status, invoice.due, invoice.taxId, fraudLabel)];
      i := i + 1;
    }
  }

  class FakeDataGenerator {
    var usedVat: set<string>
    var users: seq<FakeUser>
    var invoices: seq<FakeInvoice>

    constructor ()
      ensures usedVat == {} && users == [] && invoices == []
    {
      usedVat, users, invoices := {}, [], [];
    }

    /** generate_unique_vat_id on this generator's used set. */
    method GenerateUniqueVatId(draws: seq<nat>) returns (vat: Option<string>)
      modifies this
      ensures vat == FreshVat(old(usedVat), draws)
      ensures usedVat == if vat.Some? then old(usedVat) + {vat.value} else old(usedVat)
      ensures users == old(users) && invoices == old(invoices)
    {
      var used';
      vat, used' := AllocateVat(usedVat, draws);
      usedVat := used';
    }

    /** One iteration of the user loop; ok is false when no candidate VAT in
        the draws is free. */
    method GenerateUser(d: FakeUserDraw) returns (ok: bool)
      modifies this
      ensures ok == FreshVat(old(usedVat), d.vatDraws).Some?
      ensures ok ==>
        var v := FreshVat(old(usedVat), d.vatDraws).value;
        users == old(users) + [FakeUserOf(d, v)] && usedVat == old(usedVat) + {v}
      ensures !ok ==> users == old(users) && usedVat == old(usedVat)
      ensures invoices == old(invoices)
    {
      var email := d.email;
      var phone := d.phone;
      if d.emailCoin < FakeEmailRate {
        email := FakeEmail(d.emailNumber);
      }
      if d.phoneCoin < FakePhoneRate {
        phone := PlaceholderPhone;
      }
      var registration := d.registrationDay * SecondsPerDay;
      var vat := GenerateUniqueVatId(d.vatDraws);
      if vat.None? {
        return false;
      }
      users := users + [FakeUser(d.name, email, phone, registration, vat.value)];
      ok := true;
    }

    /** The user loop, on a generator with no users yet. */
    method GenerateUsers(draws: seq<FakeUserDraw>) returns (ok: bool)
      requires users == []
      modifies this
      ensures var run := AllocateEach(old(usedVat), FakeVatStreams(draws));
        && ok == run.Some?
        && (ok ==> users == FakeUsers(draws, run.value.vats) && usedVat == run.value.used)
      ensures invoices == old(invoices)
    {
      ghost var streams := FakeVatStreams(draws);
      ghost var vats: seq<string> := [];
      var i := 0;
      while i < |draws|
        invariant 0 <= i <= |draws| && |vats| == i
        invariant AllocateEach(old(usedVat), streams[..i]) == Some(Allocation(vats, usedVat))
        invariant users == FakeUsers(draws[..i], vats)
        invariant invoices == old(invoices)
      {
        ghost var usedBefore := usedVat;
        AllocateEachExtend(old(usedVat), streams, i, Allocation(vats, usedVat));
        var added := GenerateUser(draws[i]);
        if !added {
          return false;
        }
        ghost var v := FreshVat(usedBefore, draws[i].vatDraws).value;
        FakeUsersSnoc(draws, vats, i, v);
        vats := vats + [v];
        i := i + 1;
      }
      assert streams[..i] == streams && draws[..i] == draws;
      ok := true;
    }

    /** One iteration of the invoice loop, numbered i. */
    method GenerateInvoice(i: nat, d: FakeInvoiceDraw)
      requires FakeInvoiceDrawInRange(d, |users|)
      modifies this
      ensures invoices == old(invoices) + [FakeInvoiceOf(old(users), old(invoices), i, d)]
      ensures users == old(users) && usedVat == old(usedVat)
    {
      var invoiceId := i + 1;
      var invoiceDate := d.invoiceDay * SecondsPerDay;
      var totalAmount := d.amount;
      if d.adjustCoin < AdjustRate {
        var userInvoices := UserAmounts(invoices, d.userId);
        if |userInvoices| > 0 {
          if d.increaseCoin < IncreaseRate {
            totalAmount := AdjustedAmount(Sum(userInvoices), |userInvoices|, d.adjustEuros);
          } else {
            totalAmount := AdjustedAmount(Sum(userInvoices), |userInvoices|, -d.adjustEuros);
          }
        }
      }
      var status := Statuses[d.statusChoice];
      var dueDate;
      if d.dueCoin < EarlyDueRate {
        dueDate := invoiceDate - d.dueDays * SecondsPerDay;
      } else {
        dueDate := invoiceDate + d.dueDays * SecondsPerDay;
      }
      var taxId := users[d.taxUserChoice].vat;
      invoices := invoices + [FakeInvoice(invoiceId, d.userId, invoiceDate, totalAmount, d.iban, status, dueDate, taxId)];
    }

    /** The invoice loop, on a generator with its users and no invoices. */
    method GenerateInvoices(draws: seq<FakeInvoiceDraw>)
      requires invoices == [] && AllFakeInvoiceDrawsInRange(draws, |users|)
      modifies this
      ensures invoices == RunFakeInvoices(old(users), draws)
      ensures users == old(users) && usedVat == old(usedVat)
    {
      var i := 0;
      while i < |draws|
        invariant 0 <= i <= |draws|
        invariant AllFakeInvoiceDrawsInRange(draws[..i], |users|)
        invariant invoices == RunFakeInvoices(users, draws[..i])
        invariant users == old(users) && usedVat == old(usedVat)
      {
        assert draws[..i + 1][..i] == draws[..i];
        GenerateInvoice(i, draws[i]);
        i := i + 1;
      }
      assert draws[..i] == draws;
    }

    /** The whole script: users, invoices, then the output rows. */
    method Run(userDraws: seq<FakeUserDraw>, invoiceDraws: seq<FakeInvoiceDraw>) returns (rows: Option<seq<FakeRow>>)
      requires usedVat == {} && users == [] && invoices == []
      requires |userDraws| == NumUsers
      requires |invoiceDraws| == NumInvoices && AllFakeInvoiceDrawsInRange(invoiceDraws, NumUsers)
      modifies this
      ensures var run := AllocateEach({}, FakeVatStreams(userDraws));
        && (rows.Some? <==> run.Some?)
        && (rows.Some? ==>
              && users == FakeUsers(userDraws, run.value.vats)
              && invoices == RunFakeInvoices(users, invoiceDraws)
              && UserIdsInRange(users, invoices)
              && rows.value == FakeRows(users, invoices))
    {
      var ok := GenerateUsers(userDraws);
      if !ok {
        return None;
      }
      GenerateInvoices(invoiceDraws);
      RunFakeInvoicesShape(users, invoiceDraws);
      var out := JoinFakeRows(users, invoices);
      rows := Some(out);
    }
  }
}
