/** The fraud-labelled dataset script as a stateful generator: the module
    globals (used VAT numbers, users, invoices, recent_invoices) are fields,
    each loop body is a method proved to perform one step of the pure model,
    and the output join turns invoices into labelled rows. */
module FraudDataset {
  import opened Util
  import opened Clock
  import opened Vat
  import opened FraudUsers
  import opened FraudInvoices

  const NumUsers: nat := 1000
  const NumInvoices: nat := 1500

  /** One row of the output file: the user's six fields, the invoice's
      eight fields other than its flag, and the combined label. */
  datatype Row = Row(
    userId: int, userName: string, email: string, phone: string, registration: int, vat: string,
    invoiceId: int, invoiceDate: int, amount: int, iban: string, supplier: string,
    status: Status, due: int, taxId: string, fraudLabel: int)

  /** next((u for u in users if u[0] == user_id), None) */
  function FindUser(users: seq<User>, userId: int): (r: Option<User>)
    ensures r.Some? ==> r.value in users && r.value.id == userId
    ensures r.None? <==> forall k :: 0 <= k < |users| ==> users[k].id != userId
  {
    var hits := seq(|users|, k requires 0 <= k < |users| => users[k].id == userId);
    match FirstMatch(hits)
    case None =>
      forall k | 0 <= k < |users|
        ensures users[k].id != userId
      {
        assert !hits[k];
      }
      None
    case Some(k) => Some(users[k])
  }

  /** next() stops at the first user with the id: the result is that user. */
  lemma FindUserIsFirst(users: seq<User>, userId: int)
    ensures FindUser(users, userId).Some? ==>
      exists i :: 0 <= i < |users| && FindUser(users, userId).value == users[i] && users[i].id == userId
        && forall j :: 0 <= j < i ==> users[j].id != userId
  {
    var hits := seq(|users|, k requires 0 <= k < |users| => users[k].id == userId);
    match FirstMatch(hits)
    case None =>
    case Some(k) =>
      forall j | 0 <= j < k
        ensures users[j].id != userId
      {
        assert !hits[j];
      }
      assert FindUser(users, userId).value == users[k];
  }

  /** When users are numbered 1..n in order, user id u is found at u - 1. */
  lemma FindNumberedUser(users: seq<User>, userId: int)
    requires forall k :: 0 <= k < |users| ==> users[k].id == k + 1
    requires 1 <= userId <= |users|
    ensures FindUser(users, userId) == Some(users[userId - 1])
  {
    var hits := seq(|users|, k requires 0 <= k < |users| => users[k].id == userId);
    FirstMatchAt(hits, userId - 1);
  }

  /** fraud_label = 1 if is_fraud_user == 1 or is_fraud_invoice == 1 else 0 */
  function MakeRow(u: User, inv: Invoice): Row
  {
    Row(u.id, u.name, u.email, u.phone, u.registration, u.vat,
        inv.id, inv.date, inv.amount, inv.iban, inv.supplier, inv.status, inv.due, inv.taxId,
        if u.fraud || inv.fraud then 1 else 0)
  }

  /** The rows the output loop produces: invoices whose user is not found
      are skipped. */
  function OutputRows(users: seq<User>, invoices: seq<Invoice>): seq<Row>
  {
    if |invoices| == 0 then []
    else
      var n := |invoices| - 1;
      OutputRows(users, invoices[..n])
      + match FindUser(users, invoices[n].userId)
        case None => []
        case Some(u) => [MakeRow(u, invoices[n])]
  }

  /** The output loop. */
  method JoinRows(users: seq<User>, invoices: seq<Invoice>) returns (rows: seq<Row>)
    ensures rows == OutputRows(users, invoices)
    ensures |rows| <= |invoices|
  {
    rows := [];
    var i := 0;
    while i < |invoices|
      invariant 0 <= i <= |invoices|
      invariant rows == OutputRows(users, invoices[..i])
      invariant |rows| <= i
    {
      assert invoices[..i + 1][..i] == invoices[..i];
      var invoice := invoices[i];
      var user := FindUser(users, invoice.userId);
      if user.Some? {
        rows := rows + [MakeRow(user.value, invoice)];
      }
      i := i + 1;
    }
    assert invoices[..i] == invoices;
  }

  /** Every invoice has its user when users are numbered 1..n and invoices
      name users in 1..n: one row per invoice, in order. */
  lemma {:induction false} OutputRowsJoinAll(users: seq<User>, invoices: seq<Invoice>)
    requires forall k :: 0 <= k < |users| ==> users[k].id == k + 1
    requires forall k :: 0 <= k < |invoices| ==> 1 <= invoices[k].userId <= |users|
    ensures var rows := OutputRows(users, invoices);
      && |rows| == |invoices|
      && (forall k :: 0 <= k < |invoices| ==> rows[k] == MakeRow(users[invoices[k].userId - 1], invoices[k]))
  {
    if |invoices| > 0 {
      var n := |invoices| - 1;
      var init := invoices[..n];
      OutputRowsJoinAll(users, init);
      FindNumberedUser(users, invoices[n].userId);
      var rows, prev := OutputRows(users, invoices), OutputRows(users, init);
      var last := MakeRow(users[invoices[n].userId - 1], invoices[n]);
      assert rows == prev + [last];
      forall k | 0 <= k < n
        ensures rows[k] == MakeRow(users[invoices[k].userId - 1], invoices[k])
      {
        assert rows[k] == prev[k] && invoices[k] == init[k];
      }
    }
  }

  /** ... and each row is labelled 1 exactly when the user or the invoice is
      flagged, 0 otherwise. */
  lemma OutputRowsComplete(users: seq<User>, invoices: seq<Invoice>)
    requires forall k :: 0 <= k < |users| ==> users[k].id == k + 1
    requires forall k :: 0 <= k < |invoices| ==> 1 <= invoices[k].userId <= |users|
    ensures var rows := OutputRows(users, invoices);
      && |rows| == |invoices|
      && (forall k :: 0 <= k < |invoices| ==> rows[k] == MakeRow(users[invoices[k].userId - 1], invoices[k]))
      && (forall k :: 0 <= k < |invoices| ==>
            (rows[k].fraudLabel == 1 <==> users[invoices[k].userId - 1].fraud || invoices[k].fraud)
            && (rows[k].fraudLabel == 0 || rows[k].fraudLabel == 1))
  {
    OutputRowsJoinAll(users, invoices);
  }

  class FraudDatasetGenerator {
    var usedVat: set<string>
    var users: seq<User>
    var invoices: seq<Invoice>
    var recent: map<int, seq<nat>>

    /** Users are numbered in order, every invoice names one of them, and
        recent_invoices lists each user's records. */
    ghost predicate Valid()
      reads this
    {
      && (forall k :: 0 <= k < |users| ==> users[k].id == k + 1)
      && (forall k :: 0 <= k < |invoices| ==> 1 <= invoices[k].userId <= |users|)
      && WindowsInRange(Batch(invoices, recent))
      && ValidBatch(Batch(invoices, recent))
    }

    constructor ()
      ensures usedVat == {} && users == [] && invoices == [] && recent == map[]
      ensures Valid()
    {
      usedVat, users, invoices, recent := {}, [], [], map[];
      forall u
        ensures RecentOf(map[], u) == IndicesOf([], u)
      {
      }
    }

    /** generate_unique_vat_id: the allocator on the generator's used set. */
    method GenerateUniqueVatId(draws: seq<nat>) returns (vat: Option<string>)
      modifies this
      ensures vat == FreshVat(old(usedVat), draws)
      ensures usedVat == if vat.Some? then old(usedVat) + {vat.value} else old(usedVat)
      ensures users == old(users) && invoices == old(invoices) && recent == old(recent)
    {
      var used';
      vat, used' := AllocateVat(usedVat, draws);
      usedVat := used';
    }

    /** One iteration of the user loop.  ok is false when no candidate VAT
        in the draws is free (the source would keep drawing). */
    method GenerateUser(d: UserDraw) returns (ok: bool)
      requires Valid() && UserDrawInRange(d)
      modifies this
      ensures ok == FreshVat(old(usedVat), d.vatDraws).Some?
      ensures ok ==>
        var v := FreshVat(old(usedVat), d.vatDraws).value;
        users == old(users) + [FraudUser(|old(users)| + 1, d, v)] && usedVat == old(usedVat) + {v}
      ensures !ok ==> users == old(users) && usedVat == old(usedVat)
      ensures invoices == old(invoices) && recent == old(recent)
      ensures Valid()
    {
      var userId := |users| + 1;
      var email := d.email;
      var fraud := false;
      if d.emailCoin < EmailRate {
        fraud := true;
        email := SuspiciousEmail(d.name, d.emailDraw);
      }
      var phone := d.phone;
      if d.phoneCoin < PhoneRate && !fraud {
        fraud := true;
        phone := SuspiciousPhone(d.phone, d.phoneChoice);
      }
      var registration := Timestamp(d.registration);
      var drawn := GenerateUniqueVatId(d.vatDraws);
      if drawn.None? {
        return false;
      }
      var vat := drawn.value;
      if d.registrationCoin < RegistrationRate && !fraud {
        fraud := true;
        registration := WithHourMinute(registration, d.suspiciousHour, d.suspiciousMinute);
      }
      if d.vatCoin < VatRate && !fraud {
        fraud := true;
        vat := SuspiciousVat(vat, d.vatSuffixChoice);
      }
      UserChainFirstFireWins(userId, d, drawn.value);
      users := users + [User(userId, d.name, email, phone, registration, vat, fraud)];
      ok := true;
    }

    /** The user loop, on a generator that has no users or invoices yet. */
    method GenerateUsers(draws: seq<UserDraw>) returns (ok: bool)
      requires Valid() && users == [] && invoices == [] && AllUserDrawsInRange(draws)
      modifies this
      ensures ok == RunUsers(old(usedVat), draws).Some?
      ensures ok ==> users == RunUsers(old(usedVat), draws).value.users
                     && usedVat == RunUsers(old(usedVat), draws).value.used
      ensures invoices == [] && recent == old(recent)
      ensures Valid()
    {
      ghost var streams := VatStreams(draws);
      ghost var vats: seq<string> := [];
      var i := 0;
      while i < |draws|
        invariant 0 <= i <= |draws|
        invariant AllUserDrawsInRange(draws[..i]) && |vats| == i
        invariant AllocateEach(old(usedVat), streams[..i]) == Some(Allocation(vats, usedVat))
        invariant users == ChainUsers(draws[..i], vats)
        invariant invoices == [] && recent == old(recent)
        invariant Valid()
      {
        ghost var usedBefore := usedVat;
        AllocateEachExtend(old(usedVat), streams, i, Allocation(vats, usedVat));
        var added := GenerateUser(draws[i]);
        if !added {
          return false;
        }
        ghost var v := FreshVat(usedBefore, draws[i].vatDraws).value;
        ChainUsersSnoc(draws, vats, i, v);
        vats := vats + [v];
        i := i + 1;
      }
      assert streams[..i] == streams && draws[..i] == draws;
      ok := true;
    }

    /** The anomaly chain and the record it builds; changes nothing. */
    method BuildInvoice(i: nat, d: InvoiceDraw) returns (record: Invoice)
      requires InvoiceDrawInRange(d, |users|)
      ensures record == MainInvoice(users, i, d)
      ensures record.fraud <==> d.amountCoin < AmountRate || d.ibanCoin < IbanRate || d.dateCoin < DateRate
    {
      var invoiceDate := Timestamp(d.date);
      var totalAmount := d.amount;
      var fraud := false;
      if d.amountCoin < AmountRate {
        fraud := true;
        totalAmount := SuspiciousAmount(d.amountDraw);
      }
      var iban := d.iban;
      if d.ibanCoin < IbanRate && !fraud {
        fraud := true;
        iban := SuspiciousIban(d.countryChoice, d.checkChoice, d.ibanRest);
      }
      var status := Statuses[d.statusChoice];
      var due;
      if d.dateCoin < DateRate && !fraud {
        fraud := true;
        due := invoiceDate - d.daysBefore * SecondsPerDay;
      } else {
        due := invoiceDate + d.daysAfter * SecondsPerDay;
      }
      var taxId;
      if fraud && d.taxCoin < TaxOverrideRate {
        taxId := VatPrefix + SuspiciousTaxDigits[d.taxConstChoice];
      } else {
        taxId := users[d.taxUserChoice].vat;
      }
      record := Invoice(i + 1, d.userId, invoiceDate, totalAmount, iban, d.supplier, status, due, taxId, fraud);
      InvoiceChainFirstFireWins(users, i, d);
    }

    /** invoices.append(record); recent_invoices[user_id].append(record) */
    method AppendRecord(record: Invoice)
      requires WindowsInRange(Batch(invoices, recent))
      modifies this
      ensures Batch(invoices, recent) == Append(Batch(old(invoices), old(recent)), record)
      ensures users == old(users) && usedVat == old(usedVat)
    {
      invoices := invoices + [record];
      recent := recent[record.userId := RecentOf(recent, record.userId) + [|invoices| - 1]];
    }

    /** The duplicate injector; returns total_amount afterwards. */
    method InjectDuplicate(record: Invoice, d: InvoiceDraw) returns (totalAmount: int)
      requires |invoices| > 0 && WindowsInRange(Batch(invoices, recent))
      modifies this
      ensures (Batch(invoices, recent), totalAmount) == DuplicateStage(Batch(old(invoices), old(recent)), record, d)
      ensures users == old(users) && usedVat == old(usedVat)
    {
      totalAmount := record.amount;
      if d.dupCoin < DuplicateRate {
        var duplicateId := |invoices| + 1;
        var duplicateDate := record.date + d.shiftHours * SecondsPerHour;
        var duplicateAmount;
        if d.strategy == 1 {
          duplicateAmount := totalAmount;
        } else if d.strategy == 2 {
          duplicateAmount := RoundCents(totalAmount as real * d.jitterFactor);
        } else if d.strategy == 3 {
          duplicateAmount := RoundCents(totalAmount as real * d.splitFactor);
          totalAmount := RoundCents(totalAmount as real * (1.0 - d.splitFactor));
          invoices := invoices[|invoices| - 1 := invoices[|invoices| - 1].(amount := totalAmount)];
          assert Batch(invoices, recent) == SetLastAmount(Batch(old(invoices), old(recent)), totalAmount);
        } else {
          duplicateAmount := 100 * RoundHalfEven(totalAmount);
        }
        var duplicate := Invoice(duplicateId, record.userId, duplicateDate, duplicateAmount,
                                 record.iban, record.supplier, record.status, record.due, record.taxId, true);
        ghost var b1 := Batch(invoices, recent);
        assert b1 == if d.strategy == 3 then SetLastAmount(Batch(old(invoices), old(recent)), totalAmount)
                     else Batch(old(invoices), old(recent));
        assert duplicateAmount == DuplicateAmounts(record.amount, d).0;
        assert totalAmount == DuplicateAmounts(record.amount, d).1;
        AppendRecord(duplicate);
        assert Batch(invoices, recent) == Append(b1, duplicate);
      }
    }

    /** The temporal check on the user's last three records. */
    method TemporalCheck(userId: int, coin: real)
      requires |invoices| > 0 && WindowsInRange(Batch(invoices, recent))
      modifies this
      ensures Batch(invoices, recent) == TemporalStage(Batch(old(invoices), old(recent)), userId, coin)
      ensures users == old(users) && usedVat == old(usedVat)
    {
      var window := RecentOf(recent, userId);
      if |window| >= 3 {
        var date1 := invoices[window[|window| - 3]].date;
        var date2 := invoices[window[|window| - 2]].date;
        var date3 := invoices[window[|window| - 1]].date;
        if Abs(date2 - date1) < TemporalGap && Abs(date3 - date2) < TemporalGap && coin < TemporalRate {
          if !invoices[|invoices| - 1].fraud {
            invoices := invoices[|invoices| - 1 := invoices[|invoices| - 1].(fraud := true)];
          }
        }
      }
    }

    /** The round-amount pass. */
    method RoundAmountCheck(chainFlag: bool, totalAmount: int, coin: real)
      requires |invoices| > 0 && WindowsInRange(Batch(invoices, recent))
      modifies this
      ensures Batch(invoices, recent) == RoundStage(Batch(old(invoices), old(recent)), chainFlag, totalAmount, coin)
      ensures users == old(users) && usedVat == old(usedVat)
    {
      if !chainFlag && totalAmount % 100 == 0 && coin < RoundRate {
        invoices := invoices[|invoices| - 1 := invoices[|invoices| - 1].(fraud := true)];
      }
    }

    /** One iteration of the invoice loop, numbered i. */
    method GenerateInvoice(i: nat, d: InvoiceDraw)
      requires Valid() && InvoiceDrawInRange(d, |users|)
      modifies this
      ensures Batch(invoices, recent) == InvoiceStep(old(users), Batch(old(invoices), old(recent)), i, d)
      ensures users == old(users) && usedVat == old(usedVat)
      ensures Valid()
    {
      ghost var b := Batch(invoices, recent);
      var record := BuildInvoice(i, d);
      AppendRecord(record);
      ghost var b1 := Batch(invoices, recent);
      var totalAmount := InjectDuplicate(record, d);
      ghost var b2 := Batch(invoices, recent);
      TemporalCheck(record.userId, d.temporalCoin);
      ghost var b3 := Batch(invoices, recent);
      RoundAmountCheck(record.fraud, totalAmount, d.roundCoin);
      assert Batch(invoices, recent) == InvoiceStep(users, b, i, d) by {
        assert b1 == Append(b, record);
        assert (b2, totalAmount) == DuplicateStage(b1, record, d);
        assert b3 == TemporalStage(b2, record.userId, d.temporalCoin);
      }
      StepValid(users, b, i, d);
      StepUserIdsInRange(users, b, i, d);
    }
    /** The invoice loop, on a generator that has its users and no invoices
        yet. */
    method GenerateInvoices(draws: seq<InvoiceDraw>)
      requires Valid() && invoices == [] && recent == map[] && AllInvoiceDrawsInRange(draws, |users|)
      modifies this
      ensures Batch(invoices, recent) == RunInvoices(old(users), Batch([], map[]), draws)
      ensures users == old(users) && usedVat == old(usedVat)
      ensures Valid()
    {
      var i := 0;
      while i < |draws|
        invariant 0 <= i <= |draws|
        invariant AllInvoiceDrawsInRange(draws[..i], |users|)
        invariant Batch(invoices, recent) == RunInvoices(users, Batch([], map[]), draws[..i])
        invariant users == old(users) && usedVat == old(usedVat)
        invariant Valid()
      {
        RunInvoicesSnoc(users, draws, i);
        GenerateInvoice(i, draws[i]);
        i := i + 1;
      }
      assert draws[..i] == draws;
    }

    /** The whole script: users, then invoices, then the output rows. */
    method Run(userDraws: seq<UserDraw>, invoiceDraws: seq<InvoiceDraw>) returns (rows: Option<seq<Row>>)
      requires Valid() && usedVat == {} && users == [] && invoices == [] && recent == map[]
      requires |userDraws| == NumUsers && AllUserDrawsInRange(userDraws)
      requires |invoiceDraws| == NumInvoices && AllInvoiceDrawsInRange(invoiceDraws, NumUsers)
      modifies this
      ensures rows.Some? <==> RunUsers({}, userDraws).Some?
      ensures rows.Some? ==>
        && users == RunUsers({}, userDraws).value.users
        && usedVat == RunUsers({}, userDraws).value.used
        && Batch(invoices, recent) == RunInvoices(users, Batch([], map[]), invoiceDraws)
        && rows.value == OutputRows(users, invoices)
        && |rows.value| == |invoices|
      ensures Valid()
    {
      var ok := GenerateUsers(userDraws);
      if !ok {
        return None;
      }
      assert |users| == NumUsers;
      assert AllInvoiceDrawsInRange(invoiceDraws, |users|);
      GenerateInvoices(invoiceDraws);
      var out := JoinRows(users, invoices);
      OutputRowsJoinAll(users, invoices);
      rows := Some(out);
    }
  }
}
