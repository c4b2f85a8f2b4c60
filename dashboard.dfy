/** The dashboard's on-demand generator: a handful of users and invoices
    with no fraud patterns, invoice ids continuing from the largest id the
    graph database reports.  The database query is a parameter: its outcome
    is one of the cases get_last_invoice_id distinguishes. */
module Dashboard {
  import opened Util
  import opened Clock
  import opened Vat
  import opened FraudInvoices

  const NumUsers: nat := 2
  const NumInvoices: nat := 5
  const InitialLastInvoiceId: int := 2000

  /** What MATCH (i:Invoice) RETURN MAX(i.invoiceID) AS max_invoice_id
      yields: the call raises, no row comes back, the row lacks the key, the
      maximum is null (no invoices), or a maximum. */
  datatype MaxQuery = Raised | NoRows | RowWithoutKey | Null | Max(n: int)

  /** The value get_last_invoice_id stores. */
  function StoredLastId(q: MaxQuery): (r: int)
    ensures q.Max? ==> r == q.n
    ensures !q.Max? ==> r == 0
  {
    match q
    case Raised => 0
    case NoRows => 0
    case RowWithoutKey => 0
    case Null => 0
    case Max(n) => n
  }

  /** users.append([user_id, user_name, email, phone_number, registration_date, vat_number]) */
  datatype DashUser = DashUser(id: int, name: string, email: string, phone: string, registration: int, vat: string)

  datatype DashUserDraw = DashUserDraw(name: string, email: string, phone: string,
                                       registration: DateTime, vatDraws: seq<nat>)

  predicate DashUserDrawInRange(d: DashUserDraw)
  {
    && RandomDateFields(d.registration, 2020, 2025)
    && (forall i :: 0 <= i < |d.vatDraws| ==> InVatRange(d.vatDraws[i]))
  }

  predicate AllDashUserDrawsInRange(draws: seq<DashUserDraw>)
  {
    forall i :: 0 <= i < |draws| ==> DashUserDrawInRange(draws[i])
  }

  function DashVatStreams(draws: seq<DashUserDraw>): (s: seq<seq<nat>>)
    ensures |s| == |draws| && forall k :: 0 <= k < |draws| ==> s[k] == draws[k].vatDraws
  {
    seq(|draws|, k requires 0 <= k < |draws| => draws[k].vatDraws)
  }

  /** User k + 1, with its allocated VAT and no rewrite of any field. */
  function DashUsers(draws: seq<DashUserDraw>, vats: seq<string>): (us: seq<DashUser>)
    requires AllDashUserDrawsInRange(draws) && |vats| == |draws|
    ensures |us| == |draws|
  {
    seq(|draws|, k requires 0 <= k < |draws| =>
      DashUser(k + 1, draws[k].name, draws[k].email, draws[k].phone, Timestamp(draws[k].registration), vats[k]))
  }

  /** The loop appends user i + 1. */
  lemma DashUsersSnoc(draws: seq<DashUserDraw>, vats: seq<string>, i: nat, v: string)
    requires AllDashUserDrawsInRange(draws) && i < |draws| && |vats| == i
    ensures AllDashUserDrawsInRange(draws[..i]) && AllDashUserDrawsInRange(draws[..i + 1])
    ensures DashUsers(draws[..i + 1], vats + [v]) ==
      DashUsers(draws[..i], vats) + [DashUser(i + 1, draws[i].name, draws[i].email, draws[i].phone, Timestamp(draws[i].registration), v)]
  {
    assert AllDashUserDrawsInRange(draws[..i]);
    assert AllDashUserDrawsInRange(draws[..i + 1]);
    assert draws[..i + 1][i] == draws[i];
  }

  lemma DashUsersNumbered(draws: seq<DashUserDraw>, vats: seq<string>)
    requires AllDashUserDrawsInRange(draws) && |vats| == |draws|
    ensures forall k :: 0 <= k < |draws| ==> DashUsers(draws, vats)[k].id == k + 1
  {
  }

  /** invoices.append([last_invoice_id, user_id, invoice_date, total_amount, supplier_iban, supplier_name, status, due_date, supplier_tax_id]) */
  datatype DashInvoice = DashInvoice(id: int, userId: int, date: int, amount: int, iban: string, supplier: string,
                                     status: Status, due: int, taxId: string)

  datatype DashInvoiceDraw = DashInvoiceDraw(
    userId: int, date: DateTime, amount: int, supplier: string, iban: string,
    statusChoice: nat, dueDays: int, taxUserChoice: nat)

  predicate DashInvoiceDrawInRange(d: DashInvoiceDraw, numUsers: nat)
  {
    && 1 <= d.userId <= numUsers
    && RandomDateFields(d.date, 2023, 2025)
    && 5000 <= d.amount <= 500000
    && d.statusChoice < |Statuses|
    && 14 <= d.dueDays <= 60
    && d.taxUserChoice < numUsers
  }

  predicate AllDashInvoiceDrawsInRange(draws: seq<DashInvoiceDraw>, numUsers: nat)
  {
    forall i :: 0 <= i < |draws| ==> DashInvoiceDrawInRange(draws[i], numUsers)
  }

  /** The invoice the k-th iteration builds, numbered by the counter. */
  function DashInvoiceOf(id: int, users: seq<DashUser>, d: DashInvoiceDraw): DashInvoice
    requires DashInvoiceDrawInRange(d, |users|)
  {
    var date := Timestamp(d.date);
    DashInvoice(id, d.userId, date, d.amount, d.iban, d.supplier, Statuses[d.statusChoice],
                date + d.dueDays * SecondsPerDay, users[d.taxUserChoice].vat)
  }

  /** The invoices of one call, the counter starting from `last`. */
  function DashInvoices(last: int, users: seq<DashUser>, draws: seq<DashInvoiceDraw>): (r: seq<DashInvoice>)
    requires AllDashInvoiceDrawsInRange(draws, |users|)
    ensures |r| == |draws|
  {
    seq(|draws|, k requires 0 <= k < |draws| => DashInvoiceOf(last + k + 1, users, draws[k]))
  }

  /** Ids continue the counter without gaps, so they are distinct and all
      above its starting value; every due date is 14..60 days after its
      invoice date; the tax id is one of the users' VATs. */
  lemma DashInvoicesShape(last: int, users: seq<DashUser>, draws: seq<DashInvoiceDraw>)
    requires AllDashInvoiceDrawsInRange(draws, |users|)
    ensures forall k :: 0 <= k < |draws| ==> DashInvoices(last, users, draws)[k].id == last + k + 1
    ensures forall k :: 0 <= k < |draws| ==> 1 <= DashInvoices(last, users, draws)[k].userId <= |users|
    ensures forall j, k :: 0 <= j < k < |draws| ==>
      last < DashInvoices(last, users, draws)[j].id < DashInvoices(last, users, draws)[k].id
    ensures forall k :: 0 <= k < |draws| ==>
      14 * SecondsPerDay <= DashInvoices(last, users, draws)[k].due - DashInvoices(last, users, draws)[k].date <= 60 * SecondsPerDay
    ensures forall k :: 0 <= k < |draws| ==> DashInvoices(last, users, draws)[k].taxId in UserVats(users)
  {
    forall k | 0 <= k < |draws|
      ensures DashInvoices(last, users, draws)[k].taxId in UserVats(users)
    {
      assert DashInvoiceDrawInRange(draws[k], |users|);
      assert users[draws[k].taxUserChoice] in users;
    }
  }

  /** The VAT numbers of the users. */
  function UserVats(users: seq<DashUser>): set<string>
  {
    set u | u in users :: u.vat
  }

  /** When the database reports a maximum, the new ids lie strictly above it,
      so they cannot clash with a stored invoice; when it reports nothing
      usable the counter restarts at 0 and the initial 2000 is never used. */
  lemma NewIdsAboveStoredMax(q: MaxQuery, users: seq<DashUser>, draws: seq<DashInvoiceDraw>)
    requires AllDashInvoiceDrawsInRange(draws, |users|)
    ensures var ids := DashInvoices(StoredLastId(q), users, draws);
      q.Max? ==> forall k :: 0 <= k < |draws| ==> ids[k].id > q.n
    ensures !q.Max? ==> forall k :: 0 <= k < |draws| ==> DashInvoices(StoredLastId(q), users, draws)[k].id == k + 1
  {
    DashInvoicesShape(StoredLastId(q), users, draws);
  }

  /** One row: the user's six fields and the invoice's eight after its user id. */
  datatype DashRow = DashRow(
    userId: int, userName: string, email: string, phone: string, registration: int, vat: string,
    invoiceId: int, invoiceDate: int, amount: int, iban: string, supplier: string,
    status: Status, due: int, taxId: string)

  function DashRowOf(u: DashUser, inv: DashInvoice): DashRow
  {
    DashRow(u.id, u.name, u.email, u.phone, u.registration, u.vat,
            inv.id, inv.date, inv.amount, inv.iban, inv.supplier, inv.status, inv.due, inv.taxId)
  }

  /** next((u for u in users if u[0] == user_id), None) */
  function FindDashUser(users: seq<DashUser>, userId: int): (r: Option<DashUser>)
    ensures r.Some? ==> r.value in users && r.value.id == userId
    ensures r.None? <==> forall k :: 0 <= k < |users| ==> users[k].id != userId
  {
    var hits := seq(|users|, k requires 0 <= k < |users| => users[k].id == userId);
    match FirstMatch(hits)
    case None =>
      forall k | 0 <= k < |users|
        ensures users[k].id != userId
      {
        assert !hits[k];
      }
      None
    case Some(k) => Some(users[k])
  }

  /** next() stops at the first user with the id: the result is that user. */
  lemma FindDashUserIsFirst(users: seq<DashUser>, userId: int)
    ensures FindDashUser(users, userId).Some? ==>
      exists i :: 0 <= i < |users| && FindDashUser(users, userId).value == users[i] && users[i].id == userId
        && forall j :: 0 <= j < i ==> users[j].id != userId
  {
    var hits := seq(|users|, k requires 0 <= k < |users| => users[k].id == userId);
    match FirstMatch(hits)
    case None =>
    case Some(k) =>
      forall j | 0 <= j < k
        ensures users[j].id != userId
      {
        assert !hits[j];
      }
      assert FindDashUser(users, userId).value == users[k];
  }

  /** The rows of the combining loop; invoices without a user are skipped. */
  function DashRows(users: seq<DashUser>, invoices: seq<DashInvoice>): seq<DashRow>
  {
    if |invoices| == 0 then []
    else
      var n := |invoices| - 1;
      DashRows(users, invoices[..n])
      + match FindDashUser(users, invoices[n].userId)
        case None => []
        case Some(u) => [DashRowOf(u, invoices[n])]
  }

  /** The combining loop. */
  method JoinDashRows(users: seq<DashUser>, invoices: seq<DashInvoice>) returns (rows: seq<DashRow>)
    ensures rows == DashRows(users, invoices)
    ensures |rows| <= |invoices|
  {
    rows := [];
    var i := 0;
    while i < |invoices|
      invariant 0 <= i <= |invoices|
      invariant rows == DashRows(users, invoices[..i])
      invariant |rows| <= i
    {
      assert invoices[..i + 1][..i] == invoices[..i];
      var invoice := invoices[i];
      var user := FindDashUser(users, invoice.userId);
      if user.Some? {
        rows := rows + [DashRowOf(user.value, invoice)];
      }
      i := i + 1;
    }
    assert invoices[..i] == invoices;
  }

  /** With users numbered 1..n and invoices naming users in 1..n, every
      invoice yields its row, in order, with its own user. */
  lemma {:induction false} DashRowsComplete(users: seq<DashUser>, invoices: seq<DashInvoice>)
    requires forall k :: 0 <= k < |users| ==> users[k].id == k + 1
    requires forall k :: 0 <= k < |invoices| ==> 1 <= invoices[k].userId <= |users|
    ensures |DashRows(users, invoices)| == |invoices|
    ensures forall k :: 0 <= k < |invoices| ==>
      DashRows(users, invoices)[k] == DashRowOf(users[invoices[k].userId - 1], invoices[k])
  {
    if |invoices| > 0 {
      var n := |invoices| - 1;
      var init := invoices[..n];
      DashRowsComplete(users, init);
      var hits := seq(|users|, k requires 0 <= k < |users| => users[k].id == invoices[n].userId);
      FirstMatchAt(hits, invoices[n].userId - 1);
      var rows := DashRows(users, invoices);
      assert rows == DashRows(users, init) + [DashRowOf(users[invoices[n].userId - 1], invoices[n])];
      forall k | 0 <= k < n
        ensures rows[k] == DashRowOf(users[invoices[k].userId - 1], invoices[k])
      {
        assert invoices[k] == init[k];
      }
    }
  }

  class DashboardGenerator {
    /** used_vat_numbers and last_invoice_id: module globals that outlive a
        request. */
    var usedVat: set<string>
    var lastInvoiceId: int

    constructor ()
      ensures usedVat == {} && lastInvoiceId == InitialLastInvoiceId
    {
      usedVat := {};
      lastInvoiceId := InitialLastInvoiceId;
    }

    method GetLastInvoiceId(q: MaxQuery)
      modifies this
      ensures lastInvoiceId == StoredLastId(q) && usedVat == old(usedVat)
    {
      if q.Raised? {
        lastInvoiceId := 0;
      } else {
        var maxId := if q.Max? then Some(q.n) else if q.Null? then None else Some(0);
        lastInvoiceId := if maxId.Some? then maxId.value else 0;
      }
    }

    method GenerateUniqueVatId(draws: seq<nat>) returns (vat: Option<string>)
      modifies this
      ensures vat == FreshVat(old(usedVat), draws)
      ensures usedVat == if vat.Some? then old(usedVat) + {vat.value} else old(usedVat)
      ensures lastInvoiceId == old(lastInvoiceId)
    {
      var used';
      vat, used' := AllocateVat(usedVat, draws);
      usedVat := used';
    }

    /** The user loop of generate_csv_data: users 1..n, each with a fresh
        VAT; None when an allocation finds no free candidate. */
    method GenerateUsers(userDraws: seq<DashUserDraw>) returns (users: Option<seq<DashUser>>)
      requires AllDashUserDrawsInRange(userDraws)
      modifies this
      ensures var run := AllocateEach(old(usedVat), DashVatStreams(userDraws));
        && (users.Some? <==> run.Some?)
        && (users.Some? ==> users.value == DashUsers(userDraws, run.value.vats) && usedVat == run.value.used)
      ensures lastInvoiceId == old(lastInvoiceId)
    {
      ghost var streams := DashVatStreams(userDraws);
      ghost var vats: seq<string> := [];
      var built: seq<DashUser> := [];
      var i := 0;
      while i < |userDraws|
        invariant 0 <= i <= |userDraws| && |vats| == i
        invariant AllocateEach(old(usedVat), streams[..i]) == Some(Allocation(vats, usedVat))
        invariant built == DashUsers(userDraws[..i], vats)
        invariant lastInvoiceId == old(lastInvoiceId)
      {
        var userId := i + 1;
        var d := userDraws[i];
        var registration := Timestamp(d.registration);
        AllocateEachExtend(old(usedVat), streams, i, Allocation(vats, usedVat));
        var vat := GenerateUniqueVatId(d.vatDraws);
        if vat.None? {
          return None;
        }
        DashUsersSnoc(userDraws, vats, i, vat.value);
        built := built + [DashUser(userId, d.name, d.email, d.phone, registration, vat.value)];
        vats := vats + [vat.value];
        i := i + 1;
      }
      assert streams[..i] == streams && userDraws[..i] == userDraws;
      users := Some(built);
    }

    /** The invoice loop of generate_csv_data: the counter advances once per
        invoice and numbers it. */
    method GenerateInvoices(users: seq<DashUser>, invoiceDraws: seq<DashInvoiceDraw>) returns (invoices: seq<DashInvoice>)
      requires AllDashInvoiceDrawsInRange(invoiceDraws, |users|)
      modifies this
      ensures invoices == DashInvoices(old(lastInvoiceId), users, invoiceDraws)
      ensures lastInvoiceId == old(lastInvoiceId) + |invoiceDraws| && usedVat == old(usedVat)
    {
      invoices := [];
      var k := 0;
      while k < |invoiceDraws|
        invariant 0 <= k <= |invoiceDraws|
        invariant lastInvoiceId == old(lastInvoiceId) + k && usedVat == old(usedVat)
        invariant invoices == DashInvoices(old(lastInvoiceId), users, invoiceDraws[..k])
      {
        lastInvoiceId := lastInvoiceId + 1;
        var d := invoiceDraws[k];
        var invoiceDate := Timestamp(d.date);
        var status := Statuses[d.statusChoice];
        var dueDate := invoiceDate + d.dueDays * SecondsPerDay;
        var taxId := users[d.taxUserChoice].vat;
        invoices := invoices + [DashInvoice(lastInvoiceId, d.userId, invoiceDate, d.amount, d.iban, d.supplier,
                                            status, dueDate, taxId)];
        k := k + 1;
        assert invoices == DashInvoices(old(lastInvoiceId), users, invoiceDraws[..k]);
      }
      assert invoiceDraws[..k] == invoiceDraws;
    }

    /** generate_csv_data: None when a VAT allocation finds no free
        candidate among its draws. */
    method GenerateCsvData(q: MaxQuery, userDraws: seq<DashUserDraw>, invoiceDraws: seq<DashInvoiceDraw>)
      returns (rows: Option<seq<DashRow>>)
      requires |userDraws| == NumUsers && AllDashUserDrawsInRange(userDraws)
      requires AllDashInvoiceDrawsInRange(invoiceDraws, NumUsers)
      modifies this
      ensures var run := AllocateEach(old(usedVat), DashVatStreams(userDraws));
        && (rows.Some? <==> run.Some?)
        && (rows.Some? ==>
              var users := DashUsers(userDraws, run.value.vats);
              && usedVat == run.value.used
              && lastInvoiceId == StoredLastId(q) + |invoiceDraws|
              && rows.value == DashRows(users, DashInvoices(StoredLastId(q), users, invoiceDraws))
              && |rows.value| == |invoiceDraws|)
    {
      GetLastInvoiceId(q);
      var users := GenerateUsers(userDraws);
      if users.None? {
        return None;
      }
      ghost var run := AllocateEach(old(usedVat), DashVatStreams(userDraws)).value;
      DashUsersNumbered(userDraws, run.vats);
      ghost var start := lastInvoiceId;
      var invoices := GenerateInvoices(users.value, invoiceDraws);
      DashInvoicesShape(start, users.value, invoiceDraws);
      var out := JoinDashRows(users.value, invoices);
      DashRowsComplete(users.value, invoices);
      rows := Some(out);
    }
  }
}
