/** The users of the fraud-labelled generator and their anomaly chain: four
    rewrites (email, phone, registration time, VAT) checked in that order,
    each only while no earlier one has fired. */
module FraudUsers {
  import opened Util
  import opened Clock
  import opened Vat

  const EmailRate: real := 0.15
  const PhoneRate: real := 0.1
  const RegistrationRate: real := 0.08
  const VatRate: real := 0.07

  /** users.append([user_id, user_name, email, phone_number, registration_date, vat_number, is_fraud_user]) */
  datatype User = User(id: int, name: string, email: string, phone: string,
                       registration: int, vat: string, fraud: bool)

  const NameSuffixes: seq<string> := ["123", "999", "007"]
  const FreeDomains: seq<string> := ["freemail.com", "examplemail.com", "tempmail.net"]

  /** The draws behind the five suspicious-email templates.  Every template is
      evaluated before random.choice picks `pattern`; Faker words, first names
      and domains are opaque strings. */
  datatype EmailDraw = EmailDraw(
    first1: string, n1: nat,
    suffixChoice: nat,
    word1: string, word2: string, freeDomainChoice: nat,
    first2: string, n2: nat, domain: string,
    word3: string, word4: string, n3: nat,
    pattern: nat)

  predicate EmailDrawInRange(e: EmailDraw)
  {
    && 1000 <= e.n1 <= 9999
    && e.suffixChoice < |NameSuffixes|
    && e.freeDomainChoice < |FreeDomains|
    && 100 <= e.n2 <= 999
    && 1 <= e.n3 <= 99
    && e.pattern < 5
  }

  function SuspiciousEmail(userName: string, e: EmailDraw): string
    requires EmailDrawInRange(e)
  {
    if e.pattern == 0 then Lower(e.first1) + Decimal(e.n1) + "@gmail.com"
    else if e.pattern == 1 then Lower(RemoveSpaces(userName)) + NameSuffixes[e.suffixChoice] + "@mail.com"
    else if e.pattern == 2 then e.word1 + e.word2 + "@" + FreeDomains[e.freeDomainChoice]
    else if e.pattern == 3 then Lower(e.first2) + "." + Decimal(e.n2) + "@" + e.domain
    else e.word3 + "." + e.word4 + Decimal(e.n3) + "@gmail.com"
  }

  const FixedPhones: seq<string> := ["0000000000", "1234567890", "+00 000 000 0000", "123-456-7890", "999-999-9999"]

  /** phone_number[:-5] + "00000" */
  function MaskLastFive(phone: string): string
  {
    (if |phone| >= 5 then phone[..|phone| - 5] else "") + "00000"
  }

  /** random.choice over the five fixed numbers and the masked original. */
  function SuspiciousPhone(phone: string, choice: nat): string
    requires choice <= |FixedPhones|
  {
    if choice < |FixedPhones| then FixedPhones[choice] else MaskLastFive(phone)
  }

  const VatSuffixes: seq<string> := ["000", "999", "123", "111", "222"]

  /** vat_number[3:-3], with Python's slicing on short strings. */
  function VatMiddle(vat: string): string
  {
    if |vat| >= 6 then vat[3..|vat| - 3] else ""
  }

  /** f"VAT{vat_number[3:-3]}{last_digits}" */
  function SuspiciousVat(vat: string, choice: nat): string
    requires choice < |VatSuffixes|
  {
    VatPrefix + VatMiddle(vat) + VatSuffixes[choice]
  }

  /** Everything the user loop draws for one user. */
  datatype UserDraw = UserDraw(
    name: string, email: string,
    emailCoin: real, emailDraw: EmailDraw,
    phone: string, phoneCoin: real, phoneChoice: nat,
    registration: DateTime,
    vatDraws: seq<nat>,
    registrationCoin: real, suspiciousHour: int, suspiciousMinute: int,
    vatCoin: real, vatSuffixChoice: nat)

  predicate UserDrawInRange(d: UserDraw)
  {
    && EmailDrawInRange(d.emailDraw)
    && d.phoneChoice <= |FixedPhones|
    && RandomDateFields(d.registration, 2020, 2025)
    && (forall i :: 0 <= i < |d.vatDraws| ==> InVatRange(d.vatDraws[i]))
    && 2 <= d.suspiciousHour <= 4
    && 0 <= d.suspiciousMinute <= 59
    && d.vatSuffixChoice < |VatSuffixes|
  }

  /** The four checks in priority order, before the "not yet flagged" guard. */
  function UserTriggers(d: UserDraw): seq<bool>
  {
    [d.emailCoin < EmailRate, d.phoneCoin < PhoneRate,
     d.registrationCoin < RegistrationRate, d.vatCoin < VatRate]
  }

  /** The user before any rewrite. */
  function BaseUser(userId: int, d: UserDraw, vat: string): User
    requires UserDrawInRange(d)
  {
    User(userId, d.name, d.email, d.phone, Timestamp(d.registration), vat, false)
  }

  /** Applies the rewrite of the rule that fired, if any, and flags the user. */
  function ApplyUserRule(userId: int, d: UserDraw, vat: string, fired: Option<nat>): User
    requires UserDrawInRange(d)
  {
    var base := BaseUser(userId, d, vat);
    match fired
    case None => base
    case Some(k) =>
      if k == 0 then base.(email := SuspiciousEmail(d.name, d.emailDraw), fraud := true)
      else if k == 1 then base.(phone := SuspiciousPhone(d.phone, d.phoneChoice), fraud := true)
      else if k == 2 then
        base.(registration := WithHourMinute(base.registration, d.suspiciousHour, d.suspiciousMinute), fraud := true)
      else base.(vat := SuspiciousVat(vat, d.vatSuffixChoice), fraud := true)
  }

  /** The user the chain produces: the first rule that fires wins. */
  function FraudUser(userId: int, d: UserDraw, vat: string): User
    requires UserDrawInRange(d)
  {
    ApplyUserRule(userId, d, vat, FirstMatch(UserTriggers(d)))
  }

  /** How many of the four rewritable fields differ from the base user. */
  function RewrittenFields(u: User, base: User): nat
  {
    (if u.email != base.email then 1 else 0) + (if u.phone != base.phone then 1 else 0)
    + (if u.registration != base.registration then 1 else 0) + (if u.vat != base.vat then 1 else 0)
  }

  /** The chain read as sequential guarded ifs: each rewrite applies exactly
      when its own check fires and no earlier one did; the user is flagged
      exactly when some check fired; at most one field is rewritten. */
  lemma {:induction false} UserChainFirstFireWins(userId: int, d: UserDraw, vat: string)
    requires UserDrawInRange(d)
    ensures var u := FraudUser(userId, d, vat);
      var e := d.emailCoin < EmailRate;
      var p := !e && d.phoneCoin < PhoneRate;
      var r := !e && !p && d.registrationCoin < RegistrationRate;
      var v := !e && !p && !r && d.vatCoin < VatRate;
      && u.id == userId && u.name == d.name
      && u.email == (if e then SuspiciousEmail(d.name, d.emailDraw) else d.email)
      && u.phone == (if p then SuspiciousPhone(d.phone, d.phoneChoice) else d.phone)
      && u.registration == (if r then WithHourMinute(Timestamp(d.registration), d.suspiciousHour, d.suspiciousMinute)
                            else Timestamp(d.registration))
      && u.vat == (if v then SuspiciousVat(vat, d.vatSuffixChoice) else vat)
      && (u.fraud <==> e || p || r || v)
    ensures FraudUser(userId, d, vat).fraud <==>
      (d.emailCoin < EmailRate || d.phoneCoin < PhoneRate || d.registrationCoin < RegistrationRate || d.vatCoin < VatRate)
    ensures RewrittenFields(FraudUser(userId, d, vat), BaseUser(userId, d, vat)) <= 1
    ensures !FraudUser(userId, d, vat).fraud ==> FraudUser(userId, d, vat) == BaseUser(userId, d, vat)
  {
    var t := UserTriggers(d);
    var fired := FirstMatch(t);
    assert t[0] == (d.emailCoin < EmailRate) && t[1] == (d.phoneCoin < PhoneRate);
    assert t[2] == (d.registrationCoin < RegistrationRate) && t[3] == (d.vatCoin < VatRate);
    match fired
    case None =>
    case Some(k) =>
      assert k < 4 && t[k];
      assert forall j :: 0 <= j < k ==> !t[j];
  }

  /** The registration rewrite moves the hour into 2..4 and keeps the date and
      the seconds. */
  lemma RegistrationRewriteBand(userId: int, d: UserDraw, vat: string)
    requires UserDrawInRange(d)
    ensures var u := FraudUser(userId, d, vat);
      var t := Timestamp(d.registration);
      u.registration != t ==>
        && 2 <= HourOf(u.registration) <= 4
        && DayOf(u.registration) == DayOf(t)
        && SecondOf(u.registration) == SecondOf(t)
        && u.fraud
  {
    UserChainFirstFireWins(userId, d, vat);
    WithHourMinuteFields(Timestamp(d.registration), d.suspiciousHour, d.suspiciousMinute);
  }

  /** On an allocated identifier the suspicious rewrite keeps "VAT" and the
      six middle digits, replaces the last three and keeps the length 12. */
  lemma SuspiciousVatShape(n: nat, choice: nat)
    requires InVatRange(n) && choice < |VatSuffixes|
    ensures var r := SuspiciousVat(VatId(n), choice);
      && |r| == 12
      && r[..3] == VatPrefix
      && r[3..9] == VatId(n)[3..9]
      && r[9..] == VatSuffixes[choice]
  {
    VatIdShape(n);
    var r := SuspiciousVat(VatId(n), choice);
    assert r == VatPrefix + VatId(n)[3..9] + VatSuffixes[choice];
  }

  /** The numbers the suffixes spell. */
  const VatSuffixValues: seq<nat> := [0, 999, 123, 111, 222]

  /** The rewrite is the allocator's rendering of the same number with its
      last three digits replaced.  So the result is again a well-formed
      identifier in the allocator's range, and since it is never checked
      against the used set it can equal the identifier of another user. */
  lemma {:induction false} SuspiciousVatRenumbers(n: nat, choice: nat)
    requires InVatRange(n) && choice < |VatSuffixes|
    ensures var m := 1000 * (n / 1000) + VatSuffixValues[choice];
      InVatRange(m) && SuspiciousVat(VatId(n), choice) == VatId(m)
  {
    var q := n / 1000;
    VatIdSplit(n);
    assert VatSuffixes[choice] == ThreeDigits(VatSuffixValues[choice]);
    DecimalSplitThree(q, VatSuffixValues[choice]);
    var w, middle := VatId(n), Decimal(q);
    assert w[3..9] == middle by {
      assert w == VatPrefix + middle + ThreeDigits(n % 1000);
      assert |VatPrefix| == 3 && |middle| == 6;
    }
  }

  /** An allocated identifier is "VAT", the six leading digits and the last
      three. */
  lemma VatIdSplit(n: nat)
    requires InVatRange(n)
    ensures 100000 <= n / 1000 < 1000000 && |Decimal(n / 1000)| == 6
    ensures VatId(n) == VatPrefix + Decimal(n / 1000) + ThreeDigits(n % 1000)
  {
    var q := n / 1000;
    DecimalSplitThree(q, n % 1000);
    assert n == 1000 * q + n % 1000;
    assert Pow10(5) == 100000 && Pow10(6) == 1000000;
    DecimalLength(q, 6);
  }

  /** Collisions happen for every six leading digits q: the identifier
      ending in 999 is rewritten into the distinct identifier ending in 000. */
  lemma SuspiciousVatMayCollide(q: nat)
    requires 100000 <= q < 1000000
    ensures InVatRange(1000 * q + 999) && InVatRange(1000 * q)
    ensures VatId(1000 * q + 999) != VatId(1000 * q)
    ensures SuspiciousVat(VatId(1000 * q + 999), 0) == VatId(1000 * q)
  {
    var n, m := 1000 * q + 999, 1000 * q;
    assert n / 1000 == q && n % 1000 == 999 && m / 1000 == q && m % 1000 == 0;
    SuspiciousVatRenumbers(n, 0);
    VatIdSplit(n);
    VatIdSplit(m);
    var p := VatPrefix + Decimal(q);
    assert |p| == 9;
    assert VatId(n)[9] == ThreeDigits(999)[0];
    assert VatId(m)[9] == ThreeDigits(0)[0];
  }

  /** The masked phone keeps all but the last five characters and ends in
      five zeros. */
  lemma MaskLastFiveShape(phone: string)
    requires |phone| >= 5
    ensures |MaskLastFive(phone)| == |phone|
    ensures MaskLastFive(phone)[..|phone| - 5] == phone[..|phone| - 5]
    ensures MaskLastFive(phone)[|phone| - 5..] == "00000"
  {
  }

  /** The name-based template: the user's name without spaces, lower-cased,
      then one of the three suffixes at mail.com. */
  lemma NameEmailIsCompact(userName: string, e: EmailDraw)
    requires EmailDrawInRange(e) && e.pattern == 1
    ensures var r := SuspiciousEmail(userName, e);
      var local := |RemoveSpaces(userName)|;
      && |r| == local + 3 + |"@mail.com"|
      && (forall i :: 0 <= i < local ==> r[i] != ' ' && !('A' <= r[i] <= 'Z'))
      && r[local..local + 3] in NameSuffixes
      && r[local + 3..] == "@mail.com"
  {
    RemoveSpacesHasNoSpace(userName);
    var c := RemoveSpaces(userName);
    var r := SuspiciousEmail(userName, e);
    assert r == Lower(c) + NameSuffixes[e.suffixChoice] + "@mail.com";
    forall i | 0 <= i < |c|
      ensures r[i] != ' ' && !('A' <= r[i] <= 'Z')
    {
      assert r[i] == LowerChar(c[i]);
    }
  }

  // ---------------------------------------------------------------------
  // The whole user loop

  predicate AllUserDrawsInRange(draws: seq<UserDraw>)
  {
    forall i :: 0 <= i < |draws| ==> UserDrawInRange(draws[i])
  }

  /** The candidate streams the users' allocations read, in order. */
  function VatStreams(draws: seq<UserDraw>): (s: seq<seq<nat>>)
    ensures |s| == |draws| && forall k :: 0 <= k < |draws| ==> s[k] == draws[k].vatDraws
  {
    seq(|draws|, k requires 0 <= k < |draws| => draws[k].vatDraws)
  }

  /** User k + 1 built by the chain from its draws and its allocated VAT. */
  function ChainUsers(draws: seq<UserDraw>, vats: seq<string>): (us: seq<User>)
    requires AllUserDrawsInRange(draws) && |vats| == |draws|
    ensures |us| == |draws|
  {
    seq(|draws|, k requires 0 <= k < |draws| => FraudUser(k + 1, draws[k], vats[k]))
  }

  /** The loop appends user i + 1. */
  lemma ChainUsersSnoc(draws: seq<UserDraw>, vats: seq<string>, i: nat, v: string)
    requires AllUserDrawsInRange(draws) && i < |draws| && |vats| == i
    ensures AllUserDrawsInRange(draws[..i]) && AllUserDrawsInRange(draws[..i + 1])
    ensures ChainUsers(draws[..i + 1], vats + [v]) == ChainUsers(draws[..i], vats) + [FraudUser(i + 1, draws[i], v)]
  {
    assert AllUserDrawsInRange(draws[..i]);
    assert AllUserDrawsInRange(draws[..i + 1]);
    assert draws[..i + 1][i] == draws[i];
  }

  /** The users, the used-VAT set afterwards, and the identifier the
      allocator handed to each user (before any rewrite). */
  datatype UserLoop = UserLoop(users: seq<User>, used: set<string>, vats: seq<string>)

  /** for user_id in range(1, len(draws) + 1); None when an allocation finds
      no free candidate among its draws. */
  function RunUsers(used: set<string>, draws: seq<UserDraw>): (r: Option<UserLoop>)
    requires AllUserDrawsInRange(draws)
    ensures r.Some? ==> |r.value.users| == |draws| && |r.value.vats| == |draws|
  {
    match AllocateEach(used, VatStreams(draws))
    case None => None
    case Some(a) => Some(UserLoop(ChainUsers(draws, a.vats), a.used, a.vats))
  }

  /** The chain never touches the id, and it keeps the allocated VAT unless
      the VAT rule is the one that fired. */
  lemma FraudUserKeeps(userId: int, d: UserDraw, vat: string)
    requires UserDrawInRange(d)
    ensures FraudUser(userId, d, vat).id == userId
    ensures FirstMatch(UserTriggers(d)) != Some(3) ==> FraudUser(userId, d, vat).vat == vat
  {
  }

  /** The chain's users are numbered by position and keep their allocated
      identifier unless the VAT rule fired. */
  lemma ChainUsersKeep(draws: seq<UserDraw>, vats: seq<string>)
    requires AllUserDrawsInRange(draws) && |vats| == |draws|
    ensures forall k :: 0 <= k < |draws| ==> ChainUsers(draws, vats)[k] == FraudUser(k + 1, draws[k], vats[k])
    ensures forall k :: 0 <= k < |draws| ==> ChainUsers(draws, vats)[k].id == k + 1
    ensures forall k :: 0 <= k < |draws| && FirstMatch(UserTriggers(draws[k])) != Some(3) ==>
      ChainUsers(draws, vats)[k].vat == vats[k]
  {
    forall k | 0 <= k < |draws|
      ensures ChainUsers(draws, vats)[k].id == k + 1
      ensures FirstMatch(UserTriggers(draws[k])) != Some(3) ==> ChainUsers(draws, vats)[k].vat == vats[k]
    {
      FraudUserKeeps(k + 1, draws[k], vats[k]);
    }
  }

  /** Distinct allocated identifiers stay distinct on the users the VAT
      rule left alone. */
  lemma ChainUsersKeptDistinct(draws: seq<UserDraw>, vats: seq<string>)
    requires AllUserDrawsInRange(draws) && |vats| == |draws|
    requires forall j, k :: 0 <= j < k < |vats| ==> vats[j] != vats[k]
    ensures var us := ChainUsers(draws, vats);
      forall j, k :: 0 <= j < k < |draws|
        && FirstMatch(UserTriggers(draws[j])) != Some(3) && FirstMatch(UserTriggers(draws[k])) != Some(3)
        ==> us[j].vat != us[k].vat
  {
    ChainUsersKeep(draws, vats);
  }

  /** Users are numbered 1..n in order, each built by the chain from its own
      draws and the identifier it was allocated. */
  lemma RunUsersBuiltByChain(used: set<string>, draws: seq<UserDraw>)
    requires AllUserDrawsInRange(draws)
    ensures RunUsers(used, draws).Some? ==>
      var s := RunUsers(used, draws).value;
      && (forall k :: 0 <= k < |draws| ==> s.users[k].id == k + 1)
      && (forall k :: 0 <= k < |draws| ==> s.users[k] == FraudUser(k + 1, draws[k], s.vats[k]))
  {
    if RunUsers(used, draws).Some? {
      var s := RunUsers(used, draws).value;
      assert s.users == ChainUsers(draws, s.vats);
      ChainUsersKeep(draws, s.vats);
    }
  }

  /** The allocated identifiers are pairwise distinct, were not used before,
      and are exactly what the used set gained. */
  lemma RunUsersVatsFresh(used: set<string>, draws: seq<UserDraw>)
    requires AllUserDrawsInRange(draws)
    ensures RunUsers(used, draws).Some? ==>
      var s := RunUsers(used, draws).value;
      && (forall k :: 0 <= k < |draws| ==> s.vats[k] !in used)
      && (forall j, k :: 0 <= j < k < |draws| ==> s.vats[j] != s.vats[k])
      && (forall x :: x in s.used <==> x in used || x in s.vats)
  {
    AllocateEachFresh(used, VatStreams(draws));
  }

  /** A user whose VAT the chain did not rewrite keeps the allocated
      identifier, so no two such users share a VAT number.  (A rewritten
      one may match anyone's: SuspiciousVatMayCollide.) */
  lemma RunUsersKeptVatsDistinct(used: set<string>, draws: seq<UserDraw>)
    requires AllUserDrawsInRange(draws) && RunUsers(used, draws).Some?
    ensures var us := RunUsers(used, draws).value.users;
      forall j, k :: 0 <= j < k < |draws|
        && FirstMatch(UserTriggers(draws[j])) != Some(3) && FirstMatch(UserTriggers(draws[k])) != Some(3)
        ==> us[j].vat != us[k].vat
  {
    var s := RunUsers(used, draws).value;
    RunUsersVatsFresh(used, draws);
    assert s.users == ChainUsers(draws, s.vats);
    ChainUsersKeptDistinct(draws, s.vats);
  }
}
