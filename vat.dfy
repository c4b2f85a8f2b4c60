/** The VAT identifier allocator every generator defines as
    generate_unique_vat_id: draw a number in 100000000..999999999, render it
    as "VAT" followed by its digits, and redraw while that string is already
    in the used set.  The random stream is an explicit sequence of candidate
    numbers; the source keeps drawing for ever, the model reads this finite
    prefix and reports None when no candidate in it is free. */
module Vat {
  import opened Util

  const VatLow: nat := 100000000
  const VatHigh: nat := 999999999
  const VatPrefix: string := "VAT"

  /** f"VAT{n}" */
  function VatId(n: nat): string
  {
    VatPrefix + Decimal(n)
  }

  predicate InVatRange(n: int) { VatLow <= n <= VatHigh }

  /** An allocated identifier is "VAT" and nine digits: twelve characters. */
  lemma VatIdShape(n: nat)
    requires InVatRange(n)
    ensures |VatId(n)| == 12
    ensures VatId(n)[..3] == VatPrefix
    ensures AllDigits(VatId(n)[3..]) && VatId(n)[3..] == Decimal(n)
  {
    assert Pow10(8) == VatLow && Pow10(9) == VatHigh + 1;
    DecimalLength(n, 9);
  }

  /** Which candidates of the draw stream would be accepted. */
  function Fresh(used: set<string>, draws: seq<nat>): (f: seq<bool>)
    ensures |f| == |draws|
    ensures forall i :: 0 <= i < |draws| ==> f[i] == (VatId(draws[i]) !in used)
  {
    seq(|draws|, i requires 0 <= i < |draws| => VatId(draws[i]) !in used)
  }

  /** The identifier rejection sampling settles on: the first fresh candidate. */
  function FreshVat(used: set<string>, draws: seq<nat>): Option<string>
  {
    match FirstMatch(Fresh(used, draws))
    case None => None
    case Some(k) => Some(VatId(draws[k]))
  }

  /** What rejection sampling promises: the result was not used before, every
      candidate drawn before it was, and it is drawn from the stream. */
  lemma FreshVatIsFirstUnused(used: set<string>, draws: seq<nat>)
    ensures FreshVat(used, draws).Some? ==>
      exists k :: 0 <= k < |draws| && FreshVat(used, draws).value == VatId(draws[k])
             && (forall j :: 0 <= j < k ==> VatId(draws[j]) in used)
    ensures FreshVat(used, draws).Some? ==> FreshVat(used, draws).value !in used
    ensures FreshVat(used, draws).None? <==> forall j :: 0 <= j < |draws| ==> VatId(draws[j]) in used
  {
    var f := Fresh(used, draws);
    match FirstMatch(f)
    case None =>
    case Some(k) =>
      assert forall j :: 0 <= j < k ==> !f[j];
  }

  /** The allocator loop.  It returns the identifier and the used set after
      the call: the old set plus exactly that identifier. */
  method AllocateVat(used: set<string>, draws: seq<nat>) returns (vat: Option<string>, used': set<string>)
    ensures vat == FreshVat(used, draws)
    ensures vat.Some? ==> vat.value !in used && used' == used + {vat.value}
    ensures vat.None? ==> used' == used
  {
    var i := 0;
    while i < |draws|
      invariant 0 <= i <= |draws|
      invariant forall j :: 0 <= j < i ==> VatId(draws[j]) in used
    {
      var candidate := VatId(draws[i]);
      if candidate !in used {
        FirstMatchAt(Fresh(used, draws), i);
        return Some(candidate), used + {candidate};
      }
      i := i + 1;
    }
    return None, used;
  }

  /** The identifiers handed out by a run of allocations, in order, and the
      used set afterwards. */
  datatype Allocation = Allocation(vats: seq<string>, used: set<string>)

  /** One allocation per stream of candidates, each on the set the previous
      ones left; None once an allocation finds no free candidate. */
  function AllocateEach(used: set<string>, streams: seq<seq<nat>>): (r: Option<Allocation>)
    ensures r.Some? ==> |r.value.vats| == |streams|
  {
    if |streams| == 0 then Some(Allocation([], used))
    else
      var n := |streams| - 1;
      match AllocateEach(used, streams[..n])
      case None => None
      case Some(a) =>
        match FreshVat(a.used, streams[n])
        case None => None
        case Some(v) => Some(Allocation(a.vats + [v], a.used + {v}))
  }

  /** One more allocation keeps the earlier identifiers and adds the fresh
      one for the last stream. */
  lemma AllocateEachStep(used: set<string>, streams: seq<seq<nat>>)
    requires |streams| > 0
    ensures var n := |streams| - 1;
      var prev := AllocateEach(used, streams[..n]);
      AllocateEach(used, streams).Some? <==> prev.Some? && FreshVat(prev.value.used, streams[n]).Some?
    ensures var n := |streams| - 1;
      var prev := AllocateEach(used, streams[..n]);
      AllocateEach(used, streams).Some? ==>
        var a, r := prev.value, AllocateEach(used, streams).value;
        var v := FreshVat(a.used, streams[n]).value;
        r.vats == a.vats + [v] && r.used == a.used + {v} && v !in a.used
  {
    var n := |streams| - 1;
    var prev := AllocateEach(used, streams[..n]);
    if prev.Some? {
      FreshVatIsFirstUnused(prev.value.used, streams[n]);
    }
  }

  /** The identifiers of a run are pairwise distinct, were not used before
      it, and are exactly what the used set gained. */
  lemma {:induction false} AllocateEachFresh(used: set<string>, streams: seq<seq<nat>>)
    ensures AllocateEach(used, streams).Some? ==>
      var a := AllocateEach(used, streams).value;
      && (forall k :: 0 <= k < |streams| ==> a.vats[k] !in used)
      && (forall j, k :: 0 <= j < k < |streams| ==> a.vats[j] != a.vats[k])
      && (forall x :: x in a.used <==> x in used || x in a.vats)
  {
    if |streams| > 0 && AllocateEach(used, streams).Some? {
      var n := |streams| - 1;
      AllocateEachStep(used, streams);
      AllocateEachFresh(used, streams[..n]);
      var a, r := AllocateEach(used, streams[..n]).value, AllocateEach(used, streams).value;
      var v := FreshVat(a.used, streams[n]).value;
      assert r.vats == a.vats + [v] && r.used == a.used + {v} && v !in a.used;
      forall k | 0 <= k <= n
        ensures r.vats[k] == (if k < n then a.vats[k] else v)
      {
      }
      forall j, k | 0 <= j < k <= n
        ensures r.vats[j] != r.vats[k]
      {
        if k == n {
          assert a.vats[j] in a.used;
        }
      }
    }
  }

  /** Once a run stops, running on more streams stops too. */
  lemma {:induction false} AllocateEachPrefixNone(used: set<string>, streams: seq<seq<nat>>, i: nat)
    requires i <= |streams| && AllocateEach(used, streams[..i]).None?
    ensures AllocateEach(used, streams).None?
    decreases |streams| - i
  {
    if i < |streams| {
      AllocateEachStep(used, streams[..i + 1]);
      assert streams[..i + 1][..i] == streams[..i];
      AllocateEachPrefixNone(used, streams, i + 1);
    } else {
      assert streams[..i] == streams;
    }
  }

  /** The loop step: with the first i allocations done, the next one either
      extends the run by its fresh identifier or stops the whole run. */
  lemma AllocateEachExtend(used: set<string>, streams: seq<seq<nat>>, i: nat, a: Allocation)
    requires i < |streams| && AllocateEach(used, streams[..i]) == Some(a)
    ensures FreshVat(a.used, streams[i]).Some? ==>
      var v := FreshVat(a.used, streams[i]).value;
      AllocateEach(used, streams[..i + 1]) == Some(Allocation(a.vats + [v], a.used + {v}))
    ensures FreshVat(a.used, streams[i]).None? ==> AllocateEach(used, streams).None?
  {
    assert streams[..i + 1][..i] == streams[..i];
    if FreshVat(a.used, streams[i]).None? {
      AllocateEachPrefixNone(used, streams, i + 1);
    }
  }
}
