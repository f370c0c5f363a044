/**
 * The pharmacist's dispensing request, as the controller runs it: a walk
 * over one medicine's lots that updates their quantities as it goes, a
 * pass over each prescription's entries that keeps two running flags, and
 * the direct override of one entry's dispensed quantity. Each method is
 * proved against the value-level definitions of `DispensingSpec`.
 */
module Dispensing {
  import opened Common
  import opened DispensingSpec

  /** One more lot walked while something is outstanding. */
  lemma TakesStep(q: seq<int>, k: nat, requiredQty: int)
    requires k < |q| && requiredQty > 0
    ensures var take := Min(requiredQty, q[k]);
            && Takes(q[k..], requiredQty) == [take] + Takes(q[k + 1..], requiredQty - take)
            && Left(q[k..], requiredQty) == Left(q[k + 1..], requiredQty - take)
  {
    assert q[k..][1..] == q[k + 1..];
  }

  /**
   * One turn of the walk's loop, from the state after `k` draws: the next
   * valid lot is still untouched, and drawing from it extends the draws,
   * the lowered lots and the `dispensed_from` records by one.
   */
  lemma WalkStep(lots: seq<Batch>, valid: seq<nat>, t: seq<int>, requiredQty: int)
    requires InRange(valid, |lots|) && Increasing(valid) && |t| < |valid|
    ensures var walked := At(lots, valid);
            var after := Withdraw(lots, valid, t);
            var j := valid[|t|];
            var take := Min(requiredQty, after[j].quantity);
            && after[j] == walked[|t|]
            && Withdraw(lots, valid, t + [take]) == Lower(after, j, take)
            && Draws(walked, t + [take]) == Draws(walked, t) + [Draw(after[j].batchNo, take)]
  {
    var j := valid[|t|];
    WithdrawMiss(lots, valid, t, j);
    var take := Min(requiredQty, Withdraw(lots, valid, t)[j].quantity);
    WithdrawStep(lots, valid, t, take);
    DrawsStep(At(lots, valid), t, take);
  }

  lemma WithdrawStep(lots: seq<Batch>, idx: seq<nat>, t: seq<int>, x: int)
    requires InRange(idx, |lots|) && |t| < |idx|
    ensures Withdraw(lots, idx, t + [x]) == Lower(Withdraw(lots, idx, t), idx[|t|], x)
  {
    assert (t + [x])[..|t|] == t;
  }

  lemma DrawsStep(walked: seq<Batch>, t: seq<int>, x: int)
    requires |t| < |walked|
    ensures Draws(walked, t + [x]) == Draws(walked, t) + [Draw(walked[|t|].batchNo, x)]
  {
  }

  /** One turn of the walk's loop, stated on the loop's own variables. */
  lemma DrawStep(lots: seq<Batch>, valid: seq<nat>, q: seq<int>, required: int, t: seq<int>, requiredQty: int)
    requires InRange(valid, |lots|) && Increasing(valid) && |t| < |valid| && requiredQty > 0
    requires q == Quantities(At(lots, valid))
    requires Takes(q, required) == t + Takes(q[|t|..], requiredQty)
    requires Left(q, required) == Left(q[|t|..], requiredQty)
    ensures var after := Withdraw(lots, valid, t);
            var j := valid[|t|];
            var take := Min(requiredQty, after[j].quantity);
            && Takes(q, required) == (t + [take]) + Takes(q[|t| + 1..], requiredQty - take)
            && Left(q, required) == Left(q[|t| + 1..], requiredQty - take)
            && Withdraw(lots, valid, t + [take]) == Lower(after, j, take)
            && Draws(At(lots, valid), t + [take]) == Draws(At(lots, valid), t) + [Draw(after[j].batchNo, take)]
  {
    var after := Withdraw(lots, valid, t);
    var j := valid[|t|];
    WalkStep(lots, valid, t, requiredQty);
    var take := Min(requiredQty, after[j].quantity);
    TakesStep(q, |t|, requiredQty);
    AppendAssoc(t, [take], Takes(q[|t| + 1..], requiredQty - take));
  }

  /** One more entry of the pass over a prescription. */
  lemma PassStep(stock: map<MedId, Medicine>, entries: seq<Entry>, now: int, dispense: bool, k: nat,
                 before: PassState, o: EntryOutcome)
    requires k < |entries|
    requires before == EntriesPass(stock, entries, now, dispense, k)
    requires o == EntryStep(before.stock, entries[k], now, dispense)
    ensures EntriesPass(stock, entries, now, dispense, k + 1)
            == PassState(o.stock, before.entries[k := o.entry], before.shown + [o.shown],
                         before.taken + [o.taken], before.unmet + [o.unmet])
  {
  }

  /** The two flags after one more entry. */
  lemma FlagsStep(taken: seq<int>, unmet: seq<bool>, t: int, u: bool)
    ensures NoneUnmet(unmet + [u]) == (NoneUnmet(unmet) && !u)
    ensures AnyTaken(taken + [t]) == (AnyTaken(taken) || t > 0)
  {
    assert (taken + [t])[..|taken|] == taken;
    assert (unmet + [u])[..|unmet|] == unmet;
  }

  lemma AppendAssoc<T>(a: seq<T>, b: seq<T>, c: seq<T>)
    ensures a + (b + c) == (a + b) + c
  {
  }

  /**
   * The walk of one medicine's lots: filter the valid lots, then take
   * `min(outstanding, quantity)` from each in turn, lowering the lot's
   * quantity, until nothing is outstanding.
   */
  method DrawFromLots(lots: seq<Batch>, now: int, required: int) returns (w: Walk)
    ensures w == WalkLots(lots, now, required)
  {
    var valid := ValidIndices(lots, now);
    ghost var walked := At(lots, valid);
    ghost var q := Quantities(walked);
    var after := lots;
    var requiredQty := required;
    var dispensedBatches: seq<Draw> := [];
    ghost var t: seq<int> := [];
    var k := 0;
    while k < |valid|
      invariant 0 <= k <= |valid| && |t| == k
      invariant Takes(q, required) == t + Takes(q[k..], requiredQty)
      invariant Left(q, required) == Left(q[k..], requiredQty)
      invariant after == Withdraw(lots, valid, t)
      invariant dispensedBatches == Draws(walked, t)
    {
      if requiredQty <= 0 {
        break;
      }
      var j := valid[k];
      DrawStep(lots, valid, q, required, t, requiredQty);
      var takeQty := Min(requiredQty, after[j].quantity);
      dispensedBatches := dispensedBatches + [Draw(after[j].batchNo, takeQty)];
      ghost var before := after;
      after := after[j := after[j].(quantity := after[j].quantity - takeQty)];
      assert after == Lower(before, j, takeQty);
      requiredQty := requiredQty - takeQty;
      t := t + [takeQty];
      k := k + 1;
    }
    assert Takes(q[k..], requiredQty) == [] && Left(q[k..], requiredQty) == requiredQty;
    assert t == Takes(q, required);
    w := Walk(after, Shown(At(after, valid), dispensedBatches), requiredQty);
  }

  /**
   * The medicine documents and a sequence of prescriptions: for the search,
   * the prescriptions of the patient's latest consultation; for the direct
   * update, the stored prescriptions that the lookup by id searches.
   * A medicine id missing from `stock` is a reference that did not populate.
   */
  class Dispensary {
    var stock: map<MedId, Medicine>
    var prescriptions: seq<Prescription>

    constructor (stock0: map<MedId, Medicine>, prescriptions0: seq<Prescription>)
      ensures stock == stock0 && prescriptions == prescriptions0
    {
      stock := stock0;
      prescriptions := prescriptions0;
    }

    /** One entry of the loop: skip an unpopulated medicine, dispense if asked, report the lots. */
    method DispenseEntry(e: Entry, now: int, dispense: bool) returns (e': Entry, shown: Option<Shown>, taken: int, unmet: bool)
      modifies this
      ensures EntryOutcome(stock, e', shown, taken, unmet) == EntryStep(old(stock), e, now, dispense)
      ensures prescriptions == old(prescriptions)
    {
      e' := e;
      taken := 0;
      unmet := false;
      if e.medicineId !in stock {
        shown := None;
        return;
      }
      var med := stock[e.medicineId];
      var requiredQty := e.quantity - e.dispensedQty;
      if dispense && requiredQty > 0 {
        var w := DrawFromLots(med.inventory, now, requiredQty);
        assert EntryStep(old(stock), e, now, dispense) == EntryOutcome(
          stock[e.medicineId := med.(inventory := w.lots)],
          e.(dispensedQty := e.dispensedQty + (requiredQty - w.left)),
          Some(w.shown), requiredQty - w.left, w.left > 0);
        e' := e.(dispensedQty := e.dispensedQty + (requiredQty - w.left));
        stock := stock[e.medicineId := med.(inventory := w.lots)];
        taken := requiredQty - w.left;
        unmet := w.left > 0;
        shown := Some(w.shown);
      } else {
        shown := Some(Shown(At(med.inventory, ValidIndices(med.inventory, now)), []));
      }
    }

    /**
     * The loop over one prescription's entries: every entry in order, with
     * the `allDispensed` and `anyDispensed` flags it keeps.
     */
    method DispenseEntries(entries0: seq<Entry>, now: int, dispense: bool)
      returns (entries: seq<Entry>, shown: seq<Option<Shown>>, allDispensed: bool, anyDispensed: bool)
      modifies this
      ensures var p := EntriesPass(old(stock), entries0, now, dispense, |entries0|);
              && stock == p.stock && entries == p.entries && shown == p.shown
              && allDispensed == NoneUnmet(p.unmet) && anyDispensed == AnyTaken(p.taken)
      ensures prescriptions == old(prescriptions)
    {
      entries := entries0;
      allDispensed := true;
      anyDispensed := false;
      shown := [];
      ghost var stock0 := stock;
      ghost var pass := PassState(stock, entries, shown, [], []);
      var k := 0;
      while k < |entries0|
        invariant 0 <= k <= |entries0|
        invariant pass == EntriesPass(stock0, entries0, now, dispense, k)
        invariant stock == pass.stock && entries == pass.entries && shown == pass.shown
        invariant allDispensed == NoneUnmet(pass.unmet) && anyDispensed == AnyTaken(pass.taken)
        invariant prescriptions == old(prescriptions)
      {
        assert entries[k] == entries0[k];
        var e', s, t, u := DispenseEntry(entries[k], now, dispense);
        PassStep(stock0, entries0, now, dispense, k, pass, EntryOutcome(stock, e', s, t, u));
        FlagsStep(pass.taken, pass.unmet, t, u);
        if t > 0 {
          anyDispensed := true;
        }
        if u {
          allDispensed := false;
        }
        entries := entries[k := e'];
        shown := shown + [s];
        pass := PassState(stock, entries, shown, pass.taken + [t], pass.unmet + [u]);
        k := k + 1;
      }
    }

    /**
     * One prescription of the search: the pass over its entries, then the
     * status from the two flags when asked to dispense.
     */
    method DispensePrescription(pi: nat, now: int, dispense: bool) returns (shown: seq<Option<Shown>>)
      requires pi < |prescriptions|
      modifies this
      ensures var o := PrescriptionStep(old(stock), old(prescriptions)[pi], now, dispense);
              && stock == o.stock
              && prescriptions == old(prescriptions)[pi := o.prescription]
              && shown == o.shown
    {
      var pr := prescriptions[pi];
      var entries, allDispensed, anyDispensed;
      entries, shown, allDispensed, anyDispensed := DispenseEntries(pr.entries, now, dispense);
      if dispense {
        var status := if allDispensed then Dispensed else if anyDispensed then PartiallyDispensed else Pending;
        pr := pr.(status := status);
      }
      prescriptions := prescriptions[pi := pr.(entries := entries)];
    }

    /**
     * The dispensing request once the patient and the prescriptions are
     * found: every prescription in retrieval order, then one row per entry.
     * Only the query value `"true"` dispenses.
     */
    method SearchPrescriptions(now: int, dispenseParam: Option<string>) returns (rows: seq<Row>)
      modifies this
      ensures var s := SearchPass(old(stock), old(prescriptions), now, dispenseParam == Some("true"), |old(prescriptions)|);
              && stock == s.stock
              && prescriptions == s.prescriptions
              && rows == Rows(s.stock, s.prescriptions, s.shown)
    {
      var dispense := dispenseParam == Some("true");
      ghost var stock0 := stock;
      ghost var prescriptions0 := prescriptions;
      var shownAll: seq<seq<Option<Shown>>> := [];
      var n := 0;
      while n < |prescriptions|
        invariant 0 <= n <= |prescriptions| && |prescriptions| == |prescriptions0|
        invariant SearchState(stock, prescriptions, shownAll) == SearchPass(stock0, prescriptions0, now, dispense, n)
      {
        assert prescriptions[n] == prescriptions0[n];
        var shown := DispensePrescription(n, now, dispense);
        shownAll := shownAll + [shown];
        n := n + 1;
      }
      rows := Rows(stock, prescriptions, shownAll);
    }

    /** The direct override of one entry's dispensed quantity; `None` is a missing `dispensed_qty`. */
    method UpdatePrescriptionEntry(prescriptionId: string, entryId: string, value: Option<int>) returns (reply: Reply)
      modifies this
      ensures (reply, prescriptions) == UpdateEntry(old(prescriptions), prescriptionId, entryId, value)
      ensures stock == old(stock)
    {
      if value.None? || value.value < 0 {
        return Reply(400, MsgInvalidQty);
      }
      var found := FindPrescription(prescriptions, prescriptionId);
      if found.None? {
        return Reply(404, MsgNoPrescription);
      }
      var pi := found.value;
      var pr := prescriptions[pi];
      var foundEntry := FindEntry(pr.entries, entryId);
      if foundEntry.None? {
        return Reply(404, MsgNoEntry);
      }
      var ei := foundEntry.value;
      var entry := pr.entries[ei];
      if value.value > entry.quantity {
        return Reply(400, MsgExceeds);
      }
      pr := pr.(entries := pr.entries[ei := entry.(dispensedQty := value.value)]);
      if value.value == entry.quantity {
        pr := pr.(status := Dispensed);
      } else if value.value > 0 && value.value < entry.quantity {
        pr := pr.(status := PartiallyDispensed);
      } else {
        pr := pr.(status := Pending);
      }
      prescriptions := prescriptions[pi := pr];
      reply := Reply(200, MsgUpdated);
    }
  }
}
