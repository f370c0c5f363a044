/**
 * The pharmacist's dispensing allocator, as values.
 *
 * One entry of a prescription names a medicine, a prescribed quantity and a
 * quantity already dispensed. The medicine holds its lots (batches) in
 * storage order. Dispensing keeps the lots that are unexpired and non-empty,
 * walks them in that order (there is no sort by expiry), takes
 * `min(outstanding, lot quantity)` from each until nothing is outstanding,
 * and adds what it took to the entry's dispensed quantity.
 *
 * Times are integer timestamps; "now" is a parameter.
 */
module DispensingSpec {
  import opened Common

  type MedId = string

  datatype Batch = Batch(batchNo: string, expiryDate: int, quantity: int, unitPrice: int, supplier: string)

  /** A populated medicine document: its name and its lots in storage order. */
  datatype Medicine = Medicine(name: string, inventory: seq<Batch>)

  datatype Entry = Entry(
    id: string,
    medicineId: MedId,
    quantity: int,
    dispensedQty: int,
    dosage: string,
    frequency: string,
    duration: string)

  datatype Status = Pending | PartiallyDispensed | Dispensed

  datatype Prescription = Prescription(id: string, date: int, status: Status, entries: seq<Entry>)

  /** One line of `dispensed_from`: the lot drawn from and how much was taken. */
  datatype Draw = Draw(batchNo: string, taken: int)

  /** What a processed entry reports: `valid_batches` and `dispensed_from`. */
  datatype Shown = Shown(validBatches: seq<Batch>, dispensedFrom: seq<Draw>)

  function Min(a: int, b: int): int {
    if a <= b then a else b
  }

  function Sum(s: seq<int>): int {
    if s == [] then 0 else s[0] + Sum(s[1..])
  }

  predicate AllNonNegative(s: seq<int>) {
    forall k :: 0 <= k < |s| ==> s[k] >= 0
  }

  lemma {:induction false} SumNonNegative(s: seq<int>)
    requires AllNonNegative(s)
    ensures Sum(s) >= 0
  {
    if s != [] {
      SumNonNegative(s[1..]);
    }
  }

  lemma {:induction false} SumAppend(s: seq<int>, x: int)
    ensures Sum(s + [x]) == Sum(s) + x
  {
    if s == [] {
      assert [] + [x] == [x];
    } else {
      SumAppend(s[1..], x);
      assert (s + [x])[1..] == s[1..] + [x];
    }
  }

  // ---------------------------------------------------------------------
  // Filtering lots

  /** A lot can be drawn from iff it expires strictly after now and is not empty. */
  predicate IsValidBatch(b: Batch, now: int) {
    b.expiryDate > now && b.quantity > 0
  }

  predicate Increasing(idx: seq<nat>) {
    forall i, j :: 0 <= i < j < |idx| ==> idx[i] < idx[j]
  }

  predicate InRange(idx: seq<nat>, n: nat) {
    forall k :: 0 <= k < |idx| ==> idx[k] < n
  }

  /**
   * The positions of the valid lots, in storage order: the `filter` that
   * builds `validBatches`, kept as positions because the walk then changes
   * those very lots.
   */
  function ValidIndices(lots: seq<Batch>, now: int): (idx: seq<nat>)
    ensures InRange(idx, |lots|) && Increasing(idx)
    ensures forall k :: 0 <= k < |idx| ==> IsValidBatch(lots[idx[k]], now)
  {
    if lots == [] then []
    else
      var n := |lots| - 1;
      var prev := ValidIndices(lots[..n], now);
      if IsValidBatch(lots[n], now) then prev + [n] else prev
  }

  /** The filter keeps every valid lot: together with the contract above, exactly the valid lots, in order. */
  lemma {:induction false} ValidIndicesComplete(lots: seq<Batch>, now: int, j: nat)
    requires j < |lots| && IsValidBatch(lots[j], now)
    ensures j in ValidIndices(lots, now)
  {
    var n := |lots| - 1;
    if j < n {
      ValidIndicesComplete(lots[..n], now, j);
    }
  }

  /** The lots at the given positions, in that order. */
  function At(lots: seq<Batch>, idx: seq<nat>): (r: seq<Batch>)
    requires InRange(idx, |lots|)
    ensures |r| == |idx|
  {
    seq(|idx|, k requires 0 <= k < |idx| => lots[idx[k]])
  }

  function Quantities(lots: seq<Batch>): (q: seq<int>)
    ensures |q| == |lots|
  {
    seq(|lots|, k requires 0 <= k < |lots| => lots[k].quantity)
  }

  function TotalQuantity(lots: seq<Batch>): int {
    Sum(Quantities(lots))
  }

  /** A valid lot always has stock, so the quantities walked are all positive. */
  lemma ValidQuantitiesPositive(lots: seq<Batch>, now: int)
    ensures var q := Quantities(At(lots, ValidIndices(lots, now)));
            forall k :: 0 <= k < |q| ==> q[k] > 0
  {
  }

  // ---------------------------------------------------------------------
  // Drawing stock

  /**
   * The amounts taken from each lot of `stock` (quantities in walk order)
   * when `required` units are outstanding: `min(required, quantity)` from
   * each lot until nothing is outstanding.
   */
  function Takes(stock: seq<int>, required: int): (t: seq<int>)
    ensures |t| <= |stock|
  {
    if stock == [] || required <= 0 then []
    else
      var take := Min(required, stock[0]);
      [take] + Takes(stock[1..], required - take)
  }

  /** What is still outstanding when the walk of `Takes` ends. */
  function Left(stock: seq<int>, required: int): int {
    if stock == [] || required <= 0 then required
    else Left(stock[1..], required - Min(required, stock[0]))
  }

  /**
   * Conservation: the units taken and the units left add up to what was
   * required, and a positive requirement is met as far as the stock allows.
   */
  lemma {:induction false} TakesConserve(stock: seq<int>, required: int)
    requires AllNonNegative(stock)
    ensures Sum(Takes(stock, required)) + Left(stock, required) == required
    ensures required > 0 ==> Sum(Takes(stock, required)) == Min(required, Sum(stock))
    ensures required > 0 ==> Left(stock, required) >= 0
  {
    if stock != [] && required > 0 {
      var take := Min(required, stock[0]);
      TakesConserve(stock[1..], required - take);
      SumNonNegative(stock[1..]);
    }
  }

  /**
   * The walk at lot k: it is reached only while something is outstanding,
   * it takes `min(outstanding, quantity)`, so it never takes more than the
   * lot holds, and every lot before it was emptied.
   */
  lemma {:induction false} TakesAt(stock: seq<int>, required: int, k: nat)
    requires k < |Takes(stock, required)|
    ensures var t := Takes(stock, required);
            && required - Sum(t[..k]) > 0
            && t[k] == Min(required - Sum(t[..k]), stock[k])
            && t[k] <= stock[k]
            && (stock[k] > 0 ==> t[k] > 0)
            && forall j :: 0 <= j < k ==> t[j] == stock[j]
  {
    var t := Takes(stock, required);
    var take := Min(required, stock[0]);
    var rest := Takes(stock[1..], required - take);
    assert t == [take] + rest;
    if k > 0 {
      TakesAt(stock[1..], required - take, k - 1);
      assert t[..k] == [take] + rest[..k - 1];
      assert take == stock[0];
      forall j | 0 <= j < k
        ensures t[j] == stock[j]
      {
        if j > 0 {
          assert t[j] == rest[j - 1];
        }
      }
    }
  }

  /** The walk stops before the last lot only once nothing is outstanding. */
  lemma {:induction false} TakesStopsWhenMet(stock: seq<int>, required: int)
    requires |Takes(stock, required)| < |stock|
    ensures Left(stock, required) <= 0
  {
    if stock != [] && required > 0 {
      TakesStopsWhenMet(stock[1..], required - Min(required, stock[0]));
    }
  }

  /** Lot `j` loses `x` units. */
  function Lower(lots: seq<Batch>, j: nat, x: int): (r: seq<Batch>)
    requires j < |lots|
  {
    lots[j := lots[j].(quantity := lots[j].quantity - x)]
  }

  /**
   * The lots after the walk: lot `idx[k]` loses `t[k]`. Written from the
   * last draw backwards, so that one more draw is one more update.
   */
  function Withdraw(lots: seq<Batch>, idx: seq<nat>, t: seq<int>): (r: seq<Batch>)
    requires InRange(idx, |lots|) && |t| <= |idx|
    ensures |r| == |lots|
    decreases |t|
  {
    if t == [] then lots
    else
      var n := |t| - 1;
      Lower(Withdraw(lots, idx, t[..n]), idx[n], t[n])
  }

  /** A lot that was drawn from lost exactly what was taken from it. */
  lemma {:induction false} WithdrawHit(lots: seq<Batch>, idx: seq<nat>, t: seq<int>, k: nat)
    requires InRange(idx, |lots|) && Increasing(idx) && |t| <= |idx| && k < |t|
    ensures Withdraw(lots, idx, t)[idx[k]] == lots[idx[k]].(quantity := lots[idx[k]].quantity - t[k])
    decreases |t|
  {
    var n := |t| - 1;
    if k < n {
      WithdrawHit(lots, idx, t[..n], k);
    } else {
      WithdrawMiss(lots, idx, t[..n], idx[n]);
    }
  }

  /** A lot that was not drawn from is unchanged. */
  lemma {:induction false} WithdrawMiss(lots: seq<Batch>, idx: seq<nat>, t: seq<int>, j: nat)
    requires InRange(idx, |lots|) && Increasing(idx) && |t| <= |idx| && j < |lots|
    requires forall k :: 0 <= k < |t| ==> idx[k] != j
    ensures Withdraw(lots, idx, t)[j] == lots[j]
    decreases |t|
  {
    if t != [] {
      WithdrawMiss(lots, idx, t[..|t| - 1], j);
    }
  }

  lemma {:induction false} TotalQuantityUpdate(lots: seq<Batch>, j: nat, b: Batch)
    requires j < |lots|
    ensures TotalQuantity(lots[j := b]) == TotalQuantity(lots) - lots[j].quantity + b.quantity
  {
    if j > 0 {
      TotalQuantityUpdate(lots[1..], j - 1, b);
      assert Quantities(lots[j := b])[1..] == Quantities(lots[1..][j - 1 := b]);
      assert Quantities(lots)[1..] == Quantities(lots[1..]);
    } else {
      assert Quantities(lots[j := b])[1..] == Quantities(lots)[1..];
    }
  }

  /** Stock is conserved: the lots together lose exactly what was taken. */
  lemma {:induction false} WithdrawTotal(lots: seq<Batch>, idx: seq<nat>, t: seq<int>)
    requires InRange(idx, |lots|) && |t| <= |idx|
    ensures TotalQuantity(Withdraw(lots, idx, t)) == TotalQuantity(lots) - Sum(t)
    decreases |t|
  {
    if t != [] {
      var n := |t| - 1;
      var w := Withdraw(lots, idx, t[..n]);
      WithdrawTotal(lots, idx, t[..n]);
      TotalQuantityUpdate(w, idx[n], w[idx[n]].(quantity := w[idx[n]].quantity - t[n]));
      SumAppend(t[..n], t[n]);
      assert t[..n] + [t[n]] == t;
    }
  }

  /** The `dispensed_from` records: lot numbers of the walked lots and the amounts taken. */
  function Draws(walked: seq<Batch>, t: seq<int>): (d: seq<Draw>)
    requires |t| <= |walked|
    ensures |d| == |t|
    ensures forall k :: 0 <= k < |d| ==> d[k] == Draw(walked[k].batchNo, t[k])
  {
    seq(|t|, k requires 0 <= k < |t| => Draw(walked[k].batchNo, t[k]))
  }

  function Taken(d: seq<Draw>): int {
    if d == [] then 0 else d[0].taken + Taken(d[1..])
  }

  lemma {:induction false} TakenDraws(walked: seq<Batch>, t: seq<int>)
    requires |t| <= |walked|
    ensures Taken(Draws(walked, t)) == Sum(t)
    decreases |t|
  {
    if t != [] {
      TakenDraws(walked[1..], t[1..]);
      assert Draws(walked, t)[1..] == Draws(walked[1..], t[1..]);
    }
  }

  // ---------------------------------------------------------------------
  // The walk over one medicine's lots

  /** The outcome of the walk: the lots afterwards, what the entry shows, and what is still outstanding. */
  datatype Walk = Walk(lots: seq<Batch>, shown: Shown, left: int)

  /**
   * Dispensing `required` units from one medicine's lots: filter the valid
   * lots, take from them in storage order, and report the valid lots as
   * they are afterwards together with the draws.
   */
  function WalkLots(lots: seq<Batch>, now: int, required: int): Walk {
    var idx := ValidIndices(lots, now);
    var walked := At(lots, idx);
    var t := Takes(Quantities(walked), required);
    var after := Withdraw(lots, idx, t);
    Walk(after, Shown(At(after, idx), Draws(walked, t)), Left(Quantities(walked), required))
  }

  /** The total quantity of the lots that can be drawn from now. */
  function ValidStock(lots: seq<Batch>, now: int): int {
    Sum(Quantities(At(lots, ValidIndices(lots, now))))
  }

  /**
   * Conservation for one walk: what is taken is `min(required, valid stock)`,
   * the `dispensed_from` records add up to it, and the lots together lose
   * exactly that much.
   */
  lemma WalkConserves(lots: seq<Batch>, now: int, required: int)
    requires required > 0
    ensures var w := WalkLots(lots, now, required);
            && 0 <= w.left <= required
            && required - w.left == Min(required, ValidStock(lots, now))
            && Taken(w.shown.dispensedFrom) == required - w.left
            && TotalQuantity(w.lots) == TotalQuantity(lots) - (required - w.left)
  {
    var idx := ValidIndices(lots, now);
    var walked := At(lots, idx);
    var q := Quantities(walked);
    var t := Takes(q, required);
    assert AllNonNegative(q);
    TakesConserve(q, required);
    SumNonNegative(q);
    TakenDraws(walked, t);
    WithdrawTotal(lots, idx, t);
  }

  /**
   * No negative stock, and expired or empty lots are never drawn from: every
   * lot stays non-negative, and a lot that was not valid is exactly as it was.
   */
  lemma WalkKeepsLots(lots: seq<Batch>, now: int, required: int)
    requires AllNonNegative(Quantities(lots))
    ensures var w := WalkLots(lots, now, required);
            && |w.lots| == |lots|
            && AllNonNegative(Quantities(w.lots))
            && forall j :: 0 <= j < |lots| && !IsValidBatch(lots[j], now) ==> w.lots[j] == lots[j]
  {
    var idx := ValidIndices(lots, now);
    var walked := At(lots, idx);
    var q := Quantities(walked);
    var t := Takes(q, required);
    var after := Withdraw(lots, idx, t);
    forall j | 0 <= j < |after|
      ensures after[j].quantity >= 0
      ensures !IsValidBatch(lots[j], now) ==> after[j] == lots[j]
    {
      assert Quantities(lots)[j] == lots[j].quantity;
      if k :| 0 <= k < |t| && idx[k] == j {
        WithdrawHit(lots, idx, t, k);
        TakesAt(q, required, k);
        assert q[k] == walked[k].quantity == lots[j].quantity;
        assert IsValidBatch(lots[j], now);
      } else {
        WithdrawMiss(lots, idx, t, j);
      }
    }
  }

  /** The k-th record of a walk over `walked`: its lot, and `min(outstanding, quantity)`. */
  lemma DrawsInOrder(walked: seq<Batch>, required: int, k: nat)
    requires k < |Takes(Quantities(walked), required)|
    ensures var t := Takes(Quantities(walked), required);
            var d := Draws(walked, t);
            && d[k].batchNo == walked[k].batchNo
            && d[k].taken == t[k] == Min(required - Taken(d[..k]), walked[k].quantity)
            && (walked[k].quantity > 0 ==> d[k].taken > 0)
  {
    var q := Quantities(walked);
    var t := Takes(q, required);
    var d := Draws(walked, t);
    TakesAt(q, required, k);
    TakenDraws(walked[..k], t[..k]);
    assert d[..k] == Draws(walked[..k], t[..k]);
  }

  /**
   * Lots are consumed in order: the k-th draw is from the k-th valid lot,
   * takes `min(outstanding, quantity)` from it, and is positive.
   */
  lemma WalkInOrder(lots: seq<Batch>, now: int, required: int, k: nat)
    requires k < |WalkLots(lots, now, required).shown.dispensedFrom|
    ensures var idx := ValidIndices(lots, now);
            var d := WalkLots(lots, now, required).shown.dispensedFrom;
            && k < |idx|
            && d[k].batchNo == lots[idx[k]].batchNo
            && d[k].taken == Min(required - Taken(d[..k]), lots[idx[k]].quantity)
            && d[k].taken > 0
  {
    DrawsInOrder(At(lots, ValidIndices(lots, now)), required, k);
  }

  /**
   * The k-th drawn lot loses exactly what the k-th draw took, and a later
   * lot is drawn from only once every valid lot before it is empty.
   */
  lemma WalkLowersLots(lots: seq<Batch>, now: int, required: int, k: nat)
    requires k < |WalkLots(lots, now, required).shown.dispensedFrom|
    ensures var idx := ValidIndices(lots, now);
            var w := WalkLots(lots, now, required);
            && k < |idx|
            && w.lots[idx[k]].quantity == lots[idx[k]].quantity - w.shown.dispensedFrom[k].taken
            && forall j :: 0 <= j < k ==> w.lots[idx[j]].quantity == 0
  {
    var idx := ValidIndices(lots, now);
    var walked := At(lots, idx);
    var q := Quantities(walked);
    var t := Takes(q, required);
    TakesAt(q, required, k);
    WithdrawHit(lots, idx, t, k);
    forall j | 0 <= j < k
      ensures Withdraw(lots, idx, t)[idx[j]].quantity == 0
    {
      WithdrawHit(lots, idx, t, j);
    }
  }

  // ---------------------------------------------------------------------
  // One entry

  /** The outcome of processing one entry against the current medicine documents. */
  datatype EntryOutcome = EntryOutcome(
    stock: map<MedId, Medicine>,
    entry: Entry,
    shown: Option<Shown>,  // None: the medicine did not populate, the entry was skipped
    taken: int,
    unmet: bool)           // something is still outstanding after the walk

  function EntryStep(stock: map<MedId, Medicine>, e: Entry, now: int, dispense: bool): EntryOutcome {
    if e.medicineId !in stock then EntryOutcome(stock, e, None, 0, false)
    else
      var med := stock[e.medicineId];
      var required := e.quantity - e.dispensedQty;
      if dispense && required > 0 then
        var w := WalkLots(med.inventory, now, required);
        EntryOutcome(
          stock[e.medicineId := med.(inventory := w.lots)],
          e.(dispensedQty := e.dispensedQty + (required - w.left)),
          Some(w.shown),
          required - w.left,
          w.left > 0)
      else
        EntryOutcome(stock, e, Some(Shown(At(med.inventory, ValidIndices(med.inventory, now)), [])), 0, false)
  }

  /** Every lot of every medicine holds a non-negative quantity. */
  predicate StockNonNegative(stock: map<MedId, Medicine>) {
    forall m :: m in stock ==> AllNonNegative(Quantities(stock[m].inventory))
  }

  /**
   * Conservation for one entry: the dispensed quantity grows by exactly
   * `min(outstanding, valid stock)`, which is what `dispensed_from` sums to
   * and what the medicine's lots lose; it never passes the prescribed
   * quantity, and an entry that started within bounds stays within them.
   */
  lemma EntryStepConserves(stock: map<MedId, Medicine>, e: Entry, now: int)
    requires e.medicineId in stock && e.quantity - e.dispensedQty > 0
    ensures var r := EntryStep(stock, e, now, true);
            var lots := stock[e.medicineId].inventory;
            && r.taken == Min(e.quantity - e.dispensedQty, ValidStock(lots, now))
            && r.entry.dispensedQty == e.dispensedQty + r.taken
            && r.shown.Some? && Taken(r.shown.value.dispensedFrom) == r.taken
            && e.medicineId in r.stock
            && TotalQuantity(r.stock[e.medicineId].inventory) == TotalQuantity(lots) - r.taken
            && r.entry.dispensedQty <= e.quantity
            && (r.unmet <==> r.entry.dispensedQty < e.quantity)
            && (0 <= e.dispensedQty ==> 0 <= r.entry.dispensedQty)
  {
    var med := stock[e.medicineId];
    var required := e.quantity - e.dispensedQty;
    var w := WalkLots(med.inventory, now, required);
    WalkConserves(med.inventory, now, required);
    var r := EntryStep(stock, e, now, true);
    assert r.stock == stock[e.medicineId := med.(inventory := w.lots)];
    assert r.entry.dispensedQty == e.dispensedQty + (required - w.left);
    assert r.shown == Some(w.shown) && r.taken == required - w.left && r.unmet == (w.left > 0);
  }

  /**
   * After one entry every lot is still non-negative, no medicine appears or
   * disappears, other medicines are untouched, and invalid lots are as they were.
   */
  lemma EntryStepKeepsStock(stock: map<MedId, Medicine>, e: Entry, now: int, dispense: bool)
    requires StockNonNegative(stock)
    ensures var r := EntryStep(stock, e, now, dispense);
            && StockNonNegative(r.stock)
            && r.stock.Keys == stock.Keys
            && (forall m :: m in stock && m != e.medicineId ==> r.stock[m] == stock[m])
            && (e.medicineId in stock ==>
                  var before := stock[e.medicineId].inventory;
                  var after := r.stock[e.medicineId].inventory;
                  && |after| == |before|
                  && forall j :: 0 <= j < |before| && !IsValidBatch(before[j], now) ==> after[j] == before[j])
  {
    if e.medicineId in stock {
      WalkKeepsLots(stock[e.medicineId].inventory, now, e.quantity - e.dispensedQty);
    }
  }

  /** Without the dispense flag, or with nothing outstanding, nothing changes. */
  lemma EntryStepIdle(stock: map<MedId, Medicine>, e: Entry, now: int, dispense: bool)
    requires !dispense || e.quantity - e.dispensedQty <= 0
    ensures var r := EntryStep(stock, e, now, dispense);
            && r.stock == stock && r.entry == e && r.taken == 0 && !r.unmet
            && (r.shown.Some? ==> r.shown.value.dispensedFrom == [])
  {
  }

  /**
   * What the per-entry flags mean: an entry is unmet exactly when its
   * medicine populated, the flag was set and it still has an outstanding
   * quantity afterwards; something is taken only with the flag set.
   */
  lemma EntryStepFlags(stock: map<MedId, Medicine>, e: Entry, now: int, dispense: bool)
    ensures var r := EntryStep(stock, e, now, dispense);
            && r.stock.Keys == stock.Keys
            && r.entry.quantity == e.quantity && r.entry.medicineId == e.medicineId
            && (r.unmet <==> e.medicineId in stock && dispense && r.entry.dispensedQty < r.entry.quantity)
            && (r.taken > 0 ==> dispense)
  {
    if e.medicineId in stock && dispense && e.quantity - e.dispensedQty > 0 {
      EntryStepConserves(stock, e, now);
    }
  }

  // ---------------------------------------------------------------------
  // One prescription

  /** The state of the pass over a prescription's entries after the first few. */
  datatype PassState = PassState(
    stock: map<MedId, Medicine>,
    entries: seq<Entry>,
    shown: seq<Option<Shown>>,
    taken: seq<int>,
    unmet: seq<bool>)

  /** The pass after the first `n` entries: `entries[n..]` are not yet touched. */
  function EntriesPass(stock: map<MedId, Medicine>, entries: seq<Entry>, now: int, dispense: bool, n: nat): (p: PassState)
    requires n <= |entries|
    ensures |p.entries| == |entries| && p.entries[n..] == entries[n..]
    ensures |p.shown| == n && |p.taken| == n && |p.unmet| == n
  {
    if n == 0 then PassState(stock, entries, [], [], [])
    else
      var p := EntriesPass(stock, entries, now, dispense, n - 1);
      var r := EntryStep(p.stock, entries[n - 1], now, dispense);
      PassState(r.stock, p.entries[n - 1 := r.entry], p.shown + [r.shown], p.taken + [r.taken], p.unmet + [r.unmet])
  }

  /** `allDispensed` after the pass: no entry was left unmet. */
  function NoneUnmet(u: seq<bool>): bool {
    u == [] || (NoneUnmet(u[..|u| - 1]) && !u[|u| - 1])
  }

  /** `anyDispensed` after the pass: some entry took something. */
  function AnyTaken(t: seq<int>): bool {
    t != [] && (AnyTaken(t[..|t| - 1]) || t[|t| - 1] > 0)
  }

  lemma {:induction false} NoneUnmetMeaning(u: seq<bool>)
    ensures NoneUnmet(u) <==> forall i :: 0 <= i < |u| ==> !u[i]
  {
    if u != [] {
      NoneUnmetMeaning(u[..|u| - 1]);
    }
  }

  lemma {:induction false} AnyTakenMeaning(t: seq<int>)
    ensures AnyTaken(t) <==> exists i :: 0 <= i < |t| && t[i] > 0
  {
    if t != [] {
      AnyTakenMeaning(t[..|t| - 1]);
      if t[|t| - 1] <= 0 && exists i :: 0 <= i < |t| && t[i] > 0 {
        var i :| 0 <= i < |t| && t[i] > 0;
        assert t[..|t| - 1][i] > 0;
      }
    }
  }

  /** The per-entry records of the pass, read back entry by entry. */
  lemma {:induction false} EntriesPassAt(stock: map<MedId, Medicine>, entries: seq<Entry>, now: int, dispense: bool, n: nat, i: nat)
    requires n <= |entries| && i < n
    ensures var p := EntriesPass(stock, entries, now, dispense, n);
            && p.stock.Keys == stock.Keys
            && p.entries[i].medicineId == entries[i].medicineId
            && (p.unmet[i] <==> entries[i].medicineId in stock && dispense
                                && p.entries[i].dispensedQty < p.entries[i].quantity)
            && (p.taken[i] > 0 ==> dispense)
  {
    var p := EntriesPass(stock, entries, now, dispense, n - 1);
    var e := entries[n - 1];
    EntryStepFlags(p.stock, e, now, dispense);
    EntriesPassKeys(stock, entries, now, dispense, n - 1);
    if i < n - 1 {
      EntriesPassAt(stock, entries, now, dispense, n - 1, i);
    } else {
      assert p.entries[n - 1] == e;
    }
  }

  lemma {:induction false} EntriesPassKeys(stock: map<MedId, Medicine>, entries: seq<Entry>, now: int, dispense: bool, n: nat)
    requires n <= |entries|
    ensures EntriesPass(stock, entries, now, dispense, n).stock.Keys == stock.Keys
  {
    if n > 0 {
      var p := EntriesPass(stock, entries, now, dispense, n - 1);
      EntriesPassKeys(stock, entries, now, dispense, n - 1);
      EntryStepFlags(p.stock, entries[n - 1], now, dispense);
    }
  }

  /** An entry whose dispensed quantity lies between zero and the prescribed quantity. */
  predicate WithinBounds(e: Entry) {
    0 <= e.dispensedQty <= e.quantity
  }

  /** One entry's step keeps `0 <= dispensed_qty <= quantity`. */
  lemma EntryStepBounds(stock: map<MedId, Medicine>, e: Entry, now: int, dispense: bool)
    requires WithinBounds(e)
    ensures WithinBounds(EntryStep(stock, e, now, dispense).entry)
  {
    if e.medicineId in stock && dispense && e.quantity - e.dispensedQty > 0 {
      EntryStepConserves(stock, e, now);
    }
  }

  /** Over a whole prescription, no lot of any medicine goes negative. */
  lemma {:induction false} EntriesPassKeepsStock(stock: map<MedId, Medicine>, entries: seq<Entry>, now: int, dispense: bool, n: nat)
    requires n <= |entries| && StockNonNegative(stock)
    ensures StockNonNegative(EntriesPass(stock, entries, now, dispense, n).stock)
  {
    if n > 0 {
      var p := EntriesPass(stock, entries, now, dispense, n - 1);
      EntriesPassKeepsStock(stock, entries, now, dispense, n - 1);
      EntryStepKeepsStock(p.stock, entries[n - 1], now, dispense);
    }
  }

  /** Entries that start within bounds are all still within bounds after the pass. */
  lemma {:induction false} EntriesPassBounds(stock: map<MedId, Medicine>, entries: seq<Entry>, now: int, dispense: bool, n: nat)
    requires n <= |entries| && forall i :: 0 <= i < |entries| ==> WithinBounds(entries[i])
    ensures forall i :: 0 <= i < |entries| ==> WithinBounds(EntriesPass(stock, entries, now, dispense, n).entries[i])
  {
    if n > 0 {
      var p := EntriesPass(stock, entries, now, dispense, n - 1);
      EntriesPassBounds(stock, entries, now, dispense, n - 1);
      assert p.entries[n - 1] == entries[n - 1];
      var r := EntryStep(p.stock, entries[n - 1], now, dispense);
      EntryStepBounds(p.stock, entries[n - 1], now, dispense);
      var q := EntriesPass(stock, entries, now, dispense, n);
      assert q.entries == p.entries[n - 1 := r.entry];
      forall i | 0 <= i < |q.entries|
        ensures WithinBounds(q.entries[i])
      {
        if i != n - 1 {
          assert q.entries[i] == p.entries[i];
        }
      }
    }
  }

  /** Without the dispense flag the pass changes no lot and no entry, and takes nothing. */
  lemma {:induction false} EntriesPassIdle(stock: map<MedId, Medicine>, entries: seq<Entry>, now: int, n: nat)
    requires n <= |entries|
    ensures var p := EntriesPass(stock, entries, now, false, n);
            && p.stock == stock && p.entries == entries
            && (forall i :: 0 <= i < n ==> p.taken[i] == 0 && !p.unmet[i])
  {
    if n > 0 {
      var p := EntriesPass(stock, entries, now, false, n - 1);
      EntriesPassIdle(stock, entries, now, n - 1);
      EntryStepIdle(p.stock, entries[n - 1], now, false);
    }
  }

  /** The prescription status after a pass, from the pass's two flags. */
  function PassStatus(previous: Status, dispense: bool, allDispensed: bool, anyDispensed: bool): Status {
    if !dispense then previous
    else if allDispensed then Dispensed
    else if anyDispensed then PartiallyDispensed
    else Pending
  }

  datatype PrescriptionOutcome = PrescriptionOutcome(
    stock: map<MedId, Medicine>,
    prescription: Prescription,
    shown: seq<Option<Shown>>)

  function PrescriptionStep(stock: map<MedId, Medicine>, pr: Prescription, now: int, dispense: bool): PrescriptionOutcome {
    var p := EntriesPass(stock, pr.entries, now, dispense, |pr.entries|);
    PrescriptionOutcome(
      p.stock,
      pr.(entries := p.entries, status := PassStatus(pr.status, dispense, NoneUnmet(p.unmet), AnyTaken(p.taken))),
      p.shown)
  }

  /** Some entry whose medicine populated still has less dispensed than prescribed. */
  predicate Outstanding(stock: map<MedId, Medicine>, entries: seq<Entry>) {
    exists i :: 0 <= i < |entries| && entries[i].medicineId in stock
                && entries[i].dispensedQty < entries[i].quantity
  }

  /** Some entry took at least one unit in the pass. */
  predicate SomeTaken(taken: seq<int>) {
    exists i :: 0 <= i < |taken| && taken[i] > 0
  }

  /**
   * The prescription status after a dispensing pass: "dispensed" iff no
   * entry whose medicine populated is left with an outstanding quantity;
   * otherwise "partially_dispensed" iff some unit was taken in this pass;
   * otherwise "pending". Without the flag the status is left as it was.
   */
  lemma PrescriptionStepStatus(stock: map<MedId, Medicine>, pr: Prescription, now: int, dispense: bool)
    ensures var o := PrescriptionStep(stock, pr, now, dispense);
            var p := EntriesPass(stock, pr.entries, now, dispense, |pr.entries|);
            var outstanding := Outstanding(stock, o.prescription.entries);
            var anyTaken := SomeTaken(p.taken);
            && (!dispense ==> o.prescription.status == pr.status)
            && (dispense ==> (o.prescription.status == Dispensed <==> !outstanding))
            && (dispense ==> (o.prescription.status == PartiallyDispensed <==> outstanding && anyTaken))
            && (dispense ==> (o.prescription.status == Pending <==> outstanding && !anyTaken))
  {
    var n := |pr.entries|;
    var p := EntriesPass(stock, pr.entries, now, dispense, n);
    var o := PrescriptionStep(stock, pr, now, dispense);
    assert o.prescription.entries == p.entries;
    if dispense {
      NoneUnmetMeaning(p.unmet);
      AnyTakenMeaning(p.taken);
      forall i | 0 <= i < n
        ensures p.unmet[i] <==> p.entries[i].medicineId in stock
                                && p.entries[i].dispensedQty < p.entries[i].quantity
      {
        EntriesPassAt(stock, pr.entries, now, dispense, n, i);
      }
      assert NoneUnmet(p.unmet) <==> !Outstanding(stock, p.entries);
      assert AnyTaken(p.taken) <==> SomeTaken(p.taken);
    }
  }

  // ---------------------------------------------------------------------
  // The whole request

  datatype SearchState = SearchState(
    stock: map<MedId, Medicine>,
    prescriptions: seq<Prescription>,
    shown: seq<seq<Option<Shown>>>)

  /** The request after the first `n` prescriptions (in retrieval order). */
  function SearchPass(stock: map<MedId, Medicine>, prescriptions: seq<Prescription>, now: int, dispense: bool, n: nat): (s: SearchState)
    requires n <= |prescriptions|
    ensures |s.prescriptions| == |prescriptions| && s.prescriptions[n..] == prescriptions[n..]
    ensures |s.shown| == n
  {
    if n == 0 then SearchState(stock, prescriptions, [])
    else
      var s := SearchPass(stock, prescriptions, now, dispense, n - 1);
      var o := PrescriptionStep(s.stock, prescriptions[n - 1], now, dispense);
      SearchState(o.stock, s.prescriptions[n - 1 := o.prescription], s.shown + [o.shown])
  }

  /** Over the whole request, no lot of any medicine goes negative. */
  lemma {:induction false} SearchPassKeepsStock(stock: map<MedId, Medicine>, prescriptions: seq<Prescription>, now: int, dispense: bool, n: nat)
    requires n <= |prescriptions| && StockNonNegative(stock)
    ensures StockNonNegative(SearchPass(stock, prescriptions, now, dispense, n).stock)
  {
    if n > 0 {
      var s := SearchPass(stock, prescriptions, now, dispense, n - 1);
      SearchPassKeepsStock(stock, prescriptions, now, dispense, n - 1);
      EntriesPassKeepsStock(s.stock, prescriptions[n - 1].entries, now, dispense, |prescriptions[n - 1].entries|);
    }
  }

  /** Over the whole request, every entry that started within bounds stays within them. */
  lemma {:induction false} SearchPassBounds(stock: map<MedId, Medicine>, prescriptions: seq<Prescription>, now: int, dispense: bool, n: nat)
    requires n <= |prescriptions|
    requires forall k, i :: 0 <= k < |prescriptions| && 0 <= i < |prescriptions[k].entries| ==>
               WithinBounds(prescriptions[k].entries[i])
    ensures forall k, i ::
              0 <= k < |prescriptions| && 0 <= i < |SearchPass(stock, prescriptions, now, dispense, n).prescriptions[k].entries|
              ==> WithinBounds(SearchPass(stock, prescriptions, now, dispense, n).prescriptions[k].entries[i])
  {
    if n > 0 {
      var s := SearchPass(stock, prescriptions, now, dispense, n - 1);
      SearchPassBounds(stock, prescriptions, now, dispense, n - 1);
      var pr := prescriptions[n - 1];
      assert s.prescriptions[n - 1] == pr;
      EntriesPassBounds(s.stock, pr.entries, now, dispense, |pr.entries|);
      var o := PrescriptionStep(s.stock, pr, now, dispense);
      var q := SearchPass(stock, prescriptions, now, dispense, n);
      assert q.prescriptions == s.prescriptions[n - 1 := o.prescription];
      forall k, i | 0 <= k < |q.prescriptions| && 0 <= i < |q.prescriptions[k].entries|
        ensures WithinBounds(q.prescriptions[k].entries[i])
      {
        if k != n - 1 {
          assert q.prescriptions[k] == s.prescriptions[k];
        } else {
          assert q.prescriptions[k].entries == EntriesPass(s.stock, pr.entries, now, dispense, |pr.entries|).entries;
        }
      }
    }
  }

  /** A search without the dispense flag changes no medicine document and no prescription. */
  lemma {:induction false} SearchPassIdle(stock: map<MedId, Medicine>, prescriptions: seq<Prescription>, now: int, n: nat)
    requires n <= |prescriptions|
    ensures var s := SearchPass(stock, prescriptions, now, false, n);
            s.stock == stock && s.prescriptions == prescriptions
  {
    if n > 0 {
      SearchPassIdle(stock, prescriptions, now, n - 1);
      var pr := prescriptions[n - 1];
      EntriesPassIdle(stock, pr.entries, now, |pr.entries|);
      assert PrescriptionStep(stock, pr, now, false).prescription == pr;
    }
  }

  /** The status shown for one entry of the result (`prescription_status`). */
  function EntryStatus(e: Entry): (s: Status)
    ensures s == Dispensed <==> e.quantity != 0 && e.dispensedQty != 0 && e.dispensedQty >= e.quantity
    ensures s == Pending <==> e.quantity == 0 || e.dispensedQty == 0
  {
    if e.quantity == 0 then Pending
    else if e.dispensedQty == 0 then Pending
    else if e.dispensedQty >= e.quantity then Dispensed
    else PartiallyDispensed
  }

  /** One row of `prescribed_medicines`. */
  datatype Row = Row(
    medicineName: string,
    dosage: string,
    frequency: string,
    duration: string,
    quantity: int,
    dispensedQty: int,
    status: Status,
    prescriptionDate: int,
    validBatches: seq<Batch>,
    dispensedFrom: seq<Draw>,
    prescriptionId: string,
    entryId: string)

  function EntryRow(stock: map<MedId, Medicine>, pr: Prescription, e: Entry, shown: Option<Shown>): (r: Row)
    ensures r.medicineName != ""
    ensures r.status == EntryStatus(e) && r.quantity == e.quantity && r.dispensedQty == e.dispensedQty
    ensures shown.None? ==> r.validBatches == [] && r.dispensedFrom == []
  {
    var name := if e.medicineId in stock && stock[e.medicineId].name != "" then stock[e.medicineId].name else "Unknown";
    var s := if shown.Some? then shown.value else Shown([], []);
    Row(name, e.dosage, e.frequency, e.duration, e.quantity, e.dispensedQty, EntryStatus(e),
        pr.date, s.validBatches, s.dispensedFrom, pr.id, e.id)
  }

  function PrescriptionRows(stock: map<MedId, Medicine>, pr: Prescription, shown: seq<Option<Shown>>): (rows: seq<Row>)
    ensures |rows| == |pr.entries|
    ensures forall i :: 0 <= i < |rows| ==>
              rows[i] == EntryRow(stock, pr, pr.entries[i], if i < |shown| then shown[i] else None)
  {
    seq(|pr.entries|, i requires 0 <= i < |pr.entries| =>
      EntryRow(stock, pr, pr.entries[i], if i < |shown| then shown[i] else None))
  }

  /** The `flatMap` over prescriptions: every entry of every prescription, in order. */
  function Rows(stock: map<MedId, Medicine>, prescriptions: seq<Prescription>, shown: seq<seq<Option<Shown>>>): seq<Row>
    decreases |prescriptions|
  {
    if prescriptions == [] then []
    else
      PrescriptionRows(stock, prescriptions[0], if shown == [] then [] else shown[0])
      + Rows(stock, prescriptions[1..], if shown == [] then [] else shown[1..])
  }

  function EntryCount(prescriptions: seq<Prescription>): nat {
    if prescriptions == [] then 0 else |prescriptions[0].entries| + EntryCount(prescriptions[1..])
  }

  /** There is one row per entry of every prescription. */
  lemma {:induction false} RowsCount(stock: map<MedId, Medicine>, prescriptions: seq<Prescription>, shown: seq<seq<Option<Shown>>>)
    ensures |Rows(stock, prescriptions, shown)| == EntryCount(prescriptions)
    decreases |prescriptions|
  {
    if prescriptions != [] {
      RowsCount(stock, prescriptions[1..], if shown == [] then [] else shown[1..]);
    }
  }

  // ---------------------------------------------------------------------
  // The guards in front of the search

  /** A reply that ends the request: an HTTP status code and its message. */
  datatype Refusal = Refusal(code: int, message: string)

  const MsgSearchRequired := "Search query is required."
  const MsgBadPatientId := "Invalid patient ID format."
  const MsgNoPatient := "Patient not found."
  const MsgNoConsultation := "No consultations or prescriptions found for this patient."

  /**
   * The checks made before any prescription is read, in order: the patient
   * id must be present and numeric, the patient must exist, and the latest
   * consultation must list at least one prescription. `isNumeric` is the
   * `isNaN` test on the query text, `patientFound` and `hasPrescriptions`
   * what the database lookups returned. `None` lets the search go on.
   */
  function SearchGuard(searchById: Option<string>, isNumeric: string -> bool, patientFound: bool, hasPrescriptions: bool)
    : (r: Option<Refusal>)
    ensures r.None? <==> Truthy(searchById) && isNumeric(searchById.value) && patientFound && hasPrescriptions
    ensures r == Some(Refusal(400, MsgSearchRequired)) <==> !Truthy(searchById)
    ensures r == Some(Refusal(400, MsgBadPatientId)) <==> Truthy(searchById) && !isNumeric(searchById.value)
    ensures r == Some(Refusal(404, MsgNoPatient)) <==> Truthy(searchById) && isNumeric(searchById.value) && !patientFound
    ensures r == Some(Refusal(200, MsgNoConsultation)) <==>
              Truthy(searchById) && isNumeric(searchById.value) && patientFound && !hasPrescriptions
  {
    if !Truthy(searchById) then Some(Refusal(400, MsgSearchRequired))
    else if !isNumeric(searchById.value) then Some(Refusal(400, MsgBadPatientId))
    else if !patientFound then Some(Refusal(404, MsgNoPatient))
    else if !hasPrescriptions then Some(Refusal(200, MsgNoConsultation))
    else None
  }

  // ---------------------------------------------------------------------
  // The direct override of one entry's dispensed quantity

  datatype Reply = Reply(code: int, message: string)

  const MsgInvalidQty := "Valid dispensed quantity is required."
  const MsgNoPrescription := "Prescription not found."
  const MsgNoEntry := "Prescription entry not found."
  const MsgExceeds := "Dispensed quantity cannot exceed prescribed quantity."
  const MsgUpdated := "Dispensed quantity updated successfully."

  /** The position of the first prescription with this id (`findById`). */
  function FindPrescription(ps: seq<Prescription>, id: string): (r: Option<nat>)
    ensures r.Some? ==> r.value < |ps| && ps[r.value].id == id
                        && forall i :: 0 <= i < r.value ==> ps[i].id != id
    ensures r.None? ==> forall i :: 0 <= i < |ps| ==> ps[i].id != id
  {
    if ps == [] then None
    else if ps[0].id == id then Some(0)
    else match FindPrescription(ps[1..], id)
      case None => None
      case Some(i) => Some(i + 1)
  }

  /** The position of the first entry with this id (`prescription.entries.id(entryId)`). */
  function FindEntry(es: seq<Entry>, id: string): (r: Option<nat>)
    ensures r.Some? ==> r.value < |es| && es[r.value].id == id
                        && forall j :: 0 <= j < r.value ==> es[j].id != id
    ensures r.None? ==> forall j :: 0 <= j < |es| ==> es[j].id != id
  {
    if es == [] then None
    else if es[0].id == id then Some(0)
    else match FindEntry(es[1..], id)
      case None => None
      case Some(j) => Some(j + 1)
  }

  /**
   * The prescription status set by a direct update, from this one entry:
   * equal to the prescribed quantity is "dispensed", strictly between zero
   * and it is "partially_dispensed", anything else "pending".
   */
  function DirectStatus(value: int, quantity: int): (s: Status)
    ensures s == Dispensed <==> value == quantity
    ensures s == PartiallyDispensed <==> 0 < value < quantity
  {
    if value == quantity then Dispensed
    else if value > 0 && value < quantity then PartiallyDispensed
    else Pending
  }

  /** `updatePrescriptionEntry` on the stored prescriptions; `None` is a missing `dispensed_qty`. */
  function UpdateEntry(ps: seq<Prescription>, prescriptionId: string, entryId: string, value: Option<int>): (Reply, seq<Prescription>) {
    if value.None? || value.value < 0 then (Reply(400, MsgInvalidQty), ps)
    else match FindPrescription(ps, prescriptionId)
      case None => (Reply(404, MsgNoPrescription), ps)
      case Some(pi) =>
        match FindEntry(ps[pi].entries, entryId)
        case None => (Reply(404, MsgNoEntry), ps)
        case Some(ei) =>
          var e := ps[pi].entries[ei];
          if value.value > e.quantity then (Reply(400, MsgExceeds), ps)
          else
            var pr := ps[pi].(entries := ps[pi].entries[ei := e.(dispensedQty := value.value)],
                              status := DirectStatus(value.value, e.quantity));
            (Reply(200, MsgUpdated), ps[pi := pr])
  }

  /**
   * What a direct update does: a missing or negative value, an unknown
   * prescription or entry, or a value above the prescribed quantity is
   * rejected and changes nothing; otherwise exactly that entry gets the
   * value and its prescription the status of `DirectStatus`.
   */
  lemma UpdateEntryOutcome(ps: seq<Prescription>, prescriptionId: string, entryId: string, value: Option<int>)
    ensures var (reply, ps') := UpdateEntry(ps, prescriptionId, entryId, value);
            && (reply.code != 200 ==> ps' == ps)
            && (value.None? || value.value < 0 ==> reply == Reply(400, MsgInvalidQty))
            && (reply.code == 200 <==>
                  exists pi, ei :: 0 <= pi < |ps| && 0 <= ei < |ps[pi].entries|
                    && ps[pi].id == prescriptionId && ps[pi].entries[ei].id == entryId
                    && value.Some? && 0 <= value.value <= ps[pi].entries[ei].quantity
                    && (forall i :: 0 <= i < pi ==> ps[i].id != prescriptionId)
                    && (forall j :: 0 <= j < ei ==> ps[pi].entries[j].id != entryId)
                    && ps' == ps[pi := ps[pi].(
                         entries := ps[pi].entries[ei := ps[pi].entries[ei].(dispensedQty := value.value)],
                         status := DirectStatus(value.value, ps[pi].entries[ei].quantity))])
  {
    var (reply, ps') := UpdateEntry(ps, prescriptionId, entryId, value);
    if value.Some? && value.value >= 0 {
      var fp := FindPrescription(ps, prescriptionId);
      if fp.Some? {
        var pi := fp.value;
        var fe := FindEntry(ps[pi].entries, entryId);
        if fe.Some? {
          var ei := fe.value;
          if reply.code == 200 {
            assert 0 <= pi < |ps| && 0 <= ei < |ps[pi].entries|;
          }
        }
      }
      if reply.code != 200 {
        if pi, ei :| 0 <= pi < |ps| && 0 <= ei < |ps[pi].entries|
                      && ps[pi].id == prescriptionId && ps[pi].entries[ei].id == entryId
                      && 0 <= value.value <= ps[pi].entries[ei].quantity
                      && (forall i :: 0 <= i < pi ==> ps[i].id != prescriptionId)
                      && (forall j :: 0 <= j < ei ==> ps[pi].entries[j].id != entryId) {
          assert false;
        }
      }
    }
  }

  /**
   * Which refusal a valid value gets, in the order the request checks:
   * an unknown prescription and then an unknown entry are 404s, and a value
   * above the entry's prescribed quantity is a 400.
   */
  lemma UpdateEntryRefusals(ps: seq<Prescription>, prescriptionId: string, entryId: string, value: Option<int>)
    requires value.Some? && value.value >= 0
    ensures var reply := UpdateEntry(ps, prescriptionId, entryId, value).0;
            var fp := FindPrescription(ps, prescriptionId);
            && (fp.None? ==> reply == Reply(404, MsgNoPrescription))
            && (fp.Some? && FindEntry(ps[fp.value].entries, entryId).None? ==> reply == Reply(404, MsgNoEntry))
            && (fp.Some? && FindEntry(ps[fp.value].entries, entryId).Some? &&
                value.value > ps[fp.value].entries[FindEntry(ps[fp.value].entries, entryId).value].quantity
                ==> reply == Reply(400, MsgExceeds))
  {
  }

  /** The direct update is idempotent: repeating it with the same value changes nothing more. */
  lemma UpdateEntryIdempotent(ps: seq<Prescription>, prescriptionId: string, entryId: string, value: Option<int>)
    ensures var (r1, ps1) := UpdateEntry(ps, prescriptionId, entryId, value);
            var (r2, ps2) := UpdateEntry(ps1, prescriptionId, entryId, value);
            ps2 == ps1 && r2 == r1
  {
    var (r1, ps1) := UpdateEntry(ps, prescriptionId, entryId, value);
    if r1.code == 200 {
      var pi := FindPrescription(ps, prescriptionId).value;
      var ei := FindEntry(ps[pi].entries, entryId).value;
      assert forall i :: 0 <= i < |ps| ==> ps1[i].id == ps[i].id;
      FindPrescriptionSameIds(ps, ps1, prescriptionId);
      assert forall j :: 0 <= j < |ps[pi].entries| ==> ps1[pi].entries[j].id == ps[pi].entries[j].id;
      FindEntrySameIds(ps[pi].entries, ps1[pi].entries, entryId);
      var e1 := ps1[pi].entries[ei];
      assert e1.dispensedQty == value.value && e1.quantity == ps[pi].entries[ei].quantity;
      assert ps1[pi].entries[ei := e1.(dispensedQty := value.value)] == ps1[pi].entries;
      assert ps1[pi].(entries := ps1[pi].entries, status := DirectStatus(value.value, e1.quantity)) == ps1[pi];
    }
  }

  /** The prescription lookup only looks at ids. */
  lemma {:induction false} FindPrescriptionSameIds(ps: seq<Prescription>, ps': seq<Prescription>, id: string)
    requires |ps| == |ps'| && forall i :: 0 <= i < |ps| ==> ps[i].id == ps'[i].id
    ensures FindPrescription(ps, id) == FindPrescription(ps', id)
  {
    if ps != [] {
      FindPrescriptionSameIds(ps[1..], ps'[1..], id);
    }
  }

  /** The entry lookup only looks at ids. */
  lemma {:induction false} FindEntrySameIds(es: seq<Entry>, es': seq<Entry>, id: string)
    requires |es| == |es'| && forall j :: 0 <= j < |es| ==> es[j].id == es'[j].id
    ensures FindEntry(es, id) == FindEntry(es', id)
  {
    if es != [] {
      FindEntrySameIds(es[1..], es'[1..], id);
    }
  }
}
