/**
 * The client-side override of a dispensed quantity on the patient
 * information page: the rows of prescribed medicines, the row being edited
 * and the quantity typed into it, the checks made before the request, and
 * the optimistic update of the matching row afterwards.
 */
module PatientInfo {
  import opened Common
  import DispensingSpec

  type Status = DispensingSpec.Status

  /** One row of `medicines` as far as the override is concerned. */
  datatype MedRow = MedRow(prescriptionId: string, entryId: string, quantity: int, dispensedQty: int, status: Status)

  /** The number input: empty, or a whole number. */
  datatype Input = Blank | Num(n: int)

  /** What a save attempt decides before any request is made. */
  datatype Check = Rejected(alert: string) | Send(qty: int)

  const AlertNotFound := "Medicine not found."
  const AlertInvalid := "Please enter a valid quantity."
  const AlertTooMuch := "You cannot dispense more than the total quantity."

  predicate Matches(row: MedRow, prescriptionId: string, entryId: string) {
    row.prescriptionId == prescriptionId && row.entryId == entryId
  }

  /** `medicines.find(...)`: the first row with both ids. */
  function FindRow(rows: seq<MedRow>, prescriptionId: string, entryId: string): (r: Option<nat>)
    ensures r.Some? ==> r.value < |rows| && Matches(rows[r.value], prescriptionId, entryId)
                        && forall i :: 0 <= i < r.value ==> !Matches(rows[i], prescriptionId, entryId)
    ensures r.None? ==> forall i :: 0 <= i < |rows| ==> !Matches(rows[i], prescriptionId, entryId)
  {
    if rows == [] then None
    else if Matches(rows[0], prescriptionId, entryId) then Some(0)
    else match FindRow(rows[1..], prescriptionId, entryId)
      case None => None
      case Some(i) => Some(i + 1)
  }

  /**
   * The guards of `handleSave`, in order: a row must match, the typed value
   * must be present and positive (so zero is refused here although the
   * server accepts it), and it may not exceed the row's quantity.
   */
  function CheckSave(rows: seq<MedRow>, prescriptionId: string, entryId: string, edited: Input): (c: Check)
    ensures FindRow(rows, prescriptionId, entryId).None? ==> c == Rejected(AlertNotFound)
    ensures c.Send? <==> FindRow(rows, prescriptionId, entryId).Some? && edited.Num?
                         && 0 < edited.n <= rows[FindRow(rows, prescriptionId, entryId).value].quantity
    ensures c.Send? ==> edited == Num(c.qty)
    ensures FindRow(rows, prescriptionId, entryId).Some? && (edited.Blank? || edited.n <= 0) ==> c == Rejected(AlertInvalid)
    ensures (FindRow(rows, prescriptionId, entryId).Some? && edited.Num? && 0 < edited.n
             && edited.n > rows[FindRow(rows, prescriptionId, entryId).value].quantity)
            ==> c == Rejected(AlertTooMuch)
  {
    match FindRow(rows, prescriptionId, entryId)
    case None => Rejected(AlertNotFound)
    case Some(i) =>
      if edited.Blank? || edited.n <= 0 then Rejected(AlertInvalid)
      else if edited.n > rows[i].quantity then Rejected(AlertTooMuch)
      else Send(edited.n)
  }

  /**
   * The status the page gives an updated row: "dispensed" iff the value
   * equals the quantity, otherwise "partially_dispensed" iff it is positive.
   */
  function ClientStatus(updated: int, total: int): (s: Status)
    ensures s == DispensingSpec.Dispensed <==> updated == total
    ensures s == DispensingSpec.PartiallyDispensed <==> updated != total && updated > 0
  {
    if updated == total then DispensingSpec.Dispensed
    else if updated > 0 then DispensingSpec.PartiallyDispensed
    else DispensingSpec.Pending
  }

  /** The `prevMeds.map` after a successful request. */
  function UpdateRows(rows: seq<MedRow>, prescriptionId: string, entryId: string, qty: int): (r: seq<MedRow>)
    ensures |r| == |rows|
  {
    seq(|rows|, i requires 0 <= i < |rows| =>
      if Matches(rows[i], prescriptionId, entryId)
      then rows[i].(dispensedQty := qty, status := ClientStatus(qty, rows[i].quantity))
      else rows[i])
  }

  /** The Edit button is disabled exactly when the whole quantity is dispensed. */
  predicate EditDisabled(row: MedRow) {
    row.dispensedQty == row.quantity
  }

  /**
   * Only the rows with both ids change; each of them now holds the sent
   * quantity, keeps its ids and quantity, and is "dispensed" exactly when
   * its Edit button becomes disabled.
   */
  lemma UpdateRowsEffect(rows: seq<MedRow>, prescriptionId: string, entryId: string, qty: int)
    ensures var r := UpdateRows(rows, prescriptionId, entryId, qty);
            forall i :: 0 <= i < |rows| ==>
              && (!Matches(rows[i], prescriptionId, entryId) ==> r[i] == rows[i])
              && (Matches(rows[i], prescriptionId, entryId) ==>
                    && r[i].dispensedQty == qty
                    && Matches(r[i], prescriptionId, entryId) && r[i].quantity == rows[i].quantity
                    && (r[i].status == DispensingSpec.Dispensed <==> EditDisabled(r[i])))
  {
  }

  /** Saving the same quantity again changes nothing more. */
  lemma UpdateRowsIdempotent(rows: seq<MedRow>, prescriptionId: string, entryId: string, qty: int)
    ensures var r := UpdateRows(rows, prescriptionId, entryId, qty);
            UpdateRows(r, prescriptionId, entryId, qty) == r
  {
    var r := UpdateRows(rows, prescriptionId, entryId, qty);
    var r2 := UpdateRows(r, prescriptionId, entryId, qty);
    forall i | 0 <= i < |rows|
      ensures r2[i] == r[i]
    {
      if Matches(rows[i], prescriptionId, entryId) {
        assert r[i].quantity == rows[i].quantity;
      }
    }
  }

  /**
   * For every quantity the page lets through, the server accepts it and the
   * two status rules agree: they differ only on values the page refuses.
   */
  lemma ClientStatusAgreesWithServer(rows: seq<MedRow>, prescriptionId: string, entryId: string, edited: Input)
    requires CheckSave(rows, prescriptionId, entryId, edited).Send?
    ensures var q := CheckSave(rows, prescriptionId, entryId, edited).qty;
            var quantity := rows[FindRow(rows, prescriptionId, entryId).value].quantity;
            && 0 <= q <= quantity
            && ClientStatus(q, quantity) == DispensingSpec.DirectStatus(q, quantity)
  {
  }

  /**
   * The page's status rule and the server's agree except for a positive
   * value above the prescribed quantity, which only the page's own guard
   * keeps out: there the page says partially dispensed and the server pending.
   */
  lemma StatusRulesDiffer(updated: int, total: int)
    ensures ClientStatus(updated, total) != DispensingSpec.DirectStatus(updated, total) <==> updated > total && updated > 0
    ensures updated > total && updated > 0 ==>
              ClientStatus(updated, total) == DispensingSpec.PartiallyDispensed
              && DispensingSpec.DirectStatus(updated, total) == DispensingSpec.Pending
  {
  }

  /** The component state the override works on. */
  class PatientInfoPage {
    var medicines: seq<MedRow>
    var editingIndex: Option<nat>
    var editedQuantity: Input

    constructor (rows: seq<MedRow>)
      ensures medicines == rows && editingIndex == None && editedQuantity == Blank
    {
      medicines := rows;
      editingIndex := None;
      editedQuantity := Blank;
    }

    /** `handleEdit`: start editing a row with its current dispensed quantity. */
    method HandleEdit(index: nat, currentQty: int)
      modifies this
      ensures editingIndex == Some(index) && editedQuantity == Num(currentQty)
      ensures medicines == old(medicines)
    {
      editingIndex := Some(index);
      editedQuantity := Num(currentQty);
    }

    /** The input's `onChange`: the typed value replaces the edited quantity. */
    method HandleInput(value: Input)
      modifies this
      ensures editedQuantity == value
      ensures medicines == old(medicines) && editingIndex == old(editingIndex)
    {
      editedQuantity := value;
    }

    /** `handleCancel`: leave editing. */
    method HandleCancel()
      modifies this
      ensures editingIndex == None && editedQuantity == Blank
      ensures medicines == old(medicines)
    {
      editingIndex := None;
      editedQuantity := Blank;
    }

    /**
     * `handleSave`. `failure` is the outcome of the request: `None` when it
     * succeeds, otherwise the alert the error produces. A refused value
     * sends nothing and changes nothing; a sent value resets the editing
     * state whatever the outcome, and only a success updates the rows.
     */
    method HandleSave(prescriptionId: string, entryId: string, failure: Option<string>) returns (alert: Option<string>, sent: Option<int>)
      modifies this
      ensures match CheckSave(old(medicines), prescriptionId, entryId, old(editedQuantity))
              case Rejected(a) =>
                && alert == Some(a) && sent == None
                && medicines == old(medicines) && editingIndex == old(editingIndex) && editedQuantity == old(editedQuantity)
              case Send(q) =>
                && sent == Some(q) && alert == failure
                && editingIndex == None && editedQuantity == Blank
                && medicines == (if failure.None? then UpdateRows(old(medicines), prescriptionId, entryId, q) else old(medicines))
    {
      var c := CheckSave(medicines, prescriptionId, entryId, editedQuantity);
      if c.Rejected? {
        return Some(c.alert), None;
      }
      sent := Some(c.qty);
      alert := failure;
      if failure.None? {
        medicines := UpdateRows(medicines, prescriptionId, entryId, c.qty);
      }
      editingIndex := None;
      editedQuantity := Blank;
    }
  }
}
