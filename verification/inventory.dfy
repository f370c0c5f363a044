/**
 * The inventory page's own rules: the medicine/equipment toggle, the page
 * resets, the date formatter, the forms and their reset when the modal
 * opens, the order status put in each payload, and which buttons a role
 * sees. The requests themselves are not part of this model.
 */
module InventoryPage {
  import opened Common

  datatype InventoryType = MedicineInventory | EquipmentInventory

  datatype ModalMode = UpdateMode | AddMode

  datatype Pagination = Pagination(page: int, totalPages: int, hasNextPage: bool, hasPrevPage: bool)

  /** `updateForm`: the medicine form; every field is the text of its input. */
  datatype MedicineForm = MedicineForm(
    medName: string,
    effectiveness: string,
    dosageForm: string,
    manufacturer: string,
    quantity: string,
    batchNo: string,
    expiryDate: string,
    manufacturingDate: string,
    unitPrice: string,
    supplier: string)

  /** `equipmentForm`; `installationDate` is `None` when the field is absent from the object. */
  datatype EquipmentForm = EquipmentForm(
    equipmentName: string,
    quantity: string,
    installationDate: Option<string>,
    lastServiceDate: string,
    nextServiceDate: string)

  /** A row of the inventory table, as far as the modal reads it. */
  datatype Item = Item(id: string, name: string, manufacturer: string, quantity: string,
                       lastServiceDate: Option<string>, nextServiceDate: Option<string>)

  const DefaultMedicineForm := MedicineForm("", "medium", "tablet", "", "", "", "", "", "", "")
  const DefaultEquipmentForm := EquipmentForm("", "", Some(""), "", "")

  /** `formatDate`: "N/A" for a missing or empty value, otherwise the part before the first 'T'. */
  function FormatDate(dateString: Option<string>): (r: string)
    ensures !Truthy(dateString) ==> r == "N/A"
    ensures Truthy(dateString) ==> IsPrefix(r, dateString.value) && 'T' !in r
                                   && (|r| == |dateString.value| || dateString.value[|r|] == 'T')
  {
    if !Truthy(dateString) then "N/A" else PrefixBefore(dateString.value, 'T')
  }

  /** A date already in `YYYY-MM-DD` form (no 'T') is shown as it is. */
  lemma FormatDateKeepsPlainDate(s: string)
    requires s != "" && 'T' !in s
    ensures FormatDate(Some(s)) == s
  {
  }

  function Toggled(t: InventoryType): InventoryType {
    if t == MedicineInventory then EquipmentInventory else MedicineInventory
  }

  /** Toggling changes the type, and toggling twice restores it. */
  lemma ToggleTwice(t: InventoryType)
    ensures Toggled(t) != t && Toggled(Toggled(t)) == t
  {
  }

  /** `showToggle`: doctors, admins and nurses may switch between the two inventories. */
  predicate ShowToggle(role: Option<string>) {
    role.Some? && role.value in ["doctor", "admin", "nurse"]
  }

  /** The add/order button: a pharmacist on medicines, a pathologist on equipment, or an admin. */
  predicate ShowAddButton(role: Option<string>, t: InventoryType) {
    (role == Some("pharmacist") && t == MedicineInventory)
    || (role == Some("pathologist") && t == EquipmentInventory)
    || role == Some("admin")
  }

  /** Who sees what: only an admin sees both the toggle and the add button on both inventories. */
  lemma ButtonsByRole(role: Option<string>, t: InventoryType)
    ensures ShowToggle(role) && ShowAddButton(role, t) <==> role == Some("admin")
    ensures role == Some("pharmacist") ==> !ShowToggle(role) && (ShowAddButton(role, t) <==> t == MedicineInventory)
  {
    if role == Some("admin") {
      assert role.value in ["doctor", "admin", "nurse"];
    }
  }

  /** The payload of `handleSubmit`. */
  datatype MedicinePayload = MedicinePayload(form: MedicineForm, medicineId: Option<string>, available: bool, orderStatus: string)

  /** The payload of `handleEquipmentSubmit`. */
  datatype EquipmentPayload = EquipmentPayload(
    inventoryType: string,
    equipmentName: string,
    quantity: string,
    installationDate: Option<string>,
    nextServiceDate: string,
    orderStatus: string,
    itemId: Option<string>,
    lastServiceDate: Option<string>)

  datatype Result<T> = Ok(value: T) | Failed(error: string)

  /** The error a failed submission shows: `Failed to ${modalMode} medicine` (or equipment). */
  function SubmitError(mode: ModalMode, what: string): (e: string)
    ensures mode == UpdateMode ==> e == "Failed to update " + what
    ensures mode == AddMode ==> e == "Failed to add " + what
  {
    "Failed to " + (if mode == UpdateMode then "update" else "add") + " " + what
  }

  /**
   * The medicine payload: the form, the selected medicine's id only in
   * update mode, `available` set, and "requested" for a pharmacist, else
   * "ordered". Update mode with nothing selected fails before any request.
   */
  function MedicinePayloadOf(role: Option<string>, mode: ModalMode, form: MedicineForm, selected: Option<Item>): (r: Result<MedicinePayload>)
    ensures r.Failed? <==> mode == UpdateMode && selected.None?
    ensures r.Failed? ==> r.error == SubmitError(UpdateMode, "medicine")
    ensures r.Ok? ==> && r.value.form == form && r.value.available
                      && (r.value.orderStatus == "requested" <==> role == Some("pharmacist"))
                      && (r.value.orderStatus != "requested" ==> r.value.orderStatus == "ordered")
                      && (r.value.medicineId.Some? <==> mode == UpdateMode)
                      && (mode == UpdateMode ==> r.value.medicineId == Some(selected.value.id))
  {
    if mode == UpdateMode && selected.None? then Failed(SubmitError(UpdateMode, "medicine"))
    else Ok(MedicinePayload(form, if mode == UpdateMode then Some(selected.value.id) else None, true,
                            if role == Some("pharmacist") then "requested" else "ordered"))
  }

  /**
   * The equipment payload: the form's fields, "requested" for a
   * pathologist, else "ordered"; the item id and the last service date are
   * added only in update mode. Update mode with nothing selected fails
   * before any request.
   */
  function EquipmentPayloadOf(role: Option<string>, mode: ModalMode, form: EquipmentForm, selected: Option<Item>): (r: Result<EquipmentPayload>)
    ensures r.Failed? <==> mode == UpdateMode && selected.None?
    ensures r.Failed? ==> r.error == SubmitError(UpdateMode, "equipment")
    ensures r.Ok? ==> && r.value.inventoryType == "equipment"
                      && r.value.equipmentName == form.equipmentName && r.value.quantity == form.quantity
                      && r.value.installationDate == form.installationDate
                      && r.value.nextServiceDate == form.nextServiceDate
                      && (r.value.orderStatus == "requested" <==> role == Some("pathologist"))
                      && (r.value.orderStatus != "requested" ==> r.value.orderStatus == "ordered")
                      && (r.value.itemId.Some? <==> mode == UpdateMode)
                      && (r.value.lastServiceDate.Some? <==> mode == UpdateMode)
                      && (mode == UpdateMode ==> r.value.itemId == Some(selected.value.id)
                                                 && r.value.lastServiceDate == Some(form.lastServiceDate))
  {
    if mode == UpdateMode && selected.None? then Failed(SubmitError(UpdateMode, "equipment"))
    else
      var payload := EquipmentPayload("equipment", form.equipmentName, form.quantity, form.installationDate,
                                      form.nextServiceDate, if role == Some("pathologist") then "requested" else "ordered",
                                      None, None);
      if mode == UpdateMode then Ok(payload.(itemId := Some(selected.value.id), lastServiceDate := Some(form.lastServiceDate)))
      else Ok(payload)
  }

  /** The HTTP client rejects a request that got no response or a status outside 200..299. */
  predicate Rejected(answer: Option<int>) {
    answer.None? || !(200 <= answer.value < 300)
  }

  /** The page's state. */
  class InventoryState {
    const role: Option<string>
    var searchTerm: string
    var inventoryType: InventoryType
    var pagination: Pagination
    var showUpdateModal: bool
    var modalMode: ModalMode
    var selectedMedicine: Option<Item>
    var selectedEquipment: Option<Item>
    var updateForm: MedicineForm
    var equipmentForm: EquipmentForm
    var error: Option<string>

    /** The initial state, after the effect that picks the inventory from the role. */
    constructor (role: Option<string>)
      ensures this.role == role && searchTerm == "" && pagination == Pagination(1, 1, false, false)
      ensures inventoryType == (if role == Some("pathologist") then EquipmentInventory else MedicineInventory)
      ensures !showUpdateModal && modalMode == UpdateMode && selectedMedicine == None && selectedEquipment == None
      ensures updateForm == DefaultMedicineForm && equipmentForm == DefaultEquipmentForm && error == None
    {
      this.role := role;
      error := None;
      searchTerm := "";
      inventoryType := MedicineInventory;
      pagination := Pagination(1, 1, false, false);
      showUpdateModal := false;
      modalMode := UpdateMode;
      selectedMedicine := None;
      selectedEquipment := None;
      updateForm := DefaultMedicineForm;
      equipmentForm := DefaultEquipmentForm;
      if role == Some("pharmacist") {
        inventoryType := MedicineInventory;
      } else if role == Some("pathologist") {
        inventoryType := EquipmentInventory;
      }
    }

    /** `handleSearchChange`: the new term, back to page 1, the rest of the pagination kept. */
    method HandleSearchChange(value: string)
      modifies this
      ensures searchTerm == value && pagination == old(pagination).(page := 1)
      ensures inventoryType == old(inventoryType) && updateForm == old(updateForm) && equipmentForm == old(equipmentForm)
      ensures showUpdateModal == old(showUpdateModal) && modalMode == old(modalMode)
      ensures selectedMedicine == old(selectedMedicine) && selectedEquipment == old(selectedEquipment)
      ensures error == old(error)
    {
      searchTerm := value;
      pagination := pagination.(page := 1);
    }

    /** `handleToggleInventory`: the other inventory, an empty search, back to page 1. */
    method HandleToggleInventory()
      modifies this
      ensures inventoryType == Toggled(old(inventoryType)) && searchTerm == "" && pagination == old(pagination).(page := 1)
      ensures updateForm == old(updateForm) && equipmentForm == old(equipmentForm)
      ensures showUpdateModal == old(showUpdateModal) && modalMode == old(modalMode)
      ensures selectedMedicine == old(selectedMedicine) && selectedEquipment == old(selectedEquipment)
      ensures error == old(error)
    {
      inventoryType := if inventoryType == MedicineInventory then EquipmentInventory else MedicineInventory;
      searchTerm := "";
      pagination := pagination.(page := 1);
    }

    /**
     * `handleModalOpen`: in update mode with an item, that item is selected
     * and its fields fill the form of the current inventory; otherwise both
     * selections are cleared and both forms go back to their defaults. The
     * modal opens either way.
     */
    method HandleModalOpen(mode: ModalMode, item: Option<Item>)
      modifies this
      ensures modalMode == mode && showUpdateModal
      ensures mode == UpdateMode && item.Some? && inventoryType == MedicineInventory ==>
                && selectedMedicine == item && selectedEquipment == old(selectedEquipment)
                && updateForm == old(updateForm).(medName := item.value.name, manufacturer := item.value.manufacturer)
                && equipmentForm == old(equipmentForm)
      ensures mode == UpdateMode && item.Some? && inventoryType == EquipmentInventory ==>
                && selectedEquipment == item && selectedMedicine == old(selectedMedicine)
                && equipmentForm == EquipmentForm(item.value.name, item.value.quantity, None,
                                                  FormatDate(item.value.lastServiceDate), FormatDate(item.value.nextServiceDate))
                && updateForm == old(updateForm)
      ensures !(mode == UpdateMode && item.Some?) ==>
                && selectedMedicine == None && selectedEquipment == None
                && updateForm == DefaultMedicineForm && equipmentForm == DefaultEquipmentForm
      ensures inventoryType == old(inventoryType) && searchTerm == old(searchTerm) && pagination == old(pagination)
      ensures error == old(error)
    {
      modalMode := mode;
      if mode == UpdateMode && item.Some? {
        if inventoryType == MedicineInventory {
          selectedMedicine := item;
          updateForm := updateForm.(medName := item.value.name, manufacturer := item.value.manufacturer);
        } else {
          selectedEquipment := item;
          equipmentForm := EquipmentForm(item.value.name, item.value.quantity, None,
                                         FormatDate(item.value.lastServiceDate), FormatDate(item.value.nextServiceDate));
        }
      } else {
        selectedMedicine := None;
        selectedEquipment := None;
        updateForm := DefaultMedicineForm;
        equipmentForm := DefaultEquipmentForm;
      }
      showUpdateModal := true;
    }

    /**
     * `handleSubmit`. `answer` is the status of the response, or `None` when
     * no response came back. The request rejects on no response and on any
     * status outside 200..299, as the HTTP client does by default. A payload
     * that cannot be built, or a rejected request, sets the error for the
     * mode; a 200 or 201 answer starts a fresh fetch of the inventory, which
     * clears the error at once, and closes the modal, clears the selection
     * and resets the form; any other 2xx answer changes nothing. The payload
     * sent, if any, is returned.
     */
    method HandleSubmit(answer: Option<int>) returns (sent: Option<MedicinePayload>)
      modifies this
      ensures var built := MedicinePayloadOf(role, old(modalMode), old(updateForm), old(selectedMedicine));
              && (built.Failed? ==> sent == None && error == Some(SubmitError(old(modalMode), "medicine"))
                                    && showUpdateModal == old(showUpdateModal) && selectedMedicine == old(selectedMedicine)
                                    && updateForm == old(updateForm))
              && (built.Ok? ==> sent == Some(built.value))
              && (built.Ok? && Rejected(answer) ==>
                    && error == Some(SubmitError(old(modalMode), "medicine"))
                    && showUpdateModal == old(showUpdateModal) && selectedMedicine == old(selectedMedicine)
                    && updateForm == old(updateForm))
              && (built.Ok? && answer.Some? && answer.value in {200, 201} ==>
                    !showUpdateModal && selectedMedicine == None && updateForm == DefaultMedicineForm && error == None)
              && (built.Ok? && !Rejected(answer) && answer.value !in {200, 201} ==>
                    showUpdateModal == old(showUpdateModal) && selectedMedicine == old(selectedMedicine)
                    && updateForm == old(updateForm) && error == old(error))
      ensures inventoryType == old(inventoryType) && searchTerm == old(searchTerm) && pagination == old(pagination)
      ensures modalMode == old(modalMode) && selectedEquipment == old(selectedEquipment) && equipmentForm == old(equipmentForm)
    {
      var built := MedicinePayloadOf(role, modalMode, updateForm, selectedMedicine);
      if built.Failed? {
        error := Some(SubmitError(modalMode, "medicine"));
        return None;
      }
      sent := Some(built.value);
      if Rejected(answer) {
        error := Some(SubmitError(modalMode, "medicine"));
      } else if answer.value == 200 || answer.value == 201 {
        error := None;
        showUpdateModal := false;
        selectedMedicine := None;
        updateForm := DefaultMedicineForm;
      }
    }

    /** `handleEquipmentSubmit`: the same steps for the equipment form. */
    method HandleEquipmentSubmit(answer: Option<int>) returns (sent: Option<EquipmentPayload>)
      modifies this
      ensures var built := EquipmentPayloadOf(role, old(modalMode), old(equipmentForm), old(selectedEquipment));
              && (built.Failed? ==> sent == None && error == Some(SubmitError(old(modalMode), "equipment"))
                                    && showUpdateModal == old(showUpdateModal) && selectedEquipment == old(selectedEquipment)
                                    && equipmentForm == old(equipmentForm))
              && (built.Ok? ==> sent == Some(built.value))
              && (built.Ok? && Rejected(answer) ==>
                    && error == Some(SubmitError(old(modalMode), "equipment"))
                    && showUpdateModal == old(showUpdateModal) && selectedEquipment == old(selectedEquipment)
                    && equipmentForm == old(equipmentForm))
              && (built.Ok? && answer.Some? && answer.value in {200, 201} ==>
                    !showUpdateModal && selectedEquipment == None && equipmentForm == DefaultEquipmentForm && error == None)
              && (built.Ok? && !Rejected(answer) && answer.value !in {200, 201} ==>
                    showUpdateModal == old(showUpdateModal) && selectedEquipment == old(selectedEquipment)
                    && equipmentForm == old(equipmentForm) && error == old(error))
      ensures inventoryType == old(inventoryType) && searchTerm == old(searchTerm) && pagination == old(pagination)
      ensures modalMode == old(modalMode) && selectedMedicine == old(selectedMedicine) && updateForm == old(updateForm)
    {
      var built := EquipmentPayloadOf(role, modalMode, equipmentForm, selectedEquipment);
      if built.Failed? {
        error := Some(SubmitError(modalMode, "equipment"));
        return None;
      }
      sent := Some(built.value);
      if Rejected(answer) {
        error := Some(SubmitError(modalMode, "equipment"));
      } else if answer.value == 200 || answer.value == 201 {
        error := None;
        showUpdateModal := false;
        selectedEquipment := None;
        equipmentForm := DefaultEquipmentForm;
      }
    }
  }
}
