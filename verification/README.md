# HMIS: dispensing, ward and front-desk rules

This project models the rule-carrying parts of a hospital management system
(HMIS) and proves properties about them.

The centre of the model is the pharmacist's dispensing allocator:

- For each prescription entry whose medicine document is present, it filters the
  medicine's lots (batches) down to those that are unexpired and not empty.
- It walks those lots in the order they are stored. From each lot it takes
  `min(outstanding, quantity)` and lowers the lot by that amount. It stops once
  nothing is outstanding.
- It adds what was taken to the entry's `dispensed_qty`.
- It keeps two running flags over a prescription's entries, `allDispensed` and
  `anyDispensed`. From them it sets the prescription status to "dispensed",
  "partially_dispensed" or "pending".
- Finally it reports one row per entry. Each row carries the entry's own status,
  the valid lots and the `dispensed_from` draws.

A separate request overrides one entry's `dispensed_qty` directly. It checks
bounds, and it sets the prescription status from that single entry.

Around the allocator sit smaller components:

- **Patient-information page.** A client-side version of the override, with its
  own guards and its own status rule.
- **Nurse's patient search.** It classifies the search text as a phone number, an
  id or a name, and derives each patient's status from their room and latest
  vitals.
- **Doctor's appointment list.** A status filter, a text filter, and a colour for
  each status.
- **Inventory page.**
  - A medicine/equipment toggle.
  - Page resets.
  - A date formatter.
  - Order payloads whose order status depends on the role.
  - Which buttons each role sees.
  - Form resets when the modal opens.
- **Receptionist's registration form.** Single-field updates and a ten-digit gate
  on the mobile and emergency numbers.
- **Route guard.** A four-way render decision based on the stored role.
- **Sample-staff generator.** It gives each employee of a role a record, choosing
  departments, rooms, beds, ambulances and labs round-robin.

Code that changes state step by step is modelled imperatively:

- The dispensing loops are methods of the class `Dispensing.Dispensary`, whose
  fields are the medicine documents (`stock`) and the retrieved prescriptions.
- The React components are classes: `PatientInfoPage`, `InventoryState`,
  `RegistrationForm` and `RouteGuard`. Each handler is a method that says what
  it changes and what it keeps.
- The staff builders are methods with loops.

Every method is proved against a value-level definition:

- `DispensingSpec.WalkLots`, `EntryStep`, `EntriesPass`, `PrescriptionStep`,
  `SearchPass`, `Rows` and `UpdateEntry`;
- `PatientInfo.CheckSave` and `UpdateRows`;
- and so on for the other components.

The properties the code promises are lemmas about those definitions.

Data choices:

- Medicines are referenced by id from prescription entries. Two entries naming
  the same medicine therefore see each other's withdrawals, as they do when the
  database populates both references with one shared document.
- An id that is missing from `stock` is a reference that did not populate, so
  its entry is skipped.
- Times are integer timestamps, and "now" is a parameter.
- Quantities are unbounded integers. Vitals are reals.

The modules, one per file:

- `Common` (common.dfy): options, JavaScript truthiness, the ten-digit test,
  substring search, ASCII lower-casing and the prefix before a character.
- `DispensingSpec` (dispensing_spec.dfy) and `Dispensing` (dispensing.dfy): the
  allocator and the direct update.
- `PatientInfo` (patient_info.dfy).
- `NurseSearch` (nurse_search.dfy).
- `Appointments` (appointments.dfy).
- `InventoryPage` (inventory.dfy).
- `Registration` (registration.dfy).
- `ProtectedRoute` (protected_route.dfy).
- `StaffSeed` (staff_seed.dfy).

Lots are drawn in the order they are stored in the medicine document
(backend/controllers/pharmacist.controller.js:67-85): the filter keeps that
order and no step sorts lots by expiry date.

Some definitions have no row of their own, because the lemmas in the table
carry their contracts:

- `DispensingSpec.Takes` and `DispensingSpec.Left` (the draws and what stays
  outstanding; pharmacist.controller.js:74-87): `TakesConserve`, `TakesAt` and
  `TakesStopsWhenMet`.
- `DispensingSpec.WalkLots` (one entry's walk over its lots; lines 67-87):
  `WalkConserves`, `WalkKeepsLots`, `WalkInOrder` and `WalkLowersLots`, and the
  method `Dispensing.DrawFromLots`.
- `DispensingSpec.EntryStep` (one entry; lines 63-102): the `EntryStep*` lemmas.
- `DispensingSpec.PrescriptionStep` (one prescription; lines 59-116):
  `PrescriptionStepStatus`, and the `EntriesPass*` lemmas for its entries.
- `DispensingSpec.Rows` (the `flatMap`; lines 121-144): `RowsCount`,
  `PrescriptionRows` and `EntryRow`.
- `DispensingSpec.UpdateEntry` (lines 165-213): `UpdateEntryOutcome`,
  `UpdateEntryRefusals` and `UpdateEntryIdempotent`.
- `Appointments.Filtered` (Appointments.jsx:46-53): the `Filtered*` lemmas.
- `PatientInfo.UpdateRows` and `PatientInfo.EditDisabled` (PatientInfo.jsx:56-70
  and 303-305): `UpdateRowsEffect` and `UpdateRowsIdempotent`.
- `InventoryPage.Toggled`, `ShowToggle` and `ShowAddButton` (Inventory.jsx:101, 46
  and 295-297): `ToggleTwice` and `ButtonsByRole`.
- `NurseSearch.IsCriticalReading` (nurse.controller.js:33-34): `StatusOf` and
  `NoVitalsNotCritical`.

## Model

| member | source | states |
|---|---|---|
| DispensingSpec.ValidIndices | backend/controllers/pharmacist.controller.js:67 | the positions kept by the lot filter are in range, strictly increasing (storage order), and each is unexpired with positive quantity |
| DispensingSpec.ValidIndicesComplete | backend/controllers/pharmacist.controller.js:67 | every unexpired, non-empty lot is kept by the filter, so the filter keeps exactly the valid lots |
| DispensingSpec.ValidQuantitiesPositive | backend/controllers/pharmacist.controller.js:67 | every lot the walk visits holds a positive quantity |
| DispensingSpec.TakesConserve | backend/controllers/pharmacist.controller.js:74-87 | taken plus still-outstanding equals what was required; a positive requirement is met up to `min(required, stock)` and never goes below zero |
| DispensingSpec.TakesAt | backend/controllers/pharmacist.controller.js:74-84 | the k-th draw is `min(outstanding, quantity)` with something still outstanding, never exceeds the lot, is positive on a non-empty lot, and every earlier lot was taken whole |
| DispensingSpec.TakesStopsWhenMet | backend/controllers/pharmacist.controller.js:75 | the walk leaves lots unvisited only once nothing is outstanding |
| DispensingSpec.WithdrawHit | backend/controllers/pharmacist.controller.js:83 | a lot drawn from loses exactly what was taken from it and nothing else about it changes |
| DispensingSpec.WithdrawMiss | backend/controllers/pharmacist.controller.js:83 | a lot that was not drawn from is unchanged |
| DispensingSpec.WithdrawTotal | backend/controllers/pharmacist.controller.js:83 | the lots together lose exactly the sum of the draws |
| DispensingSpec.TakenDraws | backend/controllers/pharmacist.controller.js:78-81 | the `taken` fields of `dispensed_from` add up to the sum of the draws |
| DispensingSpec.WalkConserves | backend/controllers/pharmacist.controller.js:68-87 | one walk takes `min(required, valid stock)`; `dispensed_from` sums to it; the lots lose exactly it; what is left outstanding is between 0 and the requirement |
| DispensingSpec.WalkKeepsLots | backend/controllers/pharmacist.controller.js:67-85 | no lot goes negative, the number of lots is kept, and an expired or empty lot is never touched |
| DispensingSpec.DrawsInOrder | backend/controllers/pharmacist.controller.js:74-84 | the k-th `dispensed_from` record names the k-th walked lot and takes `min(required - taken so far, quantity)`, positive for a non-empty lot |
| DispensingSpec.WalkInOrder | backend/controllers/pharmacist.controller.js:74-84 | lots are consumed in storage order: the k-th draw comes from the k-th valid lot, takes `min(outstanding, quantity)` and is positive |
| DispensingSpec.WalkLowersLots | backend/controllers/pharmacist.controller.js:74-84 | the k-th drawn lot loses exactly the k-th draw, and every valid lot before it was emptied |
| DispensingSpec.EntryStepConserves | backend/controllers/pharmacist.controller.js:63-91 | one entry: `dispensed_qty` grows by exactly `min(outstanding, valid stock)`, which `dispensed_from` sums to and the medicine's lots lose; it never passes the prescribed quantity; the entry is unmet iff something is still outstanding |
| DispensingSpec.EntryStepKeepsStock | backend/controllers/pharmacist.controller.js:63-88 | after one entry every lot of every medicine is still non-negative, no medicine appears or disappears, other medicines are untouched, and invalid lots are unchanged |
| DispensingSpec.EntryStepIdle | backend/controllers/pharmacist.controller.js:73 | without the dispense flag, or with nothing outstanding, no lot and no entry changes and nothing is drawn |
| DispensingSpec.EntryStepFlags | backend/controllers/pharmacist.controller.js:63-91 | an entry is unmet iff its medicine populated, the flag was set and it is still short afterwards; something is taken only with the flag set; ids and quantity are kept |
| DispensingSpec.EntriesPass | backend/controllers/pharmacist.controller.js:63-103 | after n entries of the loop the later entries are untouched and one record per processed entry exists |
| DispensingSpec.NoneUnmetMeaning | backend/controllers/pharmacist.controller.js:60 | `allDispensed` after the loop holds iff no entry was left unmet |
| DispensingSpec.AnyTakenMeaning | backend/controllers/pharmacist.controller.js:61 | `anyDispensed` after the loop holds iff some entry took a positive amount |
| DispensingSpec.EntriesPassAt | backend/controllers/pharmacist.controller.js:63-103 | after the loop, each processed entry keeps its medicine id, is recorded unmet iff its medicine populated, the flag was set and it is still short, and took something only with the flag set; no medicine document appears or disappears |
| DispensingSpec.EntriesPassKeys | backend/controllers/pharmacist.controller.js:63-103 | the loop never adds or removes a medicine document |
| DispensingSpec.EntryStepBounds | backend/controllers/pharmacist.controller.js:63-91 | an entry with `0 <= dispensed_qty <= quantity` keeps those bounds through its step |
| DispensingSpec.EntriesPassKeepsStock | backend/controllers/pharmacist.controller.js:63-103 | over a whole prescription's entries no lot of any medicine goes negative |
| DispensingSpec.EntriesPassBounds | backend/controllers/pharmacist.controller.js:63-103 | entries that start with `0 <= dispensed_qty <= quantity` all keep it after the loop |
| DispensingSpec.EntriesPassIdle | backend/controllers/pharmacist.controller.js:73 | without the dispense flag the loop over a prescription changes no lot and no entry, takes nothing and leaves nothing unmet |
| DispensingSpec.PrescriptionStepStatus | backend/controllers/pharmacist.controller.js:105-112 | with the flag: "dispensed" iff no populated entry is left short; otherwise "partially_dispensed" iff some unit was taken in the pass; otherwise "pending"; without the flag the status is unchanged |
| DispensingSpec.SearchPass | backend/controllers/pharmacist.controller.js:59-119 | after n prescriptions the later ones are untouched and one report per processed prescription exists |
| DispensingSpec.SearchPassKeepsStock | backend/controllers/pharmacist.controller.js:59-119 | over the whole request no lot of any medicine goes negative |
| DispensingSpec.SearchPassBounds | backend/controllers/pharmacist.controller.js:59-119 | every entry of every prescription that starts with `0 <= dispensed_qty <= quantity` keeps it over the whole request |
| DispensingSpec.SearchPassIdle | backend/controllers/pharmacist.controller.js:59-119 | a search without the dispense flag changes no medicine document and no prescription (status included) |
| DispensingSpec.EntryStatus | backend/controllers/pharmacist.controller.js:132-137 | the reported entry status is "pending" iff the quantity or the dispensed quantity is 0, "dispensed" iff neither is and dispensed reaches the quantity |
| DispensingSpec.EntryRow | backend/controllers/pharmacist.controller.js:122-143 | a row carries the entry's quantities and status, a non-empty medicine name ("Unknown" when absent), and empty lot lists for a skipped entry |
| DispensingSpec.PrescriptionRows | backend/controllers/pharmacist.controller.js:121-144 | one row per entry of the prescription, in order |
| DispensingSpec.RowsCount | backend/controllers/pharmacist.controller.js:121-144 | the flattened result has one row per entry of every prescription |
| DispensingSpec.SearchGuard | backend/controllers/pharmacist.controller.js:17-47 | in order: a missing id gives 400, a non-numeric id 400, an unknown patient 404, a latest consultation without prescriptions a 200 with an empty result; the search goes on iff all pass |
| DispensingSpec.FindPrescription | backend/controllers/pharmacist.controller.js:176-179 | the lookup finds the first prescription with the id, or reports that none has it |
| DispensingSpec.FindEntry | backend/controllers/pharmacist.controller.js:182-185 | the lookup finds the first entry with the id, or reports that none has it |
| DispensingSpec.DirectStatus | backend/controllers/pharmacist.controller.js:196-202 | the direct update's status is "dispensed" iff the value equals the quantity and "partially_dispensed" iff strictly between 0 and it |
| DispensingSpec.UpdateEntryOutcome | backend/controllers/pharmacist.controller.js:171-208 | a missing or negative value gives 400; any refusal changes nothing; success (200) happens iff the prescription and entry exist and `0 <= value <= quantity`, and then exactly that entry takes the value and its prescription the single-entry status |
| DispensingSpec.UpdateEntryRefusals | backend/controllers/pharmacist.controller.js:176-190 | for a valid value, in order: an unknown prescription gives 404 "Prescription not found.", an unknown entry 404 "Prescription entry not found.", a value above the prescribed quantity 400 "cannot exceed" |
| DispensingSpec.UpdateEntryIdempotent | backend/controllers/pharmacist.controller.js:193-202 | repeating the direct update with the same value gives the same reply and changes nothing more |
| Dispensing.DrawFromLots | backend/controllers/pharmacist.controller.js:67-85 | the loop over the valid lots, breaking when nothing is outstanding, yields exactly the walk `WalkLots`: lowered lots, reported lots and draws, and what is left outstanding |
| Dispensing.Dispensary.constructor | backend/controllers/pharmacist.controller.js:56-59 | the medicine documents and the prescriptions the request works on: the consultation's prescriptions for the search, the stored prescriptions for the direct update |
| Dispensing.Dispensary.DispenseEntry | backend/controllers/pharmacist.controller.js:63-102 | one entry of the loop changes the medicine documents and the entry exactly as `EntryStep` says, and no prescription |
| Dispensing.Dispensary.DispenseEntries | backend/controllers/pharmacist.controller.js:60-103 | the loop over a prescription's entries leaves stock, entries and reports as `EntriesPass`, with `allDispensed`/`anyDispensed` equal to its two flags |
| Dispensing.Dispensary.DispensePrescription | backend/controllers/pharmacist.controller.js:59-116 | one prescription of the loop leaves stock and that prescription as `PrescriptionStep` says and no other prescription changes |
| Dispensing.Dispensary.SearchPrescriptions | backend/controllers/pharmacist.controller.js:56-144 | the whole pass, dispensing only for the query value "true", leaves stock and prescriptions as `SearchPass` and returns the flattened rows |
| Dispensing.Dispensary.UpdatePrescriptionEntry | backend/controllers/pharmacist.controller.js:165-213 | the direct update's reply and new prescriptions are those of `UpdateEntry`, and no lot changes |
| PatientInfo.FindRow | frontend/src/pages/common/PatientInfo.jsx:30 | the first row matching both the prescription id and the entry id, or none |
| PatientInfo.CheckSave | frontend/src/pages/common/PatientInfo.jsx:29-48 | no matching row gives "Medicine not found."; an empty or non-positive value "Please enter a valid quantity."; a positive value above the row's quantity "You cannot dispense more than the total quantity."; the value is sent iff a row matches and `0 < value <= quantity` |
| PatientInfo.ClientStatus | frontend/src/pages/common/PatientInfo.jsx:61 | "dispensed" iff the value equals the quantity, otherwise "partially_dispensed" iff positive |
| PatientInfo.UpdateRowsEffect | frontend/src/pages/common/PatientInfo.jsx:56-70 | only the rows with both ids change; each gets the sent quantity, keeps ids and quantity, and is "dispensed" exactly when its Edit button becomes disabled |
| PatientInfo.UpdateRowsIdempotent | frontend/src/pages/common/PatientInfo.jsx:56-70 | updating the rows twice with the same quantity is the same as once |
| PatientInfo.ClientStatusAgreesWithServer | frontend/src/pages/common/PatientInfo.jsx:37-66 | every value the page sends is one the server accepts, and the page's status then equals the server's |
| PatientInfo.StatusRulesDiffer | frontend/src/pages/common/PatientInfo.jsx:61 | for all inputs, the page's and the server's status rules differ iff the value is positive and above the quantity; there the page says partially dispensed and the server pending |
| PatientInfo.PatientInfoPage.constructor | frontend/src/pages/common/PatientInfo.jsx:14-18 | the page starts with the fetched rows, no row being edited and an empty value |
| PatientInfo.PatientInfoPage.HandleEdit | frontend/src/pages/common/PatientInfo.jsx:19-22 | editing starts on the row with its current dispensed quantity; rows unchanged |
| PatientInfo.PatientInfoPage.HandleInput | frontend/src/pages/common/PatientInfo.jsx:282 | the typed value replaces the edited quantity and nothing else |
| PatientInfo.PatientInfoPage.HandleCancel | frontend/src/pages/common/PatientInfo.jsx:24-27 | editing is reset to no row and an empty value; rows unchanged |
| PatientInfo.PatientInfoPage.HandleSave | frontend/src/pages/common/PatientInfo.jsx:29-91 | a refused value alerts and changes nothing; a sent value resets editing on success and on failure, and only a success updates the rows |
| NurseSearch.Classify | backend/controllers/nurse.controller.js:14-22 | exactly one lookup, in order: ten digits is a phone number, else a valid object id is an id, else a name pattern |
| NurseSearch.StatusOf | backend/controllers/nurse.controller.js:29-37 | "Critical" iff the latest vitals exceed 180 blood pressure or 104 temperature; otherwise "Discharged" iff there is no room, else "Admitted" |
| NurseSearch.Summarize | backend/controllers/nurse.controller.js:38-44 | a summary keeps id, name and phone, has the derived status, and reports "N/A" for a missing room |
| NurseSearch.SearchPatientInfo | backend/controllers/nurse.controller.js:5-47 | a missing or empty query gives 400 and no lookup; otherwise the classified lookup and one summary per patient found, in order |
| NurseSearch.OnlyLatestVitals | backend/controllers/nurse.controller.js:32-33 | records before the latest one never change the status |
| NurseSearch.NoVitalsNotCritical | backend/controllers/nurse.controller.js:31-43 | no vitals never gives "Critical"; a discharged patient is reported with room "N/A" |
| Appointments.FilteredCons | frontend/src/pages/doctor/Appointments.jsx:46-53 | the two chained filters keep the first appointment iff it passes both, then go on with the rest |
| Appointments.FilteredMembership | frontend/src/pages/doctor/Appointments.jsx:46-53 | an appointment is shown iff it is in the list and passes the status filter and the text filter |
| Appointments.FilteredAllKeep | frontend/src/pages/doctor/Appointments.jsx:47-53 | every shown appointment has the filtered status (or the filter is "all") and matches the text by lower-cased name or by id |
| Appointments.FilteredSubsequence | frontend/src/pages/doctor/Appointments.jsx:46-53 | the shown list is the input with some appointments left out, order kept |
| Appointments.FilteredKeepsAll | frontend/src/pages/doctor/Appointments.jsx:46-53 | a list whose every appointment passes both filters is shown unchanged |
| Appointments.FilteredShowsAll | frontend/src/pages/doctor/Appointments.jsx:46-53 | with "all" and an empty query every appointment is shown, in order |
| Appointments.FilteredIdempotent | frontend/src/pages/doctor/Appointments.jsx:46-53 | filtering the filtered list again changes nothing |
| Appointments.StatusColor | frontend/src/pages/doctor/Appointments.jsx:55-66 | scheduled, ongoing and completed map to blue, yellow and green; every other status to gray |
| InventoryPage.FormatDate | frontend/src/pages/common/Inventory.jsx:261-264 | "N/A" for a missing or empty date, otherwise the prefix before the first 'T', which holds no 'T' |
| InventoryPage.FormatDateKeepsPlainDate | frontend/src/pages/common/Inventory.jsx:261-264 | a date without a 'T' is shown as it is |
| InventoryPage.ToggleTwice | frontend/src/pages/common/Inventory.jsx:101 | toggling always changes the inventory type, and toggling twice restores it |
| InventoryPage.ButtonsByRole | frontend/src/pages/common/Inventory.jsx:295-297 | only an admin sees both the toggle and the add button; a pharmacist never sees the toggle and sees the add button only on medicines |
| InventoryPage.SubmitError | frontend/src/pages/common/Inventory.jsx:182 | the error names the modal mode and the kind of item |
| InventoryPage.MedicinePayloadOf | frontend/src/pages/common/Inventory.jsx:155-160 | the payload carries the form and `available`; order status "requested" iff pharmacist, else "ordered"; a medicine id iff update mode; update mode with nothing selected fails with the update error |
| InventoryPage.EquipmentPayloadOf | frontend/src/pages/common/Inventory.jsx:193-205 | order status "requested" iff pathologist, else "ordered"; item id and last service date iff update mode; the form fields otherwise; update mode with nothing selected fails |
| InventoryPage.InventoryState.constructor | frontend/src/pages/common/Inventory.jsx:7-52 | the initial state, with the role effect choosing equipment for a pathologist and medicine otherwise |
| InventoryPage.InventoryState.HandleSearchChange | frontend/src/pages/common/Inventory.jsx:95-98 | the new term, page 1, the other pagination fields and all other state kept |
| InventoryPage.InventoryState.HandleToggleInventory | frontend/src/pages/common/Inventory.jsx:100-104 | the other inventory type, an empty search, page 1; the rest kept |
| InventoryPage.InventoryState.HandleModalOpen | frontend/src/pages/common/Inventory.jsx:106-149 | update mode with an item selects it and fills the current inventory's form; otherwise both selections are cleared and both forms reset to their defaults; the modal opens |
| InventoryPage.InventoryState.HandleSubmit | frontend/src/pages/common/Inventory.jsx:151-187 | the payload of `MedicinePayloadOf` is sent; a payload that cannot be built, no response, or a status outside 200..299 sets the mode's error; a 200/201 answer clears the error (the fresh inventory fetch does so first), closes the modal and resets the medicine form; another 2xx changes nothing |
| InventoryPage.InventoryState.HandleEquipmentSubmit | frontend/src/pages/common/Inventory.jsx:189-230 | the payload of `EquipmentPayloadOf` is sent; a payload that cannot be built, no response, or a status outside 200..299 sets the mode's error; a 200/201 answer clears the error (the fresh inventory fetch does so first), closes the modal and resets the equipment form; another 2xx changes nothing |
| Registration.EmptyForm | frontend/src/pages/receptionist/Registration.jsx:7-21 | all thirteen fields, each empty |
| Registration.SubmitGate | frontend/src/pages/receptionist/Registration.jsx:42-50 | the form passes iff both numbers are ten digits; a bad mobile number gives the mobile error; the emergency error appears iff the mobile number passes and the emergency number does not |
| Registration.OutcomeMessage | frontend/src/pages/receptionist/Registration.jsx:64-88 | success iff an ok answer; the server's message when it has one, otherwise "Patient registered successfully!" on ok and "Registration failed" otherwise; the network-error text when the request fails |
| Registration.RegistrationForm.constructor | frontend/src/pages/receptionist/Registration.jsx:7-24 | the empty form, no message, not submitting |
| Registration.RegistrationForm.HandleChange | frontend/src/pages/receptionist/Registration.jsx:29-35 | only the named field changes |
| Registration.RegistrationForm.BeginSubmit | frontend/src/pages/receptionist/Registration.jsx:39-60 | a failing gate shows its message and sends nothing; otherwise the page is submitting and the whole form is sent |
| Registration.RegistrationForm.FinishSubmit | frontend/src/pages/receptionist/Registration.jsx:62-92 | the outcome's message; an ok answer empties every field and moves to the receptionist's profile; submitting ends in every case |
| Registration.EmptyFormRejected | frontend/src/pages/receptionist/Registration.jsx:42-46 | an empty form is refused with the mobile error |
| Registration.GateIgnoresOtherFields | frontend/src/pages/receptionist/Registration.jsx:42-50 | changing any field other than the two numbers never changes the gate's decision |
| ProtectedRoute.Render | frontend/src/components/ProtectedRoute.jsx:17-21 | nothing iff loading; "/" iff loaded without a role; "/unauthorized" iff a role not allowed; the nested routes iff an allowed role |
| ProtectedRoute.RouteGuard.constructor | frontend/src/components/ProtectedRoute.jsx:6-7 | the guard starts loading with the context's role |
| ProtectedRoute.RouteGuard.RunEffect | frontend/src/components/ProtectedRoute.jsx:9-19 | a stored role replaces the context's role only when present and loading always ends; afterwards a stored role alone decides the render (the nested routes iff allowed, else "/unauthorized"), and without one the context's role does |
| StaffSeed.WithRole | backend/addSample/staff.js:125 | the role filter keeps only employees of the role and never more than the input |
| StaffSeed.WithRoleMembership | backend/addSample/staff.js:125 | an employee is selected iff it is in the list and has the role |
| StaffSeed.RolesPartition | backend/addSample/staff.js:123-253 | when every employee has one of the seven roles, the builders together make exactly one record per employee |
| StaffSeed.AddDummyDoctors | backend/addSample/staff.js:123-146 | one record per doctor, in order; doctor i has department `i % |departments|`, specialization and qualification `i % 5`, experience `2 + 2i`, room `100 + i` and `10 + 5i` ratings |
| StaffSeed.AddDummyNurses | backend/addSample/staff.js:149-172 | one record per nurse, in order; nurse i has department `i % |departments|` and location `i % 4`; a room iff `i % 3 == 0`, a bed iff `i % 4 == 0`, an ambulance iff `i % 5 == 0`, each round-robin from its list |
| StaffSeed.AddMembers | backend/addSample/staff.js:175-187 | one id-only record per pharmacist (and per admin and driver), in order |
| StaffSeed.AddDummyReceptionists | backend/addSample/staff.js:190-205 | one record per receptionist, in order, with department `i % |departments|` |
| StaffSeed.AddDummyPathologists | backend/addSample/staff.js:223-238 | one record per pathologist, in order, with lab `i % |labs|` |
| StaffSeed.Generate | backend/addSample/staff.js:13-58 | the route fails with 500 iff a reference list or the employee list came back null; otherwise it reports the count of each kind of record, one per employee of the role |

## Left out

- Database work (`find`, `findOne`, `populate`, `save`, `markModified`, `deleteMany`, `insertMany`, `create`), HTTP and Express plumbing, and axios/fetch calls: lookups are inputs, replies are datatypes.
- DispensingSpec.UpdateEntry: a prescription id that is not a well-formed object id makes the database lookup throw, and the request answers 500 from its catch. The model looks the id up like any other string and answers 404.
- The read-modify-write race between concurrent dispensing requests: one request at a time is modelled.
- The patient and consultation lookups in front of the search: `DispensingSpec.SearchGuard` takes their outcomes as booleans. The `isNaN` test on the patient id is a parameter, because JavaScript's number parsing is not part of this model.
- The sort of prescriptions by date: the prescriptions come in already in retrieval order.
- The per-medicine fields of a result row that only copy the document (`dosage_form`, `manufacturer`, `available`), and the `lastConsultation` summary.
- `Dispensing.Dispensary.SearchPrescriptions` keeps one quirk of the code. A prescription whose entries all fail to populate has `allDispensed` still true, so it becomes "dispensed". Also, `valid_batches` are reported after the draws, so they may show a lot at quantity 0.
- `new Date()`: "now" is an integer parameter, and expiry dates are integer timestamps.
- JSON coercions: `dispensed_qty` is an integer or absent (`None`). Strings and `null` sent as quantities are not modelled.
- PatientInfo.PatientInfoPage.HandleSave: the number input is modelled as empty or a whole number. Fractional and exponent inputs are not modelled, and the alert text built from a server error is taken as a parameter.
- NurseSearch.Classify: the object-id check of the database driver is a parameter. The case-insensitive name match is done by the database and is not modelled.
- `Common.ToLower` folds ASCII letters only.
- The inventory fetch (`fetchInventory`) is modelled only by the error reset it performs at once when a submit succeeds. Its loading flag, the list and pagination it stores, and its own failure text "Failed to fetch inventory data" are not modelled. Neither are the 500 ms debounce timer that runs it after a search or toggle, pagination's previous/next buttons, the pending-orders view and `handleOrderStatusUpdate` (requests and rendering only).
- The registration message timer (`setTimeout`) and `localStorage`: the role is an input.
- The random doctor rating (`Math.random`) is not modelled: it is floating point and nondeterministic.
- The clear-data route and the `deleteMany` calls are not modelled.
- `backend/controllers/publicDataController.js` (file and archive I/O), `backend/controllers/payrollController.js` (a single find) and `backend/models/employee.js` (a schema) are not part of this model.
- The route files, `Appointments_doc.jsx` (mock data), `PublicData.jsx`, `ContactAdmin.jsx`, `Unauthorized.jsx` and `App.jsx` are not part of this model, and neither is `PatientDashboard.jsx` (including its age calculation, which depends on JavaScript dates).
