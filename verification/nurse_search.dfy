/**
 * The nurse's patient search: how the search text is turned into a lookup
 * (phone number, id or name), and the status derived for every patient
 * found. The lookup itself is the database's; the patients it returns are
 * an input here.
 */
module NurseSearch {
  import opened Common

  /** One vitals record; a missing reading is `None` and never compares above a limit. */
  datatype Vitals = Vitals(bloodPressure: Option<real>, bodyTemp: Option<real>)

  datatype Patient = Patient(id: string, name: string, phoneNumber: string, vitals: seq<Vitals>, roomNo: Option<string>)

  datatype PatientStatus = Admitted | Discharged | Critical

  /** One element of the reply. */
  datatype Summary = Summary(id: string, name: string, phoneNumber: string, status: PatientStatus, roomNo: string)

  /** The lookup the search text selects: by phone number, by id, or by a case-insensitive name pattern. */
  datatype Query = ByPhone(phone: string) | ById(id: string) | ByName(pattern: string)

  /** The reply; `Found` also records the lookup that was made. */
  datatype Reply = BadRequest(message: string) | Found(query: Query, patients: seq<Summary>)

  const MsgQueryRequired := "Search query is required."

  /**
   * The lookup for a present search text: ten digits is a phone number,
   * otherwise a valid object id is an id, otherwise a name pattern.
   * `isObjectId` is the driver's id check, which is not part of this model.
   */
  function Classify(q: string, isObjectId: string -> bool): (r: Query)
    ensures r.ByPhone? <==> IsTenDigits(q)
    ensures r.ById? <==> !IsTenDigits(q) && isObjectId(q)
    ensures r.ByName? <==> !IsTenDigits(q) && !isObjectId(q)
    ensures r == ByPhone(q) || r == ById(q) || r == ByName(q)
  {
    if IsTenDigits(q) then ByPhone(q)
    else if isObjectId(q) then ById(q)
    else ByName(q)
  }

  /** A reading strictly above 180 for blood pressure or 104 for temperature. */
  predicate IsCriticalReading(v: Vitals) {
    (v.bloodPressure.Some? && v.bloodPressure.value > 180.0) || (v.bodyTemp.Some? && v.bodyTemp.value > 104.0)
  }

  /**
   * The status of one patient: "Critical" iff the latest vitals record is
   * critical (it overrides the room rule), otherwise "Discharged" iff no
   * room is recorded, otherwise "Admitted".
   */
  function StatusOf(p: Patient): (s: PatientStatus)
    ensures s == Critical <==> |p.vitals| > 0 && IsCriticalReading(p.vitals[|p.vitals| - 1])
    ensures s == Discharged <==> s != Critical && !Truthy(p.roomNo)
    ensures s == Admitted <==> s != Critical && Truthy(p.roomNo)
  {
    var status := if !Truthy(p.roomNo) then Discharged else Admitted;
    if |p.vitals| > 0 && IsCriticalReading(p.vitals[|p.vitals| - 1]) then Critical else status
  }

  function Summarize(p: Patient): (r: Summary)
    ensures r.id == p.id && r.name == p.name && r.phoneNumber == p.phoneNumber && r.status == StatusOf(p)
    ensures Truthy(p.roomNo) ==> r.roomNo == p.roomNo.value
    ensures !Truthy(p.roomNo) ==> r.roomNo == "N/A"
  {
    Summary(p.id, p.name, p.phoneNumber, StatusOf(p), if Truthy(p.roomNo) then p.roomNo.value else "N/A")
  }

  /**
   * `searchPatientInfo`: a missing or empty search text is refused before
   * any lookup; otherwise `found` is what the lookup returned, and the reply
   * has one summary per patient, in order.
   */
  function SearchPatientInfo(searchQuery: Option<string>, isObjectId: string -> bool, found: seq<Patient>): (r: Reply)
    ensures r.BadRequest? <==> !Truthy(searchQuery)
    ensures r.BadRequest? ==> r.message == MsgQueryRequired
    ensures r.Found? ==> r.query == Classify(searchQuery.value, isObjectId)
    ensures r.Found? ==> (|r.patients| == |found|
                          && forall i :: 0 <= i < |found| ==> r.patients[i] == Summarize(found[i]))
  {
    if !Truthy(searchQuery) then BadRequest(MsgQueryRequired)
    else Found(Classify(searchQuery.value, isObjectId), seq(|found|, i requires 0 <= i < |found| => Summarize(found[i])))
  }

  /** Only the latest vitals count: earlier records never change the status. */
  lemma OnlyLatestVitals(p: Patient, earlier: seq<Vitals>)
    ensures StatusOf(p.(vitals := earlier + p.vitals)) == StatusOf(p) || p.vitals == []
  {
    if p.vitals != [] {
      var vs := earlier + p.vitals;
      assert vs[|vs| - 1] == p.vitals[|p.vitals| - 1];
    }
  }

  /** A patient with no vitals is never critical; a discharged one is always reported without a room. */
  lemma NoVitalsNotCritical(p: Patient)
    ensures p.vitals == [] ==> StatusOf(p) != Critical
    ensures StatusOf(p) == Discharged ==> Summarize(p).roomNo == "N/A"
  {
  }
}
