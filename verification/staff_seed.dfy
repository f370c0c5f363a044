/**
 * The sample-staff generator: the employees of each role are picked out of
 * the employee list, and each builder gives the i-th of them a record whose
 * department, location, room, bed, ambulance or lab is chosen round-robin
 * from the reference lists. The database reads and writes around the
 * builders are not part of this model; the lists they return are inputs.
 */
module StaffSeed {
  import opened Common

  /** A document id. */
  type Id = string

  datatype Employee = Employee(id: Id, role: string)

  /** A doctor record; the random rating is not part of this model. */
  datatype Doctor = Doctor(
    employeeId: Id,
    departmentId: Id,
    specialization: string,
    qualification: string,
    experience: int,
    roomNum: int,
    numRatings: int)

  /** A nurse record; a `None` assignment is stored as null. */
  datatype Nurse = Nurse(
    employeeId: Id,
    assignedDept: Id,
    location: string,
    assignedRoom: Option<Id>,
    assignedBed: Option<Id>,
    assignedAmb: Option<Id>)

  datatype Receptionist = Receptionist(employeeId: Id, assignedDept: Id)

  datatype Pathologist = Pathologist(employeeId: Id, labId: Id)

  /** The record of a pharmacist, an admin or a driver: the employee id alone. */
  datatype Member = Member(employeeId: Id)

  const Specializations: seq<string> := ["Cardiologist", "Neurologist", "Orthopedic Surgeon", "Dermatologist", "ENT Specialist"]
  const Qualifications: seq<string> := ["MD", "MBBS, MD", "MBBS, MS", "MBBS, DNB", "MBBS, DM"]
  const Locations: seq<string> := ["ward", "icu", "ot", "emergency"]

  /** The roles the generator builds records for. */
  const Roles: seq<string> := ["doctor", "nurse", "pharmacist", "receptionist", "admin", "pathologist", "driver"]

  /** `employees.filter(emp => emp.role === role)`. */
  function WithRole(employees: seq<Employee>, role: string): (r: seq<Employee>)
    ensures |r| <= |employees|
    ensures forall i :: 0 <= i < |r| ==> r[i].role == role
  {
    if employees == [] then []
    else (if employees[0].role == role then [employees[0]] else []) + WithRole(employees[1..], role)
  }

  /** The filter keeps exactly the employees with the role. */
  lemma {:induction false} WithRoleMembership(employees: seq<Employee>, role: string, e: Employee)
    ensures e in WithRole(employees, role) <==> e in employees && e.role == role
    decreases |employees|
  {
    if employees != [] {
      WithRoleMembership(employees[1..], role, e);
      assert employees == [employees[0]] + employees[1..];
    }
  }

  /** How many employees have one of the roles in `roles`. */
  function CountRoles(employees: seq<Employee>, roles: seq<string>): nat {
    if roles == [] then 0 else |WithRole(employees, roles[0])| + CountRoles(employees, roles[1..])
  }

  /** With no employees every role count is zero. */
  lemma {:induction false} CountRolesEmpty(roles: seq<string>)
    ensures CountRoles([], roles) == 0
    decreases |roles|
  {
    if roles != [] {
      CountRolesEmpty(roles[1..]);
    }
  }

  /** Adding one employee in front adds one to the count of its role, and nothing to the others. */
  lemma {:induction false} CountRolesCons(e: Employee, rest: seq<Employee>, roles: seq<string>)
    requires NoDuplicates(roles)
    ensures CountRoles([e] + rest, roles) == CountRoles(rest, roles) + (if e.role in roles then 1 else 0)
    decreases |roles|
  {
    var es := [e] + rest;
    assert es[1..] == rest;
    if roles != [] {
      CountRolesCons(e, rest, roles[1..]);
      assert roles == [roles[0]] + roles[1..];
    }
  }

  /** No role is listed twice. */
  predicate NoDuplicates(roles: seq<string>) {
    forall i, j :: 0 <= i < j < |roles| ==> roles[i] != roles[j]
  }

  /**
   * When every employee has one of the seven roles, the builders together
   * make exactly one record per employee: the role lists partition the
   * employees.
   */
  lemma {:induction false} RolesPartition(employees: seq<Employee>)
    requires forall i :: 0 <= i < |employees| ==> employees[i].role in Roles
    ensures CountRoles(employees, Roles) == |employees|
    decreases |employees|
  {
    if employees == [] {
      CountRolesEmpty(Roles);
    } else {
      assert NoDuplicates(Roles);
      assert employees[0].role in Roles;
      RolesPartition(employees[1..]);
      CountRolesCons(employees[0], employees[1..], Roles);
      assert [employees[0]] + employees[1..] == employees;
    }
  }

  /** The fields of doctor `i`: round-robin department, specialization and qualification, and counters that grow with `i`. */
  predicate IsDoctorRecord(d: Doctor, e: Employee, i: nat, departments: seq<Id>)
    requires |departments| > 0
  {
    && d.employeeId == e.id
    && d.departmentId == departments[i % |departments|]
    && d.specialization == Specializations[i % 5]
    && d.qualification == Qualifications[i % 5]
    && d.experience == 2 + i * 2
    && d.roomNum == 100 + i
    && d.numRatings == 10 + i * 5
  }

  /** `addDummyDoctors`: one record per doctor, in order. */
  method AddDummyDoctors(employees: seq<Employee>, departments: seq<Id>) returns (doctors: seq<Doctor>)
    requires |WithRole(employees, "doctor")| > 0 ==> |departments| > 0
    ensures |doctors| == |WithRole(employees, "doctor")|
    ensures forall i :: 0 <= i < |doctors| ==> IsDoctorRecord(doctors[i], WithRole(employees, "doctor")[i], i, departments)
  {
    var doctorEmployees := WithRole(employees, "doctor");
    doctors := [];
    for i := 0 to |doctorEmployees|
      invariant |doctors| == i
      invariant forall k :: 0 <= k < i ==> IsDoctorRecord(doctors[k], doctorEmployees[k], k, departments)
    {
      var deptIndex := i % |departments|;
      doctors := doctors + [Doctor(doctorEmployees[i].id, departments[deptIndex],
                                   Specializations[i % |Specializations|], Qualifications[i % |Qualifications|],
                                   2 + i * 2, 100 + i, 10 + i * 5)];
    }
  }

  /** The fields of nurse `i`: round-robin department and location; a room every third, a bed every fourth, an ambulance every fifth nurse. */
  predicate IsNurseRecord(n: Nurse, e: Employee, i: nat, departments: seq<Id>, rooms: seq<Id>, beds: seq<Id>, ambulances: seq<Id>)
    requires |departments| > 0 && |rooms| > 0 && |beds| > 0 && |ambulances| > 0
  {
    && n.employeeId == e.id
    && n.assignedDept == departments[i % |departments|]
    && n.location == Locations[i % 4]
    && (n.assignedRoom.Some? <==> i % 3 == 0)
    && (n.assignedRoom.Some? ==> n.assignedRoom.value == rooms[i % |rooms|])
    && (n.assignedBed.Some? <==> i % 4 == 0)
    && (n.assignedBed.Some? ==> n.assignedBed.value == beds[i % |beds|])
    && (n.assignedAmb.Some? <==> i % 5 == 0)
    && (n.assignedAmb.Some? ==> n.assignedAmb.value == ambulances[i % |ambulances|])
  }

  /** `addDummyNurses`: one record per nurse, in order. */
  method AddDummyNurses(employees: seq<Employee>, departments: seq<Id>, rooms: seq<Id>, beds: seq<Id>, ambulances: seq<Id>)
    returns (nurses: seq<Nurse>)
    requires |WithRole(employees, "nurse")| > 0 ==> |departments| > 0 && |rooms| > 0 && |beds| > 0 && |ambulances| > 0
    ensures |nurses| == |WithRole(employees, "nurse")|
    ensures forall i :: 0 <= i < |nurses| ==>
              IsNurseRecord(nurses[i], WithRole(employees, "nurse")[i], i, departments, rooms, beds, ambulances)
  {
    var nurseEmployees := WithRole(employees, "nurse");
    nurses := [];
    for i := 0 to |nurseEmployees|
      invariant |nurses| == i
      invariant forall k :: 0 <= k < i ==>
                  IsNurseRecord(nurses[k], nurseEmployees[k], k, departments, rooms, beds, ambulances)
    {
      var deptIndex := i % |departments|;
      var roomIndex := i % |rooms|;
      var bedIndex := i % |beds|;
      var ambIndex := i % |ambulances|;
      nurses := nurses + [Nurse(nurseEmployees[i].id, departments[deptIndex], Locations[i % |Locations|],
                                if i % 3 == 0 then Some(rooms[roomIndex]) else None,
                                if i % 4 == 0 then Some(beds[bedIndex]) else None,
                                if i % 5 == 0 then Some(ambulances[ambIndex]) else None)];
    }
  }

  /** `addDummyReceptionists`: receptionist `i` is assigned department `i % |departments|`. */
  method AddDummyReceptionists(employees: seq<Employee>, departments: seq<Id>) returns (receptionists: seq<Receptionist>)
    requires |WithRole(employees, "receptionist")| > 0 ==> |departments| > 0
    ensures |receptionists| == |WithRole(employees, "receptionist")|
    ensures forall i :: 0 <= i < |receptionists| ==>
              receptionists[i] == Receptionist(WithRole(employees, "receptionist")[i].id, departments[i % |departments|])
  {
    var receptionistEmployees := WithRole(employees, "receptionist");
    receptionists := [];
    for i := 0 to |receptionistEmployees|
      invariant |receptionists| == i
      invariant forall k :: 0 <= k < i ==>
                  receptionists[k] == Receptionist(receptionistEmployees[k].id, departments[k % |departments|])
    {
      var deptIndex := i % |departments|;
      receptionists := receptionists + [Receptionist(receptionistEmployees[i].id, departments[deptIndex])];
    }
  }

  /** `addDummyPathologists`: pathologist `i` works in lab `i % |labs|`. */
  method AddDummyPathologists(employees: seq<Employee>, labs: seq<Id>) returns (pathologists: seq<Pathologist>)
    requires |WithRole(employees, "pathologist")| > 0 ==> |labs| > 0
    ensures |pathologists| == |WithRole(employees, "pathologist")|
    ensures forall i :: 0 <= i < |pathologists| ==>
              pathologists[i] == Pathologist(WithRole(employees, "pathologist")[i].id, labs[i % |labs|])
  {
    var pathologistEmployees := WithRole(employees, "pathologist");
    pathologists := [];
    for i := 0 to |pathologistEmployees|
      invariant |pathologists| == i
      invariant forall k :: 0 <= k < i ==> pathologists[k] == Pathologist(pathologistEmployees[k].id, labs[k % |labs|])
    {
      var labIndex := i % |labs|;
      pathologists := pathologists + [Pathologist(pathologistEmployees[i].id, labs[labIndex])];
    }
  }

  /** `addDummyPharmacists`, `addDummyAdmins` and `addDummyDrivers`: one id-only record per employee with the role, in order. */
  method AddMembers(employees: seq<Employee>, role: string) returns (members: seq<Member>)
    ensures |members| == |WithRole(employees, role)|
    ensures forall i :: 0 <= i < |members| ==> members[i].employeeId == WithRole(employees, role)[i].id
  {
    var roleEmployees := WithRole(employees, role);
    members := [];
    for i := 0 to |roleEmployees|
      invariant |members| == i
      invariant forall k :: 0 <= k < i ==> members[k].employeeId == roleEmployees[k].id
    {
      members := members + [Member(roleEmployees[i].id)];
    }
  }

  /** The number of records of each kind, as the generator reports them. */
  datatype Counts = Counts(
    departments: nat, rooms: nat, beds: nat, ambulances: nat, labs: nat, employees: nat,
    doctors: nat, nurses: nat, pharmacists: nat, receptionists: nat, admins: nat, pathologists: nat, drivers: nat)

  datatype GenerateReply = Generated(message: string, counts: Counts) | GenerateFailed(status: int, message: string)

  const MsgGenerated := "Dummy data added successfully"
  const MsgGenerateFailed := "Error adding dummy data"

  /**
   * The generate route. A reference list that the database returned empty
   * comes back as null (`None`); the route then fails with status 500,
   * either in a builder that indexes the list or when the counts are read.
   * Otherwise every builder runs and the reply counts the records.
   */
  method Generate(departments: Option<seq<Id>>, rooms: Option<seq<Id>>, beds: Option<seq<Id>>,
                  ambulances: Option<seq<Id>>, labs: Option<seq<Id>>, employees: Option<seq<Employee>>)
    returns (reply: GenerateReply)
    requires departments.Some? ==> |departments.value| > 0
    requires rooms.Some? ==> |rooms.value| > 0
    requires beds.Some? ==> |beds.value| > 0
    requires ambulances.Some? ==> |ambulances.value| > 0
    requires labs.Some? ==> |labs.value| > 0
    requires employees.Some? ==> |employees.value| > 0
    ensures reply.GenerateFailed? <==>
              departments.None? || rooms.None? || beds.None? || ambulances.None? || labs.None? || employees.None?
    ensures reply.GenerateFailed? ==> reply == GenerateFailed(500, MsgGenerateFailed)
    ensures reply.Generated? ==>
              && reply.message == MsgGenerated
              && reply.counts.departments == |departments.value| && reply.counts.rooms == |rooms.value|
              && reply.counts.beds == |beds.value| && reply.counts.ambulances == |ambulances.value|
              && reply.counts.labs == |labs.value| && reply.counts.employees == |employees.value|
              && reply.counts.doctors == |WithRole(employees.value, "doctor")|
              && reply.counts.nurses == |WithRole(employees.value, "nurse")|
              && reply.counts.pharmacists == |WithRole(employees.value, "pharmacist")|
              && reply.counts.receptionists == |WithRole(employees.value, "receptionist")|
              && reply.counts.admins == |WithRole(employees.value, "admin")|
              && reply.counts.pathologists == |WithRole(employees.value, "pathologist")|
              && reply.counts.drivers == |WithRole(employees.value, "driver")|
  {
    if departments.None? || rooms.None? || beds.None? || ambulances.None? || labs.None? || employees.None? {
      return GenerateFailed(500, MsgGenerateFailed);
    }
    var es := employees.value;
    var doctors := AddDummyDoctors(es, departments.value);
    var nurses := AddDummyNurses(es, departments.value, rooms.value, beds.value, ambulances.value);
    var pharmacists := AddMembers(es, "pharmacist");
    var receptionists := AddDummyReceptionists(es, departments.value);
    var admins := AddMembers(es, "admin");
    var pathologists := AddDummyPathologists(es, labs.value);
    var drivers := AddMembers(es, "driver");
    reply := Generated(MsgGenerated, Counts(|departments.value|, |rooms.value|, |beds.value|, |ambulances.value|,
                                            |labs.value|, |es|, |doctors|, |nurses|, |pharmacists|,
                                            |receptionists|, |admins|, |pathologists|, |drivers|));
  }
}
