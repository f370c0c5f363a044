/**
 * The doctor's appointment list: the two chained filters (by status, then
 * by search text over the patient's name and the appointment id) and the
 * colour given to each status.
 */
module Appointments {
  import opened Common

  /** An appointment as the filter sees it; `idText` is `id.toString()`. */
  datatype Appointment = Appointment(idText: string, patientName: string, status: string)

  /** The first filter: the status filter is "all" or equal to the status. */
  predicate StatusKeeps(a: Appointment, statusFilter: string) {
    statusFilter == "all" || a.status == statusFilter
  }

  /** The second filter: the lower-cased name contains the lower-cased query, or the id text contains the query as typed. */
  predicate TextKeeps(a: Appointment, query: string) {
    Contains(ToLower(a.patientName), ToLower(query)) || Contains(a.idText, query)
  }

  function StatusStage(apps: seq<Appointment>, statusFilter: string): seq<Appointment> {
    if apps == [] then []
    else (if StatusKeeps(apps[0], statusFilter) then [apps[0]] else []) + StatusStage(apps[1..], statusFilter)
  }

  function TextStage(apps: seq<Appointment>, query: string): seq<Appointment> {
    if apps == [] then []
    else (if TextKeeps(apps[0], query) then [apps[0]] else []) + TextStage(apps[1..], query)
  }

  /** `filteredAppointments`: the status filter, then the text filter. */
  function Filtered(apps: seq<Appointment>, statusFilter: string, query: string): seq<Appointment> {
    TextStage(StatusStage(apps, statusFilter), query)
  }

  predicate Keeps(a: Appointment, statusFilter: string, query: string) {
    StatusKeeps(a, statusFilter) && TextKeeps(a, query)
  }

  /** `a` is `b` with some elements left out, the rest in the same order. */
  predicate IsSubsequence(a: seq<Appointment>, b: seq<Appointment>)
    decreases |b|
  {
    a == [] || (b != [] && ((a[0] == b[0] && IsSubsequence(a[1..], b[1..])) || IsSubsequence(a, b[1..])))
  }

  /** The chained filters take the first appointment iff it passes both, then go on with the rest. */
  lemma FilteredCons(apps: seq<Appointment>, statusFilter: string, query: string)
    requires apps != []
    ensures Filtered(apps, statusFilter, query)
            == (if Keeps(apps[0], statusFilter, query) then [apps[0]] else []) + Filtered(apps[1..], statusFilter, query)
  {
    var rest := StatusStage(apps[1..], statusFilter);
    if StatusKeeps(apps[0], statusFilter) {
      var s := [apps[0]] + rest;
      assert StatusStage(apps, statusFilter) == s;
      assert s[0] == apps[0] && s[1..] == rest;
    } else {
      assert StatusStage(apps, statusFilter) == [] + rest == rest;
    }
  }

  /** Exactly the appointments that pass both filters are kept. */
  lemma {:induction false} FilteredMembership(apps: seq<Appointment>, statusFilter: string, query: string, a: Appointment)
    ensures a in Filtered(apps, statusFilter, query) <==> a in apps && Keeps(a, statusFilter, query)
    decreases |apps|
  {
    if apps != [] {
      FilteredCons(apps, statusFilter, query);
      FilteredMembership(apps[1..], statusFilter, query, a);
      assert apps == [apps[0]] + apps[1..];
    }
  }

  /** Every kept appointment passes both filters. */
  lemma {:induction false} FilteredAllKeep(apps: seq<Appointment>, statusFilter: string, query: string)
    ensures forall i :: 0 <= i < |Filtered(apps, statusFilter, query)| ==> Keeps(Filtered(apps, statusFilter, query)[i], statusFilter, query)
    decreases |apps|
  {
    if apps != [] {
      FilteredCons(apps, statusFilter, query);
      FilteredAllKeep(apps[1..], statusFilter, query);
    }
  }

  /** The filtered list is the input with some appointments left out, in the same order. */
  lemma {:induction false} FilteredSubsequence(apps: seq<Appointment>, statusFilter: string, query: string)
    ensures IsSubsequence(Filtered(apps, statusFilter, query), apps)
    decreases |apps|
  {
    if apps != [] {
      FilteredCons(apps, statusFilter, query);
      FilteredSubsequence(apps[1..], statusFilter, query);
      var f := Filtered(apps, statusFilter, query);
      if Keeps(apps[0], statusFilter, query) {
        assert f[0] == apps[0] && f[1..] == Filtered(apps[1..], statusFilter, query);
      } else {
        assert f == Filtered(apps[1..], statusFilter, query);
      }
    }
  }

  /** A list whose every appointment passes both filters comes back unchanged. */
  lemma {:induction false} FilteredKeepsAll(apps: seq<Appointment>, statusFilter: string, query: string)
    requires forall i :: 0 <= i < |apps| ==> Keeps(apps[i], statusFilter, query)
    ensures Filtered(apps, statusFilter, query) == apps
    decreases |apps|
  {
    if apps != [] {
      FilteredCons(apps, statusFilter, query);
      FilteredKeepsAll(apps[1..], statusFilter, query);
    }
  }

  /** With status "all" and an empty query every appointment is shown, in order. */
  lemma FilteredShowsAll(apps: seq<Appointment>)
    ensures Filtered(apps, "all", "") == apps
  {
    forall i | 0 <= i < |apps|
      ensures Keeps(apps[i], "all", "")
    {
      assert ToLower("") == "";
      ContainsEmpty(ToLower(apps[i].patientName));
    }
    FilteredKeepsAll(apps, "all", "");
  }

  /** Filtering again with the same status and query changes nothing. */
  lemma FilteredIdempotent(apps: seq<Appointment>, statusFilter: string, query: string)
    ensures Filtered(Filtered(apps, statusFilter, query), statusFilter, query) == Filtered(apps, statusFilter, query)
  {
    FilteredAllKeep(apps, statusFilter, query);
    FilteredKeepsAll(Filtered(apps, statusFilter, query), statusFilter, query);
  }

  /** `getStatusColor`. */
  function StatusColor(status: string): (c: string)
    ensures status == "scheduled" ==> c == "bg-blue-100 text-blue-800"
    ensures status == "ongoing" ==> c == "bg-yellow-100 text-yellow-800"
    ensures status == "completed" ==> c == "bg-green-100 text-green-800"
    ensures status !in {"scheduled", "ongoing", "completed"} ==> c == "bg-gray-100 text-gray-800"
  {
    match status
    case "scheduled" => "bg-blue-100 text-blue-800"
    case "ongoing" => "bg-yellow-100 text-yellow-800"
    case "completed" => "bg-green-100 text-green-800"
    case _ => "bg-gray-100 text-gray-800"
  }
}
