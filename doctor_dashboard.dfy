/**
 * The doctor dashboard, which lists the doctor's own patients from
 * `GET doctor/patients/`. Its rows are patient records rather than case
 * reports, its card titles and age table differ from the case dashboards,
 * and a dead patient's row has no action at all.
 */
module DoctorDashboard {
  import opened Js
  import opened CaseTable

  const Cards: set<string> := {"total", "new", "recovered", "deceased"}

  /** The title `handleOpenModal` gives the modal for each card type. */
  function ModalTitle(kind: string): (t: string)
    ensures t == "" <==> kind !in Cards
  {
    match kind
    case "total" => "All Patients"
    case "new" => "New Cases Today"
    case "recovered" => "Recovered Patients"
    case "deceased" => "Deceased Patients"
    case _ => ""
  }

  /**
   * One patient record with `name` added and both dates rendered by
   * `localeDate` (standing for `toLocaleDateString`); reading a missing
   * name only yields "undefined", so this never fails.
   */
  function PatientRow(p: Record, localeDate: Option<Value> -> string): (r: Record)
    ensures Get(r, "name") == Some(Str(ToStr(Get(p, "first_name")) + " " + ToStr(Get(p, "last_name"))))
    ensures Get(r, "created_at") == Some(Str(localeDate(Get(p, "created_at"))))
    ensures Get(r, "updated_at") == Some(Str(localeDate(Get(p, "updated_at"))))
    ensures forall k :: k !in {"name", "created_at", "updated_at"} ==> Get(r, k) == Get(p, k)
  {
    p["name" := Str(ToStr(Get(p, "first_name")) + " " + ToStr(Get(p, "last_name")))]
     ["created_at" := Str(localeDate(Get(p, "created_at")))]
     ["updated_at" := Str(localeDate(Get(p, "updated_at")))]
  }

  /** `response.data.map(...)`. */
  function PatientRows(data: seq<Record>, localeDate: Option<Value> -> string): (r: seq<Record>)
    ensures |r| == |data|
    ensures forall i :: 0 <= i < |data| ==> r[i] == PatientRow(data[i], localeDate)
  {
    seq(|data|, i requires 0 <= i < |data| => PatientRow(data[i], localeDate))
  }

  /** Flattening keeps every patient's status, so the counts are those of the raw records. */
  lemma {:induction false} StatusCountsOfRaw(data: seq<Record>, localeDate: Option<Value> -> string, status: string)
    ensures |WithStatus(PatientRows(data, localeDate), status)| == |WithStatus(data, status)|
    decreases |data|
  {
    if data != [] {
      var init := data[..|data| - 1];
      StatusCountsOfRaw(init, localeDate, status);
      assert PatientRows(data, localeDate)[..|data| - 1] == PatientRows(init, localeDate);
    }
  }

  /**
   * `fetchPatientData`: `reply` is the body of the request, or `None` when
   * it failed. A row whose rendered `created_at` the "new" test cannot read
   * back throws inside the `try`, which then ends like a failed request.
   */
  method FetchPatients(d: Dashboard, reply: Option<seq<Record>>, localeDate: Option<Value> -> string, isNew: DateTest)
    modifies d
    ensures !d.loading
    ensures d.modalOpen == old(d.modalOpen) && d.modalTitle == old(d.modalTitle)
    ensures reply.Some? && Answers(PatientRows(reply.value, localeDate), isNew) ==>
      d.patients == PatientRows(reply.value, localeDate) && d.summary == Summarize(d.patients, IsNew(isNew))
    ensures !(reply.Some? && Answers(PatientRows(reply.value, localeDate), isNew)) ==>
      d.patients == old(d.patients) && d.summary == old(d.summary)
  {
    if reply.Some? && Answers(PatientRows(reply.value, localeDate), isNew) {
      d.Loaded(PatientRows(reply.value, localeDate), IsNew(isNew));
    } else {
      d.LoadFailed();
    }
  }

  /** `handleOpenModal(type)`. */
  method HandleOpenModal(d: Dashboard, kind: string, isNew: DateTest)
    modifies d, d.table
    ensures d.table.rows == Select(kind, old(d.patients), IsNew(isNew))
    ensures d.modalTitle == ModalTitle(kind) && d.modalOpen
    ensures d.table.page == old(d.table.page) && d.table.rowsPerPage == old(d.table.rowsPerPage)
    ensures d.table.sort == old(d.table.sort)
    ensures d.patients == old(d.patients) && d.summary == old(d.summary) && d.loading == old(d.loading)
  {
    d.ShowModal(Select(kind, d.patients, IsNew(isNew)), ModalTitle(kind));
  }

  /** The action cell: an enabled "update" button unless the patient is dead, and nothing then. */
  function Action(row: Record): (a: RowAction)
    ensures a == NoAction <==> HasStatus(row, "Dead")
    ensures a.Button? ==> a == Button("update", false)
  {
    if HasStatus(row, "Dead") then NoAction else Button("update", false)
  }

  /** The age table of the pie chart. */
  const AgeGroups: seq<AgeGroup> := [
    AgeGroup("0-5", 0, 5), AgeGroup("6-15", 6, 15), AgeGroup("16-20", 16, 20),
    AgeGroup("21-30", 21, 30), AgeGroup("31-40", 31, 40), AgeGroup("41-50", 41, 50),
    AgeGroup("51-60", 51, 60), AgeGroup("61-70", 61, 70), AgeGroup("71-80", 71, 80)
  ]

  /** Every age from 0 to 80 lies in exactly one group; older patients lie in none. */
  lemma AgeGroupsPartition(n: int)
    ensures Membership(AgeGroups, n) == if 0 <= n <= 80 then 1 else 0
  {
    ContiguousMembership(AgeGroups, n);
  }

  /** The age pie accounts for the patients aged 0..80 only, once each. */
  lemma AgePieAccountsFor(rows: seq<Record>)
    ensures Total(AgePie(AgeGroups, rows)) == InRangeCount(rows, 0, 80)
  {
    AgePieTotal(AgeGroups, rows);
  }
}
