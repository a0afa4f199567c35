/**
 * The health-supervisor dashboard, which lists the case reports of
 * `GET cases/`. The Sheha dashboard repeats the same code (data shape,
 * counts, card titles, age table, sort, slice and action rule) and differs
 * only in having no map and no gender chart, so both pages are modelled
 * here; the map markers and the gender pie belong to the supervisor page.
 */
module CaseDashboard {
  import opened Js
  import opened CaseTable

  /** The card types `handleOpenModal` knows. */
  const Cards: set<string> := {"total", "new", "recovered", "deceased"}

  /** The title `handleOpenModal` gives the modal for each card type. */
  function ModalTitle(kind: string): (t: string)
    ensures t == "" <==> kind !in Cards
  {
    match kind
    case "total" => "All Cases"
    case "new" => "New Cases Today"
    case "recovered" => "Recovered Cases"
    case "deceased" => "Deceased Cases"
    case _ => ""
  }

  /**
   * `fetchPatientData`: `reply` is the body of `GET cases/`, or `None` when
   * the request failed. A row that cannot be flattened, or a row whose
   * rendered date the "new" test cannot read back, throws inside the same
   * `try`, so it ends like a failed request: only `loading` changes.
   */
  method FetchCases(d: Dashboard, reply: Option<seq<Record>>, localeDate: Option<Value> -> string, isNew: DateTest)
    modifies d
    ensures !d.loading
    ensures d.modalOpen == old(d.modalOpen) && d.modalTitle == old(d.modalTitle)
    ensures reply.Some? && CaseRows(reply.value, localeDate).Some? && Answers(CaseRows(reply.value, localeDate).value, isNew) ==>
      d.patients == CaseRows(reply.value, localeDate).value && d.summary == Summarize(d.patients, IsNew(isNew))
    ensures !(reply.Some? && CaseRows(reply.value, localeDate).Some? && Answers(CaseRows(reply.value, localeDate).value, isNew)) ==>
      d.patients == old(d.patients) && d.summary == old(d.summary)
  {
    var rows := if reply.Some? then CaseRows(reply.value, localeDate) else None;
    if rows.Some? && Answers(rows.value, isNew) {
      d.Loaded(rows.value, IsNew(isNew));
    } else {
      d.LoadFailed();
    }
  }

  /**
   * `handleOpenModal(type)`: the card's rows and title in the modal table,
   * page and sort kept. The rows were stored only after the same test had
   * answered for each of them.
   */
  method HandleOpenModal(d: Dashboard, kind: string, isNew: DateTest)
    modifies d, d.table
    ensures d.table.rows == Select(kind, old(d.patients), IsNew(isNew))
    ensures d.modalTitle == ModalTitle(kind) && d.modalOpen
    ensures d.table.page == old(d.table.page) && d.table.rowsPerPage == old(d.table.rowsPerPage)
    ensures d.table.sort == old(d.table.sort)
    ensures d.patients == old(d.patients) && d.summary == old(d.summary) && d.loading == old(d.loading)
  {
    d.ShowModal(Select(kind, d.patients, IsNew(isNew)), ModalTitle(kind));
  }

  /** The action cell of a table row: an "Update" button, disabled and captioned "Closed" for the dead. */
  function Action(row: Record): (a: RowAction)
    ensures a.Button?
    ensures a.disabled <==> HasStatus(row, "Dead")
    ensures a.caption == (if HasStatus(row, "Dead") then "Closed" else "Update")
  {
    var dead := HasStatus(row, "Dead");
    Button(if dead then "Closed" else "Update", dead)
  }

  /** Every dead patient's row is closed, every other row can be updated. */
  lemma ActionsOfPage(t: seq<Record>, s: SortState, page: nat, rpp: nat)
    ensures forall x :: x in PageSlice(Sort(t, s), page, rpp) ==>
      (Action(x).disabled <==> HasStatus(x, "Dead")) && x in t
  {
    SortPermutation(t, s);
    SliceSubMultiset(Sort(t, s), page, rpp);
    forall x | x in PageSlice(Sort(t, s), page, rpp) ensures x in t {
      assert x in multiset(PageSlice(Sort(t, s), page, rpp));
    }
  }

  /** The age table of the pie chart. */
  const AgeGroups: seq<AgeGroup> := [
    AgeGroup("0-5", 0, 5), AgeGroup("6-15", 6, 15), AgeGroup("16-25", 16, 25),
    AgeGroup("26-35", 26, 35), AgeGroup("36-45", 36, 45), AgeGroup("46-55", 46, 55),
    AgeGroup("56-65", 56, 65), AgeGroup("66+", 66, 120)
  ]

  /** Every age from 0 to 120 lies in exactly one group; no other age lies in any. */
  lemma AgeGroupsPartition(n: int)
    ensures Membership(AgeGroups, n) == if 0 <= n <= 120 then 1 else 0
  {
    ContiguousMembership(AgeGroups, n);
  }

  /** The age pie accounts for every patient whose age converts to a number in 0..120, once each. */
  lemma AgePieAccountsForAll(rows: seq<Record>)
    ensures Total(AgePie(AgeGroups, rows)) == InRangeCount(rows, 0, 120)
  {
    AgePieTotal(AgeGroups, rows);
  }

  /** Ages that are not numbers still count when they convert to one: null is 0, "30" is 30. */
  lemma CoercedAgesCounted()
    ensures InGroup(map["age" := Null], AgeGroup("0-5", 0, 5))
    ensures InGroup(map["age" := Str("30")], AgeGroup("26-35", 26, 35))
  {
    ThirtyConverts("30");
  }

  lemma ThirtyConverts(t: string)
    requires t == "30"
    ensures ToNumber(Some(Str(t))) == Some(30)
  {
    DigitsValueOfDigits(30);
    assert Digits(30) == t;
    DigitTextToNumber(t);
  }

  /** The text "thirty" and a missing age convert to NaN and fall in no group. */
  lemma UnconvertibleAgesUncounted(g: AgeGroup)
    ensures !InGroup(map["age" := Str("thirty")], g)
    ensures !InGroup(map[], g)
  {
    WordTextToNumber("thirty");
  }

  const Genders: seq<string> := ["Male", "Female"]

  /** `pieGenderData`: a slice for "Male" and one for "Female", each only when non-empty. */
  function GenderPie(rows: seq<Record>): (r: seq<PieSlice>)
    ensures |r| <= 2
    ensures forall e :: e in r <==>
      ((e.name == "Male" || e.name == "Female") && e.value == CategorySize(rows, "gender", e.name) && e.value > 0)
  {
    var r := CategoryPie("gender", Genders, rows);
    var slices := CategorySlices("gender", Genders, rows);
    assert forall e :: e in slices <==> e == slices[0] || e == slices[1];
    r
  }

  /** Marker colours of the map: the theme's success, error and primary colours. */
  datatype Colour = SuccessMain | ErrorMain | PrimaryMain

  /** `getMarkerColor(status)`. */
  function MarkerColor(status: Option<Value>): (c: Colour)
    ensures c == SuccessMain <==> status == Some(Str("Recovered"))
    ensures c == ErrorMain <==> status == Some(Str("Dead"))
  {
    match status
    case Some(Str("Recovered")) => SuccessMain
    case Some(Str("Dead")) => ErrorMain
    case _ => PrimaryMain
  }

  datatype Marker = Marker(row: Record, colour: Colour)

  predicate Located(row: Record)
  {
    Truthy(Get(row, "street_location"))
  }

  /** The clustered markers: one per patient with a truthy `street_location`, coloured by status. */
  function Markers(rows: seq<Record>): (r: seq<Marker>)
    ensures |r| == |Filter(rows, Located)|
    ensures forall m :: m in r ==> m.row in rows && Located(m.row) && m.colour == MarkerColor(Get(m.row, "status"))
    ensures forall x :: x in rows && Located(x) ==> Marker(x, MarkerColor(Get(x, "status"))) in r
  {
    var located := Filter(rows, Located);
    var r := seq(|located|, i requires 0 <= i < |located| => Marker(located[i], MarkerColor(Get(located[i], "status"))));
    assert forall x :: x in located ==> Marker(x, MarkerColor(Get(x, "status"))) in r by {
      forall x | x in located ensures Marker(x, MarkerColor(Get(x, "status"))) in r {
        var i :| 0 <= i < |located| && located[i] == x;
        assert r[i] == Marker(x, MarkerColor(Get(x, "status")));
      }
    }
    r
  }
}
