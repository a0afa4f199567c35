/**
 * The case-report list: all reports of `GET cases/` in a sortable, paged
 * table that starts sorted by date, newest first; local removal of a
 * deleted report; and the role gate of the "Add New Report" button.
 */
module CaseReports {
  import opened Js
  import opened CaseTable

  /** The filter callback `c => c.id !== caseId`. */
  function Other(caseId: Value): Record -> bool
  {
    c => Get(c, "id") != Some(caseId)
  }

  /** `prev.filter(c => c.id !== caseId)`. */
  function Without(cases: seq<Record>, caseId: Value): (r: seq<Record>)
    ensures forall c :: c in r <==> c in cases && Get(c, "id") != Some(caseId)
  {
    Filter(cases, Other(caseId))
  }

  /** Removing a report that occurs once drops exactly it and keeps the others in order. */
  lemma WithoutOne(before: seq<Record>, x: Record, after: seq<Record>, caseId: Value)
    requires Get(x, "id") == Some(caseId)
    requires forall c :: c in before + after ==> Get(c, "id") != Some(caseId)
    ensures Without(before + [x] + after, caseId) == before + after
  {
    var keep := Other(caseId);
    FilterAppend(before + [x], after, keep);
    FilterAppend(before, [x], keep);
    FilterAll(before, keep);
    FilterAll(after, keep);
    assert Filter([x], keep) == [];
    assert Filter(before + [x], keep) == before;
  }

  /** Deleting the same report again changes nothing. */
  lemma WithoutIdempotent(cases: seq<Record>, caseId: Value)
    ensures Without(Without(cases, caseId), caseId) == Without(cases, caseId)
  {
    FilterAll(Without(cases, caseId), Other(caseId));
  }

  /** `user && !['Doctor', 'HealthSupervisor'].includes(user.role)`. */
  function AddButtonShown(user: Option<Record>): (shown: bool)
    ensures shown <==> (user.Some? && Get(user.value, "role") != Some(Str("Doctor"))
                        && Get(user.value, "role") != Some(Str("HealthSupervisor")))
  {
    user.Some? && Get(user.value, "role") !in {Some(Str("Doctor")), Some(Str("HealthSupervisor"))}
  }

  /** The page's state: its table, whose data set is `cases`, and `loading`. */
  class CaseList {
    const table: TableView
    var loading: bool
    /** The paths of the `DELETE` requests sent, in order. */
    var deletes: seq<string>

    /** Initial state: no cases, loading, sorted by `date` descending, five rows per page. */
    constructor ()
      ensures fresh(table) && loading && deletes == []
      ensures table.rows == [] && table.page == 0 && table.rowsPerPage == 5
      ensures table.sort == SortState("date", Desc)
    {
      table := new TableView("date", Desc);
      loading := true;
      deletes := [];
    }

    /** `fetchCases`: `reply` is the response body, `None` when the request failed. */
    method FetchCases(reply: Option<seq<Record>>)
      modifies this, table
      ensures !loading && deletes == old(deletes)
      ensures table.rows == (if reply.Some? then reply.value else old(table.rows))
      ensures table.page == old(table.page) && table.rowsPerPage == old(table.rowsPerPage)
      ensures table.sort == old(table.sort)
    {
      if reply.Some? {
        table.SetRows(reply.value);
      }
      loading := false;
    }

    /**
     * `handleDelete(caseId)`: nothing happens unless the user confirms;
     * then `DELETE cases/<id>/` is sent, and only when it succeeds is the
     * report removed from the list.
     */
    method HandleDelete(caseId: Value, confirmed: bool, succeeded: bool)
      modifies this, table
      ensures deletes == old(deletes) + (if confirmed then ["cases/" + ToStr(Some(caseId)) + "/"] else [])
      ensures table.rows == (if confirmed && succeeded then Without(old(table.rows), caseId) else old(table.rows))
      ensures table.page == old(table.page) && table.rowsPerPage == old(table.rowsPerPage)
      ensures table.sort == old(table.sort) && loading == old(loading)
    {
      if !confirmed {
        return;
      }
      deletes := deletes + ["cases/" + ToStr(Some(caseId)) + "/"];
      if succeeded {
        table.SetRows(Without(table.rows, caseId));
      }
    }

    /** `totalRows`: the number of cases, not of the rows on the page. */
    function TotalRows(): (n: nat)
      reads this, table
      ensures n == |table.rows|
      ensures |table.Visible()| <= n
    {
      |table.rows|
    }
  }
}
