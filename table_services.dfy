/** The table-services page: the floor plan's tables and the dialog that changes a table's status. */
module TableServices {
  import opened Wrappers
  import opened Lists
  import opened Records

  /** The fields of a table besides its id. */
  datatype TableInfo = TableInfo(number: string, status: string, customer: string, time: string)

  type Tables = seq<Keyed<TableInfo>>

  /** The dialog's form. */
  datatype Form = Form(customer: string, status: string, time: string)

  /** What a submit did: refused by validation, updated the tables, or failed for want of a selected table. */
  datatype Outcome = Rejected | Updated | NoSelection

  /** Validation: a table that is not "Available" needs a customer name. */
  predicate ValidForm(f: Form)
  {
    f.status == "Available" || f.customer != ""
  }

  /** The time a table gets: none when available, else the form's time, or the current time when that is empty. */
  function NewTime(f: Form, now: string): (t: string)
    ensures f.status == "Available" ==> t == ""
    ensures f.status != "Available" && f.time != "" ==> t == f.time
    ensures f.status != "Available" && f.time == "" ==> t == now
  {
    if f.status == "Available" then "" else if f.time != "" then f.time else now
  }

  /** The table with the form applied: number and id kept, status, customer and time overwritten. */
  function Apply(t: Keyed<TableInfo>, f: Form, now: string): (r: Keyed<TableInfo>)
    ensures r.id == t.id && r.info.number == t.info.number
    ensures r.info.status == f.status && r.info.customer == f.customer && r.info.time == NewTime(f, now)
  {
    Keyed(t.id, t.info.(status := f.status, customer := f.customer, time := NewTime(f, now)))
  }

  /** The tables after a submit for table `id`: that table updated, every other one as it was. */
  function UpdatedTables(ts: Tables, id: int, f: Form, now: string): (r: Tables)
    ensures |r| == |ts|
    ensures forall i :: 0 <= i < |ts| ==> r[i].id == ts[i].id && r[i].info.number == ts[i].info.number
    ensures forall i :: 0 <= i < |ts| && ts[i].id == id ==> r[i] == Apply(ts[i], f, now)
    ensures forall i :: 0 <= i < |ts| && ts[i].id != id ==> r[i] == ts[i]
  {
    MapWhere(ts, (t: Keyed<TableInfo>) => t.id == id, (t: Keyed<TableInfo>) => Apply(t, f, now))
  }

  /** Updating a table keeps the ids unique and updates exactly one table when its id occurs once. */
  lemma UpdateKeepsIds(ts: Tables, id: int, f: Form, now: string)
    ensures Ids(UpdatedTables(ts, id, f, now)) == Ids(ts)
    ensures UniqueIds(ts) ==> UniqueIds(UpdatedTables(ts, id, f, now))
  {
  }

  /** The page's state: the tables, the table clicked last (if any) and the dialog's form. */
  class TableServicesPage {
    var tables: Tables
    var selected: Option<Keyed<TableInfo>>
    var form: Form

    constructor (initial: Tables)
      ensures tables == initial && selected == None && form == Form("", "Available", "")
    {
      tables := initial;
      selected := None;
      form := Form("", "Available", "");
    }

    /** `handleTableClick`: select the table and copy its customer, status and time into the form. */
    method HandleTableClick(t: Keyed<TableInfo>)
      modifies this
      ensures tables == old(tables) && selected == Some(t)
      ensures form == Form(t.info.customer, t.info.status, t.info.time)
    {
      selected := Some(t);
      form := Form(t.info.customer, t.info.status, t.info.time);
    }

    /**
     * `handleSubmit`, with `now` the current time of day as the page formats
     * it: an invalid form changes nothing; otherwise the selected table gets
     * the form's status and customer and its new time. Without a selected
     * table the page would fail reading its id; the tables stay as they were.
     */
    method HandleSubmit(now: string) returns (outcome: Outcome)
      modifies this
      ensures selected == old(selected) && form == old(form)
      ensures outcome == Rejected <==> !ValidForm(form)
      ensures outcome == NoSelection <==> ValidForm(form) && selected.None?
      ensures outcome != Updated ==> tables == old(tables)
      ensures outcome == Updated ==> tables == UpdatedTables(old(tables), selected.value.id, form, now)
      ensures UniqueIds(old(tables)) ==> UniqueIds(tables)
    {
      if form.status != "Available" && form.customer == "" {
        return Rejected;
      }
      if selected.None? {
        return NoSelection;
      }
      tables := UpdatedTables(tables, selected.value.id, form, now);
      outcome := Updated;
    }
  }
}
