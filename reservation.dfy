/** The reservation page: the list of table reservations, the create/edit dialog and deletion. */
module Reservation {
  import opened Wrappers
  import opened Lists
  import opened Records

  /** A calendar date, kept abstract: the page only stores and compares it. */
  datatype Date = Date(stamp: int)

  /** The fields of a reservation besides its id. */
  datatype ReservationInfo = ReservationInfo(name: string, date: Date, time: string, guests: int, phone: string, table: string)

  type Reservations = seq<Keyed<ReservationInfo>>

  /** The form a new reservation starts from, dated `today`. */
  function BlankForm(today: Date): (f: ReservationInfo)
    ensures f.date == today && f.guests == 2
    ensures f.name == "" && f.time == "" && f.phone == "" && f.table == ""
  {
    ReservationInfo("", today, "", 2, "", "")
  }

  /** The form passes validation: name, time, phone and table are all filled in. */
  predicate ValidForm(f: ReservationInfo)
  {
    f.name != "" && f.time != "" && f.phone != "" && f.table != ""
  }

  /** `reservations.filter(r => r.id !== id)`. */
  function WithoutId(rs: Reservations, id: int): (r: Reservations)
    ensures IsSubsequence(r, rs)
    ensures forall x :: x in r <==> x in rs && x.id != id
    ensures forall x :: multiset(r)[x] == if x.id != id then multiset(rs)[x] else 0
  {
    var keep := (x: Keyed<ReservationInfo>) => x.id != id;
    FilterSubsequence(rs, keep);
    FilterCount(rs, keep);
    Filter(rs, keep)
  }

  /** Deleting an id no reservation has changes nothing. */
  lemma DeleteAbsentIsNoOp(rs: Reservations, id: int)
    requires forall i :: 0 <= i < |rs| ==> rs[i].id != id
    ensures WithoutId(rs, id) == rs
  {
    FilterKeepsAll(rs, (x: Keyed<ReservationInfo>) => x.id != id);
  }

  /** Deleting an id that occurs once among unique ids removes exactly one reservation. */
  lemma {:induction false} DeletePresentRemovesOne(rs: Reservations, id: int)
    requires UniqueIds(rs)
    requires exists i :: 0 <= i < |rs| && rs[i].id == id
    ensures |WithoutId(rs, id)| == |rs| - 1
    ensures UniqueIds(WithoutId(rs, id))
    decreases |rs|
  {
    var p := (x: Keyed<ReservationInfo>) => x.id != id;
    assert rs == [rs[0]] + rs[1..];
    assert UniqueIds(rs[1..]) by {
      forall i, j | 0 <= i < j < |rs[1..]| ensures rs[1..][i].id != rs[1..][j].id {
        assert rs[1..][i] == rs[i + 1] && rs[1..][j] == rs[j + 1];
      }
    }
    if rs[0].id == id {
      forall i | 0 <= i < |rs[1..]| ensures p(rs[1..][i]) {
        assert rs[1..][i] == rs[i + 1];
      }
      FilterKeepsAll(rs[1..], p);
    } else {
      var i :| 0 <= i < |rs| && rs[i].id == id;
      assert rs[1..][i - 1] == rs[i];
      DeletePresentRemovesOne(rs[1..], id);
    }
    UniqueIdsOfSubsequence(WithoutId(rs, id), rs);
  }

  /** A subsequence of records with unique ids has unique ids. */
  lemma {:induction false} UniqueIdsOfSubsequence(r: Reservations, s: Reservations)
    requires IsSubsequence(r, s) && UniqueIds(s)
    ensures UniqueIds(r)
    decreases |s|
  {
    var ids, sids := Ids(r), Ids(s);
    assert forall i :: 0 <= i < |r| ==> ids[i] == r[i].id;
    assert forall i :: 0 <= i < |s| ==> sids[i] == s[i].id;
    assert NoDuplicates(sids) by {
      forall i, j | 0 <= i < j < |sids| ensures sids[i] != sids[j] {
      }
    }
    IdsOfSubsequence(r, s);
    SubsequenceNoDuplicates(ids, sids);
  }

  /** The ids of a subsequence form a subsequence of the ids. */
  lemma {:induction false} IdsOfSubsequence(r: Reservations, s: Reservations)
    requires IsSubsequence(r, s)
    ensures IsSubsequence(Ids(r), Ids(s))
    decreases |s|
  {
    if s != [] {
      assert Ids(s)[1..] == Ids(s[1..]);
      if r != [] && r[0] == s[0] && IsSubsequence(r[1..], s[1..]) {
        assert Ids(r)[1..] == Ids(r[1..]);
        IdsOfSubsequence(r[1..], s[1..]);
      } else {
        IdsOfSubsequence(r, s[1..]);
      }
    }
  }

  /** The page's state: the reservations, the one being edited (if any) and the dialog's form. */
  class ReservationPage {
    var reservations: Reservations
    var selected: Option<Keyed<ReservationInfo>>
    var form: ReservationInfo

    constructor (initial: Reservations, today: Date)
      ensures reservations == initial && selected == None && form == BlankForm(today)
    {
      reservations := initial;
      selected := None;
      form := BlankForm(today);
    }

    /** `handleNewReservation`: no selection and a blank form dated today. */
    method HandleNewReservation(today: Date)
      modifies this
      ensures reservations == old(reservations) && selected == None && form == BlankForm(today)
    {
      selected := None;
      form := BlankForm(today);
    }

    /** `handleEditReservation`: select a reservation and copy its fields into the form. */
    method HandleEditReservation(r: Keyed<ReservationInfo>)
      modifies this
      ensures reservations == old(reservations) && selected == Some(r) && form == r.info
    {
      selected := Some(r);
      form := r.info;
    }

    /** `handleDeleteReservation`: drop the reservations with that id, keeping the rest in order. */
    method HandleDeleteReservation(id: int)
      modifies this
      ensures reservations == WithoutId(old(reservations), id)
      ensures selected == old(selected) && form == old(form)
      ensures UniqueIds(old(reservations)) ==> UniqueIds(reservations)
    {
      if UniqueIds(reservations) {
        UniqueIdsOfSubsequence(WithoutId(reservations, id), reservations);
      }
      reservations := WithoutId(reservations, id);
    }

    /** `handleDateChange`: a picked date goes into the form; no date leaves the form as it is. */
    method HandleDateChange(date: Option<Date>)
      modifies this
      ensures reservations == old(reservations) && selected == old(selected)
      ensures date.None? ==> form == old(form)
      ensures date.Some? ==> form == old(form).(date := date.value)
    {
      if date.Some? {
        form := form.(date := date.value);
      }
    }

    /**
     * `handleSubmit`: an incomplete form changes nothing; otherwise an edit
     * gives the form's fields to the record with the selected id, and a new
     * reservation is appended with a fresh id.
     */
    method HandleSubmit() returns (accepted: bool)
      modifies this
      ensures accepted <==> ValidForm(old(form))
      ensures selected == old(selected) && form == old(form)
      ensures !accepted ==> reservations == old(reservations)
      ensures accepted && selected.Some? ==> reservations == ReplaceInfo(old(reservations), selected.value.id, form)
      ensures accepted && selected.None? ==> reservations == AppendFresh(old(reservations), form)
      ensures UniqueIds(old(reservations)) ==> UniqueIds(reservations)
    {
      if form.name == "" || form.time == "" || form.phone == "" || form.table == "" {
        return false;
      }
      if selected.Some? {
        reservations := ReplaceInfo(reservations, selected.value.id, form);
      } else {
        reservations := AppendFresh(reservations, form);
      }
      accepted := true;
    }
  }
}
