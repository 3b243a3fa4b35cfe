/**
 * Lists of records keyed by a numeric `id`, as the admin pages keep them in
 * state: a fresh id is `Math.max(0, ...ids) + 1`, an edit replaces the
 * fields of the records with the selected id, a delete filters them out.
 */
module Records {
  import opened Lists

  /** A record: its numeric `id` and the rest of its fields. */
  datatype Keyed<F> = Keyed(id: int, info: F)

  /** The ids of a list of records, in order. */
  function Ids<F>(s: seq<Keyed<F>>): (r: seq<int>)
    ensures |r| == |s|
  {
    seq(|s|, i requires 0 <= i < |s| => s[i].id)
  }

  /** No two records share an id. */
  predicate UniqueIds<F>(s: seq<Keyed<F>>)
  {
    forall i, j :: 0 <= i < j < |s| ==> s[i].id != s[j].id
  }

  /**
   * `Math.max(0, ...s.map(r => r.id)) + 1`: at least 1, above every id in
   * use, and one more than either 0 or an id in use.
   */
  function FreshId<F>(s: seq<Keyed<F>>): (n: int)
    ensures n >= 1
    ensures forall i :: 0 <= i < |s| ==> s[i].id < n
    ensures n == 1 || exists i :: 0 <= i < |s| && s[i].id == n - 1
    ensures s == [] ==> n == 1
  {
    var ids := Ids(s);
    assert forall i :: 0 <= i < |s| ==> ids[i] == s[i].id;
    MaxOrZero(ids) + 1
  }

  /**
   * The fresh id is exactly one more than the maximum of 0 and the ids in
   * use: any `m` that bounds 0 and every id and is 0 or an id gives `m + 1`.
   */
  lemma FreshIdIsMaxPlusOne<F>(s: seq<Keyed<F>>, m: int)
    requires 0 <= m && forall i :: 0 <= i < |s| ==> s[i].id <= m
    requires m == 0 || exists i :: 0 <= i < |s| && s[i].id == m
    ensures FreshId(s) == m + 1
  {
    var n := FreshId(s);
    if n - 1 != 0 {
      var i :| 0 <= i < |s| && s[i].id == n - 1;
      assert n - 1 <= m;
    }
    if m != 0 {
      var j :| 0 <= j < |s| && s[j].id == m;
      assert m < n;
    }
  }

  /** `[...s, { ...info, id: FreshId(s) }]`. */
  function AppendFresh<F>(s: seq<Keyed<F>>, info: F): (r: seq<Keyed<F>>)
    ensures |r| == |s| + 1 && r[..|s|] == s
    ensures r[|s|] == Keyed(FreshId(s), info)
    ensures UniqueIds(s) ==> UniqueIds(r)
  {
    s + [Keyed(FreshId(s), info)]
  }

  /** `[{ ...info, id: FreshId(s) }, ...s]`. */
  function PrependFresh<F>(s: seq<Keyed<F>>, info: F): (r: seq<Keyed<F>>)
    ensures |r| == |s| + 1 && r[1..] == s
    ensures r[0] == Keyed(FreshId(s), info)
    ensures UniqueIds(s) ==> UniqueIds(r)
  {
    [Keyed(FreshId(s), info)] + s
  }

  /**
   * `s.map(r => r.id === id ? { ...info, id: r.id } : r)`: every record with
   * the selected id gets the new fields and keeps its id; the others stay.
   */
  function ReplaceInfo<F>(s: seq<Keyed<F>>, id: int, info: F): (r: seq<Keyed<F>>)
    ensures |r| == |s|
    ensures forall i :: 0 <= i < |s| ==> r[i].id == s[i].id
    ensures forall i :: 0 <= i < |s| && s[i].id == id ==> r[i].info == info
    ensures forall i :: 0 <= i < |s| && s[i].id != id ==> r[i] == s[i]
    ensures UniqueIds(s) ==> UniqueIds(r)
  {
    MapWhere(s, (x: Keyed<F>) => x.id == id, (x: Keyed<F>) => Keyed(x.id, info))
  }

  /** Replacing the fields of an id no record has changes nothing. */
  lemma ReplaceAbsentIsNoOp<F>(s: seq<Keyed<F>>, id: int, info: F)
    requires forall i :: 0 <= i < |s| ==> s[i].id != id
    ensures ReplaceInfo(s, id, info) == s
  {
  }
}
