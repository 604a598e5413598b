/** Rows keyed by their GitHub node id, and the table such a list stands for. */
module Records {

  /** A GitHub node id. */
  datatype Id = Id(text: string)

  datatype Record<+R> = Record(id: Id, row: R)

  /** The node ids of a list of records. */
  function Ids<R>(recs: seq<Record<R>>): set<Id> {
    set i | 0 <= i < |recs| :: recs[i].id
  }

  lemma IdsSnoc<R>(recs: seq<Record<R>>, rec: Record<R>)
    ensures Ids(recs + [rec]) == Ids(recs) + {rec.id}
  {
    var all := recs + [rec];
    assert rec == all[|recs|];
    assert forall i :: 0 <= i < |recs| ==> recs[i] == all[i];
  }

  /** No node id occurs twice. */
  ghost predicate Distinct<R>(recs: seq<Record<R>>) {
    forall i, j :: 0 <= i < j < |recs| ==> recs[i].id != recs[j].id
  }

  /** The table a list of records stands for; a later record would win. */
  function RowMap<R>(recs: seq<Record<R>>): map<Id, R> {
    if recs == [] then map[]
    else
      var last := |recs| - 1;
      RowMap(recs[..last])[recs[last].id := recs[last].row]
  }

  lemma {:induction false} RowMapKeys<R>(recs: seq<Record<R>>)
    ensures RowMap(recs).Keys == Ids(recs)
  {
    if recs != [] {
      var last := |recs| - 1;
      RowMapKeys(recs[..last]);
      IdsSnoc(recs[..last], recs[last]);
      assert recs == recs[..last] + [recs[last]];
    }
  }

  /** With distinct ids no record is shadowed. */
  lemma {:induction false} RowMapAt<R>(recs: seq<Record<R>>, i: nat)
    requires Distinct(recs) && i < |recs|
    ensures recs[i].id in RowMap(recs) && RowMap(recs)[recs[i].id] == recs[i].row
  {
    var last := |recs| - 1;
    if i < last {
      RowMapAt(recs[..last], i);
    }
  }

  lemma RowMapSnoc<R>(recs: seq<Record<R>>, k: nat)
    requires k < |recs|
    ensures RowMap(recs[..k + 1]) == RowMap(recs[..k])[recs[k].id := recs[k].row]
    ensures Distinct(recs) ==> recs[k].id !in RowMap(recs[..k])
  {
    assert recs[..k + 1][..k] == recs[..k];
    RowMapKeys(recs[..k]);
  }
}
