/** A primary map with one secondary index beside it, as the in-memory store keeps several of. */
module Indexes {
  import opened Wrappers

  datatype Table<R> = Table(rows: map<string, R>, index: map<string, string>)

  // An empty secondary key is not indexed; an old index entry is never taken out.
  function Put<R>(t: Table<R>, id: string, secondary: string, r: R): Table<R> {
    Table(t.rows[id := r], if secondary == "" then t.index else t.index[secondary := id])
  }

  function Get<R>(t: Table<R>, id: string): Option<R> {
    if id in t.rows then Some(t.rows[id]) else None
  }

  function Lookup<R>(t: Table<R>, secondary: string): Option<R> {
    if secondary in t.index then Get(t, t.index[secondary]) else None
  }

  // The first row, in the given order of ids, whose key is `secondary`.
  function Scan<R>(rows: map<string, R>, order: seq<string>, key: R -> string, secondary: string): Option<R> {
    if order == [] then None
    else if order[0] in rows && key(rows[order[0]]) == secondary then Some(rows[order[0]])
    else Scan(rows, order[1..], key, secondary)
  }

  // The index has an entry for every row with a key, and for nothing else.
  ghost predicate Agrees<R>(t: Table<R>, key: R -> string) {
    && (forall id :: id in t.rows && key(t.rows[id]) != "" ==>
                       key(t.rows[id]) in t.index && t.index[key(t.rows[id])] == id)
    && (forall s :: s in t.index ==> s != "" && t.index[s] in t.rows && key(t.rows[t.index[s]]) == s)
  }

  /** Where the index agrees with the rows, a lookup is a linear scan, in whatever order the rows come. */
  lemma {:induction false} LookupIsScan<R>(t: Table<R>, key: R -> string, order: seq<string>, secondary: string)
    requires Agrees(t, key) && secondary != ""
    requires forall id :: id in t.rows ==> id in order
    ensures Lookup(t, secondary) == Scan(t.rows, order, key, secondary)
  {
    if secondary in t.index {
      ScanFinds(t, key, order, secondary);
    } else {
      ScanMisses(t.rows, order, key, secondary);
    }
  }

  lemma {:induction false} ScanFinds<R>(t: Table<R>, key: R -> string, order: seq<string>, secondary: string)
    requires Agrees(t, key) && secondary in t.index && t.index[secondary] in order
    ensures Scan(t.rows, order, key, secondary) == Some(t.rows[t.index[secondary]])
  {
    if !(order[0] in t.rows && key(t.rows[order[0]]) == secondary) {
      ScanFinds(t, key, order[1..], secondary);
    }
  }

  lemma {:induction false} ScanMisses<R>(rows: map<string, R>, order: seq<string>, key: R -> string, secondary: string)
    requires forall id :: id in rows ==> key(rows[id]) != secondary
    ensures Scan(rows, order, key, secondary) == None
  {
    if order != [] {
      ScanMisses(rows, order[1..], key, secondary);
    }
  }

  // No other row has the key, and the row's own key is not changed once it is set.
  ghost predicate FitsIndex<R>(t: Table<R>, key: R -> string, id: string, r: R) {
    && (key(r) != "" ==> forall other :: other in t.rows && other != id ==> key(t.rows[other]) != key(r))
    && (id in t.rows ==> key(t.rows[id]) == "" || key(t.rows[id]) == key(r))
  }

  /** The exact condition for one write to keep the agreement. */
  lemma PutKeepsAgreementIff<R>(t: Table<R>, key: R -> string, id: string, r: R)
    requires Agrees(t, key)
    ensures Agrees(Put(t, id, key(r), r), key) <==> FitsIndex(t, key, id, r)
  {
    var t' := Put(t, id, key(r), r);
    if Agrees(t', key) {
      forall other | other in t.rows && other != id && key(r) != ""
        ensures key(t.rows[other]) != key(r)
      {
        assert t'.rows[other] == t.rows[other];
      }
      if id in t.rows && key(t.rows[id]) != "" {
        assert t.index[key(t.rows[id])] == id;
        assert key(t.rows[id]) in t'.index;
      }
    }
    if FitsIndex(t, key, id, r) {
      forall s | s in t'.index
        ensures s != "" && t'.index[s] in t'.rows && key(t'.rows[t'.index[s]]) == s
      {
        if s != key(r) {
          assert s in t.index;
        }
      }
    }
  }

  // ----- Any sequence of writes -----

  datatype Write<R> = Write(id: string, record: R)

  function PutAll<R>(writes: seq<Write<R>>, key: R -> string): Table<R> {
    if writes == [] then Table(map[], map[])
    else
      var w := writes[|writes| - 1];
      Put(PutAll(writes[..|writes| - 1], key), w.id, key(w.record), w.record)
  }

  ghost predicate AlwaysAgrees<R>(writes: seq<Write<R>>, key: R -> string) {
    Agrees(PutAll(writes, key), key) && (writes == [] || AlwaysAgrees(writes[..|writes| - 1], key))
  }

  ghost predicate Compatible<R>(earlier: Write<R>, later: Write<R>, key: R -> string) {
    key(earlier.record) == ""
    || if earlier.id == later.id then key(earlier.record) == key(later.record)
       else key(earlier.record) != key(later.record)
  }

  // Secondary keys are unique, and never change once set.
  ghost predicate UniqueAndFixed<R>(writes: seq<Write<R>>, key: R -> string) {
    forall i, j :: 0 <= i < j < |writes| ==> Compatible(writes[i], writes[j], key)
  }

  /** Every index entry points at an existing record, after any writes at all. */
  lemma {:induction false} EntriesPointAtRecords<R>(writes: seq<Write<R>>, key: R -> string, secondary: string)
    requires secondary in PutAll(writes, key).index
    ensures PutAll(writes, key).index[secondary] in PutAll(writes, key).rows
  {
    var n := |writes| - 1;
    if secondary in PutAll(writes[..n], key).index {
      EntriesPointAtRecords(writes[..n], key, secondary);
    }
  }

  // Each row is what some write stored, and a key that was ever written is still the row's key.
  ghost predicate Tracks<R>(t: Table<R>, writes: seq<Write<R>>, key: R -> string) {
    && (forall id :: id in t.rows ==> exists i :: 0 <= i < |writes| && writes[i] == Write(id, t.rows[id]))
    && (forall i :: 0 <= i < |writes| ==> writes[i].id in t.rows)
    && (forall i :: 0 <= i < |writes| && key(writes[i].record) != "" ==>
                      key(t.rows[writes[i].id]) == key(writes[i].record))
  }

  lemma {:induction false} WritesAreTracked<R>(writes: seq<Write<R>>, key: R -> string)
    requires UniqueAndFixed(writes, key)
    ensures Tracks(PutAll(writes, key), writes, key)
  {
    if writes != [] {
      var n := |writes| - 1;
      WritesAreTracked(writes[..n], key);
      var t, t' := PutAll(writes[..n], key), PutAll(writes, key);
      forall id | id in t'.rows
        ensures exists i :: 0 <= i < |writes| && writes[i] == Write(id, t'.rows[id])
      {
        if id == writes[n].id {
          assert writes[n] == Write(id, t'.rows[id]);
        } else {
          var i :| 0 <= i < n && writes[..n][i] == Write(id, t.rows[id]);
          assert writes[i] == Write(id, t'.rows[id]);
        }
      }
      forall i | 0 <= i < |writes|
        ensures writes[i].id in t'.rows
        ensures key(writes[i].record) != "" ==> key(t'.rows[writes[i].id]) == key(writes[i].record)
      {
        if i < n {
          assert writes[..n][i] == writes[i] && Compatible(writes[i], writes[n], key);
        }
      }
    }
  }

  lemma FitsIffCompatible<R>(t: Table<R>, writes: seq<Write<R>>, key: R -> string, w: Write<R>)
    requires Tracks(t, writes, key)
    ensures FitsIndex(t, key, w.id, w.record)
            <==> forall i :: 0 <= i < |writes| ==> Compatible(writes[i], w, key)
  {
    if FitsIndex(t, key, w.id, w.record) {
      forall i | 0 <= i < |writes|
        ensures Compatible(writes[i], w, key)
      {
        assert writes[i].id in t.rows;
      }
    }
    if forall i :: 0 <= i < |writes| ==> Compatible(writes[i], w, key) {
      forall id | id in t.rows
        ensures id != w.id && key(w.record) != "" ==> key(t.rows[id]) != key(w.record)
        ensures id == w.id ==> key(t.rows[id]) == "" || key(t.rows[id]) == key(w.record)
      {
        var i :| 0 <= i < |writes| && writes[i] == Write(id, t.rows[id]);
        assert Compatible(writes[i], w, key);
      }
    }
  }

  lemma UniqueAndFixedStep<R>(init: seq<Write<R>>, last: Write<R>, key: R -> string)
    ensures UniqueAndFixed(init + [last], key)
            <==> UniqueAndFixed(init, key) && forall i :: 0 <= i < |init| ==> Compatible(init[i], last, key)
  {
    var writes := init + [last];
    if UniqueAndFixed(writes, key) {
      forall i, j | 0 <= i < j < |init|
        ensures Compatible(init[i], init[j], key)
      {
        assert Compatible(writes[i], writes[j], key);
      }
      forall i | 0 <= i < |init|
        ensures Compatible(init[i], last, key)
      {
        assert Compatible(writes[i], writes[|init|], key);
      }
    }
  }

  /** The index agrees with the rows throughout a run of writes if and only if secondary keys are unique
      and never change once set. */
  lemma {:induction false} AlwaysAgreesIff<R>(writes: seq<Write<R>>, key: R -> string)
    ensures AlwaysAgrees(writes, key) <==> UniqueAndFixed(writes, key)
  {
    if writes != [] {
      var init, last := writes[..|writes| - 1], writes[|writes| - 1];
      AlwaysAgreesIff(init, key);
      assert writes == init + [last];
      UniqueAndFixedStep(init, last, key);
      if UniqueAndFixed(init, key) {
        WritesAreTracked(init, key);
        FitsIffCompatible(PutAll(init, key), init, key, last);
        PutKeepsAgreementIff(PutAll(init, key), key, last.id, last.record);
      }
    }
  }

  /** A record whose key moves leaves its old index entry behind: the index still finds it under a key that
      it does not have any more. */
  lemma MovedKeyIsStale()
    ensures var key := (r: string) => r;
            var writes := [Write("id", "old"), Write("id", "new")];
            var t := PutAll(writes, key);
            Lookup(t, "old") == Some("new") && Scan(t.rows, ["id"], key, "old") == None && !AlwaysAgrees(writes, key)
  {
    var key := (r: string) => r;
    var first, second := Write("id", "old"), Write("id", "new");
    assert [first, second][..1] == [first] && [first][..0] == [];
    assert "old"[0] != "new"[0];
    assert PutAll([first], key) == Table(map["id" := "old"], map["old" := "id"]);
    var t := PutAll([first, second], key);
    assert t.rows == map["id" := "new"] && t.index["old"] == "id";
    assert ["id"][1..] == [];
    assert Scan(t.rows, ["id"][1..], key, "old") == None;
  }
}
