/** A sequence of key/value writes performed in order on a map, the shape
    shared by the three loops of the core that insert into a `HashMap`:
    the explicit metadata of an export item, the state mapper and the
    merging of state into a request body. A later write to a key replaces
    an earlier one. */
module Writes {
  import opened Wrappers

  /** The map after performing `ws` on `m`, first write first. */
  function ApplyWrites<K, V>(m: map<K, V>, ws: seq<(K, V)>): map<K, V>
  {
    if |ws| == 0 then m
    else ApplyWrites(m, ws[..|ws| - 1])[ws[|ws| - 1].0 := ws[|ws| - 1].1]
  }

  /** The value of the last write to `k` in `ws`, if `ws` writes `k`. */
  function LastWrite<K(==), V>(ws: seq<(K, V)>, k: K): (r: Option<V>)
    ensures r.None? <==> forall i :: 0 <= i < |ws| ==> ws[i].0 != k
    ensures r.Some? ==> exists i :: 0 <= i < |ws| && ws[i] == (k, r.value)
                                    && forall j :: i < j < |ws| ==> ws[j].0 != k
  {
    if |ws| == 0 then None
    else if ws[|ws| - 1].0 == k then Some(ws[|ws| - 1].1)
    else
      var r := LastWrite(ws[..|ws| - 1], k);
      assert forall i :: 0 <= i < |ws| - 1 ==> ws[..|ws| - 1][i] == ws[i];
      r
  }

  /** A key is in the result iff it was in `m` or is written; its value is
      that of its last write, or the old one when it is not written. */
  lemma {:induction false} ApplyWritesAt<K, V>(m: map<K, V>, ws: seq<(K, V)>, k: K)
    ensures k in ApplyWrites(m, ws) <==> k in m || LastWrite(ws, k).Some?
    ensures k in ApplyWrites(m, ws) ==>
              ApplyWrites(m, ws)[k] == if LastWrite(ws, k).Some? then LastWrite(ws, k).value else m[k]
  {
    if |ws| > 0 {
      ApplyWritesAt(m, ws[..|ws| - 1], k);
    }
  }

  /** Keys no write touches keep their presence and value. */
  lemma UntouchedByWrites<K, V>(m: map<K, V>, ws: seq<(K, V)>, k: K)
    requires forall i :: 0 <= i < |ws| ==> ws[i].0 != k
    ensures k in ApplyWrites(m, ws) <==> k in m
    ensures k in m ==> ApplyWrites(m, ws)[k] == m[k]
  {
    ApplyWritesAt(m, ws, k);
  }
}
