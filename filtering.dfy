/** `Iterator::filter_map` over a `Result`-returning step, as used to turn
    records into items while dropping the ones that fail. */
module Filtering {
  import opened Wrappers

  /** The successful results of `f` over `s`, in order. */
  function KeepOk<A, B, E>(f: A -> Result<B, E>, s: seq<A>): (kept: seq<B>)
    ensures |kept| <= |s|
  {
    if |s| == 0 then []
    else
      var prev := KeepOk(f, s[..|s| - 1]);
      match f(s[|s| - 1])
      case Success(b) => prev + [b]
      case Failure(_) => prev
  }

  /** `idx` lists in increasing order the positions of `s` where `f`
      succeeds, and `kept` holds the results there. */
  ghost predicate Picks<A, B, E>(f: A -> Result<B, E>, s: seq<A>, kept: seq<B>, idx: seq<nat>) {
    && |idx| == |kept|
    && (forall j :: 0 <= j < |idx| ==> idx[j] < |s| && f(s[idx[j]]) == Success(kept[j]))
    && (forall j, k :: 0 <= j < k < |idx| ==> idx[j] < idx[k])
    && (forall i :: 0 <= i < |s| && f(s[i]).Success? ==> i in idx)
  }

  /** The positions of `s` where `f` succeeds, in increasing order. */
  function Successes<A, B, E>(f: A -> Result<B, E>, s: seq<A>): (idx: seq<nat>)
    ensures |idx| == |KeepOk(f, s)|
  {
    if |s| == 0 then []
    else
      var prev := Successes(f, s[..|s| - 1]);
      if f(s[|s| - 1]).Success? then prev + [|s| - 1] else prev
  }

  lemma {:induction false} SuccessesValid<A, B, E>(f: A -> Result<B, E>, s: seq<A>)
    ensures var idx := Successes(f, s);
            && (forall j :: 0 <= j < |idx| ==> idx[j] < |s| && f(s[idx[j]]) == Success(KeepOk(f, s)[j]))
            && (forall j, k :: 0 <= j < k < |idx| ==> idx[j] < idx[k])
  {
    if |s| > 0 {
      var n := |s| - 1;
      var front := s[..n];
      SuccessesValid(f, front);
      var prev, before := Successes(f, front), KeepOk(f, front);
      var idx, kept := Successes(f, s), KeepOk(f, s);
      if f(s[n]).Success? {
        assert idx == prev + [n] && kept == before + [f(s[n]).value];
      } else {
        assert idx == prev && kept == before;
      }
      forall j | 0 <= j < |idx|
        ensures idx[j] < |s| && f(s[idx[j]]) == Success(kept[j])
      {
        if j < |prev| {
          assert idx[j] == prev[j] && kept[j] == before[j] && front[prev[j]] == s[prev[j]];
        }
      }
    }
  }

  lemma {:induction false} SuccessesComplete<A, B, E>(f: A -> Result<B, E>, s: seq<A>, i: nat)
    requires i < |s| && f(s[i]).Success?
    ensures i in Successes(f, s)
  {
    var front := s[..|s| - 1];
    if i < |s| - 1 {
      assert front[i] == s[i];
      SuccessesComplete(f, front, i);
    }
  }

  /** `KeepOk` is the subsequence of successes, in the original order. */
  lemma KeptInOrder<A, B, E>(f: A -> Result<B, E>, s: seq<A>)
    ensures exists idx :: Picks(f, s, KeepOk(f, s), idx)
  {
    SuccessesValid(f, s);
    forall i | 0 <= i < |s| && f(s[i]).Success?
      ensures i in Successes(f, s)
    {
      SuccessesComplete(f, s, i);
    }
    assert Picks(f, s, KeepOk(f, s), Successes(f, s));
  }

  /** The position of the first element of `s` that fails a check, as the
      validators' early-return loops find it. */
  function FirstFailing<T>(s: seq<T>, bad: T -> bool): (r: Option<nat>)
    ensures r.None? <==> forall i :: 0 <= i < |s| ==> !bad(s[i])
    ensures r.Some? ==> r.value < |s| && bad(s[r.value]) && forall i :: 0 <= i < r.value ==> !bad(s[i])
  {
    if |s| == 0 then None
    else if bad(s[0]) then Some(0)
    else
      match FirstFailing(s[1..], bad)
      case None => None
      case Some(k) => Some(k + 1)
  }
}
