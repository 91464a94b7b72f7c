/** The result-carrying types shared by all the models, and the one notion of "joined value"
    that the joins and the collector are measured against. */
module Outcomes {

  datatype Option<+T> = None | Some(value: T)

  datatype Result<+T, +E> = Ok(value: T) | Err(error: E)

  /** The answer of one call to `poll`. */
  datatype Poll<+T> = Pending | Ready(value: T)

  /** The numbers below `n`. */
  function UpTo(n: nat): (s: set<nat>)
    ensures forall i: nat :: i in s <==> i < n
    ensures |s| == n
  {
    if n == 0 then {} else UpTo(n - 1) + {n - 1}
  }

  /** The error of the lowest-index failure, if there is one. */
  function FirstErr<V, E>(rs: seq<Result<V, E>>): Option<E> {
    if rs == [] then None
    else
      var init := FirstErr(rs[..|rs| - 1]);
      if init.None? && rs[|rs| - 1].Err? then Some(rs[|rs| - 1].error) else init
  }

  /** The successful values, in order. */
  function Oks<V, E>(rs: seq<Result<V, E>>): seq<V> {
    if rs == [] then []
    else
      var init := Oks(rs[..|rs| - 1]);
      if rs[|rs| - 1].Ok? then init + [rs[|rs| - 1].value] else init
  }

  /** All values in order, or the lowest-index error. */
  function Gather<V, E>(rs: seq<Result<V, E>>): Result<seq<V>, E> {
    match FirstErr(rs)
    case Some(e) => Err(e)
    case None => Ok(Oks(rs))
  }

  lemma Snoc<V, E>(rs: seq<Result<V, E>>, r: Result<V, E>)
    ensures FirstErr(rs + [r]) == if FirstErr(rs).None? && r.Err? then Some(r.error) else FirstErr(rs)
    ensures Oks(rs + [r]) == if r.Ok? then Oks(rs) + [r.value] else Oks(rs)
  {
    assert (rs + [r])[..|rs|] == rs;
  }

  lemma {:induction false} FirstErrMeaning<V, E>(rs: seq<Result<V, E>>)
    ensures FirstErr(rs).None? <==> forall i | 0 <= i < |rs| :: rs[i].Ok?
    ensures FirstErr(rs).Some? ==>
              exists i :: 0 <= i < |rs| && rs[i] == Err(FirstErr(rs).value) && forall j | 0 <= j < i :: rs[j].Ok?
  {
    if rs != [] {
      var init := rs[..|rs| - 1];
      FirstErrMeaning(init);
      if FirstErr(init).Some? {
        var i :| 0 <= i < |init| && init[i] == Err(FirstErr(init).value) && forall j | 0 <= j < i :: init[j].Ok?;
        assert rs[i] == init[i];
        assert forall j | 0 <= j < i :: rs[j] == init[j];
      } else {
        assert forall j | 0 <= j < |init| :: rs[j] == init[j];
      }
    }
  }

  lemma {:induction false} OksOfPrefix<V, E>(rs: seq<Result<V, E>>, k: nat)
    requires k <= |rs|
    ensures Oks(rs[..k]) <= Oks(rs)
    decreases |rs| - k
  {
    if k < |rs| {
      OksOfPrefix(rs, k + 1);
      assert rs[..k + 1] == rs[..k] + [rs[k]];
      Snoc(rs[..k], rs[k]);
    } else {
      assert rs[..k] == rs;
    }
  }

  lemma {:induction false} OksOfAllOk<V, E>(rs: seq<Result<V, E>>)
    requires forall i | 0 <= i < |rs| :: rs[i].Ok?
    ensures |Oks(rs)| == |rs|
    ensures forall i | 0 <= i < |rs| :: Oks(rs)[i] == rs[i].value
  {
    if rs != [] {
      OksOfAllOk(rs[..|rs| - 1]);
    }
  }

  /** `Gather` succeeds with exactly the list of all values, and fails with exactly the error of the
      lowest-index failure: these two equivalences pin it down. */
  lemma GatherMeaning<V, E>(rs: seq<Result<V, E>>, vs: seq<V>, e: E)
    ensures Gather(rs) == Ok(vs) <==> |vs| == |rs| && forall i | 0 <= i < |rs| :: rs[i] == Ok(vs[i])
    ensures Gather(rs) == Err(e) <==>
            exists i :: 0 <= i < |rs| && rs[i] == Err(e) && forall j | 0 <= j < i :: rs[j].Ok?
  {
    FirstErrMeaning(rs);
    if FirstErr(rs).None? {
      OksOfAllOk(rs);
      if |vs| == |rs| && forall i | 0 <= i < |rs| :: rs[i] == Ok(vs[i]) {
        assert vs == Oks(rs);
      }
    }
  }

  lemma GatherIs<V, E>(rs: seq<Result<V, E>>)
    ensures Gather(rs) == if FirstErr(rs).Some? then Err(FirstErr(rs).value) else Ok(Oks(rs))
  {}

  lemma GatherNothing<V, E>()
    ensures Gather<V, E>([]) == Ok([])
  {}

  lemma GatherOneMore<V, E>(rs: seq<Result<V, E>>, vs: seq<V>, v: V)
    requires Gather(rs) == Ok(vs)
    ensures Gather(rs + [Ok(v)]) == Ok(vs + [v])
  {
    Snoc(rs, Ok(v));
  }
}
