/** Resolving stored ids through the upstream source, one call per id, in stored
    order. Any failed call aborts the whole resolution (the exception escapes the
    loop); a successful call whose body is null contributes a null element. */
module Resolution {
  import opened Common

  /** What a single lookup gives the caller: the body, or the RetrofitException. */
  function AsResult<T>(f: Fetch<T>): (r: Result<Option<T>>)
    ensures r.Ok? <==> f.Answered?
    ensures f.Answered? ==> r.value == f.body
    ensures f.Failed? ==> r.error == SourceFailure
  {
    match f
    case Answered(body) => Ok(body)
    case Failed => Err(SourceFailure)
  }

  /** The result of resolving `ids` one after the other with `lookup`. */
  function Resolve<T>(lookup: int -> Fetch<T>, ids: seq<int>): (r: Result<seq<Option<T>>>)
    ensures r.Ok? <==> forall k :: 0 <= k < |ids| ==> lookup(ids[k]).Answered?
    ensures r.Ok? ==> |r.value| == |ids|
    ensures r.Ok? ==> forall k :: 0 <= k < |ids| ==> r.value[k] == lookup(ids[k]).body
    ensures r.Err? ==> r.error == SourceFailure
  {
    if ids == [] then Ok([])
    else
      var n := |ids| - 1;
      match Resolve(lookup, ids[..n])
      case Err(e) => Err(e)
      case Ok(done) =>
        match lookup(ids[n])
        case Failed => Err(SourceFailure)
        case Answered(body) => Ok(done + [body])
  }

  /** Resolving a prefix succeeds whenever resolving the whole list does, and
      gives the matching prefix of the whole result. */
  lemma ResolvePrefix<T>(lookup: int -> Fetch<T>, ids: seq<int>, n: nat)
    requires n <= |ids|
    requires Resolve(lookup, ids).Ok?
    ensures Resolve(lookup, ids[..n]) == Ok(Resolve(lookup, ids).value[..n])
  {
    var whole := Resolve(lookup, ids).value;
    var part := Resolve(lookup, ids[..n]);
    assert forall k :: 0 <= k < n ==> ids[..n][k] == ids[k];
    assert part.Ok?;
    assert part.value == whole[..n];
  }
}
