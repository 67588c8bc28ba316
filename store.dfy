/** The in-memory list of feature requests that the UI reads, kept in step
    with the server by the store's five operations. */
module Store {
  import opened JsValues
  import opened ApiTypes

  /** Whether `k` is the index `findIndex` returns for `id`: the first
      record whose id text is `id`. */
  predicate IsFirstMatch(s: seq<FeatureRequest>, k: int, id: string) {
    0 <= k < |s| && HasId(s[k], id) && forall j | 0 <= j < k :: !HasId(s[j], id)
  }

  /** The position of the first record whose id text is `id`, if any. */
  function FindFirst(s: seq<FeatureRequest>, id: string): (r: Option<nat>)
    ensures r.Some? ==> IsFirstMatch(s, r.value, id)
    ensures r.None? <==> forall k | 0 <= k < |s| :: !HasId(s[k], id)
  {
    if |s| == 0 then None
    else if HasId(s[0], id) then Some(0)
    else
      var rest := FindFirst(s[1..], id);
      assert forall k | 1 <= k < |s| :: s[k] == s[1..][k - 1];
      if rest.None? then None else Some(rest.value + 1)
  }

  /** The list after `featureRequests[index] = x` at the first match, or
      unchanged when nothing matches. */
  function ReplaceFirst(s: seq<FeatureRequest>, id: string, x: FeatureRequest): (r: seq<FeatureRequest>)
    ensures |r| == |s|
    ensures forall k | 0 <= k < |s| :: r[k] == (if IsFirstMatch(s, k, id) then x else s[k])
    ensures FindFirst(s, id).None? ==> r == s
  {
    match FindFirst(s, id)
    case None => s
    case Some(i) => s[i := x]
  }

  /** The list after `featureRequests.splice(index, 1)` at the first match,
      or unchanged when nothing matches. */
  function RemoveFirst(s: seq<FeatureRequest>, id: string): (r: seq<FeatureRequest>)
    ensures FindFirst(s, id).None? ==> r == s
    ensures FindFirst(s, id).Some? ==>
      var i := FindFirst(s, id).value;
      && |r| == |s| - 1
      && (forall k | 0 <= k < i :: r[k] == s[k])
      && (forall k | i <= k < |r| :: r[k] == s[k + 1])
  {
    match FindFirst(s, id)
    case None => s
    case Some(i) => s[..i] + s[i + 1..]
  }

  /** Cutting position `i` out of a list removes one copy of `s[i]`. */
  lemma TakeOut<T>(s: seq<T>, i: nat)
    requires i < |s|
    ensures multiset(s[..i] + s[i + 1..]) + multiset{s[i]} == multiset(s)
  {
    assert s == s[..i] + [s[i]] + s[i + 1..];
  }

  /** A delete takes out one copy of the matched record and nothing else. */
  lemma RemoveFirstTakesOneRecord(s: seq<FeatureRequest>, id: string)
    requires FindFirst(s, id).Some?
    ensures var i := FindFirst(s, id).value;
      multiset(RemoveFirst(s, id)) + multiset{s[i]} == multiset(s)
  {
    var i := FindFirst(s, id).value;
    assert RemoveFirst(s, id) == s[..i] + s[i + 1..];
    TakeOut(s, i);
  }

  /** Creating a record whose id is new and then deleting it by that id
      gives back the list as it was. */
  lemma {:induction false} RemoveAfterAppend(s: seq<FeatureRequest>, x: FeatureRequest, id: string)
    requires FindFirst(s, id).None?
    requires HasId(x, id)
    ensures FindFirst(s + [x], id) == Some(|s|)
    ensures RemoveFirst(s + [x], id) == s
  {
    var t := s + [x];
    assert forall k | 0 <= k < |s| :: t[k] == s[k];
    assert IsFirstMatch(t, |s|, id);
    assert t[..|s|] == s;
  }

  /** After an update the replaced record is still the first match for the
      id, at the same position, when the server's record keeps the id. */
  lemma ReplaceKeepsPosition(s: seq<FeatureRequest>, id: string, x: FeatureRequest)
    requires HasId(x, id)
    ensures FindFirst(ReplaceFirst(s, id, x), id) == FindFirst(s, id)
  {
    var r := ReplaceFirst(s, id, x);
    match FindFirst(s, id)
    case None =>
    case Some(i) =>
      assert IsFirstMatch(s, i, id);
      forall j | 0 <= j < i ensures !HasId(r[j], id) {
        assert !IsFirstMatch(s, j, id);
      }
      assert IsFirstMatch(r, i, id);
      var f := FindFirst(r, id);
      assert f.Some?;
      assert f.value == i;
  }

  /** When ids are unique, the first match is the only match: `findIndex`
      finds the record whatever its position. */
  lemma UniqueIdsFindTheRecord(s: seq<FeatureRequest>, k: nat, id: string)
    requires forall i, j | 0 <= i < j < |s| :: s[i].id != s[j].id
    requires k < |s| && HasId(s[k], id)
    ensures FindFirst(s, id) == Some(k)
  {
    var f := FindFirst(s, id);
    assert f.Some?;
    if f.value != k {
      HasIdDeterminesId(s[f.value], s[k], id);
    }
  }

  /** The list once `createFeatureRequest` has returned: the created record
      appended, or the list as it was when the call failed. */
  function Created(s: seq<FeatureRequest>, created: ApiResult<FeatureRequest>): (r: seq<FeatureRequest>)
    ensures created.Failure? ==> r == s
    ensures created.Success? ==> |r| == |s| + 1 && r[..|s|] == s && r[|s|] == created.value
  {
    if created.Success? then s + [created.value] else s
  }

  /** The list once `getFeatureRequests` has returned: the fetched list, or
      the list as it was when the call failed. */
  function Refreshed(s: seq<FeatureRequest>, listed: ApiResult<seq<FeatureRequest>>): seq<FeatureRequest> {
    if listed.Success? then listed.value else s
  }

  /** The list once `updateFeatureRequest` has returned: the first match
      replaced by the server's record, or the list as it was when the call
      failed. */
  function Updated(s: seq<FeatureRequest>, id: string, updated: ApiResult<FeatureRequest>): (r: seq<FeatureRequest>)
    ensures |r| == |s|
    ensures updated.Failure? || FindFirst(s, id).None? ==> r == s
  {
    if updated.Success? then ReplaceFirst(s, id, updated.value) else s
  }

  /** `Array.prototype.findIndex` with the id test: the first matching
      position, or -1. */
  method FindIndex(s: seq<FeatureRequest>, id: string) returns (index: int)
    ensures index == -1 <==> FindFirst(s, id).None?
    ensures index != -1 ==> IsFirstMatch(s, index, id) && FindFirst(s, id) == Some(index)
  {
    index := 0;
    while index < |s|
      invariant 0 <= index <= |s|
      invariant forall j | 0 <= j < index :: !HasId(s[j], id)
    {
      if HasId(s[index], id) {
        return;
      }
      index := index + 1;
    }
    index := -1;
  }

  /** `FeatureRequestStore`: one observable array, `featureRequests`. */
  class FeatureRequestStore {
    var featureRequests: seq<FeatureRequest>

    constructor ()
      ensures featureRequests == []
    {
      featureRequests := [];
    }

    /** Replaces the whole list with the server's list; a failed fetch is
        logged and swallowed and the list stays as it was. */
    method GetFeatureRequests(response: ApiResult<seq<FeatureRequest>>)
      modifies this
      ensures response.Success? ==> featureRequests == response.value
      ensures response.Failure? ==> featureRequests == old(featureRequests)
      ensures featureRequests == Refreshed(old(featureRequests), response)
    {
      match response
      case Success(result) =>
        featureRequests := result;
      case Failure(_) =>
    }

    /** Returns the server's record, or null when the call fails; the list
        is not touched. */
    method GetFeatureRequestById(id: string, response: ApiResult<FeatureRequest>)
      returns (r: Option<FeatureRequest>)
      ensures response.Success? ==> r == Some(response.value)
      ensures response.Failure? ==> r == None
    {
      match response
      case Success(result) =>
        r := Some(result);
      case Failure(_) =>
        r := None;
    }

    /** Appends the record the server created; a failed call is logged and
        swallowed and the list stays as it was. */
    method CreateFeatureRequest(dto: CreateDto, response: ApiResult<FeatureRequest>)
      modifies this
      ensures response.Success? ==> featureRequests == old(featureRequests) + [response.value]
      ensures response.Failure? ==> featureRequests == old(featureRequests)
      ensures featureRequests == Created(old(featureRequests), response)
    {
      match response
      case Success(result) =>
        featureRequests := featureRequests + [result];
      case Failure(_) =>
    }

    /** Replaces the first record whose id text is `id` with the server's
        record. A failed call is rethrown (`thrown`) and the list stays as
        it was. */
    method UpdateFeatureRequest(id: string, updateData: UpdateDto, response: ApiResult<FeatureRequest>)
      returns (thrown: Option<ApiError>)
      modifies this
      ensures response.Failure? ==> thrown == Some(response.error) && featureRequests == old(featureRequests)
      ensures response.Success? ==>
        thrown == None && featureRequests == ReplaceFirst(old(featureRequests), id, response.value)
      ensures featureRequests == Updated(old(featureRequests), id, response)
    {
      match response
      case Failure(e) =>
        thrown := Some(e);
      case Success(result) =>
        var index := FindIndex(featureRequests, id);
        if index != -1 {
          featureRequests := featureRequests[index := result];
        }
        thrown := None;
    }

    /** Removes the first record whose id text is `id`, keeping the order of
        the others. A failed call is rethrown and the list stays as it
        was. */
    method DeleteFeatureRequest(id: string, response: ApiResult<()>)
      returns (thrown: Option<ApiError>)
      modifies this
      ensures response.Failure? ==> thrown == Some(response.error) && featureRequests == old(featureRequests)
      ensures response.Success? ==>
        thrown == None && featureRequests == RemoveFirst(old(featureRequests), id)
    {
      match response
      case Failure(e) =>
        thrown := Some(e);
      case Success(_) =>
        var index := FindIndex(featureRequests, id);
        if index != -1 {
          featureRequests := featureRequests[..index] + featureRequests[index + 1..];
        } else {
          assert FindFirst(featureRequests, id).None?;
        }
        thrown := None;
    }
  }
}
