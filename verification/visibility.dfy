/**
 * The access filter: an API id is visible to a caller exactly when it is the id
 * of one of the APIs the API service lists as published to that caller.
 */
module Visibility {

  /** An API, reduced to the id the visibility test compares. */
  datatype ApiEntity = ApiEntity(id: string)

  /** Stream.anyMatch(a -> a.getId().equals(apiId)): exact, case-sensitive id equality. */
  function AnyMatch(userApis: seq<ApiEntity>, apiId: string): (r: bool)
    ensures r <==> exists i :: 0 <= i < |userApis| && userApis[i].id == apiId
  {
    if |userApis| == 0 then false
    else if userApis[0].id == apiId then true
    else
      var r := AnyMatch(userApis[1..], apiId);
      assert forall i :: 1 <= i < |userApis| ==> userApis[i] == userApis[1..][i - 1];
      r
  }

  /** The ids the caller may see. */
  function VisibleIds(userApis: seq<ApiEntity>): set<string> {
    set i | 0 <= i < |userApis| :: userApis[i].id
  }

  /** Visibility is exactly membership in the caller's set of visible ids. */
  lemma AnyMatchIsMembership(userApis: seq<ApiEntity>, apiId: string)
    ensures AnyMatch(userApis, apiId) <==> apiId in VisibleIds(userApis)
  {
  }

  /** The comparison is case-sensitive: "My-Api" is not visible through "my-api". */
  lemma VisibilityIsCaseSensitive()
    ensures !AnyMatch([ApiEntity("my-api")], "My-Api")
  {
    assert "my-api"[0] != "My-Api"[0];
  }
}
