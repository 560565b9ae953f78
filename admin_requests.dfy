/**
 * How the admin editors address the admin API: the `Authorization` header
 * built from the stored token, and the choice between creating a record
 * (POST to the collection) and updating the one being edited (PUT to
 * `collection/id`).
 */
module AdminRequests {
  import opened Wrappers

  const Api: string := "http://localhost:5001/api/admin/"

  datatype Verb = Post | Put

  datatype Target = Target(verb: Verb, url: string)

  /** A request an editor sends: where, with which `Authorization` header, and its body. */
  datatype Request<B> = Request(target: Target, authorization: string, body: B)

  /** `` `Bearer ${token}` ``: a token that was never stored prints as `null`. */
  function AuthorizationHeader(token: Option<string>): (r: string)
    ensures token.Some? ==> r == "Bearer " + token.value
    ensures token.None? ==> r == "Bearer null"
  {
    "Bearer " + token.GetOr("null")
  }

  /** `editingId ? …`: an id is being edited when it is set and non-empty. */
  predicate Editing(editingId: Option<string>) {
    editingId.Some? && editingId.value != ""
  }

  /** `editingId ? ['PUT', `${collection}/${editingId}`] : ['POST', collection]` */
  function SaveTarget(collection: string, editingId: Option<string>): (r: Target)
    ensures r.verb == Put <==> Editing(editingId)
  {
    if Editing(editingId) then Target(Put, Api + collection + "/" + editingId.value)
    else Target(Post, Api + collection)
  }

  /**
   * A save target names its record: two saves to the same collection go to
   * the same place only if both create, or both update the same id.
   */
  lemma SaveTargetIdentifiesRecord(collection: string, a: Option<string>, b: Option<string>)
    requires SaveTarget(collection, a) == SaveTarget(collection, b)
    ensures Editing(a) <==> Editing(b)
    ensures Editing(a) ==> a.value == b.value
  {
    if Editing(a) && Editing(b) {
      var prefix := Api + collection + "/";
      var ua, ub := prefix + a.value, prefix + b.value;
      assert ua == SaveTarget(collection, a).url && ub == SaveTarget(collection, b).url;
      assert a.value == ua[|prefix|..] && b.value == ub[|prefix|..];
    }
  }
}
