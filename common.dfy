/** Values shared by the issue and the account handlers: optional request
    fields, the authenticated caller and the HTTP status codes they answer with. */
module Common {

  /** A request-body field that the client may leave out. */
  datatype Option<+T> = None | Some(value: T) {
    function GetOr(default: T): T {
      match this
      case Some(v) => v
      case None => default
    }
  }

  /** What saving a document yields: the stored record or a validation message. */
  datatype Result<+T> = Ok(value: T) | Err(message: string)

  type UserId = nat

  /** The user record the authentication middleware attaches to a request. */
  datatype Caller = Caller(id: UserId, role: string)

  const AdminRole: string := "Admin"
  const FacultyRole: string := "Faculty"
  const StudentRole: string := "Student"

  const HttpOk: int := 200
  const HttpCreated: int := 201
  const HttpBadRequest: int := 400
  const HttpForbidden: int := 403
  const HttpNotFound: int := 404
  const HttpServerError: int := 500

  /** The position of the first element satisfying `p`: what `findOne` and
      `findById` return when several documents could match. */
  function FirstIndex<T>(s: seq<T>, p: T -> bool): (r: Option<nat>)
    ensures r.Some? ==> r.value < |s| && p(s[r.value])
    ensures r.Some? ==> forall k :: 0 <= k < r.value ==> !p(s[k])
    ensures r.None? <==> forall k :: 0 <= k < |s| ==> !p(s[k])
  {
    if s == [] then None
    else if p(s[0]) then Some(0)
    else
      match FirstIndex(s[1..], p)
      case None => None
      case Some(k) => Some(k + 1)
  }

  /** Two lookups whose predicates agree position by position find the same
      position, whatever else the elements hold. */
  lemma FirstIndexAgrees<T, U>(s: seq<T>, p: T -> bool, t: seq<U>, q: U -> bool)
    requires |s| == |t|
    requires forall k :: 0 <= k < |s| ==> p(s[k]) == q(t[k])
    ensures FirstIndex(s, p) == FirstIndex(t, q)
  {
  }

  /** A string field is truthy in JavaScript when it is present and not empty;
      `if (!name)` rejects exactly the fields for which this is false. */
  predicate Supplied(field: Option<string>) {
    field.Some? && field.value != ""
  }
}
