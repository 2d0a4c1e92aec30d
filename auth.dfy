// backend/auth.py: the Authorization header check of get_current_user and the
// require_admin / require_approved guards. JWT encoding and decoding belong to
// a foreign library: `verify` stands for verify_token, mapping a token to its
// payload or to the 401 error it raises.
module Auth {
  import opened Wrappers
  import opened Models

  /** The part of a decoded token payload the server reads. */
  datatype Payload = Payload(userId: Option<string>)

  const BearerPrefix := "Bearer "

  predicate StartsWith(s: string, prefix: string) {
    |prefix| <= |s| && s[..|prefix|] == prefix
  }

  /** Python's s.replace(pat, ""): every non-overlapping occurrence, scanned left to right, removed. */
  function RemoveAll(s: string, pat: string): (r: string)
    requires |pat| > 0
    ensures |r| <= |s|
    decreases |s|
  {
    if |s| < |pat| then s
    else if s[..|pat|] == pat then RemoveAll(s[|pat|..], pat)
    else [s[0]] + RemoveAll(s[1..], pat)
  }

  /** pat occurs in s starting at index i. */
  predicate OccursAt(s: string, pat: string, i: nat) {
    i + |pat| <= |s| && s[i..i + |pat|] == pat
  }

  /** No occurrence of pat starts anywhere in s. */
  predicate Free(s: string, pat: string) {
    forall i: nat | i <= |s| :: !OccursAt(s, pat, i)
  }

  lemma {:induction false} RemoveAllOfFree(s: string, pat: string)
    requires |pat| > 0 && Free(s, pat)
    ensures RemoveAll(s, pat) == s
    decreases |s|
  {
    if |s| >= |pat| {
      assert !OccursAt(s, pat, 0);
      assert s[..|pat|] == s[0..|pat|];
      forall i: nat | i <= |s[1..]|
        ensures !OccursAt(s[1..], pat, i)
      {
        if i + |pat| <= |s[1..]| {
          assert s[1..][i..i + |pat|] == s[i + 1..i + 1 + |pat|];
          assert !OccursAt(s, pat, i + 1);
        }
      }
      RemoveAllOfFree(s[1..], pat);
    }
  }

  /** The token get_current_user extracts from an authorization header. */
  function TokenOf(header: string): string {
    RemoveAll(header, BearerPrefix)
  }

  /** For a header "Bearer <t>" whose t holds no further "Bearer ", as every
      JWT does (it has no spaces), the token is exactly t. */
  lemma {:induction false} TokenOfBearer(t: string)
    requires Free(t, BearerPrefix)
    ensures TokenOf(BearerPrefix + t) == t
  {
    var h := BearerPrefix + t;
    assert h[..|BearerPrefix|] == BearerPrefix;
    assert h[|BearerPrefix|..] == t;
    RemoveAllOfFree(t, BearerPrefix);
  }

  /** The position of the first user with the given id: find_one by id. */
  function UserIndex(users: seq<User>, userId: string): Option<nat> {
    FindFirst(users, (u: User) => u.id == userId)
  }

  /** get_current_user: the header check, the token payload check and the user lookup. */
  function GetCurrentUser(authorization: Option<string>, verify: string -> Result<Payload>, users: seq<User>): (r: Result<User>)
    ensures r.Ok? ==> authorization.Some? && StartsWith(authorization.value, BearerPrefix)
    ensures (authorization.None? || !StartsWith(authorization.value, BearerPrefix)) ==>
      r == Err(HttpError(401, "Authorization header missing or invalid"))
    ensures r.Ok? ==> r.value in users
    ensures r.Ok? ==> var p := verify(TokenOf(authorization.value));
      p.Ok? && Truthy(p.value.userId) && r.value.id == p.value.userId.value
    ensures authorization.Some? && StartsWith(authorization.value, BearerPrefix) ==>
      var p := verify(TokenOf(authorization.value));
      (p.Err? ==> r == Err(p.error)) &&
      (p.Ok? && !Truthy(p.value.userId) ==> r == Err(HttpError(401, "Invalid token payload"))) &&
      (p.Ok? && Truthy(p.value.userId) && (forall u :: u in users ==> u.id != p.value.userId.value) ==>
         r == Err(HttpError(404, "User not found"))) &&
      (p.Ok? && Truthy(p.value.userId) && (exists u :: u in users && u.id == p.value.userId.value) ==>
         r.Ok?) &&
      (p.Ok? && Truthy(p.value.userId) && UserIndex(users, p.value.userId.value).Some? ==>
         r == Ok(users[UserIndex(users, p.value.userId.value).value]))
  {
    if authorization.None? || !StartsWith(authorization.value, BearerPrefix) then
      Err(HttpError(401, "Authorization header missing or invalid"))
    else
      match verify(TokenOf(authorization.value))
      case Err(e) => Err(e)
      case Ok(payload) =>
        if !Truthy(payload.userId) then Err(HttpError(401, "Invalid token payload"))
        else
          var uid := payload.userId.value;
          match UserIndex(users, uid)
          case None => Err(HttpError(404, "User not found"))
          case Some(i) => Ok(users[i])
  }

  /** require_admin. */
  function RequireAdmin(user: User): (r: Result<User>)
    ensures r.Ok? <==> user.info.role == Admin
    ensures r.Ok? ==> r.value == user
    ensures r.Err? ==> r.error == HttpError(403, "Admin access required")
  {
    if user.info.role != Admin then Err(HttpError(403, "Admin access required")) else Ok(user)
  }

  /** require_approved: only a dealer or retailer that is not APPROVED is refused. */
  function RequireApproved(user: User): (r: Result<User>)
    ensures r.Ok? <==> (user.info.role != Dealer && user.info.role != Retailer) || StatusValue(user.status) == "APPROVED"
    ensures r.Ok? ==> r.value == user
    ensures r.Err? ==> r.error == HttpError(403, "Account pending approval. Contact admin.")
  {
    if (user.info.role == Dealer || user.info.role == Retailer) && StatusValue(user.status) != "APPROVED" then
      Err(HttpError(403, "Account pending approval. Contact admin."))
    else Ok(user)
  }

  /** Customers and admins pass require_approved whatever their status;
      admins are the only users that pass require_admin. */
  lemma GuardsByRole(user: User)
    ensures user.info.role == Customer || user.info.role == Admin ==> RequireApproved(user).Ok?
    ensures RequireAdmin(user).Ok? ==> RequireApproved(user).Ok?
    ensures user.info.role in {Dealer, Retailer} ==> (RequireApproved(user).Ok? <==> user.status == Approved)
  {
  }
}
