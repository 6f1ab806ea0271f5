/**
  The client's session state and route guards (client/src/lib/auth.js). The guards are
  decisions over the context values `loading` and `user`; a redirect stands for the
  guard's effect pushing a path while its render returns null. AuthProvider's React state
  becomes the fields `user` and `loading`, and `router.push` appends to `navigations`.
*/
module Auth {
  import opened Wrappers
  import opened TokenStore
  import opened Api

  const AdminRole: string := "admin"
  const ResearcherRole: string := "researcher"
  const AdminLoginPath: string := "/admin-login"
  const ResearcherLoginPath: string := "/researcher-login"
  const HomePath: string := "/"

  /** The context's `user` object (`isAuthenticated: true` is implied by its presence). */
  datatype SessionUser = SessionUser(id: string, email: string, role: string)

  /** The fields read from a decoded access-token payload. */
  datatype Claims = Claims(userId: string, email: string, role: string)

  /** What a guarded view does on this render. */
  datatype Decision = RenderNothing | Render | Redirect(path: string)

  predicate IsAuthenticated(user: Option<SessionUser>) { user.Some? }

  predicate IsAdmin(user: Option<SessionUser>) { user.Some? && user.value.role == AdminRole }

  predicate IsResearcher(user: Option<SessionUser>) { user.Some? && user.value.role == ResearcherRole }

  /** withAuth: any signed-in user. */
  function WithAuth(loading: bool, user: Option<SessionUser>): (d: Decision)
    ensures d == Render <==> !loading && IsAuthenticated(user)
    ensures d.Redirect? <==> !loading && !IsAuthenticated(user)
    ensures d.Redirect? ==> d.path == ResearcherLoginPath
  {
    if !loading && user.None? then Redirect(ResearcherLoginPath)
    else if loading || user.None? then RenderNothing
    else Render
  }

  /** withAdminAuth: admin sessions only. */
  function WithAdminAuth(loading: bool, user: Option<SessionUser>): (d: Decision)
    ensures d == Render <==> !loading && IsAuthenticated(user) && IsAdmin(user)
    ensures loading ==> d == RenderNothing
    ensures !loading && !IsAuthenticated(user) ==> d == Redirect(AdminLoginPath)
    ensures !loading && IsAuthenticated(user) && !IsAdmin(user) ==> d == Redirect(HomePath)
  {
    if loading then RenderNothing
    else if user.None? then Redirect(AdminLoginPath)
    else if !IsAdmin(user) then Redirect(HomePath)
    else Render
  }

  /** withResearcherAuth: researcher sessions only. */
  function WithResearcherAuth(loading: bool, user: Option<SessionUser>): (d: Decision)
    ensures d == Render <==> !loading && IsAuthenticated(user) && IsResearcher(user)
    ensures loading ==> d == RenderNothing
    ensures !loading && !IsAuthenticated(user) ==> d == Redirect(ResearcherLoginPath)
    ensures !loading && IsAuthenticated(user) && !IsResearcher(user) ==> d == Redirect(HomePath)
  {
    if loading then RenderNothing
    else if user.None? then Redirect(ResearcherLoginPath)
    else if !IsResearcher(user) then Redirect(HomePath)
    else Render
  }

  /** A session is never both admin and researcher. */
  lemma RolesExclusive(user: Option<SessionUser>)
    ensures !(IsAdmin(user) && IsResearcher(user))
    ensures (IsAdmin(user) || IsResearcher(user)) ==> IsAuthenticated(user)
  {
  }

  /**
    A researcher session presented to an admin view is sent home, never to the admin login,
    and the view is never rendered; while loading, no guard renders or redirects.
  */
  lemma ResearcherAtAdminView(loading: bool, user: Option<SessionUser>)
    requires IsResearcher(user)
    ensures WithAdminAuth(loading, user) != Render
    ensures WithAdminAuth(loading, user) != Redirect(AdminLoginPath)
    ensures !loading ==> WithAdminAuth(loading, user) == Redirect(HomePath)
  {
  }

  /** No guard shows protected content, or decides a redirect, before the session is resolved. */
  lemma NoDecisionWhileLoading(user: Option<SessionUser>)
    ensures WithAuth(true, user) == RenderNothing
    ensures WithAdminAuth(true, user) == RenderNothing
    ensures WithResearcherAuth(true, user) == RenderNothing
  {
  }

  /** The role a login form grants. */
  function PortalRole(portal: Portal): string {
    match portal
    case AdminPortal => AdminRole
    case ResearcherPortal => ResearcherRole
  }

  /** `{...data.user, isAuthenticated: true, role}` after a successful login. */
  function LoggedInUser(data: ResponseData, role: string): (u: SessionUser)
    ensures u.role == role
    ensures data.user.Some? ==> u.id == data.user.value.id && u.email == data.user.value.email
  {
    match data.user
    case Some(p) => SessionUser(p.id, p.email, role)
    case None => SessionUser("", "", role)
  }

  /** AuthProvider: the session state of the client and the transitions that change it. */
  class AuthProvider {
    var user: Option<SessionUser>
    var loading: bool
    var navigations: seq<string>
    const api: Client

    constructor (api: Client)
      ensures this.api == api && user == None && loading && navigations == []
    {
      this.api := api;
      user := None;
      loading := true;
      navigations := [];
    }

    /**
      checkAuth on mount: with no truthy stored token only `loading` ends; otherwise the
      token's payload is decoded (`decode` stands for the base64 and JSON decoding, which
      may fail), and a failure clears the user.
    */
    method CheckAuth(decode: string -> Option<Claims>)
      modifies this
      ensures var token := Lookup(api.store.records);
              && !loading && navigations == old(navigations)
              && (!Truthy(token) ==> user == old(user))
              && (Truthy(token) && decode(token.value).None? ==> user == None)
              && (Truthy(token) && decode(token.value).Some? ==>
                    var c := decode(token.value).value;
                    user == Some(SessionUser(c.userId, c.email, c.role)))
    {
      var token := api.store.GetToken();
      if !Truthy(token) {
        loading := false;
        return;
      }
      var payload := decode(token.value);
      if payload.None? {
        user := None;
        loading := false;
        return;
      }
      user := Some(SessionUser(payload.value.userId, payload.value.email, payload.value.role));
      loading := false;
    }

    /**
      adminLogin / researcherLogin: true and a user with the portal's role when the API login
      succeeds; false and the user unchanged when it throws. `loading` ends false either way.
    */
    method Login(portal: Portal, email: string, password: string, now: int) returns (ok: bool)
      modifies this, api, api.store
      ensures var reply := api.server(LoginRequest(portal, email, password));
              && !loading && navigations == old(navigations)
              && api.sent == old(api.sent) + [LoginRequest(portal, email, password)]
              && (ok <==> reply.Ok?)
              && (ok ==> user == Some(LoggedInUser(reply.data, PortalRole(portal))))
              && (!ok ==> user == old(user))
              && api.store.records == if reply.Ok? && reply.data.accessToken != ""
                                      then Put(old(api.store.records), reply.data.accessToken, now)
                                      else old(api.store.records)
    {
      loading := true;
      var r := api.Login(portal, email, password, now);
      if r.Success? {
        user := Some(LoggedInUser(r.value, PortalRole(portal)));
        loading := false;
        ok := true;
      } else {
        loading := false;
        ok := false;
      }
    }

    /** logout: whether or not the API logout throws, the token is removed, the user cleared and "/" pushed. */
    method Logout()
      modifies this, api, api.store
      ensures user == None && loading == old(loading)
      ensures navigations == old(navigations) + [HomePath]
      ensures api.store.records == Delete(old(api.store.records))
      ensures Lookup(api.store.records) == None
      ensures api.sent == old(api.sent) + [LogoutRequest]
    {
      var r := api.Logout();
      api.store.RemoveToken();
      user := None;
      navigations := navigations + [HomePath];
    }
  }
}
