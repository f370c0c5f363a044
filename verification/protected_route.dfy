/**
 * The route guard: nothing while the stored role is being read, then a
 * redirect home without a role, a redirect to "/unauthorized" for a role
 * the route does not allow, and the nested routes otherwise.
 */
module ProtectedRoute {
  import opened Common

  datatype Rendered = Nothing | Redirect(to: string) | Outlet

  /** The render decision of the guard. */
  function Render(loading: bool, role: Option<string>, allowedRoles: seq<string>): (r: Rendered)
    ensures r == Nothing <==> loading
    ensures r == Redirect("/") <==> !loading && !Truthy(role)
    ensures r == Redirect("/unauthorized") <==> !loading && Truthy(role) && role.value !in allowedRoles
    ensures r == Outlet <==> !loading && Truthy(role) && role.value in allowedRoles
  {
    if loading then Nothing
    else if !Truthy(role) then Redirect("/")
    else if role.value !in allowedRoles then Redirect("/unauthorized")
    else Outlet
  }

  /** The guard's state: the role in the shared context and its own loading flag. */
  class RouteGuard {
    var role: Option<string>
    var loading: bool

    constructor (contextRole: Option<string>)
      ensures role == contextRole && loading
    {
      role := contextRole;
      loading := true;
    }

    /** What the guard renders in its current state. */
    function Decision(allowedRoles: seq<string>): Rendered
      reads this
    {
      Render(loading, role, allowedRoles)
    }

    /**
     * The effect: copy the stored role into the context if there is one,
     * then stop loading. Afterwards a stored role alone decides the render;
     * without one, the context's role does.
     */
    method RunEffect(storedRole: Option<string>)
      modifies this
      ensures role == (if Truthy(storedRole) then storedRole else old(role))
      ensures !loading
      ensures Truthy(storedRole) ==>
                forall allowedRoles :: Decision(allowedRoles) ==
                  (if storedRole.value in allowedRoles then Outlet else Redirect("/unauthorized"))
      ensures !Truthy(storedRole) ==> forall allowedRoles :: Decision(allowedRoles) == Render(false, old(role), allowedRoles)
    {
      if Truthy(storedRole) {
        role := storedRole;
      }
      loading := false;
    }

  }
}
