/**
  The request-level decisions of api/views.py that are pure: which permission
  classes guard each viewset and how the framework combines them, and which
  serializer a viewset picks for a request.
*/
module Views {
  import opened Permissions

  /** The permission classes that appear in the views' `permission_classes`. */
  datatype PermissionClass = IsAuthenticated | IsAdmin | RolePermission | GenrePermission | TitlePermission

  /** `has_permission` of one class. */
  predicate HasPermission(pc: PermissionClass, verb: string, a: Actor) {
    match pc
    case IsAuthenticated => IsAuthenticatedHasPermission(verb, a)
    case IsAdmin => IsAdminHasPermission(verb, a)
    case RolePermission => RoleHasPermission(verb, a)
    case GenrePermission => GenreHasPermission(verb, a)
    case TitlePermission => TitleHasPermission(verb, a)
  }

  /**
    `has_object_permission` of one class; `IsAuthenticated`, `GenrePermission`
    and `TitlePermission` keep the framework's default, which allows. The
    framework asks only after `has_permission` allowed.
  */
  predicate HasObjectPermission(pc: PermissionClass, verb: string, a: Actor, t: Target)
    requires HasPermission(pc, verb, a)
    requires pc == RolePermission ==> t.Authored?
  {
    match pc
    case IsAdmin => IsAdminHasObjectPermission(verb, a, t)
    case RolePermission => RoleHasObjectPermission(verb, a, t)
    case _ => true
  }

  /** The framework runs the classes in order and denies at the first that denies. */
  function AllGrant(classes: seq<PermissionClass>, verb: string, a: Actor): (r: bool)
    ensures r <==> forall i :: 0 <= i < |classes| ==> HasPermission(classes[i], verb, a)
  {
    if classes == [] then true
    else HasPermission(classes[0], verb, a) && AllGrant(classes[1..], verb, a)
  }

  /** The object-level pass over the same classes, run once the collection-level pass allowed. */
  function AllGrantObject(classes: seq<PermissionClass>, verb: string, a: Actor, t: Target): (r: bool)
    requires forall i :: 0 <= i < |classes| ==> HasPermission(classes[i], verb, a)
    requires RolePermission in classes ==> t.Authored?
    ensures r <==> forall i :: 0 <= i < |classes| ==> HasObjectPermission(classes[i], verb, a, t)
  {
    if classes == [] then true
    else
      assert forall i :: 1 <= i < |classes| ==> classes[i] == classes[1..][i - 1];
      HasObjectPermission(classes[0], verb, a, t) && AllGrantObject(classes[1..], verb, a, t)
  }

  /** The viewsets and the `me` action, which declares its own permission classes. */
  datatype Endpoint = Users | UsersMe | Titles | Genres | Categories | Reviews | Comments

  /** The `permission_classes` each viewset or action declares. */
  function PermissionClasses(e: Endpoint): (classes: seq<PermissionClass>) {
    match e
    case Users => [IsAuthenticated, IsAdmin]
    case UsersMe => [IsAuthenticated]
    case Titles => [TitlePermission]
    case Genres => [GenrePermission]
    case Categories => [TitlePermission]
    case Reviews => [RolePermission]
    case Comments => [RolePermission]
  }

  /** The collection-level decision on a request to an endpoint. */
  predicate Allowed(e: Endpoint, verb: string, a: Actor) {
    AllGrant(PermissionClasses(e), verb, a)
  }

  /** The object-level decision, taken once the object is found; review and comment objects have an author. */
  predicate ObjectAllowed(e: Endpoint, verb: string, a: Actor, t: Target)
    requires Allowed(e, verb, a)
    requires e == Reviews || e == Comments ==> t.Authored?
  {
    AllGrantObject(PermissionClasses(e), verb, a, t)
  }

  /** The user-administration viewset needs a signed-in admin or superuser; its `me` action only a signed-in user. */
  lemma UserEndpointsGuard(verb: string, a: Actor, t: Target)
    ensures Allowed(Users, verb, a) <==> a.Member? && (a.role == AdminRole || a.isSuperuser)
    ensures Allowed(Users, verb, a) ==> ObjectAllowed(Users, verb, a, t)
    ensures Allowed(UsersMe, verb, a) <==> a.Member?
  {
    assert PermissionClasses(Users)[1] == IsAdmin;
  }

  /** Every safe method is allowed on the catalogue and on reviews and comments, even to the anonymous user, at both levels. */
  lemma SafeMethodsAlwaysAllowed(e: Endpoint, verb: string, a: Actor, t: Target)
    requires e != Users && e != UsersMe
    requires IsSafe(verb)
    requires e == Reviews || e == Comments ==> t.Authored?
    ensures Allowed(e, verb, a) && ObjectAllowed(e, verb, a, t)
  {
  }

  /** On titles, genres and categories an unsafe method is allowed exactly to a signed-in admin or superuser. */
  lemma CatalogueWrites(e: Endpoint, verb: string, a: Actor, t: Target)
    requires e == Titles || e == Genres || e == Categories
    requires !IsSafe(verb)
    ensures Allowed(e, verb, a) <==> a.Member? && (a.role == AdminRole || a.isSuperuser)
    ensures Allowed(e, verb, a) ==> ObjectAllowed(e, verb, a, t)
  {
    assert PermissionClasses(e)[0] == TitlePermission || PermissionClasses(e)[0] == GenrePermission;
  }

  /**
    On reviews and comments any signed-in user may create, and an unsafe
    method on a single object is allowed exactly to the `admin` and
    `moderator` roles and to the object's author.
  */
  lemma FeedbackWrites(e: Endpoint, verb: string, a: Actor, t: Target)
    requires e == Reviews || e == Comments
    requires !IsSafe(verb) && t.Authored?
    ensures Allowed(e, verb, a) <==> a.Member?
    ensures Allowed(e, verb, a) ==>
      (ObjectAllowed(e, verb, a, t) <==> a.role == AdminRole || a.role == ModeratorRole || a.id == t.author)
  {
    assert PermissionClasses(e)[0] == RolePermission;
  }

  /** Raising the superuser flag never turns an allowed decision into a denial, on any endpoint, at either level. */
  lemma SuperuserNeverLosesAccess(e: Endpoint, verb: string, a: Actor, t: Target)
    requires a.Member?
    requires e == Reviews || e == Comments ==> t.Authored?
    ensures Allowed(e, verb, a) ==> Allowed(e, verb, a.(isSuperuser := true))
    ensures Allowed(e, verb, a) ==>
      ObjectAllowed(e, verb, a, t) ==> ObjectAllowed(e, verb, a.(isSuperuser := true), t)
  {
  }

  // ---------------------------------------------------------------------
  // Serializer selection
  // ---------------------------------------------------------------------

  datatype Serializer = UserSerializer | AdminSerializer | TitleGetSerializer | TitlePostSerializer

  /** The `role` field is read-only in `UserSerializer` and writable in `AdminSerializer`. */
  predicate RoleWritable(s: Serializer) {
    s == AdminSerializer
  }

  /**
    `UserViewSet.get_serializer_class`: reached only for a signed-in user.
    Only an admin who is not a superuser gets the serializer that can write
    `role`; a superuser, whatever the role, gets the one that cannot.
  */
  function UserViewSerializer(a: Actor): (s: Serializer)
    requires a.Member?
    ensures s == AdminSerializer || s == UserSerializer
    ensures RoleWritable(s) <==> a.role == AdminRole && !a.isSuperuser
  {
    if a.role != AdminRole || a.isSuperuser then UserSerializer else AdminSerializer
  }

  /** `TitleViewSet.get_serializer_class`: the write serializer for POST, PATCH and DELETE only; PUT and every other method read. */
  function TitleViewSerializer(verb: string): (s: Serializer)
    ensures s == TitlePostSerializer || s == TitleGetSerializer
    ensures s == TitlePostSerializer <==> verb in {"POST", "PATCH", "DELETE"}
  {
    if verb == "POST" || verb == "PATCH" || verb == "DELETE" then TitlePostSerializer else TitleGetSerializer
  }

  /**
    On the user-administration viewset, everyone let through is an admin or
    a superuser, and of those exactly the non-superuser admins may set roles.
  */
  lemma RoleAssignment(verb: string, a: Actor)
    requires Allowed(Users, verb, a)
    ensures a.Member?
    ensures RoleWritable(UserViewSerializer(a)) <==> !a.isSuperuser
  {
    UserEndpointsGuard(verb, a, Unauthored);
  }
}
