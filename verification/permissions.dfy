/**
  The permission classes of the API (api/permissions.py) and the stock
  `IsAuthenticated` class of the REST framework that the views combine them with.

  Every check is a pure boolean function of the HTTP verb, of the requesting
  user and, for object checks, of the object's author. Next to the checks sits
  a reference decision table: the access rules the API is meant to enforce,
  written over a closed set of privilege tiers in which the superuser flag
  always counts as the admin role. The lemmas below compare each class with
  that table.
*/
module Permissions {

  /** The methods the REST framework calls safe (`SAFE_METHODS`). */
  predicate IsSafe(verb: string) {
    verb == "GET" || verb == "HEAD" || verb == "OPTIONS"
  }

  const AdminRole := "admin"
  const ModeratorRole := "moderator"
  const UserRole := "user"

  /**
    `request.user`: either Django's anonymous user, which is never authenticated
    and has no `role` attribute, or a stored user, seen through its primary key
    and the two attributes the checks read.
  */
  datatype Actor = Anonymous | Member(id: nat, role: string, isSuperuser: bool)

  /** The object an object-level check is asked about: a review or comment has an author, other objects do not. */
  datatype Target = Authored(author: nat) | Unauthored

  /** `obj.author == request.user`: model instances are equal when their primary keys are. */
  predicate IsAuthor(a: Actor, t: Target)
    requires t.Authored?
  {
    a.Member? && a.id == t.author
  }

  /** True of the actor that holds the `admin` role or the superuser flag. */
  predicate AdminOrSuperuser(a: Actor)
    requires a.Member?
  {
    a.role == AdminRole || a.isSuperuser
  }

  // ---------------------------------------------------------------------
  // The permission classes as written
  // ---------------------------------------------------------------------

  /** The framework's `IsAuthenticated.has_permission`. */
  predicate IsAuthenticatedHasPermission(verb: string, a: Actor) {
    a.Member?
  }

  predicate IsAdminHasPermission(verb: string, a: Actor) {
    a.Member? && AdminOrSuperuser(a)
  }

  predicate IsAdminHasObjectPermission(verb: string, a: Actor, t: Target) {
    a.Member? && AdminOrSuperuser(a)
  }

  predicate RoleHasPermission(verb: string, a: Actor) {
    IsSafe(verb) || a.Member?
  }

  /**
    Reading `role` of the anonymous user would fail, so the check is only
    defined where the framework calls it: after `RoleHasPermission` allowed,
    on an object that has an author.
  */
  predicate RoleHasObjectPermission(verb: string, a: Actor, t: Target)
    requires RoleHasPermission(verb, a)
    requires t.Authored?
  {
    IsSafe(verb)
    || a.role == AdminRole
    || a.role == ModeratorRole
    || IsAuthor(a, t)
  }

  predicate GenreHasPermission(verb: string, a: Actor) {
    if IsSafe(verb) then true
    else if !a.Member? then false
    else if AdminOrSuperuser(a) then true
    else false
  }

  predicate TitleHasPermission(verb: string, a: Actor) {
    if IsSafe(verb) then true
    else if !a.Member? then false
    else if AdminOrSuperuser(a) then true
    else false
  }

  // ---------------------------------------------------------------------
  // The reference decision table, over a closed set of tiers
  // ---------------------------------------------------------------------

  /** Privilege tiers; any role string other than the two privileged ones is the lowest tier. */
  datatype Tier = Visitor | Regular | Moderator | Administrator

  /** The tier of an actor: the superuser flag stands for the admin role. */
  function TierOf(a: Actor): (tier: Tier) {
    match a
    case Anonymous => Visitor
    case Member(_, role, isSuperuser) =>
      if role == AdminRole || isSuperuser then Administrator
      else if role == ModeratorRole then Moderator
      else Regular
  }

  /** Titles, genres and categories: anyone reads, only administrators write. */
  predicate CatalogueRule(verb: string, tier: Tier) {
    IsSafe(verb) || tier == Administrator
  }

  /** Review and comment collections: anyone reads, any signed-in user writes. */
  predicate FeedbackCollectionRule(verb: string, tier: Tier) {
    IsSafe(verb) || tier != Visitor
  }

  /** A single review or comment: anyone reads; administrators, moderators and its author write. */
  predicate FeedbackObjectRule(verb: string, tier: Tier, isAuthor: bool) {
    IsSafe(verb) || tier == Administrator || tier == Moderator || isAuthor
  }

  /** The user-administration endpoint: administrators only, whatever the verb. */
  predicate UserAdminRule(tier: Tier) {
    tier == Administrator
  }

  // ---------------------------------------------------------------------
  // What the classes decide
  // ---------------------------------------------------------------------

  /** `IsAdmin` is the user-administration rule, and its object check answers as its collection check does, for any verb and any object. */
  lemma IsAdminDecision(verb: string, other: string, a: Actor, t: Target)
    ensures IsAdminHasPermission(verb, a) <==> a.Member? && (a.role == AdminRole || a.isSuperuser)
    ensures IsAdminHasPermission(verb, a) == UserAdminRule(TierOf(a))
    ensures IsAdminHasObjectPermission(other, a, t) == IsAdminHasPermission(verb, a)
  {
  }

  /** `RolePermission` lets every safe verb through, even for the anonymous user, and any other verb only for a signed-in user. */
  lemma RoleCollectionDecision(verb: string, a: Actor)
    ensures IsSafe(verb) ==> RoleHasPermission(verb, a)
    ensures !IsSafe(verb) ==> (RoleHasPermission(verb, a) <==> a.Member?)
    ensures RoleHasPermission(verb, a) == FeedbackCollectionRule(verb, TierOf(a))
  {
  }

  /**
    `RolePermission`'s object check allows an unsafe verb exactly to the
    `admin` and `moderator` roles and to the object's author; for everyone
    but a superuser that is the reference rule for a single review or comment.
  */
  lemma RoleObjectDecision(verb: string, a: Actor, t: Target)
    requires RoleHasPermission(verb, a) && t.Authored?
    ensures !IsSafe(verb) ==>
      (RoleHasObjectPermission(verb, a, t) <==>
        a.role == AdminRole || a.role == ModeratorRole || a.id == t.author)
    ensures !(a.Member? && a.isSuperuser) ==>
      RoleHasObjectPermission(verb, a, t) == FeedbackObjectRule(verb, TierOf(a), IsAuthor(a, t))
  {
  }

  /** The superuser flag is never read by `RolePermission`'s object check. */
  lemma RoleObjectIgnoresSuperuser(verb: string, a: Actor, t: Target, flag: bool)
    requires a.Member? && t.Authored?
    ensures RoleHasObjectPermission(verb, a, t) == RoleHasObjectPermission(verb, a.(isSuperuser := flag), t)
  {
  }

  /**
    Against the reference rule that the superuser flag always counts as the
    admin role: a superuser whose role is `user` may not change a review
    written by someone else.
  */
  lemma SuperuserDeniedOthersReview()
    ensures exists a: Actor, t: Target ::
      a.Member? && t.Authored? && TierOf(a) == Administrator &&
      !RoleHasObjectPermission("PATCH", a, t)
  {
    var a := Member(1, UserRole, true);
    var t := Authored(2);
    assert TierOf(a) == Administrator && !RoleHasObjectPermission("PATCH", a, t);
  }

  /** Authorship overrides the role: a `user` may change what they wrote, and another `user` may not. */
  lemma AuthorOverride(verb: string, writer: nat, other: nat)
    requires writer != other
    ensures RoleHasObjectPermission(verb, Member(writer, UserRole, false), Authored(writer))
    ensures !IsSafe(verb) ==> !RoleHasObjectPermission(verb, Member(other, UserRole, false), Authored(writer))
  {
  }

  /** `GenrePermission` and `TitlePermission` are the same decision, and it is the reference catalogue rule. */
  lemma GenreTitleAgree(verb: string, a: Actor)
    ensures GenreHasPermission(verb, a) == TitleHasPermission(verb, a)
    ensures IsSafe(verb) ==> TitleHasPermission(verb, a)
    ensures !IsSafe(verb) && !a.Member? ==> !TitleHasPermission(verb, a)
    ensures !IsSafe(verb) && a.Member? ==> (TitleHasPermission(verb, a) <==> a.role == AdminRole || a.isSuperuser)
    ensures TitleHasPermission(verb, a) == CatalogueRule(verb, TierOf(a))
  {
  }

  /**
    A role other than `admin` or `moderator` (`user`, or any unknown string)
    gives a non-superuser no authority to write: only authorship does.
  */
  lemma NoAuthorityFromOtherRoles(verb: string, a: Actor, t: Target)
    requires a.Member? && !a.isSuperuser
    requires a.role != AdminRole && a.role != ModeratorRole
    requires !IsSafe(verb)
    ensures TierOf(a) == Regular
    ensures !IsAdminHasPermission(verb, a) && !IsAdminHasObjectPermission(verb, a, t)
    ensures !GenreHasPermission(verb, a) && !TitleHasPermission(verb, a)
    ensures t.Authored? ==> (RoleHasObjectPermission(verb, a, t) <==> IsAuthor(a, t))
  {
  }

  /** Raising the superuser flag never turns an allowed decision into a denial. */
  lemma SuperuserMonotone(verb: string, a: Actor, t: Target)
    requires a.Member?
    ensures IsAdminHasPermission(verb, a) ==> IsAdminHasPermission(verb, a.(isSuperuser := true))
    ensures IsAdminHasObjectPermission(verb, a, t) ==> IsAdminHasObjectPermission(verb, a.(isSuperuser := true), t)
    ensures GenreHasPermission(verb, a) ==> GenreHasPermission(verb, a.(isSuperuser := true))
    ensures TitleHasPermission(verb, a) ==> TitleHasPermission(verb, a.(isSuperuser := true))
  {
  }
}
