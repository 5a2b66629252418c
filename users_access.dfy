/**
 * The users collection's access rules and its `role` field. Each rule maps
 * the requesting user to an access result in the CMS's terms: `true`,
 * `false`, or a query constraint on the records; `Decide` applies such a
 * result to one record and gives the (actor, record) verdict.
 */
module UserAccess {
  import opened Domain

  const AdminRole: string := "admin"

  /** The signed-in user as the rules see it. */
  datatype Actor = Actor(id: Id, role: string)

  /** The request's user, absent for an anonymous request. */
  datatype Caller = Anonymous | SignedIn(actor: Actor)

  /**
   * What an access rule returns. `Throws` is a rule that reads the role of an
   * absent user and raises instead of answering.
   */
  datatype Access = Granted | Denied | WhereIdEquals(id: Id) | Throws

  datatype Operation = Read | Create | Update | Delete

  /** The verdict for one operation on one record; `Fault` when the rule raised. */
  datatype Verdict = Allow | Deny | Fault

  predicate IsAdmin(a: Actor) {
    a.role == AdminRole
  }

  /** The read rule: admins read every user, others only the record with their own id. */
  function AdminAndUser(c: Caller): (access: Access)
    ensures c.Anonymous? <==> access == Throws
    ensures c.SignedIn? && IsAdmin(c.actor) <==> access == Granted
    ensures c.SignedIn? && !IsAdmin(c.actor) <==> access.WhereIdEquals?
    ensures access.WhereIdEquals? ==> c.SignedIn? && access.id == c.actor.id
  {
    match c
    case Anonymous => Throws
    case SignedIn(a) => if IsAdmin(a) then Granted else WhereIdEquals(a.id)
  }

  /** The create rule ignores the request: anyone, signed in or not, may sign up. */
  function CreateAccess(c: Caller): (access: Access)
    ensures access == Granted
  {
    Granted
  }

  /** The rule shared by update and delete: a yes/no answer on the caller's role. */
  function AdminOnly(c: Caller): Access {
    match c
    case Anonymous => Throws
    case SignedIn(a) => if IsAdmin(a) then Granted else Denied
  }

  /** The update rule: granted exactly to admins, and never a query constraint. */
  function UpdateAccess(c: Caller): (access: Access)
    ensures access == Granted <==> c.SignedIn? && IsAdmin(c.actor)
    ensures access == Denied <==> c.SignedIn? && !IsAdmin(c.actor)
    ensures access == Throws <==> c.Anonymous?
  {
    AdminOnly(c)
  }

  /** The delete rule: granted exactly to admins, and never a query constraint. */
  function DeleteAccess(c: Caller): (access: Access)
    ensures access == Granted <==> c.SignedIn? && IsAdmin(c.actor)
    ensures access == Denied <==> c.SignedIn? && !IsAdmin(c.actor)
    ensures access == Throws <==> c.Anonymous?
  {
    AdminOnly(c)
  }

  /** The admin panel hides the collection from every signed-in user who is not an admin. */
  function Hidden(user: Actor): (hidden: bool)
    ensures hidden <==> user.role != "admin"
  {
    user.role != AdminRole
  }

  function AccessFor(op: Operation, c: Caller): Access {
    match op
    case Read => AdminAndUser(c)
    case Create => CreateAccess(c)
    case Update => UpdateAccess(c)
    case Delete => DeleteAccess(c)
  }

  /** How an access result applies to the record with id `recordId`. */
  function Apply(access: Access, recordId: Id): Verdict {
    match access
    case Granted => Allow
    case Denied => Deny
    case WhereIdEquals(id) => if recordId == id then Allow else Deny
    case Throws => Fault
  }

  /**
   * The policy as a function of (actor, record): create is open to all;
   * admins may do everything; a non-admin may read only their own record;
   * any other operation by an anonymous request raises.
   */
  function Decide(op: Operation, c: Caller, recordId: Id): (v: Verdict)
    ensures v == Fault <==> c.Anonymous? && op != Create
    ensures v == Allow <==>
      || op == Create
      || (c.SignedIn? && IsAdmin(c.actor))
      || (c.SignedIn? && op == Read && recordId == c.actor.id)
  {
    Apply(AccessFor(op, c), recordId)
  }

  /**
   * The panel hides the collection from exactly the users who may neither
   * update nor delete any user, and a non-admin's read filter admits exactly
   * one record.
   */
  lemma HiddenExactlyForNonAdmins(a: Actor, recordId: Id)
    ensures Hidden(a) <==> Decide(Update, SignedIn(a), recordId) == Deny
    ensures Hidden(a) <==> Decide(Delete, SignedIn(a), recordId) == Deny
    ensures Hidden(a) ==> (Decide(Read, SignedIn(a), recordId) == Allow <==> recordId == a.id)
  {
  }

  /** The choices of the `role` select field, and its default. */
  const RoleOptions: seq<string> := ["admin", "user"]
  const DefaultRole: string := "user"

  datatype RoleError = NotAnOption(value: string)

  /**
   * The role a user document is stored with: the default when none is given,
   * the given value when it is one of the options, a validation error otherwise.
   */
  function ResolveRole(given: Option<string>): (role: Result<string, RoleError>)
    ensures role.Ok? ==> role.value in RoleOptions
    ensures given.None? ==> role == Ok("user")
    ensures given.Some? ==> (role.Ok? <==> given.value in RoleOptions)
    ensures given.Some? && role.Ok? ==> role.value == given.value
  {
    match given
    case None => Ok(DefaultRole)
    case Some(v) => if v in RoleOptions then Ok(v) else Err(NotAnOption(v))
  }

  /** A user created without a role is no admin: update and delete are refused to them. */
  lemma DefaultRoleIsNotAdmin(id: Id, recordId: Id)
    ensures ResolveRole(None).Ok?
    ensures var a := Actor(id, ResolveRole(None).value);
            Hidden(a) && Decide(Update, SignedIn(a), recordId) == Deny
            && Decide(Delete, SignedIn(a), recordId) == Deny
  {
  }

  /**
   * The `role` field has no access rule of its own: any request may create a
   * user, a given role of `admin` is stored as given, and a user stored with it
   * passes every rule.
   */
  lemma SignUpMayChooseAdmin(c: Caller, id: Id, op: Operation, recordId: Id)
    ensures Decide(Create, c, id) == Allow
    ensures ResolveRole(Some("admin")) == Ok("admin")
    ensures Decide(op, SignedIn(Actor(id, ResolveRole(Some("admin")).value)), recordId) == Allow
  {
  }
}
