/** Shared vocabulary of the blog back end: document ids, the authenticated
    principal, the outcome of a guarded operation and the ownership rule that
    every controller and several services apply. */
module Common {

  /** A document id (a MongoDB ObjectId). Ids are handed out in creation
      order, so a larger id is a newer document. */
  type Id = nat

  datatype Option<+T> = None | Some(value: T) {
    /** The value, or `default` when absent (a schema default). */
    function GetOr(default: T): T {
      match this
      case Some(v) => v
      case None => default
    }
  }

  /** `UserRole` of the users schema. */
  datatype Role = User | Admin

  /** The authenticated caller `req.user`: its id and its role. */
  datatype Principal = Principal(userId: Id, role: Role)

  /** What a guarded operation yields: a value or one of the failures the
      services and controllers raise. `Rejected` stands for a write that the
      document store itself refuses (a schema `required` validator or a
      unique index), which the source does not catch. */
  datatype Outcome<+T> = Ok(value: T) | NotFound | Conflict | Forbidden | Rejected

  /** The ownership rule: the caller owns the document or is an admin. */
  predicate OwnerOrAdmin(caller: Principal, ownerId: Id) {
    caller.userId == ownerId || caller.role == Admin
  }

  /** The ownership rule as a truth table over owner, stranger and admin:
      an admin passes for every owner, a non-admin exactly for its own
      documents. */
  lemma OwnerOrAdminTable(caller: Principal, ownerId: Id)
    ensures caller.role == Admin ==> OwnerOrAdmin(caller, ownerId)
    ensures caller.role == User ==> (OwnerOrAdmin(caller, ownerId) <==> caller.userId == ownerId)
  {
  }

  /** The ownership check as the source writes it. Before the comparison
      the stored owner reference has been replaced by the owner's user
      document, whose string form is never an id, so the owner clause never
      holds and only an admin passes. */
  predicate PopulatedGate(caller: Principal) {
    caller.role == Admin
  }

  /** The check as written admits no one the ownership rule refuses, and
      refuses every non-admin owner the ownership rule admits. */
  lemma PopulatedGateRefusesOwners(caller: Principal, ownerId: Id)
    ensures PopulatedGate(caller) ==> OwnerOrAdmin(caller, ownerId)
    ensures caller.role == User && caller.userId == ownerId ==> OwnerOrAdmin(caller, ownerId) && !PopulatedGate(caller)
  {
  }
}
