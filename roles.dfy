/**
 * The workspace roles and their rank order (src/domain/enums/Role.enum.ts).
 */
module Roles {

  datatype Role = Owner | Admin | Member | Viewer

  /** `RoleHierarchy`: the numeric rank of each role. */
  function Rank(r: Role): nat
  {
    match r
    case Owner => 4
    case Admin => 3
    case Member => 2
    case Viewer => 1
  }

  /** `hasHigherRole(a, b)`: a strictly outranks b. */
  predicate HasHigherRole(a: Role, b: Role)
  {
    Rank(a) > Rank(b)
  }

  /** `hasEqualOrHigherRole(a, b)`: a outranks or ties b. */
  predicate HasEqualOrHigherRole(a: Role, b: Role)
  {
    Rank(a) >= Rank(b)
  }

  /** The ranks are 1..4 with OWNER on top and VIEWER at the bottom, and no two roles share a rank. */
  lemma RanksDistinct(a: Role, b: Role)
    ensures 1 <= Rank(a) <= 4
    ensures Rank(Owner) == 4 && Rank(Admin) == 3 && Rank(Member) == 2 && Rank(Viewer) == 1
    ensures Rank(a) == Rank(b) <==> a == b
  {
  }

  /** No role outranks itself. */
  lemma HigherIrreflexive(r: Role)
    ensures !HasHigherRole(r, r)
  {
  }

  /** Outranking is asymmetric. */
  lemma HigherAsymmetric(a: Role, b: Role)
    ensures HasHigherRole(a, b) ==> !HasHigherRole(b, a)
  {
  }

  /** Outranking is transitive. */
  lemma HigherTransitive(a: Role, b: Role, c: Role)
    requires HasHigherRole(a, b) && HasHigherRole(b, c)
    ensures HasHigherRole(a, c)
  {
  }

  /** Of two distinct roles exactly one outranks the other. */
  lemma HigherTotal(a: Role, b: Role)
    requires a != b
    ensures HasHigherRole(a, b) != HasHigherRole(b, a)
  {
    RanksDistinct(a, b);
  }

  /** "Equal or higher" is reflexive and is exactly "higher, or the same role". */
  lemma EqualOrHigherIsHigherOrSame(a: Role, b: Role)
    ensures HasEqualOrHigherRole(a, a)
    ensures HasEqualOrHigherRole(a, b) <==> HasHigherRole(a, b) || a == b
  {
    RanksDistinct(a, b);
  }

  /** OWNER is at least every role, and every role is at least VIEWER. */
  lemma OwnerTopViewerBottom(r: Role)
    ensures HasEqualOrHigherRole(Owner, r)
    ensures HasEqualOrHigherRole(r, Viewer)
  {
  }
}
