/** Small vocabulary shared by the other modules. */
module Common {

  datatype Option<+T> = None | Some(value: T) {
    function GetOr(default: T): T {
      if Some? then value else default
    }
  }

  function Min(a: int, b: int): int {
    if a <= b then a else b
  }

  function Max(a: int, b: int): int {
    if a >= b then a else b
  }

  /** The delivery priorities of the adapter protocol, most urgent first; Undeclared is any other string. */
  datatype Priority =
    | SecurityControl | DirectUser | CareSignal | ExplicitTask
    | LeadRoom | Broadcast | AddressedAgent | Informational | Undeclared

  /** A record is never ranked by an unknown string, but by its content. */
  function Rank(p: Priority): nat {
    match p
    case SecurityControl => 0
    case DirectUser => 1
    case CareSignal => 2
    case ExplicitTask => 3
    case LeadRoom => 4
    case Broadcast => 5
    case AddressedAgent => 6
    case Informational => 7
    case Undeclared => 8
  }

  /** The order of urgency that the adapter protocol documents. */
  const URGENCY: seq<Priority> :=
    [SecurityControl, DirectUser, CareSignal, ExplicitTask, LeadRoom, Broadcast, AddressedAgent, Informational]

  /** A priority ranks before another exactly when it is the more urgent of the two. */
  lemma RankIsUrgency(i: nat, j: nat)
    requires i < |URGENCY| && j < |URGENCY|
    ensures Rank(URGENCY[i]) < Rank(URGENCY[j]) <==> i < j
    ensures forall p: Priority :: p in URGENCY <==> !p.Undeclared?
  {
    forall p: Priority ensures p in URGENCY <==> !p.Undeclared? {
      assert !p.Undeclared? ==> URGENCY[Rank(p)] == p;
    }
  }

  predicate Protected(p: Priority) {
    p.SecurityControl? || p.CareSignal? || p.ExplicitTask?
  }

  predicate Direct(p: Priority) {
    p.DirectUser? || p.AddressedAgent?
  }

  /** A subset of a finite set has at most as many elements. */
  lemma {:induction false} SubsetSize<T>(a: set<T>, b: set<T>)
    requires a <= b
    ensures |a| <= |b|
    decreases a
  {
    if a != {} {
      var x :| x in a;
      SubsetSize(a - {x}, b - {x});
    }
  }
}
