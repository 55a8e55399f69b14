/** Access control: a single owner with a two-step ownership handover, and
    owner-managed sets of admins and operators. */
module Access {
  import opened Base

  datatype Roles = Roles(
    owner: Address,
    pendingOwner: Address,
    admins: set<Address>,
    operators: set<Address>)

  datatype Role = Admin | Operator

  /** The deployer owns the contract; nobody else holds a role. */
  function InitRoles(owner: Address): Roles {
    Roles(owner, Null, {}, {})
  }

  function Members(r: Roles, role: Role): set<Address> {
    match role
    case Admin => r.admins
    case Operator => r.operators
  }

  function Other(role: Role): Role {
    match role
    case Admin => Operator
    case Operator => Admin
  }

  /** Membership queries; anyone may ask. */
  predicate IsAdmin(r: Roles, a: Address) {
    a in r.admins
  }

  predicate IsOperator(r: Roles, a: Address) {
    a in r.operators
  }

  /** Add the addresses one after the other, as the batch call's loop does;
      adding a member again is a no-op. */
  function AddEach(m: set<Address>, addrs: seq<Address>): (r: set<Address>)
    ensures forall a :: a in r <==> a in m || a in addrs
    decreases |addrs|
  {
    if addrs == [] then m else AddEach(m + {addrs[0]}, addrs[1..])
  }

  /** Remove the addresses one after the other; removing an address that is
      not a member is a no-op, not an error. */
  function RemoveEach(m: set<Address>, addrs: seq<Address>): (r: set<Address>)
    ensures forall a :: a in r <==> a in m && a !in addrs
    decreases |addrs|
  {
    if addrs == [] then m else RemoveEach(m - {addrs[0]}, addrs[1..])
  }

  function WithMembers(r: Roles, role: Role, m: set<Address>): Roles {
    match role
    case Admin => r.(admins := m)
    case Operator => r.(operators := m)
  }

  /** addAdmin / addOperator, single (a one-element batch) or batched:
      owner only. */
  function Grant(r: Roles, caller: Address, role: Role, addrs: seq<Address>): (res: Result<Roles>)
    ensures res.Ok? <==> caller == r.owner
    ensures res.Err? ==> res.error == Unauthorized
    ensures res.Ok? ==> forall a :: a in Members(res.value, role) <==> a in Members(r, role) || a in addrs
    ensures res.Ok? ==> Members(res.value, Other(role)) == Members(r, Other(role))
    ensures res.Ok? ==> res.value.owner == r.owner && res.value.pendingOwner == r.pendingOwner
  {
    if caller != r.owner then Err(Unauthorized)
    else Ok(WithMembers(r, role, AddEach(Members(r, role), addrs)))
  }

  /** removeAdmin / removeOperator, single or batched: owner only. */
  function Revoke(r: Roles, caller: Address, role: Role, addrs: seq<Address>): (res: Result<Roles>)
    ensures res.Ok? <==> caller == r.owner
    ensures res.Err? ==> res.error == Unauthorized
    ensures res.Ok? ==> forall a :: a in Members(res.value, role) <==> a in Members(r, role) && a !in addrs
    ensures res.Ok? ==> Members(res.value, Other(role)) == Members(r, Other(role))
    ensures res.Ok? ==> res.value.owner == r.owner && res.value.pendingOwner == r.pendingOwner
  {
    if caller != r.owner then Err(Unauthorized)
    else Ok(WithMembers(r, role, RemoveEach(Members(r, role), addrs)))
  }

  /** Granting the same batch twice is the same as granting it once. */
  lemma GrantIdempotent(r: Roles, caller: Address, role: Role, addrs: seq<Address>)
    requires caller == r.owner
    ensures Grant(Grant(r, caller, role, addrs).value, caller, role, addrs) == Grant(r, caller, role, addrs)
  {
    var once := Grant(r, caller, role, addrs).value;
    var twice := Grant(once, caller, role, addrs).value;
    assert Members(twice, role) == Members(once, role);
    match role {
      case Admin => assert twice.admins == once.admins;
      case Operator => assert twice.operators == once.operators;
    }
  }

  /** Removing addresses none of which is a member changes nothing. */
  lemma RevokeNonMembersIsNoOp(r: Roles, caller: Address, role: Role, addrs: seq<Address>)
    requires caller == r.owner
    requires forall a :: a in addrs ==> a !in Members(r, role)
    ensures Revoke(r, caller, role, addrs) == Ok(r)
  {
    var res := Revoke(r, caller, role, addrs).value;
    assert Members(res, role) == Members(r, role);
    match role {
      case Admin => assert res.admins == r.admins;
      case Operator => assert res.operators == r.operators;
    }
  }

  /** Granting a batch and then revoking it leaves exactly the members that
      were there before and are not in the batch. */
  lemma RevokeUndoesGrant(r: Roles, caller: Address, role: Role, addrs: seq<Address>)
    requires caller == r.owner
    ensures Members(Revoke(Grant(r, caller, role, addrs).value, caller, role, addrs).value, role)
         == Members(r, role) - set a | a in addrs
  {
  }

  /** transferOwnership: the owner nominates a successor, which only
      becomes pending; the contract's own address and the current owner
      cannot be nominated. */
  function TransferOwnership(r: Roles, self: Address, caller: Address, newOwner: Address): (res: Result<Roles>)
    ensures res.Ok? <==> caller == r.owner && newOwner != self && newOwner != r.owner
    ensures res.Err? ==> res.error == (if caller != r.owner then Unauthorized else InvalidArgument)
    ensures res.Ok? ==> res.value == r.(pendingOwner := newOwner)
  {
    if caller != r.owner then Err(Unauthorized)
    else if newOwner == self || newOwner == r.owner then Err(InvalidArgument)
    else Ok(r.(pendingOwner := newOwner))
  }

  /** claimOwnership: only the pending owner completes the handover. */
  function ClaimOwnership(r: Roles, caller: Address): (res: Result<Roles>)
    ensures res.Ok? <==> caller == r.pendingOwner && caller != Null
    ensures res.Err? ==> res.error == Unauthorized
    ensures res.Ok? ==> res.value.owner == caller && res.value.pendingOwner == Null
    ensures res.Ok? ==> res.value.admins == r.admins && res.value.operators == r.operators
  {
    if caller != r.pendingOwner || caller == Null then Err(Unauthorized)
    else Ok(r.(owner := r.pendingOwner, pendingOwner := Null))
  }

  /** The two steps together hand the contract to the nominee. */
  lemma HandoverCompletes(r: Roles, self: Address, newOwner: Address)
    requires newOwner != self && newOwner != r.owner && newOwner != Null
    ensures TransferOwnership(r, self, r.owner, newOwner).Ok?
    ensures ClaimOwnership(TransferOwnership(r, self, r.owner, newOwner).value, newOwner).Ok?
    ensures ClaimOwnership(TransferOwnership(r, self, r.owner, newOwner).value, newOwner).value.owner == newOwner
  {
  }
}
