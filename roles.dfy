/**
 * The `user_roles` table: each row binds a user to an `app_role`, and a
 * `vendor_staff` row also to the outlet the user works at.
 */
module Roles {
  import opened Wrappers
  import opened Seqs

  /** The `app_role` enum. */
  datatype AppRole = Customer | VendorStaff | Admin

  /** A row of `user_roles`. */
  datatype RoleRow = RoleRow(userId: string, role: AppRole, outletId: Option<int>)

  /** The selector `.eq('user_id', u).eq('role', 'vendor_staff').eq('outlet_id', o)`. */
  function IsStaffOf(userId: string, outletId: int): RoleRow -> bool
  {
    (r: RoleRow) => r.userId == userId && r.role == VendorStaff && r.outletId == Some(outletId)
  }

  /** The `vendor_staff` rows binding `userId` to `outletId`. */
  function StaffRows(roles: seq<RoleRow>, userId: string, outletId: int): (r: seq<RoleRow>)
    ensures forall x :: x in r <==> x in roles && x.userId == userId && x.role == VendorStaff && x.outletId == Some(outletId)
  {
    Filter(roles, IsStaffOf(userId, outletId))
  }

  /** The selector `.eq('user_id', u)`. */
  function OfUser(userId: string): RoleRow -> bool
  {
    (r: RoleRow) => r.userId == userId
  }

  /**
   * `.from('user_roles').select(...).eq('user_id', u).single()`: the caller's
   * one role row, or `None` when the query fails or finds no row or several.
   */
  function SingleRole(roles: seq<RoleRow>, userId: string, fails: bool): (r: Option<RoleRow>)
    ensures r.Some? <==> !fails && |Filter(roles, OfUser(userId))| == 1
    ensures r.Some? ==> r.value in roles && r.value.userId == userId
  {
    var rows := Filter(roles, OfUser(userId));
    if fails || |rows| != 1 then None else Some(rows[0])
  }

  /** A caller with two role rows has no single role: every role check refuses them. */
  lemma TwoRowsNoRole(roles: seq<RoleRow>, userId: string, a: RoleRow, b: RoleRow)
    requires a in roles && b in roles && a != b && a.userId == userId && b.userId == userId
    ensures SingleRole(roles, userId, false) == None
  {
    var rows := Filter(roles, OfUser(userId));
    assert a in rows && b in rows;
    if |rows| == 1 {
      assert false;
    }
  }
}
