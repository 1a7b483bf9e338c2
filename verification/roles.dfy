/**
 * Roles and their permission rows. A permission row is a set of boolean
 * flags, one per action (view, add, edit, delete) on each feature area; the
 * row is modelled as the set of flags that are true.
 */
module Roles {

  datatype Flag =
    | DashboardV
    | AccountsV | AccountsA | AccountsE | AccountsD
    | RolesV | RolesA | RolesE | RolesD
    | UsersV | UsersA | UsersE | UsersD
    | CustomerV | CustomerA | CustomerE | CustomerD
    | ProductsV | ProductsA | ProductsE | ProductsD
    | CategoryV | CategoryA | CategoryE | CategoryD
    | AllProductsV | AllProductsA | AllProductsE | AllProductsD
    | DailyProductionV | DailyProductionA | DailyProductionE | DailyProductionD
    | InventoryV | InventoryA | InventoryE | InventoryD
    | OrdersV | OrdersA | OrdersE | OrdersD
    | ReportsV | SReportsV | CReportsV

  /** The declared fields of a permission row: its key, its role, and the flags. */
  datatype Field = Id | RoleRef | Bool(flag: Flag)

  /** What a flag allows on its feature area. */
  datatype Action = View | Add | Edit | Delete

  function ActionOf(f: Flag): Action {
    match f
    case AccountsA | RolesA | UsersA | CustomerA | ProductsA | CategoryA
       | AllProductsA | DailyProductionA | InventoryA | OrdersA => Add
    case AccountsE | RolesE | UsersE | CustomerE | ProductsE | CategoryE
       | AllProductsE | DailyProductionE | InventoryE | OrdersE => Edit
    case AccountsD | RolesD | UsersD | CustomerD | ProductsD | CategoryD
       | AllProductsD | DailyProductionD | InventoryD | OrdersD => Delete
    case _ => View
  }

  /** The boolean fields of a permission row, in declaration order. */
  const PermissionFlags: seq<Flag> := [
    DashboardV,
    AccountsV, AccountsA, AccountsE, AccountsD,
    RolesV, RolesA, RolesE, RolesD,
    UsersV, UsersA, UsersE, UsersD,
    CustomerV, CustomerA, CustomerE, CustomerD,
    ProductsV, ProductsA, ProductsE, ProductsD,
    CategoryV, CategoryA, CategoryE, CategoryD,
    AllProductsV, AllProductsA, AllProductsE, AllProductsD,
    DailyProductionV, DailyProductionA, DailyProductionE, DailyProductionD,
    InventoryV, InventoryA, InventoryE, InventoryD,
    OrdersV, OrdersA, OrdersE, OrdersD,
    ReportsV, SReportsV, CReportsV
  ]

  /** All fields of a permission row in declaration order: its key, its role, then the flags. */
  const PermissionFields: seq<Field> :=
    [Id, RoleRef] + seq(|PermissionFlags|, k requires 0 <= k < |PermissionFlags| => Bool(PermissionFlags[k]))

  lemma EveryFlagListed(f: Flag)
    ensures f in PermissionFlags
  {
  }

  /** A permission row declares its key, its role, then one boolean field per flag. */
  lemma PermissionFieldsLayout()
    ensures |PermissionFields| == 46
    ensures PermissionFields[0] == Id && PermissionFields[1] == RoleRef
    ensures forall k :: 2 <= k < |PermissionFields| ==> PermissionFields[k].Bool?
    ensures forall f: Flag :: Bool(f) in PermissionFields
  {
    forall f: Flag
      ensures Bool(f) in PermissionFields
    {
      EveryFlagListed(f);
      var i :| 0 <= i < |PermissionFlags| && PermissionFlags[i] == f;
      assert PermissionFields[i + 2] == Bool(f);
    }
  }

  /**
   * The flags every role other than admin is given when saved: six flags,
   * each a view or an add flag, so none lets the role edit or delete.
   */
  function DefaultGrants(): (g: set<Flag>)
    ensures |g| == 6
    ensures forall f :: f in g ==> ActionOf(f) in {View, Add}
  {
    {DashboardV, AccountsV, CustomerV, CustomerA, OrdersV, OrdersA}
  }

  /** Lower-casing of one character, for the letters A to Z. */
  function LowerChar(c: char): char {
    if 'A' <= c <= 'Z' then (c as int - 'A' as int + 'a' as int) as char else c
  }

  function Lower(s: string): (r: string)
    ensures |r| == |s|
    ensures forall i :: 0 <= i < |s| ==> r[i] == LowerChar(s[i])
  {
    if s == [] then [] else [LowerChar(s[0])] + Lower(s[1..])
  }

  /** A role is the admin role exactly when its name spells "admin" in any mix of cases. */
  predicate IsAdminName(name: string)
    ensures IsAdminName(name) <==>
            |name| == 5 && forall i :: 0 <= i < 5 ==> name[i] == "admin"[i] || name[i] == "ADMIN"[i]
  {
    Lower(name) == "admin"
  }

  /** The permission row a role has before a save: the stored one, or a fresh all-false row. */
  function PriorGrants(rows: map<nat, set<Flag>>, role: nat): (g: set<Flag>)
    ensures role in rows ==> g == rows[role]
    ensures role !in rows ==> g == {}
  {
    if role in rows then rows[role] else {}
  }

  /** Sets every boolean field of a permission row to true, walking the declared fields. */
  method GrantEveryBooleanField(granted: set<Flag>) returns (all: set<Flag>)
    ensures forall f: Flag :: f in all
  {
    var fields := PermissionFields;
    PermissionFieldsLayout();
    all := granted;
    for i := 0 to |fields|
      invariant forall j :: 0 <= j < i && fields[j].Bool? ==> fields[j].flag in all
    {
      if fields[i].Bool? {
        all := all + {fields[i].flag};
      }
    }
    forall f: Flag
      ensures f in all
    {
      assert Bool(f) in fields;
    }
  }

  /** The permission rows, by role id; a role has at most one. */
  class PermissionTable {
    var rows: map<nat, set<Flag>>

    constructor ()
      ensures rows == map[]
    {
      rows := map[];
    }
  }

  class Role {
    var id: nat
    var name: string

    constructor (id: nat, name: string)
      ensures this.id == id && this.name == name
    {
      this.id := id;
      this.name := name;
    }

    /**
     * Saving a role makes sure it has a permission row: an admin role gets
     * every flag; any other role gets the default flags on top of whatever
     * its row already granted. No other role's row changes.
     */
    method Save(table: PermissionTable)
      modifies table
      ensures id in table.rows
      ensures table.rows == old(table.rows)[id := table.rows[id]]
      ensures IsAdminName(name) ==> forall f: Flag :: f in table.rows[id]
      ensures !IsAdminName(name) ==> table.rows[id] == PriorGrants(old(table.rows), id) + DefaultGrants()
      ensures !IsAdminName(name) ==>
                forall f :: f !in DefaultGrants() ==>
                  (f in table.rows[id] <==> f in PriorGrants(old(table.rows), id))
    {
      var granted := PriorGrants(table.rows, id);
      if IsAdminName(name) {
        granted := GrantEveryBooleanField(granted);
      } else {
        granted := granted + DefaultGrants();
      }
      table.rows := table.rows[id := granted];
    }
  }

  /** A role named "Admin" gets every flag. */
  method AdminScenario() {
    var table := new PermissionTable();
    var admin := new Role(1, "Admin");
    admin.Save(table);
    assert InventoryD in table.rows[1];
  }

  /** A sales role keeps the flag its row already had and gains the defaults. */
  method SalesScenario() {
    var table := new PermissionTable();
    table.rows := map[2 := {ReportsV}];
    var sales := new Role(2, "Sales");
    assert Lower("Sales")[0] == 's';
    sales.Save(table);
    assert ReportsV in table.rows[2] && OrdersA in table.rows[2];
    assert InventoryD !in table.rows[2];
  }
}
