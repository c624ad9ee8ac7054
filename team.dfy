/**
 * The team screen: switching one attendant permission on or off, and the
 * check on the new-user form before an account is requested.
 */
module Team {
  import opened Base
  import opened Types
  import opened App

  /** `{ ...perms, [key]: !perms[key] }` */
  function Toggled(perms: RolePermissions, key: PermissionKey): (r: RolePermissions)
    ensures Flag(r, key) == !Flag(perms, key)
    ensures forall k: PermissionKey :: k != key ==> Flag(r, k) == Flag(perms, k)
  {
    match key
    case MenuKey => perms.(menu := !perms.menu)
    case SalesKey => perms.(sales := !perms.sales)
    case OrdersKey => perms.(orders := !perms.orders)
    case CashierKey => perms.(cashier := !perms.cashier)
    case StockKey => perms.(stock := !perms.stock)
  }

  /** Two records with the same five flags are the same record. */
  lemma SameFlags(a: RolePermissions, b: RolePermissions)
    requires forall k: PermissionKey :: Flag(a, k) == Flag(b, k)
    ensures a == b
  {
    assert Flag(a, MenuKey) == Flag(b, MenuKey);
    assert Flag(a, SalesKey) == Flag(b, SalesKey);
    assert Flag(a, OrdersKey) == Flag(b, OrdersKey);
    assert Flag(a, CashierKey) == Flag(b, CashierKey);
    assert Flag(a, StockKey) == Flag(b, StockKey);
  }

  /** Toggling the same switch twice gives back the original record. */
  lemma ToggleTwice(perms: RolePermissions, key: PermissionKey)
    ensures Toggled(Toggled(perms, key), key) == perms
  {
    SameFlags(Toggled(Toggled(perms, key), key), perms);
  }

  /** Toggles of two different switches can be done in either order. */
  lemma ToggleCommutes(perms: RolePermissions, k1: PermissionKey, k2: PermissionKey)
    ensures Toggled(Toggled(perms, k1), k2) == Toggled(Toggled(perms, k2), k1)
  {
    SameFlags(Toggled(Toggled(perms, k1), k2), Toggled(Toggled(perms, k2), k1));
  }

  /** An attendant's access to a tab flips when its switch is toggled, and to no other tab. */
  lemma ToggleChangesOneTab(perms: RolePermissions, key: PermissionKey, tab: Tab)
    ensures HasAccess(Some(AtendenteRole), Toggled(perms, key), tab)
         == if tab == TabOf(key) then !HasAccess(Some(AtendenteRole), perms, tab)
            else HasAccess(Some(AtendenteRole), perms, tab)
  {
    FlagsMatchTabs(key, tab);
  }

  /** `togglePermission(key)`: one permission update carrying the toggled record. */
  method TogglePermission(store: Store, key: PermissionKey)
    modifies store`permissions
    ensures store.permissions == Toggled(old(store.permissions), key)
  {
    store.UpdatePermissions(Toggled(store.permissions, key));
  }

  /** The new-user form: e-mail, password and the role picked (attendant at first). */
  datatype NewUserForm = NewUserForm(email: string, password: string, role: Role)

  /** The sign-up request sent for an accepted form. */
  datatype SignUpRequest = SignUpRequest(email: string, password: string, role: Role)

  /** The form as the screen first shows it. */
  function EmptyNewUserForm(): (f: NewUserForm)
    ensures f.email == "" && f.password == "" && f.role == AtendenteRole
  {
    NewUserForm("", "", AtendenteRole)
  }

  /**
   * The check `handleCreateNewUser` makes before it signs anyone up: `None`
   * (the warning) when the e-mail is empty or the password has fewer than
   * six characters, else the request carrying the form's fields as typed.
   */
  function CreateNewUser(f: NewUserForm): (r: Option<SignUpRequest>)
    ensures r.None? <==> f.email == "" || |f.password| < 6
    ensures r.Some? ==> r.value.email == f.email && r.value.password == f.password && r.value.role == f.role
  {
    if f.email == "" || |f.password| < 6 then None
    else Some(SignUpRequest(f.email, f.password, f.role))
  }

  /** After a successful sign-up the e-mail and the password are cleared and the role is kept. */
  function AfterSignUp(f: NewUserForm): (g: NewUserForm)
    ensures g.email == "" && g.password == "" && g.role == f.role
  {
    f.(email := "", password := "")
  }

  /**
   * Submitting again right after a successful sign-up, or on the untouched
   * form, requests no second account.
   */
  lemma NoSignUpFromClearedForm(f: NewUserForm)
    ensures CreateNewUser(AfterSignUp(f)) == None
    ensures CreateNewUser(EmptyNewUserForm()) == None
  {
  }
}
