/** The sidebar's navigation: a fixed table of pages, each open to a list of
    roles, shown to the session user filtered by role. */
module Navigation {
  import opened Wrappers
  import opened Types
  import opened Seqs
  import Auth

  /** The eleven entries of the sidebar, one per page; an entry's title,
      target and roles are functions of its page, and its icon is left
      out. */
  datatype NavItem =
    | DashboardItem | BusinessItem | SubscriptionItem | BillingItem | UsersItem
    | BranchesItem | ProductsItem | PosItem | SalesItem | ReportsItem | AuditLogItem

  function Title(item: NavItem): string {
    match item
    case DashboardItem => "Dashboard"
    case BusinessItem => "Negocio"
    case SubscriptionItem => "Suscripción"
    case BillingItem => "Facturación SaaS"
    case UsersItem => "Usuarios"
    case BranchesItem => "Sucursales"
    case ProductsItem => "Productos"
    case PosItem => "Punto de Venta"
    case SalesItem => "Historial de Ventas"
    case ReportsItem => "Reportes"
    case AuditLogItem => "Bitácora"
  }

  function Href(item: NavItem): string {
    match item
    case DashboardItem => "/dashboard"
    case BusinessItem => "/business"
    case SubscriptionItem => "/subscription"
    case BillingItem => "/billing"
    case UsersItem => "/users"
    case BranchesItem => "/branches"
    case ProductsItem => "/products"
    case PosItem => "/pos"
    case SalesItem => "/sales"
    case ReportsItem => "/reports"
    case AuditLogItem => "/audit-log"
  }

  /** The roles an entry is shown to. */
  function Roles(item: NavItem): seq<Role> {
    match item
    case DashboardItem | PosItem | SalesItem => [Owner, Administrador, Cajero]
    case BranchesItem | ProductsItem | ReportsItem => [Owner, Administrador]
    case BusinessItem | SubscriptionItem | BillingItem | UsersItem | AuditLogItem => [Owner]
  }

  /** The entries in the sidebar's order. */
  const NavigationItems: seq<NavItem> := [
    DashboardItem, BusinessItem, SubscriptionItem, BillingItem, UsersItem,
    BranchesItem, ProductsItem, PosItem, SalesItem, ReportsItem, AuditLogItem]

  /** The table lists every page once. */
  lemma TableListsEveryPageOnce(item: NavItem)
    ensures item in NavigationItems
    ensures forall i, j :: 0 <= i < j < |NavigationItems| ==> NavigationItems[i] != NavigationItems[j]
  {
  }

  function AllowedFor(user: Option<User>): NavItem -> bool {
    (item: NavItem) => Auth.Permits(user, Roles(item))
  }

  /** The entries the session user's role may open, in table order. */
  function VisibleItems(user: Option<User>): (r: seq<NavItem>)
    ensures |r| <= |NavigationItems|
  {
    Filter(NavigationItems, AllowedFor(user))
  }

  /** An entry is shown exactly when the user's role is among its roles. */
  lemma VisibleIffPermitted(user: Option<User>, item: NavItem)
    ensures item in VisibleItems(user) <==> user.Some? && user.value.role in Roles(item)
  {
    TableListsEveryPageOnce(item);
  }

  /** With no one signed in the sidebar is empty. */
  lemma NoUserSeesNothing()
    ensures VisibleItems(None) == []
  {
  }

  /** The entries of the table from position `k` on whose roles include
      `role`, in order: the sidebar's filter for a signed-in user, written
      out by recursion over the table. */
  function ShownFrom(role: Role, k: nat): (r: seq<NavItem>)
    requires k <= |NavigationItems|
    ensures |r| <= |NavigationItems| - k
    decreases |NavigationItems| - k
  {
    if k >= |NavigationItems| then []
    else (if role in Roles(NavigationItems[k]) then [NavigationItems[k]] else []) + ShownFrom(role, k + 1)
  }

  /** The sidebar's filter for a signed-in user agrees with `ShownFrom` on
      every tail of the table. */
  lemma {:induction false} FilterIsShownFrom(u: User, k: nat)
    requires k <= |NavigationItems|
    ensures Filter(NavigationItems[k..], AllowedFor(Some(u))) == ShownFrom(u.role, k)
    decreases |NavigationItems| - k
  {
    if k < |NavigationItems| {
      FilterIsShownFrom(u, k + 1);
      assert NavigationItems[k..][1..] == NavigationItems[k + 1..];
    }
  }

  /** The whole sidebar for a signed-in user. */
  lemma VisibleIsShownFrom(u: User)
    ensures VisibleItems(Some(u)) == ShownFrom(u.role, 0)
  {
    FilterIsShownFrom(u, 0);
    assert NavigationItems[0..] == NavigationItems;
  }

  /** The reference filter over the whole table for Owner, evaluated
      entry by entry from the end. */
  lemma OwnerShown()
    ensures ShownFrom(Owner, 0) == NavigationItems
  {
    assert ShownFrom(Owner, 10) == [AuditLogItem];
    assert ShownFrom(Owner, 9) == [ReportsItem, AuditLogItem];
    assert ShownFrom(Owner, 8) == [SalesItem, ReportsItem, AuditLogItem];
    assert ShownFrom(Owner, 7) == [PosItem, SalesItem, ReportsItem, AuditLogItem];
    assert ShownFrom(Owner, 6) == [ProductsItem, PosItem, SalesItem, ReportsItem, AuditLogItem];
    assert ShownFrom(Owner, 5) == [BranchesItem, ProductsItem, PosItem, SalesItem, ReportsItem, AuditLogItem];
    assert ShownFrom(Owner, 4) == [UsersItem, BranchesItem, ProductsItem, PosItem, SalesItem, ReportsItem, AuditLogItem];
    assert ShownFrom(Owner, 3) == [BillingItem, UsersItem, BranchesItem, ProductsItem, PosItem, SalesItem, ReportsItem, AuditLogItem];
    assert ShownFrom(Owner, 2) == [SubscriptionItem, BillingItem, UsersItem, BranchesItem, ProductsItem, PosItem, SalesItem, ReportsItem, AuditLogItem];
    assert ShownFrom(Owner, 1) == [BusinessItem, SubscriptionItem, BillingItem, UsersItem, BranchesItem, ProductsItem, PosItem, SalesItem, ReportsItem, AuditLogItem];
  }

  /** The reference filter over the whole table for Administrador, evaluated
      entry by entry from the end. */
  lemma AdministratorShown()
    ensures ShownFrom(Administrador, 0) == [DashboardItem, BranchesItem, ProductsItem, PosItem, SalesItem, ReportsItem]
  {
    assert ShownFrom(Administrador, 10) == [];
    assert ShownFrom(Administrador, 9) == [ReportsItem];
    assert ShownFrom(Administrador, 8) == [SalesItem, ReportsItem];
    assert ShownFrom(Administrador, 7) == [PosItem, SalesItem, ReportsItem];
    assert ShownFrom(Administrador, 6) == [ProductsItem, PosItem, SalesItem, ReportsItem];
    assert ShownFrom(Administrador, 5) == [BranchesItem, ProductsItem, PosItem, SalesItem, ReportsItem];
    assert ShownFrom(Administrador, 4) == [BranchesItem, ProductsItem, PosItem, SalesItem, ReportsItem];
    assert ShownFrom(Administrador, 3) == [BranchesItem, ProductsItem, PosItem, SalesItem, ReportsItem];
    assert ShownFrom(Administrador, 2) == [BranchesItem, ProductsItem, PosItem, SalesItem, ReportsItem];
    assert ShownFrom(Administrador, 1) == [BranchesItem, ProductsItem, PosItem, SalesItem, ReportsItem];
  }

  /** The reference filter over the whole table for Cajero, evaluated
      entry by entry from the end. */
  lemma CashierShown()
    ensures ShownFrom(Cajero, 0) == [DashboardItem, PosItem, SalesItem]
  {
    assert ShownFrom(Cajero, 10) == [];
    assert ShownFrom(Cajero, 9) == [];
    assert ShownFrom(Cajero, 8) == [SalesItem];
    assert ShownFrom(Cajero, 7) == [PosItem, SalesItem];
    assert ShownFrom(Cajero, 6) == [PosItem, SalesItem];
    assert ShownFrom(Cajero, 5) == [PosItem, SalesItem];
    assert ShownFrom(Cajero, 4) == [PosItem, SalesItem];
    assert ShownFrom(Cajero, 3) == [PosItem, SalesItem];
    assert ShownFrom(Cajero, 2) == [PosItem, SalesItem];
    assert ShownFrom(Cajero, 1) == [PosItem, SalesItem];
  }

  /** An owner sees every entry. */
  lemma OwnerSeesEverything(u: User)
    requires u.role == Owner
    ensures VisibleItems(Some(u)) == NavigationItems
  {
    VisibleIsShownFrom(u);
    OwnerShown();
  }

  /** An administrator sees the shared pages plus branches, products and
      reports. */
  lemma AdministratorEntries(u: User)
    requires u.role == Administrador
    ensures VisibleItems(Some(u)) == [DashboardItem, BranchesItem, ProductsItem, PosItem, SalesItem, ReportsItem]
  {
    VisibleIsShownFrom(u);
    AdministratorShown();
  }

  /** A cashier sees only the dashboard, the point of sale and the sales
      history. */
  lemma CashierEntries(u: User)
    requires u.role == Cajero
    ensures VisibleItems(Some(u)) == [DashboardItem, PosItem, SalesItem]
  {
    VisibleIsShownFrom(u);
    CashierShown();
  }

  /** `isActive`: an entry is highlighted when the current path is its
      target, exactly. */
  predicate IsActive(pathname: string, item: NavItem) {
    pathname == Href(item)
  }

  /** No two entries share a target, so at most one entry is highlighted
      for any path. */
  lemma AtMostOneActive(pathname: string, a: NavItem, b: NavItem)
    requires IsActive(pathname, a) && IsActive(pathname, b)
    ensures a == b
  {
  }
}
