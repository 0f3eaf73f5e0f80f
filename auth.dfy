/** The authentication provider: a demo session whose role is read off the
    login e-mail, mirrored into three local-storage keys so that a reload
    restores it. The 800 ms wait of the login is left out: a login is one
    atomic step here, and the storage is a map field of the session. */
module Auth {
  import opened Wrappers
  import opened Types
  import opened Text

  const UserKey := "pos_user"
  const RoleKey := "pos_demo_role"
  const TokenKey := "pos_token"

  /** The fixed demo user of each role. */
  function MockUser(r: Role): (u: User)
    ensures u.role == r
  {
    match r
    case Owner => User("1", "owner@demo.com", "Carlos Mendoza", Owner)
    case Administrador => User("2", "admin@demo.com", "María García", Administrador)
    case Cajero => User("3", "cajero@demo.com", "Juan López", Cajero)
  }

  const MockBusiness := Business("1", "Mi Tienda S.A. de C.V.", Some("Mi Tienda"))

  const MockSubscription := Subscription("1", Active, "Professional", "2025-12-31", 150)

  const MockBranches := [
    Branch("1", "Sucursal Centro", "Av. Principal #123", true, "1"),
    Branch("2", "Sucursal Norte", "Calle Norte #456", true, "1"),
    Branch("3", "Sucursal Sur", "Av. Sur #789", false, "1")
  ]

  /** The demo role of a login: "owner" anywhere in the e-mail wins, then
      "admin", and everybody else is a cashier. The password plays no part. */
  function RoleFromEmail(email: string): (r: Role)
    ensures r == Owner <==> Contains(email, "owner")
    ensures r == Administrador <==> !Contains(email, "owner") && Contains(email, "admin")
    ensures r == Cajero <==> !Contains(email, "owner") && !Contains(email, "admin")
  {
    if Contains(email, "owner") then Owner
    else if Contains(email, "admin") then Administrador
    else Cajero
  }

  /** The JSON text stored under `pos_user` (string escaping is not
      modelled); all that a restore asks of it is that it is not empty. */
  function UserJson(u: User): (r: string)
    ensures |r| > 0
  {
    "{\"id\":\"" + u.id + "\",\"email\":\"" + u.email + "\",\"name\":\"" + u.name
      + "\",\"role\":\"" + RoleName(u.role) + "\"}"
  }

  /** `hasPermission` on a given session user: nobody without a user, and a
      user exactly when the required roles list the user's role. */
  predicate Permits(user: Option<User>, required: seq<Role>) {
    user.Some? && user.value.role in required
  }

  /** `isSubscriptionActive` on a given subscription. */
  predicate SubscriptionActive(s: Option<Subscription>) {
    s.Some? && (s.value.status == Active || s.value.status == Trial)
  }

  /** `isBranchActive` on a given active branch. */
  predicate BranchActive(b: Option<Branch>) {
    b.Some? && b.value.isActive
  }

  /** A stored item counts only when present and non-empty (`getItem`
      gives null for a missing key, and the empty string is falsy). */
  predicate Stored(storage: map<string, string>, key: string) {
    key in storage && storage[key] != ""
  }

  class AuthSession {
    var user: Option<User>
    var business: Option<Business>
    var subscription: Option<Subscription>
    var activeBranch: Option<Branch>
    var branches: seq<Branch>
    var isLoading: bool
    var storage: map<string, string>

    /** The provider as first rendered: nobody signed in, still loading. */
    constructor (storage: map<string, string>)
      ensures this.storage == storage
      ensures user == None && business == None && subscription == None
      ensures activeBranch == None && branches == [] && isLoading
    {
      this.storage := storage;
      user, business, subscription, activeBranch := None, None, None, None;
      branches, isLoading := [], true;
    }

    function IsAuthenticated(): (r: bool)
      reads this
      ensures r <==> user.Some?
    {
      user.Some?
    }

    function HasPermission(required: seq<Role>): (r: bool)
      reads this
      ensures r <==> user.Some? && user.value.role in required
      ensures r ==> IsAuthenticated()
    {
      Permits(user, required)
    }

    function IsSubscriptionActive(): (r: bool)
      reads this
      ensures r <==> subscription.Some? && (subscription.value.status == Active || subscription.value.status == Trial)
    {
      SubscriptionActive(subscription)
    }

    function IsBranchActive(): (r: bool)
      reads this
      ensures r <==> activeBranch.Some? && activeBranch.value.isActive
    {
      BranchActive(activeBranch)
    }

    /** The mount effect: with both a stored user and a stored role the
        session is rebuilt from the role alone (the stored JSON is never
        parsed); a role text that names no demo user leaves `user` unset
        while business, subscription and branches are still filled in.
        Loading ends either way. */
    method Restore()
      modifies this
      ensures !isLoading && storage == old(storage)
      ensures !(Stored(storage, UserKey) && Stored(storage, RoleKey)) ==>
        user == old(user) && business == old(business) && subscription == old(subscription)
        && branches == old(branches) && activeBranch == old(activeBranch)
      ensures Stored(storage, UserKey) && Stored(storage, RoleKey) ==>
        && user == (match RoleNamed(storage[RoleKey]) case Some(r) => Some(MockUser(r)) case None => None)
        && business == Some(MockBusiness) && subscription == Some(MockSubscription)
        && branches == MockBranches && activeBranch == Some(MockBranches[0])
    {
      if Stored(storage, UserKey) && Stored(storage, RoleKey) {
        var role := RoleNamed(storage[RoleKey]);
        user := match role case Some(r) => Some(MockUser(r)) case None => None;
        business := Some(MockBusiness);
        subscription := Some(MockSubscription);
        branches := MockBranches;
        activeBranch := Some(MockBranches[0]);
      }
      isLoading := false;
    }

    /** Signing in at instant `now` (milliseconds): the role comes from the
        e-mail, the session gets the role's demo user, the demo business,
        subscription and branches with the first branch active, and the
        three storage keys are written. */
    method Login(email: string, password: string, now: nat)
      modifies this
      ensures user == Some(MockUser(RoleFromEmail(email)))
      ensures business == Some(MockBusiness) && subscription == Some(MockSubscription)
      ensures branches == MockBranches && activeBranch == Some(MockBranches[0])
      ensures !isLoading
      ensures storage == old(storage)[UserKey := UserJson(MockUser(RoleFromEmail(email)))]
        [RoleKey := RoleName(RoleFromEmail(email))][TokenKey := "demo_token_" + NatToString(now)]
      ensures forall required :: HasPermission(required) <==> RoleFromEmail(email) in required
      ensures IsSubscriptionActive() && IsBranchActive()
    {
      isLoading := true;
      var role := RoleFromEmail(email);
      var loggedUser := MockUser(role);
      storage := storage[UserKey := UserJson(loggedUser)];
      storage := storage[RoleKey := RoleName(role)];
      storage := storage[TokenKey := "demo_token_" + NatToString(now)];
      user := Some(loggedUser);
      business := Some(MockBusiness);
      subscription := Some(MockSubscription);
      branches := MockBranches;
      activeBranch := Some(MockBranches[0]);
      isLoading := false;
    }

    /** Signing out clears the session and removes the three keys; nothing
        else in storage is touched. */
    method Logout()
      modifies this
      ensures user == None && business == None && subscription == None
      ensures branches == [] && activeBranch == None
      ensures isLoading == old(isLoading)
      ensures storage == old(storage) - {UserKey, RoleKey, TokenKey}
      ensures forall required :: !HasPermission(required)
      ensures !IsSubscriptionActive() && !IsBranchActive()
    {
      storage := storage - {UserKey};
      storage := storage - {RoleKey};
      storage := storage - {TokenKey};
      user, business, subscription := None, None, None;
      branches := [];
      activeBranch := None;
    }

    /** Only an active branch can become the active branch; an inactive one
        leaves the session as it was. */
    method SetActiveBranch(branch: Branch)
      modifies this
      ensures activeBranch == if branch.isActive then Some(branch) else old(activeBranch)
      ensures user == old(user) && business == old(business) && subscription == old(subscription)
      ensures branches == old(branches) && isLoading == old(isLoading) && storage == old(storage)
      ensures branch.isActive ==> IsBranchActive()
    {
      if branch.isActive {
        activeBranch := Some(branch);
      }
    }
  }

  /** Signing in and then reloading the page (a new provider over the same
      storage, whose mount effect restores the session) yields the same user
      as the login did. */
  method ReloadAfterLogin(storage: map<string, string>, email: string, password: string, now: nat)
    returns (signedIn: Option<User>, restored: Option<User>)
    ensures signedIn == restored == Some(MockUser(RoleFromEmail(email)))
  {
    var session := new AuthSession(storage);
    session.Restore();
    session.Login(email, password, now);
    signedIn := session.user;
    var reloaded := new AuthSession(session.storage);
    reloaded.Restore();
    restored := reloaded.user;
    RoleNameRoundTrip(RoleFromEmail(email));
  }
}
