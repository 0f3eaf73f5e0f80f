/** The staff page: its search and statistics, the branch selector's codes
    and the create/edit/delete dialogs over the page's staff list. */
module Staff {
  import opened Wrappers
  import opened Types
  import opened Text
  import opened Seqs

  /** A listed staff member: a user with the name of the branch they work
      at and whether the account is active. */
  datatype StaffMember = StaffMember(
    id: string, email: string, name: string, role: Role, branchName: string, isActive: bool)

  // ---------------------------------------------------------------------
  // Search and statistics

  /** Name or e-mail contains the query, ignoring case on both sides. */
  predicate StaffMatches(u: StaffMember, query: string) {
    Contains(Lower(u.name), Lower(query)) || Contains(Lower(u.email), Lower(query))
  }

  function Matching(query: string): StaffMember -> bool {
    (u: StaffMember) => StaffMatches(u, query)
  }

  function FilteredUsers(users: seq<StaffMember>, query: string): (r: seq<StaffMember>)
    ensures |r| <= |users|
    ensures forall u :: u in r <==> u in users && StaffMatches(u, query)
  {
    Filter(users, Matching(query))
  }

  /** The search ignores the case of the query. */
  lemma SearchIgnoresQueryCase(u: StaffMember, query: string)
    ensures StaffMatches(u, query) <==> StaffMatches(u, Lower(query))
  {
    LowerIdempotent(query);
  }

  /** A name that contains the query matches however the query is cased,
      since it is lowered before the comparison. */
  lemma NameMatchIgnoresCase(u: StaffMember, query: string)
    requires Contains(u.name, query)
    ensures StaffMatches(u, query)
  {
    ContainsLower(u.name, query);
  }

  datatype StaffStats = StaffStats(total: nat, active: nat, owners: nat, admins: nat, cashiers: nat)

  predicate IsActiveMember(u: StaffMember) { u.isActive }
  predicate IsOwner(u: StaffMember) { u.role == Owner }
  predicate IsAdmin(u: StaffMember) { u.role == Administrador }
  predicate IsCashier(u: StaffMember) { u.role == Cajero }

  /** Every member holds exactly one of the three roles, so the three role
      counts add up to the whole list. */
  lemma {:induction false} RolesPartition(users: seq<StaffMember>)
    ensures |Filter(users, IsOwner)| + |Filter(users, IsAdmin)| + |Filter(users, IsCashier)| == |users|
  {
    if users != [] {
      RolesPartition(users[1..]);
    }
  }

  /** The five cards. */
  function Stats(users: seq<StaffMember>): (r: StaffStats)
    ensures r.total == |users| && r.active <= r.total
    ensures r.owners + r.admins + r.cashiers == r.total
    ensures r.active == Count(users, IsActiveMember) && r.owners == Count(users, IsOwner)
    ensures r.admins == Count(users, IsAdmin) && r.cashiers == Count(users, IsCashier)
  {
    RolesPartition(users);
    FilterCount(users, IsActiveMember);
    FilterCount(users, IsOwner);
    FilterCount(users, IsAdmin);
    FilterCount(users, IsCashier);
    StaffStats(
      |users|,
      |Filter(users, IsActiveMember)|,
      |Filter(users, IsOwner)|,
      |Filter(users, IsAdmin)|,
      |Filter(users, IsCashier)|)
  }

  // ---------------------------------------------------------------------
  // Branch codes

  /** The branch selector's value as the branch name saved with a member:
      "1", "2" and "4" are the three branches and every other code means
      all branches. */
  function BranchName(code: string): (r: string)
    ensures KnownBranchName(r)
    ensures r == "Todas" <==> code != "1" && code != "2" && code != "4"
  {
    if code == "1" then "Sucursal Centro"
    else if code == "2" then "Sucursal Norte"
    else if code == "4" then "Sucursal Poniente"
    else "Todas"
  }

  /** The selector's value for a saved branch name, as the edit dialog
      loads it; a name it does not know selects "1". */
  function BranchCode(name: string): (r: string)
    ensures r == "0" || r == "1" || r == "2" || r == "4"
    ensures r == "1" <==> name == "Sucursal Centro" || !KnownBranchName(name)
  {
    if name == "Sucursal Centro" then "1"
    else if name == "Sucursal Norte" then "2"
    else if name == "Sucursal Poniente" then "4"
    else if name == "Todas" then "0"
    else "1"
  }

  predicate KnownBranchName(name: string) {
    name == "Sucursal Centro" || name == "Sucursal Norte" || name == "Sucursal Poniente" || name == "Todas"
  }

  /** The two maps are inverse on the four names and the four codes the
      dialog offers; an unknown branch name comes back as Sucursal Centro. */
  lemma BranchCodesRoundTrip(name: string, code: string)
    ensures KnownBranchName(name) ==> BranchName(BranchCode(name)) == name
    ensures !KnownBranchName(name) ==> BranchName(BranchCode(name)) == "Sucursal Centro"
    ensures code == "1" || code == "2" || code == "4" || code == "0" ==> BranchCode(BranchName(code)) == code
    ensures KnownBranchName(BranchName(code))
  {
  }

  // ---------------------------------------------------------------------
  // The member form

  datatype FormMode = Create | Edit

  /** The dialog's fields. The password field is never saved and is left
      out. */
  datatype UserForm = UserForm(name: string, email: string, role: Role, branch: string)

  /** The form as `openCreate` leaves it. */
  function BlankForm(): (f: UserForm)
    ensures f.name == "" && f.email == "" && f.role == Cajero && f.branch == "1"
  {
    UserForm("", "", Cajero, "1")
  }

  /** The form as `openEdit` fills it from a member. */
  function FormOf(u: StaffMember): (f: UserForm)
    ensures f.name == u.name && f.email == u.email && f.role == u.role
    ensures KnownBranchName(u.branchName) ==> BranchName(f.branch) == u.branchName
  {
    BranchCodesRoundTrip(u.branchName, "");
    UserForm(u.name, u.email, u.role, BranchCode(u.branchName))
  }

  /** A member created from the form: active, with the name and e-mail as
      typed (not trimmed). */
  function NewMember(form: UserForm, id: string): (u: StaffMember)
    ensures u.id == id && u.isActive && u.name == form.name && u.email == form.email && u.role == form.role
    ensures u.branchName == BranchName(form.branch)
    ensures KnownBranchName(u.branchName)
  {
    BranchCodesRoundTrip("", form.branch);
    StaffMember(id, form.email, form.name, form.role, BranchName(form.branch), true)
  }

  /** The list after saving an edit: members with the edited id take the
      form's name, e-mail, role and branch and keep their id and their
      active flag; everyone else is unchanged. */
  function UsersEdited(users: seq<StaffMember>, id: string, form: UserForm): (r: seq<StaffMember>)
    ensures |r| == |users|
    ensures forall i :: 0 <= i < |r| ==> r[i].id == users[i].id && r[i].isActive == users[i].isActive
    ensures forall i :: 0 <= i < |r| && users[i].id != id ==> r[i] == users[i]
    ensures forall i :: 0 <= i < |r| && users[i].id == id ==>
      r[i].name == form.name && r[i].email == form.email && r[i].role == form.role
      && r[i].branchName == BranchName(form.branch)
  {
    seq(|users|, i requires 0 <= i < |users| =>
      if users[i].id == id
      then users[i].(name := form.name, email := form.email, role := form.role, branchName := BranchName(form.branch))
      else users[i])
  }

  predicate UniqueIds(users: seq<StaffMember>) {
    forall i, j :: 0 <= i < j < |users| ==> users[i].id != users[j].id
  }

  /** Opening a member for editing and saving without changes leaves the
      list as it was, provided the member's branch is one the selector
      knows. */
  lemma EditUnchangedKeepsUsers(users: seq<StaffMember>, k: nat)
    requires k < |users| && UniqueIds(users) && KnownBranchName(users[k].branchName)
    ensures UsersEdited(users, users[k].id, FormOf(users[k])) == users
  {
    var r := UsersEdited(users, users[k].id, FormOf(users[k]));
    forall i | 0 <= i < |users| ensures r[i] == users[i] {
      if i < k {
        assert users[i].id != users[k].id;
      } else if k < i {
        assert users[k].id != users[i].id;
      }
    }
  }

  function NotUserId(id: string): StaffMember -> bool {
    (u: StaffMember) => u.id != id
  }

  // ---------------------------------------------------------------------
  // The page

  class UsersPage {
    var users: seq<StaffMember>
    var mode: FormMode
    var editingId: Option<string>
    var form: UserForm
    var dialogOpen: bool
    var userToDelete: Option<StaffMember>
    var deleteOpen: bool

    constructor (initial: seq<StaffMember>)
      ensures users == initial && mode == Create && editingId == None && form == BlankForm()
      ensures !dialogOpen && userToDelete == None && !deleteOpen
    {
      users, mode, editingId, form := initial, Create, None, BlankForm();
      dialogOpen, userToDelete, deleteOpen := false, None, false;
    }

    method OpenCreate()
      modifies this`mode, this`editingId, this`form, this`dialogOpen
      ensures mode == Create && editingId == None && form == BlankForm() && dialogOpen
    {
      mode, editingId, form, dialogOpen := Create, None, BlankForm(), true;
    }

    method OpenEdit(u: StaffMember)
      modifies this`mode, this`editingId, this`form, this`dialogOpen
      ensures mode == Edit && editingId == Some(u.id) && form == FormOf(u) && dialogOpen
    {
      mode, editingId, form, dialogOpen := Edit, Some(u.id), FormOf(u), true;
    }

    /** "Guardar", with the clock reading that names a new member as a
        parameter. A blank name or e-mail changes nothing; otherwise a
        member is appended or the edited id rewritten, and the dialog
        closes (the edited id is kept). */
    method SaveUser(now: nat)
      modifies this`users, this`dialogOpen
      ensures IsBlank(form.name) || IsBlank(form.email) ==>
        users == old(users) && dialogOpen == old(dialogOpen)
      ensures !IsBlank(form.name) && !IsBlank(form.email) ==> !dialogOpen
      ensures !IsBlank(form.name) && !IsBlank(form.email) && mode == Create ==>
        users == old(users) + [NewMember(form, NatToString(now))]
      ensures !IsBlank(form.name) && !IsBlank(form.email) && mode == Edit ==>
        users == if editingId.Some? && editingId.value != ""
                 then UsersEdited(old(users), editingId.value, form)
                 else old(users)
    {
      if IsBlank(form.name) || IsBlank(form.email) {
        return;
      }
      if mode == Create {
        users := users + [NewMember(form, NatToString(now))];
      } else if editingId.Some? && editingId.value != "" {
        users := UsersEdited(users, editingId.value, form);
      }
      dialogOpen := false;
    }

    method OpenDelete(u: StaffMember)
      modifies this`userToDelete, this`deleteOpen
      ensures userToDelete == Some(u) && deleteOpen
    {
      userToDelete, deleteOpen := Some(u), true;
    }

    /** "Eliminar": every member with the chosen id goes, the others stay
        in order. */
    method ConfirmDelete()
      modifies this`users, this`userToDelete, this`deleteOpen
      ensures old(userToDelete).None? ==> users == old(users) && deleteOpen == old(deleteOpen)
      ensures old(userToDelete).Some? ==>
        users == Filter(old(users), NotUserId(old(userToDelete).value.id)) && !deleteOpen
      ensures old(userToDelete).Some? ==>
        forall u :: u in users <==> u in old(users) && u.id != old(userToDelete).value.id
      ensures userToDelete == None
    {
      if userToDelete.None? {
        return;
      }
      users := Filter(users, NotUserId(userToDelete.value.id));
      deleteOpen, userToDelete := false, None;
    }
  }
}
