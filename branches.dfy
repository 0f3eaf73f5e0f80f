/** The branches page: its search and statistics, and the create/edit/
    delete dialogs that only an owner sees. */
module BranchAdmin {
  import opened Wrappers
  import opened Types
  import opened Text
  import opened Seqs
  import Auth

  /** Only owners get the create, edit and delete controls. */
  predicate CanManageBranches(user: Option<User>) {
    Auth.Permits(user, [Owner])
  }

  lemma OnlyOwnersManage(user: Option<User>)
    ensures CanManageBranches(user) <==> user.Some? && user.value.role == Owner
  {
  }

  // ---------------------------------------------------------------------
  // Search and statistics

  /** Name or address contains the query, ignoring case on both sides. */
  predicate BranchMatches(b: Branch, query: string) {
    Contains(Lower(b.name), Lower(query)) || Contains(Lower(b.address), Lower(query))
  }

  function Matching(query: string): Branch -> bool {
    (b: Branch) => BranchMatches(b, query)
  }

  function FilteredBranches(branches: seq<Branch>, query: string): (r: seq<Branch>)
    ensures |r| <= |branches|
    ensures forall b :: b in r <==> b in branches && BranchMatches(b, query)
  {
    Filter(branches, Matching(query))
  }

  /** The search ignores the case of the query. */
  lemma SearchIgnoresQueryCase(b: Branch, query: string)
    ensures BranchMatches(b, query) <==> BranchMatches(b, Lower(query))
  {
    LowerIdempotent(query);
  }

  datatype BranchStats = BranchStats(total: nat, active: nat, inactive: nat)

  predicate IsActiveBranch(b: Branch) { b.isActive }
  predicate IsInactiveBranch(b: Branch) { !b.isActive }

  /** The three cards: every branch is active or inactive, never both. */
  function Stats(branches: seq<Branch>): (r: BranchStats)
    ensures r.total == |branches|
    ensures r.active + r.inactive == r.total
    ensures r.active == Count(branches, IsActiveBranch) && r.inactive == Count(branches, IsInactiveBranch)
  {
    FilterComplement(branches, IsActiveBranch, IsInactiveBranch);
    FilterCount(branches, IsActiveBranch);
    FilterCount(branches, IsInactiveBranch);
    BranchStats(|branches|, |Filter(branches, IsActiveBranch)|, |Filter(branches, IsInactiveBranch)|)
  }

  // ---------------------------------------------------------------------
  // The branch form

  datatype FormMode = Create | Edit

  datatype BranchForm = BranchForm(name: string, address: string, active: bool)

  function BlankForm(): (f: BranchForm)
    ensures f.name == "" && f.address == "" && f.active
  {
    BranchForm("", "", true)
  }

  function FormOf(b: Branch): (f: BranchForm)
    ensures f.name == b.name && f.address == b.address && f.active == b.isActive
  {
    BranchForm(b.name, b.address, b.isActive)
  }

  /** A branch created from the form: trimmed name and address, under the
      demo business "1". */
  function NewBranch(form: BranchForm, id: string): (b: Branch)
    ensures b.id == id && b.businessId == "1" && b.isActive == form.active
    ensures b.name == Trim(form.name) && b.address == Trim(form.address)
  {
    Branch(id, Trim(form.name), Trim(form.address), form.active, "1")
  }

  /** The list after saving an edit: branches with the edited id take the
      trimmed name and address and the active flag, keeping id and
      business; the others are unchanged. */
  function BranchesEdited(branches: seq<Branch>, id: string, form: BranchForm): (r: seq<Branch>)
    ensures |r| == |branches|
    ensures forall i :: 0 <= i < |r| ==>
      r[i].id == branches[i].id && r[i].businessId == branches[i].businessId
    ensures forall i :: 0 <= i < |r| && branches[i].id != id ==> r[i] == branches[i]
    ensures forall i :: 0 <= i < |r| && branches[i].id == id ==>
      r[i].name == Trim(form.name) && r[i].address == Trim(form.address) && r[i].isActive == form.active
  {
    seq(|branches|, i requires 0 <= i < |branches| =>
      if branches[i].id == id
      then branches[i].(name := Trim(form.name), address := Trim(form.address), isActive := form.active)
      else branches[i])
  }

  predicate UniqueIds(branches: seq<Branch>) {
    forall i, j :: 0 <= i < j < |branches| ==> branches[i].id != branches[j].id
  }

  /** Saving a branch opened for editing without changes leaves the list as
      it was when its name and address carry no surrounding white space. */
  lemma EditUnchangedKeepsBranches(branches: seq<Branch>, k: nat)
    requires k < |branches| && UniqueIds(branches)
    requires Trim(branches[k].name) == branches[k].name && Trim(branches[k].address) == branches[k].address
    ensures BranchesEdited(branches, branches[k].id, FormOf(branches[k])) == branches
  {
    var r := BranchesEdited(branches, branches[k].id, FormOf(branches[k]));
    forall i | 0 <= i < |branches| ensures r[i] == branches[i] {
      if i < k {
        assert branches[i].id != branches[k].id;
      } else if k < i {
        assert branches[k].id != branches[i].id;
      }
    }
  }

  function NotBranchId(id: string): Branch -> bool {
    (b: Branch) => b.id != id
  }

  // ---------------------------------------------------------------------
  // The page

  class BranchesPage {
    const canManage: bool
    var branches: seq<Branch>
    var mode: FormMode
    var editingId: Option<string>
    var form: BranchForm
    var dialogOpen: bool
    var branchToDelete: Option<Branch>
    var deleteOpen: bool

    /** The page as rendered for the session user over the initial list. */
    constructor (user: Option<User>, initial: seq<Branch>)
      ensures canManage == CanManageBranches(user)
      ensures branches == initial && mode == Create && editingId == None && form == BlankForm()
      ensures !dialogOpen && branchToDelete == None && !deleteOpen
    {
      canManage := CanManageBranches(user);
      branches, mode, editingId, form := initial, Create, None, BlankForm();
      dialogOpen, branchToDelete, deleteOpen := false, None, false;
    }

    method OpenCreate()
      requires canManage
      modifies this`mode, this`editingId, this`form, this`dialogOpen
      ensures mode == Create && editingId == None && form == BlankForm() && dialogOpen
    {
      mode, editingId, form, dialogOpen := Create, None, BlankForm(), true;
    }

    method OpenEdit(b: Branch)
      requires canManage
      modifies this`mode, this`editingId, this`form, this`dialogOpen
      ensures mode == Edit && editingId == Some(b.id) && form == FormOf(b) && dialogOpen
    {
      mode, editingId, form, dialogOpen := Edit, Some(b.id), FormOf(b), true;
    }

    /** "Guardar", with the clock reading that names a new branch as a
        parameter. A blank name changes nothing; otherwise a branch is
        appended or the edited id rewritten, and the dialog closes. */
    method SaveBranch(now: nat)
      modifies this`branches, this`dialogOpen, this`editingId
      ensures IsBlank(form.name) ==>
        branches == old(branches) && dialogOpen == old(dialogOpen) && editingId == old(editingId)
      ensures !IsBlank(form.name) ==> !dialogOpen && editingId == None
      ensures !IsBlank(form.name) && mode == Create ==>
        branches == old(branches) + [NewBranch(form, NatToString(now))]
      ensures !IsBlank(form.name) && mode == Edit ==>
        branches == if old(editingId).Some? && old(editingId).value != ""
                    then BranchesEdited(old(branches), old(editingId).value, form)
                    else old(branches)
    {
      if IsBlank(form.name) {
        return;
      }
      if mode == Create {
        branches := branches + [NewBranch(form, NatToString(now))];
      } else if editingId.Some? && editingId.value != "" {
        branches := BranchesEdited(branches, editingId.value, form);
      }
      dialogOpen, editingId := false, None;
    }

    method OpenDelete(b: Branch)
      requires canManage
      modifies this`branchToDelete, this`deleteOpen
      ensures branchToDelete == Some(b) && deleteOpen
    {
      branchToDelete, deleteOpen := Some(b), true;
    }

    /** "Eliminar": every branch with the chosen id goes, the others stay in
        order. */
    method ConfirmDelete()
      modifies this`branches, this`branchToDelete, this`deleteOpen
      ensures old(branchToDelete).None? ==> branches == old(branches) && deleteOpen == old(deleteOpen)
      ensures old(branchToDelete).Some? ==>
        branches == Filter(old(branches), NotBranchId(old(branchToDelete).value.id)) && !deleteOpen
      ensures old(branchToDelete).Some? ==>
        forall b :: b in branches <==> b in old(branches) && b.id != old(branchToDelete).value.id
      ensures branchToDelete == None
    {
      if branchToDelete.None? {
        return;
      }
      branches := Filter(branches, NotBranchId(branchToDelete.value.id));
      deleteOpen, branchToDelete := false, None;
    }
  }
}
