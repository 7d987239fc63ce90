/**
  The role screen (`src/components/admin/rbac/RBACRoles.jsx`): the search over
  roles, delete by code, which actions a role card offers, the save calls for
  create and edit, and `RoleModal`'s form with its initial values, the locked
  code input and the required-field guard.
*/
module RBACRoles {
  import opened Js
  import opened Text
  import opened Lists
  import opened ApiConfig
  import opened AdminApi

  /** A role as listed. `is_system` is a number compared with `===`; `None` when
      the field is missing. `description` is a plain string, unlike a user's
      optional `full_name` and `email`: the filter and the card read it
      unguarded, and every role the screen is given carries it, so a role
      without it is outside what this screen handles. */
  datatype Role = Role(id: int, code: string, name: string, description: string, is_system: Option<int>)

  /** The search rule: the lower-cased term occurs in the lower-cased name, code or description. */
  predicate MatchesSearch(r: Role, term: string) {
    var t := Lower(term);
    Includes(Lower(r.name), t) || Includes(Lower(r.code), t) || Includes(Lower(r.description), t)
  }

  function SearchHit(term: string): Role -> bool {
    (r: Role) => MatchesSearch(r, term)
  }

  /** `filteredRoles`: an order-preserving sub-list of exactly the matching roles;
      with an empty term every role matches. */
  function FilterRoles(roles: seq<Role>, searchTerm: string): (r: seq<Role>)
    ensures IsSubsequence(r, roles)
    ensures forall x :: x in r <==> x in roles && MatchesSearch(x, searchTerm)
    ensures forall x :: multiset(r)[x] == if MatchesSearch(x, searchTerm) then multiset(roles)[x] else 0
    ensures searchTerm == "" ==> r == roles
  {
    FilterIsSubsequence(roles, SearchHit(searchTerm));
    FilterMultiset(roles, SearchHit(searchTerm));
    if searchTerm == "" then
      assert Lower(searchTerm) == "";
      assert forall x :: x in roles ==> MatchesSearch(x, searchTerm) by {
        forall x | x in roles ensures MatchesSearch(x, searchTerm) {
          IncludesEmpty(Lower(x.name));
        }
      }
      FilterKeepsAll(roles, SearchHit(searchTerm));
      Filter(roles, SearchHit(searchTerm))
    else
      Filter(roles, SearchHit(searchTerm))
  }

  function OtherCode(code: string): Role -> bool {
    (r: Role) => r.code != code
  }

  /** `handleDeleteRole`: every role with the code goes, the others stay in order. */
  function DeleteRole(roles: seq<Role>, code: string): (r: seq<Role>)
    ensures IsSubsequence(r, roles)
    ensures forall x :: x in r <==> x in roles && x.code != code
    ensures forall x :: multiset(r)[x] == if x.code == code then 0 else multiset(roles)[x]
  {
    FilterIsSubsequence(roles, OtherCode(code));
    FilterMultiset(roles, OtherCode(code));
    Filter(roles, OtherCode(code))
  }

  /** The card's system badge: `is_system === 1`. */
  predicate SystemBadge(r: Role) {
    r.is_system == Some(1)
  }

  /** The card's delete button: `is_system === 0`. */
  predicate DeleteOffered(r: Role) {
    r.is_system == Some(0)
  }

  /** A badged role never offers delete; a role whose `is_system` is missing or
      any number other than 0 and 1 shows neither the badge nor delete. */
  lemma CardActions(r: Role)
    ensures SystemBadge(r) ==> !DeleteOffered(r)
    ensures r.is_system.None? || (r.is_system.value != 0 && r.is_system.value != 1) ==>
      !SystemBadge(r) && !DeleteOffered(r)
  {
  }

  /** `RoleModal`'s `formData`. */
  datatype RoleForm = RoleForm(code: string, name: string, description: string, is_system: int)

  /** The form's initial values: `role?.code || ''` and so on, `is_system || 0`. */
  function InitForm(role: Option<Role>): (f: RoleForm)
    ensures role.None? ==> f == RoleForm("", "", "", 0)
    ensures role.Some? ==>
      f.code == role.value.code && f.name == role.value.name
      && f.description == role.value.description && f.is_system == role.value.is_system.GetOr(0)
  {
    match role
    case None => RoleForm("", "", "", 0)
    case Some(r) => RoleForm(r.code, r.name, r.description, r.is_system.GetOr(0))
  }

  /** The code input is disabled for a role with `is_system === 1`. */
  predicate CodeLocked(role: Option<Role>) {
    role.Some? && role.value.is_system == Some(1)
  }

  /** The body `setRoles` sends for a form. */
  function RoleJson(f: RoleForm): Json {
    JObj(map["code" := JStr(f.code), "name" := JStr(f.name),
             "description" := JStr(f.description), "is_system" := JNum(f.is_system)])
  }

  /** `RoleModal`'s form state. */
  class RoleModal {
    const role: Option<Role>
    var formData: RoleForm

    constructor (role: Option<Role>)
      ensures this.role == role && formData == InitForm(role)
    {
      this.role := role;
      formData := InitForm(role);
    }

    /** Typing in the code input; a disabled input produces no change. */
    method EditCode(value: string)
      modifies this
      ensures CodeLocked(role) ==> formData == old(formData)
      ensures !CodeLocked(role) ==> formData == old(formData).(code := value)
    {
      if !CodeLocked(role) {
        formData := formData.(code := value);
      }
    }

    method EditName(value: string)
      modifies this
      ensures formData == old(formData).(name := value)
    {
      formData := formData.(name := value);
    }

    method EditDescription(value: string)
      modifies this
      ensures formData == old(formData).(description := value)
    {
      formData := formData.(description := value);
    }

    /** `handleSubmit`: nothing is saved while the code or the name is blank;
        otherwise `onSave` receives the form unchanged. */
    method Submit() returns (saved: Option<RoleForm>)
      ensures saved.None? <==> IsBlank(formData.code) || IsBlank(formData.name)
      ensures saved.Some? ==> saved.value == formData
    {
      if IsBlank(formData.code) || IsBlank(formData.name) {
        return None;
      }
      saved := Some(formData);
    }
  }

  /** Opening the edit modal on a system role and typing anything into the code
      input leaves the code that is saved equal to the role's own. */
  method EditSystemRoleCode(r: Role, typed: string) returns (saved: Option<RoleForm>)
    requires r.is_system == Some(1)
    ensures saved.Some? ==> saved.value.code == r.code && saved.value.is_system == 1
  {
    var modal := new RoleModal(Some(r));
    modal.EditCode(typed);
    saved := modal.Submit();
  }

  /** The role screen's state. */
  class RolesScreen {
    var roles: seq<Role>
    var searchTerm: string
    var currentRole: Option<Role>
    var showCreateModal: bool
    var showEditModal: bool
    var showDeleteModal: bool

    constructor ()
      ensures roles == [] && searchTerm == "" && currentRole == None
      ensures !showCreateModal && !showEditModal && !showDeleteModal
    {
      roles := [];
      searchTerm := "";
      currentRole := None;
      showCreateModal := false;
      showEditModal := false;
      showDeleteModal := false;
    }

    /** The cards the grid shows. */
    function Visible(): seq<Role>
      reads this
    {
      FilterRoles(roles, searchTerm)
    }

    /** The search box: the term changes and the grid shows the roles matching it. */
    method SetSearchTerm(term: string)
      modifies this
      ensures searchTerm == term
      ensures Visible() == FilterRoles(old(roles), term)
      ensures roles == old(roles) && currentRole == old(currentRole)
      ensures showCreateModal == old(showCreateModal) && showEditModal == old(showEditModal)
      ensures showDeleteModal == old(showDeleteModal)
    {
      searchTerm := term;
    }

    /** The edit modal's cancel: it closes and the current role is cleared. */
    method CancelEdit()
      modifies this
      ensures !showEditModal && currentRole == None
      ensures roles == old(roles) && searchTerm == old(searchTerm)
      ensures showCreateModal == old(showCreateModal) && showDeleteModal == old(showDeleteModal)
    {
      showEditModal := false;
      currentRole := None;
    }

    /** The delete modal's cancel: it closes, the current role is cleared and
        no role is removed. */
    method CancelDelete()
      modifies this
      ensures !showDeleteModal && currentRole == None
      ensures roles == old(roles) && searchTerm == old(searchTerm)
      ensures showCreateModal == old(showCreateModal) && showEditModal == old(showEditModal)
    {
      showDeleteModal := false;
      currentRole := None;
    }

    /** The call `handleCreateRole` and `handleEditRole` both make: `setRoles` with
        the form, whichever modal it came from. */
    method SaveCall(form: RoleForm) returns (c: Call)
      ensures c == SetRoles(RoleJson(form))
      ensures c.endpoint == "/rbac/set_roles" && EffectiveVerb(c) == "POST"
    {
      c := SetRoles(RoleJson(form));
    }

    /** After `setRoles` settled: a success closes the modal it came from, and an
        edit also clears the current role; a failure changes nothing. */
    method FinishSave(editing: bool, succeeded: bool)
      modifies this
      ensures roles == old(roles) && searchTerm == old(searchTerm) && showDeleteModal == old(showDeleteModal)
      ensures !succeeded ==>
        currentRole == old(currentRole) && showCreateModal == old(showCreateModal) && showEditModal == old(showEditModal)
      ensures succeeded && !editing ==>
        !showCreateModal && currentRole == old(currentRole) && showEditModal == old(showEditModal)
      ensures succeeded && editing ==>
        !showEditModal && currentRole == None && showCreateModal == old(showCreateModal)
    {
      if succeeded {
        if editing {
          showEditModal := false;
          currentRole := None;
        } else {
          showCreateModal := false;
        }
      }
    }

    /** `handleDeleteRole`: the roles with the code go and the delete modal closes. */
    method Delete(code: string)
      modifies this
      ensures roles == DeleteRole(old(roles), code)
      ensures currentRole == None && !showDeleteModal
      ensures searchTerm == old(searchTerm)
      ensures showCreateModal == old(showCreateModal) && showEditModal == old(showEditModal)
    {
      roles := DeleteRole(roles, code);
      showDeleteModal := false;
      currentRole := None;
    }
  }
}
