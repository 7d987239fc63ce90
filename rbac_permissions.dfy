/**
  The permission management screen (`src/components/admin/rbac/RBACPermissions.jsx`):
  the module and search filter, create, edit and delete of permissions, the
  rows' edit and delete buttons (disabled for system permissions), the
  create/edit modal's five inputs (the code input disabled in edit mode), the
  role-permission checkboxes and their save call, and the module display names.
*/
module RBACPermissions {
  import opened Js
  import opened Text
  import opened Lists
  import opened AdminApi

  /** A permission as listed; `is_system` is a number whose truthiness locks the entry. */
  datatype Permission = Permission(
    id: int, code: string, name: string, permModule: string,
    description: string, resource: string, is_system: int)

  /** The modal's `formData`. */
  datatype PermissionForm = PermissionForm(
    permModule: string, code: string, name: string, description: string, resource: string)

  const EmptyForm := PermissionForm("", "", "", "", "")

  /** The five fields `openCreateModal` copies out of a permission. */
  function FormOf(p: Permission): (f: PermissionForm)
    ensures f.permModule == p.permModule && f.code == p.code && f.name == p.name
    ensures f.description == p.description && f.resource == p.resource
  {
    PermissionForm(p.permModule, p.code, p.name, p.description, p.resource)
  }

  /** `{...perm, ...permissionData}`: the form's five fields override, `id` and
      `is_system` stay. */
  function Merge(p: Permission, f: PermissionForm): (r: Permission)
    ensures FormOf(r) == f
    ensures r.id == p.id && r.is_system == p.is_system
  {
    p.(permModule := f.permModule, code := f.code, name := f.name, description := f.description, resource := f.resource)
  }

  /** Merging a permission's own form changes nothing. */
  lemma MergeOwnForm(p: Permission)
    ensures Merge(p, FormOf(p)) == p
  {
  }

  /** Edit and delete are disabled while `is_system` is truthy. */
  predicate Locked(p: Permission) {
    p.is_system != 0
  }

  /** A row's edit and delete buttons carry `disabled={permission.is_system}`, and
      a disabled button never runs its handler. */
  predicate EditOffered(p: Permission) { !Locked(p) }
  predicate DeleteOffered(p: Permission) { !Locked(p) }

  /** A row offers edit and delete exactly for a permission whose `is_system` is 0. */
  lemma RowActions(p: Permission)
    ensures EditOffered(p) <==> p.is_system == 0
    ensures DeleteOffered(p) <==> p.is_system == 0
  {
  }

  /** The modal's five inputs. */
  datatype FormField = ModuleInput | CodeInput | NameInput | ResourceInput | DescriptionInput

  function FieldOf(f: PermissionForm, field: FormField): string {
    match field
    case ModuleInput => f.permModule
    case CodeInput => f.code
    case NameInput => f.name
    case ResourceInput => f.resource
    case DescriptionInput => f.description
  }

  /** `setFormData({...formData, <field>: value})`: the input's field takes the
      value and the other four keep theirs. */
  function SetFormField(f: PermissionForm, field: FormField, value: string): (r: PermissionForm)
    ensures FieldOf(r, field) == value
    ensures forall other :: other != field ==> FieldOf(r, other) == FieldOf(f, other)
  {
    match field
    case ModuleInput => f.(permModule := value)
    case CodeInput => f.(code := value)
    case NameInput => f.(name := value)
    case ResourceInput => f.(resource := value)
    case DescriptionInput => f.(description := value)
  }

  /** The search rule: the lower-cased term occurs in the lower-cased name, code or description. */
  predicate MatchesSearch(p: Permission, term: string) {
    var t := Lower(term);
    Includes(Lower(p.name), t) || Includes(Lower(p.code), t) || Includes(Lower(p.description), t)
  }

  function InModule(m: string): Permission -> bool {
    (p: Permission) => p.permModule == m
  }

  function SearchHit(term: string): Permission -> bool {
    (p: Permission) => MatchesSearch(p, term)
  }

  /** Whether `filterPermissions` keeps a permission. */
  function KeepPermission(selectedModule: string, searchTerm: string): Permission -> bool {
    (p: Permission) => (selectedModule == "all" || p.permModule == selectedModule)
                       && (searchTerm == "" || MatchesSearch(p, searchTerm))
  }

  /** `handleCreatePermission`: one new entry at the end, built from the form with
      a fresh id and `is_system` 0; the existing entries are untouched. */
  function Create(permissions: seq<Permission>, freshId: int, f: PermissionForm): (r: seq<Permission>)
    ensures |r| == |permissions| + 1 && r[..|permissions|] == permissions
    ensures FormOf(r[|permissions|]) == f
    ensures r[|permissions|].id == freshId && !Locked(r[|permissions|])
  {
    permissions + [Permission(freshId, f.code, f.name, f.permModule, f.description, f.resource, 0)]
  }

  /** `handleEditPermission`: the entries with the edited id take the form's
      fields; length, order, ids, `is_system` and every other entry are kept. */
  function Edit(permissions: seq<Permission>, editingId: int, f: PermissionForm): (r: seq<Permission>)
    ensures |r| == |permissions|
    ensures forall i :: 0 <= i < |r| ==> r[i].id == permissions[i].id && r[i].is_system == permissions[i].is_system
    ensures forall i :: 0 <= i < |r| && permissions[i].id == editingId ==> FormOf(r[i]) == f
    ensures forall i :: 0 <= i < |r| && permissions[i].id != editingId ==> r[i] == permissions[i]
  {
    seq(|permissions|, i requires 0 <= i < |permissions| =>
      if permissions[i].id == editingId then Merge(permissions[i], f) else permissions[i])
  }

  predicate UniqueIds(permissions: seq<Permission>) {
    forall i, j :: 0 <= i < |permissions| && 0 <= j < |permissions| && permissions[i].id == permissions[j].id ==> i == j
  }

  /** Saving an edit whose form still carries the entry's own code (the code
      input is disabled in edit mode) changes no entry's code, when ids are unique. */
  lemma EditKeepsCodes(permissions: seq<Permission>, k: int, f: PermissionForm)
    requires UniqueIds(permissions) && 0 <= k < |permissions|
    requires f.code == permissions[k].code
    ensures forall i :: 0 <= i < |permissions| ==> Edit(permissions, permissions[k].id, f)[i].code == permissions[i].code
  {
    var r := Edit(permissions, permissions[k].id, f);
    forall i | 0 <= i < |permissions|
      ensures r[i].code == permissions[i].code
    {
      if permissions[i].id == permissions[k].id {
        assert i == k;
        assert FormOf(r[i]) == f;
      }
    }
  }

  /** Opening the edit modal on an entry and saving the form unchanged leaves the
      list as it was, when ids are unique. */
  lemma EditWithOwnFormIsIdentity(permissions: seq<Permission>, k: int)
    requires UniqueIds(permissions) && 0 <= k < |permissions|
    ensures Edit(permissions, permissions[k].id, FormOf(permissions[k])) == permissions
  {
    var r := Edit(permissions, permissions[k].id, FormOf(permissions[k]));
    forall i | 0 <= i < |permissions|
      ensures r[i] == permissions[i]
    {
      if permissions[i].id == permissions[k].id {
        MergeOwnForm(permissions[k]);
      }
    }
  }

  function OtherId(id: int): Permission -> bool {
    (p: Permission) => p.id != id
  }

  /** `handleDeletePermission`: every entry with the id goes, the rest stay in order. */
  function Delete(permissions: seq<Permission>, id: int): (r: seq<Permission>)
    ensures IsSubsequence(r, permissions)
    ensures forall p :: p in r <==> p in permissions && p.id != id
    ensures forall p :: multiset(r)[p] == if p.id == id then 0 else multiset(permissions)[p]
  {
    FilterIsSubsequence(permissions, OtherId(id));
    FilterMultiset(permissions, OtherId(id));
    Filter(permissions, OtherId(id))
  }

  /** A checkbox in the assignment modal: checking appends the code, unchecking
      removes every occurrence of it. */
  function ToggleRolePermission(rolePermissions: seq<string>, code: string, checked: bool): (r: seq<string>)
    ensures checked ==> r == rolePermissions + [code]
    ensures !checked ==> code !in r && IsSubsequence(r, rolePermissions)
    ensures !checked ==> forall c :: multiset(r)[c] == if c == code then 0 else multiset(rolePermissions)[c]
    ensures forall c :: c != code ==> (c in r <==> c in rolePermissions)
  {
    if checked then rolePermissions + [code] else RemoveAll(rolePermissions, code)
  }

  /** Checking and then unchecking a code that was not selected restores the selection. */
  lemma CheckThenUncheck(rolePermissions: seq<string>, code: string)
    requires code !in rolePermissions
    ensures ToggleRolePermission(ToggleRolePermission(rolePermissions, code, true), code, false) == rolePermissions
  {
    RemoveAllAfterAppend(rolePermissions, code);
  }

  /** The `modules` list: codes and display names, in order. */
  const Modules: seq<(string, string)> := [
    ("all", "全部模块"), ("kb", "知识库管理"), ("user", "用户管理"),
    ("role", "角色管理"), ("permission", "权限管理"), ("system", "系统管理")]

  /** The name of the first entry whose code matches, as `Array.prototype.find` picks it. */
  function FindName(entries: seq<(string, string)>, code: string): (r: Option<string>)
    ensures r.None? <==> forall i :: 0 <= i < |entries| ==> entries[i].0 != code
    ensures r.Some? ==>
      exists i :: 0 <= i < |entries| && entries[i] == (code, r.value) && forall j :: 0 <= j < i ==> entries[j].0 != code
  {
    if entries == [] then None
    else if entries[0].0 == code then Some(entries[0].1)
    else
      var rest := FindName(entries[1..], code);
      assert forall i :: 1 <= i < |entries| ==> entries[i] == entries[1..][i - 1];
      rest
  }

  /** A display-name lookup over a list of entries: the name of the first entry
      with the code, or the code itself when no entry has it. */
  function NameOr(entries: seq<(string, string)>, code: string): (r: string)
    ensures (forall i :: 0 <= i < |entries| ==> entries[i].0 != code) ==> r == code
    ensures forall i :: 0 <= i < |entries| && entries[i].0 == code && (forall j :: 0 <= j < i ==> entries[j].0 != code) ==>
      r == entries[i].1
  {
    FindName(entries, code).GetOr(code)
  }

  /** `getModuleName`: `NameOr` over the `modules` list. */
  function ModuleName(code: string): string {
    NameOr(Modules, code)
  }

  /** The permission screen's state and handlers. */
  class PermissionsScreen {
    var permissions: seq<Permission>
    var filteredPermissions: seq<Permission>
    var rolePermissions: seq<string>
    var formData: PermissionForm
    var editing: Option<Permission>
    var selectedModule: string
    var searchTerm: string
    var currentRole: Option<string>

    /** While a permission is being edited it is an unlocked one, and the form
        still carries its code. */
    predicate ModalConsistent()
      reads this
    {
      editing.Some? ==> !Locked(editing.value) && formData.code == editing.value.code
    }

    constructor ()
      ensures permissions == [] && filteredPermissions == [] && rolePermissions == []
      ensures formData == EmptyForm && editing == None
      ensures selectedModule == "all" && searchTerm == "" && currentRole == None
      ensures ModalConsistent()
    {
      currentRole := None;
      permissions := [];
      filteredPermissions := [];
      rolePermissions := [];
      formData := EmptyForm;
      editing := None;
      selectedModule := "all";
      searchTerm := "";
    }

    /** `filterPermissions`: narrow by module, then by search term, and store the
        result; it is the single filter by `KeepPermission`. */
    method Refilter()
      modifies this
      ensures filteredPermissions == Filter(permissions, KeepPermission(selectedModule, searchTerm))
      ensures permissions == old(permissions) && rolePermissions == old(rolePermissions)
      ensures formData == old(formData) && editing == old(editing)
      ensures selectedModule == old(selectedModule) && searchTerm == old(searchTerm) && currentRole == old(currentRole)
    {
      var filtered := permissions;
      if selectedModule != "all" {
        filtered := Filter(filtered, InModule(selectedModule));
      }
      if searchTerm != "" {
        filtered := Filter(filtered, SearchHit(searchTerm));
      }
      var keep := KeepPermission(selectedModule, searchTerm);
      if selectedModule != "all" && searchTerm != "" {
        FilterFuse(permissions, InModule(selectedModule), SearchHit(searchTerm), keep);
      } else if selectedModule != "all" {
        FilterCongruent(permissions, InModule(selectedModule), keep);
      } else if searchTerm != "" {
        FilterCongruent(permissions, SearchHit(searchTerm), keep);
      } else {
        FilterKeepsAll(permissions, keep);
      }
      filteredPermissions := filtered;
    }

    /** The module select: the module changes, and the filter effect, which runs
        whenever the module changes, stores the list narrowed by the new module. */
    method SelectModule(m: string)
      modifies this
      ensures selectedModule == m
      ensures filteredPermissions == Filter(permissions, KeepPermission(m, searchTerm))
      ensures permissions == old(permissions) && rolePermissions == old(rolePermissions)
      ensures formData == old(formData) && editing == old(editing)
      ensures searchTerm == old(searchTerm) && currentRole == old(currentRole)
    {
      selectedModule := m;
      Refilter();
    }

    /** The search box: the term changes and the filter effect reruns with it. */
    method Search(term: string)
      modifies this
      ensures searchTerm == term
      ensures filteredPermissions == Filter(permissions, KeepPermission(selectedModule, term))
      ensures permissions == old(permissions) && rolePermissions == old(rolePermissions)
      ensures formData == old(formData) && editing == old(editing)
      ensures selectedModule == old(selectedModule) && currentRole == old(currentRole)
    {
      searchTerm := term;
      Refilter();
    }

    /** `openCreateModal(permission)`: edit mode with the permission's fields, or
        create mode with an empty form. */
    method OpenCreateModal(permission: Option<Permission>)
      modifies this
      ensures editing == permission
      ensures formData == if permission.Some? then FormOf(permission.value) else EmptyForm
      ensures permissions == old(permissions) && filteredPermissions == old(filteredPermissions)
      ensures rolePermissions == old(rolePermissions)
      ensures selectedModule == old(selectedModule) && searchTerm == old(searchTerm) && currentRole == old(currentRole)
      ensures permission.None? || !Locked(permission.value) ==> ModalConsistent()
    {
      editing := permission;
      if permission.Some? {
        formData := FormOf(permission.value);
      } else {
        formData := EmptyForm;
      }
    }

    /** A row's edit button: `openCreateModal(permission)` unless the button is
        disabled, in which case nothing happens. */
    method PressEdit(permission: Permission)
      modifies this
      ensures EditOffered(permission) ==> editing == Some(permission) && formData == FormOf(permission)
      ensures !EditOffered(permission) ==> editing == old(editing) && formData == old(formData)
      ensures permissions == old(permissions) && filteredPermissions == old(filteredPermissions)
      ensures rolePermissions == old(rolePermissions)
      ensures selectedModule == old(selectedModule) && searchTerm == old(searchTerm) && currentRole == old(currentRole)
      ensures old(ModalConsistent()) ==> ModalConsistent()
    {
      if EditOffered(permission) {
        OpenCreateModal(Some(permission));
      }
    }

    /** An input's `onChange`. The code input is `disabled` in edit mode, so
        there it changes nothing; every other change sets its one field. */
    method ChangeField(field: FormField, value: string)
      modifies this
      ensures editing.Some? && field == CodeInput ==> formData == old(formData)
      ensures editing.None? || field != CodeInput ==> formData == SetFormField(old(formData), field, value)
      ensures editing == old(editing)
      ensures permissions == old(permissions) && filteredPermissions == old(filteredPermissions)
      ensures rolePermissions == old(rolePermissions)
      ensures selectedModule == old(selectedModule) && searchTerm == old(searchTerm) && currentRole == old(currentRole)
      ensures old(ModalConsistent()) ==> ModalConsistent()
    {
      if editing.None? || field != CodeInput {
        formData := SetFormField(formData, field, value);
      }
    }

    /** The modal's submit: edit the permission being edited, or create one with
        the fresh id; either way the form is reset and edit mode ends. */
    method Submit(freshId: int)
      modifies this
      ensures old(editing).Some? ==> permissions == Edit(old(permissions), old(editing).value.id, old(formData))
      ensures old(editing).None? ==> permissions == Create(old(permissions), freshId, old(formData))
      ensures editing == None && formData == EmptyForm
      ensures filteredPermissions == old(filteredPermissions) && rolePermissions == old(rolePermissions)
      ensures selectedModule == old(selectedModule) && searchTerm == old(searchTerm) && currentRole == old(currentRole)
      ensures ModalConsistent()
      ensures old(ModalConsistent()) && old(editing).Some? ==>
        forall i :: 0 <= i < |permissions| ==>
          permissions[i].code == if old(permissions)[i].id == old(editing).value.id then old(editing).value.code
                                 else old(permissions)[i].code
    {
      if editing.Some? {
        permissions := Edit(permissions, editing.value.id, formData);
        editing := None;
      } else {
        permissions := Create(permissions, freshId, formData);
      }
      formData := EmptyForm;
    }

    /** `handleDeletePermission`: only a confirmed delete changes the list. */
    method DeletePermission(id: int, confirmed: bool)
      modifies this
      ensures permissions == if confirmed then Delete(old(permissions), id) else old(permissions)
      ensures filteredPermissions == old(filteredPermissions) && rolePermissions == old(rolePermissions)
      ensures formData == old(formData) && editing == old(editing)
      ensures selectedModule == old(selectedModule) && searchTerm == old(searchTerm) && currentRole == old(currentRole)
    {
      if confirmed {
        permissions := Delete(permissions, id);
      }
    }

    /** A row's delete button: `handleDeletePermission(permission.id)` unless the
        button is disabled; a system permission is never deleted from here. */
    method PressDelete(permission: Permission, confirmed: bool)
      modifies this
      ensures permissions == if DeleteOffered(permission) && confirmed then Delete(old(permissions), permission.id)
                             else old(permissions)
      ensures filteredPermissions == old(filteredPermissions) && rolePermissions == old(rolePermissions)
      ensures formData == old(formData) && editing == old(editing)
      ensures selectedModule == old(selectedModule) && searchTerm == old(searchTerm) && currentRole == old(currentRole)
    {
      if DeleteOffered(permission) {
        DeletePermission(permission.id, confirmed);
      }
    }

    /** The edit modal's close and cancel buttons: leave edit mode and reset the
        form to its empty initial value. */
    method CancelEdit()
      modifies this
      ensures editing == None && formData == EmptyForm
      ensures ModalConsistent()
      ensures permissions == old(permissions) && filteredPermissions == old(filteredPermissions)
      ensures rolePermissions == old(rolePermissions)
      ensures selectedModule == old(selectedModule) && searchTerm == old(searchTerm) && currentRole == old(currentRole)
    {
      editing := None;
      formData := EmptyForm;
    }

    /** `openAssignModal(role)`: the role becomes the current one, and its codes
        are the fetched list, or none when the response has no list or the
        request failed. */
    method OpenAssignModal(roleCode: string, fetched: Option<seq<string>>)
      modifies this
      ensures currentRole == Some(roleCode)
      ensures rolePermissions == fetched.GetOr([])
      ensures permissions == old(permissions) && filteredPermissions == old(filteredPermissions)
      ensures formData == old(formData) && editing == old(editing)
      ensures selectedModule == old(selectedModule) && searchTerm == old(searchTerm)
    {
      currentRole := Some(roleCode);
      rolePermissions := fetched.GetOr([]);
    }

    /** The assignment modal's save button: `setRolePermissions(currentRole.code,
        rolePermissions)`. The modal is shown only with a current role, so there
        is no call without one. */
    method AssignCall() returns (c: Option<Call>)
      ensures currentRole.None? ==> c.None?
      ensures currentRole.Some? ==> c == Some(SetRolePermissions(currentRole.value, rolePermissions))
      ensures c.Some? ==>
        (&& c.value.endpoint == "/rbac/roles/" + currentRole.value + "/permissions"
         && EffectiveVerb(c.value) == "PUT"
         && c.value.options.body == Some(Object1("perm_codes", StrArray(rolePermissions))))
    {
      if currentRole.Some? {
        c := Some(SetRolePermissions(currentRole.value, rolePermissions));
      } else {
        c := None;
      }
    }

    /** A checkbox change in the assignment modal. */
    method ToggleCode(code: string, checked: bool)
      modifies this
      ensures rolePermissions == ToggleRolePermission(old(rolePermissions), code, checked)
      ensures permissions == old(permissions) && filteredPermissions == old(filteredPermissions)
      ensures formData == old(formData) && editing == old(editing)
      ensures selectedModule == old(selectedModule) && searchTerm == old(searchTerm) && currentRole == old(currentRole)
    {
      rolePermissions := ToggleRolePermission(rolePermissions, code, checked);
    }

    /** The assignment modal's close and cancel buttons: no current role and no
        selected codes, so a later `AssignCall` makes no call. */
    method CancelAssign()
      modifies this
      ensures currentRole == None && rolePermissions == []
      ensures permissions == old(permissions) && filteredPermissions == old(filteredPermissions)
      ensures formData == old(formData) && editing == old(editing)
      ensures selectedModule == old(selectedModule) && searchTerm == old(searchTerm)
    {
      currentRole := None;
      rolePermissions := [];
    }

    /** `handleAssignPermissions` after `setRolePermissions` settled: a success
        clears the current role and the selection, a failure keeps both. */
    method FinishAssign(succeeded: bool)
      modifies this
      ensures rolePermissions == if succeeded then [] else old(rolePermissions)
      ensures currentRole == if succeeded then None else old(currentRole)
      ensures permissions == old(permissions) && filteredPermissions == old(filteredPermissions)
      ensures formData == old(formData) && editing == old(editing)
      ensures selectedModule == old(selectedModule) && searchTerm == old(searchTerm)
    {
      if succeeded {
        currentRole := None;
        rolePermissions := [];
      }
    }
  }
}
