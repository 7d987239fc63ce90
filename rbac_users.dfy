/**
  The user-role screen (`src/components/admin/rbac/RBACUsers.jsx`): the search
  over users, the avatar and name shown per user, the screen's role-modal state,
  and `UserRoleModal`'s role selection, where a click toggles a role code.
*/
module RBACUsers {
  import opened Js
  import opened Text
  import opened Lists
  import opened AdminApi

  /** A user row, with the fields the screen's rules read; `email` and
      `full_name` may be missing (`None`). */
  datatype User = User(id: int, username: string, email: Option<string>, full_name: Option<string>)

  /** `x.toLowerCase().includes(t)` on a field that may be missing: `None` where
      reading the missing value throws. */
  function FieldIncludes(field: Option<string>, t: string): Option<bool> {
    if field.None? then None else Some(Includes(Lower(field.value), Lower(t)))
  }

  /** The search test as written, evaluated left to right with `||`'s short
      circuit: `None` when it reaches a missing full name or email and throws. */
  function MatchesSearchAsWritten(u: User, term: string): (r: Option<bool>)
    ensures Includes(Lower(u.username), Lower(term)) ==> r == Some(true)
  {
    if Includes(Lower(u.username), Lower(term)) then Some(true)
    else
      var byName := FieldIncludes(u.full_name, term);
      if byName.None? || byName.value then byName
      else FieldIncludes(u.email, term)
  }

  /** `users.filter(...)` as written: `None` when the test throws on some user. */
  function FilterUsersAsWritten(users: seq<User>, searchTerm: string): (r: Option<seq<User>>)
    ensures r.Some? ==> |r.value| <= |users| && forall i :: 0 <= i < |r.value| ==> r.value[i] in users
  {
    if users == [] then Some([])
    else
      var head := MatchesSearchAsWritten(users[0], searchTerm);
      var rest := FilterUsersAsWritten(users[1..], searchTerm);
      if head.None? || rest.None? then None
      else Some((if head.value then [users[0]] else []) + rest.value)
  }

  /** A user without a full name whose username does not match makes the list throw. */
  lemma MissingFullNameThrows(users: seq<User>, searchTerm: string)
    requires exists k :: 0 <= k < |users| && users[k].full_name.None?
                         && !Includes(Lower(users[k].username), Lower(searchTerm))
    ensures FilterUsersAsWritten(users, searchTerm).None?
  {
    var k :| 0 <= k < |users| && users[k].full_name.None? && !Includes(Lower(users[k].username), Lower(searchTerm));
    AsWrittenThrowsAt(users, searchTerm, k);
  }

  lemma {:induction false} AsWrittenThrowsAt(users: seq<User>, searchTerm: string, k: nat)
    requires k < |users| && MatchesSearchAsWritten(users[k], searchTerm).None?
    ensures FilterUsersAsWritten(users, searchTerm).None?
    decreases k
  {
    if k > 0 {
      assert users[1..][k - 1] == users[k];
      AsWrittenThrowsAt(users[1..], searchTerm, k - 1);
    }
  }

  /** A text in which a character never occurs does not include it. */
  lemma AbsentCharNotIncluded(hay: string, c: char)
    requires forall i :: 0 <= i < |hay| ==> hay[i] != c
    ensures !Includes(hay, [c])
  {
    forall i | 0 <= i <= |hay| - 1
      ensures !OccursAt(hay, [c], i)
    {
      assert hay[i..i + 1][0] == hay[i];
    }
  }

  /** A concrete case: a user `admin` with no full name, searched for `x`. */
  lemma AsWrittenCounterexample()
    ensures FilterUsersAsWritten([User(1, "admin", Some("admin@company.com"), None)], "x").None?
  {
    var u := User(1, "admin", Some("admin@company.com"), None);
    var name := Lower(u.username);
    assert name == [LowerChar('a'), LowerChar('d'), LowerChar('m'), LowerChar('i'), LowerChar('n')];
    assert name == "admin";
    assert Lower("x") == [LowerChar('x')] == "x";
    AbsentCharNotIncluded(name, 'x');
    AsWrittenThrowsAt([u], "x", 0);
  }

  /** The search rule with missing fields read as not matching, as the avatar's
      `full_name?.` reads them: the lower-cased term occurs in the lower-cased
      username, full name or email. */
  predicate MatchesSearch(u: User, term: string) {
    var t := Lower(term);
    || Includes(Lower(u.username), t)
    || (u.full_name.Some? && Includes(Lower(u.full_name.value), t))
    || (u.email.Some? && Includes(Lower(u.email.value), t))
  }

  function SearchHit(term: string): User -> bool {
    (u: User) => MatchesSearch(u, term)
  }

  /** `filteredUsers`, corrected: an order-preserving sub-list of exactly the
      matching users; an empty term matches everyone, since every string includes `""`. */
  function FilterUsers(users: seq<User>, searchTerm: string): (r: seq<User>)
    ensures IsSubsequence(r, users)
    ensures forall u :: u in r <==> u in users && MatchesSearch(u, searchTerm)
    ensures forall u :: multiset(r)[u] == if MatchesSearch(u, searchTerm) then multiset(users)[u] else 0
    ensures searchTerm == "" ==> r == users
  {
    FilterIsSubsequence(users, SearchHit(searchTerm));
    FilterMultiset(users, SearchHit(searchTerm));
    if searchTerm == "" then
      assert Lower(searchTerm) == "";
      assert forall u :: u in users ==> MatchesSearch(u, searchTerm) by {
        forall u | u in users ensures MatchesSearch(u, searchTerm) {
          IncludesEmpty(Lower(u.username));
        }
      }
      FilterKeepsAll(users, SearchHit(searchTerm));
      Filter(users, SearchHit(searchTerm))
    else
      Filter(users, SearchHit(searchTerm))
  }

  /** Per user: where the as-written test does not throw it gives the corrected
      answer, and it does not throw when both optional fields are present. */
  lemma MatchAgrees(u: User, searchTerm: string)
    ensures MatchesSearchAsWritten(u, searchTerm).Some? ==>
      MatchesSearchAsWritten(u, searchTerm).value == MatchesSearch(u, searchTerm)
    ensures u.full_name.Some? && u.email.Some? ==> MatchesSearchAsWritten(u, searchTerm).Some?
  {
  }

  /** Where the as-written filter does not throw it agrees with the corrected one;
      in particular it never throws when every user has a full name and an email. */
  lemma {:induction false} AsWrittenAgrees(users: seq<User>, searchTerm: string)
    ensures FilterUsersAsWritten(users, searchTerm).Some? ==>
      FilterUsersAsWritten(users, searchTerm).value == FilterUsers(users, searchTerm)
    ensures (forall k :: 0 <= k < |users| ==> users[k].full_name.Some? && users[k].email.Some?) ==>
      FilterUsersAsWritten(users, searchTerm).Some?
  {
    assert FilterUsers(users, searchTerm) == Filter(users, SearchHit(searchTerm));
    if users != [] {
      AsWrittenAgrees(users[1..], searchTerm);
      MatchAgrees(users[0], searchTerm);
      assert FilterUsers(users[1..], searchTerm) == Filter(users[1..], SearchHit(searchTerm));
      if forall k :: 0 <= k < |users| ==> users[k].full_name.Some? && users[k].email.Some? {
        assert forall k :: 0 <= k < |users[1..]| ==> users[1..][k] == users[k + 1];
      }
    }
  }

  /** With an empty term the as-written filter never throws: the username test
      succeeds first for every user. */
  lemma {:induction false} EmptySearchNeverThrows(users: seq<User>)
    ensures FilterUsersAsWritten(users, "") == Some(users)
  {
    if users != [] {
      EmptySearchNeverThrows(users[1..]);
      assert Lower("") == "";
      IncludesEmpty(Lower(users[0].username));
      assert MatchesSearchAsWritten(users[0], "") == Some(true);
      assert [users[0]] + users[1..] == users;
    }
  }

  /** The avatar letter: the upper-cased first character of a non-empty full
      name, otherwise of the username. */
  function AvatarInitial(u: User): (r: string)
    ensures u.full_name.Some? && u.full_name.value != "" ==> r == [UpperChar(u.full_name.value[0])]
    ensures (u.full_name.None? || u.full_name.value == "") && u.username != "" ==> r == [UpperChar(u.username[0])]
    ensures (u.full_name.None? || u.full_name.value == "") && u.username == "" ==> r == ""
  {
    var fromName := if u.full_name.Some? then UpperFirst(u.full_name.value) else "";
    if fromName != "" then fromName else UpperFirst(u.username)
  }

  /** The name line: `user.full_name || user.username`. */
  function DisplayName(u: User): (r: string)
    ensures u.full_name.Some? && u.full_name.value != "" ==> r == u.full_name.value
    ensures u.full_name.None? || u.full_name.value == "" ==> r == u.username
  {
    StringOr(u.full_name, u.username)
  }

  /** `handleRoleToggle`: a present code is removed wherever it occurs, an absent
      code is appended at the end. */
  function ToggleRole(selected: seq<string>, code: string): (r: seq<string>)
    ensures code in selected ==> r == RemoveAll(selected, code)
    ensures code !in selected ==> r == selected + [code]
  {
    if code in selected then RemoveAll(selected, code) else selected + [code]
  }

  /** A toggle flips the membership of its own code and of no other. */
  lemma ToggleFlipsOnlyItsCode(selected: seq<string>, code: string)
    ensures code in ToggleRole(selected, code) <==> code !in selected
    ensures forall c :: c != code ==> (c in ToggleRole(selected, code) <==> c in selected)
  {
  }

  /** Toggling an absent code twice restores the selection. */
  lemma ToggleTwiceAbsent(selected: seq<string>, code: string)
    requires code !in selected
    ensures ToggleRole(ToggleRole(selected, code), code) == selected
  {
    RemoveAllAfterAppend(selected, code);
  }

  /** Toggling a present code twice drops its duplicates and moves it to the end. */
  lemma ToggleTwicePresent(selected: seq<string>, code: string)
    requires code in selected
    ensures ToggleRole(ToggleRole(selected, code), code) == RemoveAll(selected, code) + [code]
  {
  }

  /** `UserRoleModal`'s own state. */
  class UserRoleModal {
    var selectedRoles: seq<string>
    var loading: bool

    /** The initial selection is `currentRoles || []`. */
    constructor (currentRoles: Option<seq<string>>)
      ensures selectedRoles == currentRoles.GetOr([]) && !loading
    {
      selectedRoles := currentRoles.GetOr([]);
      loading := false;
    }

    method HandleRoleToggle(code: string)
      modifies this
      ensures selectedRoles == ToggleRole(old(selectedRoles), code)
      ensures loading == old(loading)
    {
      selectedRoles := ToggleRole(selectedRoles, code);
    }

    /** A click on a role's checkbox as written: the checkbox's `onChange` runs
        `handleRoleToggle`, the click then bubbles to the enclosing row whose
        `onClick` runs it again, and both functional updates apply. An absent
        role stays absent; a present one only moves to the end. */
    method CheckboxClick(code: string)
      modifies this
      ensures code !in old(selectedRoles) ==> selectedRoles == old(selectedRoles)
      ensures code in old(selectedRoles) ==> selectedRoles == RemoveAll(old(selectedRoles), code) + [code]
      ensures loading == old(loading)
    {
      ghost var before := selectedRoles;
      HandleRoleToggle(code);
      HandleRoleToggle(code);
      if code !in before {
        ToggleTwiceAbsent(before, code);
      } else {
        ToggleTwicePresent(before, code);
      }
    }

    /** `handleSave` up to `onSave`: loading starts and the selection is handed on. */
    method BeginSave() returns (roleCodes: seq<string>)
      modifies this
      ensures roleCodes == selectedRoles == old(selectedRoles) && loading
    {
      loading := true;
      roleCodes := selectedRoles;
    }

    /** The `finally` of `handleSave`. */
    method FinishSave()
      modifies this
      ensures selectedRoles == old(selectedRoles) && !loading
    {
      loading := false;
    }
  }

  /** What `getUserRoles` settled to: a rejection, or a response whose `roles` may be missing. */
  datatype RolesFetch = FetchFailed | Fetched(roles: Option<seq<string>>)

  /** The screen's state. */
  class UsersScreen {
    var users: seq<User>
    var searchTerm: string
    var selectedRoleFilter: string
    var currentUser: Option<string>
    var userRoles: seq<string>
    var showRoleModal: bool

    constructor ()
      ensures users == [] && searchTerm == "" && selectedRoleFilter == ""
      ensures currentUser == None && userRoles == [] && !showRoleModal
    {
      users := [];
      searchTerm := "";
      selectedRoleFilter := "";
      currentUser := None;
      userRoles := [];
      showRoleModal := false;
    }

    /** The rows the table shows. */
    function Visible(): seq<User>
      reads this
    {
      FilterUsers(users, searchTerm)
    }

    /** The search box: the term changes and the table shows the users matching it. */
    method SetSearchTerm(term: string)
      modifies this
      ensures searchTerm == term
      ensures Visible() == FilterUsers(old(users), term)
      ensures users == old(users) && selectedRoleFilter == old(selectedRoleFilter)
      ensures currentUser == old(currentUser) && userRoles == old(userRoles) && showRoleModal == old(showRoleModal)
    {
      searchTerm := term;
    }

    /** Choosing a role filter changes the filter field and not the rows shown. */
    method SetRoleFilter(roleCode: string)
      modifies this
      ensures selectedRoleFilter == roleCode
      ensures Visible() == old(Visible())
      ensures users == old(users) && searchTerm == old(searchTerm)
      ensures currentUser == old(currentUser) && userRoles == old(userRoles) && showRoleModal == old(showRoleModal)
    {
      selectedRoleFilter := roleCode;
    }

    /** `handleViewUserRoles` once `getUserRoles(username)` settled: on success the
        modal opens for the user with `response.roles || []`; on failure nothing changes. */
    method ViewUserRoles(username: string, fetched: RolesFetch)
      modifies this
      ensures fetched.FetchFailed? ==>
        currentUser == old(currentUser) && userRoles == old(userRoles) && showRoleModal == old(showRoleModal)
      ensures fetched.Fetched? ==>
        currentUser == Some(username) && userRoles == fetched.roles.GetOr([]) && showRoleModal
      ensures users == old(users) && searchTerm == old(searchTerm) && selectedRoleFilter == old(selectedRoleFilter)
    {
      if fetched.Fetched? {
        currentUser := Some(username);
        userRoles := fetched.roles.GetOr([]);
        showRoleModal := true;
      }
    }

    /** The call `handleUpdateUserRoles(username, roleCodes)` makes when the
        modal saves: `setUserRoles` for the current user. The modal is shown only
        with a current user, so there is no call without one. */
    method SaveCall(roleCodes: seq<string>) returns (c: Option<Call>)
      ensures currentUser.None? ==> c.None?
      ensures currentUser.Some? ==> c == Some(SetUserRoles(currentUser.value, roleCodes))
      ensures c.Some? ==>
        (&& c.value.endpoint == "/rbac/users/" + currentUser.value + "/roles"
         && EffectiveVerb(c.value) == "PUT"
         && c.value.options.body == Some(Object1("role_codes", StrArray(roleCodes))))
    {
      if currentUser.Some? {
        c := Some(SetUserRoles(currentUser.value, roleCodes));
      } else {
        c := None;
      }
    }

    /** The modal's cancel: it closes and forgets the user and the roles, as a
        successful save does, so a later `SaveCall` makes no call. */
    method CancelRoleModal()
      modifies this
      ensures currentUser == None && userRoles == [] && !showRoleModal
      ensures users == old(users) && searchTerm == old(searchTerm) && selectedRoleFilter == old(selectedRoleFilter)
    {
      showRoleModal := false;
      currentUser := None;
      userRoles := [];
    }

    /** `handleUpdateUserRoles` once `setUserRoles` settled: a success closes the
        modal and clears the user and roles; a failure keeps everything. */
    method FinishUpdateUserRoles(succeeded: bool)
      modifies this
      ensures succeeded ==> currentUser == None && userRoles == [] && !showRoleModal
      ensures !succeeded ==>
        currentUser == old(currentUser) && userRoles == old(userRoles) && showRoleModal == old(showRoleModal)
      ensures users == old(users) && searchTerm == old(searchTerm) && selectedRoleFilter == old(selectedRoleFilter)
    {
      if succeeded {
        showRoleModal := false;
        currentUser := None;
        userRoles := [];
      }
    }
  }
}
