/**
 * The users page: the roles the signed-in user may assign, the role update of one user,
 * the name-or-email search, the administrator-only columns and the create-user outcome.
 */
module UsersAdmin {
  import opened Wrappers
  import opened Text
  import opened Entities
  import opened Lists

  const ROLE_REQUIRED_MESSAGE := "Debe seleccionar un rol"
  const ROLE_UPDATE_FAILED_MESSAGE := "Ocurrió un error al actualizar el rol"

  /** The key of the only entry of the error object. */
  const ROLE_KEY := "role"

  /** `roles`: an administrator may assign every role, anyone else only CUSTOMER. */
  function AssignableRoles(currentRole: string): (roles: seq<string>)
    ensures |roles| > 0 && roles[0] == CUSTOMER
    ensures EMPLOYEE in roles <==> currentRole == ADMIN
    ensures ADMIN in roles <==> currentRole == ADMIN
    ensures currentRole != ADMIN ==> roles == [CUSTOMER]
  {
    if currentRole == ADMIN then [CUSTOMER, EMPLOYEE, ADMIN] else [CUSTOMER]
  }

  /** The table's column headers; the role and action columns only for an administrator. */
  function Columns(currentRole: string): (columns: seq<string>)
    ensures |columns| >= 3 && columns[..3] == ["Nombre", "Email", "Teléfono"]
    ensures "Rol" in columns <==> currentRole == ADMIN
    ensures "Acciones" in columns <==> currentRole == ADMIN
  {
    ["Nombre", "Email", "Teléfono"] + (if currentRole == ADMIN then ["Rol", "Acciones"] else [])
  }

  /** The role update applied to the loaded list: `{ ...user, role: newRole }` for the user with that id. */
  function WithRole(users: seq<User>, id: int, role: string): (r: seq<User>)
    ensures |r| == |users|
    ensures forall i :: 0 <= i < |users| && users[i].id != id ==> r[i] == users[i]
    ensures forall i :: 0 <= i < |users| && users[i].id == id ==>
              r[i].role == role && r[i].(role := users[i].role) == users[i]
  {
    Map(users, (u: User) => if u.id == id then u.(role := role) else u)
  }

  /** Applying the same role update twice changes nothing more. */
  lemma WithRoleIdempotent(users: seq<User>, id: int, role: string)
    ensures WithRole(WithRole(users, id, role), id, role) == WithRole(users, id, role)
  {
    var once := WithRole(users, id, role);
    var twice := WithRole(once, id, role);
    assert forall i :: 0 <= i < |users| ==> once[i].id == users[i].id;
    assert forall i :: 0 <= i < |users| ==> twice[i] == once[i];
  }

  /** `usuario.firstName` or `usuario.email` contains the search text, ignoring case. */
  predicate UserListed(u: User, search: string) {
    MatchesSearch(u.firstName, search) || MatchesSearch(u.email, search)
  }

  /** The listed users, in table order. */
  function FilteredUsers(users: seq<User>, search: string): (r: seq<User>)
    ensures forall u :: u in r <==> u in users && UserListed(u, search)
    ensures IsSubsequence(r, users)
  {
    FilterIsSubsequence(users, u => UserListed(u, search));
    Filter(users, u => UserListed(u, search))
  }

  /** An empty search lists every user. */
  lemma EmptySearchListsAll(users: seq<User>)
    ensures FilteredUsers(users, "") == users
  {
    forall i | 0 <= i < |users|
      ensures UserListed(users[i], "")
    {
      EmptySearchMatches(users[i].firstName);
    }
    FilterKeepsAll(users, u => UserListed(u, ""));
  }

  /** Which of the page's dialogs are open. */
  datatype Dialogs = Dialogs(add: bool, success: bool, error: bool)

  /**
   * `handleSubmit` as written: `failure` is the error a rejected request raised (None when it
   * succeeded). A failure opens the success dialog, as a success does.
   */
  function CreateUserDialogsAsWritten(d: Dialogs, failure: Option<string>): Dialogs {
    if failure.None? then d.(success := true, add := false) else d.(success := true)
  }

  /** As written, a rejected creation reports success and never opens the error dialog. */
  lemma FailedCreateReportsSuccess(d: Dialogs, message: string)
    ensures CreateUserDialogsAsWritten(d, Some(message)).success
    ensures CreateUserDialogsAsWritten(d, Some(message)).error == d.error
  {
  }

  /** The outcome the two dialogs are there to report: success only on success, the error dialog on failure. */
  function CreateUserDialogs(d: Dialogs, failure: Option<string>): (r: Dialogs)
    ensures failure.None? ==> r.success && !r.add && r.error == d.error
    ensures failure.Some? ==> r.error && r.success == d.success && r.add == d.add
  {
    if failure.None? then d.(success := true, add := false) else d.(error := true)
  }

  /** The role update request. */
  datatype RoleUpdate = RoleUpdate(userId: int, role: string)

  /** The page's state, for a signed-in user with role `currentRole`. */
  class UsersAdminPage {
    const currentRole: string
    var usuarios: seq<User>
    var search: string
    var dialogs: Dialogs
    var openDeleteDialog: bool
    var openEditDialog: bool
    var selectedUsuario: Option<User>
    var newRole: string
    var errors: map<string, string>
    var error: string

    constructor (currentRole: string)
      ensures this.currentRole == currentRole
      ensures usuarios == [] && search == "" && dialogs == Dialogs(false, false, false)
      ensures !openDeleteDialog && !openEditDialog && selectedUsuario == None
      ensures newRole == "" && errors == map[] && error == ""
    {
      this.currentRole := currentRole;
      usuarios, search := [], "";
      dialogs := Dialogs(false, false, false);
      openDeleteDialog, openEditDialog, selectedUsuario := false, false, None;
      newRole, errors, error := "", map[], "";
    }

    /** The edit button: selects the user and preselects its current role. */
    method OpenEdit(u: User)
      modifies this`selectedUsuario, this`newRole, this`openEditDialog
      ensures selectedUsuario == Some(u) && newRole == u.role && openEditDialog
    {
      selectedUsuario := Some(u);
      newRole := u.role;
      openEditDialog := true;
    }

    /** The delete button: selects the user. */
    method OpenDelete(u: User)
      modifies this`selectedUsuario, this`openDeleteDialog
      ensures selectedUsuario == Some(u) && openDeleteDialog
    {
      selectedUsuario := Some(u);
      openDeleteDialog := true;
    }

    /**
     * `handleUpdateRole` on the selected user. With no role chosen it records the role error
     * and sends nothing. Otherwise it sends the update; `failure` is the error a rejected
     * request raised. On success only the selected user's role changes in the list.
     */
    method UpdateRole(failure: Option<string>) returns (request: Option<RoleUpdate>)
      requires selectedUsuario.Some?
      modifies this`usuarios, this`openEditDialog, this`dialogs, this`errors, this`error
      ensures newRole == "" ==> request.None? && errors == map[ROLE_KEY := ROLE_REQUIRED_MESSAGE]
                                && usuarios == old(usuarios) && openEditDialog == old(openEditDialog)
                                && dialogs == old(dialogs) && error == old(error)
      ensures newRole != "" ==> request == Some(RoleUpdate(selectedUsuario.value.id, newRole))
      ensures request.Some? && failure.None? ==>
                && usuarios == WithRole(old(usuarios), selectedUsuario.value.id, newRole)
                && !openEditDialog && dialogs == old(dialogs).(success := true) && errors == old(errors)
                && error == old(error)
      ensures request.Some? && failure.Some? ==>
                && usuarios == old(usuarios) && errors == map[ROLE_KEY := ROLE_UPDATE_FAILED_MESSAGE]
                && error == failure.value && dialogs == old(dialogs).(error := true)
                && openEditDialog == old(openEditDialog)
    {
      if newRole == "" {
        errors := map[ROLE_KEY := ROLE_REQUIRED_MESSAGE];
        return None;
      }
      var id := selectedUsuario.value.id;
      request := Some(RoleUpdate(id, newRole));
      if failure.Some? {
        errors := map[ROLE_KEY := ROLE_UPDATE_FAILED_MESSAGE];
        error := failure.value;
        dialogs := dialogs.(error := true);
        return;
      }
      usuarios := WithRole(usuarios, id, newRole);
      openEditDialog := false;
      dialogs := dialogs.(success := true);
    }

    /** `handleDelete`: the DELETE for the selected user; a success closes the confirmation and reports it. */
    method DeleteUser(failure: Option<string>) returns (deletedId: int)
      requires selectedUsuario.Some?
      modifies this`openDeleteDialog, this`dialogs, this`error
      ensures deletedId == selectedUsuario.value.id
      ensures failure.None? ==> !openDeleteDialog && dialogs == old(dialogs).(success := true) && error == old(error)
      ensures failure.Some? ==>
                openDeleteDialog == old(openDeleteDialog) && dialogs == old(dialogs).(error := true) && error == failure.value
    {
      deletedId := selectedUsuario.value.id;
      if failure.Some? {
        error := failure.value;
        dialogs := dialogs.(error := true);
        return;
      }
      openDeleteDialog := false;
      dialogs := dialogs.(success := true);
    }

    /** A (re)load of the user list. */
    method ReceiveUsuarios(data: seq<User>)
      modifies this`usuarios
      ensures usuarios == data
    {
      usuarios := data;
    }

    /**
     * `handleSubmit` for the add-user form, as written: a failure records its message and
     * opens the success dialog, as a success does.
     */
    method CreateUser(failure: Option<string>)
      modifies this`dialogs, this`error
      ensures dialogs == CreateUserDialogsAsWritten(old(dialogs), failure)
      ensures error == if failure.Some? then failure.value else old(error)
    {
      if failure.Some? {
        error := failure.value;
      }
      dialogs := CreateUserDialogsAsWritten(dialogs, failure);
    }
  }
}
