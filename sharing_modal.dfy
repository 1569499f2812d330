/** src/components/modals/SharingModal.tsx: inviting another user to see
    the data (with duplicate invitations refused), the shared users the modal
    lists, and the labels of the three permission levels.

    The `pending_invitations` table is the modal's `invitations` field; the
    outcome of the insert is a parameter, because the database decides it. */
module SharingModal {
  import opened Wrappers
  import opened Text

  const ADMIN: string := "admin"
  const EDITOR: string := "editor"
  const VIEWER: string := "viewer"

  /** The PostgreSQL code of a unique-constraint violation. */
  const UNIQUE_VIOLATION: string := "23505"
  const ADD_FAILED: string := "לא ניתן להוסיף משתמש"
  const LOAD_FAILED: string := "לא ניתן לטעון משתמשים משותפים"

  /** `getPermissionLabel`: the three levels have labels; any other text
      (the loaded rows are cast, not checked) has none. */
  function PermissionLabel(permission: string): (shown: Option<string>)
    ensures shown.Some? <==> permission == ADMIN || permission == EDITOR || permission == VIEWER
    ensures shown.Some? ==> shown.value != ""
  {
    if permission == ADMIN then Some("מנהל")
    else if permission == EDITOR then Some("עורך")
    else if permission == VIEWER then Some("צופה")
    else None
  }

  /** Different levels are told apart by their labels. */
  lemma PermissionLabelsDistinct(a: string, b: string)
    requires PermissionLabel(a).Some? && PermissionLabel(b).Some?
    requires a != b
    ensures PermissionLabel(a) != PermissionLabel(b)
  {
  }

  // ---------------------------------------------------------------------------
  // Loading the shared users

  /** A text JavaScript treats as true: present and not empty. */
  predicate Filled(s: Option<string>) {
    s.Some? && s.value != ""
  }

  /** The joined `auth.users` row of the person shared with. */
  datatype AuthUser = AuthUser(email: Option<string>, fullName: Option<string>)

  /** A `user_permissions` row with its joined user, which may be missing. */
  datatype PermissionRow = PermissionRow(sharedWithUserId: string, permissionType: string, sharedUser: Option<AuthUser>)

  datatype SharedUser = SharedUser(id: string, email: string, name: string, permission: string)

  /** The loaded-row transform: the email or `''`, and as the name the full
      name, otherwise the email, otherwise `''`. */
  function SharedUserOf(row: PermissionRow): (u: SharedUser)
    ensures u.id == row.sharedWithUserId && u.permission == row.permissionType
    ensures u.email == (if row.sharedUser.Some? && Filled(row.sharedUser.value.email) then row.sharedUser.value.email.value else "")
    ensures u.name == (if row.sharedUser.Some? && Filled(row.sharedUser.value.fullName) then row.sharedUser.value.fullName.value else u.email)
  {
    var email := if row.sharedUser.Some? then row.sharedUser.value.email else None;
    var fullName := if row.sharedUser.Some? then row.sharedUser.value.fullName else None;
    var shownEmail := if Filled(email) then email.value else "";
    SharedUser(row.sharedWithUserId, shownEmail, if Filled(fullName) then fullName.value else shownEmail, row.permissionType)
  }

  /** A shared user has a name exactly when their joined row has a full name
      or an email. */
  lemma NamedUnlessBothMissing(row: PermissionRow)
    ensures SharedUserOf(row).name == "" <==>
      (row.sharedUser.None? || (!Filled(row.sharedUser.value.fullName) && !Filled(row.sharedUser.value.email)))
  {
  }

  /** `data?.map(...) || []`. */
  function SharedUsers(data: Option<seq<PermissionRow>>): (r: seq<SharedUser>)
    ensures data.None? ==> r == []
    ensures data.Some? ==> |r| == |data.value| && forall i :: 0 <= i < |r| ==> r[i] == SharedUserOf(data.value[i])
  {
    if data.None? then [] else seq(|data.value|, i requires 0 <= i < |data.value| => SharedUserOf(data.value[i]))
  }

  // ---------------------------------------------------------------------------
  // Invitations

  /** A `pending_invitations` row. */
  datatype Invitation = Invitation(ownerId: string, invitedEmail: string, permission: string)

  datatype DbError = DbError(code: string, message: string)

  /** The toasts of the sharing modal. */
  datatype Toast =
    | AlreadyInvited(email: string)
    | Invited(email: string)
    | AddFailed(message: string)
    | LoadFailed(message: string)

  /** How many rows invite `email` on behalf of `owner`. */
  function Matching(table: seq<Invitation>, owner: string, email: string): nat
  {
    if table == [] then 0
    else Matching(table[..|table| - 1], owner, email)
         + (if table[|table| - 1].ownerId == owner && table[|table| - 1].invitedEmail == email then 1 else 0)
  }

  /** The lookup with `.single()`: it finds a row only when exactly one
      matches; with none, or with several, its data is null. */
  predicate FindsExisting(table: seq<Invitation>, owner: string, email: string) {
    Matching(table, owner, email) == 1
  }

  /** Appending a row counts it for its own owner and email only. */
  lemma {:induction false} MatchingAppend(table: seq<Invitation>, row: Invitation, owner: string, email: string)
    ensures Matching(table + [row], owner, email)
      == Matching(table, owner, email) + (if row.ownerId == owner && row.invitedEmail == email then 1 else 0)
  {
    assert (table + [row])[..|table + [row]| - 1] == table;
  }

  /** Rows for other owners or other emails are not counted. */
  lemma {:induction false} MatchingNone(table: seq<Invitation>, owner: string, email: string)
    requires forall i :: 0 <= i < |table| ==> table[i].ownerId != owner || table[i].invitedEmail != email
    ensures Matching(table, owner, email) == 0
  {
    if table != [] {
      MatchingNone(table[..|table| - 1], owner, email);
    }
  }

  class SharingModal {
    var email: string
    var permission: string
    var loading: bool
    var sharedUsers: seq<SharedUser>
    /** The `pending_invitations` table. */
    var invitations: seq<Invitation>

    constructor(invitations: seq<Invitation>)
      ensures email == "" && permission == EDITOR && !loading && sharedUsers == []
      ensures this.invitations == invitations
    {
      email := "";
      permission := EDITOR;
      loading := false;
      sharedUsers := [];
      this.invitations := invitations;
    }

    /** `handleAddUser`. `user` is the signed-in user's id and `insertError`
        what the insert reports. Nothing happens without a user or an email.
        An invitation the lookup finds for the same owner and lower-cased
        email is refused, and so is an insert that violates the unique
        constraint; another insert error is shown with its message (or a
        default). Only a successful insert adds the invitation under the
        lower-cased email, resets the email and the permission, and asks for
        the list to be reloaded. Past the first check, loading is over at
        the end in every case. */
    method HandleAddUser(user: Option<string>, insertError: Option<DbError>) returns (toast: Option<Toast>, reload: bool)
      modifies this
      ensures sharedUsers == old(sharedUsers)
      ensures user.Some? && old(email) != "" ==> !loading
      ensures user.None? || old(email) == "" ==>
        toast.None? && !reload && email == old(email) && permission == old(permission) && invitations == old(invitations)
        && loading == old(loading)
      ensures user.Some? && old(email) != "" && FindsExisting(old(invitations), user.value, ToLower(old(email))) ==>
        toast == Some(AlreadyInvited(old(email))) && !reload
        && email == old(email) && permission == old(permission) && invitations == old(invitations)
      ensures user.Some? && old(email) != "" && !FindsExisting(old(invitations), user.value, ToLower(old(email))) && insertError.Some? ==>
        && toast == Some(if insertError.value.code == UNIQUE_VIOLATION then AlreadyInvited(old(email))
                         else AddFailed(if insertError.value.message != "" then insertError.value.message else ADD_FAILED))
        && !reload && email == old(email) && permission == old(permission) && invitations == old(invitations)
      ensures user.Some? && old(email) != "" && !FindsExisting(old(invitations), user.value, ToLower(old(email))) && insertError.None? ==>
        && toast == Some(Invited(old(email))) && reload
        && invitations == old(invitations) + [Invitation(user.value, ToLower(old(email)), old(permission))]
        && email == "" && permission == EDITOR
    {
      toast, reload := None, false;
      if user.None? || email == "" {
        return;
      }
      loading := true;
      var invitedEmail := ToLower(email);
      if FindsExisting(invitations, user.value, invitedEmail) {
        toast := Some(AlreadyInvited(email));
        loading := false;
        return;
      }
      if insertError.Some? {
        if insertError.value.code == UNIQUE_VIOLATION {
          toast := Some(AlreadyInvited(email));
        } else {
          var message := insertError.value.message;
          toast := Some(AddFailed(if message != "" then message else ADD_FAILED));
        }
        loading := false;
        return;
      }
      invitations := invitations + [Invitation(user.value, invitedEmail, permission)];
      toast := Some(Invited(email));
      email := "";
      permission := EDITOR;
      reload := true;
      loading := false;
    }

    /** `loadSharedUsers`: without a user nothing happens; a failed query
        keeps the list and shows an error; otherwise the list is the loaded
        rows transformed. */
    method LoadSharedUsers(user: Option<string>, data: Option<seq<PermissionRow>>, error: Option<string>)
      returns (toast: Option<Toast>)
      modifies this
      ensures email == old(email) && permission == old(permission) && invitations == old(invitations) && loading == old(loading)
      ensures user.None? ==> toast.None? && sharedUsers == old(sharedUsers)
      ensures user.Some? && error.Some? ==> toast == Some(LoadFailed(LOAD_FAILED)) && sharedUsers == old(sharedUsers)
      ensures user.Some? && error.None? ==> toast.None? && sharedUsers == SharedUsers(data)
    {
      toast := None;
      if user.None? {
        return;
      }
      if error.Some? {
        toast := Some(LoadFailed(LOAD_FAILED));
        return;
      }
      sharedUsers := SharedUsers(data);
    }
  }

  /** Once an email has been invited by an owner who had not invited it
      before, asking again, in any letter case, is refused by the lookup. */
  lemma InviteOnce(table: seq<Invitation>, owner: string, email: string, again: string, permission: string)
    requires !exists i :: 0 <= i < |table| && table[i].ownerId == owner && table[i].invitedEmail == ToLower(email)
    requires ToLower(again) == ToLower(email)
    ensures FindsExisting(table + [Invitation(owner, ToLower(email), permission)], owner, ToLower(again))
  {
    MatchingNone(table, owner, ToLower(email));
    MatchingAppend(table, Invitation(owner, ToLower(email), permission), owner, ToLower(email));
  }

  /** An invitation for another owner or another email leaves what the
      lookup finds unchanged. */
  lemma OtherInvitationIrrelevant(table: seq<Invitation>, row: Invitation, owner: string, email: string)
    requires row.ownerId != owner || row.invitedEmail != email
    ensures FindsExisting(table + [row], owner, email) == FindsExisting(table, owner, email)
  {
    MatchingAppend(table, row, owner, email);
  }
}
