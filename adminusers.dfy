/** src/components/AdminUsersPage.js: the admin's list of pending and of all
    accounts, with approve and delete actions. */
module AdminUsers {
  import opened Js
  import opened Api
  import opened Auth

  datatype User = User(id: string, username: string, role: string, enabled: bool)

  const RolePrefix := "ROLE_"
  const UsersLoadError := "Failed to load user data."
  const ApproveError := "Failed to approve user."
  const DeleteError := "Failed to delete user."
  const SelfDeleteAlert := "You cannot delete your own account."
  const PromptStart := "Are you sure you want to delete user: "
  const PromptEnd := "? This action is permanent."

  /** `u.role.replace('ROLE_', '')`: the first `ROLE_` is dropped. */
  function RoleLabel(role: string): (text: string)
    ensures IndexOf(role, RolePrefix).None? ==> text == role
    ensures IndexOf(role, RolePrefix).Some? ==> |text| == |role| - |RolePrefix|
  {
    ReplaceFirst(role, RolePrefix, "")
  }

  /** A role named with the prefix shows without it; a role without the
      prefix shows unchanged. */
  lemma RoleLabelDropsPrefix(name: string, role: string)
    ensures RoleLabel(RolePrefix + name) == name
    ensures IndexOf(role, RolePrefix).None? ==> RoleLabel(role) == role
  {
    var s := RolePrefix + name;
    assert OccursAt(s, RolePrefix, 0) by {
      assert s[..|RolePrefix|] == RolePrefix;
    }
    assert s[|RolePrefix|..] == name;
  }

  /** `u.enabled ? 'Approved' : 'Pending'` */
  function StatusLabel(enabled: bool): (text: string)
    ensures text == "Approved" <==> enabled
    ensures text == "Pending" <==> !enabled
  {
    if enabled then "Approved" else "Pending"
  }

  /** `username === user.username`: the signed-in user's own account. A user
      record without a username matches no account. */
  predicate IsSelf(username: string, current: JsonValue)
    ensures IsSelf(username, current) ==> current.JsonObject? && current.username == Some(username)
    ensures current == JsonNull ==> !IsSelf(username, current)
  {
    UsernameOf(current) == Some(username)
  }

  /** One table row as displayed. */
  datatype Row = Row(username: string, role: string, status: string, deleteEnabled: bool)

  /** The rows of the "All Users" table. */
  function UserRows(users: seq<User>, current: JsonValue): (rows: seq<Row>)
    ensures |rows| == |users|
    ensures forall i :: 0 <= i < |users| ==>
      && rows[i].username == users[i].username
      && rows[i].role == RoleLabel(users[i].role)
      && rows[i].status == StatusLabel(users[i].enabled)
      && (rows[i].deleteEnabled <==> !IsSelf(users[i].username, current))
  {
    if users == [] then []
    else
      var u := users[0];
      [Row(u.username, RoleLabel(u.role), StatusLabel(u.enabled), !IsSelf(u.username, current))]
        + UserRows(users[1..], current)
  }

  /** The signed-in admin's own row is the only one whose delete button is
      disabled, and it is disabled in every list that holds it. */
  lemma {:induction false} OwnRowDisabled(users: seq<User>, current: JsonValue)
    ensures forall i :: 0 <= i < |users| ==>
      (!UserRows(users, current)[i].deleteEnabled <==> UsernameOf(current) == Some(users[i].username))
    ensures UsernameOf(current).None? ==> forall r :: r in UserRows(users, current) ==> r.deleteEnabled
  {
    var rows := UserRows(users, current);
    if UsernameOf(current).None? {
      forall r | r in rows ensures r.deleteEnabled {
        var i :| 0 <= i < |rows| && rows[i] == r;
        assert !IsSelf(users[i].username, current);
      }
    }
  }

  /** `Are you sure you want to delete user: {username}? ...` */
  function DeletePrompt(username: string): string {
    PromptStart + username + PromptEnd
  }

  class AdminUsersPage {
    var pendingUsers: seq<User>
    var allUsers: seq<User>
    var loading: bool
    var error: string
    /** The alerts shown, in order. */
    var alerts: seq<string>
    /** How many times `fetchUsers` ran. */
    var fetches: nat

    /** `fetchUsers`: both lists are requested together and replaced only
        when both replies arrive. */
    method FetchUsers(pendingReply: Reply<seq<User>>, allReply: Reply<seq<User>>)
      modifies this
      ensures !loading && fetches == old(fetches) + 1 && alerts == old(alerts)
      ensures pendingReply.Ok? && allReply.Ok? ==>
        pendingUsers == pendingReply.value && allUsers == allReply.value && error == ""
      ensures !(pendingReply.Ok? && allReply.Ok?) ==>
        pendingUsers == old(pendingUsers) && allUsers == old(allUsers) && error == UsersLoadError
    {
      loading := true;
      error := "";
      fetches := fetches + 1;
      if pendingReply.Ok? && allReply.Ok? {
        pendingUsers := pendingReply.value;
        allUsers := allReply.value;
      } else {
        error := UsersLoadError;
      }
      loading := false;
    }

    /** Mounting the page runs the first fetch. */
    constructor (pendingReply: Reply<seq<User>>, allReply: Reply<seq<User>>)
      ensures !loading && fetches == 1 && alerts == []
      ensures pendingReply.Ok? && allReply.Ok? ==>
        pendingUsers == pendingReply.value && allUsers == allReply.value && error == ""
      ensures !(pendingReply.Ok? && allReply.Ok?) ==>
        pendingUsers == [] && allUsers == [] && error == UsersLoadError
    {
      pendingUsers, allUsers := [], [];
      loading, error := true, "";
      alerts, fetches := [], 0;
      new;
      FetchUsers(pendingReply, allReply);
    }

    /** `handleApprove`: a success refetches both lists (with the replies
        given), a failure only sets the error. */
    method Approve(userId: string, reply: Reply<()>, pendingReply: Reply<seq<User>>, allReply: Reply<seq<User>>)
      returns (path: string)
      modifies this
      ensures path == "/users/approve/" + userId
      ensures alerts == old(alerts)
      ensures reply.Ok? ==> fetches == old(fetches) + 1 && !loading
      ensures reply.Ok? && pendingReply.Ok? && allReply.Ok? ==>
        pendingUsers == pendingReply.value && allUsers == allReply.value && error == ""
      ensures reply.Ok? && !(pendingReply.Ok? && allReply.Ok?) ==>
        pendingUsers == old(pendingUsers) && allUsers == old(allUsers) && error == UsersLoadError
      ensures reply.Failed? ==>
        && fetches == old(fetches) && error == ApproveError && loading == old(loading)
        && pendingUsers == old(pendingUsers) && allUsers == old(allUsers)
    {
      path := "/users/approve/" + userId;
      match reply {
        case Ok(_) => FetchUsers(pendingReply, allReply);
        case Failed(_) => error := ApproveError;
      }
    }

    /** `handleDelete`: the signed-in user's own account is refused with an
        alert before any question; otherwise the user is asked and, once they
        confirm, the delete is sent. */
    method Delete(userId: string, username: string, current: JsonValue, confirmed: bool, reply: Reply<()>,
                  pendingReply: Reply<seq<User>>, allReply: Reply<seq<User>>)
      returns (asked: Option<string>, sent: Option<string>)
      modifies this
      ensures IsSelf(username, current) ==>
        && asked == None && sent == None && alerts == old(alerts) + [SelfDeleteAlert]
        && error == old(error) && fetches == old(fetches) && loading == old(loading)
        && pendingUsers == old(pendingUsers) && allUsers == old(allUsers)
      ensures !IsSelf(username, current) ==>
        && alerts == old(alerts) && asked == Some(DeletePrompt(username))
        && sent == (if confirmed then Some("/users/" + userId) else None)
      ensures !IsSelf(username, current) && !confirmed ==>
        && error == old(error) && fetches == old(fetches) && loading == old(loading)
        && pendingUsers == old(pendingUsers) && allUsers == old(allUsers)
      ensures !IsSelf(username, current) && confirmed && reply.Ok? ==> fetches == old(fetches) + 1 && !loading
      ensures !IsSelf(username, current) && confirmed && reply.Ok? && pendingReply.Ok? && allReply.Ok? ==>
        pendingUsers == pendingReply.value && allUsers == allReply.value && error == ""
      ensures !IsSelf(username, current) && confirmed && reply.Ok? && !(pendingReply.Ok? && allReply.Ok?) ==>
        pendingUsers == old(pendingUsers) && allUsers == old(allUsers) && error == UsersLoadError
      ensures !IsSelf(username, current) && confirmed && reply.Failed? ==>
        && error == DeleteError && fetches == old(fetches) && loading == old(loading)
        && pendingUsers == old(pendingUsers) && allUsers == old(allUsers)
    {
      asked, sent := None, None;
      if IsSelf(username, current) {
        alerts := alerts + [SelfDeleteAlert];
        return;
      }
      asked := Some(DeletePrompt(username));
      if !confirmed {
        return;
      }
      sent := Some("/users/" + userId);
      match reply {
        case Ok(_) => FetchUsers(pendingReply, allReply);
        case Failed(_) => error := DeleteError;
      }
    }
  }
}
