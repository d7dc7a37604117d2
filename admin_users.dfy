/**
 * The admin user table (app/admin/users/page.js): the add-user form, the
 * append after a create and the filter after a delete. Every body the server
 * answers with goes into the table as it is, so an error body from a failed
 * create becomes a row of its own; requests that throw change nothing.
 */
module AdminUsers {
  import opened Wrappers

  /** A row of the table: a user as the server returns it, or the `{ error }` body of a failed request. */
  datatype Row =
    | User(id: int, email: string, isAdmin: bool)
    | ErrorBody(error: string)

  /** A value held by the add-user form: text inputs hold text, the checkbox a flag. */
  datatype FieldValue = Text(text: string) | Flag(flag: bool)

  /** `{ email: '', password: '', isAdmin: false }` */
  const EmptyForm: map<string, FieldValue> :=
    map["email" := Text(""), "password" := Text(""), "isAdmin" := Flag(false)]

  /** The role column: `user.isAdmin ? 'Admin' : 'User'`; a row without the flag reads as not an admin. */
  function RoleLabel(row: Row): (role: string)
    ensures role == "Admin" <==> row.User? && row.isAdmin
    ensures role == "User" <==> !(row.User? && row.isAdmin)
  {
    if row.User? && row.isAdmin then "Admin" else "User"
  }

  /** `user.id !== userToDelete` is false: the row is a user whose id is the pending one. */
  predicate IsTarget(row: Row, target: Option<int>) {
    row.User? && target.Some? && row.id == target.value
  }

  /** `users.filter((user) => user.id !== userToDelete)` */
  function KeepOthers(rows: seq<Row>, target: Option<int>): (r: seq<Row>)
    ensures |r| <= |rows|
    ensures forall i :: 0 <= i < |r| ==> !IsTarget(r[i], target)
    ensures forall x :: x in r <==> x in rows && !IsTarget(x, target)
  {
    if rows == [] then []
    else if IsTarget(rows[0], target) then KeepOthers(rows[1..], target)
    else [rows[0]] + KeepOthers(rows[1..], target)
  }

  /** The filter works row by row, so the rows that stay keep their order. */
  lemma {:induction false} KeepOthersAppend(a: seq<Row>, b: seq<Row>, target: Option<int>)
    ensures KeepOthers(a + b, target) == KeepOthers(a, target) + KeepOthers(b, target)
  {
    if a != [] {
      assert (a + b)[0] == a[0];
      assert (a + b)[1..] == a[1..] + b;
      KeepOthersAppend(a[1..], b, target);
    } else {
      assert a + b == b;
    }
  }

  /** With no pending id nothing matches, and a row appended after a delete stays. */
  lemma {:induction false} KeepOthersNoTarget(rows: seq<Row>)
    ensures KeepOthers(rows, None) == rows
  {
    if rows != [] {
      KeepOthersNoTarget(rows[1..]);
    }
  }

  /** Every state field of the user page at one moment. */
  datatype UsersState = UsersState(
    users: seq<Row>,
    isModalOpen: bool,
    isDeleteModalOpen: bool,
    newUser: map<string, FieldValue>,
    userToDelete: Option<int>)

  class UsersPage {
    var users: seq<Row>
    var isModalOpen: bool
    var isDeleteModalOpen: bool
    var newUser: map<string, FieldValue>
    var userToDelete: Option<int>

    /** All the fields together, so that each handler can state its whole new state. */
    function State(): UsersState
      reads this
    {
      UsersState(users, isModalOpen, isDeleteModalOpen, newUser, userToDelete)
    }

    constructor ()
      ensures State() == UsersState([], false, false, EmptyForm, None)
    {
      users := [];
      isModalOpen := false;
      isDeleteModalOpen := false;
      newUser := EmptyForm;
      userToDelete := None;
    }

    /** The mount effect: the list fetched from the server replaces the table. */
    method UsersLoaded(data: seq<Row>)
      modifies this
      ensures State() == old(State()).(users := data)
    {
      users := data;
    }

    /** `handleInputChange(e)`: the named field takes `checked` for a checkbox and `value` otherwise. */
    method HandleInputChange(name: string, value: string, inputType: string, checked: bool)
      modifies this
      ensures State() == old(State()).(newUser :=
        old(newUser)[name := if inputType == "checkbox" then Flag(checked) else Text(value)])
      ensures forall other :: other in old(newUser) && other != name ==>
        other in newUser && newUser[other] == old(newUser)[other]
    {
      newUser := newUser[name := if inputType == "checkbox" then Flag(checked) else Text(value)];
    }

    /** "Add New User" */
    method OpenAddForm()
      modifies this
      ensures State() == old(State()).(isModalOpen := true)
    {
      isModalOpen := true;
    }

    /**
     * `addUser(e)` once the POST has answered: `reply` is the parsed body,
     * `None` if the request or the parsing threw. The body goes at the end
     * of the table, the form closes and is reset.
     */
    method AddUser(reply: Option<Row>)
      modifies this
      ensures reply.None? ==> State() == old(State())
      ensures reply.Some? ==>
        State() == old(State()).(users := old(users) + [reply.value], isModalOpen := false, newUser := EmptyForm)
    {
      if reply.None? {
        return;
      }
      users := users + [reply.value];
      isModalOpen := false;
      newUser := EmptyForm;
    }

    /** `confirmDeleteUser(id)` */
    method ConfirmDeleteUser(id: int)
      modifies this
      ensures State() == old(State()).(userToDelete := Some(id), isDeleteModalOpen := true)
    {
      userToDelete := Some(id);
      isDeleteModalOpen := true;
    }

    /** Cancel on the delete prompt. */
    method CancelDelete()
      modifies this
      ensures State() == old(State()).(isDeleteModalOpen := false)
    {
      isDeleteModalOpen := false;
    }

    /**
     * `deleteUser()` once the DELETE request has completed (`sent`): drop the
     * rows with the pending id, close the prompt and clear the pending id;
     * if the request threw nothing changes.
     */
    method DeleteUser(sent: bool)
      modifies this
      ensures !sent ==> State() == old(State())
      ensures sent ==> State() == old(State()).(users := KeepOthers(old(users), old(userToDelete)),
                                                isDeleteModalOpen := false, userToDelete := None)
    {
      if !sent {
        return;
      }
      users := KeepOthers(users, userToDelete);
      isDeleteModalOpen := false;
      userToDelete := None;
    }
  }
}
