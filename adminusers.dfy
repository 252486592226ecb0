/** The administrator's user directory (src/app/admin/users/page.tsx): a search
    over names and e-mail addresses, and a Suspend or Activate button on every
    account that is not an administrator's, which patches the account's
    `isActive` flag. */
module AdminUsers {
  import opened Types
  import opened Platform
  import Seqs
  import Strings

  /** `u.name...includes(term) || u.email...includes(term)`. */
  predicate MatchesSearch(u: User, term: string) {
    Strings.ContainsIgnoringCase(u.name, term) || Strings.ContainsIgnoringCase(u.email, term)
  }

  /** `filteredUsers`. */
  function FilterUsers(users: seq<User>, term: string): (r: seq<User>)
    ensures forall i :: 0 <= i < |r| ==> MatchesSearch(r[i], term)
    ensures |r| <= |users|
  {
    Seqs.Filter(users, (u: User) => MatchesSearch(u, term))
  }

  /** The directory keeps, in order, exactly the users whose name or e-mail matches. */
  lemma FilterSpec(users: seq<User>, term: string)
    ensures forall u :: u in FilterUsers(users, term) <==> u in users && MatchesSearch(u, term)
    ensures Seqs.IsSubsequence(FilterUsers(users, term), users)
  {
    var m := (u: User) => MatchesSearch(u, term);
    forall u ensures u in FilterUsers(users, term) <==> u in users && MatchesSearch(u, term) {
      Seqs.FilterMembers(users, m, u);
    }
    Seqs.FilterIsSubsequence(users, m);
  }

  /** An empty search lists everyone. */
  lemma EmptyTermKeepsAll(users: seq<User>)
    ensures FilterUsers(users, "") == users
  {
    forall i | 0 <= i < |users| ensures MatchesSearch(users[i], "") {
      Strings.EmptyTermMatches(users[i].name);
    }
    Seqs.FilterKeepsAll(users, (u: User) => MatchesSearch(u, ""));
  }

  // ---- toggleStatus ----

  /** The body `{ isActive: !currentStatus }` sent to `/admin/users/<id>`. */
  datatype StatusPatch = StatusPatch(path: string, isActive: bool)

  function TogglePatch(userId: string, currentStatus: bool): (p: StatusPatch)
    ensures p.isActive != currentStatus
  {
    StatusPatch("/admin/users/" + userId, !currentStatus)
  }

  /** The success toast, chosen by `currentStatus` alone. */
  function SuccessText(currentStatus: bool): (t: string)
    ensures t == "User suspended" || t == "User activated"
    ensures t == "User suspended" <==> currentStatus
  {
    if currentStatus then "User suspended" else "User activated"
  }

  const FailureText: string := "Failed to update user status"

  /** The toast `toggleStatus` shows once the patch settles: a success toast exactly
      when the patch was accepted, naming the status by `currentStatus`, and otherwise
      the one failure text, whatever the status or the error. */
  function ToggleToast<T>(currentStatus: bool, outcome: ApiOutcome<T>): (e: Event)
    ensures e.Toast? && (e.kind == ToastSuccess <==> outcome.Ok?)
    ensures outcome.Ok? ==> (e.text == "User suspended" <==> currentStatus)
    ensures !outcome.Ok? ==> e.text == FailureText
  {
    if outcome.Ok? then Toast(ToastSuccess, SuccessText(currentStatus)) else Toast(ToastError, FailureText)
  }

  /** The toast names the status the patch asks for. */
  lemma SuccessTextNamesRequest(userId: string, currentStatus: bool)
    ensures SuccessText(currentStatus) == "User suspended" <==> !TogglePatch(userId, currentStatus).isActive
    ensures SuccessText(currentStatus) == "User activated" <==> TogglePatch(userId, currentStatus).isActive
  {
  }

  // ---- the button next to each account ----

  datatype Button = Suspend | Activate

  /** An administrator's row has no button; an active account shows Suspend, a
      suspended one Activate. */
  function ButtonFor(u: User): (b: Option<Button>)
    ensures b.None? <==> u.role == Admin
    ensures b == Some(Suspend) <==> u.role != Admin && u.isActive
    ensures b == Some(Activate) <==> u.role != Admin && !u.isActive
  {
    if u.role == Admin then None else if u.isActive then Some(Suspend) else Some(Activate)
  }

  /** The `currentStatus` each button passes, as the page is written: Suspend
      passes `false` and Activate passes `true`, the opposite of the account's flag. */
  function ArgumentAsWritten(b: Button): (r: bool)
    ensures forall u :: ButtonFor(u) == Some(b) ==> r == !u.isActive
  {
    b == Activate
  }

  /** The `currentStatus` each button is meant to pass: the account's own flag. */
  function Argument(b: Button): (r: bool)
    ensures forall u :: ButtonFor(u) == Some(b) ==> r == u.isActive
  {
    b == Suspend
  }

  /** What a click on the row of `u` sends, if the row has a button, as the page
      is written. */
  function Click(u: User): (p: Option<StatusPatch>)
    ensures p.Some? <==> u.role != Admin
  {
    match ButtonFor(u)
    case None => None
    case Some(b) => Some(TogglePatch(u.id, ArgumentAsWritten(b)))
  }

  /** What a click is meant to send: the patch built from the intended argument. */
  function IntendedClick(u: User): (p: Option<StatusPatch>)
    ensures p.Some? <==> u.role != Admin
  {
    match ButtonFor(u)
    case None => None
    case Some(b) => Some(TogglePatch(u.id, Argument(b)))
  }

  /** As written, the buttons send back the flag the account already has, and the
      success toast announces the opposite of what is asked. */
  lemma AsWrittenButtonsKeepStatus(u: User)
    requires u.role != Admin
    ensures Click(u) == Some(StatusPatch("/admin/users/" + u.id, u.isActive))
    ensures SuccessText(ArgumentAsWritten(ButtonFor(u).value)) == (if u.isActive then "User activated" else "User suspended")
  {
  }

  /** The smallest case: Suspend on an active customer asks for `isActive: true`. */
  lemma SuspendAsWrittenActivates()
    ensures var u := User("u1", "Ann", "ann@example.com", Customer, true, None);
      && ButtonFor(u) == Some(Suspend)
      && Click(u) == Some(StatusPatch("/admin/users/u1", true))
      && SuccessText(ArgumentAsWritten(Suspend)) == "User activated"
  {
    var u := User("u1", "Ann", "ann@example.com", Customer, true, None);
    assert TogglePatch(u.id, ArgumentAsWritten(Suspend)) == StatusPatch("/admin/users/u1", true);
  }

  /** With the intended argument every button flips the account's flag, and the
      toast names the new status. */
  lemma ClickFlipsStatus(u: User)
    requires u.role != Admin
    ensures IntendedClick(u) == Some(StatusPatch("/admin/users/" + u.id, !u.isActive))
    ensures SuccessText(Argument(ButtonFor(u).value)) == (if u.isActive then "User suspended" else "User activated")
  {
  }

  /** Administrators can never be suspended from this page. */
  lemma AdminsUntouchable(u: User)
    requires u.role == Admin
    ensures Click(u).None? && IntendedClick(u).None?
  {
  }
}
