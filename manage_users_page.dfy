/**
 * The admin user list: the three-field filter, the client-side page window
 * and its page-reset rules, the defaults `handleAddUser` fills in and the
 * messages it leaves, and the Add and Edit user forms.
 */
module ManageUsersPage {
  import opened Wrappers
  import Text
  import Paging

  const DefaultItemsPerPage := 10
  const DefaultPassword := "default_password"
  const DefaultRole := "customer"
  const DefaultAvatar := "https://i.pravatar.cc/150?img=3"
  const AddedMessage := "User added successfully!"
  const AddFailedPrefix := "Failed to add user: "
  const AddFailedHint := "Please check the data and try again."
  const LoadFailedMessage := "Failed to load users. Please try again later."

  datatype User = User(id: int, name: string, email: string, role: string, avatar: string)

  /** The fields of the Add and Edit forms, as they are handed to the save handler. */
  datatype UserForm = UserForm(name: string, email: string, password: string, role: string, avatar: string)

  /** How the create call ended: accepted, or thrown with the response body's message and the error's own. */
  datatype AddOutcome = Added | AddFailed(responseMessage: Option<string>, errorMessage: Option<string>)

  /** `searchRole === '' || u.role.toLowerCase() === searchRole.toLowerCase()`. */
  predicate RoleMatches(role: string, searchRole: string) {
    searchRole == "" || Text.Lower(role) == Text.Lower(searchRole)
  }

  predicate UserMatches(u: User, searchName: string, searchEmail: string, searchRole: string) {
    && Text.ContainsIgnoringCase(u.name, searchName)
    && Text.ContainsIgnoringCase(u.email, searchEmail)
    && RoleMatches(u.role, searchRole)
  }

  /**
   * `filteredUsers`: exactly the users matching all three filters, in list
   * order; with every filter empty, the whole list.
   */
  function FilterUsers(users: seq<User>, searchName: string, searchEmail: string, searchRole: string): (r: seq<User>)
    ensures forall i :: 0 <= i < |r| ==> r[i] in users && UserMatches(r[i], searchName, searchEmail, searchRole)
    ensures forall i :: 0 <= i < |users| && UserMatches(users[i], searchName, searchEmail, searchRole) ==> users[i] in r
    ensures Text.IsSubsequence(r, users)
    ensures searchName == "" && searchEmail == "" && searchRole == "" ==> r == users
    ensures forall u :: multiset(r)[u] == if UserMatches(u, searchName, searchEmail, searchRole) then multiset(users)[u] else 0
  {
    Text.ContainsIgnoringCaseEmpty();
    Text.Filter(users, u => UserMatches(u, searchName, searchEmail, searchRole))
  }

  /**
   * The role filter ignores case: lower-casing the role or the filter text
   * never changes whether they match, and the empty role filter keeps every role.
   */
  lemma RoleFilterIgnoresCase(role: string, searchRole: string)
    ensures RoleMatches(role, "")
    ensures RoleMatches(role, searchRole) <==> RoleMatches(Text.Lower(role), Text.Lower(searchRole))
    ensures RoleMatches("Admin", "admin") && RoleMatches("admin", "ADMIN")
    ensures !RoleMatches("customer", "admin")
  {
    Text.LowerIdempotent(role);
    Text.LowerIdempotent(searchRole);
    assert Text.Lower("Admin") == "admin";
    assert Text.Lower("ADMIN") == "admin";
    assert Text.Lower("admin") == "admin";
    assert Text.Lower("customer")[0] == 'c';
  }

  /**
   * The body `handleAddUser` posts: the form's fields, with "default_password"
   * for an empty password and "customer" for an empty role.
   */
  function AddUserRequest(data: UserForm): (r: UserForm)
    ensures r.password != "" && r.role != ""
    ensures r.name == data.name && r.email == data.email && r.avatar == data.avatar
    ensures data.password != "" ==> r.password == data.password
    ensures data.password == "" ==> r.password == DefaultPassword
    ensures data.role != "" ==> r.role == data.role
    ensures data.role == "" ==> r.role == DefaultRole
  {
    data.(password := OrElse(Some(data.password), DefaultPassword), role := OrElse(Some(data.role), DefaultRole))
  }

  /** Filling in the defaults twice changes nothing more. */
  lemma AddUserRequestIdempotent(data: UserForm)
    ensures AddUserRequest(AddUserRequest(data)) == AddUserRequest(data)
  {
  }

  /** The error a failed create call leaves: the server's message, else the error's, else a hint. */
  function AddFailure(responseMessage: Option<string>, errorMessage: Option<string>): (r: string)
    ensures Text.StartsWith(r, AddFailedPrefix)
    ensures Truthy(responseMessage) ==> r == AddFailedPrefix + responseMessage.value
    ensures !Truthy(responseMessage) && Truthy(errorMessage) ==> r == AddFailedPrefix + errorMessage.value
    ensures !Truthy(responseMessage) && !Truthy(errorMessage) ==> r == AddFailedPrefix + AddFailedHint
  {
    var r := AddFailedPrefix + OrElse(responseMessage, OrElse(errorMessage, AddFailedHint));
    assert r[..|AddFailedPrefix|] == AddFailedPrefix;
    r
  }

  /** The page's banners and the table spinner. */
  datatype Notices = Notices(error: string, successMessage: string, pageLoading: bool)

  /** The synchronous start of `fetchUsers`: spinner on, both banners cleared, whatever was shown before. */
  function FetchStart(n: Notices): (r: Notices)
    ensures r.error == "" && r.successMessage == "" && r.pageLoading
  {
    Notices("", "", true)
  }

  /**
   * `handleAddUser` as written, up to its first pause: both banners cleared;
   * on success the success banner is set and `fetchUsers` is started, whose
   * own first statements clear the banners again in the same update.
   */
  function AddUserStepAsWritten(n: Notices, outcome: AddOutcome): (r: Notices)
    ensures outcome.Added? ==> r.successMessage == "" && r.error == "" && r.pageLoading
    ensures outcome.AddFailed? ==> r.successMessage == "" && r.pageLoading == n.pageLoading
    ensures outcome.AddFailed? ==> r.error == AddFailure(outcome.responseMessage, outcome.errorMessage)
    ensures outcome.AddFailed? ==> Text.StartsWith(r.error, AddFailedPrefix)
  {
    var cleared := n.(error := "", successMessage := "");
    match outcome
    case Added => FetchStart(cleared.(successMessage := AddedMessage))
    case AddFailed(responseMessage, errorMessage) => cleared.(error := AddFailure(responseMessage, errorMessage))
  }

  /** As written, a successful add leaves no success banner: the reload wipes it at once. */
  lemma AddedMessageWiped(n: Notices)
    ensures AddUserStepAsWritten(n, Added).successMessage == ""
    ensures AddUserStepAsWritten(n, Added).successMessage != AddedMessage
  {
  }

  /** `handleAddUser` as intended: the reload keeps the success banner it was started after. */
  function AddUserStep(n: Notices, outcome: AddOutcome): (r: Notices)
    ensures outcome.Added? ==> r.successMessage == AddedMessage && r.error == "" && r.pageLoading
    ensures outcome.AddFailed? ==> r.successMessage == "" && r.error != "" && r.pageLoading == n.pageLoading
    ensures outcome.AddFailed? ==> Text.StartsWith(r.error, AddFailedPrefix)
  {
    match outcome
    case Added => FetchStart(n).(successMessage := AddedMessage)
    case AddFailed(responseMessage, errorMessage) =>
      n.(error := AddFailure(responseMessage, errorMessage), successMessage := "")
  }

  /** The intended handler shows exactly one banner after an add, whichever way it went. */
  lemma AddUserShowsOneBanner(n: Notices, outcome: AddOutcome)
    ensures (AddUserStep(n, outcome).error == "") != (AddUserStep(n, outcome).successMessage == "")
  {
  }

  /** The end of `fetchUsers`: the error banner on failure, the spinner off either way. */
  function FetchEnd(n: Notices, succeeded: bool): (r: Notices)
    ensures !r.pageLoading
    ensures r.successMessage == n.successMessage
    ensures r.error == if succeeded then n.error else LoadFailedMessage
  {
    if succeeded then n.(pageLoading := false) else n.(error := LoadFailedMessage, pageLoading := false)
  }

  /** The list part of the page: users, page, page size, the three filters and the banners. */
  class UsersView {
    var users: seq<User>
    var currentPage: int
    var itemsPerPage: int
    var searchName: string
    var searchEmail: string
    var searchRole: string
    var notices: Notices

    predicate Valid()
      reads this
    {
      itemsPerPage > 0
    }

    function Filtered(): seq<User>
      reads this
    {
      FilterUsers(users, searchName, searchEmail, searchRole)
    }

    /** `currentUsers`: the slice of the filtered list for the current page; never more than a page. */
    function CurrentUsers(): (r: seq<User>)
      reads this
      requires Valid()
      ensures |r| <= itemsPerPage
    {
      Paging.WindowAtMostPerPage(Filtered(), currentPage, itemsPerPage);
      Paging.PageWindow(Filtered(), currentPage, itemsPerPage)
    }

    function TotalPages(): nat
      reads this
      requires Valid()
    {
      Paging.TotalPages(|Filtered()|, itemsPerPage)
    }

    constructor ()
      ensures Valid()
      ensures users == [] && currentPage == 1 && itemsPerPage == DefaultItemsPerPage
      ensures searchName == "" && searchEmail == "" && searchRole == ""
      ensures notices == Notices("", "", true)
    {
      users := [];
      currentPage := 1;
      itemsPerPage := DefaultItemsPerPage;
      searchName := "";
      searchEmail := "";
      searchRole := "";
      notices := Notices("", "", true);
    }

    /** `fetchUsers` up to its request. */
    method StartFetch()
      modifies this
      ensures notices == FetchStart(old(notices))
      ensures users == old(users) && currentPage == old(currentPage) && itemsPerPage == old(itemsPerPage)
      ensures searchName == old(searchName) && searchEmail == old(searchEmail) && searchRole == old(searchRole)
    {
      notices := FetchStart(notices);
    }

    /** The end of `fetchUsers`: the fetched list, or the load error. */
    method FinishFetch(data: Option<seq<User>>)
      modifies this
      ensures notices == FetchEnd(old(notices), data.Some?)
      ensures users == if data.Some? then data.value else old(users)
      ensures currentPage == old(currentPage) && itemsPerPage == old(itemsPerPage)
      ensures searchName == old(searchName) && searchEmail == old(searchEmail) && searchRole == old(searchRole)
    {
      if data.Some? {
        users := data.value;
      }
      notices := FetchEnd(notices, data.Some?);
    }

    /**
     * `handleAddUser`, corrected so that the success banner survives the
     * reload (`AddUserStepAsWritten` is the code as written); returns the body
     * it posts.
     */
    method HandleAddUser(data: UserForm, outcome: AddOutcome) returns (posted: UserForm)
      modifies this
      ensures posted == AddUserRequest(data)
      ensures notices == AddUserStep(old(notices), outcome)
      ensures users == old(users) && currentPage == old(currentPage) && itemsPerPage == old(itemsPerPage)
      ensures searchName == old(searchName) && searchEmail == old(searchEmail) && searchRole == old(searchRole)
    {
      posted := AddUserRequest(data);
      notices := AddUserStep(notices, outcome);
    }

    /** `paginate`: any page number is taken as it is. */
    method Paginate(pageNumber: int)
      requires Valid()
      modifies this
      ensures Valid()
      ensures currentPage == pageNumber
      ensures users == old(users) && itemsPerPage == old(itemsPerPage) && notices == old(notices)
      ensures searchName == old(searchName) && searchEmail == old(searchEmail) && searchRole == old(searchRole)
    {
      currentPage := pageNumber;
    }

    /** A new page size starts again from page 1. */
    method HandleItemsPerPageChange(value: int)
      requires value > 0
      modifies this
      ensures Valid()
      ensures itemsPerPage == value && currentPage == 1
      ensures users == old(users) && notices == old(notices)
      ensures searchName == old(searchName) && searchEmail == old(searchEmail) && searchRole == old(searchRole)
    {
      itemsPerPage := value;
      currentPage := 1;
    }

    /** Typing a name filter starts again from page 1. */
    method ChangeSearchName(value: string)
      requires Valid()
      modifies this
      ensures Valid()
      ensures searchName == value && currentPage == 1
      ensures users == old(users) && itemsPerPage == old(itemsPerPage) && notices == old(notices)
      ensures searchEmail == old(searchEmail) && searchRole == old(searchRole)
    {
      searchName := value;
      currentPage := 1;
    }

    /** Typing an e-mail filter starts again from page 1. */
    method ChangeSearchEmail(value: string)
      requires Valid()
      modifies this
      ensures Valid()
      ensures searchEmail == value && currentPage == 1
      ensures users == old(users) && itemsPerPage == old(itemsPerPage) && notices == old(notices)
      ensures searchName == old(searchName) && searchRole == old(searchRole)
    {
      searchEmail := value;
      currentPage := 1;
    }

    /** Choosing a role filter starts again from page 1. */
    method ChangeSearchRole(value: string)
      requires Valid()
      modifies this
      ensures Valid()
      ensures searchRole == value && currentPage == 1
      ensures users == old(users) && itemsPerPage == old(itemsPerPage) && notices == old(notices)
      ensures searchName == old(searchName) && searchEmail == old(searchEmail)
    {
      searchRole := value;
      currentPage := 1;
    }
  }

  /** The Add User form. */
  class AddUserForm {
    var name: string
    var email: string
    var password: string
    var role: string
    var avatar: string

    predicate Cleared()
      reads this
    {
      name == "" && email == "" && password == "" && role == DefaultRole && avatar == DefaultAvatar
    }

    constructor ()
      ensures Cleared()
    {
      name := "";
      email := "";
      password := "";
      role := DefaultRole;
      avatar := DefaultAvatar;
    }

    /** `handleSubmit`: hand the fields over, then clear the form back to its defaults. */
    method Submit() returns (data: UserForm)
      modifies this
      ensures data == UserForm(old(name), old(email), old(password), old(role), old(avatar))
      ensures Cleared()
    {
      data := UserForm(name, email, password, role, avatar);
      name := "";
      email := "";
      password := "";
      role := DefaultRole;
      avatar := DefaultAvatar;
    }
  }

  /**
   * The request built from the Add form right after opening or a submit carries
   * the default password and the "customer" role. The browser's required-field
   * check keeps such a form from being sent, so these fallbacks only apply when
   * that check is bypassed.
   */
  lemma ClearedFormPostsDefaults(name: string, email: string)
    ensures var r := AddUserRequest(UserForm(name, email, "", DefaultRole, DefaultAvatar));
      r.password == DefaultPassword && r.role == DefaultRole && r.avatar == DefaultAvatar
  {
  }

  /** The Edit form's fields for a user: a missing role becomes "customer"; the form has no password field, so that one stays "". */
  function EditFormFor(u: User): (r: UserForm)
    ensures r.role != ""
    ensures u.role != "" ==> r.role == u.role
    ensures u.role == "" ==> r.role == DefaultRole
    ensures r.name == u.name && r.email == u.email && r.avatar == u.avatar
    ensures r.password == ""
  {
    UserForm(u.name, u.email, "", OrElse(Some(u.role), DefaultRole), u.avatar)
  }
}
