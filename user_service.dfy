/**
 * `UserServiceImpl`: loading a user for authentication (which records the login time),
 * registering a new user with its defaults, and the uniqueness checks on username and email
 * for creating and updating a user.
 */
module UserService {
  import opened Wrappers
  import opened Text
  import opened Users
  import opened Roles
  import ExceptionHandling

  /** The exceptions the service throws. */
  datatype ServiceError =
    | UsernameNotFound(message: string)
    | UserNotFound(message: string)
    | UsernameExist(message: string)
    | EmailExist(message: string)
    /** `getId().equals(...)` on a user whose id is null. */
    | NullPointer

  const USER_NOT_FOUND_BY_USERNAME: string := "User not found by username: "
  const NO_USER_FOUND_BY_USERNAME: string := "No user found by username "
  const USERNAME_ALREADY_EXISTS: string := "Username already exists"
  const EMAIL_ALREADY_EXISTS: string := "Email already exists"
  const TEMPORARY_PROFILE_IMAGE_PATH: string := "/user/image/profile/temp"

  /** An abstract user finder: `findUserByUsername` and `findUserByEmail`, a missing key standing for null. */
  datatype UserLookup = UserLookup(byUsername: map<string, User>, byEmail: map<string, User>)

  /** `a.getId().equals(b.getId())`; a null id on `a` throws. */
  function SameId(a: User, b: User): Result<bool, ServiceError>
  {
    if a.id.None? then Failure(NullPointer) else Success(b.id == a.id)
  }

  /**
   * `validateNewUsernameAndEmail`. A blank current username means a new user: a taken username
   * is rejected first, then a taken email, and otherwise the result is null. Otherwise it is an
   * update: the current user must exist, and the new username and email may belong to nobody
   * or to that same user (same id); the result is the current user.
   */
  function ValidateNewUsernameAndEmail(lookup: UserLookup, currentUsername: string, newUsername: string, newEmail: string)
    : (r: Result<Option<User>, ServiceError>)
    ensures !IsNotBlank(currentUsername) ==>
      (r.Success? <==> newUsername !in lookup.byUsername && newEmail !in lookup.byEmail)
    ensures !IsNotBlank(currentUsername) && r.Success? ==> r.value == None
    ensures !IsNotBlank(currentUsername) && newUsername in lookup.byUsername ==>
      r == Failure(UsernameExist(USERNAME_ALREADY_EXISTS))
    ensures IsNotBlank(currentUsername) && currentUsername !in lookup.byUsername ==>
      r == Failure(UserNotFound(NO_USER_FOUND_BY_USERNAME + currentUsername))
    ensures IsNotBlank(currentUsername) && r.Success? ==>
      currentUsername in lookup.byUsername && r.value == Some(lookup.byUsername[currentUsername])
  {
    if IsNotBlank(currentUsername) then
      if currentUsername !in lookup.byUsername then
        Failure(UserNotFound(NO_USER_FOUND_BY_USERNAME + currentUsername))
      else
        var currentUser := lookup.byUsername[currentUsername];
        var usernameOwner := if newUsername in lookup.byUsername then SameId(currentUser, lookup.byUsername[newUsername]) else Success(true);
        if usernameOwner.Failure? then Failure(usernameOwner.error)
        else if !usernameOwner.value then Failure(UsernameExist(USERNAME_ALREADY_EXISTS))
        else
          var emailOwner := if newEmail in lookup.byEmail then SameId(currentUser, lookup.byEmail[newEmail]) else Success(true);
          if emailOwner.Failure? then Failure(emailOwner.error)
          else if !emailOwner.value then Failure(EmailExist(EMAIL_ALREADY_EXISTS))
          else Success(Some(currentUser))
    else
      if newUsername in lookup.byUsername then Failure(UsernameExist(USERNAME_ALREADY_EXISTS))
      else if newEmail in lookup.byEmail then Failure(EmailExist(EMAIL_ALREADY_EXISTS))
      else Success(None)
  }

  /** Creating a user whose email is taken but whose username is free fails on the email. */
  lemma CreateRejectsTakenEmail(lookup: UserLookup, newUsername: string, newEmail: string)
    requires newUsername !in lookup.byUsername && newEmail in lookup.byEmail
    ensures ValidateNewUsernameAndEmail(lookup, "", newUsername, newEmail) == Failure(EmailExist(EMAIL_ALREADY_EXISTS))
  {
  }

  /** An update may keep names the current user itself owns, and then yields that user. */
  lemma UpdateAllowsOwnNames(lookup: UserLookup, currentUsername: string, newUsername: string, newEmail: string)
    requires IsNotBlank(currentUsername) && currentUsername in lookup.byUsername
    requires lookup.byUsername[currentUsername].id.Some?
    requires newUsername in lookup.byUsername ==> lookup.byUsername[newUsername].id == lookup.byUsername[currentUsername].id
    requires newEmail in lookup.byEmail ==> lookup.byEmail[newEmail].id == lookup.byUsername[currentUsername].id
    ensures ValidateNewUsernameAndEmail(lookup, currentUsername, newUsername, newEmail)
      == Success(Some(lookup.byUsername[currentUsername]))
  {
  }

  /** An update to a username that another user (another id) owns is rejected, before the email is looked at. */
  lemma UpdateRejectsForeignUsername(lookup: UserLookup, currentUsername: string, newUsername: string, newEmail: string)
    requires IsNotBlank(currentUsername) && currentUsername in lookup.byUsername
    requires lookup.byUsername[currentUsername].id.Some?
    requires newUsername in lookup.byUsername && lookup.byUsername[newUsername].id != lookup.byUsername[currentUsername].id
    ensures ValidateNewUsernameAndEmail(lookup, currentUsername, newUsername, newEmail)
      == Failure(UsernameExist(USERNAME_ALREADY_EXISTS))
  {
  }

  /** An update to an email that another user owns is rejected when the username itself is acceptable. */
  lemma UpdateRejectsForeignEmail(lookup: UserLookup, currentUsername: string, newUsername: string, newEmail: string)
    requires IsNotBlank(currentUsername) && currentUsername in lookup.byUsername
    requires lookup.byUsername[currentUsername].id.Some?
    requires newUsername in lookup.byUsername ==> lookup.byUsername[newUsername].id == lookup.byUsername[currentUsername].id
    requires newEmail in lookup.byEmail && lookup.byEmail[newEmail].id != lookup.byUsername[currentUsername].id
    ensures ValidateNewUsernameAndEmail(lookup, currentUsername, newUsername, newEmail)
      == Failure(EmailExist(EMAIL_ALREADY_EXISTS))
  {
  }

  /** The lookup formed by the service's own `findUserByUsername` and `findUserByEmail`, which return null for every key. */
  function StubLookup(): (lookup: UserLookup)
    ensures forall username :: username !in lookup.byUsername
    ensures forall email :: email !in lookup.byEmail
  {
    UserLookup(map[], map[])
  }

  /** With the stub finders, creating a user always passes validation and updating one always fails with "user not found". */
  lemma StubValidation(currentUsername: string, newUsername: string, newEmail: string)
    ensures !IsNotBlank(currentUsername) ==>
      ValidateNewUsernameAndEmail(StubLookup(), currentUsername, newUsername, newEmail) == Success(None)
    ensures IsNotBlank(currentUsername) ==>
      ValidateNewUsernameAndEmail(StubLookup(), currentUsername, newUsername, newEmail)
        == Failure(UserNotFound(NO_USER_FOUND_BY_USERNAME + currentUsername))
  {
  }

  /** The validation exceptions the exception advice handles. */
  function AsHandledException(e: ServiceError): (h: ExceptionHandling.HandledException)
    requires e.UserNotFound? || e.UsernameExist? || e.EmailExist?
    ensures ExceptionHandling.IsUserInputError(h) && h.message == e.message
  {
    match e
    case UserNotFound(m) => ExceptionHandling.UserNotFoundException(m)
    case UsernameExist(m) => ExceptionHandling.UsernameExistException(m)
    case EmailExist(m) => ExceptionHandling.EmailExistException(m)
  }

  /** A rejected username or email reaches the client as a 400 response carrying the exception's message. */
  lemma ValidationFailuresAreBadRequests(lookup: UserLookup, currentUsername: string, newUsername: string, newEmail: string, now: int)
    requires ValidateNewUsernameAndEmail(lookup, currentUsername, newUsername, newEmail).Failure?
    requires !ValidateNewUsernameAndEmail(lookup, currentUsername, newUsername, newEmail).error.NullPointer?
    ensures var e := ValidateNewUsernameAndEmail(lookup, currentUsername, newUsername, newEmail).error;
      var r := ExceptionHandling.Handle(AsHandledException(e), now);
      r.Success? && r.value.status.Value() == 400 && r.value.body.message == e.message
  {
  }

  /** The persistence layer: what `findUserByUsername` sees, and every user passed to `save`, in order. */
  class UserRepository {
    var users: map<string, User>
    var saved: seq<User>

    constructor (users: map<string, User>)
      ensures this.users == users && saved == []
    {
      this.users := users;
      saved := [];
    }

    /** Every stored user is stored under its own username, as the username column identifies it. */
    predicate Valid()
      reads this
    {
      forall name | name in users :: users[name].username == name
    }

    /**
     * `findUserByUsername`: the stored user with that username, or null when there is none. In a
     * valid repository the user found carries exactly the username asked for.
     */
    function FindUserByUsername(username: string): (r: Option<User>)
      reads this
      ensures r.None? <==> username !in users
      ensures r.Some? ==> r.value in users.Values
      ensures Valid() && r.Some? ==> r.value.username == username
    {
      if username in users then Some(users[username]) else None
    }

    /** `save`: stores `user` under its username and returns it; finding that username then yields it. */
    method Save(user: User) returns (r: User)
      modifies this
      ensures users == old(users)[user.username := user] && saved == old(saved) + [user] && r == user
      ensures old(Valid()) ==> Valid()
      ensures FindUserByUsername(user.username) == Some(user)
    {
      users := users[user.username := user];
      saved := saved + [user];
      r := user;
    }
  }

  class UserServiceImpl {
    const userRepository: UserRepository
    /** `BCryptPasswordEncoder.encode`. */
    const passwordEncoder: string -> string
    /** The server's base URL, as `ServletUriComponentsBuilder.fromCurrentContextPath()` finds it. */
    const contextPath: string

    constructor (userRepository: UserRepository, passwordEncoder: string -> string, contextPath: string)
      ensures this.userRepository == userRepository && this.passwordEncoder == passwordEncoder
      ensures this.contextPath == contextPath
    {
      this.userRepository := userRepository;
      this.passwordEncoder := passwordEncoder;
      this.contextPath := contextPath;
    }

    /**
     * `loadUserByUsername`. An unknown username fails and nothing is saved. A known user gets
     * its previous last-login date as display date and `now` as last-login date, is saved once,
     * and is returned wrapped in a principal.
     */
    method LoadUserByUsername(username: string, now: int) returns (r: Result<UserPrincipal, ServiceError>)
      modifies userRepository
      ensures var found := old(userRepository.FindUserByUsername(username));
        && (found.None? ==>
              r == Failure(UsernameNotFound(USER_NOT_FOUND_BY_USERNAME + username))
              && userRepository.users == old(userRepository.users)
              && userRepository.saved == old(userRepository.saved))
        && (found.Some? ==>
              var updated := found.value.(lastLoginDateDisplay := found.value.lastLoginDate, lastLoginDate := Some(now));
              r == Success(UserPrincipal(updated))
              && userRepository.saved == old(userRepository.saved) + [updated]
              && userRepository.users == old(userRepository.users)[updated.username := updated])
    {
      var found := userRepository.FindUserByUsername(username);
      if found.None? {
        return Failure(UsernameNotFound(USER_NOT_FOUND_BY_USERNAME + username));
      }
      var user := found.value;
      user := user.(lastLoginDateDisplay := user.lastLoginDate);
      user := user.(lastLoginDate := Some(now));
      var _ := userRepository.Save(user);
      r := Success(UserPrincipal(user));
    }

    /**
     * `register`. Runs the create-mode check through the service's own finders; on success it
     * saves and returns an active, unlocked `ROLE_USER` with that role's authorities, the given
     * names, username and email, and the encoded form of the generated password. `userId` and
     * `password` are the generated random strings; `now` is the join date.
     */
    method Register(firstName: string, lastName: string, username: string, email: string,
                    now: int, userId: string, password: string)
      returns (r: Result<User, ServiceError>)
      modifies userRepository
      ensures r.Failure? <==> ValidateNewUsernameAndEmail(StubLookup(), "", username, email).Failure?
      ensures r.Failure? ==>
        userRepository.users == old(userRepository.users) && userRepository.saved == old(userRepository.saved)
      ensures r.Success? ==>
        && userRepository.saved == old(userRepository.saved) + [r.value]
        && userRepository.users == old(userRepository.users)[username := r.value]
        && r.value.isActive && r.value.isNotLocked
        && r.value.role == RoleUser.Name() && r.value.authorities == RoleUser.GetAuthorities()
        && r.value.username == username && r.value.email == email
        && r.value.firstName == firstName && r.value.lastName == lastName
        && r.value.password == passwordEncoder(password)
        && r.value.userId == userId && r.value.joinDate == Some(now)
        && r.value.profileImageUrl == contextPath + TEMPORARY_PROFILE_IMAGE_PATH
        && r.value.id == None && r.value.lastLoginDate == None && r.value.lastLoginDateDisplay == None
    {
      var validation := ValidateNewUsernameAndEmail(StubLookup(), "", username, email);
      if validation.Failure? {
        return Failure(validation.error);
      }
      var encodedPassword := passwordEncoder(password);
      var user := User(None, "", "", "", "", "", "", "", None, None, None, "", [], false, false);
      user := user.(userId := userId);
      user := user.(firstName := firstName);
      user := user.(lastName := lastName);
      user := user.(username := username);
      user := user.(email := email);
      user := user.(joinDate := Some(now));
      user := user.(password := encodedPassword);
      user := user.(isActive := true);
      user := user.(isNotLocked := true);
      user := user.(role := RoleUser.Name());
      user := user.(authorities := RoleUser.GetAuthorities());
      user := user.(profileImageUrl := contextPath + TEMPORARY_PROFILE_IMAGE_PATH);
      var _ := userRepository.Save(user);
      r := Success(user);
    }
  }
}
