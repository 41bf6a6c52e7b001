/** The user table: sign-up with a unique email, login and lookup by id.
    Password hashing is a pair of functions fixed when the store is made:
    `hash` (which may fail) and `matches(stored, password)`. */
module UserService {
  import opened Wrappers
  import opened Seqs
  import opened ObjectIds
  import opened Models

  datatype UserError =
    | UserExists
    | HashFailed(reason: string)
    | DuplicateKey
    | InvalidCredentials
    | InvalidUserId
    | UserNotFound

  /** The error's text; a hashing failure passes the hashing library's own message on. */
  function Message(e: UserError): (m: string)
    ensures e.InvalidCredentials? ==> m == "invalid email or password"
    ensures e.UserExists? ==> m == "user with this email already exists"
  {
    match e
    case UserExists => "user with this email already exists"
    case HashFailed(reason) => reason
    case DuplicateKey => "E11000 duplicate key error"
    case InvalidCredentials => "invalid email or password"
    case InvalidUserId => "invalid user ID"
    case UserNotFound => "user not found"
  }

  /** The unique index on `email`. */
  predicate EmailsUnique(us: seq<User>) {
    forall i, j :: 0 <= i < |us| && 0 <= j < |us| && us[i].email == us[j].email ==> i == j
  }

  predicate UserIdsUnique(us: seq<User>) {
    forall i, j :: 0 <= i < |us| && 0 <= j < |us| && us[i].id == us[j].id ==> i == j
  }

  function UserIds(us: seq<User>): set<ObjectId> {
    set u | u in us :: u.id
  }

  /** The position of the first user whose `key` is `k`: the lookup `FindOne`
      does on the email index and on `_id`. */
  function IndexBy<K(==)>(us: seq<User>, key: User -> K, k: K): (r: Option<nat>)
    ensures r.Some? ==> r.value < |us| && key(us[r.value]) == k
    ensures r.None? <==> forall u :: u in us ==> key(u) != k
  {
    FirstIndex(us, (u: User) => key(u) == k)
  }

  function EmailIndex(us: seq<User>, email: string): Option<nat> {
    IndexBy(us, (u: User) => u.email, email)
  }

  function IdIndex(us: seq<User>, id: ObjectId): Option<nat> {
    IndexBy(us, (u: User) => u.id, id)
  }

  /** Inserting a user with a new email and a new id keeps both indexes satisfied. */
  lemma InsertPreservesUniqueness(us: seq<User>, u: User)
    requires EmailsUnique(us) && UserIdsUnique(us)
    requires forall v :: v in us ==> v.email != u.email && v.id != u.id
    ensures EmailsUnique(us + [u]) && UserIdsUnique(us + [u])
  {
    assert forall i :: 0 <= i < |us| ==> us[i] in us;
    var s := us + [u];
    forall i, j | 0 <= i < |s| && 0 <= j < |s| && s[i].email == s[j].email
      ensures i == j
    {
      if i < |us| && j < |us| {
        assert us[i].email == us[j].email;
      }
    }
    forall i, j | 0 <= i < |s| && 0 <= j < |s| && s[i].id == s[j].id
      ensures i == j
    {
      if i < |us| && j < |us| {
        assert us[i].id == us[j].id;
      }
    }
  }

  class UserStore {
    var users: seq<User>
    const hash: string -> Result<string, string>
    const matches: (string, string) -> bool

    /** Every successfully hashed password matches its own hash. */
    ghost predicate HashChecks()
      reads this
    {
      forall p :: hash(p).Success? ==> matches(hash(p).value, p)
    }

    ghost predicate Valid()
      reads this
    {
      EmailsUnique(users) && UserIdsUnique(users) && HashChecks()
    }

    constructor (hash: string -> Result<string, string>, matches: (string, string) -> bool)
      requires forall p :: hash(p).Success? ==> matches(hash(p).value, p)
      ensures Valid() && users == [] && this.hash == hash && this.matches == matches
    {
      this.hash := hash;
      this.matches := matches;
      users := [];
    }

    /** `SignUp`: refuses a taken email (table unchanged), otherwise stores the
        user with the hash of the password. */
    method SignUp(email: string, password: string, newId: ObjectId, now: Time)
      returns (r: Result<User, UserError>)
      requires Valid()
      modifies this
      ensures Valid()
      ensures r.Failure? ==> users == old(users)
      ensures EmailIndex(old(users), email).Some? ==> r == Failure(UserExists)
      ensures EmailIndex(old(users), email).None? && hash(password).Failure? ==> r == Failure(HashFailed(hash(password).error))
      ensures EmailIndex(old(users), email).None? && hash(password).Success? ==>
        if newId in UserIds(old(users)) then r == Failure(DuplicateKey)
        else r == Success(User(newId, email, hash(password).value, now)) && users == old(users) + [r.value]
      ensures r.Success? ==> Login(email, password) == Success(r.value)
    {
      if EmailIndex(users, email).Some? {
        return Failure(UserExists);
      }
      var hashed := hash(password);
      if hashed.Failure? {
        return Failure(HashFailed(hashed.error));
      }
      if newId in UserIds(users) {
        return Failure(DuplicateKey);
      }
      var u := User(newId, email, hashed.value, now);
      InsertPreservesUniqueness(users, u);
      ghost var before := users;
      users := users + [u];
      r := Success(u);
      assert users[|before|] == u;
      assert forall i :: 0 <= i < |before| ==> users[i] == before[i] && before[i] in before;
      assert EmailIndex(users, email) == Some(|before|);
    }

    /** `Login`: the stored user for the email when the password matches its
        hash; one and the same error for an unknown email and a wrong password. */
    function Login(email: string, password: string): (r: Result<User, UserError>)
      reads this
      ensures r.Failure? ==> r.error == InvalidCredentials
      ensures r.Success? <==>
        EmailIndex(users, email).Some? && matches(users[EmailIndex(users, email).value].password, password)
      ensures r.Success? ==> r.value in users && r.value.email == email
    {
      match EmailIndex(users, email)
      case None => Failure(InvalidCredentials)
      case Some(k) => if matches(users[k].password, password) then Success(users[k]) else Failure(InvalidCredentials)
    }

    /** `GetUserByID`. */
    function GetUserById(userHex: string): (r: Result<User, UserError>)
      reads this
      ensures FromHex(userHex).None? <==> r == Failure(InvalidUserId)
      ensures r.Success? ==> r.value in users && r.value.id == FromHex(userHex).value
      ensures FromHex(userHex).Some? ==>
        (r == Failure(UserNotFound) <==> forall u :: u in users ==> u.id != FromHex(userHex).value)
    {
      match FromHex(userHex)
      case None => Failure(InvalidUserId)
      case Some(id) =>
        match IdIndex(users, id)
        case None => Failure(UserNotFound)
        case Some(k) => Success(users[k])
    }
  }
}
