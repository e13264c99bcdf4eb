/**
 * Registration and login (`registerUser`, `loginUser`). The `users` table
 * is a map from username to the stored record; the database's id counter
 * is `nextId`. Hashing and signing are the abstract operations of Crypto.
 */
module UserController {
  import opened Wrappers
  import opened JsText
  import opened Http
  import opened Crypto

  /** A row of `users`: the server-assigned id and the bcrypt hash. */
  datatype UserRecord = UserRecord(id: UserId, passwordHash: string)

  const MissingFields := Reply(400, Message("Username dan password harus diisi."))
  const UsernameTaken := Reply(409, Message("Username sudah terdaftar."))
  const Registered := Reply(201, Message("Registrasi berhasil!"))
  const RegisterFailed := Reply(500, Message("Server error saat registrasi."))
  const WrongCredentials := Reply(400, Message("Username atau password salah."))
  const LoginFailed := Reply(500, Message("Server error saat login."))
  const LoginSucceeded := "Login berhasil!"

  /** The account store together with the process-wide hasher, signer and
      signing secret. `storeFails` on an operation stands for the database
      rejecting its queries. */
  class AccountStore {
    var users: map<string, UserRecord>
    var nextId: UserId
    const hasher: Hasher
    const jwt: Jwt
    const secret: string

    /** Ids are issued by the counter and never shared between usernames. */
    ghost predicate Valid()
      reads this
    {
      && (forall u :: u in users ==> users[u].id < nextId)
      && (forall u, v :: u in users && v in users && u != v ==> users[u].id != users[v].id)
    }

    constructor (hasher: Hasher, jwt: Jwt, secret: string)
      ensures Valid()
      ensures users == map[] && nextId == 1
      ensures this.hasher == hasher && this.jwt == jwt && this.secret == secret
    {
      users := map[];
      nextId := 1;
      this.hasher := hasher;
      this.jwt := jwt;
      this.secret := secret;
    }

    /** The username has a row, and the hasher accepts the password against its hash. */
    predicate Matches(username: string, password: string)
      reads this
    {
      username in users && hasher.compare(password, users[username].passwordHash)
    }

    /** `registerUser`: a username and a password are required; a taken
        username is refused whatever the password; otherwise exactly one row,
        holding the hash and not the password, is added. */
    method Register(username: Option<string>, password: Option<string>, salt: string, storeFails: bool)
      returns (reply: Reply)
      requires Valid()
      modifies this`users, this`nextId
      ensures Valid()
      ensures !Truthy(username) || !Truthy(password) ==>
        reply == MissingFields && users == old(users) && nextId == old(nextId)
      ensures Truthy(username) && Truthy(password) && storeFails ==>
        reply == RegisterFailed && users == old(users) && nextId == old(nextId)
      ensures Truthy(username) && Truthy(password) && !storeFails && username.value in old(users) ==>
        reply == UsernameTaken && users == old(users) && nextId == old(nextId)
      ensures Truthy(username) && Truthy(password) && !storeFails && username.value !in old(users) ==>
        && reply == Registered
        && users == old(users)[username.value := UserRecord(old(nextId), hasher.hash(password.value, salt))]
        && |users| == |old(users)| + 1
        && nextId == old(nextId) + 1
    {
      if !Truthy(username) || !Truthy(password) {
        return MissingFields;
      }
      if storeFails {
        return RegisterFailed;
      }
      if username.value in users {
        return UsernameTaken;
      }
      var hashed := hasher.hash(password.value, salt);
      users := users[username.value := UserRecord(nextId, hashed)];
      nextId := nextId + 1;
      reply := Registered;
    }

    /** `loginUser`: reads the store and never changes it. An unknown
        username and a wrong password give the same reply; a match gives a
        token for the stored id that expires one hour after `now`. */
    method Login(username: Option<string>, password: Option<string>, now: int, storeFails: bool)
      returns (reply: Reply, issued: Option<Token>)
      ensures !Truthy(username) || !Truthy(password) ==> reply == MissingFields && issued == None
      ensures Truthy(username) && Truthy(password) && storeFails ==> reply == LoginFailed && issued == None
      ensures Truthy(username) && Truthy(password) && !storeFails && !Matches(username.value, password.value) ==>
        reply == WrongCredentials && issued == None
      ensures Truthy(username) && Truthy(password) && !storeFails && Matches(username.value, password.value) ==>
        && issued.Some?
        && issued.value.id == users[username.value].id
        && issued.value.issuedAt == now
        && issued.value.expiresAt == now + TokenLifetime
        && reply == Reply(200, MessageWithToken(LoginSucceeded, jwt.sign(issued.value, secret)))
    {
      if !Truthy(username) || !Truthy(password) {
        return MissingFields, None;
      }
      if storeFails {
        return LoginFailed, None;
      }
      if username.value !in users {
        return WrongCredentials, None;
      }
      var user := users[username.value];
      var isMatch := hasher.compare(password.value, user.passwordHash);
      if !isMatch {
        return WrongCredentials, None;
      }
      var token := IssueToken(user.id, now);
      reply := Reply(200, MessageWithToken(LoginSucceeded, jwt.sign(token, secret)));
      issued := Some(token);
    }
  }

  /** Registering a fresh username and then logging in with the same
      password succeeds and yields a token for the new id, given only that a
      password matches its own hash. */
  method RegisterThenLogin(store: AccountStore, username: string, password: string, salt: string, now: int)
    returns (registered: Reply, loggedIn: Reply, issued: Option<Token>)
    requires store.Valid() && HasherSound(store.hasher)
    requires username != "" && password != "" && username !in store.users
    modifies store
    ensures store.Valid()
    ensures registered == Registered && loggedIn.status == 200
    ensures issued == Some(Token(old(store.nextId), now, now + TokenLifetime))
  {
    registered := store.Register(Some(username), Some(password), salt, false);
    assert store.users[username].passwordHash == store.hasher.hash(password, salt);
    loggedIn, issued := store.Login(Some(username), Some(password), now, false);
  }

  /** A second registration of a username is refused whatever the password,
      and the record made by the first one stays as it was. */
  method RegisterTwice(store: AccountStore, username: string, first: string, second: string, salt: string)
    returns (once: Reply, again: Reply)
    requires store.Valid()
    requires username != "" && first != "" && second != "" && username !in store.users
    modifies store
    ensures store.Valid()
    ensures once == Registered && again == UsernameTaken
    ensures store.users == old(store.users)[username := UserRecord(old(store.nextId), store.hasher.hash(first, salt))]
  {
    once := store.Register(Some(username), Some(first), salt, false);
    again := store.Register(Some(username), Some(second), salt, false);
  }
}
