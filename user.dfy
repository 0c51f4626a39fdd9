/**
 * The user repository (src/repos/user.rs): the `User` record, its id for the
 * generic store, and credential lookup over a `MemoryStore<User>`.
 */
module UserRepo {
  import opened Wrappers
  import opened Repos

  datatype User = User(
    id: string,
    username: string,
    password: string,
    totpEnabled: bool,
    totpSecret: Option<string>)

  /** `UniqueId::get_id` for users: every user has an id. */
  function GetId(u: User): (r: Option<string>)
    ensures r.Some? && r.value == u.id
  {
    Some(u.id)
  }

  /** A store of users, as `MemoryStore::<User>::new()` builds it. */
  method NewUserStore() returns (store: MemoryStore<User>)
    ensures fresh(store) && store.cache == [] && store.getId == GetId
  {
    store := new MemoryStore(GetId);
  }

  /** Both fields compared with exact, case-sensitive string equality. */
  function HasCredentials(username: string, password: string): User -> bool
  {
    (u: User) => u.username == username && u.password == password
  }

  /**
   * `UserStore::authenticate`: the first cached user with exactly this
   * username and password. A missing user and a wrong password give the same
   * error.
   */
  function Authenticate(store: MemoryStore<User>, username: string, password: string): (r: Result<User>)
    reads store
    ensures r.Ok? <==> exists i :: 0 <= i < |store.cache| &&
                        store.cache[i].username == username && store.cache[i].password == password
    ensures r.Ok? ==> r.value in store.cache && r.value.username == username && r.value.password == password
    ensures r.Ok? ==> exists i: nat :: IsFirstMatch(store.cache, HasCredentials(username, password), i) &&
                                  store.cache[i] == r.value
    ensures r.Err? ==> r.error == NotFoundError
  {
    match FindFirst(store.cache, HasCredentials(username, password))
    case Some(i) => Ok(store.cache[i])
    case None => Err(NotFoundError)
  }
}
