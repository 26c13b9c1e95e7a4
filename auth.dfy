/** The signed-in session: the current user, a loading flag and its persisted copy in browser storage. */
module Auth {
  import opened Wrappers
  import opened Types

  /** The storage key the session is persisted under. */
  const StorageKey := "eventideUser"

  /** The one e-mail address that signs in as a business owner. */
  const OwnerEmail := "owner@example.com"

  /** A stored string: either the serialisation of a user record, or text that does not parse as one. */
  datatype Stored = Serialized(user: User) | Unparseable(raw: string)

  /** The role `login` assigns: business owner for the owner address, an ordinary user otherwise. */
  function RoleFor(email: string): (r: Role)
    ensures r == BusinessOwner <==> email == OwnerEmail
    ensures r == RegularUser <==> email != OwnerEmail
    ensures r != Admin
  {
    if email == OwnerEmail then BusinessOwner else RegularUser
  }

  /** The user `login` stores for `u`: the same record with its role replaced by the assigned one. */
  function SignedIn(u: User): (r: User)
    ensures r.id == u.id && r.email == u.email && r.name == u.name
    ensures r.role == BusinessOwner <==> u.email == OwnerEmail
    ensures r.role != Admin
  {
    u.(role := RoleFor(u.email))
  }

  /** The caller's role never matters: two users that differ only in role sign in as the same record. */
  lemma SignedInIgnoresRole(u: User, role: Role)
    ensures SignedIn(u.(role := role)) == SignedIn(u)
  {
  }

  /** The `AuthProvider` component's state: `user`, `loading`, and the browser's storage. */
  class AuthProvider {
    var user: Option<User>
    var loading: bool
    var storage: map<string, Stored>

    /** The user a fresh restore would read back from storage, if any. */
    function Persisted(): (u: Option<User>)
      reads this
    {
      if StorageKey in storage && storage[StorageKey].Serialized? then Some(storage[StorageKey].user) else None
    }

    /** Once loading is over, the in-memory user is the one persisted in storage. */
    predicate Valid()
      reads this
    {
      !loading ==> user == Persisted()
    }

    /** The state at mount: no user, still loading, storage as the browser holds it. */
    constructor (browserStorage: map<string, Stored>)
      ensures user == None && loading && storage == browserStorage
      ensures Valid()
    {
      user := None;
      loading := true;
      storage := browserStorage;
    }

    /** The mount effect: restores a persisted user, removes a stored value that does not parse,
        leaves an empty stored string alone (it is falsy), and ends loading. */
    method Restore()
      modifies this
      ensures !loading
      ensures StorageKey !in old(storage) ==> user == old(user) && storage == old(storage)
      ensures StorageKey in old(storage) && old(storage)[StorageKey].Serialized? ==>
                user == Some(old(storage)[StorageKey].user) && storage == old(storage)
      ensures StorageKey in old(storage) && old(storage)[StorageKey] == Unparseable("") ==>
                user == old(user) && storage == old(storage)
      ensures StorageKey in old(storage) && old(storage)[StorageKey].Unparseable? && old(storage)[StorageKey].raw != "" ==>
                user == old(user) && storage == old(storage) - {StorageKey}
      ensures old(user) == None ==> Valid()
    {
      if StorageKey in storage {
        var stored := storage[StorageKey];
        match stored {
          case Serialized(u) =>
            user := Some(u);
          case Unparseable(raw) =>
            if raw != "" {
              storage := storage - {StorageKey};
            }
        }
      }
      loading := false;
    }

    /** `login`: signs `u` in with the role its e-mail decides, and persists that same record. */
    method Login(u: User)
      modifies this
      ensures user == Some(SignedIn(u))
      ensures storage == old(storage)[StorageKey := Serialized(SignedIn(u))]
      ensures loading == old(loading)
      ensures Valid()
    {
      var role := RegularUser;
      if u.email == OwnerEmail {
        role := BusinessOwner;
      }
      var withRole := u.(role := role);
      user := Some(withRole);
      storage := storage[StorageKey := Serialized(withRole)];
    }

    /** `logout`: clears the user and removes the persisted copy. */
    method Logout()
      modifies this
      ensures user == None
      ensures storage == old(storage) - {StorageKey} && StorageKey !in storage
      ensures loading == old(loading)
      ensures Valid()
    {
      user := None;
      storage := storage - {StorageKey};
    }
  }
}
