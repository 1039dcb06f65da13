/** The sign-up route over the user collection: an address that is already
    stored is refused, and otherwise one user document is added whose
    password is the bcrypt hash of the one submitted. */
module AuthRouter {
  import opened Http

  /** The request body, after the schema's checks (the password is at most 72 characters). */
  datatype SignupData = SignupData(firstname: string, lastname: string, email: string, password: string)

  /** A stored user document. */
  datatype UserDoc = UserDoc(firstname: string, lastname: string, email: string, password: string)

  const MaxPasswordLength: nat := 72
  const AlreadyRegistered: HttpError := HttpError(400, "Email already registered")
  const SignupOk: string := "Signup successful!"

  /** `find_one({"email": email})` finds a document. */
  predicate Registered(users: seq<UserDoc>, email: string) {
    exists i :: 0 <= i < |users| && users[i].email == email
  }

  /** No two stored documents share an address. */
  predicate UniqueEmails(users: seq<UserDoc>) {
    forall i, j :: 0 <= i < j < |users| ==> users[i].email != users[j].email
  }

  class UserStore {
    var users: seq<UserDoc>

    /** Every address in the store is registered once. */
    ghost predicate Valid()
      reads this
    {
      UniqueEmails(users)
    }

    constructor ()
      ensures Valid() && users == []
    {
      users := [];
    }

    /** `signup_user`, with `hash` standing for `bcrypt.hash` (its salt
        fixed for this call). A stored address gives a 400 and no change;
        otherwise exactly one document is appended, holding the names, the
        address and the hash of the password. Either way the address is
        registered afterwards. */
    method Signup(data: SignupData, hash: string -> string) returns (r: Result<string>)
      requires Valid()
      requires |data.password| <= MaxPasswordLength
      modifies this
      ensures Valid()
      ensures Registered(old(users), data.email) ==> r == Err(AlreadyRegistered) && users == old(users)
      ensures !Registered(old(users), data.email) ==>
                r == Ok(SignupOk)
                && users == old(users) + [UserDoc(data.firstname, data.lastname, data.email, hash(data.password))]
      ensures Registered(users, data.email)
    {
      var i := 0;
      while i < |users|
        invariant 0 <= i <= |users|
        invariant forall k :: 0 <= k < i ==> users[k].email != data.email
      {
        if users[i].email == data.email {
          return Err(AlreadyRegistered);
        }
        i := i + 1;
      }
      var hashed := hash(data.password);
      users := users + [UserDoc(data.firstname, data.lastname, data.email, hashed)];
      assert users[|users| - 1].email == data.email;
      r := Ok(SignupOk);
    }
  }

  /** A second sign-up with the same address is refused and changes nothing. */
  method SecondSignupFails(first: SignupData, second: SignupData, hash: string -> string)
    requires first.email == second.email
    requires |first.password| <= MaxPasswordLength && |second.password| <= MaxPasswordLength
  {
    var store := new UserStore();
    var r := store.Signup(first, hash);
    assert r == Ok(SignupOk) && |store.users| == 1;
    var before := store.users;
    r := store.Signup(second, hash);
    assert r == Err(AlreadyRegistered) && store.users == before;
  }
}
