/** The user schema: name, email and password are required, the email is
    unique across all users, and the avatar is optional. */
module UserModel {
  import opened Common

  /** A stored user; `password` holds the bcrypt hash. */
  datatype User = User(id: UserId, name: string, email: string, password: string, avtar: Option<string>)

  function UserIdOf(u: User): int { u.id }

  /** The schema's `required` validators: a required string may not be empty. */
  predicate UserSchemaValid(u: User)
  {
    u.name != "" && u.email != "" && u.password != ""
  }

  /** The unique index on `email`. */
  predicate EmailsUnique(users: seq<User>)
  {
    forall i, j :: 0 <= i < j < |users| ==> users[i].email != users[j].email
  }

  /** Some user other than the one at `except` already has `email`. */
  predicate EmailTakenByOther(users: seq<User>, email: string, except: int)
  {
    exists i :: 0 <= i < |users| && i != except && users[i].email == email
  }

  /** Adding a user whose email is free keeps the index satisfied. */
  lemma AddKeepsEmailsUnique(users: seq<User>, u: User)
    requires EmailsUnique(users) && !EmailTakenByOther(users, u.email, -1)
    ensures EmailsUnique(users + [u])
  {
    forall i, j | 0 <= i < j < |users + [u]|
      ensures (users + [u])[i].email != (users + [u])[j].email
    {
      if j == |users| {
        assert users[i].email != u.email;
      }
    }
  }

  /** Changing the email of the user at `k` to one no other user has keeps the
      index satisfied. */
  lemma ReplaceKeepsEmailsUnique(users: seq<User>, k: nat, u: User)
    requires k < |users| && EmailsUnique(users) && !EmailTakenByOther(users, u.email, k)
    ensures EmailsUnique(users[k := u])
  {
    var updated := users[k := u];
    forall i, j | 0 <= i < j < |updated|
      ensures updated[i].email != updated[j].email
    {
      if i == k {
        assert users[j].email != u.email;
      } else if j == k {
        assert users[i].email != u.email;
      }
    }
  }
}
