/** The value-level rules behind `registerUser`: the lookup by e-mail and the uniqueness it keeps. */
module AuthRules {
  import opened Domain

  /** No two users share an e-mail address. */
  ghost predicate EmailsUnique(users: map<UserId, User>) {
    forall a, b | a in users && b in users :: users[a].email == users[b].email ==> a == b
  }

  /** The lookup by e-mail finds a user. */
  predicate EmailInUse(users: map<UserId, User>, email: string) {
    exists id | id in users :: users[id].email == email
  }

  /** Adding a user under a fresh id with an e-mail nobody has keeps e-mails unique. */
  lemma {:induction false} AddKeepsEmailsUnique(users: map<UserId, User>, id: UserId, u: User)
    requires EmailsUnique(users)
    requires id !in users && !EmailInUse(users, u.email)
    ensures EmailsUnique(users[id := u])
  {
    var users' := users[id := u];
    forall a, b | a in users' && b in users' && users'[a].email == users'[b].email
      ensures a == b
    {
      if a != id && b != id {
        assert users[a].email == users[b].email;
      }
    }
  }
}
