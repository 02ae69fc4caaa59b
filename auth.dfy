/** `registerUser` of src/actions/auth.ts: field validation, a lookup by
    e-mail and one insert with the initial balance. */
module Auth {
  import opened Wrappers
  import opened Text
  import opened Schema

  /** The balance every account starts with. */
  const InitialPoints := 1000

  /** The shortest accepted password, in UTF-16 code units. */
  const MinimumPasswordLength := 6

  datatype RegisterOutcome = MissingField | PasswordTooShort | EmailTaken | Registered

  /** `!value` for a form field: the field is absent (`null`) or empty. */
  predicate Blank(value: Option<string>) {
    value.None? || value.value == ""
  }

  /** `prisma.user.findUnique({where: {email}})` finds a row. */
  predicate EmailRegistered(users: map<UserId, User>, email: string) {
    exists id :: id in users && users[id].email == email
  }

  /** No two accounts share an e-mail address (the column is unique). */
  predicate EmailsUnique(users: map<UserId, User>) {
    forall a, b :: a in users && b in users && users[a].email == users[b].email ==> a == b
  }

  datatype RegisterStep = RegisterStep(outcome: RegisterOutcome, users: map<UserId, User>)

  /** What `registerUser` does with the three form fields; `hash` is what
      bcrypt returns for the password and `freshId` the id the database
      assigns. */
  function RegisterSpec(users: map<UserId, User>, name: Option<string>, email: Option<string>,
                        password: Option<string>, hash: string, freshId: UserId): RegisterStep
  {
    if Blank(name) || Blank(email) || Blank(password) then RegisterStep(MissingField, users)
    else if Utf16Length(password.value) < MinimumPasswordLength then RegisterStep(PasswordTooShort, users)
    else if EmailRegistered(users, email.value) then RegisterStep(EmailTaken, users)
    else RegisterStep(Registered, users[freshId := User(name.value, email.value, hash, InitialPoints, Member)])
  }

  method RegisterUser(db: Database, name: Option<string>, email: Option<string>, password: Option<string>,
                      hash: string, freshId: UserId) returns (outcome: RegisterOutcome)
    requires freshId !in db.users
    modifies db`users
    ensures var step := RegisterSpec(old(db.users), name, email, password, hash, freshId);
            outcome == step.outcome && db.users == step.users
  {
    if Blank(name) || Blank(email) || Blank(password) {
      return MissingField;
    }
    if Utf16Length(password.value) < MinimumPasswordLength {
      return PasswordTooShort;
    }
    if EmailRegistered(db.users, email.value) {
      return EmailTaken;
    }
    db.users := db.users[freshId := User(name.value, email.value, hash, InitialPoints, Member)];
    return Registered;
  }

  /** Every rejection creates nothing, and registration succeeds exactly when
      all fields are present, the password is at least six UTF-16 units long
      and the e-mail is new. */
  lemma RegisterGuards(users: map<UserId, User>, name: Option<string>, email: Option<string>,
                       password: Option<string>, hash: string, freshId: UserId)
    ensures var step := RegisterSpec(users, name, email, password, hash, freshId);
            && (step.outcome != Registered ==> step.users == users)
            && (step.outcome == Registered <==>
                  !Blank(name) && !Blank(email) && !Blank(password) && Utf16Length(password.value) >= MinimumPasswordLength
                  && !EmailRegistered(users, email.value))
            && (Blank(name) || Blank(email) || Blank(password) ==> step.outcome == MissingField)
  {
  }

  /** A registration adds exactly one account, with 1000 points and the given
      name, e-mail and hash, and keeps e-mail addresses unique. */
  lemma RegisterCreatesOneUser(users: map<UserId, User>, name: Option<string>, email: Option<string>,
                               password: Option<string>, hash: string, freshId: UserId)
    requires freshId !in users && EmailsUnique(users)
    requires RegisterSpec(users, name, email, password, hash, freshId).outcome == Registered
    ensures var after := RegisterSpec(users, name, email, password, hash, freshId).users;
            && after.Keys == users.Keys + {freshId} && |after| == |users| + 1
            && (forall id :: id in users ==> after[id] == users[id])
            && after[freshId].points == InitialPoints
            && after[freshId].email == email.value && after[freshId].passwordHash == hash
            && EmailsUnique(after)
  {
    assert forall id :: id in users ==> users[id].email != email.value;
  }

  /** Length is counted as `password.length` is: three emoji make a six-unit
      password, which passes the length check. */
  lemma EmojiPasswordLongEnough(users: map<UserId, User>, hash: string, freshId: UserId)
    ensures RegisterSpec(users, Some("a"), Some("a@b"), Some("\U{1F600}\U{1F600}\U{1F600}"), hash, freshId).outcome
            != PasswordTooShort
  {
    Utf16LengthExample();
  }
}
