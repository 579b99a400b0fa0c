/** The user document: casting (trim, lowercase, defaults), the schema's
    validators, the pre-save hook that hashes a modified password, password
    comparison and the signed token. bcrypt and the JWT signer are opaque
    functions passed in as parameters. */
module UserModel {
  import opened Wrappers
  import opened Text

  const ClientRole := "client"
  const AdminRole := "admin"
  const Roles: set<string> := {ClientRole, AdminRole}
  const MinPasswordLength := 8

  datatype Address = Address(street: string, city: string, zip: string, country: string, isDefault: bool)

  /** An address as submitted; `isDefault` may be left out. */
  datatype AddressInput = AddressInput(street: string, city: string, zip: string, country: string, isDefault: Option<bool>)

  /** A user as submitted. An absent string and an empty one fail the same
      `required` check, so both are the empty string; the role is optional. */
  datatype UserInput = UserInput(
    firstName: string, lastName: string, email: string, password: string,
    role: Option<string>, addresses: seq<AddressInput>)

  datatype User = User(
    id: string, firstName: string, lastName: string, email: string, password: string,
    role: string, addresses: seq<Address>)

  /** An address's `is_default` defaults to false. */
  function CastAddress(a: AddressInput): (r: Address)
    ensures r.isDefault <==> a.isDefault == Some(true)
    ensures r.street == a.street && r.city == a.city && r.zip == a.zip && r.country == a.country
  {
    Address(a.street, a.city, a.zip, a.country, a.isDefault.GetOr(false))
  }

  /** Mongoose casting: names trimmed, email lowercased, role defaulting to
      "client", addresses cast one by one in order. */
  function Cast(input: UserInput, id: string): (u: User)
    ensures u.id == id && u.password == input.password
    ensures u.firstName == Trim(input.firstName) && u.lastName == Trim(input.lastName)
    ensures u.email == ToLower(input.email)
    ensures input.role.None? ==> u.role == ClientRole
    ensures input.role.Some? ==> u.role == input.role.value
    ensures |u.addresses| == |input.addresses|
    ensures forall i :: 0 <= i < |u.addresses| ==> u.addresses[i] == CastAddress(input.addresses[i])
  {
    User(id, Trim(input.firstName), Trim(input.lastName), ToLower(input.email), input.password,
      input.role.GetOr(ClientRole), seq(|input.addresses|, i requires 0 <= i < |input.addresses| => CastAddress(input.addresses[i])))
  }

  /** The user's fields given back as input. */
  function AsInput(u: User): UserInput {
    UserInput(u.firstName, u.lastName, u.email, u.password, Some(u.role),
      seq(|u.addresses|, i requires 0 <= i < |u.addresses| =>
        var a := u.addresses[i]; AddressInput(a.street, a.city, a.zip, a.country, Some(a.isDefault))))
  }

  /** Casting an already cast user changes nothing. */
  lemma {:induction false} CastIdempotent(input: UserInput, id: string)
    ensures Cast(AsInput(Cast(input, id)), id) == Cast(input, id)
  {
    var u := Cast(input, id);
    TrimOfTrimmed(u.firstName);
    TrimOfTrimmed(u.lastName);
    ToLowerIdempotent(input.email);
    AddressesRoundTrip(u, id);
  }

  lemma AddressesRoundTrip(u: User, id: string)
    ensures Cast(AsInput(u), id).addresses == u.addresses
  {
    var v := Cast(AsInput(u), id);
    assert |v.addresses| == |u.addresses|;
    forall i | 0 <= i < |u.addresses|
      ensures v.addresses[i] == u.addresses[i]
    {
    }
  }

  datatype FieldError =
    | Required(path: string)
    | TooShort(path: string, minLength: nat)
    | NotInEnum(path: string, value: string)
    | InvalidEmail

  /** Everything the schema demands of a cast user. */
  predicate ValidUser(u: User, isEmail: string -> bool) {
    u.firstName != "" && u.lastName != "" && u.email != "" && isEmail(u.email)
    && |u.password| >= MinPasswordLength && u.role in Roles
  }

  function FirstNameErrors(u: User): (r: seq<FieldError>)
    ensures r == [] <==> u.firstName != ""
    ensures r != [] ==> r == [Required("firstName")]
  {
    if u.firstName == "" then [Required("firstName")] else []
  }

  function LastNameErrors(u: User): (r: seq<FieldError>)
    ensures r == [] <==> u.lastName != ""
    ensures r != [] ==> r == [Required("lastName")]
  {
    if u.lastName == "" then [Required("lastName")] else []
  }

  /** `required` is checked before the `isEmail` validator. */
  function EmailErrors(u: User, isEmail: string -> bool): (r: seq<FieldError>)
    ensures r == [] <==> u.email != "" && isEmail(u.email)
    ensures r == [Required("email")] <==> u.email == ""
    ensures r == [InvalidEmail] <==> u.email != "" && !isEmail(u.email)
  {
    if u.email == "" then [Required("email")] else if !isEmail(u.email) then [InvalidEmail] else []
  }

  /** `required` is checked before `minlength`. */
  function PasswordErrors(u: User): (r: seq<FieldError>)
    ensures r == [] <==> |u.password| >= MinPasswordLength
    ensures r == [Required("password")] <==> u.password == ""
    ensures r == [TooShort("password", MinPasswordLength)] <==> 0 < |u.password| < MinPasswordLength
  {
    if u.password == "" then [Required("password")]
    else if |u.password| < MinPasswordLength then [TooShort("password", MinPasswordLength)] else []
  }

  function RoleErrors(u: User): (r: seq<FieldError>)
    ensures r == [] <==> u.role in Roles
    ensures r != [] ==> r == [NotInEnum("role", u.role)]
  {
    if u.role !in Roles then [NotInEnum("role", u.role)] else []
  }

  /** The schema's validators, path by path in declaration order; each path
      reports at most its first failing validator. */
  function Validate(u: User, isEmail: string -> bool): (errors: seq<FieldError>)
    ensures errors == [] <==> ValidUser(u, isEmail)
    ensures |errors| <= 5
  {
    FirstNameErrors(u) + LastNameErrors(u) + EmailErrors(u, isEmail) + PasswordErrors(u) + RoleErrors(u)
  }

  /** The pre-save hook: a modified password is replaced by its hash under
      a fresh salt; an unmodified one is kept as stored. */
  function AfterSave(u: User, passwordModified: bool, salt: string, hash: (string, string) -> string): (r: User)
    ensures r.(password := u.password) == u
    ensures !passwordModified ==> r == u
    ensures passwordModified ==> r.password == hash(u.password, salt)
  {
    if passwordModified then u.(password := hash(u.password, salt)) else u
  }

  /** The JWT payload: the user's id and nothing else. */
  datatype Claims = Claims(id: string)

  /** `getSignedJwtToken`. */
  function SignedJwtToken(u: User, sign: Claims -> string): string {
    sign(Claims(u.id))
  }

  /** Two users with the same id get the same token: no other field reaches
      the payload. */
  lemma TokenDependsOnlyOnId(u: User, v: User, sign: Claims -> string)
    requires u.id == v.id
    ensures SignedJwtToken(u, sign) == SignedJwtToken(v, sign)
  {
  }

  /** `matchPassword`: bcrypt's comparison of the entered password with the
      stored hash. */
  function MatchPassword(u: User, entered: string, compare: (string, string) -> bool): bool {
    compare(entered, u.password)
  }

  /** After a save that hashed a newly set password, that password matches,
      provided bcrypt accepts every password against its own hash; a save
      that did not touch the password leaves matching as it was. */
  lemma MatchAfterSave(u: User, modified: bool, salt: string, hash: (string, string) -> string,
                       compare: (string, string) -> bool, entered: string)
    requires forall p, s :: compare(p, hash(p, s))
    ensures modified ==> MatchPassword(AfterSave(u, modified, salt, hash), u.password, compare)
    ensures !modified ==> MatchPassword(AfterSave(u, modified, salt, hash), entered, compare) == MatchPassword(u, entered, compare)
  {
  }

  /** A user document loaded in memory, with Mongoose's record of whether
      the password path was modified since the last save. */
  class UserDocument {
    var user: User
    var passwordModified: bool

    /** A new document: every given path, the password included, counts as
        modified. */
    constructor (input: UserInput, id: string)
      ensures user == Cast(input, id) && passwordModified
    {
      user := Cast(input, id);
      passwordModified := true;
    }

    method SetPassword(password: string)
      modifies this
      ensures user == old(user).(password := password) && passwordModified
    {
      user := user.(password := password);
      passwordModified := true;
    }

    /** `save()`: validation first (on the plain password); on success the
        pre-save hook runs and the document becomes clean, so a second save
        does not hash the hash. */
    method Save(isEmail: string -> bool, salt: string, hash: (string, string) -> string) returns (errors: seq<FieldError>)
      modifies this
      ensures errors == Validate(old(user), isEmail)
      ensures errors != [] ==> user == old(user) && passwordModified == old(passwordModified)
      ensures errors == [] ==> user == AfterSave(old(user), old(passwordModified), salt, hash) && !passwordModified
    {
      errors := Validate(user, isEmail);
      if errors != [] {
        return;
      }
      user := AfterSave(user, passwordModified, salt, hash);
      passwordModified := false;
    }

  }
}
