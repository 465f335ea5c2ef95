/**
 * The User schema: field rules (required, email pattern, minimum password
 * length, role and specialty enums with their defaults), the unique email
 * index, the password that reads leave out, and the user collection.
 */
module UserModel {
  import opened Wrappers
  import opened Ids
  import opened Collections
  import opened Validation
  import Text

  datatype Role = PATIENT | DOCTOR | ADMIN

  function RoleName(r: Role): string
  {
    match r
    case PATIENT => "PATIENT"
    case DOCTOR => "DOCTOR"
    case ADMIN => "ADMIN"
  }

  /** The enum check: a string names a role exactly when it is that role's name. */
  function ParseRole(s: string): (r: Option<Role>)
    ensures forall x :: r == Some(x) <==> s == RoleName(x)
  {
    if s == "PATIENT" then Some(PATIENT)
    else if s == "DOCTOR" then Some(DOCTOR)
    else if s == "ADMIN" then Some(ADMIN)
    else None
  }

  datatype Specialty = OPD | SkinCare | ENT | Dermatologist | OTHER

  function SpecialtyName(s: Specialty): string
  {
    match s
    case OPD => "OPD"
    case SkinCare => "Skin care"
    case ENT => "ENT"
    case Dermatologist => "Dermatologist"
    case OTHER => "OTHER"
  }

  function ParseSpecialty(s: string): (r: Option<Specialty>)
    ensures forall x :: r == Some(x) <==> s == SpecialtyName(x)
  {
    if s == "OPD" then Some(OPD)
    else if s == "Skin care" then Some(SkinCare)
    else if s == "ENT" then Some(ENT)
    else if s == "Dermatologist" then Some(Dermatologist)
    else if s == "OTHER" then Some(OTHER)
    else None
  }

  /** A stored password. Hashing is opaque: the only question asked of it is `Matches`. */
  datatype Secret = Hashed(digest: string)

  function Hash(password: string): Secret
  {
    Hashed(password)
  }

  /** `bcrypt.compare(entered, stored)`. */
  predicate Matches(entered: string, stored: Secret)
  {
    stored == Hash(entered)
  }

  const MinPasswordLength: nat := 8

  // ---- the email pattern ^\w+([\.-]?\w+)*@\w+([\.-]?\w+)*(\.\w{2,3})+$

  predicate IsWordChar(c: char)
  {
    ('a' <= c <= 'z') || ('A' <= c <= 'Z') || ('0' <= c <= '9') || c == '_'
  }

  predicate IsSeparator(c: char)
  {
    c == '.' || c == '-'
  }

  /** `\w+([\.-]?\w+)*`: word characters in which every '.' or '-' stands between two word characters. */
  predicate Dotted(s: string)
  {
    && |s| >= 1
    && IsWordChar(s[0])
    && IsWordChar(s[|s| - 1])
    && forall i :: 0 <= i < |s| ==>
         IsWordChar(s[i]) || (IsSeparator(s[i]) && i + 1 < |s| && IsWordChar(s[i + 1]))
  }

  /**
   * `\w+([\.-]?\w+)*(\.\w{2,3})+`. Because a dotted name followed by '.' and
   * word characters is again a dotted name, this is: a dotted name, a '.',
   * and a final group of two or three word characters.
   */
  predicate DomainPart(s: string)
  {
    exists k :: 0 < k < |s| && s[k] == '.' && Dotted(s[..k]) && 2 <= |s| - k - 1 <= 3
                && forall i :: k < i < |s| ==> IsWordChar(s[i])
  }

  /**
   * The schema's `match` rule for `email`. The shortest address it takes
   * is of the form `x@y.zz`, and an address begins and ends with a word character.
   */
  predicate ValidEmail(s: string)
    ensures ValidEmail(s) ==> |s| >= 6 && IsWordChar(s[0]) && IsWordChar(s[|s| - 1])
  {
    exists k :: 0 < k < |s| && s[k] == '@' && Dotted(s[..k]) && DomainPart(s[k + 1..])
  }

  lemma ExampleAddresses()
    ensures ValidEmail("a.b@c-d.io")
    ensures !ValidEmail("jo@host")
  {
    var e := "a.b@c-d.io";
    var local, domain := e[..3], e[4..];
    assert local == "a.b" && domain == "c-d.io";
    forall i | 0 <= i < 3
      ensures IsWordChar(local[i]) || (IsSeparator(local[i]) && i + 1 < 3 && IsWordChar(local[i + 1]))
      ensures IsWordChar(domain[i]) || (IsSeparator(domain[i]) && i + 1 < 3 && IsWordChar(domain[i + 1]))
    {
      if i == 0 {} else if i == 1 {} else {}
    }
    assert Dotted(local);
    assert domain[..3] == "c-d" && Dotted(domain[..3]);
    assert forall i :: 3 < i < 6 ==> IsWordChar(domain[i]);
    assert domain[3] == '.';
    assert DomainPart(domain);
    assert e[3] == '@';
    var bad := "jo@host";
    forall k | 0 < k < |bad| && bad[k] == '@' ensures !DomainPart(bad[k + 1..]) {
      assert k == 2;
      assert bad[3..] == "host";
      assert forall j :: 0 <= j < 4 ==> "host"[j] != '.';
    }
  }

  // ---- the record

  datatype User = User(
    id: Id,
    name: string,
    email: string,
    password: Secret,
    role: Role,
    medicalHistory: string,
    specialty: Specialty,
    isActive: bool,
    createdAt: int)

  /** What the schema guarantees of every stored user. */
  predicate ValidUser(u: User)
  {
    u.name != "" && ValidEmail(u.email)
  }

  /** JavaScript truthiness of an optional string, which is also Mongoose's `required` for strings. */
  predicate Present(o: Option<string>)
  {
    o.Some? && o.value != ""
  }

  /** The fields a create call supplies; `None` is an absent field. */
  datatype UserFields = UserFields(
    name: Option<string>,
    email: Option<string>,
    password: Option<string>,
    role: Option<string>,
    specialty: Option<string>)

  predicate EnumOk<E>(o: Option<string>, parse: string -> Option<E>)
  {
    o.None? || parse(o.value).Some?
  }

  /** Whether the schema rule for path `p` rejects the fields `f`. */
  predicate Fails(f: UserFields, p: Path)
  {
    match p
    case NamePath => !Present(f.name)
    case EmailPath => !(Present(f.email) && ValidEmail(f.email.value))
    case PasswordPath => !(Present(f.password) && Text.JsLength(f.password.value) >= MinPasswordLength)
    case RolePath => !EnumOk(f.role, ParseRole)
    case SpecialtyPath => !EnumOk(f.specialty, ParseSpecialty)
    case _ => false
  }

  const UserPaths: seq<Path> := [NamePath, EmailPath, PasswordPath, RolePath, SpecialtyPath]

  /** The minimum counts UTF-16 code units: 4 emoji are 8 units, a long enough password. */
  lemma AstralPasswordLongEnough(f: UserFields)
    requires f.password.Some? && |f.password.value| == 4
    requires forall i :: 0 <= i < |f.password.value| ==> f.password.value[i] as int >= 0x1_0000
    ensures !Fails(f, PasswordPath)
  {
    Text.JsLengthAstral(f.password.value);
  }

  /** The paths of `ps` whose rule rejects `f`, in the order of `ps`. */
  function FailingAmong(f: UserFields, ps: seq<Path>): (r: seq<Path>)
    ensures forall p :: p in r <==> p in ps && Fails(f, p)
  {
    if ps == [] then []
    else (if Fails(f, ps[0]) then [ps[0]] else []) + FailingAmong(f, ps[1..])
  }

  /** The paths that fail validation, in schema order (empty: the document is valid). */
  function UserErrors(f: UserFields): (errs: seq<Path>)
    ensures forall p :: p in errs <==> Fails(f, p)
    ensures errs == [] <==>
      && !Fails(f, NamePath) && !Fails(f, EmailPath) && !Fails(f, PasswordPath)
      && !Fails(f, RolePath) && !Fails(f, SpecialtyPath)
  {
    assert forall p :: Fails(f, p) ==> p in UserPaths;
    var errs := FailingAmong(f, UserPaths);
    assert errs != [] ==> errs[0] in errs;
    assert Fails(f, NamePath) ==> NamePath in errs;
    assert Fails(f, EmailPath) ==> EmailPath in errs;
    assert Fails(f, PasswordPath) ==> PasswordPath in errs;
    assert Fails(f, RolePath) ==> RolePath in errs;
    assert Fails(f, SpecialtyPath) ==> SpecialtyPath in errs;
    errs
  }

  /** The record a valid create produces: defaults filled in, the password hashed (the pre-save hook). */
  function BuildUser(f: UserFields, id: Id, now: int): (u: User)
    requires UserErrors(f) == []
    ensures ValidUser(u)
    ensures u.id == id && u.createdAt == now
    ensures u.name == f.name.value && u.email == f.email.value
    ensures Matches(f.password.value, u.password)
    ensures f.role.None? ==> u.role == PATIENT
    ensures f.role.Some? ==> RoleName(u.role) == f.role.value
    ensures f.specialty.None? ==> u.specialty == OPD
    ensures f.specialty.Some? ==> SpecialtyName(u.specialty) == f.specialty.value
    ensures u.medicalHistory == "" && u.isActive
  {
    User(
      id, f.name.value, f.email.value, Hash(f.password.value),
      if f.role.None? then PATIENT else ParseRole(f.role.value).value,
      "",
      if f.specialty.None? then OPD else ParseSpecialty(f.specialty.value).value,
      true, now)
  }

  // ---- projections: what reads return instead of the record

  /** A user as `select('-password')` returns it. */
  datatype SafeUser = SafeUser(
    id: Id,
    name: string,
    email: string,
    role: Role,
    medicalHistory: string,
    specialty: Specialty,
    isActive: bool,
    createdAt: int)

  function Safe(u: User): (s: SafeUser)
    ensures s.id == u.id && s.name == u.name && s.email == u.email && s.role == u.role
    ensures s.medicalHistory == u.medicalHistory && s.specialty == u.specialty
    ensures s.isActive == u.isActive && s.createdAt == u.createdAt
  {
    SafeUser(u.id, u.name, u.email, u.role, u.medicalHistory, u.specialty, u.isActive, u.createdAt)
  }

  /** The password is the only field `Safe` drops: two users that differ only there look the same. */
  lemma SafeForgetsOnlyPassword(u: User, v: User)
    ensures Safe(u) == Safe(v) <==> u.(password := v.password) == v
  {
  }

  /** `{_id, name, email, role}`, the user part of a session response. */
  datatype PublicUser = PublicUser(id: Id, name: string, email: string, role: Role)

  function Public(u: User): PublicUser
  {
    PublicUser(u.id, u.name, u.email, u.role)
  }

  /** `select('_id name specialty')`. */
  datatype DoctorCard = DoctorCard(id: Id, name: string, specialty: Specialty)

  function Card(u: User): DoctorCard
  {
    DoctorCard(u.id, u.name, u.specialty)
  }

  /**
   * A user reference inside a returned record: left as the bare id, populated
   * with a projection of the user, or null when the referenced user is gone.
   */
  datatype Party =
    | Ref(id: Id)
    | Missing
    | NameSpecialty(id: Id, name: string, specialty: Specialty)
    | NameEmail(id: Id, name: string, email: string)

  // ---- lookups

  function FindById(rows: seq<User>, id: Id): (r: Option<User>)
    ensures r.Some? ==> r.value in rows && r.value.id == id
    ensures r.None? <==> forall i :: 0 <= i < |rows| ==> rows[i].id != id
  {
    match FirstIndex(rows, (u: User) => u.id == id)
    case Some(k) => Some(rows[k])
    case None => None
  }

  /**
   * `findOne({ email })`. With the field absent the filter is `{}` (Mongoose
   * drops undefined keys), which matches the first user of any kind.
   */
  function FindByEmail(rows: seq<User>, email: Option<string>): (r: Option<User>)
    ensures email.Some? ==> (r.Some? ==> r.value in rows && r.value.email == email.value)
    ensures email.Some? ==> (r.None? <==> forall i :: 0 <= i < |rows| ==> rows[i].email != email.value)
    ensures email.None? ==> r == (if rows == [] then None else Some(rows[0]))
  {
    if email.None? then (if rows == [] then None else Some(rows[0]))
    else
      match FirstIndex(rows, (u: User) => u.email == email.value)
      case Some(k) => Some(rows[k])
      case None => None
  }

  /** `populate(ref, 'name specialty')`. */
  function NameSpecialtyOf(rows: seq<User>, id: Id): (p: Party)
    ensures p.Missing? <==> FindById(rows, id).None?
    ensures p.NameSpecialty? ==> p.id == id
  {
    match FindById(rows, id)
    case Some(u) => NameSpecialty(u.id, u.name, u.specialty)
    case None => Missing
  }

  /** `populate(ref, 'name email')`. */
  function NameEmailOf(rows: seq<User>, id: Id): (p: Party)
    ensures p.Missing? <==> FindById(rows, id).None?
    ensures p.NameEmail? ==> p.id == id
  {
    match FindById(rows, id)
    case Some(u) => NameEmail(u.id, u.name, u.email)
    case None => Missing
  }

  // ---- the collection

  predicate EmailTaken(rows: seq<User>, email: string)
  {
    exists i :: 0 <= i < |rows| && rows[i].email == email
  }

  /** Schema validity, distinct identifiers below the allocator, and the unique email index. */
  predicate TableOk(rows: seq<User>, nextId: nat)
  {
    && (forall i :: 0 <= i < |rows| ==> rows[i].id < nextId && ValidUser(rows[i]))
    && (forall i, j :: 0 <= i < j < |rows| ==> rows[i].id != rows[j].id)
    && (forall i, j :: 0 <= i < j < |rows| ==> rows[i].email != rows[j].email)
  }

  datatype CreateResult = Created(user: User) | Invalid(paths: seq<Path>) | DuplicateEmail

  /** The users collection. */
  class Users {
    var rows: seq<User>
    var nextId: nat

    ghost predicate Valid()
      reads this
    {
      TableOk(rows, nextId)
    }

    constructor ()
      ensures Valid() && rows == []
    {
      rows := [];
      nextId := 0;
    }

    /** `User.create(fields)`: validation, the pre-save hash, then the insert under the email index. */
    method Create(f: UserFields, now: int) returns (r: CreateResult)
      requires Valid()
      modifies this
      ensures Valid()
      ensures UserErrors(f) != [] ==> r == Invalid(UserErrors(f)) && unchanged(this)
      ensures UserErrors(f) == [] && EmailTaken(old(rows), f.email.value) ==>
                r == DuplicateEmail && unchanged(this)
      ensures UserErrors(f) == [] && !EmailTaken(old(rows), f.email.value) ==>
                && r == Created(BuildUser(f, old(nextId), now))
                && rows == old(rows) + [r.user]
                && nextId == old(nextId) + 1
    {
      var errs := UserErrors(f);
      if errs != [] {
        return Invalid(errs);
      }
      if EmailTaken(rows, f.email.value) {
        return DuplicateEmail;
      }
      var u := BuildUser(f, nextId, now);
      rows := rows + [u];
      nextId := nextId + 1;
      r := Created(u);
    }
  }
}
