/** The user model (`getUserModel`): field constraints, the role enum, the
    `fullName` virtual, the password hook and check, and the collection the
    services read and write. bcrypt is modelled symbolically: a hash records
    its cost and the value it was computed from. */
module Users {
  import opened Wrappers
  import opened Text
  import Crypto
  import Sessions

  /** A document `_id`, written as the 24 hex digits of an ObjectId. */
  type UserId = s: string | |s| == 24 && Crypto.IsHex(s) witness "000000000000000000000000"

  // ---------------------------------------------------------------- role

  datatype Role = Buyer | Seller | Admin | Moderator

  const DEFAULT_ROLE := Buyer

  function RoleName(r: Role): string {
    match r
    case Buyer => "buyer"
    case Seller => "seller"
    case Admin => "admin"
    case Moderator => "moderator"
  }

  /** The `enum` validator: only the four role names are accepted. */
  function ParseRole(s: string): (r: Option<Role>)
    ensures r.Some? ==> RoleName(r.value) == s
    ensures r.None? ==> forall role: Role :: RoleName(role) != s
  {
    if s == "buyer" then Some(Buyer)
    else if s == "seller" then Some(Seller)
    else if s == "admin" then Some(Admin)
    else if s == "moderator" then Some(Moderator)
    else None
  }

  lemma RoleRoundTrip(r: Role)
    ensures ParseRole(RoleName(r)) == Some(r)
  {
  }

  /** The `role` path: a missing value takes the default `'buyer'`. */
  function CastRole(value: Option<string>): (r: Option<Role>)
    ensures value.None? ==> r == Some(Buyer)
    ensures value.Some? ==> (r.Some? <==> value.value in ["buyer", "seller", "admin", "moderator"])
    ensures value.Some? && r.Some? ==> RoleName(r.value) == value.value
  {
    match value
    case None => Some(DEFAULT_ROLE)
    case Some(s) => ParseRole(s)
  }

  // ---------------------------------------------------------------- fullName

  /** No white space at either end: what the `trim` setter leaves. */
  predicate Trimmed(s: string) {
    s == [] || (!IsJsSpace(s[0]) && !IsJsSpace(s[|s| - 1]))
  }

  /** The `fullName` virtual: first and last name joined by a space, a missing
      part read as '', the whole trimmed. */
  function FullName(firstName: Option<string>, lastName: Option<string>): (r: string)
    ensures Trimmed(r)
  {
    Trim(firstName.GetOr("") + " " + lastName.GetOr(""))
  }

  /** Both names present (and trimmed, as the schema stores them): they are
      joined by exactly one space. */
  lemma FullNameBoth(first: string, last: string)
    requires Trimmed(first) && Trimmed(last) && first != [] && last != []
    ensures FullName(Some(first), Some(last)) == first + " " + last
  {
    var s := first + " " + last;
    assert s[0] == first[0] && s[|s| - 1] == last[|last| - 1];
    TrimUnchanged(s);
  }

  /** A missing last name leaves the first name alone, without a trailing space. */
  lemma {:induction false} FullNameFirstOnly(first: string)
    requires Trimmed(first)
    ensures FullName(Some(first), None) == first
  {
    var s := first + " " + "";
    assert s[..|s| - 1] == first;
    if first == [] {
      assert LeadingSpace(s) == 1;
    } else {
      assert LeadingSpace(s) == 0 && s[0..] == s;
      assert WithoutTrailingSpace(s) == WithoutTrailingSpace(first) == |first|;
    }
  }

  /** A missing first name leaves the last name alone, without a leading space. */
  lemma {:induction false} FullNameLastOnly(last: string)
    requires Trimmed(last)
    ensures FullName(None, Some(last)) == last
  {
    var s := "" + " " + last;
    assert s[1..] == last;
    if last == [] {
      assert LeadingSpace(s) == 1;
    } else {
      assert LeadingSpace(s) == 1 + LeadingSpace(last) == 1;
      TrimUnchanged(last);
    }
  }

  // ---------------------------------------------------------------- password

  /** A stored password: the value as given, or a bcrypt hash at some cost of a
      stored value (hashing a hash again is possible). */
  datatype Secret = Plain(text: string) | Bcrypt(cost: nat, of: Secret)

  const HASH_COST := 12

  /** bcrypt reads at most 72 bytes of a password; every character is
      counted as one byte here. */
  const BCRYPT_MAX_BYTES := 72

  /** The part of a password bcrypt hashes. */
  function Significant(t: string): (r: string)
    ensures |t| <= BCRYPT_MAX_BYTES ==> r == t
    ensures |t| > BCRYPT_MAX_BYTES ==> r == t[..BCRYPT_MAX_BYTES]
  {
    if |t| <= BCRYPT_MAX_BYTES then t else t[..BCRYPT_MAX_BYTES]
  }

  /** bcrypt `compare(candidate, stored)`: a value that is not a hash never
      matches, and a hash of a password matches every candidate that agrees
      with it on the bytes bcrypt reads. */
  function Compare(candidate: string, stored: Secret): bool {
    match stored
    case Plain(_) => false
    case Bcrypt(_, Plain(t)) => Significant(t) == Significant(candidate)
    case Bcrypt(_, Bcrypt(_, _)) => false
  }

  /** `isPasswordValid(candidate)`: compares against the stored hash, or '' when
      there is none; so a user without a stored hash never signs in. */
  function IsPasswordValid(candidate: string, password: Option<Secret>): (r: bool)
    ensures r ==> password.Some? && password.value.Bcrypt?
  {
    Compare(candidate, password.GetOr(Plain("")))
  }

  /** The pre-save hook: when the password path was modified, it is replaced by
      its hash at cost 12 ('' if absent); otherwise it is left as it is. */
  function HashedOnSave(password: Option<Secret>, modified: bool): (r: Option<Secret>)
    ensures !modified ==> r == password
    ensures modified ==> r.Some? && r.value.Bcrypt? && r.value.cost == HASH_COST
  {
    if !modified then password else Some(Bcrypt(HASH_COST, password.GetOr(Plain(""))))
  }

  /** A password saved once as modified validates exactly the candidates
      that agree with it on the first 72 bytes; for passwords of at most 72
      bytes that is the value that was set and nothing else. */
  lemma SavedPasswordValidates(p: string, candidate: string)
    ensures IsPasswordValid(candidate, HashedOnSave(Some(Plain(p)), true)) <==> Significant(candidate) == Significant(p)
    ensures |p| <= BCRYPT_MAX_BYTES && |candidate| <= BCRYPT_MAX_BYTES ==>
              (IsPasswordValid(candidate, HashedOnSave(Some(Plain(p)), true)) <==> candidate == p)
  {
  }

  /** A password longer than 72 bytes is also accepted when only its first
      72 bytes are given. */
  lemma LongPasswordPrefixAccepted(p: string)
    requires |p| > BCRYPT_MAX_BYTES
    ensures IsPasswordValid(p[..BCRYPT_MAX_BYTES], HashedOnSave(Some(Plain(p)), true))
    ensures p[..BCRYPT_MAX_BYTES] != p
  {
    assert |p[..BCRYPT_MAX_BYTES]| == BCRYPT_MAX_BYTES;
  }

  /** Why the hook must skip unmodified passwords: hashing the stored hash a
      second time rejects every plain password, the one that was set
      included; saving without modification keeps it working. */
  lemma RehashLocksOut(p: string, candidate: string)
    ensures !IsPasswordValid(candidate, HashedOnSave(HashedOnSave(Some(Plain(p)), true), true))
    ensures IsPasswordValid(candidate, HashedOnSave(HashedOnSave(Some(Plain(p)), true), false)) <==>
            Significant(candidate) == Significant(p)
  {
  }

  /** A document whose `password` the pre-save hook rewrites in place. */
  class UserDocument {
    var password: Option<Secret>
    var passwordModified: bool

    /** A new document: its password path counts as modified when set. */
    constructor(password: Option<Secret>)
      ensures this.password == password && passwordModified == password.Some?
    {
      this.password := password;
      passwordModified := password.Some?;
    }

    /** `pre('save')`; `fault` is an error thrown by `hash`, handed to `next`. */
    method PreSave(fault: Option<string>) returns (err: Option<string>)
      modifies this`password
      ensures err.Some? <==> passwordModified && fault.Some?
      ensures err.Some? ==> err == fault && password == old(password)
      ensures err.None? ==> password == HashedOnSave(old(password), passwordModified)
    {
      if !passwordModified {
        return None;
      }
      if fault.Some? {
        return fault;
      }
      password := Some(Bcrypt(HASH_COST, password.GetOr(Plain(""))));
      err := None;
    }
  }

  // ---------------------------------------------------------------- store

  /** A stored user document. */
  datatype Account = Account(
    id: UserId, firstName: string, lastName: string, email: string, normalizeMail: string,
    password: Secret, role: Role, sessions: seq<Sessions.Session>)

  /** The payload handed to `model.create`. */
  datatype NewAccount = NewAccount(
    firstName: string, lastName: string, email: string, normalizeMail: string, password: string, role: Role)

  /** The `trim` and `lowercase` setters of `email` and `normalizeMail`; mongoose
      applies them to stored values and to query values alike. */
  function CastEmail(s: string): (r: string)
    ensures Trimmed(r) && |r| <= |s|
    ensures forall i :: 0 <= i < |r| ==> !IsAsciiUpper(r[i])
  {
    Lower(Trim(s))
  }

  /** The document a valid payload becomes: names and e-mails cast, the password
      hashed by the pre-save hook, no sessions yet. */
  function Stored(n: NewAccount, id: UserId): (a: Account)
    ensures a.id == id && a.role == n.role && a.sessions == []
    ensures a.email == CastEmail(n.email) && a.normalizeMail == CastEmail(n.normalizeMail)
    ensures Some(a.password) == HashedOnSave(Some(Plain(n.password)), true)
  {
    Account(id, Trim(n.firstName), Trim(n.lastName), CastEmail(n.email), CastEmail(n.normalizeMail),
            Bcrypt(HASH_COST, Plain(n.password)), n.role, [])
  }

  const VALIDATION_FAILED := "User validation failed"
  const DUPLICATE_KEY := "E11000 duplicate key error"

  /** `required: true` on `email`, `normalizeMail` and `password`: an empty
      string (after the setters) fails. */
  predicate HasRequired(n: NewAccount) {
    CastEmail(n.email) != "" && CastEmail(n.normalizeMail) != "" && n.password != ""
  }

  /** The three unique indexes: `_id`, `email` and `normalizeMail`. */
  predicate Clashes(a: Account, b: Account) {
    a.id == b.id || a.email == b.email || a.normalizeMail == b.normalizeMail
  }

  predicate UniqueKeys(accounts: seq<Account>) {
    forall i, j :: 0 <= i < j < |accounts| ==> !Clashes(accounts[i], accounts[j])
  }

  /** `model.create(n)` on a collection: validation, the pre-save hook, then the
      insert, which the unique indexes can refuse. `hashFault` is an error
      thrown by bcrypt. */
  function Insert(accounts: seq<Account>, n: NewAccount, freshId: UserId, hashFault: Option<string>)
    : (r: Result<seq<Account>, string>)
    ensures r.Ok? <==> HasRequired(n) && hashFault.None? &&
                       forall i :: 0 <= i < |accounts| ==> !Clashes(accounts[i], Stored(n, freshId))
    ensures r.Ok? ==> r.value == accounts + [Stored(n, freshId)]
    ensures UniqueKeys(accounts) && r.Ok? ==> UniqueKeys(r.value)
  {
    var a := Stored(n, freshId);
    if !HasRequired(n) then Err(VALIDATION_FAILED)
    else if hashFault.Some? then Err(hashFault.value)
    else if exists i :: 0 <= i < |accounts| && Clashes(accounts[i], a) then Err(DUPLICATE_KEY)
    else Ok(accounts + [a])
  }

  /** Creating the same payload twice never yields a second account: the
      second insert clashes on `email`. */
  lemma InsertTwiceRefused(accounts: seq<Account>, n: NewAccount, id1: UserId, id2: UserId)
    requires Insert(accounts, n, id1, None).Ok?
    ensures Insert(Insert(accounts, n, id1, None).value, n, id2, None) == Err(DUPLICATE_KEY)
  {
    var after := Insert(accounts, n, id1, None).value;
    assert after[|accounts|] == Stored(n, id1);
    assert Clashes(after[|accounts|], Stored(n, id2));
  }

  /** The filters the services pass to `findOne`. */
  datatype Query = ById(id: UserId) | ByEmail(email: string) | ByEmailOrNormalized(email: string, normalizeMail: string)

  predicate Matches(a: Account, q: Query) {
    match q
    case ById(id) => a.id == id
    case ByEmail(e) => a.email == CastEmail(e)
    case ByEmailOrNormalized(e, m) => a.email == CastEmail(e) || a.normalizeMail == CastEmail(m)
  }

  /** The position of the first document, in insertion order, that matches. */
  function FindIndex(accounts: seq<Account>, q: Query, from: nat): (r: Option<nat>)
    requires from <= |accounts|
    ensures r.None? <==> forall i :: from <= i < |accounts| ==> !Matches(accounts[i], q)
    ensures r.Some? ==> from <= r.value < |accounts| && Matches(accounts[r.value], q)
    ensures r.Some? ==> forall i :: from <= i < r.value ==> !Matches(accounts[i], q)
    decreases |accounts| - from
  {
    if from == |accounts| then None
    else if Matches(accounts[from], q) then Some(from)
    else
      var rest := FindIndex(accounts, q, from + 1);
      assert !Matches(accounts[from], q);
      rest
  }

  /** A document as `findOne` hands it back: `normalizeMail` and `password`
      are `select: false`, so they are absent unless selected with `+`. */
  datatype UserView = UserView(
    id: UserId, firstName: string, lastName: string, email: string,
    normalizeMail: Option<string>, password: Option<Secret>, role: Role)

  function View(a: Account, withPassword: bool): (v: UserView)
    ensures v.id == a.id && v.email == a.email && v.role == a.role
    ensures v.normalizeMail.None?
    ensures v.password.Some? <==> withPassword
    ensures withPassword ==> v.password == Some(a.password)
  {
    UserView(a.id, a.firstName, a.lastName, a.email, None, if withPassword then Some(a.password) else None, a.role)
  }

  /** `findByIdAndUpdate(id, { $push: { sessions: s } })` on a collection: the
      document with that `_id` gets `s` appended; an unknown id matches nothing. */
  function WithSession(accounts: seq<Account>, id: UserId, s: Sessions.Session): (r: seq<Account>)
    ensures |r| == |accounts|
    ensures UniqueKeys(accounts) ==> UniqueKeys(r)
  {
    match FindIndex(accounts, ById(id), 0)
    case None => accounts
    case Some(k) => accounts[k := accounts[k].(sessions := accounts[k].sessions + [s])]
  }

  /** Exactly one record is appended, to the user with that id, and every other
      document is left as it was. */
  lemma WithSessionAppendsOne(accounts: seq<Account>, id: UserId, s: Sessions.Session, i: nat)
    requires UniqueKeys(accounts) && i < |accounts|
    ensures accounts[i].id == id ==>
              WithSession(accounts, id, s)[i] == accounts[i].(sessions := accounts[i].sessions + [s])
    ensures accounts[i].id != id ==> WithSession(accounts, id, s)[i] == accounts[i]
  {
    var k := FindIndex(accounts, ById(id), 0);
    if accounts[i].id == id {
      assert k.Some?;
      assert k.value == i by {
        if k.value < i {
          assert Clashes(accounts[k.value], accounts[i]);
        }
      }
    }
  }

  /** With no document of that id, nothing changes. */
  lemma WithSessionUnknownId(accounts: seq<Account>, id: UserId, s: Sessions.Session)
    requires forall i :: 0 <= i < |accounts| ==> accounts[i].id != id
    ensures WithSession(accounts, id, s) == accounts
  {
    assert forall i :: 0 <= i < |accounts| ==> !Matches(accounts[i], ById(id));
  }

  /** The user collection. */
  class AccountStore {
    var accounts: seq<Account>

    ghost predicate Valid()
      reads this
    {
      UniqueKeys(accounts)
    }

    constructor()
      ensures Valid() && accounts == []
    {
      accounts := [];
    }

    /** `findOne(q)`, optionally with `.select('+password')`. */
    method FindOne(q: Query, withPassword: bool) returns (r: Option<UserView>)
      ensures r.None? <==> forall i :: 0 <= i < |accounts| ==> !Matches(accounts[i], q)
      ensures r.Some? ==> var k := FindIndex(accounts, q, 0).value;
                          Matches(accounts[k], q) && r.value == View(accounts[k], withPassword)
    {
      var i := FindIndex(accounts, q, 0);
      if i.None? {
        return None;
      }
      return Some(View(accounts[i.value], withPassword));
    }

    /** `model.create(n)`; the new `_id` is `freshId`. */
    method Create(n: NewAccount, freshId: UserId, hashFault: Option<string>) returns (r: Result<Account, string>)
      requires Valid()
      modifies this
      ensures Valid()
      ensures r.Ok? <==> Insert(old(accounts), n, freshId, hashFault).Ok?
      ensures r.Ok? ==> r.value == Stored(n, freshId) && accounts == old(accounts) + [r.value]
      ensures r.Err? ==> accounts == old(accounts) && Insert(old(accounts), n, freshId, hashFault) == Err(r.error)
    {
      var ins := Insert(accounts, n, freshId, hashFault);
      if ins.Err? {
        return Err(ins.error);
      }
      accounts := ins.value;
      return Ok(Stored(n, freshId));
    }

    /** `findByIdAndUpdate(id, { $push: { sessions: s } })`. */
    method PushSession(id: UserId, s: Sessions.Session)
      requires Valid()
      modifies this
      ensures Valid()
      ensures accounts == WithSession(old(accounts), id, s)
    {
      var k := FindIndex(accounts, ById(id), 0);
      if k.Some? {
        accounts := accounts[k.value := accounts[k.value].(sessions := accounts[k.value].sessions + [s])];
      }
    }
  }
}
