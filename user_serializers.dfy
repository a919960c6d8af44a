/**
 * The users app's `SignupSerializer`: a sign-up names a one-time role code; validation finds
 * the unused code and remembers it, and `create` makes a user with the code's role and marks
 * the code used, so that a code signs up one user only.
 *
 * The role-code table is an `OtpStore` keyed by primary key; a serializer holds the store and
 * the code its validation matched.
 */
module UserSerializers {
  import opened Wrappers
  import opened Json

  /** A stored role code: the code text, the role it grants, and whether it was used. */
  datatype RoleOtp = RoleOtp(code: string, role: string, isUsed: bool)

  /** The arguments `create_user` receives; optional ones are `None` when not submitted. */
  datatype NewUser = NewUser(
    username: string,
    email: Option<string>,
    password: string,
    phone: Option<string>,
    fullname: Option<string>,
    role: string)

  const InvalidOtp: string := "Invalid or expired OTP code."
  const NotValidated: string := "AttributeError: 'SignupSerializer' object has no attribute 'role'"

  function MissingKey(key: string): string
  {
    "KeyError: '" + key + "'"
  }

  /** A code that a sign-up may still use. */
  predicate Usable(otp: RoleOtp, code: string)
  {
    otp.code == code && !otp.isUsed
  }

  class OtpStore {
    var otps: map<nat, RoleOtp>

    /** Codes are unique, as the column declares. */
    predicate Valid()
      reads this
    {
      forall p, q :: p in otps && q in otps && otps[p].code == otps[q].code ==> p == q
    }

    constructor (otps: map<nat, RoleOtp>)
      ensures this.otps == otps
    {
      this.otps := otps;
    }

    /** Some stored code is `code` and unused. */
    predicate HasUsable(code: string)
      reads this
    {
      exists p :: p in otps && Usable(otps[p], code)
    }
  }

  class SignupSerializer {
    const store: OtpStore
    /** The primary key of the code validation matched (`self.role`), `None` before. */
    var role: Option<nat>

    constructor (store: OtpStore)
      ensures this.store == store && role == None
    {
      this.store := store;
      role := None;
    }

    /**
     * `validate_otp_code`: an unused stored code is remembered and the value kept; a code
     * that is not stored, or already used, is rejected and nothing is remembered.
     */
    method ValidateOtpCode(value: string) returns (r: Result<string>)
      requires store.Valid()
      modifies this
      ensures !store.HasUsable(value) ==> r == Err(InvalidOtp) && role == old(role)
      ensures store.HasUsable(value) ==>
                && r == Ok(value)
                && role.Some? && role.value in store.otps && Usable(store.otps[role.value], value)
    {
      if !store.HasUsable(value) {
        return Err(InvalidOtp);
      }
      var p :| p in store.otps && Usable(store.otps[p], value);
      role := Some(p);
      r := Ok(value);
    }

    /**
     * `create`: `otp_code` is popped (`KeyError` when absent), username and password are
     * read by key, email, phone and full name are optional; the user gets the role of the
     * remembered code, and that code is then marked used. Nothing is written on failure.
     */
    method Create(validated: map<string, string>) returns (r: Result<NewUser>)
      modifies store
      ensures "otp_code" !in validated ==> r == Err(MissingKey("otp_code"))
      ensures r.Ok? <==> "otp_code" in validated && "username" in validated && "password" in validated
                         && role.Some? && role.value in old(store.otps)
      ensures r.Ok? ==>
                && r.value == NewUser(validated["username"], Lookup(validated, "email"), validated["password"],
                                      Lookup(validated, "phone"), Lookup(validated, "fullname"),
                                      old(store.otps)[role.value].role)
                && store.otps == old(store.otps)[role.value := old(store.otps)[role.value].(isUsed := true)]
      ensures r.Err? ==> store.otps == old(store.otps)
    {
      if "otp_code" !in validated {
        return Err(MissingKey("otp_code"));
      }
      var data := validated - {"otp_code"};
      if "username" !in data {
        return Err(MissingKey("username"));
      }
      if "password" !in data {
        return Err(MissingKey("password"));
      }
      if role.None? || role.value !in store.otps {
        return Err(NotValidated);
      }
      var otp := store.otps[role.value];
      r := Ok(NewUser(data["username"], Lookup(data, "email"), data["password"],
                      Lookup(data, "phone"), Lookup(data, "fullname"), otp.role));
      store.otps := store.otps[role.value := otp.(isUsed := true)];
    }
  }

  /** `validated_data.get(key)`. */
  function Lookup(d: map<string, string>, key: string): (v: Option<string>)
    ensures v.Some? <==> key in d
    ensures v.Some? ==> v.value == d[key]
  {
    if key in d then Some(d[key]) else None
  }

  /** Marking one code used keeps the codes unique. */
  lemma MarkUsedKeepsValid(otps: map<nat, RoleOtp>, p: nat)
    requires p in otps
    requires forall a, b :: a in otps && b in otps && otps[a].code == otps[b].code ==> a == b
    ensures var after := otps[p := otps[p].(isUsed := true)];
            forall a, b :: a in after && b in after && after[a].code == after[b].code ==> a == b
  {
    var after := otps[p := otps[p].(isUsed := true)];
    forall a, b | a in after && b in after && after[a].code == after[b].code
      ensures a == b
    {
      assert after[a].code == otps[a].code && after[b].code == otps[b].code;
    }
  }

  /**
   * A full sign-up validates the code, then creates the user. A code signs up one user:
   * once a sign-up with it succeeds, a second sign-up with the same code is rejected.
   */
  method SignupTwice(store: OtpStore, code: string, first: map<string, string>)
    returns (r1: Result<NewUser>, r2: Result<string>)
    requires store.Valid()
    requires first.Keys >= {"otp_code", "username", "password"} && first["otp_code"] == code
    modifies store
    ensures store.Valid()
    ensures !old(store.HasUsable(code)) ==> r1 == Err(InvalidOtp) && store.otps == old(store.otps)
    ensures old(store.HasUsable(code)) ==> r1.Ok? && r2 == Err(InvalidOtp)
  {
    var s1 := new SignupSerializer(store);
    var v := s1.ValidateOtpCode(code);
    if v.Err? {
      return Err(v.error), v;
    }
    ghost var p := s1.role.value;
    ghost var before := store.otps;
    r1 := s1.Create(first);
    MarkUsedKeepsValid(before, p);
    var s2 := new SignupSerializer(store);
    r2 := s2.ValidateOtpCode(code);
  }

  /** The fields `SignupSerializer` writes out: the declared fields less the write-only ones. */
  const OutputFields: set<string> := {"username", "email", "phone", "fullname"}

  /** The serialized user: neither the password nor the code is ever written out. */
  function Output(u: NewUser): (out: map<string, Json>)
    ensures out.Keys == OutputFields
    ensures "password" !in out && "otp_code" !in out
    ensures out["username"] == JStr(u.username)
    ensures out["email"] == (if u.email.Some? then JStr(u.email.value) else JNull)
    ensures out["phone"] == (if u.phone.Some? then JStr(u.phone.value) else JNull)
    ensures out["fullname"] == (if u.fullname.Some? then JStr(u.fullname.value) else JNull)
  {
    map["username" := JStr(u.username),
        "email" := if u.email.Some? then JStr(u.email.value) else JNull,
        "phone" := if u.phone.Some? then JStr(u.phone.value) else JNull,
        "fullname" := if u.fullname.Some? then JStr(u.fullname.value) else JNull]
  }
}
