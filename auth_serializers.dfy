/**
 * The authapp's `RegisterSerializer.create`: the submitted full name is split at its first
 * space into a first and a last name, the phone number is accepted and dropped, and the
 * user is created from the username, email and password as submitted.
 *
 * The validated data holds the submitted text fields by name.
 */
module AuthSerializers {
  import opened Wrappers

  /** The position of the first space in `s`, or `|s|` when there is none. */
  function FirstSpace(s: string): (i: nat)
    ensures i <= |s|
    ensures forall j :: 0 <= j < i ==> s[j] != ' '
    ensures i < |s| ==> s[i] == ' '
    ensures i == |s| <==> ' ' !in s
  {
    if |s| == 0 then 0
    else if s[0] == ' ' then 0
    else 1 + FirstSpace(s[1..])
  }

  /** `fullname.split(' ', 1)` when the name holds a space, else the whole name and "". */
  function SplitFullName(full: string): (names: (string, string))
    ensures ' ' !in names.0
    ensures ' ' in full ==> names.0 + " " + names.1 == full
    ensures ' ' !in full ==> names == (full, "")
  {
    var i := FirstSpace(full);
    if i < |full| then
      assert full[..i] + " " + full[i + 1..] == full;
      (full[..i], full[i + 1..])
    else (full, "")
  }

  /**
   * The split is the only way to read the name as a space-free first name, one space and a
   * last name: the last name keeps any further spaces.
   */
  lemma SplitUnique(full: string, first: string, last: string)
    requires ' ' !in first && first + " " + last == full
    ensures SplitFullName(full) == (first, last)
  {
    var i := FirstSpace(full);
    assert full[|first|] == ' ';
    assert i == |first|;
    assert full[..i] == first;
    assert full[i + 1..] == last;
  }

  /** A name with no space is all first name; an empty name gives two empty names. */
  lemma SplitWithoutSpace()
    ensures SplitFullName("") == ("", "")
    ensures SplitFullName("Ada") == ("Ada", "")
    ensures SplitFullName("Ada King Lovelace") == ("Ada", "King Lovelace")
  {
    SplitUnique("Ada King Lovelace", "Ada", "King Lovelace");
  }

  /** The arguments `create_user` receives. */
  datatype NewUser = NewUser(username: string, email: string, password: string, firstName: string, lastName: string)

  function MissingKey(key: string): string
  {
    "KeyError: '" + key + "'"
  }

  /**
   * `create`: the full name (default "") and the phone (default "") are popped; username,
   * email and password are read by key, and a missing one raises `KeyError`.
   */
  function Create(validated: map<string, string>): (r: Result<NewUser>)
    ensures r.Ok? <==> "username" in validated && "email" in validated && "password" in validated
    ensures "username" !in validated ==> r == Err(MissingKey("username"))
    ensures r.Ok? ==> r.value.username == validated["username"] && r.value.email == validated["email"]
                      && r.value.password == validated["password"]
    ensures r.Ok? ==> (r.value.firstName, r.value.lastName)
                      == SplitFullName(if "fullname" in validated then validated["fullname"] else "")
  {
    var fullname := if "fullname" in validated then validated["fullname"] else "";
    var rest := validated - {"fullname", "phone"};
    var (first, last) := SplitFullName(fullname);
    if "username" !in rest then Err(MissingKey("username"))
    else if "email" !in rest then Err(MissingKey("email"))
    else if "password" !in rest then Err(MissingKey("password"))
    else Ok(NewUser(rest["username"], rest["email"], rest["password"], first, last))
  }

  /** The phone number has no effect on the user created. */
  lemma PhoneDiscarded(validated: map<string, string>, phone: string)
    ensures Create(validated["phone" := phone]) == Create(validated - {"phone"})
  {
    var a := validated["phone" := phone];
    var b := validated - {"phone"};
    assert a - {"fullname", "phone"} == b - {"fullname", "phone"};
    assert ("fullname" in a) == ("fullname" in b);
    if "fullname" in a {
      assert a["fullname"] == b["fullname"];
    }
  }

  /** Without a full name the user has empty first and last names. */
  lemma NoFullName(validated: map<string, string>)
    requires "fullname" !in validated
    requires Create(validated).Ok?
    ensures Create(validated).value.firstName == "" && Create(validated).value.lastName == ""
  {
    assert SplitFullName("") == ("", "");
  }
}
