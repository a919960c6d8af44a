/**
 * The franchise app's sequential ids and column defaults.
 *
 * A new franchise id is "BF" followed by the number after the first two characters of the
 * last franchise's id, plus one, written with at least four digits; a new branch id is "BFb"
 * followed by the number after the first three characters of the last branch's id, plus one.
 * The last row is an input: `None` when the table is empty.
 */
module FranchiseModels {
  import opened Wrappers
  import opened Json
  import DecimalText

  const FranchisePrefix: string := "BF"
  const BranchPrefix: string := "BFb"

  /** `int(text)` failed: the suffix of the last id is not an integer literal. */
  const NotAnInteger: string := "ValueError: invalid literal for int() with base 10"

  /** `text[k:]`: the characters after the first `k`, empty when there are not that many. */
  function DropPrefix(text: string, k: nat): (r: string)
    ensures |text| >= k ==> r == text[k..]
    ensures |text| < k ==> r == ""
  {
    if |text| >= k then text[k..] else ""
  }

  /** `int(last[k:]) + 1 if last else 1`. */
  function NextNumber(last: Option<string>, k: nat): (r: Result<int>)
    ensures last.None? ==> r == Ok(1)
    ensures last.Some? ==>
              match DecimalText.ParseInt(DropPrefix(last.value, k))
              case Some(n) => r == Ok(n + 1)
              case None => r == Err(NotAnInteger)
  {
    match last
    case None => Ok(1)
    case Some(id) =>
      match DecimalText.ParseInt(DropPrefix(id, k))
      case Some(n) => Ok(n + 1)
      case None => Err(NotAnInteger)
  }

  /** `f"BF{number:04d}"`. */
  function FranchiseId(number: int): string
  {
    FranchisePrefix + DecimalText.FormatInt(number, 4)
  }

  /** `f"BFb{number:04d}"`. */
  function BranchId(number: int): string
  {
    BranchPrefix + DecimalText.FormatInt(number, 4)
  }

  /** `generate_franchise_id`. */
  function GenerateFranchiseId(last: Option<string>): (r: Result<string>)
    ensures NextNumber(last, 2).Ok? <==> r.Ok?
    ensures r.Ok? ==> r.value == FranchiseId(NextNumber(last, 2).value)
  {
    match NextNumber(last, 2)
    case Ok(n) => Ok(FranchiseId(n))
    case Err(e) => Err(e)
  }

  /** `generate_branch_id`. */
  function GenerateBranchId(last: Option<string>): (r: Result<string>)
    ensures NextNumber(last, 3).Ok? <==> r.Ok?
    ensures r.Ok? ==> r.value == BranchId(NextNumber(last, 3).value)
  {
    match NextNumber(last, 3)
    case Ok(n) => Ok(BranchId(n))
    case Err(e) => Err(e)
  }

  /** The first franchise is "BF0001" and the first branch "BFb0001". */
  lemma FirstIds()
    ensures GenerateFranchiseId(None) == Ok("BF0001")
    ensures GenerateBranchId(None) == Ok("BFb0001")
  {
    assert DecimalText.DigitChar(1) == '1';
    assert DecimalText.NatToString(1) == "1";
    var z := DecimalText.Zeros(3);
    assert z[0] == '0' && z[1] == '0' && z[2] == '0';
    assert z == "000";
    assert DecimalText.FormatInt(1, 4) == "0001";
    assert FranchiseId(1) == "BF0001" && BranchId(1) == "BFb0001";
  }

  /**
   * Every id is read back by the generator's own slicing: dropping the prefix and parsing
   * the rest gives the number it was made from, for every integer (a negative number
   * keeps its sign in front of the padding, as `%04d` writes it).
   */
  lemma IdRoundTrip(n: int)
    ensures DecimalText.ParseInt(DropPrefix(FranchiseId(n), 2)) == Some(n)
    ensures DecimalText.ParseInt(DropPrefix(BranchId(n), 3)) == Some(n)
  {
    assert DropPrefix(FranchiseId(n), 2) == DecimalText.FormatInt(n, 4);
    assert DropPrefix(BranchId(n), 3) == DecimalText.FormatInt(n, 4);
    DecimalText.FormatIntRoundTrip(n, 4);
  }

  /** The generator counts: after the id of number `n` comes the id of number `n + 1`. */
  lemma NextIdFollows(n: int)
    ensures GenerateFranchiseId(Some(FranchiseId(n))) == Ok(FranchiseId(n + 1))
    ensures GenerateBranchId(Some(BranchId(n))) == Ok(BranchId(n + 1))
  {
    IdRoundTrip(n);
  }

  /** Different numbers give different ids, so the counter never repeats an id. */
  lemma IdsInjective(m: int, n: int)
    ensures FranchiseId(m) == FranchiseId(n) ==> m == n
    ensures BranchId(m) == BranchId(n) ==> m == n
  {
    IdRoundTrip(m);
    IdRoundTrip(n);
  }

  /** A non-negative number is written as "BF" and at least four decimal digits. */
  lemma FranchiseIdShape(n: nat)
    ensures FranchiseId(n)[..2] == "BF" && DecimalText.IsDigitString(FranchiseId(n)[2..])
    ensures |FranchiseId(n)| >= 6 && |BranchId(n)| >= 7
  {
    DecimalText.FormatNatShape(n, 4);
    assert FranchiseId(n)[2..] == DecimalText.FormatInt(n, 4);
  }

  // ---- column defaults -------------------------------------------------------------------

  /** Defaults of a new franchise row other than its id. */
  const FranchiseDefaults: map<string, Json> := map["overall_rating" := JStr("0.0"), "status" := JStr("Active")]

  /** Defaults of a new branch row other than its id. */
  const BranchDefaults: map<string, Json> := map["rating" := JStr("0.0"), "status" := JStr("Open")]

  /**
   * `Model.objects.create(**given)`: a given column takes the given value, any other column
   * with a default takes the default.
   */
  function WithDefaults(defaults: map<string, Json>, given: map<string, Json>): (row: map<string, Json>)
    ensures row.Keys == defaults.Keys + given.Keys
    ensures forall k :: k in given ==> row[k] == given[k]
    ensures forall k :: k in defaults && k !in given ==> row[k] == defaults[k]
  {
    defaults + given
  }

  /** A franchise created without a status is "Active"; a branch is "Open". */
  lemma DefaultStatuses(given: map<string, Json>)
    requires "status" !in given
    ensures WithDefaults(FranchiseDefaults, given)["status"] == JStr("Active")
    ensures WithDefaults(BranchDefaults, given)["status"] == JStr("Open")
  {
  }
}
