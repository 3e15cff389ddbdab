/**
 * The customer-address check: every required field must be present and
 * not `None`.  Empty strings and zeros pass; only `None` is refused.
 */
module HypotheticalService {
  import opened PyValues

  const REQUIRED_FIELDS: seq<string> :=
    ["id", "first_name", "last_name", "street", "postcode", "state", "country", "lat", "lon"]

  /** A field the check accepts: present and not `None`. */
  predicate IsSet(address: map<string, Json>, field: string)
  {
    field in address && address[field] != JNull
  }

  /** The loop over `fields`, returning false at the first missing or `None` field. */
  function AllFieldsSet(address: map<string, Json>, fields: seq<string>): (ok: bool)
    ensures ok <==> forall i :: 0 <= i < |fields| ==> IsSet(address, fields[i])
  {
    if fields == [] then true
    else if fields[0] !in address || address[fields[0]] == JNull then false
    else AllFieldsSet(address, fields[1..])
  }

  /** `validate_address`. */
  function ValidateAddress(address: map<string, Json>): (ok: bool)
    ensures ok <==> forall f :: f in REQUIRED_FIELDS ==> IsSet(address, f)
  {
    AllFieldsSet(address, REQUIRED_FIELDS)
  }

  /** A missing required field makes the address invalid. */
  lemma MissingFieldRejected(address: map<string, Json>, f: string)
    requires f in REQUIRED_FIELDS && f !in address
    ensures !ValidateAddress(address)
  {
  }

  /** A required field holding `None` makes the address invalid. */
  lemma NullFieldRejected(address: map<string, Json>, f: string)
    requires f in REQUIRED_FIELDS && f in address && address[f] == JNull
    ensures !ValidateAddress(address)
  {
  }

  /** Fields outside the nine never change the verdict. */
  lemma ExtraFieldIrrelevant(address: map<string, Json>, f: string, v: Json)
    requires f !in REQUIRED_FIELDS
    ensures ValidateAddress(address[f := v]) == ValidateAddress(address)
  {
    forall g | g in REQUIRED_FIELDS
      ensures IsSet(address[f := v], g) == IsSet(address, g)
    {
      assert g != f;
    }
  }

  /** The verdict depends only on the address restricted to the nine required keys. */
  lemma OnlyRequiredFieldsMatter(address: map<string, Json>)
    ensures ValidateAddress(address) ==
      ValidateAddress(map k | k in address && k in REQUIRED_FIELDS :: address[k])
  {
    var restricted := map k | k in address && k in REQUIRED_FIELDS :: address[k];
    forall g | g in REQUIRED_FIELDS
      ensures IsSet(restricted, g) == IsSet(address, g)
    {
    }
  }

  /** Despite "not empty" in its description, the check accepts empty strings and zeros. */
  lemma EmptyValuesAccepted(empty: Json)
    requires empty == JStr("") || empty == JNum(0)
    ensures ValidateAddress(map f | f in REQUIRED_FIELDS :: empty)
  {
  }
}
