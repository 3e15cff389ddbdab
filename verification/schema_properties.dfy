/**
 * What serial-number assignment promises: the updated hubs are exactly the
 * kept hubs in input order, each renumbered from the reversed table; the
 * first failing hub decides the exception; the result keeps the input and
 * its comment; and the combined entry point's error strings.
 */
module SchemaValidationProperties {
  import opened Wrappers
  import opened PyValues
  import opened SchemaValidation

  /** Reference filter: the hubs `validate_hubs` accepts, in input order. */
  function Kept(hubs: seq<Json>): (ks: seq<Json>)
    ensures |ks| <= |hubs|
    ensures forall h :: h in ks ==> h in hubs && IsKeptHub(h)
  {
    if hubs == [] then []
    else (if IsKeptHub(hubs[0]) then [hubs[0]] else []) + Kept(hubs[1..])
  }

  predicate AllKept(ks: seq<Json>)
  {
    forall i :: 0 <= i < |ks| ==> IsKeptHub(ks[i])
  }

  function RenumberAll(ks: seq<Json>): (rs: seq<Json>)
    requires AllKept(ks)
    ensures |rs| == |ks|
    ensures forall i :: 0 <= i < |ks| ==> rs[i] == Renumber(ks[i])
  {
    seq(|ks|, i requires 0 <= i < |ks| && AllKept(ks) => Renumber(ks[i]))
  }

  /** Every accepted hub of the input is in the filter's output. */
  lemma {:induction false} KeptComplete(hubs: seq<Json>, h: Json)
    requires h in hubs && IsKeptHub(h)
    ensures h in Kept(hubs)
  {
    if hubs[0] != h {
      assert h in hubs[1..];
      KeptComplete(hubs[1..], h);
    }
  }

  lemma KeptAllKept(hubs: seq<Json>)
    ensures AllKept(Kept(hubs))
  {
    var ks := Kept(hubs);
    forall i | 0 <= i < |ks|
      ensures IsKeptHub(ks[i])
    {
      assert ks[i] in ks;
    }
  }

  lemma RenumberAllCons(h: Json, ks: seq<Json>)
    requires IsKeptHub(h) && AllKept(ks)
    ensures AllKept([h] + ks)
    ensures RenumberAll([h] + ks) == [Renumber(h)] + RenumberAll(ks)
  {
    var hk := [h] + ks;
    forall i | 0 <= i < |hk|
      ensures IsKeptHub(hk[i])
    {
      if i > 0 {
        assert hk[i] == ks[i - 1];
      }
    }
    var l := RenumberAll(hk);
    var r := [Renumber(h)] + RenumberAll(ks);
    forall i | 0 <= i < |l|
      ensures l[i] == r[i]
    {
      if i > 0 {
        assert hk[i] == ks[i - 1];
      }
    }
  }

  /**
   * The loop succeeds exactly when no hub raises, and then it appends the
   * renumbered copies of exactly the accepted hubs, in input order.
   */
  lemma {:induction false} UpdatedHubsAreKept(hubs: seq<Json>)
    ensures UpdatedHubs(hubs).Success? <==> forall i :: 0 <= i < |hubs| ==> ValidateHub(hubs[i]).Success?
    ensures AllKept(Kept(hubs))
    ensures UpdatedHubs(hubs).Success? ==> UpdatedHubs(hubs).value == RenumberAll(Kept(hubs))
  {
    KeptAllKept(hubs);
    if hubs != [] {
      UpdatedHubsAreKept(hubs[1..]);
      KeptAllKept(hubs[1..]);
      assert forall i :: 0 < i < |hubs| ==> hubs[i] == hubs[1..][i - 1];
      var v := ValidateHub(hubs[0]);
      if v == Success(true) {
        RenumberAllCons(hubs[0], Kept(hubs[1..]));
      } else if v == Success(false) {
        assert Kept(hubs) == [] + Kept(hubs[1..]) == Kept(hubs[1..]);
        if UpdatedHubs(hubs[1..]).Success? {
          assert [] + UpdatedHubs(hubs[1..]).value == UpdatedHubs(hubs[1..]).value;
        }
      }
    }
  }

  /** When some hub raises, the loop stops there and the exception is that hub's. */
  lemma {:induction false} UpdatedHubsFirstError(hubs: seq<Json>, k: int)
    requires 0 <= k < |hubs| && ValidateHub(hubs[k]).Failure?
    requires forall j :: 0 <= j < k ==> ValidateHub(hubs[j]).Success?
    ensures UpdatedHubs(hubs) == Failure(ValidateHub(hubs[k]).error)
  {
    if k > 0 {
      assert hubs[1..][k - 1] == hubs[k];
      assert forall j :: 0 <= j < k - 1 ==> hubs[1..][j] == hubs[j + 1];
      UpdatedHubsFirstError(hubs[1..], k - 1);
    }
  }

  /** A kept hub's copy differs from it in `serial_number` at most. */
  lemma RenumberKeepsOtherFields(hub: Json, k: string)
    requires IsKeptHub(hub) && k != "serial_number"
    ensures Renumber(hub).JObj?
    ensures k in Renumber(hub).fields <==> k in hub.fields
    ensures k in hub.fields ==> Renumber(hub).fields[k] == hub.fields[k]
  {
  }

  /** The reversed table: `mn1` gets the last entry, `mn9` the first, and `mn0` none. */
  lemma SerialTableEnds()
    ensures SerialFor(1) == Some("C25CTW00000000001478")
    ensures SerialFor(9) == Some("C25CTW00000000001470")
    ensures SerialFor(0) == None
  {
  }

  /** For list-shaped input where no hub raises: the whole result, stated against the reference filter. */
  lemma AssignedFromList(data: Json, hubs: seq<Json>)
    requires data.JObj? && "Internet_hubs" in data.fields && data.fields["Internet_hubs"] == JArr(hubs)
    requires forall i :: 0 <= i < |hubs| ==> ValidateHub(hubs[i]).Success?
    ensures Assigned(data).Success?
    ensures AllKept(Kept(hubs))
    ensures var out := Assigned(data).value;
      out.JObj? && out.fields.Keys == {"original", "updated"} &&
      out.fields["original"] == data &&
      out.fields["updated"] == JObj(map[
        "comment" := if "comment" in data.fields then data.fields["comment"] else JStr(""),
        "Internet_hubs" := JArr(RenumberAll(Kept(hubs)))])
  {
    UpdatedHubsAreKept(hubs);
    assert LoopItems(JArr(hubs)) == Success(hubs);
    assert Assigned(data) == Success(Output(data, RenumberAll(Kept(hubs))));
    OutputParts(data, RenumberAll(Kept(hubs)));
  }

  lemma OutputParts(data: Json, updated: seq<Json>)
    requires data.JObj?
    ensures var out := Output(data, updated);
      out.JObj? && out.fields.Keys == {"original", "updated"} &&
      out.fields["original"] == data &&
      out.fields["updated"] == JObj(map[
        "comment" := if "comment" in data.fields then data.fields["comment"] else JStr(""),
        "Internet_hubs" := JArr(updated)])
  {
  }

  /** The exception raised when the input is not a dict or has no `Internet_hubs`. */
  lemma AssignedNeedsHubs(data: Json)
    ensures !data.JObj? ==> Assigned(data).Failure? && Assigned(data).error.TypeError?
    ensures data.JObj? && "Internet_hubs" !in data.fields ==> Assigned(data) == Failure(KeyError("Internet_hubs"))
  {
  }

  /** Subscripting a string hub with `"id"` raises the string-index TypeError. */
  lemma StringHubFails(s: string)
    ensures ValidateHub(JStr(s)) == Failure(TypeError(StrIndexError))
  {
  }

  /** A string or dict in place of the hub list is accepted only when empty. */
  lemma AssignedNonListHubs(data: Json)
    requires data.JObj? && "Internet_hubs" in data.fields
    requires data.fields["Internet_hubs"].JStr? || data.fields["Internet_hubs"].JObj?
    ensures var current := data.fields["Internet_hubs"];
      Assigned(data).Success? <==> (current.JStr? && current.s == []) || (current.JObj? && current.fields == map[])
    ensures var current := data.fields["Internet_hubs"];
      Assigned(data).Failure? ==> Assigned(data).error == TypeError(StrIndexError)
  {
    var current := data.fields["Internet_hubs"];
    if current.JStr? && current.s != [] {
      var cs := Chars(current.s);
      UpdatedHubsFirstError(cs, 0);
    }
  }

  /** The example hub `"mn12"`: only its third character counts, so it gets digit 1's serial number. */
  lemma OnlyThirdCharacterCounts()
    ensures var hub := JObj(map["id" := JStr("mn12"), "serial_number" := JStr("")]);
      ValidateHub(hub) == Success(true) &&
      Renumber(hub) == JObj(map["id" := JStr("mn12"), "serial_number" := JStr("C25CTW00000000001478")])
  {
    var id := "mn12";
    assert IsHubId(id) && DigitValue(id[2]) == 1;
    var hub := JObj(map["id" := JStr(id), "serial_number" := JStr("")]);
    assert hub.fields["serial_number" := JStr("C25CTW00000000001478")] ==
      map["id" := JStr(id), "serial_number" := JStr("C25CTW00000000001478")];
  }

  /** The first hub of the bundled data, `"men1"`, does not start with `"mn"` and is dropped. */
  lemma MenIsDropped()
    ensures ValidateHub(JObj(map["id" := JStr("men1")])) == Success(false)
  {
    var id := "men1";
    assert !IsHubId(id);
  }

  /** Either entry point answers a schema failure with a string, never the `{original, updated}` dict. */
  lemma SchemaFailureGivesString(data: Json, m: string)
    ensures ValidateAndAssign(data, Some(m)).JStr?
    ensures ValidateAndAssignIntended(data, Some(m)).JStr?
  {
  }

  /** With a schema the data satisfies, both entry points agree, and an exception becomes its prefixed message. */
  lemma ValidDataAssigned(data: Json)
    ensures ValidateAndAssign(data, None) == ValidateAndAssignIntended(data, None)
    ensures Assigned(data).Success? ==> ValidateAndAssign(data, None) == Assigned(data).value
    ensures Assigned(data).Failure? ==>
      ValidateAndAssign(data, None) == JStr(AssignFailurePrefix + Message(Assigned(data).error))
  {
  }

  /**
   * As written, a schema failure's message never reaches the caller: the
   * message string itself is subscripted with `"Internet_hubs"`, and the
   * caller sees only that TypeError, whatever the schema said.
   */
  lemma SchemaMessageLost(data: Json, m1: string, m2: string)
    ensures ValidateAndAssign(data, Some(m1)) == JStr(AssignFailurePrefix + StrIndexError)
    ensures ValidateAndAssign(data, Some(m1)) == ValidateAndAssign(data, Some(m2))
  {
  }

  /** The intended combination reports the schema's own message, so different messages stay different. */
  lemma {:induction false} IntendedKeepsSchemaMessage(data: Json, m1: string, m2: string)
    ensures ValidateAndAssignIntended(data, Some(m1)).JStr?
    ensures ValidateAndAssignIntended(data, Some(m1)).s == SchemaFailurePrefix + m1
    ensures m1 != m2 ==> ValidateAndAssignIntended(data, Some(m1)) != ValidateAndAssignIntended(data, Some(m2))
  {
    var r1 := ValidateAndAssignIntended(data, Some(m1));
    var r2 := ValidateAndAssignIntended(data, Some(m2));
    if r1 == r2 {
      assert (SchemaFailurePrefix + m1)[|SchemaFailurePrefix|..] == m1;
      assert (SchemaFailurePrefix + m2)[|SchemaFailurePrefix|..] == m2;
    }
  }
}
