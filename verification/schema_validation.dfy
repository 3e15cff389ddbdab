/**
 * Serial-number assignment for Internet hubs: the hub filter, the reversed
 * lookup table, the copy-and-overwrite loop, and the error strings of the
 * combined validate-then-assign entry point.  The JSON-schema check itself
 * is a library call and enters only as its verdict.
 */
module SchemaValidation {
  import opened Wrappers
  import opened Text
  import opened PyValues

  const SERIAL_NUMBER_RANGE: seq<string> := [
    "C25CTW00000000001470",
    "C25CTW00000000001471",
    "C25CTW00000000001472",
    "C25CTW00000000001473",
    "C25CTW00000000001474",
    "C25CTW00000000001475",
    "C25CTW00000000001476",
    "C25CTW00000000001477",
    "C25CTW00000000001478"
  ]

  /** `s[::-1]`. */
  function Reversed<T>(s: seq<T>): (r: seq<T>)
    ensures |r| == |s|
    ensures forall i :: 0 <= i < |s| ==> r[i] == s[|s| - 1 - i]
  {
    seq(|s|, i requires 0 <= i < |s| => s[|s| - 1 - i])
  }

  function StartsWith(s: string, prefix: string): bool
  {
    |prefix| <= |s| && s[..|prefix|] == prefix
  }

  /** The hub ids the filter keeps: `"mn"`, then a digit, then anything. */
  predicate IsHubId(id: string)
  {
    |id| >= 3 && id[0] == 'm' && id[1] == 'n' && IsDigit(id[2])
  }

  /** A hub the filter keeps: a dict whose `"id"` is a string of the shape above. */
  predicate IsKeptHub(hub: Json)
  {
    hub.JObj? && "id" in hub.fields && hub.fields["id"].JStr? && IsHubId(hub.fields["id"].s)
  }

  /**
   * `validate_hubs`: `hub["id"].startswith("mn") and hub["id"][2].isdigit()`,
   * with the exceptions each step raises.
   */
  function ValidateHub(hub: Json): (r: Result<bool, PyError>)
    ensures r == Success(true) <==> IsKeptHub(hub)
    ensures r.Failure? <==>
      !hub.JObj? || "id" !in hub.fields || !hub.fields["id"].JStr? || hub.fields["id"].s == "mn"
    ensures hub.JObj? && "id" in hub.fields && hub.fields["id"] == JStr("mn") ==>
      r == Failure(IndexError("string index out of range"))
  {
    match GetItem(hub, "id")
    case Failure(e) => Failure(e)
    case Success(id) =>
      if !id.JStr? then
        Failure(AttributeError("'" + TypeName(id) + "' object has no attribute 'startswith'"))
      else if !StartsWith(id.s, "mn") then
        Success(false)
      else if |id.s| <= 2 then
        Failure(IndexError("string index out of range"))
      else
        Success(IsDigit(id.s[2]))
  }

  /** `int(c)` for an ASCII digit. */
  function DigitValue(c: char): (d: int)
    requires IsDigit(c)
    ensures 0 <= d <= 9 && "0123456789"[d] == c
  {
    c as int - '0' as int
  }

  /** The serial number a kept hub with digit `d` receives, if the reversed table has index `d - 1`. */
  function SerialFor(d: int): (sn: Option<string>)
    ensures sn.Some? <==> 1 <= d <= 9
    ensures sn.Some? ==> sn.value == SERIAL_NUMBER_RANGE[9 - d]
  {
    var reversed := Reversed(SERIAL_NUMBER_RANGE);
    var index := d - 1;
    assert |reversed| == |SERIAL_NUMBER_RANGE| == 9;
    if 0 <= index < |reversed| then
      assert reversed[index] == SERIAL_NUMBER_RANGE[8 - index];
      Some(reversed[index])
    else None
  }

  /** The digit that decides a kept hub's serial number: the third character of its id only. */
  function HubDigit(hub: Json): (d: int)
    requires IsKeptHub(hub)
    ensures 0 <= d <= 9 && "0123456789"[d] == hub.fields["id"].s[2]
  {
    DigitValue(hub.fields["id"].s[2])
  }

  /** The copy of a kept hub, with its serial number overwritten when the table has an entry for it. */
  function Renumber(hub: Json): (h: Json)
    requires IsKeptHub(hub)
    ensures HubDigit(hub) == 0 ==> h == hub
    ensures 1 <= HubDigit(hub) <= 9 ==>
      h == JObj(hub.fields["serial_number" := JStr(SERIAL_NUMBER_RANGE[9 - HubDigit(hub)])])
  {
    match SerialFor(HubDigit(hub))
    case Some(sn) => JObj(hub.fields["serial_number" := JStr(sn)])
    case None => JObj(hub.fields)
  }

  /** `p + out` for a successful result; an error passes through. */
  function Prepend(p: seq<Json>, r: Result<seq<Json>, PyError>): Result<seq<Json>, PyError>
  {
    match r
    case Success(out) => Success(p + out)
    case Failure(e) => Failure(e)
  }

  lemma PrependAppend(a: seq<Json>, b: seq<Json>, r: Result<seq<Json>, PyError>)
    ensures Prepend(a, Prepend(b, r)) == Prepend(a + b, r)
  {
    if r.Success? {
      assert a + (b + r.value) == (a + b) + r.value;
    }
  }

  /** The hubs the loop appends, or the first exception `validate_hubs` raises. */
  function UpdatedHubs(hubs: seq<Json>): (r: Result<seq<Json>, PyError>)
    ensures r.Success? ==> |r.value| <= |hubs|
  {
    if hubs == [] then Success([])
    else
      match ValidateHub(hubs[0])
      case Failure(e) => Failure(e)
      case Success(keep) =>
        Prepend(if keep then [Renumber(hubs[0])] else [], UpdatedHubs(hubs[1..]))
  }

  /**
   * What `for hub in current_hubs` visits.  A list visits its items and a
   * string its one-character strings.  A dict visits its keys, which are
   * strings, so a non-empty one fails on its first key with the error that
   * subscripting a string raises (see `StringHubFails`), whatever the key
   * order; other values are not iterable.
   */
  function LoopItems(current: Json): (r: Result<seq<Json>, PyError>)
    ensures current.JArr? ==> r == Success(current.items)
    ensures current.JObj? ==> (r.Success? <==> current.fields == map[])
  {
    match current
    case JArr(items) => Success(items)
    case JStr(s) => Success(Chars(s))
    case JObj(m) => if m == map[] then Success([]) else Failure(TypeError(StrIndexError))
    case _ => Failure(TypeError("'" + TypeName(current) + "' object is not iterable"))
  }

  /** The `{"original", "updated"}` result built from the input and the updated hubs. */
  function Output(data: Json, updated: seq<Json>): Json
    requires data.JObj?
  {
    JObj(map[
      "original" := data,
      "updated" := JObj(map[
        "comment" := GetOrDefault(data.fields, "comment", JStr("")),
        "Internet_hubs" := JArr(updated)])])
  }

  /** `assign_serial_numbers(data)`: the result, or the exception it raises. */
  function Assigned(data: Json): (r: Result<Json, PyError>)
    ensures r.Success? ==> data.JObj? && "Internet_hubs" in data.fields
  {
    match GetItem(data, "Internet_hubs")
    case Failure(e) => Failure(e)
    case Success(current) =>
      match LoopItems(current)
      case Failure(e) => Failure(e)
      case Success(hubs) =>
        match UpdatedHubs(hubs)
        case Failure(e) => Failure(e)
        case Success(updated) => Success(Output(data, updated))
  }

  /** One turn of the loop: the hub at `i` either raises or contributes its copy, if kept. */
  lemma UpdatedHubsAt(hubs: seq<Json>, i: int)
    requires 0 <= i < |hubs|
    ensures ValidateHub(hubs[i]).Failure? ==> UpdatedHubs(hubs[i..]) == Failure(ValidateHub(hubs[i]).error)
    ensures ValidateHub(hubs[i]) == Success(true) ==>
      UpdatedHubs(hubs[i..]) == Prepend([Renumber(hubs[i])], UpdatedHubs(hubs[i + 1..]))
    ensures ValidateHub(hubs[i]) == Success(false) ==>
      UpdatedHubs(hubs[i..]) == Prepend([], UpdatedHubs(hubs[i + 1..]))
  {
    assert hubs[i..][0] == hubs[i] && hubs[i..][1..] == hubs[i + 1..];
  }

  /** The loop's copy-and-overwrite of a kept hub is `Renumber`. */
  lemma RenumberByIndex(hub: Json, reversed: seq<string>)
    requires IsKeptHub(hub) && reversed == Reversed(SERIAL_NUMBER_RANGE)
    ensures var index := DigitValue(hub.fields["id"].s[2]) - 1;
      Renumber(hub) ==
        if 0 <= index < |reversed| then JObj(hub.fields["serial_number" := JStr(reversed[index])])
        else JObj(hub.fields)
  {
  }

  /** The loop body for a kept hub: `hub.copy()`, then the serial number at `int(id[2]) - 1` if in range. */
  method CopyWithSerial(hub: Json, reversed: seq<string>) returns (copy: Json)
    requires IsKeptHub(hub) && reversed == Reversed(SERIAL_NUMBER_RANGE)
    ensures copy == Renumber(hub)
  {
    var fields := hub.fields;
    var index := DigitValue(fields["id"].s[2]) - 1;
    if 0 <= index < |reversed| {
      fields := fields["serial_number" := JStr(reversed[index])];
    }
    RenumberByIndex(hub, reversed);
    copy := JObj(fields);
  }

  /** `assign_serial_numbers`: one pass over the hubs, appending the renumbered copies. */
  method AssignSerialNumbers(validated: Json) returns (r: Result<Json, PyError>)
    ensures r == Assigned(validated)
  {
    var reversed := Reversed(SERIAL_NUMBER_RANGE);
    var updated: seq<Json> := [];
    var current := GetItem(validated, "Internet_hubs");
    if current.Failure? {
      return Failure(current.error);
    }
    var items := LoopItems(current.value);
    if items.Failure? {
      return Failure(items.error);
    }
    var hubs := items.value;
    var i := 0;
    ghost var all := UpdatedHubs(hubs);
    assert hubs[i..] == hubs;
    match all {
      case Success(out) => assert [] + out == out;
      case Failure(_) =>
    }
    while i < |hubs|
      invariant 0 <= i <= |hubs|
      invariant all == Prepend(updated, UpdatedHubs(hubs[i..]))
    {
      var hub := hubs[i];
      UpdatedHubsAt(hubs, i);
      var keep := ValidateHub(hub);
      if keep.Failure? {
        return Failure(keep.error);
      }
      if keep.value {
        var copy := CopyWithSerial(hub, reversed);
        assert UpdatedHubs(hubs[i..]) == Prepend([copy], UpdatedHubs(hubs[i + 1..]));
        PrependAppend(updated, [copy], UpdatedHubs(hubs[i + 1..]));
        updated := updated + [copy];
      } else {
        assert UpdatedHubs(hubs[i..]) == Prepend([], UpdatedHubs(hubs[i + 1..]));
        PrependAppend(updated, [], UpdatedHubs(hubs[i + 1..]));
        assert updated + [] == updated;
      }
      i := i + 1;
    }
    assert hubs[i..] == [];
    assert updated + [] == updated;
    r := Success(Output(validated, updated));
  }

  const SchemaFailurePrefix := "Invalid JSON schema: "

  /** `validate_serial_numbers`: the input when the schema accepts it, else the message string. */
  function ValidateSerialNumbers(data: Json, schemaError: Option<string>): (r: Json)
    ensures schemaError.None? ==> r == data
    ensures schemaError.Some? ==>
      r.JStr? && |r.s| >= |SchemaFailurePrefix| &&
      r.s[..|SchemaFailurePrefix|] == SchemaFailurePrefix && r.s[|SchemaFailurePrefix|..] == schemaError.value
  {
    match schemaError
    case None => data
    case Some(m) => JStr(SchemaFailurePrefix + m)
  }

  const AssignFailurePrefix := "Couldn't assign and validate serial numbers: "

  /** `validate_and_assign_serial_numbers` as written: the validator's output goes straight into the assignment. */
  function ValidateAndAssign(data: Json, schemaError: Option<string>): Json
  {
    match Assigned(ValidateSerialNumbers(data, schemaError))
    case Success(out) => out
    case Failure(e) => JStr(AssignFailurePrefix + Message(e))
  }

  /** The evidently intended combination: a schema failure is reported with its own message. */
  function ValidateAndAssignIntended(data: Json, schemaError: Option<string>): Json
  {
    match schemaError
    case Some(_) => ValidateSerialNumbers(data, schemaError)
    case None =>
      match Assigned(data)
      case Success(out) => out
      case Failure(e) => JStr(AssignFailurePrefix + Message(e))
  }
}
