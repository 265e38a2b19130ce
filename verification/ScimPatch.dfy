/** PATCH of a SCIM group. */
module ScimPatch {
  import opened Wrappers
  import Text

  // Operations are applied in order to a copy of the attributes, the result is normalised, and
  // nothing is written when that equals what was there.
  //
  // A path arrives parsed (or as the error of parsing it); the entries of a pathless value keep
  // their order.

  /** `Num` carries the number as JavaScript prints it. `Undefined` is a property that is present but undefined. */
  datatype Json =
    | Undefined
    | Null
    | Bool(b: bool)
    | Num(text: string)
    | Str(s: string)
    | Arr(items: seq<Json>)
    | Obj(fields: map<string, Json>)

  type Fields = map<string, Json>

  datatype Error = InvalidSyntax | InvalidValue | InvalidPath | NoTarget | Mutability | Internal

  datatype OpName = Add | Replace | Remove | Unsupported

  datatype Filter = Filter(attribute: string, value: string)

  datatype Path = Path(attribute: string, filter: Option<Filter>, sub: Option<string>)

  datatype Operation =
    | Malformed
    | Pathless(op: OpName, entries: Option<seq<(string, Json)>>)
    | Pathed(op: OpName, path: Result<Path, Error>, value: Option<Json>)

  datatype Body = Body(hasSchema: bool, operations: Option<seq<Operation>>)

  function Canonical(name: string): Option<string> {
    var lower := Text.Lower(name);
    if lower == "externalid" then Some("externalId")
    else if lower == "displayname" then Some("displayName")
    else if lower == "members" then Some("members")
    else None
  }

  function Names(): set<string> {
    {"displayName", "externalId", "members"}
  }

  // ---------- one attribute ----------

  predicate IsNullish(j: Json) {
    j.Null? || j.Undefined?
  }

  /** `item?.value` */
  function ValueOf(item: Json): Json {
    if item.Obj? && "value" in item.fields then item.fields["value"] else Undefined
  }

  function Joined(items: seq<Json>): string {
    if items == [] then ""
    else
      var first := if IsNullish(items[0]) then "" else StringOf(items[0]);
      first + if |items| > 1 then "," + Joined(items[1..]) else ""
  }

  /** `String(j)` */
  function StringOf(j: Json): string {
    match j
    case Undefined => "undefined"
    case Null => "null"
    case Bool(b) => if b then "true" else "false"
    case Num(text) => text
    case Str(s) => s
    case Arr(items) => Joined(items)
    case Obj(_) => "[object Object]"
  }

  /** Whether a `Set` built from other objects can hold this very value: objects are only equal to themselves. */
  predicate Primitive(j: Json) {
    !j.Arr? && !j.Obj?
  }

  function AsItems(value: Json): seq<Json> {
    if value.Arr? then value.items else [value]
  }

  function CurrentItems(r: Fields, attribute: string): seq<Json> {
    if attribute in r && r[attribute].Arr? then r[attribute].items else []
  }

  predicate Holds(items: seq<Json>, value: Json) {
    Primitive(value) && exists i :: 0 <= i < |items| && ValueOf(items[i]) == value
  }

  /** The additions whose value is not among the existing ones, or that have none. */
  function NewItems(existing: seq<Json>, additions: seq<Json>): seq<Json> {
    if additions == [] then []
    else
      var rest := NewItems(existing, additions[1..]);
      if IsNullish(ValueOf(additions[0])) || !Holds(existing, ValueOf(additions[0])) then [additions[0]] + rest
      else rest
  }

  function Retained(items: seq<Json>, value: string): seq<Json> {
    if items == [] then []
    else if StringOf(ValueOf(items[0])) != value then [items[0]] + Retained(items[1..], value)
    else Retained(items[1..], value)
  }

  function SetMulti(r: Fields, path: Path, op: OpName, value: Json): Result<Fields, Error> {
    var current := CurrentItems(r, path.attribute);
    if path.filter.Some? then
      var retained := Retained(current, path.filter.value.value);
      if Text.Lower(path.filter.value.attribute) != "value" || path.sub.Some? then Err(InvalidPath)
      else if |retained| == |current| && !op.Add? then Err(NoTarget)
      else Ok(r[path.attribute := Arr(if op.Remove? then retained else retained + AsItems(value))])
    else if path.sub.Some? then Err(InvalidPath)
    else if op.Remove? then if path.attribute in r then Ok(r - {path.attribute}) else Err(NoTarget)
    else if op.Add? then Ok(r[path.attribute := Arr(current + NewItems(current, AsItems(value)))])
    else Ok(r[path.attribute := Arr(AsItems(value))])
  }

  function SetSimple(r: Fields, path: Path, op: OpName, value: Json): Result<Fields, Error> {
    var a := path.attribute;
    if path.filter.Some? then Err(InvalidPath)
    else if path.sub.Some? then
      var sub := path.sub.value;
      if op.Remove? then
        if a in r && r[a].Obj? && sub in r[a].fields then Ok(r[a := Obj(r[a].fields - {sub})])
        else if a in r && r[a].Arr? && sub == "length" then Err(Internal)
        else Err(NoTarget)
      else Ok(r[a := Obj((if a in r && r[a].Obj? then r[a].fields else map[])[sub := value])])
    else if op.Remove? then if a in r then Ok(r - {a}) else Err(NoTarget)
    else Ok(r[a := value])
  }

  function SetAttribute(r: Fields, path: Path, op: OpName, value: Json): Result<Fields, Error> {
    if path.attribute == "members" then SetMulti(r, path, op, value) else SetSimple(r, path, op, value)
  }

  // ---------- the operations ----------

  function ApplyEntries(r: Fields, op: OpName, entries: seq<(string, Json)>): Result<Fields, Error>
    decreases |entries|
  {
    if entries == [] then Ok(r)
    else
      match Canonical(entries[0].0)
      case None => Err(InvalidPath)
      case Some(a) =>
        match SetAttribute(r, Path(a, None, None), op, entries[0].1)
        case Err(e) => Err(e)
        case Ok(next) => ApplyEntries(next, op, entries[1..])
  }

  function ApplyOne(r: Fields, o: Operation): Result<Fields, Error> {
    match o
    case Malformed => Err(InvalidValue)
    case Pathless(op, entries) =>
      if op.Unsupported? then Err(InvalidValue)
      else if op.Remove? then Err(NoTarget)
      else if entries.None? then Err(InvalidValue)
      else ApplyEntries(r, op, entries.value)
    case Pathed(op, path, value) =>
      if op.Unsupported? then Err(InvalidValue)
      else if path.Err? then Err(path.error)
      else if path.value.attribute !in Names() then Err(InvalidPath)
      else if !op.Remove? && value.None? then Err(InvalidValue)
      else SetAttribute(r, path.value, op, if value.Some? then value.value else Undefined)
  }

  function ApplyAll(r: Fields, ops: seq<Operation>): Result<Fields, Error>
    decreases |ops|
  {
    if ops == [] then Ok(r)
    else
      match ApplyOne(r, ops[0])
      case Err(e) => Err(e)
      case Ok(next) => ApplyAll(next, ops[1..])
  }

  function Apply(r: Fields, body: Body): Result<Fields, Error> {
    if !body.hasSchema then Err(InvalidSyntax)
    else if body.operations.None? || |body.operations.value| == 0 || |body.operations.value| > 100 then
      Err(InvalidValue)
    else ApplyAll(r, body.operations.value)
  }

  // ---------- the loop of the code ----------

  lemma {:induction false} ApplyAllStep(r: Fields, ops: seq<Operation>, i: nat)
    requires i < |ops|
    ensures ApplyAll(r, ops[..i + 1]) == match ApplyAll(r, ops[..i])
      case Err(e) => Err(e)
      case Ok(next) => ApplyOne(next, ops[i])
    decreases i
  {
    if i == 0 {
      assert ops[..1] == [ops[0]] && ops[..1][1..] == [] && ops[..0] == [];
    } else {
      assert ops[..i + 1][1..] == ops[1..][..i] && ops[..i][1..] == ops[1..][..i - 1];
      if ApplyOne(r, ops[0]).Ok? { ApplyAllStep(ApplyOne(r, ops[0]).value, ops[1..], i - 1); }
    }
  }

  lemma {:induction false} FailureEnds(r: Fields, ops: seq<Operation>, i: nat)
    requires i <= |ops| && ApplyAll(r, ops[..i]).Err?
    ensures ApplyAll(r, ops) == ApplyAll(r, ops[..i])
    decreases i
  {
    if i > 0 {
      assert ops[..i][1..] == ops[1..][..i - 1];
      if ApplyOne(r, ops[0]).Ok? { FailureEnds(ApplyOne(r, ops[0]).value, ops[1..], i - 1); }
    }
  }

  /** `apply`: one pass over the operations, each changing the copy in place, until one throws. */
  method ApplyOperations(resource: Fields, body: Body) returns (r: Result<Fields, Error>)
    ensures r == Apply(resource, body)
  {
    if !body.hasSchema { return Err(InvalidSyntax); }
    if body.operations.None? || |body.operations.value| == 0 || |body.operations.value| > 100 {
      return Err(InvalidValue);
    }
    var ops := body.operations.value;
    var next := resource;
    for i := 0 to |ops|
      invariant ApplyAll(resource, ops[..i]) == Ok(next)
    {
      ApplyAllStep(resource, ops, i);
      var step := ApplyOne(next, ops[i]);
      if step.Err? {
        FailureEnds(resource, ops, i + 1);
        return step;
      }
      next := step.value;
    }
    assert ops[..|ops|] == ops;
    return Ok(next);
  }

  // ---------- normalisation ----------

  predicate RequiredText(j: Json) {
    j.Str? && Text.Trim(j.s) != "" && |j.s| <= 256
  }

  function Member(value: string): Json {
    Obj(map["value" := Str(value), "type" := Str("User")])
  }

  /** One entry of `members`, given the values of the entries before it. */
  predicate MemberOk(entry: Json, seen: set<string>) {
    && entry.Obj?
    && RequiredText(ValueOf(entry)) && ValueOf(entry).s !in seen
    && ("type" in entry.fields && !IsNullish(entry.fields["type"]) ==>
      Text.Lower(StringOf(entry.fields["type"])) == "user")
  }

  function NormalMembers(entries: seq<Json>, seen: set<string>): Result<seq<Json>, Error> {
    if entries == [] then Ok([])
    else if !MemberOk(entries[0], seen) then Err(InvalidValue)
    else
      var value := ValueOf(entries[0]).s;
      match NormalMembers(entries[1..], seen + {value})
      case Err(e) => Err(e)
      case Ok(rest) => Ok([Member(value)] + rest)
  }

  function NormalExternalId(j: Json): Result<Json, Error> {
    if IsNullish(j) then Ok(Undefined)
    else if j.Str? && |j.s| <= 256 then Ok(j)
    else Err(InvalidValue)
  }

  const GROUP_SCHEMA := "urn:ietf:params:scim:schemas:core:2.0:Group"

  predicate SchemasFit(entries: seq<(string, Json)>) {
    forall e :: e in entries && e.0 == "schemas" && !IsNullish(e.1) ==> e.1.Arr? && Str(GROUP_SCHEMA) in e.1.items
  }

  /** The attributes of a body under their canonical names; of two names for one attribute the later counts. */
  function Canonicalized(entries: seq<(string, Json)>): (r: Result<Fields, Error>)
    ensures r.Ok? ==> r.value.Keys <= Names()
  {
    if entries == [] then Ok(map[])
    else
      match Canonicalized(entries[..|entries| - 1])
      case Err(e) => Err(e)
      case Ok(fields) =>
        var (name, value) := entries[|entries| - 1];
        var lower := Text.Lower(name);
        if lower == "schemas" then Ok(fields)
        else if lower in {"id", "meta", "groups"} then Err(Mutability)
        else if Canonical(name).None? then Err(InvalidValue)
        else Ok(fields[Canonical(name).value := value])
  }

  /** `normalizeGroup` of the entries of a body. */
  function NormalizeBody(entries: seq<(string, Json)>): Result<Fields, Error> {
    if !SchemasFit(entries) then Err(InvalidSyntax)
    else
      match Canonicalized(entries)
      case Err(e) => Err(e)
      case Ok(fields) => NormalizeGroup(fields)
  }

  /** The part of `normalizeGroup` after its names are canonical, as those of a patched group are. */
  function NormalizeGroup(r: Fields): Result<Fields, Error>
    requires r.Keys <= Names()
  {
    if "displayName" !in r || !RequiredText(r["displayName"]) then Err(InvalidValue)
    else
      var named: Fields := map["displayName" := Str(Text.Trim(r["displayName"].s))];
      var identified := if "externalId" !in r then Ok(named) else
        match NormalExternalId(r["externalId"])
        case Err(e) => Err(e)
        case Ok(id) => Ok(named["externalId" := id]);
      if identified.Err? then identified
      else if "members" !in r then Ok(identified.value["members" := Arr([])])
      else if !r["members"].Arr? then Err(InvalidValue)
      else
        match NormalMembers(r["members"].items, {})
        case Err(e) => Err(e)
        case Ok(items) => Ok(identified.value["members" := Arr(items)])
  }

  // ---------- normal attributes ----------

  lemma {:induction false} ApplyEntriesKeepsNames(r: Fields, op: OpName, entries: seq<(string, Json)>)
    requires r.Keys <= Names()
    ensures ApplyEntries(r, op, entries).Ok? ==> ApplyEntries(r, op, entries).value.Keys <= Names()
    decreases |entries|
  {
    if entries != [] && Canonical(entries[0].0).Some? {
      var set1 := SetAttribute(r, Path(Canonical(entries[0].0).value, None, None), op, entries[0].1);
      if set1.Ok? { ApplyEntriesKeepsNames(set1.value, op, entries[1..]); }
    }
  }

  lemma {:induction false} ApplyKeepsNames(r: Fields, ops: seq<Operation>)
    requires r.Keys <= Names()
    ensures ApplyAll(r, ops).Ok? ==> ApplyAll(r, ops).value.Keys <= Names()
    decreases |ops|
  {
    if ops != [] && ApplyOne(r, ops[0]).Ok? {
      if ops[0].Pathless? { ApplyEntriesKeepsNames(r, ops[0].op, ops[0].entries.value); }
      ApplyKeepsNames(ApplyOne(r, ops[0]).value, ops[1..]);
    }
  }

  /** What the router makes of a body: the attributes to store. */
  function Patched(attributes: Fields, body: Body): Result<Fields, Error>
    requires attributes.Keys <= Names()
  {
    match Apply(attributes, body)
    case Err(e) => Err(e)
    case Ok(next) =>
      ApplyKeepsNames(attributes, body.operations.value);
      NormalizeGroup(next)
  }

  /** The router writes, and so counts up the version, only when the attributes differ. */
  function PatchedRecord(attributes: Fields, version: nat, body: Body): Result<(Fields, nat), Error>
    requires attributes.Keys <= Names()
  {
    match Patched(attributes, body)
    case Err(e) => Err(e)
    case Ok(next) => Ok((next, if next == attributes then version else version + 1))
  }

  predicate Listed(entries: seq<Json>) {
    forall i :: 0 <= i < |entries| ==> entries[i].Obj? && RequiredText(ValueOf(entries[i]))
  }

  predicate DistinctValues(entries: seq<Json>, seen: set<string>) {
    && (forall i :: 0 <= i < |entries| ==> ValueOf(entries[i]).Str? && ValueOf(entries[i]).s !in seen)
    && (forall i, j :: 0 <= i < j < |entries| ==> ValueOf(entries[i]) != ValueOf(entries[j]))
  }

  predicate Normalised(items: seq<Json>, entries: seq<Json>) {
    && |items| == |entries|
    && forall i :: 0 <= i < |items| ==> ValueOf(entries[i]).Str? && items[i] == Member(ValueOf(entries[i]).s)
  }

  lemma {:induction false} NormalMembersAreDistinct(entries: seq<Json>, seen: set<string>)
    requires NormalMembers(entries, seen).Ok?
    ensures Listed(entries) && DistinctValues(entries, seen) && Normalised(NormalMembers(entries, seen).value, entries)
    decreases |entries|
  {
    if entries != [] {
      NormalMembersAreDistinct(entries[1..], seen + {ValueOf(entries[0]).s});
      assert forall i :: 0 < i < |entries| ==> entries[i] == entries[1..][i - 1];
    }
  }

  lemma MemberIsOk(value: string, seen: set<string>)
    requires RequiredText(Str(value)) && value !in seen
    ensures MemberOk(Member(value), seen) && ValueOf(Member(value)) == Str(value)
  {
    assert Member(value).fields["type"] == Str("User");
    assert Text.Lower("User") == "user";
  }

  lemma {:induction false} MembersStayNormal(items: seq<Json>, seen: set<string>)
    requires DistinctValues(items, seen) && Listed(items)
    requires forall i :: 0 <= i < |items| ==> items[i] == Member(ValueOf(items[i]).s)
    ensures NormalMembers(items, seen) == Ok(items)
    decreases |items|
  {
    if items != [] {
      MemberIsOk(ValueOf(items[0]).s, seen);
      assert forall i :: 0 <= i < |items[1..]| ==> items[1..][i] == items[i + 1];
      MembersStayNormal(items[1..], seen + {ValueOf(items[0]).s});
      assert items == [items[0]] + items[1..];
    }
  }

  ghost predicate Normal(attributes: Fields) {
    attributes.Keys <= Names() && NormalizeGroup(attributes) == Ok(attributes)
  }

  lemma NormalizedIsNormal(r: Fields)
    requires r.Keys <= Names() && NormalizeGroup(r).Ok?
    ensures Normal(NormalizeGroup(r).value)
  {
    var n := NormalizeGroup(r).value;
    Text.TrimSettles(r["displayName"].s);
    if "members" in r {
      NormalMembersAreDistinct(r["members"].items, {});
      var items := n["members"].items;
      forall i | 0 <= i < |items| ensures ValueOf(items[i]) == ValueOf(r["members"].items[i]) {
        MemberIsOk(ValueOf(r["members"].items[i]).s, {});
      }
      MembersStayNormal(items, {});
    }
  }

  /** Attributes in some order, each at least once. */
  ghost predicate ListingOf(entries: seq<(string, Json)>, r: Fields) {
    && (forall e :: e in entries ==> e.0 in r && e.1 == r[e.0])
    && (forall name :: name in r ==> (name, r[name]) in entries)
  }

  lemma CanonicalIsWritable(name: string)
    requires Canonical(name).Some?
    ensures Text.Lower(name) !in {"schemas", "id", "meta", "groups"}
  {
    assert "members"[0] != "schemas"[0];
  }

  lemma DisplayNameIsCanonical(name: string)
    requires name == "displayName"
    ensures Canonical(name) == Some(name)
  {
    Text.LowerIs(name, "displayname");
  }

  lemma ExternalIdIsCanonical(name: string)
    requires name == "externalId"
    ensures Canonical(name) == Some(name)
  {
    Text.LowerIs(name, "externalid");
  }

  lemma MembersIsCanonical(name: string)
    requires name == "members"
    ensures Canonical(name) == Some(name)
  {
    Text.LowerIs(name, "members");
  }

  lemma NamesAreCanonical(name: string)
    requires name in Names()
    ensures Canonical(name) == Some(name)
  {
    if name == "displayName" { DisplayNameIsCanonical(name); }
    else if name == "externalId" { ExternalIdIsCanonical(name); }
    else { MembersIsCanonical(name); }
  }

  function Those(r: Fields, entries: seq<(string, Json)>): Fields {
    map name | name in r && (name, r[name]) in entries :: r[name]
  }

  lemma OneMoreName(r: Fields, front: seq<(string, Json)>, name: string)
    requires name in r
    ensures Those(r, front + [(name, r[name])]) == Those(r, front)[name := r[name]]
  {
  }

  lemma {:induction false} CanonicalNamesStay(entries: seq<(string, Json)>, r: Fields)
    requires r.Keys <= Names() && forall e :: e in entries ==> e.0 in r && e.1 == r[e.0]
    ensures Canonicalized(entries) == Ok(Those(r, entries))
    decreases |entries|
  {
    if entries != [] {
      var front, last := entries[..|entries| - 1], entries[|entries| - 1];
      assert entries == front + [last] && last in entries;
      CanonicalNamesStay(front, r);
      NamesAreCanonical(last.0);
      CanonicalIsWritable(last.0);
      assert last == (last.0, r[last.0]);
      OneMoreName(r, front, last.0);
    }
  }

  /**
   Whatever body is normalised, under whatever spellings of its names: normalising the result
   again, its attributes in any order, changes nothing.
   */
  lemma NormalizingSettles(entries: seq<(string, Json)>, again: seq<(string, Json)>)
    requires NormalizeBody(entries).Ok? && ListingOf(again, NormalizeBody(entries).value)
    ensures Normal(NormalizeBody(entries).value)
    ensures NormalizeBody(again) == NormalizeBody(entries)
  {
    var n := NormalizeBody(entries).value;
    NormalizedIsNormal(Canonicalized(entries).value);
    CanonicalNamesStay(again, n);
    assert Those(n, again) == n;
    forall e | e in again ensures e.0 != "schemas" { assert e.0 in Names() && "members"[0] != "schemas"[0]; }
    assert NormalizeGroup(n) == Ok(n);
  }

  // ---------- adding members ----------

  predicate AddsMembers(o: Operation) {
    match o
    case Malformed => false
    case Pathless(op, entries) =>
      op.Add? && entries.Some? && forall e :: e in entries.value ==> Canonical(e.0) == Some("members")
    case Pathed(op, path, value) => op.Add? && value.Some? && path == Ok(Path("members", None, None))
  }

  function EntryValues(entries: seq<(string, Json)>): seq<Json> {
    if entries == [] then [] else [entries[0].1] + EntryValues(entries[1..])
  }

  /** The values added, in the order in which the operations add them. */
  function Added(ops: seq<Operation>): seq<Json>
    requires forall o :: o in ops ==> AddsMembers(o)
  {
    if ops == [] then []
    else
      assert AddsMembers(ops[0]);
      (if ops[0].Pathed? then [ops[0].value.value] else EntryValues(ops[0].entries.value)) + Added(ops[1..])
  }

  function AddAll(current: seq<Json>, values: seq<Json>): seq<Json>
    decreases |values|
  {
    if values == [] then current else AddAll(current + NewItems(current, AsItems(values[0])), values[1..])
  }

  function WithAdded(r: Fields, values: seq<Json>): Fields {
    if values == [] then r else r["members" := Arr(AddAll(CurrentItems(r, "members"), values))]
  }

  lemma WithAddedStep(r: Fields, value: Json, rest: seq<Json>)
    ensures WithAdded(WithAdded(r, [value]), rest) == WithAdded(r, [value] + rest)
  {
    var once := CurrentItems(r, "members") + NewItems(CurrentItems(r, "members"), AsItems(value));
    assert [value][1..] == [] && ([value] + rest)[1..] == rest;
    assert AddAll(CurrentItems(r, "members"), [value]) == once;
  }

  lemma {:induction false} WithAddedTwice(r: Fields, first: seq<Json>, rest: seq<Json>)
    ensures WithAdded(WithAdded(r, first), rest) == WithAdded(r, first + rest)
    decreases |first|
  {
    if first == [] { assert first + rest == rest; }
    else {
      var next := WithAdded(r, [first[0]]);
      WithAddedStep(r, first[0], first[1..]);
      assert [first[0]] + first[1..] == first;
      WithAddedTwice(next, first[1..], rest);
      WithAddedStep(r, first[0], first[1..] + rest);
      assert [first[0]] + (first[1..] + rest) == first + rest;
    }
  }

  lemma AddOneValue(r: Fields, value: Json)
    ensures SetAttribute(r, Path("members", None, None), Add, value) == Ok(WithAdded(r, [value]))
  {
    var once := CurrentItems(r, "members") + NewItems(CurrentItems(r, "members"), AsItems(value));
    assert [value][1..] == [];
    assert AddAll(CurrentItems(r, "members"), [value]) == once;
  }

  lemma {:induction false} EntriesAdd(r: Fields, entries: seq<(string, Json)>)
    requires forall e :: e in entries ==> Canonical(e.0) == Some("members")
    ensures ApplyEntries(r, Add, entries) == Ok(WithAdded(r, EntryValues(entries)))
    decreases |entries|
  {
    if entries != [] {
      assert entries[0] in entries;
      AddOneValue(r, entries[0].1);
      EntriesAdd(WithAdded(r, [entries[0].1]), entries[1..]);
      WithAddedStep(r, entries[0].1, EntryValues(entries[1..]));
    }
  }

  lemma {:induction false} AddsAreAFold(r: Fields, ops: seq<Operation>)
    requires forall o :: o in ops ==> AddsMembers(o)
    ensures ApplyAll(r, ops) == Ok(WithAdded(r, Added(ops)))
    decreases |ops|
  {
    if ops != [] {
      assert AddsMembers(ops[0]);
      var values := if ops[0].Pathed? then [ops[0].value.value] else EntryValues(ops[0].entries.value);
      if ops[0].Pathless? { EntriesAdd(r, ops[0].entries.value); }
      else { AddOneValue(r, ops[0].value.value); }
      assert ApplyOne(r, ops[0]) == Ok(WithAdded(r, values));
      AddsAreAFold(WithAdded(r, values), ops[1..]);
      WithAddedTwice(r, values, Added(ops[1..]));
    }
  }

  // ---------- what the fold keeps ----------

  predicate Covers(items: seq<Json>, additions: seq<Json>) {
    forall i :: 0 <= i < |additions| ==> Holds(items, ValueOf(additions[i]))
  }

  predicate CoversAll(items: seq<Json>, values: seq<Json>) {
    forall i :: 0 <= i < |values| ==> Covers(items, AsItems(values[i]))
  }

  lemma {:induction false} CoveredAdditionsAddNothing(items: seq<Json>, additions: seq<Json>)
    requires Covers(items, additions) && forall i :: 0 <= i < |items| ==> !IsNullish(ValueOf(items[i]))
    ensures NewItems(items, additions) == []
    decreases |additions|
  {
    if additions != [] {
      assert Holds(items, ValueOf(additions[0]));
      CoveredAdditionsAddNothing(items, additions[1..]);
    }
  }

  lemma {:induction false} CoveredValuesAddNothing(items: seq<Json>, values: seq<Json>)
    requires CoversAll(items, values) && forall i :: 0 <= i < |items| ==> !IsNullish(ValueOf(items[i]))
    ensures AddAll(items, values) == items
    decreases |values|
  {
    if values != [] {
      assert Covers(items, AsItems(values[0]));
      CoveredAdditionsAddNothing(items, AsItems(values[0]));
      assert items + [] == items;
      CoveredValuesAddNothing(items, values[1..]);
    }
  }

  lemma {:induction false} NewItemsCover(current: seq<Json>, additions: seq<Json>, final: seq<Json>)
    requires Listed(final) && current + NewItems(current, additions) <= final
    ensures Covers(final, additions)
    decreases |additions|
  {
    forall i | 0 <= i < |additions| ensures Holds(final, ValueOf(additions[i])) {
      NewOrHeld(current, additions, i);
      var next := current + NewItems(current, additions);
      assert forall k :: 0 <= k < |next| ==> next[k] == final[k];
      if Holds(current, ValueOf(additions[i])) {
        var k :| 0 <= k < |current| && ValueOf(current[k]) == ValueOf(additions[i]);
        assert next[k] == current[k];
        assert ValueOf(final[k]) == ValueOf(additions[i]);
      } else {
        var k :| 0 <= k < |NewItems(current, additions)| && NewItems(current, additions)[k] == additions[i];
        assert next[|current| + k] == additions[i];
        assert RequiredText(ValueOf(final[|current| + k]));
      }
    }
  }

  lemma {:induction false} NewOrHeld(current: seq<Json>, additions: seq<Json>, i: nat)
    requires i < |additions|
    ensures Holds(current, ValueOf(additions[i])) || additions[i] in NewItems(current, additions)
    decreases |additions|
  {
    if i > 0 { NewOrHeld(current, additions[1..], i - 1); }
  }

  lemma {:induction false} AddAllExtends(current: seq<Json>, values: seq<Json>)
    ensures current <= AddAll(current, values)
    decreases |values|
  {
    if values != [] { AddAllExtends(current + NewItems(current, AsItems(values[0])), values[1..]); }
  }

  /** When the result is a list of members at all, it holds every value that was added. */
  lemma {:induction false} AddAllCovers(current: seq<Json>, values: seq<Json>, final: seq<Json>)
    requires Listed(final) && AddAll(current, values) <= final
    ensures CoversAll(final, values)
    decreases |values|
  {
    if values != [] {
      var next := current + NewItems(current, AsItems(values[0]));
      AddAllExtends(next, values[1..]);
      NewItemsCover(current, AsItems(values[0]), final);
      AddAllCovers(next, values[1..], final);
      forall i | 0 <= i < |values| ensures Covers(final, AsItems(values[i])) {
        if i > 0 { assert values[i] == values[1..][i - 1]; }
      }
    }
  }

  predicate SameValues(a: seq<Json>, b: seq<Json>) {
    |a| == |b| && forall i :: 0 <= i < |a| ==> ValueOf(a[i]) == ValueOf(b[i])
  }

  lemma SameValuesCoverTheSame(a: seq<Json>, b: seq<Json>, values: seq<Json>)
    requires SameValues(a, b) && CoversAll(a, values)
    ensures CoversAll(b, values)
  {
    forall i | 0 <= i < |values| ensures Covers(b, AsItems(values[i])) {
      assert Covers(a, AsItems(values[i]));
      forall j | 0 <= j < |AsItems(values[i])| ensures Holds(b, ValueOf(AsItems(values[i])[j])) {
        assert Holds(a, ValueOf(AsItems(values[i])[j]));
        var k :| 0 <= k < |a| && ValueOf(a[k]) == ValueOf(AsItems(values[i])[j]);
        assert ValueOf(b[k]) == ValueOf(a[k]);
      }
    }
  }

  // ---------- adding members twice ----------

  predicate OnlyAddsMembers(body: Body) {
    body.operations.Some? && forall o :: o in body.operations.value ==> AddsMembers(o)
  }

  function MembersOf(attributes: Fields): seq<Json> {
    CurrentItems(attributes, "members")
  }

  predicate IsMember(attributes: Fields, value: string) {
    exists i :: 0 <= i < |MembersOf(attributes)| && ValueOf(MembersOf(attributes)[i]) == Str(value)
  }

  lemma PatchedIsNormal(attributes: Fields, body: Body)
    requires attributes.Keys <= Names() && Patched(attributes, body).Ok?
    ensures Normal(Patched(attributes, body).value)
  {
    ApplyKeepsNames(attributes, body.operations.value);
    NormalizedIsNormal(Apply(attributes, body).value);
  }

  /** A normal group's members are distinct users, each in its normal form. */
  lemma NormalMembersOf(attributes: Fields)
    requires Normal(attributes)
    ensures "members" in attributes && attributes["members"].Arr?
    ensures Listed(MembersOf(attributes)) && DistinctValues(MembersOf(attributes), {})
    ensures Normalised(MembersOf(attributes), MembersOf(attributes))
  {
    if "members" in attributes && attributes["members"].Arr? {
      NormalMembersAreDistinct(attributes["members"].items, {});
    }
  }

  /** The attributes after the operations and before they are normalised. */
  function Raw(attributes: Fields, body: Body): Fields
    requires OnlyAddsMembers(body)
  {
    WithAdded(attributes, Added(body.operations.value))
  }

  /** Other attributes are not touched, and the old members keep their places at the front. */
  lemma AddingKeepsTheRest(attributes: Fields, body: Body)
    requires Normal(attributes) && OnlyAddsMembers(body) && Patched(attributes, body).Ok?
    ensures var after := Patched(attributes, body).value;
      && after.Keys == attributes.Keys
      && (forall name :: name in attributes && name != "members" ==> after[name] == attributes[name])
      && MembersOf(attributes) <= MembersOf(after)
      && SameValues(MembersOf(Raw(attributes, body)), MembersOf(after))
      && Listed(MembersOf(Raw(attributes, body)))
      && CoversAll(MembersOf(after), Added(body.operations.value))
  {
    var values := Added(body.operations.value);
    AddsAreAFold(attributes, body.operations.value);
    NormalMembersOf(attributes);
    var raw := Raw(attributes, body);
    var after := Patched(attributes, body).value;
    AddAllExtends(MembersOf(attributes), values);
    NormalMembersAreDistinct(raw["members"].items, {});
    var source, now := MembersOf(raw), MembersOf(after);
    forall i | 0 <= i < |source| ensures ValueOf(now[i]) == ValueOf(source[i]) { MemberIsOk(ValueOf(source[i]).s, {}); }
    AddAllCovers(MembersOf(attributes), values, source);
    SameValuesCoverTheSame(source, now, values);
    forall i | 0 <= i < |MembersOf(attributes)| ensures now[i] == MembersOf(attributes)[i] {
      assert source[i] == MembersOf(attributes)[i];
    }
  }

  /** Where everything to add is there already, the same body changes nothing. */
  lemma CoveredPatchIsIdle(attributes: Fields, body: Body)
    requires Normal(attributes) && OnlyAddsMembers(body) &&
      CoversAll(MembersOf(attributes), Added(body.operations.value))
    requires body.hasSchema && 0 < |body.operations.value| <= 100
    ensures Patched(attributes, body) == Ok(attributes)
  {
    NormalMembersOf(attributes);
    CoveredValuesAddNothing(MembersOf(attributes), Added(body.operations.value));
    AddsAreAFold(attributes, body.operations.value);
    assert Raw(attributes, body) == attributes;
  }

  /**
   A PATCH that only adds members and succeeds leaves the other attributes alone, keeps the
   members it found in their order and all members distinct, has every value it adds among
   them, and a second application writes nothing: the version stays.
   */
  lemma AddingMembersTwiceIsOnce(attributes: Fields, version: nat, body: Body)
    requires Normal(attributes) && OnlyAddsMembers(body) && PatchedRecord(attributes, version, body).Ok?
    ensures var (after, next) := PatchedRecord(attributes, version, body).value;
      && after.Keys <= Names() && PatchedRecord(after, next, body) == Ok((after, next))
      && after.Keys == attributes.Keys
      && (forall name :: name in attributes && name != "members" ==> after[name] == attributes[name])
      && MembersOf(attributes) <= MembersOf(after)
      && DistinctValues(MembersOf(after), {})
      && CoversAll(MembersOf(after), Added(body.operations.value))
  {
    var after := Patched(attributes, body).value;
    AddingKeepsTheRest(attributes, body);
    PatchedIsNormal(attributes, body);
    NormalMembersOf(after);
    CoveredPatchIsIdle(after, body);
  }

  predicate AddsValue(values: seq<Json>, value: string) {
    exists i, item :: 0 <= i < |values| && item in AsItems(values[i]) && ValueOf(item) == Str(value)
  }

  /** And it adds nothing else: a member was there before or is one of the values added. */
  lemma OnlyAddedMembersAppear(attributes: Fields, body: Body, value: string)
    requires Normal(attributes) && OnlyAddsMembers(body) && Patched(attributes, body).Ok?
    requires IsMember(Patched(attributes, body).value, value)
    ensures IsMember(attributes, value) || AddsValue(Added(body.operations.value), value)
  {
    AddingKeepsTheRest(attributes, body);
    var now, source := MembersOf(Patched(attributes, body).value), MembersOf(Raw(attributes, body));
    var k :| 0 <= k < |now| && ValueOf(now[k]) == Str(value);
    assert ValueOf(source[k]) == Str(value);
    NormalMembersOf(attributes);
    RawItemHasSource(attributes, Added(body.operations.value), k, value);
  }

  lemma RawItemHasSource(attributes: Fields, values: seq<Json>, k: nat, value: string)
    requires k < |MembersOf(WithAdded(attributes, values))| &&
      ValueOf(MembersOf(WithAdded(attributes, values))[k]) == Str(value)
    ensures IsMember(attributes, value) || AddsValue(values, value)
  {
    if values != [] {
      AddAllComesFromSomewhere(MembersOf(attributes), values, k);
    }
  }

  lemma {:induction false} NewItemsAreAdditions(existing: seq<Json>, additions: seq<Json>, k: nat)
    requires k < |NewItems(existing, additions)|
    ensures NewItems(existing, additions)[k] in additions
    decreases |additions|
  {
    var rest := NewItems(existing, additions[1..]);
    if |rest| == |NewItems(existing, additions)| { NewItemsAreAdditions(existing, additions[1..], k); }
    else if k > 0 { NewItemsAreAdditions(existing, additions[1..], k - 1); }
  }

  lemma {:induction false} AddAllComesFromSomewhere(current: seq<Json>, values: seq<Json>, k: nat)
    requires k < |AddAll(current, values)|
    ensures || AddAll(current, values)[k] in current
            || exists i :: 0 <= i < |values| && AddAll(current, values)[k] in AsItems(values[i])
    decreases |values|
  {
    if values != [] {
      var extra := NewItems(current, AsItems(values[0]));
      AddAllComesFromSomewhere(current + extra, values[1..], k);
      var item := AddAll(current, values)[k];
      if item in current + extra && item !in current {
        var n :| 0 <= n < |extra| && extra[n] == item;
        NewItemsAreAdditions(current, AsItems(values[0]), n);
      } else if item !in current {
        var i :| 0 <= i < |values[1..]| && item in AsItems(values[1..][i]);
        assert values[i + 1] == values[1..][i];
      }
    }
  }
}
