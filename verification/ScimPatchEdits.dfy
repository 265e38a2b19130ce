/** What each PATCH operation does to a group. */
module ScimPatchEdits {
  import opened Wrappers
  import opened ScimPatch
  import Text

  // The members after an operation are those chosen from the list before it, in its order, and those
  // given; the other attributes are described by their values.

  // ---------- choosing members ----------

  /** The items to keep, in order. */
  function Chosen(items: seq<Json>, keep: Json -> bool): seq<Json> {
    if items == [] then []
    else
      var last := items[|items| - 1];
      Chosen(items[..|items| - 1], keep) + if keep(last) then [last] else []
  }

  function OtherValue(value: string): Json -> bool {
    item => StringOf(ValueOf(item)) != value
  }

  lemma {:induction false} ChosenCons(item: Json, rest: seq<Json>, keep: Json -> bool)
    ensures Chosen([item] + rest, keep) == (if keep(item) then [item] else []) + Chosen(rest, keep)
    decreases |rest|
  {
    var all := [item] + rest;
    if rest == [] {
      assert all[..0] == [] && Chosen(all[..0], keep) == [];
    } else {
      var front := rest[..|rest| - 1];
      assert all[..|all| - 1] == [item] + front && all[|all| - 1] == rest[|rest| - 1];
      ChosenCons(item, front, keep);
    }
  }

  lemma {:induction false} RetainedAreChosen(items: seq<Json>, value: string)
    ensures Retained(items, value) == Chosen(items, OtherValue(value))
  {
    if items != [] {
      RetainedAreChosen(items[1..], value);
      ChosenCons(items[0], items[1..], OtherValue(value));
      assert items == [items[0]] + items[1..];
    }
  }

  lemma {:induction false} ChoosingShortens(items: seq<Json>, value: string)
    ensures |Retained(items, value)| <= |items|
    ensures |Retained(items, value)| < |items| <==> Named(items, value)
  {
    if items != [] {
      ChoosingShortens(items[1..], value);
      NamedCons(items[0], items[1..], value);
      assert items == [items[0]] + items[1..];
    }
  }

  /** Some item has the value, as text. */
  predicate Named(items: seq<Json>, value: string) {
    exists i :: 0 <= i < |items| && StringOf(ValueOf(items[i])) == value
  }

  lemma NamedCons(item: Json, rest: seq<Json>, value: string)
    ensures Named([item] + rest, value) <==> StringOf(ValueOf(item)) == value || Named(rest, value)
  {
    var all := [item] + rest;
    assert all[0] == item && forall i :: 0 <= i < |rest| ==> all[i + 1] == rest[i];
  }

  /** An item to add that has no value, or one that no item there before has. Objects and arrays equal none. */
  ghost predicate IsNew(existing: seq<Json>, item: Json) {
    || ValueOf(item) == Null || ValueOf(item) == Undefined || ValueOf(item).Obj? || ValueOf(item).Arr?
    || forall i :: 0 <= i < |existing| ==> ValueOf(existing[i]) != ValueOf(item)
  }

  ghost function NewTo(existing: seq<Json>): Json -> bool {
    item => IsNew(existing, item)
  }

  lemma {:induction false} NewItemsAreChosen(existing: seq<Json>, additions: seq<Json>)
    ensures NewItems(existing, additions) == Chosen(additions, NewTo(existing))
    decreases |additions|
  {
    if additions != [] {
      NewItemsAreChosen(existing, additions[1..]);
      ChosenCons(additions[0], additions[1..], NewTo(existing));
      assert additions == [additions[0]] + additions[1..];
      assert NewTo(existing)(additions[0]) <==> IsNew(existing, additions[0]);
    }
  }

  // ---------- operations on members ----------

  /** The members of a group; anything but a list counts as none. */
  function Items(r: Fields): seq<Json> {
    if "members" in r && r["members"].Arr? then r["members"].items else []
  }

  function Given(value: Json): seq<Json> {
    match value
    case Arr(items) => items
    case _ => [value]
  }

  function Members(filter: Option<Filter>): Path {
    Path("members", filter, None)
  }

  /** Nothing but the one attribute differs. */
  predicate OnlySets(r: Fields, after: Fields, attribute: string) {
    after - {attribute} == r - {attribute}
  }

  /** A filtered path names the members by value; every other filter is refused. */
  lemma OtherFiltersAreRefused(r: Fields, op: OpName, path: Path, value: Json)
    requires !op.Unsupported? && path.attribute == "members"
    requires (path.filter.Some? && Text.Lower(path.filter.value.attribute) != "value") || path.sub.Some?
    ensures ApplyOne(r, Pathed(op, Ok(path), Some(value))) == Err(InvalidPath)
  {
  }

  /**
   Removing members by value leaves exactly the members with another value, in order, and fails with
   `noTarget` if and only if no member has it.
   */
  lemma FilteredRemoveLeavesTheOthers(r: Fields, filter: Filter, value: Option<Json>)
    requires Text.Lower(filter.attribute) == "value"
    ensures ApplyOne(r, Pathed(Remove, Ok(Members(Some(filter))), value)) ==
      if Named(Items(r), filter.value) then Ok(r["members" := Arr(Chosen(Items(r), OtherValue(filter.value)))])
      else Err(NoTarget)
  {
    RetainedAreChosen(Items(r), filter.value);
    ChoosingShortens(Items(r), filter.value);
  }

  /** Replacing or adding by value puts what is given behind those members; only a replacement needs one to match. */
  lemma FilteredSetAppends(r: Fields, op: OpName, filter: Filter, value: Json)
    requires Text.Lower(filter.attribute) == "value" && (op.Add? || op.Replace?)
    ensures ApplyOne(r, Pathed(op, Ok(Members(Some(filter))), Some(value))) ==
      if op.Add? || Named(Items(r), filter.value)
      then Ok(r["members" := Arr(Chosen(Items(r), OtherValue(filter.value)) + Given(value))])
      else Err(NoTarget)
  {
    RetainedAreChosen(Items(r), filter.value);
    ChoosingShortens(Items(r), filter.value);
  }

  /** Without a filter: `remove` drops the attribute, `replace` makes it what is given, `add` appends what is new. */
  lemma UnfilteredOperations(r: Fields, op: OpName, value: Json)
    requires !op.Unsupported?
    ensures ApplyOne(r, Pathed(op, Ok(Members(None)), Some(value))) ==
      match op
      case Remove => (if "members" in r then Ok(r - {"members"}) else Err(NoTarget))
      case Replace => Ok(r["members" := Arr(Given(value))])
      case _ => Ok(r["members" := Arr(Items(r) + Chosen(Given(value), NewTo(Items(r))))])
  {
    NewItemsAreChosen(Items(r), Given(value));
  }

  // ---------- operations on the other attributes ----------

  /** `displayName` and `externalId` are set to what is given, or removed; they take no filter. */
  lemma SimpleOperations(r: Fields, op: OpName, name: string, filter: Option<Filter>, value: Json)
    requires !op.Unsupported? && name in {"displayName", "externalId"}
    ensures ApplyOne(r, Pathed(op, Ok(Path(name, filter, None)), Some(value))) ==
      if filter.Some? then Err(InvalidPath)
      else if !op.Remove? then Ok(r[name := value])
      else if name in r then Ok(r - {name}) else Err(NoTarget)
  {
    assert "members" != "displayName" && "members" != "externalId" by {
      assert "members"[0] != "displayName"[0] && "members"[0] != "externalId"[0];
    }
  }

  /** A sub-attribute of theirs is a field of an object, made if need be. */
  lemma SubAttributeOperations(r: Fields, op: OpName, name: string, sub: string, value: Json)
    requires !op.Unsupported? && name in {"displayName", "externalId"}
    ensures var result := ApplyOne(r, Pathed(op, Ok(Path(name, None, Some(sub))), Some(value)));
      var isObject := name in r && r[name].Obj?;
      if !op.Remove? then
        && result.Ok? && OnlySets(r, result.value, name) && name in result.value && result.value[name].Obj?
        && sub in result.value[name].fields && result.value[name].fields[sub] == value
        && result.value[name].fields - {sub} == (if isObject then r[name].fields - {sub} else map[])
      else if isObject && sub in r[name].fields then
        && result.Ok? && OnlySets(r, result.value, name) && name in result.value
        && result.value[name] == Obj(r[name].fields - {sub})
      else result.Err? && (result.error == NoTarget || (name in r && r[name].Arr? && sub == "length"))
  {
    assert "members" != "displayName" && "members" != "externalId" by {
      assert "members"[0] != "displayName"[0] && "members"[0] != "externalId"[0];
    }
  }

  // ---------- whole bodies ----------

  /** What an operation is refused for before it looks at the group, in this order. */
  lemma MalformedOperationsAreRefused(r: Fields, op: OpName, path: Result<Path, Error>, value: Option<Json>,
                                      entries: Option<seq<(string, Json)>>)
    ensures ApplyOne(r, Malformed) == Err(InvalidValue)
    ensures op.Unsupported? ==>
      && ApplyOne(r, Pathed(op, path, value)) == Err(InvalidValue)
      && ApplyOne(r, Pathless(op, entries)) == Err(InvalidValue)
    ensures !op.Unsupported? && path.Err? ==> ApplyOne(r, Pathed(op, path, value)) == Err(path.error)
    ensures !op.Unsupported? && path.Ok? && path.value.attribute !in {"displayName", "externalId", "members"} ==>
      ApplyOne(r, Pathed(op, path, value)) == Err(InvalidPath)
    ensures (op.Add? || op.Replace?) && path.Ok? && path.value.attribute in {"displayName", "externalId", "members"} ==>
      ApplyOne(r, Pathed(op, path, None)) == Err(InvalidValue)
    ensures ApplyOne(r, Pathless(Remove, entries)) == Err(NoTarget)
    ensures (op.Add? || op.Replace?) && entries.None? ==> ApplyOne(r, Pathless(op, entries)) == Err(InvalidValue)
  {
  }

  lemma {:induction false} EntriesThen(r: Fields, op: OpName, front: seq<(string, Json)>, last: (string, Json))
    ensures ApplyEntries(r, op, front + [last]) == match ApplyEntries(r, op, front)
      case Err(e) => Err(e)
      case Ok(next) => ApplyEntries(next, op, [last])
    decreases |front|
  {
    if front == [] {
      assert front + [last] == [last];
    } else {
      assert (front + [last])[1..] == front[1..] + [last];
      match Canonical(front[0].0)
      case None =>
      case Some(a) =>
        var next := SetAttribute(r, Path(a, None, None), op, front[0].1);
        if next.Ok? { EntriesThen(next.value, op, front[1..], last); }
    }
  }

  /** Without a path the attributes of the value are set one after the other, each as if its name were the path. */
  lemma PathlessIsPathByPath(r: Fields, op: OpName, front: seq<(string, Json)>, last: (string, Json))
    requires op.Add? || op.Replace?
    ensures ApplyOne(r, Pathless(op, Some([]))) == Ok(r)
    ensures ApplyOne(r, Pathless(op, Some(front + [last]))) == match ApplyOne(r, Pathless(op, Some(front)))
      case Err(e) => Err(e)
      case Ok(next) =>
        if Canonical(last.0).None? then Err(InvalidPath)
        else ApplyOne(next, Pathed(op, Ok(Path(Canonical(last.0).value, None, None)), Some(last.1)))
  {
    EntriesThen(r, op, front, last);
    assert [last][1..] == [];
  }

  /** Attribute names are known in any letter case. */
  lemma NamesInAnyCase(name: string)
    ensures Canonical(name) == Some("displayName") <==> Text.Lower(name) == "displayname"
    ensures Canonical(name) == Some("externalId") <==> Text.Lower(name) == "externalid"
    ensures Canonical(name) == Some("members") <==> Text.Lower(name) == "members"
    ensures Canonical(name).Some? ==> Canonical(name).value in {"displayName", "externalId", "members"}
  {
    DifferentNames();
  }

  lemma DifferentNames()
    ensures "members" != "displayName" && "members" != "externalId" && "displayName" != "externalId"
    ensures "members" != "displayname" && "members" != "externalid" && "displayname" != "externalid"
  {
    assert "members"[0] != "displayName"[0] && "members"[0] != "externalId"[0] && "displayName"[0] != "externalId"[0];
    assert "members"[0] != "displayname"[0] && "members"[0] != "externalid"[0] && "displayname"[0] != "externalid"[0];
  }

  lemma OneOperation(r: Fields, ops: seq<Operation>)
    requires |ops| == 1
    ensures ApplyAll(r, ops) == ApplyOne(r, ops[0])
  {
    assert ops[1..] == [];
    if ApplyOne(r, ops[0]).Ok? { assert ApplyAll(ApplyOne(r, ops[0]).value, []) == ApplyOne(r, ops[0]); }
  }

  /** A body is refused without its schema, without a list of operations, and for none or more than a hundred. */
  lemma BodiesAreRefusedIff(r: Fields, body: Body)
    ensures !body.hasSchema ==> Apply(r, body) == Err(InvalidSyntax)
    ensures body.hasSchema && body.operations.None? ==> Apply(r, body) == Err(InvalidValue)
    ensures body.hasSchema && body.operations.Some? && !(1 <= |body.operations.value| <= 100) ==>
      Apply(r, body) == Err(InvalidValue)
    ensures body.hasSchema && body.operations.Some? && |body.operations.value| == 1 ==>
      Apply(r, body) == ApplyOne(r, body.operations.value[0])
  {
    if body.operations.Some? && |body.operations.value| == 1 {
      OneOperation(r, body.operations.value);
    }
  }

  /** The operations act one after the other, and the first error ends them. */
  lemma OperationsActInTurn(r: Fields, front: seq<Operation>, last: Operation)
    requires 0 < |front| < 100
    ensures Apply(r, Body(true, Some(front + [last]))) == match Apply(r, Body(true, Some(front)))
      case Err(e) => Err(e)
      case Ok(next) => Apply(next, Body(true, Some([last])))
  {
    var ops := front + [last];
    assert ops[..|front|] == front && ops[..|front| + 1] == ops && ops[|front|] == last;
    ApplyAllStep(r, ops, |front|);
    if ApplyAll(r, front).Ok? { OneOperation(ApplyAll(r, front).value, [last]); }
  }

  /** A value that is no text is compared by its text. */
  lemma TextsOfValues(s: string)
    ensures StringOf(Str(s)) == s && StringOf(Num(s)) == s
    ensures StringOf(Bool(true)) == "true" && StringOf(Bool(false)) == "false"
    ensures StringOf(Null) == "null" && StringOf(Undefined) == "undefined"
    ensures StringOf(Arr([])) == "" && StringOf(Arr([Null, Str(s), Undefined])) == "," + s + ","
    ensures StringOf(Obj(map["value" := Str(s)])) == "[object Object]"
  {
    var three := [Null, Str(s), Undefined];
    assert three[1..] == [Str(s), Undefined] && three[1..][1..] == [Undefined];
    assert Joined([Undefined]) == "";
    assert Joined([Str(s), Undefined]) == s + ("," + "");
  }

  // ---------- normalisation ----------

  /** Schemas that are given have to be a list with the one of groups in it. */
  lemma GroupSchemaIsDemanded(before: seq<(string, Json)>, value: Json, after: seq<(string, Json)>)
    requires value != Null && value != Undefined
    requires value.Arr? ==> Str("urn:ietf:params:scim:schemas:core:2.0:Group") !in value.items
    ensures NormalizeBody(before + [("schemas", value)] + after) == Err(InvalidSyntax)
  {
    assert ("schemas", value) in before + [("schemas", value)] + after;
  }

  /** With that list, or without one, it is the attributes that decide. */
  lemma GoodSchemasAreNotRefused(entries: seq<(string, Json)>)
    requires forall e :: e in entries && e.0 == "schemas" ==>
      || e.1 in {Null, Undefined}
      || (e.1.Arr? && Str("urn:ietf:params:scim:schemas:core:2.0:Group") in e.1.items)
    ensures NormalizeBody(entries) == match Canonicalized(entries)
      case Err(e) => Err(e)
      case Ok(fields) => NormalizeGroup(fields)
  {
  }

  /** Which attribute names a body may use, in any letter case. */
  lemma BodyNames(name: string, value: Json)
    ensures Canonicalized([(name, value)]) ==
      if Text.Lower(name) == "schemas" then Ok(map[])
      else if Text.Lower(name) in {"id", "meta", "groups"} then Err(Mutability)
      else if Text.Lower(name) == "displayname" then Ok(map["displayName" := value])
      else if Text.Lower(name) == "externalid" then Ok(map["externalId" := value])
      else if Text.Lower(name) == "members" then Ok(map["members" := value])
      else Err(InvalidValue)
  {
    DifferentNames();
    assert [(name, value)][..0] == [];
  }

  predicate NamesUser(entry: Json) {
    && entry.Obj? && "value" in entry.fields && entry.fields["value"].Str?
    && Text.Trim(entry.fields["value"].s) != "" && |entry.fields["value"].s| <= 256
    && ("type" in entry.fields && entry.fields["type"] != Null && entry.fields["type"] != Undefined ==>
          Text.Lower(StringOf(entry.fields["type"])) == "user")
  }

  predicate NameDistinctUsers(entries: seq<Json>) {
    && (forall i :: 0 <= i < |entries| ==> NamesUser(entries[i]))
    && (forall i, j :: 0 <= i < j < |entries| ==> ValueOf(entries[i]) != ValueOf(entries[j]))
  }

  lemma {:induction false} GoodMembersAreNormalised(entries: seq<Json>, seen: set<string>)
    requires NameDistinctUsers(entries) && forall i :: 0 <= i < |entries| ==> ValueOf(entries[i]).s !in seen
    ensures NormalMembers(entries, seen).Ok?
    decreases |entries|
  {
    if entries != [] {
      assert NamesUser(entries[0]) && MemberOk(entries[0], seen);
      var rest := entries[1..];
      assert forall i :: 0 <= i < |rest| ==> rest[i] == entries[i + 1];
      GoodMembersAreNormalised(rest, seen + {ValueOf(entries[0]).s});
    }
  }

  lemma {:induction false} NormalisedMembersAreGood(entries: seq<Json>, seen: set<string>)
    requires NormalMembers(entries, seen).Ok?
    ensures forall i :: 0 <= i < |entries| ==> NamesUser(entries[i])
    decreases |entries|
  {
    if entries != [] {
      assert MemberOk(entries[0], seen) && NamesUser(entries[0]);
      NormalisedMembersAreGood(entries[1..], seen + {ValueOf(entries[0]).s});
      forall i | 0 <= i < |entries| ensures NamesUser(entries[i]) {
        if i > 0 { assert entries[i] == entries[1..][i - 1]; }
      }
    }
  }

  lemma {:induction false} BadMembersAreInvalid(entries: seq<Json>, seen: set<string>)
    ensures NormalMembers(entries, seen).Err? ==> NormalMembers(entries, seen).error == InvalidValue
    decreases |entries|
  {
    if entries != [] && MemberOk(entries[0], seen) {
      BadMembersAreInvalid(entries[1..], seen + {ValueOf(entries[0]).s});
    }
  }

  /**
   A group is accepted exactly with a non-blank name, an external id that is text or null if it has
   one, and members that name distinct users; each of name and id has at most 256 characters. The
   name is trimmed, the id stays, and of each member the value stays, in order.
   */
  lemma GroupIsNormalisedIff(r: Fields)
    requires r.Keys <= Names()
    ensures NormalizeGroup(r).Ok? <==>
      && "displayName" in r && r["displayName"].Str?
      && Text.Trim(r["displayName"].s) != "" && |r["displayName"].s| <= 256
      && ("externalId" in r ==>
            r["externalId"] in {Null, Undefined} || (r["externalId"].Str? && |r["externalId"].s| <= 256))
      && ("members" in r ==> r["members"].Arr? && NameDistinctUsers(r["members"].items))
    ensures NormalizeGroup(r).Ok? ==>
      var n := NormalizeGroup(r).value;
      && n.Keys == r.Keys + {"members"}
      && n["displayName"] == Str(Text.Trim(r["displayName"].s))
      && ("externalId" in r ==> n["externalId"] == if r["externalId"].Str? then r["externalId"] else Undefined)
      && n["members"].Arr? && Normalised(n["members"].items, Items(r))
    ensures NormalizeGroup(r).Err? ==> NormalizeGroup(r).error == InvalidValue
  {
    DifferentNames();
    if "members" in r && r["members"].Arr? {
      var entries := r["members"].items;
      BadMembersAreInvalid(entries, {});
      if NormalMembers(entries, {}).Ok? {
        NormalMembersAreDistinct(entries, {});
        NormalisedMembersAreGood(entries, {});
      }
      if NameDistinctUsers(entries) { GoodMembersAreNormalised(entries, {}); }
    }
  }
}
