/** Properties of the schema-object builders that relate several builders:
    the dispatch order, the recursive collection of properties and members,
    and the `$ref` classification of the two parser snapshots. */
module SchemaLemmas {
  import opened Wrappers
  import opened Strings
  import opened YamlModel
  import opened SchemaNodes
  import opened SchemaBuilder

  /** The chain from builder `s` on gives builder `i`'s result when the
      builders from `s` up to `i` all return `Err` and builder `i` does not. */
  lemma {:induction false} DispatchFromPicks(y: Yaml, key: Option<string>, s: nat, i: nat)
    requires s <= i < BUILDER_COUNT
    requires !Attempt(y, key, i).Err?
    requires forall j :: s <= j < i ==> Attempt(y, key, j).Err?
    ensures DispatchFrom(y, key, s) == Attempt(y, key, i)
    decreases i - s
  {
    if s < i {
      assert Attempt(y, key, s).Err?;
      DispatchFromPicks(y, key, s + 1, i);
    }
  }

  /** The builder at position `i` decides the dispatch when every builder
      tried before it returned `Err` and it did not. */
  lemma DispatchFirstNonErrWins(y: Yaml, key: Option<string>, i: nat)
    requires i < BUILDER_COUNT
    requires !Attempt(y, key, i).Err?
    requires forall j :: 0 <= j < i ==> Attempt(y, key, j).Err?
    ensures BuildDataModel(y, key) == Attempt(y, key, i)
  {
    DispatchFromPicks(y, key, 0, i);
  }

  /** Whenever the object builder succeeds, the result is that object,
      whatever the later builders would give. */
  lemma ObjectWins(y: Yaml, key: Option<string>)
    requires BuildObject(y, key).Ok?
    ensures BuildDataModel(y, key) == Ok(ObjectModel(BuildObject(y, key).value))
  {
    assert Attempt(y, key, 0) == LiftObject(BuildObject(y, key));
  }

  /** A panic in a builder aborts the dispatch once every earlier builder
      has returned `Err`: panics are not recovered by the `or_else` chain. */
  lemma DispatchPanicPropagates(y: Yaml, key: Option<string>, i: nat)
    requires i < BUILDER_COUNT
    requires Attempt(y, key, i).Panic?
    requires forall j :: 0 <= j < i ==> Attempt(y, key, j).Err?
    ensures BuildDataModel(y, key).Panic?
    ensures BuildDataModel(y, key).reason == Attempt(y, key, i).reason
  {
    DispatchFromPicks(y, key, 0, i);
  }

  /** When the builders from `s` on all return `Err`, the chain ends with
      the last one's error. */
  lemma {:induction false} DispatchFromAllErr(y: Yaml, key: Option<string>, s: nat)
    requires s < BUILDER_COUNT
    requires forall j :: s <= j < BUILDER_COUNT ==> Attempt(y, key, j).Err?
    ensures DispatchFrom(y, key, s) == Attempt(y, key, BUILDER_COUNT - 1)
    decreases BUILDER_COUNT - s
  {
    assert Attempt(y, key, s).Err?;
    if s + 1 < BUILDER_COUNT {
      DispatchFromAllErr(y, key, s + 1);
    }
  }

  /** The last builder tried is the `$ref` builder. */
  lemma LastAttemptIsRef(y: Yaml, key: Option<string>)
    ensures Attempt(y, key, BUILDER_COUNT - 1) == LiftRef(BuildRef(y, key))
  {
  }

  /** When every builder returns `Err`, the dispatch gives the error of the
      last builder tried, the `$ref` builder. */
  lemma AllFailGivesRefError(y: Yaml, key: Option<string>)
    requires forall j :: 0 <= j < BUILDER_COUNT ==> Attempt(y, key, j).Err?
    ensures BuildDataModel(y, key) == LiftRef(BuildRef(y, key))
  {
    DispatchFromAllErr(y, key, 0);
    LastAttemptIsRef(y, key);
  }

  /** `Collect` stops at the first failure: when member `k` is the first
      that is not `Ok`, the collection fails exactly as it does. */
  lemma {:induction false} CollectStopsAtFirstFailure<T>(rs: seq<Result<T>>, k: int)
    requires FirstFailure(rs, k)
    ensures Collect(rs) == rs[k].PropagateFailure()
    decreases |rs|
  {
    if k > 0 {
      assert FirstFailure(rs[1..], k - 1) by {
        assert forall j :: 0 <= j < k - 1 ==> rs[1..][j] == rs[j + 1];
      }
      CollectStopsAtFirstFailure(rs[1..], k - 1);
      assert rs[1..][k - 1] == rs[k];
    }
  }

  /** The title of an object is the key hint, else its `title` entry; it
      never has both `example` and `x-examples`, and its example is the
      first of the two present. */
  lemma ObjectFields(y: Yaml, key: Option<string>)
    requires BuildObject(y, key).Ok?
    ensures BuildObject(y, key).value.title == key.Or(GetString(y.entries, "title"))
    ensures GetHash(y.entries, "example").None? || GetHash(y.entries, "x-examples").None?
    ensures BuildObject(y, key).value.example == GetHash(y.entries, "example").Or(GetHash(y.entries, "x-examples"))
  {
  }

  /** The properties of a built object are the collected properties with
      their `required` flags set from the `required` list. */
  lemma ObjectPropertiesCollected(y: Yaml, key: Option<string>)
    requires BuildObject(y, key).Ok?
    ensures var rs := Collect(PropertyResults(GetHash(y.entries, "properties").value));
      rs.Ok? && BuildObject(y, key).value.properties == WithRequiredFlags(rs.value, RequiredKeys(y.entries))
  {
  }

  /** A built property carries the entry's string key and the schema built
      from the entry's value with that key as hint; it starts optional. */
  lemma PropertyBuilt(e: Entry)
    requires BuildProperty(e).Ok?
    ensures var p := BuildProperty(e).value;
      e.key == Str(p.key) && BuildDataModel(e.value, Some(p.key)) == Ok(p.value) && !p.required
  {
  }

  /** Collecting the properties keeps the count and order of the map. */
  lemma CollectedProperties(ps: Mapping)
    requires Collect(PropertyResults(ps)).Ok?
    ensures var built := Collect(PropertyResults(ps)).value;
      |built| == |ps| &&
      forall j :: 0 <= j < |ps| ==>
        ps[j].key == Str(built[j].key) && BuildDataModel(ps[j].value, Some(built[j].key)) == Ok(built[j].value)
  {
    var rs := PropertyResults(ps);
    var built := Collect(rs).value;
    forall j | 0 <= j < |ps|
      ensures ps[j].key == Str(built[j].key) && BuildDataModel(ps[j].value, Some(built[j].key)) == Ok(built[j].value)
    {
      assert BuildProperty(ps[j]) == Ok(built[j]);
      PropertyBuilt(ps[j]);
    }
  }

  /** An object's properties: the count and order of the map, each value
      built with its own key as hint, `required` exactly for the names the
      `required` list holds. */
  lemma ObjectProperties(y: Yaml, key: Option<string>)
    requires BuildObject(y, key).Ok?
    ensures var ps := GetHash(y.entries, "properties").value;
      var props := BuildObject(y, key).value.properties;
      |props| == |ps| &&
      forall j :: 0 <= j < |ps| ==>
        ps[j].key == Str(props[j].key) &&
        BuildDataModel(ps[j].value, Some(props[j].key)) == Ok(props[j].value) &&
        (props[j].required <==> props[j].key in RequiredKeys(y.entries))
  {
    ObjectPropertiesCollected(y, key);
    CollectedProperties(GetHash(y.entries, "properties").value);
  }

  /** An object schema whose every other part is valid but that has both
      `example` and `x-examples` is rejected. */
  lemma ObjectExampleExclusive(y: Yaml, key: Option<string>)
    requires y.Hash? && GetHash(y.entries, "properties").Some?
    requires KeyCheck(OBJECT_KEYS, y.entries).Ok?
    requires Collect(PropertyResults(GetHash(y.entries, "properties").value)).Ok?
    requires GetHash(y.entries, "example").Some? && GetHash(y.entries, "x-examples").Some?
    ensures BuildObject(y, key) == Err("[ObjectNode::try_from] Expected only one of example or x-examples")
  {
  }

  /** A property of an object without the `required` list is optional. */
  lemma NoRequiredListMeansOptional(y: Yaml, key: Option<string>)
    requires BuildObject(y, key).Ok?
    requires GetVec(y.entries, "required").None?
    ensures forall j :: 0 <= j < |BuildObject(y, key).value.properties| ==>
      !BuildObject(y, key).value.properties[j].required
  {
    ObjectPropertiesCollected(y, key);
    assert RequiredKeys(y.entries) == {};
  }

  /** The array builder checks neither `type` nor the keys: with an `items`
      entry it succeeds exactly when the items schema does, built with the
      same hint. */
  lemma ArrayItemsWithSameHint(y: Yaml, key: Option<string>)
    requires y.Hash? && GetValue(y.entries, "items").Some?
    ensures BuildArray(y, key).Ok? <==> BuildDataModel(GetValue(y.entries, "items").value, key).Ok?
    ensures BuildArray(y, key).Ok? ==>
      Ok(BuildArray(y, key).value.items) == BuildDataModel(GetValue(y.entries, "items").value, key)
  {
  }

  /** A oneOf list keeps the count and order of its members, each built with
      the same hint, and one failing member fails the node. */
  lemma OneOfMembers(y: Yaml, key: Option<string>)
    requires y.Hash? && GetVec(y.entries, "oneOf").Some?
    ensures var items := GetVec(y.entries, "oneOf").value;
      (BuildOneOf(y, key).Ok? <==> forall j :: 0 <= j < |items| ==> BuildDataModel(items[j], key).Ok?) &&
      (BuildOneOf(y, key).Ok? ==> forall j :: 0 <= j < |items| ==>
        BuildDataModel(items[j], key) == Ok(BuildOneOf(y, key).value.items[j]))
  {
  }

  /** The allOf counterpart of `OneOfMembers`. */
  lemma AllOfMembers(y: Yaml, key: Option<string>)
    requires y.Hash? && GetVec(y.entries, "allOf").Some?
    ensures var items := GetVec(y.entries, "allOf").value;
      (BuildAllOf(y, key).Ok? <==> forall j :: 0 <= j < |items| ==> BuildDataModel(items[j], key).Ok?) &&
      (BuildAllOf(y, key).Ok? ==> forall j :: 0 <= j < |items| ==>
        BuildDataModel(items[j], key) == Ok(BuildAllOf(y, key).value.items[j]))
  {
  }

  /** The first failing oneOf member decides how the node fails. */
  lemma OneOfFirstFailingMember(y: Yaml, key: Option<string>, k: int)
    requires y.Hash? && GetVec(y.entries, "oneOf").Some?
    requires 0 <= k < |GetVec(y.entries, "oneOf").value|
    requires !BuildDataModel(GetVec(y.entries, "oneOf").value[k], key).Ok?
    requires forall j :: 0 <= j < k ==> BuildDataModel(GetVec(y.entries, "oneOf").value[j], key).Ok?
    ensures BuildOneOf(y, key) == BuildDataModel(GetVec(y.entries, "oneOf").value[k], key).PropagateFailure()
  {
    var items := GetVec(y.entries, "oneOf").value;
    CollectStopsAtFirstFailure(Members(items, key), k);
  }

  /** The first failing allOf member decides how the node fails. */
  lemma AllOfFirstFailingMember(y: Yaml, key: Option<string>, k: int)
    requires y.Hash? && GetVec(y.entries, "allOf").Some?
    requires 0 <= k < |GetVec(y.entries, "allOf").value|
    requires !BuildDataModel(GetVec(y.entries, "allOf").value[k], key).Ok?
    requires forall j :: 0 <= j < k ==> BuildDataModel(GetVec(y.entries, "allOf").value[j], key).Ok?
    ensures BuildAllOf(y, key) == BuildDataModel(GetVec(y.entries, "allOf").value[k], key).PropagateFailure()
  {
    var items := GetVec(y.entries, "allOf").value;
    CollectStopsAtFirstFailure(Members(items, key), k);
  }

  /** A map whose keys are all strings, one of them a key outside `allowed`,
      fails the key check with `Err`. */
  lemma KeyOutsideAllowedFails(allowed: seq<string>, h: Mapping, k: string)
    requires forall i :: 0 <= i < |h| ==> h[i].key.Str?
    requires GetValue(h, k).Some? && k !in allowed
    ensures KeyCheck(allowed, h).Err?
  {
    var i :| FirstWithKey(h, Str(k), i);
    assert !(h[i].key.Str? && h[i].key.str in allowed);
  }

  /** A schema with only string keys, one of which is `title`, is refused
      by the boolean builder: `title` is not an allowed boolean key. */
  lemma BooleanRejectsTitleKey(y: Yaml, key: Option<string>)
    requires y.Hash? && GetString(y.entries, "type") == Some("boolean")
    requires forall i :: 0 <= i < |y.entries| ==> y.entries[i].key.Str?
    requires GetValue(y.entries, "title").Some?
    ensures BuildBoolean(y, key).Err?
  {
    KeyOutsideAllowedFails(BOOLEAN_KEYS, y.entries, "title");
  }

  /** Likewise for the integer builder, whose allowed keys omit `title`. */
  lemma IntegerRejectsTitleKey(y: Yaml, key: Option<string>)
    requires y.Hash? && GetString(y.entries, "type") == Some("integer")
    requires forall i :: 0 <= i < |y.entries| ==> y.entries[i].key.Str?
    requires GetValue(y.entries, "title").Some?
    ensures BuildInteger(y, key).Err?
  {
    KeyOutsideAllowedFails(INTEGER_KEYS, y.entries, "title");
  }

  /** A built integer node takes its title from the key hint, else from the
      `title` entry, and has a format exactly when the schema names one. */
  lemma IntegerTitleAndFormat(y: Yaml, key: Option<string>)
    requires BuildInteger(y, key).Ok?
    ensures BuildInteger(y, key).value.title == key.Or(GetString(y.entries, "title"))
    ensures BuildInteger(y, key).value.format.Some? <==> GetString(y.entries, "format").Some?
  {
  }

  /** A built integer node has an enum exactly when the schema has one, and
      then it is the parsed integer enum. */
  lemma IntegerEnumField(y: Yaml, key: Option<string>)
    requires BuildInteger(y, key).Ok?
    ensures BuildInteger(y, key).value.integerEnum.Some? <==> GetValue(y.entries, "enum").Some?
    ensures BuildInteger(y, key).value.integerEnum.Some? ==>
      IntegerEnum(GetValue(y.entries, "enum").value) == Ok(BuildInteger(y, key).value.integerEnum.value)
  {
  }

  function RefSchema(path: string): Yaml {
    Hash([Entry(Str("$ref"), Str(path))])
  }

  /** A component name that does not contain the components prefix. */
  ghost predicate PlainName(name: string) {
    !EndsWith(name, ".yaml") && !Occurs(name, COMPONENT_PREFIX)
  }

  /** Putting the components prefix in front of a name that does not end in
      ".yaml" does not make it end in ".yaml": the prefix ends in '/'. */
  lemma PrefixedNameIsNotYaml(name: string)
    requires !EndsWith(name, ".yaml")
    ensures !EndsWith(COMPONENT_PREFIX + name, ".yaml")
  {
    var p := COMPONENT_PREFIX + name;
    if |name| >= 5 {
      assert p[|p| - 5..] == name[|name| - 5..];
    } else {
      var t := p[|p| - 5..];
      assert t[4 - |name|] == COMPONENT_PREFIX[|COMPONENT_PREFIX| - 1] == '/';
      assert ".yaml"[4 - |name|] != '/';
    }
  }

  /** A plain name, with or without the components prefix, names the same
      component; a ".yaml" path is kept as a file reference. */
  lemma RefNames(name: string, key: Option<string>)
    requires PlainName(name)
    ensures BuildRef(RefSchema(name), key) == Ok(ComponentRef(name))
    ensures BuildRef(RefSchema(COMPONENT_PREFIX + name), key) == Ok(ComponentRef(name))
    ensures BuildRef(RefSchema(name + ".yaml"), key) == Ok(FileRef(name + ".yaml"))
  {
    ReplaceAllAbsent(name, COMPONENT_PREFIX, "");
    ReplaceAllLeading(COMPONENT_PREFIX, name, "");
    assert "" + name == name;
    PrefixedNameIsNotYaml(name);
    assert EndsWith(name + ".yaml", ".yaml") by {
      assert (name + ".yaml")[|name|..] == ".yaml";
    }
  }

  /** The strings of the source's tests: "Tag" is a plain name, and
      "./tag.yaml" ends in ".yaml". */
  lemma TestStrings()
    ensures PlainName("Tag")
    ensures COMPONENT_PREFIX + "Tag" == "#/components/schemas/Tag"
    ensures EndsWith("./tag.yaml", ".yaml")
  {
    forall i ensures !OccursAt("Tag", COMPONENT_PREFIX, i) {}
    assert !EndsWith("Tag", ".yaml");
  }

  /** The cases of the source's tests. */
  lemma RefTestCases()
    ensures BuildRef(RefSchema("#/components/schemas/Tag"), None) == Ok(ComponentRef("Tag"))
    ensures BuildRef(RefSchema("Tag"), None) == Ok(ComponentRef("Tag"))
    ensures BuildRef(RefSchema("./tag.yaml"), None) == Ok(FileRef("./tag.yaml"))
  {
    TestStrings();
    RefNames("Tag", None);
  }

  /** The two snapshots agree on ".yaml" paths, on prefixed plain names and
      on plain names. */
  lemma RefSnapshotsAgree(name: string)
    requires PlainName(name)
    ensures var cli := BuildRefNodeCli(RefSchema(COMPONENT_PREFIX + name).entries);
      cli.Some? && cli.value == RefModel(BuildRef(RefSchema(COMPONENT_PREFIX + name), None).value)
    ensures var cli := BuildRefNodeCli(RefSchema(name).entries);
      cli.Some? && cli.value == RefModel(BuildRef(RefSchema(name), None).value)
    ensures var cli := BuildRefNodeCli(RefSchema(name + ".yaml").entries);
      cli.Some? && cli.value == RefModel(BuildRef(RefSchema(name + ".yaml"), None).value)
  {
    RefNames(name, None);
    assert StartsWith(COMPONENT_PREFIX + name, COMPONENT_PREFIX) by {
      assert (COMPONENT_PREFIX + name)[..|COMPONENT_PREFIX|] == COMPONENT_PREFIX;
    }
    ReplaceAllLeading(COMPONENT_PREFIX, name, "");
    ReplaceAllAbsent(name, COMPONENT_PREFIX, "");
  }

  /** The path with the components prefix in its middle. */
  const MID_PREFIX_PATH: string := "A#/components/schemas/B"

  /** Replacing every occurrence of the prefix in `MID_PREFIX_PATH` leaves
      "AB"; the path neither starts with the prefix nor ends in ".yaml". */
  lemma MidPrefixPath()
    ensures ReplaceAll(MID_PREFIX_PATH, COMPONENT_PREFIX, "") == "AB"
    ensures !StartsWith(MID_PREFIX_PATH, COMPONENT_PREFIX)
    ensures !EndsWith(MID_PREFIX_PATH, ".yaml")
  {
    var s := MID_PREFIX_PATH;
    assert s[1..] == COMPONENT_PREFIX + "B";
    assert s[..|COMPONENT_PREFIX|] != COMPONENT_PREFIX by {
      assert s[..|COMPONENT_PREFIX|][0] == 'A' != COMPONENT_PREFIX[0];
    }
    ReplaceAllLeading(COMPONENT_PREFIX, "B", "");
    assert ReplaceAll("B", COMPONENT_PREFIX, "") == "B";
    assert ReplaceAll(s, COMPONENT_PREFIX, "") == "A" + ReplaceAll(s[1..], COMPONENT_PREFIX, "");
    assert s[|s| - 5..][4] == 'B';
  }

  /** Where the snapshots differ: a prefix in the middle of the path is
      removed by the newer builder but kept by the command-line one. */
  lemma RefSnapshotsDiffer()
    ensures BuildRef(RefSchema(MID_PREFIX_PATH), None) == Ok(ComponentRef("AB"))
    ensures BuildRefNodeCli(RefSchema(MID_PREFIX_PATH).entries) ==
      Some(RefModel(ComponentRef(MID_PREFIX_PATH)))
  {
    MidPrefixPath();
  }
}
