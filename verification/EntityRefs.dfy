/** The world entities that messages and tool schemas refer to (roboagent/context/world.py:32-127). */
module EntityRefs {
  import opened Basics
  import opened Messages

  /** A tool as the context sees it: its name and its input schema. */
  datatype Tool = Tool(name: string, schema: seq<Member>)

  /** Where an object has a key, or -1. */
  function IndexOf(members: seq<Member>, key: string): (i: int)
    ensures -1 <= i < |members| && (i >= 0 ==> members[i].key == key)
    ensures i < 0 ==> forall k | 0 <= k < |members| :: members[k].key != key
  {
    if members == [] then -1
    else if members[0].key == key then 0
    else
      var rest := IndexOf(members[1..], key);
      if rest < 0 then -1 else rest + 1
  }

  /** A missing member reads as null. */
  function Get(members: seq<Member>, key: string): Json {
    var i := IndexOf(members, key);
    if i < 0 then JNull else members[i].value
  }

  // ---- References inside a value.

  /** An object that says it belongs to another world is not looked into. */
  predicate Foreign(members: seq<Member>, world: Option<string>) {
    world.Some? && IndexOf(members, "world_id") >= 0 && Get(members, "world_id") != JStr(world.value)
  }

  /** `{"id": "..."}` and nothing else. */
  predicate IsRef(value: Json) {
    value.JObject? && |value.members| == 1 && value.members[0].key == "id" && value.members[0].value.JStr?
  }

  const REF_NAMES := {"entity_ref", "entity", "subject"}

  function OwnRefs(members: seq<Member>): set<string> {
    set name | name in REF_NAMES && IsRef(Get(members, name)) :: Get(members, name).members[0].value.text
  }

  /** What stands under "value" in a plain JSON observation is data, not references. */
  predicate IsData(members: seq<Member>, key: string) {
    key == "value" && Get(members, "value_kind") == JStr("json")
  }

  function EntityRefs(value: Json, world: Option<string>): set<string>
    decreases value
  {
    match value
    case JObject(members) =>
      if Foreign(members, world) then {}
      else OwnRefs(members) + RefsInMembers(members, IsData(members, "value"), world)
    case JArray(items) => RefsInItems(items, world)
    case _ => {}
  }

  function RefsInMembers(members: seq<Member>, data: bool, world: Option<string>): set<string>
    decreases members
  {
    if members == [] then {}
    else
      var head := members[0];
      assert head in members;
      (if head.key == "value" && data then {} else EntityRefs(head.value, world))
      + RefsInMembers(members[1..], data, world)
  }

  function RefsInItems(items: seq<Json>, world: Option<string>): set<string>
    decreases items
  {
    if items == [] then {} else EntityRefs(items[0], world) + RefsInItems(items[1..], world)
  }

  // ---- The same by paths.

  function Width(value: Json): nat {
    match value case JObject(members) => |members| case JArray(items) => |items| case _ => 0
  }

  function Child(value: Json, k: nat): Json
    requires k < Width(value)
  {
    match value case JObject(members) => members[k].value case JArray(items) => items[k]
  }

  /** The search goes from a value into its `k`-th child. */
  predicate Enters(value: Json, k: nat, world: Option<string>) {
    && k < Width(value)
    && (value.JObject? ==> !Foreign(value.members, world) && !IsData(value.members, value.members[k].key))
  }

  /** At the end of a path the search enters all along there stands an object of this world that refers to `entity`. */
  predicate RefersAt(value: Json, path: seq<nat>, entity: string, world: Option<string>)
    decreases |path|
  {
    if path == [] then value.JObject? && !Foreign(value.members, world) && entity in OwnRefs(value.members)
    else Enters(value, path[0], world) && RefersAt(Child(value, path[0]), path[1..], entity, world)
  }

  /** What is found is what some path leads to. */
  lemma {:induction false} FoundHasPath(value: Json, entity: string, world: Option<string>) returns (path: seq<nat>)
    requires entity in EntityRefs(value, world)
    ensures RefersAt(value, path, entity, world)
    decreases value
  {
    match value
    case JObject(members) =>
      if entity in OwnRefs(members) {
        path := [];
      } else {
        var k := MemberWith(members, IsData(members, "value"), entity, world);
        assert members[k] in members;
        var rest := FoundHasPath(members[k].value, entity, world);
        path := [k] + rest;
      }
    case JArray(items) =>
      var k := ItemWith(items, entity, world);
      var rest := FoundHasPath(items[k], entity, world);
      path := [k] + rest;
  }

  lemma {:induction false} MemberWith(members: seq<Member>, data: bool, entity: string, world: Option<string>)
    returns (k: nat)
    requires entity in RefsInMembers(members, data, world)
    ensures k < |members| && !(members[k].key == "value" && data) && entity in EntityRefs(members[k].value, world)
  {
    if !(members[0].key == "value" && data) && entity in EntityRefs(members[0].value, world) {
      k := 0;
    } else {
      var rest := MemberWith(members[1..], data, entity, world);
      k := rest + 1;
    }
  }

  lemma {:induction false} ItemWith(items: seq<Json>, entity: string, world: Option<string>) returns (k: nat)
    requires entity in RefsInItems(items, world)
    ensures k < |items| && entity in EntityRefs(items[k], world)
  {
    if entity in EntityRefs(items[0], world) {
      k := 0;
    } else {
      var rest := ItemWith(items[1..], entity, world);
      k := rest + 1;
    }
  }

  /** Whatever a path leads to is found. */
  lemma {:induction false} PathIsFound(value: Json, path: seq<nat>, entity: string, world: Option<string>)
    requires RefersAt(value, path, entity, world)
    ensures entity in EntityRefs(value, world)
    decreases |path|
  {
    if path != [] {
      var k := path[0];
      PathIsFound(Child(value, k), path[1..], entity, world);
      match value
      case JObject(members) => MemberFound(members, k, IsData(members, "value"), entity, world);
      case JArray(items) => ItemFound(items, k, entity, world);
    }
  }

  lemma {:induction false} MemberFound(members: seq<Member>, k: nat, data: bool, entity: string, world: Option<string>)
    requires k < |members| && !(members[k].key == "value" && data) && entity in EntityRefs(members[k].value, world)
    ensures entity in RefsInMembers(members, data, world)
  {
    if k > 0 {
      MemberFound(members[1..], k - 1, data, entity, world);
    }
  }

  lemma {:induction false} ItemFound(items: seq<Json>, k: nat, entity: string, world: Option<string>)
    requires k < |items| && entity in EntityRefs(items[k], world)
    ensures entity in RefsInItems(items, world)
  {
    if k > 0 {
      ItemFound(items[1..], k - 1, entity, world);
    }
  }

  ghost predicate IsReferredTo(value: Json, entity: string, world: Option<string>) {
    exists path: seq<nat> :: RefersAt(value, path, entity, world)
  }

  /** An entity is found in a value exactly when some path leads to an object that refers to it. */
  lemma RefsArePaths(value: Json, entity: string, world: Option<string>)
    ensures entity in EntityRefs(value, world) <==> IsReferredTo(value, entity, world)
  {
    if entity in EntityRefs(value, world) {
      var path := FoundHasPath(value, entity, world);
      assert RefersAt(value, path, entity, world);
    }
    if IsReferredTo(value, entity, world) {
      var path: seq<nat> :| RefersAt(value, path, entity, world);
      PathIsFound(value, path, entity, world);
    }
  }

  // ---- References that a schema points out.

  /** Python's equality of JSON values: numbers and booleans compare by value, objects forget the order. */
  function Number(value: Json): Option<real> {
    match value
    case JBool(flag) => Some(if flag then 1.0 else 0.0)
    case JInt(whole) => Some(whole as real)
    case JFloat(number) => Some(number)
    case _ => None
  }

  predicate Same(a: Json, b: Json)
    decreases a
  {
    if Number(a).Some? then Number(a) == Number(b)
    else match a
      case JArray(items) =>
        b.JArray? && |items| == |b.items| && forall i | 0 <= i < |items| :: Same(items[i], b.items[i])
      case JObject(members) =>
        && b.JObject? && |members| == |b.members|
        && forall i | 0 <= i < |members| ::
             IndexOf(b.members, members[i].key) >= 0 && Same(members[i].value, Get(b.members, members[i].key))
      case _ => a == b
  }

  /** A branch applies when the value has the constants the branch demands. */
  predicate Applies(members: seq<Member>, properties: seq<Member>) {
    forall i | 0 <= i < |properties| ::
      properties[i].value.JObject? && IndexOf(properties[i].value.members, "const") >= 0 ==>
        Same(Get(members, properties[i].key), Get(properties[i].value.members, "const"))
  }

  function SchemaEntities(value: Json, schema: Json): set<string>
    decreases schema, 2
  {
    if !schema.JObject? then {}
    else if Get(schema.members, "x-world-entity-ref") == JBool(true) && value.JStr? then {value.text}
    else match value
      case JArray(items) =>
        var at := IndexOf(schema.members, "items");
        if at < 0 then {}
        else
          assert schema.members[at] in schema.members;
          EntitiesOfItems(items, schema.members[at].value)
      case JObject(members) => EntitiesOfObject(members, schema)
      case _ => {}
  }

  function EntitiesOfItems(items: seq<Json>, schema: Json): set<string>
    decreases schema, 3, |items|
  {
    if items == [] then {} else SchemaEntities(items[0], schema) + EntitiesOfItems(items[1..], schema)
  }

  function EntitiesOfObject(members: seq<Member>, schema: Json): set<string>
    requires schema.JObject?
    decreases schema, 1
  {
    DeclaredEntities(members, schema) + BranchEntities(members, schema)
  }

  function DeclaredEntities(members: seq<Member>, schema: Json): set<string>
    requires schema.JObject?
    decreases schema, 0
  {
    var at := IndexOf(schema.members, "properties");
    if at < 0 then {}
    else
      assert schema.members[at] in schema.members;
      match schema.members[at].value
      case JObject(properties) => EntitiesOfProperties(members, properties)
      case _ => {}
  }

  function BranchEntities(members: seq<Member>, schema: Json): set<string>
    requires schema.JObject?
    decreases schema, 0
  {
    var at := IndexOf(schema.members, "oneOf");
    if at < 0 then {}
    else
      assert schema.members[at] in schema.members;
      match schema.members[at].value
      case JArray(branches) => EntitiesOfBranches(members, branches)
      case _ => {}
  }

  function EntitiesOfProperties(members: seq<Member>, properties: seq<Member>): set<string>
    decreases properties
  {
    if properties == [] then {}
    else
      var head := properties[0];
      assert head in properties;
      SchemaEntities(Get(members, head.key), head.value) + EntitiesOfProperties(members, properties[1..])
  }

  function EntitiesOfBranches(members: seq<Member>, branches: seq<Json>): set<string>
    decreases branches
  {
    if branches == [] then {}
    else
      (if branches[0].JObject? && BranchApplies(members, branches[0].members)
       then SchemaEntities(JObject(members), branches[0]) else {})
      + EntitiesOfBranches(members, branches[1..])
  }

  predicate BranchApplies(members: seq<Member>, branch: seq<Member>) {
    var properties := IndexOf(branch, "properties");
    properties < 0 || (branch[properties].value.JObject? && Applies(members, branch[properties].value.members))
  }

  // ---- What messages mention and tools depend on.

  function ToolNamed(tools: seq<Tool>, name: string): Option<Tool> {
    if tools == [] then None else if tools[0].name == name then Some(tools[0]) else ToolNamed(tools[1..], name)
  }

  function ContentEntities(content: seq<Content>, world: Option<string>): set<string> {
    if content == [] then {}
    else
      (if content[0].JsonContent? then EntityRefs(content[0].value, world) else {})
      + ContentEntities(content[1..], world)
  }

  function CallEntities(calls: seq<ToolCall>, tools: seq<Tool>, world: Option<string>): set<string> {
    if calls == [] then {}
    else
      var arguments, tool := JObject(calls[0].arguments), ToolNamed(tools, calls[0].name);
      EntityRefs(arguments, world)
      + (if tool.Some? then SchemaEntities(arguments, JObject(tool.value.schema)) else {})
      + CallEntities(calls[1..], tools, world)
  }

  function MessageEntities(message: AgentMessage, tools: seq<Tool>, world: Option<string>): set<string> {
    ContentEntities(message.content, world)
    + (if message.AssistantMessage? then CallEntities(message.toolCalls, tools, world) else {})
  }

  function Mentions(transcript: seq<AgentMessage>, tools: seq<Tool>, world: Option<string>): seq<set<string>> {
    seq(|transcript|, i requires 0 <= i < |transcript| => MessageEntities(transcript[i], tools, world))
  }

  /** The entities the tools' schemas name outright. */
  function Dependencies(tools: seq<Tool>): set<string> {
    if tools == [] then {}
    else
      var refs := Get(tools[0].schema, "x-world-entities");
      (if refs.JArray? then set item | item in refs.items && item.JStr? :: item.text else {})
      + Dependencies(tools[1..])
  }
}
