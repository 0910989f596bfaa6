/** Agent blueprints (`src/enterprise_mcp_auth/agent_framework/agent_blueprint.py`).

    `AgentBlueprint` and `AgentCapability` come from the agent framework
    library; the blueprint is an object whose capability list the manager
    appends to in place, so it is a class here, shared between the manager
    and whoever received it from `create_blueprint`. */
module Blueprint {
  import opened PyRuntime

  datatype Capability = Capability(name: string, description: string)

  /** The capability `create_blueprint` makes for a name. */
  function Describe(name: string): (c: Capability)
    ensures c.name == name && c.description == "Capability: " + name
  {
    Capability(name, "Capability: " + name)
  }

  /** One capability per name, in the given order. */
  function DescribeAll(names: seq<string>): (cs: seq<Capability>)
    ensures |cs| == |names|
    ensures forall i :: 0 <= i < |names| ==> cs[i] == Describe(names[i])
  {
    if names == [] then [] else [Describe(names[0])] + DescribeAll(names[1..])
  }

  /** The capability names, in order (`[cap.name for cap in capabilities]`). */
  function Names(cs: seq<Capability>): (names: seq<string>)
    ensures |names| == |cs|
    ensures forall i :: 0 <= i < |cs| ==> names[i] == cs[i].name
  {
    if cs == [] then [] else [cs[0].name] + Names(cs[1..])
  }

  /** Describing names and reading the names back gives the names. */
  lemma {:induction false} NamesOfDescribed(names: seq<string>)
    ensures Names(DescribeAll(names)) == names
  {
    if names != [] {
      NamesOfDescribed(names[1..]);
      assert DescribeAll(names)[1..] == DescribeAll(names[1..]);
    }
  }

  const DefaultCapabilities: seq<string> := ["search_documents", "retrieve_document", "authenticate_to_azure"]

  /** `if not capabilities:` — `None` and the empty list both mean the defaults. */
  function CapabilityNames(capabilities: Option<seq<string>>): (r: seq<string>)
    ensures capabilities.Some? && capabilities.value != [] ==> r == capabilities.value
    ensures capabilities.None? || capabilities.value == [] ==> r == DefaultCapabilities
  {
    if capabilities.Some? && capabilities.value != [] then capabilities.value else DefaultCapabilities
  }

  class AgentBlueprint {
    const name: string
    const description: string
    var capabilities: seq<Capability>
    const metadata: Dict

    constructor(name: string, description: string, capabilities: seq<Capability>, metadata: Dict)
      ensures this.name == name && this.description == description
      ensures this.capabilities == capabilities && this.metadata == metadata
    {
      this.name := name;
      this.description := description;
      this.capabilities := capabilities;
      this.metadata := metadata;
    }
  }

  /** The capability objects of `create_blueprint`, built by appending. */
  method BuildCapabilities(names: seq<string>) returns (capabilityObjects: seq<Capability>)
    ensures capabilityObjects == DescribeAll(names)
  {
    capabilityObjects := [];
    var i := 0;
    while i < |names|
      invariant 0 <= i <= |names|
      invariant capabilityObjects == DescribeAll(names[..i])
    {
      DescribeAllSnoc(names[..i], names[i]);
      assert names[..i + 1] == names[..i] + [names[i]];
      capabilityObjects := capabilityObjects + [Capability(names[i], "Capability: " + names[i])];
      i := i + 1;
    }
    assert names[..i] == names;
  }

  lemma {:induction false} DescribeAllSnoc(names: seq<string>, name: string)
    ensures DescribeAll(names + [name]) == DescribeAll(names) + [Describe(name)]
  {
    if names != [] {
      DescribeAllSnoc(names[1..], name);
      assert (names + [name])[1..] == names[1..] + [name];
    } else {
      assert DescribeAll([name]) == [Describe(name)] + DescribeAll([]);
    }
  }

  class AgentBlueprintManager {
    const blueprintName: string
    var blueprint: AgentBlueprint?

    /** `blueprint_name or os.getenv("AGENT_BLUEPRINT_NAME", "")`; no blueprint yet. */
    constructor(blueprintName: Option<string>, env: Env)
      ensures blueprintName.Some? && blueprintName.value != "" ==> this.blueprintName == blueprintName.value
      ensures blueprintName.None? || blueprintName.value == "" ==>
                this.blueprintName == GetEnvOr(env, "AGENT_BLUEPRINT_NAME", "")
      ensures blueprint == null
    {
      if blueprintName.Some? && blueprintName.value != "" {
        this.blueprintName := blueprintName.value;
      } else {
        this.blueprintName := GetEnvOr(env, "AGENT_BLUEPRINT_NAME", "");
      }
      blueprint := null;
    }

    /** The name `create_blueprint` would use. */
    function ChosenName(name: Option<string>): (r: string)
      reads this
      ensures name.Some? && name.value != "" ==> r == name.value
      ensures name.None? || name.value == "" ==> r == blueprintName
    {
      if name.Some? && name.value != "" then name.value else blueprintName
    }

    /** `create_blueprint`: raises ValueError (and keeps the old blueprint) when
        neither the argument nor the manager supplies a name; otherwise stores
        and returns a new blueprint with one described capability per name,
        the defaulted description and metadata. */
    method CreateBlueprint(name: Option<string>, description: Option<string>,
                           capabilities: Option<seq<string>>, metadata: Option<Dict>)
      returns (r: Outcome<AgentBlueprint>)
      modifies this
      ensures ChosenName(name) == "" ==>
                r == Raised(Exn(ValueError, "Blueprint name is required")) && blueprint == old(blueprint)
      ensures ChosenName(name) != "" ==>
                r.Returned? && fresh(r.value) && blueprint == r.value
                && r.value.name == ChosenName(name)
                && r.value.description == (if description.Some? && description.value != "" then description.value
                                           else "Blueprint for " + ChosenName(name))
                && r.value.capabilities == DescribeAll(CapabilityNames(capabilities))
                && r.value.metadata == metadata.GetOr(map[])
    {
      var chosen := if name.Some? && name.value != "" then name.value else blueprintName;
      if chosen == "" {
        return Raised(Exn(ValueError, "Blueprint name is required"));
      }
      var names := if capabilities.Some? && capabilities.value != [] then capabilities.value else DefaultCapabilities;
      var capabilityObjects := BuildCapabilities(names);
      var desc := if description.Some? && description.value != "" then description.value else "Blueprint for " + chosen;
      var b := new AgentBlueprint(chosen, desc, capabilityObjects, metadata.GetOr(map[]));
      blueprint := b;
      r := Returned(b);
    }

    /** `get_blueprint`. */
    method GetBlueprint() returns (b: AgentBlueprint?)
      ensures b == blueprint
    {
      b := blueprint;
    }

    /** `add_capability`: ValueError without a blueprint; otherwise exactly one
        capability is appended at the end of the stored blueprint's list. */
    method AddCapability(capabilityName: string, capabilityDescription: Option<string>) returns (err: Option<Exn>)
      modifies if blueprint != null then {blueprint} else {}
      ensures blueprint == null ==> err == Some(Exn(ValueError, "Blueprint must be created first"))
      ensures blueprint != null ==>
                err.None?
                && blueprint.capabilities == old(blueprint.capabilities) + [
                     Capability(capabilityName,
                                if capabilityDescription.Some? && capabilityDescription.value != ""
                                then capabilityDescription.value else "Capability: " + capabilityName)]
    {
      if blueprint == null {
        return Some(Exn(ValueError, "Blueprint must be created first"));
      }
      var desc := if capabilityDescription.Some? && capabilityDescription.value != ""
                  then capabilityDescription.value else "Capability: " + capabilityName;
      blueprint.capabilities := blueprint.capabilities + [Capability(capabilityName, desc)];
      err := None;
    }

    /** `get_blueprint_info`: `{}` without a blueprint, otherwise its name,
        description, capability names in order and metadata. */
    function GetBlueprintInfo(): (info: Dict)
      reads this, blueprint
      ensures blueprint == null <==> info == map[]
      ensures blueprint != null ==>
                info.Keys == {"name", "description", "capabilities", "metadata"}
                && info["name"] == JStr(blueprint.name)
                && info["description"] == JStr(blueprint.description)
                && info["capabilities"] == JArr(JsonStrings(Names(blueprint.capabilities)))
                && info["metadata"] == JObj(blueprint.metadata)
    {
      if blueprint == null then map[]
      else
        var info := map["name" := JStr(blueprint.name), "description" := JStr(blueprint.description),
                        "capabilities" := JArr(JsonStrings(Names(blueprint.capabilities))),
                        "metadata" := JObj(blueprint.metadata)];
        assert "name" in info;
        info
    }

    /** `validate_blueprint`: false without a blueprint or with an empty name,
        true otherwise, even with no capabilities. */
    function ValidateBlueprint(): (ok: bool)
      reads this, blueprint
      ensures ok <==> blueprint != null && blueprint.name != ""
    {
      if blueprint == null then false
      else if blueprint.name == "" then false
      else true
    }
  }

  /** A manager that has created a blueprint validates, and its info lists the
      capability names it was given (or the defaults) in order; adding one
      capability keeps validation and appends its name to the listing. */
  method CreateThenAdd(m: AgentBlueprintManager, name: string, capabilities: seq<string>, extra: string)
    returns (before: Dict, after: Dict)
    requires name != ""
    modifies m
    ensures m.blueprint != null && fresh(m.blueprint)
    ensures m.ValidateBlueprint()
    ensures "name" in before && "capabilities" in before && "name" in after && "capabilities" in after
    ensures before["capabilities"] == JArr(JsonStrings(CapabilityNames(Some(capabilities))))
    ensures after["capabilities"] == JArr(JsonStrings(CapabilityNames(Some(capabilities)) + [extra]))
    ensures after["name"] == before["name"] == JStr(name)
  {
    var created := m.CreateBlueprint(Some(name), None, Some(capabilities), None);
    NamesOfDescribed(CapabilityNames(Some(capabilities)));
    before := m.GetBlueprintInfo();
    var err := m.AddCapability(extra, None);
    after := m.GetBlueprintInfo();
    NamesSnoc(DescribeAll(CapabilityNames(Some(capabilities))), Capability(extra, "Capability: " + extra));
  }

  lemma {:induction false} NamesSnoc(cs: seq<Capability>, c: Capability)
    ensures Names(cs + [c]) == Names(cs) + [c.name]
  {
    if cs != [] {
      NamesSnoc(cs[1..], c);
      assert (cs + [c])[1..] == cs[1..] + [c];
    } else {
      assert Names([c]) == [c.name] + Names([]);
    }
  }
}
