/**
 * `ToolManager` (utils/agent_utils.py): a registry from tool names to tool
 * instances, where a tool whose construction failed is registered as None.
 */
module ToolManager {
  import opened Wrappers
  import opened PyValue

  /** A constructed tool, known to the registry only by the class it came from. */
  datatype ToolInstance = ToolInstance(className: string)

  /** `tools.get(name)`: missing names and failed registrations both read as None. */
  function ToolIn(tools: map<string, Option<ToolInstance>>, name: string): Option<ToolInstance> {
    if name in tools then tools[name] else None
  }

  /** Registration replaces the entry of its own name and no other. */
  lemma RegisterOnlyItsName(tools: map<string, Option<ToolInstance>>, name: string, constructed: Option<ToolInstance>, other: string)
    ensures ToolIn(tools[name := constructed], name) == constructed
    ensures other != name ==> ToolIn(tools[name := constructed], other) == ToolIn(tools, other)
  {
  }

  class ToolManager {
    var tools: map<string, Option<ToolInstance>>
    var fallbackEnabled: bool

    constructor ()
      ensures tools == map[] && fallbackEnabled
    {
      tools := map[];
      fallbackEnabled := true;
    }

    /**
     * `register_tool`: `constructed` is the new instance, or None when the
     * tool's constructor raised; either way the name is registered.
     */
    method RegisterTool(name: string, constructed: Option<ToolInstance>)
      modifies this
      ensures tools == old(tools)[name := constructed]
      ensures fallbackEnabled == old(fallbackEnabled)
    {
      tools := tools[name := constructed];
    }

    /** `get_tool`. */
    function GetTool(name: string): Option<ToolInstance>
      reads this
    {
      ToolIn(tools, name)
    }

    /** `is_tool_available`: the name is registered with an instance. */
    function IsToolAvailable(name: string): (r: bool)
      reads this
      ensures r <==> name in tools && tools[name].Some?
    {
      GetTool(name).Some?
    }

    /**
     * `call_tool`: None for an unavailable tool; otherwise what the tool's
     * method produced, `outcome`, where None stands for a call that raised.
     */
    method CallTool(name: string, outcome: Option<Value>) returns (r: Option<Value>)
      ensures !IsToolAvailable(name) ==> r.None?
      ensures IsToolAvailable(name) ==> r == outcome
    {
      var tool := GetTool(name);
      if tool.None? {
        return None;
      }
      r := outcome;
    }
  }

  /**
   * A tool whose constructor raised is registered, yet unavailable, and
   * calling it yields None whatever its method would have done.
   */
  method FailedRegistration(name: string, outcome: Option<Value>) returns (available: bool, called: Option<Value>)
    ensures !available && called.None?
  {
    var m := new ToolManager();
    m.RegisterTool(name, None);
    assert name in m.tools;
    available := m.IsToolAvailable(name);
    called := m.CallTool(name, outcome);
  }
}
