/**
 * The process-wide library object global_t (src/core/global.hpp): it opens the platform library,
 * resolves the library-global commands, enumerates the instance extensions with the count/fill
 * protocol, and creates the native instance handle after checking the requested extensions.
 */
module Global {
  import opened Wrappers
  import opened VkTypes
  import opened Function
  import opened Native

  /** The resolver a loader hands to load_funtion: vkGetInstanceProcAddr or vkGetDeviceProcAddr. */
  type Resolver = (Handle, Name) -> Option<EntryPoint>

  /** detail::load_funtion: resolves one command; a null address throws, otherwise the slot gets the address. */
  method LoadFunction(resolve: Resolver, command: Name, scope: Handle) returns (r: Result<EntryPoint, Error>)
    ensures r.Err? <==> resolve(scope, command).None?
    ensures r.Err? ==> r.error == LoadFailed(command)
    ensures r.Ok? ==> Some(r.value) == resolve(scope, command)
  {
    var address := resolve(scope, command);
    if address.None? {
      return Err(LoadFailed(command));
    }
    r := Ok(address.value);
  }

  /** The position of the first command the resolver cannot resolve, or |commands| when all resolve. */
  function FirstUnresolved(resolve: Resolver, commands: seq<Name>, scope: Handle): (k: nat)
    ensures k <= |commands|
    ensures k < |commands| ==> resolve(scope, commands[k]).None?
    ensures forall j | 0 <= j < k :: resolve(scope, commands[j]).Some?
  {
    if commands == [] then 0
    else if resolve(scope, commands[0]).None? then 0
    else 1 + FirstUnresolved(resolve, commands[1..], scope)
  }

  /**
   * A run of VULKAN_LOAD_..._FUNCTION(name) statements in a constructor: the commands are loaded in
   * order and the first one that does not resolve throws; on success every slot holds its address.
   */
  method LoadFunctions(resolve: Resolver, commands: seq<Name>, scope: Handle) returns (r: Result<map<Name, EntryPoint>, Error>)
    ensures var k := FirstUnresolved(resolve, commands, scope);
      && (r.Ok? <==> k == |commands|)
      && (r.Err? ==> r.error == LoadFailed(commands[k]))
    ensures r.Ok? ==> r.value.Keys == set n | n in commands
    ensures r.Ok? ==> forall n | n in r.value :: resolve(scope, n) == Some(r.value[n])
  {
    var table: map<Name, EntryPoint> := map[];
    var i := 0;
    while i < |commands|
      invariant 0 <= i <= |commands|
      invariant forall j | 0 <= j < i :: resolve(scope, commands[j]).Some?
      invariant table.Keys == set j | 0 <= j < i :: commands[j]
      invariant forall n | n in table :: resolve(scope, n) == Some(table[n])
    {
      var e := LoadFunction(resolve, commands[i], scope);
      if e.Err? {
        return Err(e.error);
      }
      table := table[commands[i] := e.value];
      i := i + 1;
    }
    r := Ok(table);
  }

  /** The platforms and their library base names (platform_windows, platform_linux). */
  datatype Platform = Windows | Linux

  function DynamicLibrary(p: Platform): Name
  {
    match p
    case Windows => "vulkan-1.dll"
    case Linux => "libvulkan.so.1"
  }

  /** The library-global commands the constructor loads through vkGetInstanceProcAddr(nullptr, ...). */
  const GlobalCommands: seq<Name> := ["vkCreateInstance", "vkEnumerateInstanceExtensionProperties", "vkEnumerateInstanceLayerProperties"]

  /** instance_param_t. */
  datatype InstanceParam = InstanceParam(appName: Name, engineName: Name)

  /** export_func: the library's symbol of that name; throws when the library does not export it. */
  method ExportFunc(driver: Driver, symbol: Name) returns (r: Result<EntryPoint, Error>)
    ensures r.Ok? <==> symbol in driver.exports
    ensures r.Ok? ==> r.value == EntryPoint(symbol, NullHandle)
    ensures r.Err? ==> r.error == SymbolNotFound(symbol)
  {
    if symbol !in driver.exports {
      return Err(SymbolNotFound(symbol));
    }
    r := Ok(EntryPoint(symbol, NullHandle));
  }

  /** The calls get_available_extension makes: a count query, and a fill query only for a non-zero count. */
  function AvailableExtensionCalls(count: nat): (calls: seq<Call>)
    ensures |calls| == if count > 0 then 2 else 1
    ensures calls[0] == EnumerateInstanceExtensionProperties(false)
    ensures EnumerateInstanceExtensionProperties(true) in calls <==> count > 0
  {
    [EnumerateInstanceExtensionProperties(false)] + if count > 0 then [EnumerateInstanceExtensionProperties(true)] else []
  }

  /** What creating the instance handle does: its result and the native calls it makes, in order. */
  datatype Creation = Creation(result: Result<Handle, Error>, calls: seq<Call>)

  /**
   * The instance-handle creation protocol: enumerate the available extensions, throw before any
   * vkCreateInstance call when the request is not satisfied, throw on a non-success status,
   * otherwise return the new handle.
   */
  function CreationProtocol(available: seq<ExtensionProperties>, status: Status, handle: Handle, info: InstanceCreateInfo): (c: Creation)
    requires handle != NullHandle
    ensures c.result.Ok? <==> IsExtensionsSatisfied(info.enabledExtensionNames, available) && status == VK_SUCCESS
    ensures c.result.Ok? ==> c.result.value == handle
    ensures !IsExtensionsSatisfied(info.enabledExtensionNames, available) ==>
      c.result == Err(ExtensionsNotSatisfied) && forall k | 0 <= k < |c.calls| :: !c.calls[k].CreateInstance?
    ensures IsExtensionsSatisfied(info.enabledExtensionNames, available) && status != VK_SUCCESS ==>
      c.result == Err(CreateInstanceFailed(status))
    ensures IsExtensionsSatisfied(info.enabledExtensionNames, available) ==>
      c.calls == AvailableExtensionCalls(|available|) + [CreateInstance(info)]
    ensures !IsExtensionsSatisfied(info.enabledExtensionNames, available) ==> c.calls == AvailableExtensionCalls(|available|)
  {
    var enumerate := AvailableExtensionCalls(|available|);
    if !IsExtensionsSatisfied(info.enabledExtensionNames, available) then
      Creation(Err(ExtensionsNotSatisfied), enumerate)
    else if status != VK_SUCCESS then
      Creation(Err(CreateInstanceFailed(status)), enumerate + [CreateInstance(info)])
    else
      Creation(Ok(handle), enumerate + [CreateInstance(info)])
  }

  /** The create info the wrapper fills: no layers, the requested names, their count. */
  function CreateInfo(app: ApplicationInfo, extensions: seq<Name>): (info: InstanceCreateInfo)
    ensures info.enabledLayerCount == 0
    ensures info.enabledExtensionNames == extensions && info.enabledExtensionCount == |extensions|
  {
    InstanceCreateInfo(app, 0, |extensions|, extensions)
  }

  /** global_t (and the older `global` class): the opened library and its resolved global commands. */
  class Loader {
    const driver: Driver
    const platform: Platform
    const vkGetInstanceProcAddr: EntryPoint
    const commands: map<Name, EntryPoint>

    constructor (driver: Driver, platform: Platform, vkGetInstanceProcAddr: EntryPoint, commands: map<Name, EntryPoint>)
      ensures this.driver == driver && this.platform == platform
      ensures this.vkGetInstanceProcAddr == vkGetInstanceProcAddr && this.commands == commands
    {
      this.driver, this.platform := driver, platform;
      this.vkGetInstanceProcAddr, this.commands := vkGetInstanceProcAddr, commands;
    }

    /** load_func: resolution through the library's vkGetInstanceProcAddr. */
    function Resolver(): Resolver
    {
      (h: Handle, n: Name) => driver.GetInstanceProcAddr(h, n)
    }

    /**
     * get_available_extension: queries the count, and only when it is non-zero sizes the vector and
     * fills it with a second call; the result holds the count entries the second call wrote.
     */
    method GetAvailableExtension() returns (r: seq<ExtensionProperties>)
      modifies driver
      ensures r == driver.instanceExtensions
      ensures driver.trace == old(driver.trace) + AvailableExtensionCalls(|r|)
      ensures driver.lastHandle == old(driver.lastHandle)
    {
      r := [];
      var count := driver.EnumerateInstanceExtensionCount();
      if count > 0 {
        var buf := new ExtensionProperties[count];
        var written := driver.EnumerateInstanceExtensionFill(buf);
        r := buf[..];
      }
    }

    /** The shared body of create_instance_handle and the older create_instance, for a given VkApplicationInfo. */
    method CreateWith(app: ApplicationInfo, extensions: seq<Name>) returns (r: Result<Handle, Error>)
      modifies driver
      ensures var c := CreationProtocol(driver.instanceExtensions, driver.createInstanceResult,
                                        old(driver.lastHandle) + 1, CreateInfo(app, extensions));
        r == c.result && driver.trace == old(driver.trace) + c.calls
      ensures driver.lastHandle == if r.Ok? then old(driver.lastHandle) + 1 else old(driver.lastHandle)
    {
      var available := GetAvailableExtension();
      if !IsExtensionsSatisfied(extensions, available) {
        return Err(ExtensionsNotSatisfied);
      }
      var status, instance := driver.CreateInstance(CreateInfo(app, extensions));
      if status != VK_SUCCESS {
        return Err(CreateInstanceFailed(status));
      }
      r := Ok(instance);
    }

    /**
     * create_instance_handle: the application and engine names come from the parameters, and the
     * application, engine and API versions are all VK_MAKE_VERSION(1, 0, 0).
     */
    method CreateInstanceHandle(param: InstanceParam, extensions: seq<Name>) returns (r: Result<Handle, Error>)
      modifies driver
      ensures var c := CreationProtocol(driver.instanceExtensions, driver.createInstanceResult,
                                        old(driver.lastHandle) + 1, CreateInfo(DefaultApplicationInfo(param), extensions));
        r == c.result && driver.trace == old(driver.trace) + c.calls
      ensures driver.lastHandle == if r.Ok? then old(driver.lastHandle) + 1 else old(driver.lastHandle)
    {
      r := CreateWith(DefaultApplicationInfo(param), extensions);
    }
  }

  /** The VkApplicationInfo of create_instance_handle. */
  function DefaultApplicationInfo(param: InstanceParam): (app: ApplicationInfo)
    ensures app.applicationName == param.appName && app.engineName == param.engineName
    ensures app.applicationVersion == app.engineVersion == app.apiVersion == MakeVersion(1, 0, 0)
  {
    ApplicationInfo(param.appName, MakeVersion(1, 0, 0), param.engineName, MakeVersion(1, 0, 0), MakeVersion(1, 0, 0))
  }

  /**
   * The outcome of the global_t() constructor on this driver and platform: a missing library, then
   * a missing vkGetInstanceProcAddr export, then the first global command in load order that does
   * not resolve throws, each with its own error; otherwise the loader holds exactly the three
   * global commands at their resolved addresses.
   */
  predicate Opened(driver: Driver, platform: Platform, r: Result<Loader, Error>)
  {
    && (DynamicLibrary(platform) !in driver.libraries ==> r == Err(LibraryNotFound(DynamicLibrary(platform))))
    && (DynamicLibrary(platform) in driver.libraries && "vkGetInstanceProcAddr" !in driver.exports ==>
          r == Err(SymbolNotFound("vkGetInstanceProcAddr")))
    && (r.Ok? <==> DynamicLibrary(platform) in driver.libraries && "vkGetInstanceProcAddr" in driver.exports
                   && forall n | n in GlobalCommands :: n in driver.globalCommands)
    && (var k := FirstUnresolved((h: Handle, n: Name) => driver.GetInstanceProcAddr(h, n), GlobalCommands, NullHandle);
        DynamicLibrary(platform) in driver.libraries && "vkGetInstanceProcAddr" in driver.exports && r.Err? ==>
          r.error == LoadFailed(GlobalCommands[k]) && GlobalCommands[k] !in driver.globalCommands)
    && (r.Ok? ==> r.value.driver == driver && r.value.platform == platform)
    && (r.Ok? ==> r.value.commands.Keys == set n | n in GlobalCommands)
    && (r.Ok? ==> forall n | n in r.value.commands :: driver.GetInstanceProcAddr(NullHandle, n) == Some(r.value.commands[n]))
  }

  /**
   * global_t(): opens the platform library (throws when it is not found), exports
   * vkGetInstanceProcAddr from it, then loads the library-global commands in order.
   */
  method Open(driver: Driver, platform: Platform) returns (r: Result<Loader, Error>)
    ensures Opened(driver, platform, r)
    ensures r.Ok? ==> fresh(r.value)
  {
    if DynamicLibrary(platform) !in driver.libraries {
      return Err(LibraryNotFound(DynamicLibrary(platform)));
    }
    var getProcAddr := ExportFunc(driver, "vkGetInstanceProcAddr");
    if getProcAddr.Err? {
      return Err(getProcAddr.error);
    }
    var loaded := LoadGlobalCommands(driver);
    if loaded.Err? {
      return Err(loaded.error);
    }
    var loader := new Loader(driver, platform, getProcAddr.value, loaded.value);
    r := Ok(loader);
  }

  /** The global_t constructor's VULKAN_LOAD_GLOBAL_FUNCTION lines: vkGetInstanceProcAddr with a null instance. */
  method LoadGlobalCommands(driver: Driver) returns (r: Result<map<Name, EntryPoint>, Error>)
    ensures r.Ok? <==> forall n | n in GlobalCommands :: n in driver.globalCommands
    ensures var k := FirstUnresolved((h: Handle, n: Name) => driver.GetInstanceProcAddr(h, n), GlobalCommands, NullHandle);
      r.Err? ==> r.error == LoadFailed(GlobalCommands[k]) && GlobalCommands[k] !in driver.globalCommands
    ensures r.Ok? ==> r.value.Keys == set n | n in GlobalCommands
    ensures r.Ok? ==> forall n | n in r.value :: driver.GetInstanceProcAddr(NullHandle, n) == Some(r.value[n])
  {
    var resolve: Resolver := (h: Handle, n: Name) => driver.GetInstanceProcAddr(h, n);
    r := LoadFunctions(resolve, GlobalCommands, NullHandle);
  }

  /**
   * The function-local static behind global_t::get(): the first call that constructs it
   * successfully fixes the object every later call returns; a constructor that throws leaves it
   * unconstructed, so the next call tries again.
   */
  class Process {
    const driver: Driver
    const platform: Platform
    var global: Option<Loader>

    constructor (driver: Driver, platform: Platform)
      ensures this.driver == driver && this.platform == platform && global == None
    {
      this.driver, this.platform := driver, platform;
      global := None;
    }

    /** global_t::get(): while nothing is stored, the call runs the global_t() constructor. */
    method Get() returns (r: Result<Loader, Error>)
      modifies this
      ensures old(global).Some? ==> r == Ok(old(global).value) && global == old(global)
      ensures old(global).None? ==> Opened(driver, platform, r)
      ensures old(global).None? && r.Ok? ==> global == Some(r.value) && fresh(r.value)
      ensures r.Err? ==> global == None
    {
      if global.Some? {
        return Ok(global.value);
      }
      r := Open(driver, platform);
      if r.Ok? {
        global := Some(r.value);
      }
    }
  }
}
