/**
 * The instance wrapper (src/core/instance.hpp): the layer chain generated from the extension
 * list with the core layer innermost, the constructor that creates the handle before any layer
 * runs, and the core layer's destructor, enumerations and physical-device selection.
 */
module Instances {
  import opened Wrappers
  import opened VkTypes
  import opened Tags
  import opened Function
  import opened Native
  import opened Global
  import PhysicalDevices
  import Device
  import Mpl

  /** The layer types of an instance: an extension's instance_extension<Ext, Base>, or instance_core_t. */
  datatype InstanceLayer = InstanceCore | InstanceExt(ext: ExtensionTag)

  function ExtensionLayers(exts: seq<ExtensionTag>): (r: seq<InstanceLayer>)
    ensures |r| == |exts| && forall i | 0 <= i < |exts| :: r[i] == InstanceExt(exts[i])
  {
    seq(|exts|, i requires 0 <= i < |exts| => InstanceExt(exts[i]))
  }

  /** The commands the core layer's constructor loads, in order. */
  const InstanceCoreCommands: seq<Name> := [
    "vkEnumeratePhysicalDevices", "vkDestroyInstance", "vkEnumerateDeviceExtensionProperties",
    "vkGetPhysicalDeviceFeatures", "vkGetPhysicalDeviceProperties", "vkGetPhysicalDeviceQueueFamilyProperties",
    "vkGetPhysicalDeviceMemoryProperties", "vkGetPhysicalDeviceFormatProperties", "vkCreateDevice",
    "vkGetDeviceProcAddr"]

  function CommandsOf(layer: InstanceLayer): seq<Name>
  {
    match layer
    case InstanceCore => InstanceCoreCommands
    case InstanceExt(t) => LayerCommands(t)
  }

  /**
   * generate_extensions_hierarchy_t<Exts..., instance_core_t>: the first extension is the most
   * derived layer, the core layer is appended last and so sits innermost, right above null_type.
   */
  function InstanceHierarchy(exts: seq<ExtensionTag>): (h: Mpl.Hierarchy<InstanceLayer, ()>)
    ensures Mpl.Layers(h) == ExtensionLayers(exts) + [InstanceCore]
    ensures Mpl.Depth(h) == |exts| + 1
    ensures h.Layer? && Mpl.Innermost(h) == InstanceCore
    ensures h.ext == if exts == [] then InstanceCore else InstanceExt(exts[0])
  {
    var layers := ExtensionLayers(exts) + [InstanceCore];
    Mpl.BuildLayers((), layers);
    Mpl.BuildDepth((), layers);
    Mpl.BuildInnermost((), layers);
    Mpl.Build((), layers)
  }

  /** The order the layer constructors run in: the core layer first, then the extensions from the last to the first. */
  function ConstructionLayers(exts: seq<ExtensionTag>): (r: seq<InstanceLayer>)
    ensures r == Mpl.ConstructionOrder(InstanceHierarchy(exts))
    ensures r[0] == InstanceCore && |r| == |exts| + 1
    ensures forall i | 0 < i <= |exts| :: r[i] == InstanceExt(exts[|exts| - i])
  {
    var layers := ExtensionLayers(exts) + [InstanceCore];
    Mpl.BuildLayers((), layers);
    Mpl.ConstructionIsReversedLayers(InstanceHierarchy(exts));
    Mpl.ReverseAppendLast(ExtensionLayers(exts), InstanceCore);
    ReverseAt(ExtensionLayers(exts));
    [InstanceCore] + Mpl.Reverse(ExtensionLayers(exts))
  }

  lemma {:induction false} ReverseAt<T>(s: seq<T>)
    ensures forall i | 0 <= i < |s| :: Mpl.Reverse(s)[i] == s[|s| - 1 - i]
  {
    if s != [] {
      ReverseAt(s[1..]);
      assert Mpl.Reverse(s) == Mpl.Reverse(s[1..]) + [s[0]];
    }
  }

  /** The command lists of a run of layers, in the same order. */
  function LayerCommandLists(layers: seq<InstanceLayer>): (r: seq<seq<Name>>)
    ensures |r| == |layers| && forall i | 0 <= i < |layers| :: r[i] == CommandsOf(layers[i])
  {
    seq(|layers|, i requires 0 <= i < |layers| => CommandsOf(layers[i]))
  }

  /** Every command of the list resolves for the handle. */
  predicate Loads(resolve: Resolver, commands: seq<Name>, handle: Handle)
  {
    FirstUnresolved(resolve, commands, handle) == |commands|
  }

  /** The first layer, in construction order, one of whose commands does not resolve; |lists| when none. */
  function FailingLayer(resolve: Resolver, lists: seq<seq<Name>>, handle: Handle): (k: nat)
    ensures k <= |lists|
    ensures forall j | 0 <= j < k :: Loads(resolve, lists[j], handle)
    ensures k < |lists| ==> !Loads(resolve, lists[k], handle)
  {
    if lists == [] then 0
    else if !Loads(resolve, lists[0], handle) then 0
    else 1 + FailingLayer(resolve, lists[1..], handle)
  }

  /** All the commands a run of layers loads. */
  ghost function CommandNames(lists: seq<seq<Name>>): set<Name>
  {
    if lists == [] then {}
    else CommandNames(lists[..|lists| - 1]) + NameSet(lists[|lists| - 1])
  }

  ghost function NameSet(names: seq<Name>): set<Name>
  {
    set n | n in names
  }

  /** queue_family_t{ index, properties } for each native entry, numbered by a counter from 0. */
  function QueueFamiliesOf(props: seq<QueueFamilyProperties>): (r: seq<QueueFamily>)
    ensures |r| == |props|
    ensures forall i | 0 <= i < |props| :: r[i] == QueueFamily(i, props[i])
  {
    seq(|props|, i requires 0 <= i < |props| => QueueFamily(i, props[i]))
  }

  /** The descriptor select_physical_device builds for one enumerated handle. */
  function Descriptor(driver: Driver, device: Handle): PhysicalDevices.PhysicalDevice
  {
    PhysicalDevices.PhysicalDevice(device, driver.PhysicalDeviceProperties(device), driver.PhysicalDeviceFeatures(device),
                                   QueueFamiliesOf(driver.Record(device).queueFamilies), driver.Record(device).extensions)
  }

  function Descriptors(driver: Driver, devices: seq<Handle>): (r: seq<PhysicalDevices.PhysicalDevice>)
    ensures |r| == |devices| && forall i | 0 <= i < |devices| :: r[i] == Descriptor(driver, devices[i])
  {
    seq(|devices|, i requires 0 <= i < |devices| => Descriptor(driver, devices[i]))
  }

  /** The filter accepts a freshly built descriptor (nothing chosen yet). */
  predicate Accepts(filter: Device.Chooser, d: PhysicalDevices.PhysicalDevice)
  {
    Device.Eval(filter, Device.DeviceView(d, [])).ok
  }

  /** std::find_if over the descriptors: the first accepted position, or |ds| when none is. */
  function FirstMatch(filter: Device.Chooser, ds: seq<PhysicalDevices.PhysicalDevice>): (k: nat)
    ensures k <= |ds|
    ensures k < |ds| ==> Accepts(filter, ds[k])
    ensures forall j | 0 <= j < k :: !Accepts(filter, ds[j])
  {
    if ds == [] then 0 else if Accepts(filter, ds[0]) then 0 else 1 + FirstMatch(filter, ds[1..])
  }

  /** No ranking: devices after the first accepted one do not influence the choice. */
  lemma {:induction false} FirstMatchIgnoresLaterDevices(filter: Device.Chooser, ds: seq<PhysicalDevices.PhysicalDevice>,
                                                        more: seq<PhysicalDevices.PhysicalDevice>)
    requires FirstMatch(filter, ds) < |ds|
    ensures FirstMatch(filter, ds + more) == FirstMatch(filter, ds)
  {
    if !Accepts(filter, ds[0]) {
      assert (ds + more)[1..] == ds[1..] + more;
      FirstMatchIgnoresLaterDevices(filter, ds[1..], more);
    }
  }

  /** An accepted device is chosen exactly when every device before it is rejected. */
  lemma FirstMatchCharacterised(filter: Device.Chooser, ds: seq<PhysicalDevices.PhysicalDevice>, k: nat)
    requires k < |ds|
    ensures FirstMatch(filter, ds) == k <==> Accepts(filter, ds[k]) && forall j | 0 <= j < k :: !Accepts(filter, ds[j])
  {
  }

  /** With a discrete-card filter an integrated GPU listed first is skipped for the discrete one after it. */
  lemma DiscreteAfterIntegrated(integrated: PhysicalDevices.PhysicalDevice, discrete: PhysicalDevices.PhysicalDevice)
    requires integrated.properties.deviceType == IntegratedGpu && discrete.properties.deviceType == DiscreteGpu
    ensures FirstMatch(Device.RequireDiscreteCard(), [integrated, discrete]) == 1
    ensures FirstMatch(Device.RequireDiscreteCard(), [discrete, integrated]) == 0
  {
    assert !Accepts(Device.RequireDiscreteCard(), integrated);
    assert Accepts(Device.RequireDiscreteCard(), discrete);
    assert [integrated, discrete][1..] == [discrete];
  }

  /** instance<Exts...>: the handle, the parameters and the commands loaded by all layers. */
  class Instance {
    const global: Loader
    const driver: Driver
    const handle: Handle
    const param: InstanceParam
    const extensions: seq<ExtensionTag>
    const commands: map<Name, EntryPoint>
    ghost var destroyed: bool

    constructor (global: Loader, handle: Handle, param: InstanceParam, extensions: seq<ExtensionTag>,
                 commands: map<Name, EntryPoint>)
      ensures this.global == global && driver == global.driver && this.handle == handle && this.param == param
      ensures this.extensions == extensions && this.commands == commands && !destroyed
    {
      this.global, driver, this.handle, this.param := global, global.driver, handle, param;
      this.extensions, this.commands := extensions, commands;
      destroyed := false;
    }

    /** The core layer's destructor: vkDestroyInstance exactly when the handle is not null. */
    method Destroy()
      requires !destroyed
      modifies this, driver
      ensures destroyed && driver.lastHandle == old(driver.lastHandle)
      ensures driver.trace == old(driver.trace) + if handle != NullHandle then [Call.DestroyInstance(handle)] else []
    {
      if handle != NullHandle {
        driver.DestroyInstance(handle);
      }
      destroyed := true;
    }

    /** enumerate_physical_devices: count, a vector of that size, fill. */
    method EnumeratePhysicalDevices() returns (r: seq<Handle>)
      ensures r == driver.physicalDevices
    {
      var count := driver.PhysicalDeviceCount(handle);
      var buf := new Handle[count];
      var written := driver.EnumeratePhysicalDevicesFill(handle, buf);
      r := buf[..];
    }

    /** enumerate_device_extensions: count, a vector of that size, fill. */
    method EnumerateDeviceExtensions(device: Handle) returns (r: seq<ExtensionProperties>)
      ensures r == driver.Record(device).extensions
    {
      var count := driver.DeviceExtensionCount(device);
      var buf := new ExtensionProperties[count];
      var written := driver.DeviceExtensionFill(device, buf);
      r := buf[..];
    }

    /**
     * enumerate_queue_families: the native entries, each paired with a counter that starts at 0 and
     * is incremented once per entry, so entry i carries index i.
     */
    method EnumerateQueueFamilies(device: Handle) returns (r: seq<QueueFamily>)
      ensures |r| == |driver.Record(device).queueFamilies|
      ensures forall i | 0 <= i < |r| :: r[i].index == i && r[i].properties == driver.Record(device).queueFamilies[i]
    {
      var count := driver.QueueFamilyCount(device);
      var properties := new QueueFamilyProperties[count];
      var written := driver.QueueFamilyFill(device, properties);
      var props := properties[..];
      assert props == driver.Record(device).queueFamilies;
      var families := new QueueFamily[count];
      var counter := 0;
      var i := 0;
      while i < count
        invariant 0 <= i <= count && counter == i
        invariant forall j | 0 <= j < i :: families[j] == QueueFamily(j, props[j])
      {
        families[i] := QueueFamily(counter, props[i]);
        counter := counter + 1;
        i := i + 1;
      }
      r := families[..];
    }

    /**
     * select_physical_device: one descriptor per enumerated handle, in enumeration order; the
     * filter is run on them in order until one accepts it, and a copy of that one is returned,
     * with whatever the filter chose on it; throws when none accepts it.
     */
    method SelectPhysicalDevice(filter: Device.Chooser) returns (r: Result<Device.PhysicalDevice, Error>)
      ensures var ds := Descriptors(driver, driver.physicalDevices);
        var k := FirstMatch(filter, ds);
        && (r.Ok? <==> k < |ds|)
        && (r.Err? ==> r.error == NoSuitablePhysicalDevice)
        && (r.Ok? ==> fresh(r.value) && r.value.View() == Device.Eval(filter, Device.DeviceView(ds[k], [])).view)
    {
      var devices := EnumeratePhysicalDevices();
      ghost var ds := Descriptors(driver, devices);
      var all: seq<Device.PhysicalDevice> := [];
      while |all| < |devices|
        invariant |all| <= |devices|
        invariant forall j | 0 <= j < |all| :: fresh(all[j]) && all[j].View() == Device.DeviceView(ds[j], [])
        invariant forall j, l | 0 <= j < l < |all| :: all[j] != all[l]
      {
        var device := devices[|all|];
        var properties := driver.PhysicalDeviceProperties(device);
        var features := driver.PhysicalDeviceFeatures(device);
        var queueFamilies := EnumerateQueueFamilies(device);
        var extensions := EnumerateDeviceExtensions(device);
        assert queueFamilies == QueueFamiliesOf(driver.Record(device).queueFamilies);
        var pd := new Device.PhysicalDevice(device, properties, features, queueFamilies, extensions);
        all := all + [pd];
      }
      var k := 0;
      while k < |all|
        invariant 0 <= k <= |all|
        invariant forall j | 0 <= j < k :: !Accepts(filter, ds[j])
        invariant forall j | k <= j < |all| :: all[j].View() == Device.DeviceView(ds[j], [])
        invariant forall j | 0 <= j < |all| :: fresh(all[j])
      {
        var ok := Device.Evaluate(filter, all[k]);
        if ok {
          FirstMatchCharacterised(filter, ds, k);
          var chosen := new Device.PhysicalDevice.Copy(all[k]);
          return Ok(chosen);
        }
        k := k + 1;
      }
      r := Err(NoSuitablePhysicalDevice);
    }
  }

  /**
   * The layer constructors, run in the given order, each loading its commands for the handle. The
   * first command that does not resolve throws out of its layer; `constructed` counts the layers
   * that completed before that, which are the ones whose destructors then run.
   */
  method LoadLayers(resolve: Resolver, lists: seq<seq<Name>>, h: Handle)
    returns (r: Result<map<Name, EntryPoint>, Error>, constructed: nat)
    ensures constructed == FailingLayer(resolve, lists, h)
    ensures r.Ok? <==> constructed == |lists|
    ensures r.Err? ==> r.error == LoadFailed(lists[constructed][FirstUnresolved(resolve, lists[constructed], h)])
    ensures r.Ok? ==> r.value.Keys == CommandNames(lists)
    ensures r.Ok? ==> forall n | n in r.value :: resolve(h, n) == Some(r.value[n])
  {
    var table: map<Name, EntryPoint> := map[];
    var i := 0;
    while i < |lists|
      invariant 0 <= i <= |lists|
      invariant forall j | 0 <= j < i :: Loads(resolve, lists[j], h)
      invariant table.Keys == CommandNames(lists[..i])
      invariant forall n | n in table :: resolve(h, n) == Some(table[n])
    {
      var loaded := LoadFunctions(resolve, lists[i], h);
      if loaded.Err? {
        FailingLayerAt(resolve, lists, h, i);
        return Err(loaded.error), i;
      }
      CommandNamesExtend(lists, i, loaded.value.Keys);
      table := table + loaded.value;
      i := i + 1;
    }
    assert lists[..i] == lists;
    FailingLayerAt(resolve, lists, h, i);
    r, constructed := Ok(table), i;
  }

  lemma CommandNamesExtend(lists: seq<seq<Name>>, i: nat, loaded: set<Name>)
    requires i < |lists| && loaded == set n | n in lists[i]
    ensures CommandNames(lists[..i + 1]) == CommandNames(lists[..i]) + loaded
  {
    assert lists[..i + 1][..i] == lists[..i];
  }

  lemma FailingLayerAt(resolve: Resolver, lists: seq<seq<Name>>, h: Handle, k: nat)
    requires k <= |lists|
    requires forall j | 0 <= j < k :: Loads(resolve, lists[j], h)
    requires k < |lists| ==> !Loads(resolve, lists[k], h)
    ensures FailingLayer(resolve, lists, h) == k
  {
  }

  /**
   * instance(global, param): creates the native handle with the extensions' names in declaration
   * order before any layer runs, then constructs the layers base first. A layer whose command does
   * not resolve throws; the layers already constructed are destroyed, and the core layer's
   * destructor destroys the handle. When the core layer itself throws nothing owns the handle yet.
   */
  method Create(global: Loader, param: InstanceParam, exts: seq<ExtensionTag>) returns (r: Result<Instance, Error>)
    requires forall i | 0 <= i < |exts| :: exts[i].IsInstanceExtension()
    modifies global.driver
    ensures var c := CreationProtocol(global.driver.instanceExtensions, global.driver.createInstanceResult,
                                      old(global.driver.lastHandle) + 1,
                                      CreateInfo(DefaultApplicationInfo(param), ExtensionStringArray(exts)));
      c.result.Err? ==> r == Err(c.result.error) && global.driver.trace == old(global.driver.trace) + c.calls
    ensures var c := CreationProtocol(global.driver.instanceExtensions, global.driver.createInstanceResult,
                                      old(global.driver.lastHandle) + 1,
                                      CreateInfo(DefaultApplicationInfo(param), ExtensionStringArray(exts)));
      var lists := LayerCommandLists(ConstructionLayers(exts));
      var k := FailingLayer(global.Resolver(), lists, old(global.driver.lastHandle) + 1);
      c.result.Ok? ==>
        && (r.Ok? <==> k == |lists|)
        && (r.Err? ==> r.error == LoadFailed(lists[k][FirstUnresolved(global.Resolver(), lists[k], c.result.value)]))
        && global.driver.trace == old(global.driver.trace) + c.calls + if 0 < k < |lists| then [Call.DestroyInstance(c.result.value)] else []
    ensures var c := CreationProtocol(global.driver.instanceExtensions, global.driver.createInstanceResult,
                                      old(global.driver.lastHandle) + 1,
                                      CreateInfo(DefaultApplicationInfo(param), ExtensionStringArray(exts)));
      global.driver.lastHandle == if c.result.Ok? then old(global.driver.lastHandle) + 1 else old(global.driver.lastHandle)
    ensures r.Ok? ==> fresh(r.value) && r.value.global == global && r.value.param == param && r.value.extensions == exts
    ensures r.Ok? ==> r.value.handle == old(global.driver.lastHandle) + 1 && !r.value.destroyed
    ensures r.Ok? ==> r.value.commands.Keys == CommandNames(LayerCommandLists(ConstructionLayers(exts)))
    ensures r.Ok? ==> forall n | n in r.value.commands :: global.driver.GetInstanceProcAddr(r.value.handle, n) == Some(r.value.commands[n])
  {
    var created := global.CreateInstanceHandle(param, ExtensionStringArray(exts));
    if created.Err? {
      return Err(created.error);
    }
    var h := created.value;
    var lists := LayerCommandLists(ConstructionLayers(exts));
    var loaded, constructed := LoadLayers(global.Resolver(), lists, h);
    if loaded.Err? {
      if constructed > 0 {
        global.driver.DestroyInstance(h);
      }
      return Err(loaded.error);
    }
    var inst := new Instance(global, h, param, exts, loaded.value);
    r := Ok(inst);
  }
}
