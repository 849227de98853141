/**
 * The selectable physical device with its annotating extension choice, the chooser algebra
 * (projections, the short-circuiting and/or combinators, the discrete-card and
 * include-extensions choosers), and the logical-device core (src/core/device.hpp).
 */
module Device {
  import opened Wrappers
  import opened VkTypes
  import opened Tags
  import opened Function
  import opened Native
  import opened Global
  import PhysicalDevices

  /** What a chooser can observe and change: the descriptor, and the mutable chosen-extension list. */
  datatype DeviceView = DeviceView(descriptor: PhysicalDevices.PhysicalDevice, chosenExtensions: seq<Name>)

  /** A chooser's answer and the view it leaves behind. */
  datatype Verdict = Verdict(ok: bool, view: DeviceView)

  /**
   * choose_extensions as a function of the view: accepts exactly when every requested name is
   * advertised by the descriptor, and then records the requested names in argument order;
   * a rejection leaves the view as it was.
   */
  function Choose(exts: seq<ExtensionTag>, v: DeviceView): (r: Verdict)
    ensures r.ok <==> forall i | 0 <= i < |exts| :: CStr(ExtensionName(exts[i])) in AdvertisedNames(v.descriptor.extensions)
    ensures r.view.descriptor == v.descriptor
    ensures r.ok ==> r.view.chosenExtensions == ExtensionStringArray(exts)
    ensures !r.ok ==> r.view == v
  {
    var names := ExtensionStringArray(exts);
    if IsExtensionsSatisfied(names, v.descriptor.extensions) then Verdict(true, v.(chosenExtensions := names))
    else Verdict(false, v)
  }

  /** physical_device_t as an object: the descriptor is fixed, chosed_extensions_ is `mutable`. */
  class PhysicalDevice {
    const descriptor: PhysicalDevices.PhysicalDevice
    var chosenExtensions: seq<Name>

    /** The protected constructor: the five captured values, and nothing chosen yet. */
    constructor (device: Handle, properties: PhysicalDeviceProperties, features: PhysicalDeviceFeatures,
                 queueFamilies: seq<QueueFamily>, extensions: seq<ExtensionProperties>)
      ensures descriptor == PhysicalDevices.PhysicalDevice(device, properties, features, queueFamilies, extensions)
      ensures chosenExtensions == []
    {
      descriptor := PhysicalDevices.PhysicalDevice(device, properties, features, queueFamilies, extensions);
      chosenExtensions := [];
    }

    /** The defaulted copy constructor: every field, including the chosen extensions. */
    constructor Copy(other: PhysicalDevice)
      ensures descriptor == other.descriptor && chosenExtensions == other.chosenExtensions
    {
      descriptor := other.descriptor;
      chosenExtensions := other.chosenExtensions;
    }

    function View(): DeviceView
      reads this
    {
      DeviceView(descriptor, chosenExtensions)
    }

    /** choose_extensions: the only member that changes a const physical_device_t. */
    method ChooseExtensions(exts: seq<ExtensionTag>) returns (ok: bool)
      modifies this
      ensures Verdict(ok, View()) == Choose(exts, old(View()))
    {
      var extensions := ExtensionStringArray(exts);
      ok := false;
      if IsExtensionsSatisfied(extensions, descriptor.extensions) {
        chosenExtensions := extensions;
        ok := true;
      }
    }
  }

  /**
   * A physical_device_functor_t and the and/or operator objects built from such functors:
   * a pure test of the descriptor, the annotating include-extensions chooser, and the two
   * combinators.
   */
  datatype Chooser =
    | Test(f: PhysicalDevices.PhysicalDevice -> bool)
    | IncludeExtensions(exts: seq<ExtensionTag>)
    | And(lhs: Chooser, rhs: Chooser)
    | Or(lhs: Chooser, rhs: Chooser)

  /** Calling a chooser on a device: lhs first, and rhs only when lhs does not decide already. */
  function Eval(c: Chooser, v: DeviceView): (r: Verdict)
    ensures r.view.descriptor == v.descriptor
  {
    match c
    case Test(f) => Verdict(f(v.descriptor), v)
    case IncludeExtensions(exts) => Choose(exts, v)
    case And(lhs, rhs) =>
      var left := Eval(lhs, v);
      if !left.ok then left else Eval(rhs, left.view)
    case Or(lhs, rhs) =>
      var left := Eval(lhs, v);
      if left.ok then left else Eval(rhs, left.view)
  }

  /** The functor's operator(), run on the object itself. */
  method Evaluate(c: Chooser, pd: PhysicalDevice) returns (ok: bool)
    modifies pd
    ensures Verdict(ok, pd.View()) == Eval(c, old(pd.View()))
  {
    match c
    case Test(f) =>
      ok := f(pd.descriptor);
    case IncludeExtensions(exts) =>
      ok := pd.ChooseExtensions(exts);
    case And(lhs, rhs) =>
      ok := Evaluate(lhs, pd);
      if ok {
        ok := Evaluate(rhs, pd);
      }
    case Or(lhs, rhs) =>
      ok := Evaluate(lhs, pd);
      if !ok {
        ok := Evaluate(rhs, pd);
      }
  }

  /** physical_device_function: f sees the whole descriptor; the device is left as it was. */
  function PhysicalDeviceFunction(f: PhysicalDevices.PhysicalDevice -> bool): (c: Chooser)
    ensures forall v :: Eval(c, v) == Verdict(f(v.descriptor), v)
  {
    Test(f)
  }

  /** physical_device_properties_function: f sees only the properties. */
  function PropertiesFunction(f: PhysicalDeviceProperties -> bool): (c: Chooser)
    ensures forall v :: Eval(c, v) == Verdict(f(v.descriptor.properties), v)
  {
    Test((pd: PhysicalDevices.PhysicalDevice) => f(pd.properties))
  }

  /** physical_device_features_function: f sees only the features. */
  function FeaturesFunction(f: PhysicalDeviceFeatures -> bool): (c: Chooser)
    ensures forall v :: Eval(c, v) == Verdict(f(v.descriptor.features), v)
  {
    Test((pd: PhysicalDevices.PhysicalDevice) => f(pd.features))
  }

  /** physical_device_extension_function: f sees only the advertised extensions. */
  function ExtensionFunction(f: seq<ExtensionProperties> -> bool): (c: Chooser)
    ensures forall v :: Eval(c, v) == Verdict(f(v.descriptor.extensions), v)
  {
    Test((pd: PhysicalDevices.PhysicalDevice) => f(pd.extensions))
  }

  /** physical_device_queue_families_function: f sees only the queue families. */
  function QueueFamiliesFunction(f: seq<QueueFamily> -> bool): (c: Chooser)
    ensures forall v :: Eval(c, v) == Verdict(f(v.descriptor.queueFamilies), v)
  {
    Test((pd: PhysicalDevices.PhysicalDevice) => f(pd.queueFamilies))
  }

  /** physical_device_require_descrete_card: holds exactly for a discrete GPU, and annotates nothing. */
  function RequireDiscreteCard(): (c: Chooser)
    ensures forall v :: Eval(c, v).ok <==> v.descriptor.properties.deviceType == DiscreteGpu
    ensures forall v :: Eval(c, v).view == v
  {
    PropertiesFunction((p: PhysicalDeviceProperties) => p.deviceType == DiscreteGpu)
  }

  /** physical_device_include_extensions: the chooser that calls choose_extensions with the tags. */
  function IncludeExtensionsChooser(exts: seq<ExtensionTag>): (c: Chooser)
    ensures forall v :: Eval(c, v) == Choose(exts, v)
  {
    IncludeExtensions(exts)
  }

  /** A chooser that never calls choose_extensions. */
  predicate Pure(c: Chooser)
  {
    match c
    case Test(_) => true
    case IncludeExtensions(_) => false
    case And(lhs, rhs) => Pure(lhs) && Pure(rhs)
    case Or(lhs, rhs) => Pure(lhs) && Pure(rhs)
  }

  /** The reference meaning of a pure chooser: plain boolean conjunction and disjunction. */
  predicate Holds(c: Chooser, d: PhysicalDevices.PhysicalDevice)
    requires Pure(c)
  {
    match c
    case Test(f) => f(d)
    case And(lhs, rhs) => Holds(lhs, d) && Holds(rhs, d)
    case Or(lhs, rhs) => Holds(lhs, d) || Holds(rhs, d)
  }

  /** A pure chooser leaves the device as it found it, and its verdict is the boolean one. */
  lemma {:induction false} PureChooserIsBoolean(c: Chooser, v: DeviceView)
    requires Pure(c)
    ensures Eval(c, v) == Verdict(Holds(c, v.descriptor), v)
  {
    match c
    case Test(_) =>
    case And(lhs, rhs) =>
      PureChooserIsBoolean(lhs, v);
      PureChooserIsBoolean(rhs, v);
    case Or(lhs, rhs) =>
      PureChooserIsBoolean(lhs, v);
      PureChooserIsBoolean(rhs, v);
  }

  /** Between pure choosers the order of the operands of && and || does not matter. */
  lemma PureOperandsCommute(lhs: Chooser, rhs: Chooser, v: DeviceView)
    requires Pure(lhs) && Pure(rhs)
    ensures Eval(And(lhs, rhs), v) == Eval(And(rhs, lhs), v)
    ensures Eval(Or(lhs, rhs), v) == Eval(Or(rhs, lhs), v)
  {
    PureChooserIsBoolean(And(lhs, rhs), v);
    PureChooserIsBoolean(And(rhs, lhs), v);
    PureChooserIsBoolean(Or(lhs, rhs), v);
    PureChooserIsBoolean(Or(rhs, lhs), v);
  }

  /** &&: a false lhs decides, and rhs, with whatever it would choose, is not run. */
  lemma AndShortCircuits(lhs: Chooser, rhs: Chooser, v: DeviceView)
    ensures !Eval(lhs, v).ok ==> Eval(And(lhs, rhs), v) == Eval(lhs, v)
    ensures Eval(lhs, v).ok ==> Eval(And(lhs, rhs), v) == Eval(rhs, Eval(lhs, v).view)
    ensures Eval(And(lhs, rhs), v).ok <==> Eval(lhs, v).ok && Eval(rhs, Eval(lhs, v).view).ok
  {
  }

  /** ||: a true lhs decides, and rhs is not run. */
  lemma OrShortCircuits(lhs: Chooser, rhs: Chooser, v: DeviceView)
    ensures Eval(lhs, v).ok ==> Eval(Or(lhs, rhs), v) == Eval(lhs, v)
    ensures !Eval(lhs, v).ok ==> Eval(Or(lhs, rhs), v) == Eval(rhs, Eval(lhs, v).view)
    ensures Eval(Or(lhs, rhs), v).ok <==> Eval(lhs, v).ok || Eval(rhs, Eval(lhs, v).view).ok
  {
  }

  /** The extension requests a chooser can make. */
  function Requests(c: Chooser): set<seq<ExtensionTag>>
  {
    match c
    case Test(_) => {}
    case IncludeExtensions(exts) => {exts}
    case And(lhs, rhs) => Requests(lhs) + Requests(rhs)
    case Or(lhs, rhs) => Requests(lhs) + Requests(rhs)
  }

  /** The chosen list is the name array of one of the chooser's requests. */
  predicate FromARequest(chosen: seq<Name>, c: Chooser)
  {
    exists e | e in Requests(c) :: chosen == ExtensionStringArray(e)
  }

  /** After a chooser ran, the chosen list is the old one or the names of one of its own requests. */
  lemma {:induction false} ChosenComesFromARequest(c: Chooser, v: DeviceView)
    decreases c, 1
    ensures var chosen := Eval(c, v).view.chosenExtensions;
      chosen == v.chosenExtensions || FromARequest(chosen, c)
  {
    match c
    case Test(_) =>
    case IncludeExtensions(exts) =>
      assert exts in Requests(c);
      assert Choose(exts, v).ok ==> FromARequest(ExtensionStringArray(exts), c);
    case And(lhs, rhs) =>
      ChosenComesFromAnOperand(c, lhs, rhs, v);
    case Or(lhs, rhs) =>
      ChosenComesFromAnOperand(c, lhs, rhs, v);
  }

  /** The step of ChosenComesFromARequest for a conjunction or disjunction: the witness comes from an operand. */
  lemma {:induction false} ChosenComesFromAnOperand(c: Chooser, lhs: Chooser, rhs: Chooser, v: DeviceView)
    requires c == And(lhs, rhs) || c == Or(lhs, rhs)
    decreases c, 0
    ensures var chosen := Eval(c, v).view.chosenExtensions;
      chosen == v.chosenExtensions || FromARequest(chosen, c)
  {
    var left := Eval(lhs, v);
    ChosenComesFromARequest(lhs, v);
    ChosenComesFromARequest(rhs, left.view);
    var chosen := Eval(c, v).view.chosenExtensions;
    if chosen != v.chosenExtensions {
      if chosen == left.view.chosenExtensions {
        var e :| e in Requests(lhs) && left.view.chosenExtensions == ExtensionStringArray(e);
        assert e in Requests(c);
        assert FromARequest(chosen, c);
      } else {
        assert chosen == Eval(rhs, left.view).view.chosenExtensions;
        var e :| e in Requests(rhs) && chosen == ExtensionStringArray(e);
        assert e in Requests(c);
        assert FromARequest(chosen, c);
      }
    }
  }

  /** Only choose_extensions writes: a chooser that accepts a device records its request there. */
  lemma AcceptedRequestIsRecorded(exts: seq<ExtensionTag>, v: DeviceView)
    requires Choose(exts, v).ok
    ensures Eval(IncludeExtensions(exts), v).view.chosenExtensions == ExtensionStringArray(exts)
    ensures |Eval(IncludeExtensions(exts), v).view.chosenExtensions| == |exts|
  {
  }

  /** The commands the device core constructor loads, in order. */
  const DeviceCoreCommands: seq<Name> := [
    "vkGetDeviceQueue", "vkDeviceWaitIdle", "vkDestroyDevice", "vkCreateBuffer",
    "vkGetBufferMemoryRequirements", "vkAllocateMemory", "vkBindBufferMemory", "vkCmdPipelineBarrier",
    "vkCreateImage", "vkGetImageMemoryRequirements", "vkBindImageMemory", "vkCreateImageView", "vkMapMemory",
    "vkFlushMappedMemoryRanges", "vkUnmapMemory", "vkCmdCopyBuffer", "vkCmdCopyBufferToImage",
    "vkCmdCopyImageToBuffer", "vkBeginCommandBuffer", "vkEndCommandBuffer", "vkQueueSubmit",
    "vkDestroyImageView", "vkDestroyImage", "vkDestroyBuffer", "vkFreeMemory", "vkCreateCommandPool",
    "vkAllocateCommandBuffers", "vkCreateSemaphore", "vkCreateFence", "vkWaitForFences", "vkResetFences",
    "vkDestroyFence", "vkDestroySemaphore", "vkResetCommandBuffer", "vkFreeCommandBuffers",
    "vkResetCommandPool", "vkDestroyCommandPool", "vkCreateBufferView", "vkDestroyBufferView",
    "vkQueueWaitIdle", "vkCreateSampler", "vkCreateDescriptorSetLayout", "vkCreateDescriptorPool",
    "vkAllocateDescriptorSets", "vkUpdateDescriptorSets", "vkCmdBindDescriptorSets", "vkFreeDescriptorSets",
    "vkResetDescriptorPool", "vkDestroyDescriptorPool", "vkDestroyDescriptorSetLayout", "vkDestroySampler",
    "vkCreateRenderPass", "vkCreateFramebuffer", "vkDestroyFramebuffer", "vkDestroyRenderPass",
    "vkCmdBeginRenderPass", "vkCmdNextSubpass", "vkCmdEndRenderPass", "vkCreatePipelineCache",
    "vkGetPipelineCacheData", "vkMergePipelineCaches", "vkDestroyPipelineCache", "vkCreateGraphicsPipelines",
    "vkCreateComputePipelines", "vkDestroyPipeline", "vkDestroyEvent", "vkDestroyQueryPool",
    "vkCreateShaderModule", "vkDestroyShaderModule", "vkCreatePipelineLayout", "vkDestroyPipelineLayout",
    "vkCmdBindPipeline", "vkCmdSetViewport", "vkCmdSetScissor", "vkCmdBindVertexBuffers", "vkCmdDraw",
    "vkCmdDrawIndexed", "vkCmdDispatch", "vkCmdCopyImage", "vkCmdPushConstants", "vkCmdClearColorImage",
    "vkCmdClearDepthStencilImage", "vkCmdBindIndexBuffer", "vkCmdSetLineWidth", "vkCmdSetDepthBias",
    "vkCmdSetBlendConstants", "vkCmdExecuteCommands", "vkCmdClearAttachments"  ]

  /** device_extension<device_core_t>: the logical device handle and its loaded commands. */
  class DeviceCore {
    const driver: Driver
    const device: Handle
    const commands: map<Name, EntryPoint>
    ghost var destroyed: bool

    constructor (driver: Driver, device: Handle, commands: map<Name, EntryPoint>)
      ensures this.driver == driver && this.device == device && this.commands == commands && !destroyed
    {
      this.driver, this.device, this.commands := driver, device, commands;
      destroyed := false;
    }

    /** The destructor: vkDestroyDevice exactly when the handle is not null. */
    method Destroy()
      requires !destroyed
      modifies this, driver
      ensures destroyed && driver.lastHandle == old(driver.lastHandle)
      ensures driver.trace == old(driver.trace) + if device != NullHandle then [Call.DestroyDevice(device)] else []
    {
      if device != NullHandle {
        driver.DestroyDevice(device);
      }
      destroyed := true;
    }
  }

  /**
   * The device core constructor: keeps the handle and loads every device command through
   * vkGetDeviceProcAddr; the first command that does not resolve throws.
   */
  method CreateDeviceCore(driver: Driver, device: Handle) returns (r: Result<DeviceCore, Error>)
    ensures var k := FirstUnresolved((h: Handle, n: Name) => driver.GetDeviceProcAddr(h, n), DeviceCoreCommands, device);
      && (r.Ok? <==> k == |DeviceCoreCommands|)
      && (r.Err? ==> r.error == LoadFailed(DeviceCoreCommands[k]))
    ensures r.Ok? ==> fresh(r.value) && r.value.driver == driver && r.value.device == device && !r.value.destroyed
    ensures r.Ok? ==> r.value.commands.Keys == set n | n in DeviceCoreCommands
    ensures r.Ok? ==> forall n | n in r.value.commands :: driver.GetDeviceProcAddr(device, n) == Some(r.value.commands[n])
  {
    var resolve: Resolver := (h: Handle, n: Name) => driver.GetDeviceProcAddr(h, n);
    var loaded := LoadFunctions(resolve, DeviceCoreCommands, device);
    if loaded.Err? {
      return Err(loaded.error);
    }
    var core := new DeviceCore(driver, device, loaded.value);
    r := Ok(core);
  }
}
