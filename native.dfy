/**
 * The native side: a stand-in for the platform's Vulkan loader and driver, on which the wrapper's
 * calls are made. What the system reports (its libraries, exported symbols, resolvable commands,
 * extensions, physical devices and status codes) is fixed when the driver is built; the calls whose
 * occurrence the wrapper's contracts talk about are appended to a ghost trace.
 */
module Native {
  import opened Wrappers
  import opened VkTypes

  /** A function pointer handed out by a resolver: the command, resolved for an instance or device. */
  datatype EntryPoint = EntryPoint(command: Name, scope: Handle)

  /** VkApplicationInfo. */
  datatype ApplicationInfo = ApplicationInfo(
    applicationName: Name, applicationVersion: nat, engineName: Name, engineVersion: nat, apiVersion: nat)

  /** VkInstanceCreateInfo (flags and pNext are always 0 / nullptr in the wrapper). */
  datatype InstanceCreateInfo = InstanceCreateInfo(
    applicationInfo: ApplicationInfo,
    enabledLayerCount: nat,
    enabledExtensionCount: nat,
    enabledExtensionNames: seq<Name>)

  /** What a physical device reports about one surface; support[i] is the VkBool32 for queue family i. */
  datatype SurfaceInfo = SurfaceInfo(
    capabilities: SurfaceCapabilities, formats: seq<SurfaceFormat>, presentModes: seq<PresentMode>, support: seq<nat>)

  /** Everything the driver reports about one physical device. */
  datatype DeviceRecord = DeviceRecord(
    properties: PhysicalDeviceProperties,
    features: PhysicalDeviceFeatures,
    queueFamilies: seq<QueueFamilyProperties>,
    extensions: seq<ExtensionProperties>,
    surfaces: map<Handle, SurfaceInfo>)

  const UnknownDevice := DeviceRecord(PhysicalDeviceProperties(0, 0, 0, Other, []), PhysicalDeviceFeatures([]), [], [], map[])
  const UnknownSurface := SurfaceInfo(SurfaceCapabilities(0, 0), [], [], [])

  /** The native calls the trace records. A fill call is the second call of the count/fill protocol. */
  datatype Call =
    | EnumerateInstanceExtensionProperties(fill: bool)
    | CreateInstance(info: InstanceCreateInfo)
    | DestroyInstance(instance: Handle)
    | DestroyDevice(device: Handle)
    | DestroySurface(instance: Handle, surface: Handle)
    | GetSurfaceCapabilities(physicalDevice: Handle, surface: Handle)
    | GetSurfaceFormats(physicalDevice: Handle, surface: Handle, fill: bool)
    | GetSurfacePresentModes(physicalDevice: Handle, surface: Handle, fill: bool)
    | GetSurfaceSupport(physicalDevice: Handle, queueFamily: nat, surface: Handle)

  function Min(a: nat, b: nat): nat { if a < b then a else b }

  /** The second call of the count/fill protocol: writes as many entries as the buffer holds. */
  method Fill<T>(src: seq<T>, buf: array<T>) returns (written: nat)
    modifies buf
    ensures written == Min(buf.Length, |src|)
    ensures buf[..written] == src[..written]
    ensures buf[written..] == old(buf[written..])
  {
    written := Min(buf.Length, |src|);
    forall i | 0 <= i < written {
      buf[i] := src[i];
    }
  }

  class Driver {
    /** The library names the system search path finds. */
    const libraries: set<Name>
    /** The symbols the opened library exports. */
    const exports: set<Name>
    /** Commands vkGetInstanceProcAddr resolves with a null instance, with a real instance, and vkGetDeviceProcAddr resolves. */
    const globalCommands: set<Name>
    const instanceCommands: set<Name>
    const deviceCommands: set<Name>
    /** The instance extensions the system advertises. */
    const instanceExtensions: seq<ExtensionProperties>
    /** The status vkCreateInstance reports. */
    const createInstanceResult: Status
    /** The physical devices vkEnumeratePhysicalDevices reports, in its order, and what each reports. */
    const physicalDevices: seq<Handle>
    const records: map<Handle, DeviceRecord>

    ghost var trace: seq<Call>
    /** The last handle vkCreateInstance handed out. */
    var lastHandle: nat

    constructor (libraries: set<Name>, exports: set<Name>,
                 globalCommands: set<Name>, instanceCommands: set<Name>, deviceCommands: set<Name>,
                 instanceExtensions: seq<ExtensionProperties>, createInstanceResult: Status,
                 physicalDevices: seq<Handle>, records: map<Handle, DeviceRecord>)
      ensures this.libraries == libraries && this.exports == exports
      ensures this.globalCommands == globalCommands && this.instanceCommands == instanceCommands
      ensures this.deviceCommands == deviceCommands
      ensures this.instanceExtensions == instanceExtensions && this.createInstanceResult == createInstanceResult
      ensures this.physicalDevices == physicalDevices && this.records == records
      ensures trace == [] && lastHandle == 0
    {
      this.libraries, this.exports := libraries, exports;
      this.globalCommands, this.instanceCommands, this.deviceCommands := globalCommands, instanceCommands, deviceCommands;
      this.instanceExtensions, this.createInstanceResult := instanceExtensions, createInstanceResult;
      this.physicalDevices, this.records := physicalDevices, records;
      trace, lastHandle := [], 0;
    }

    function Record(physicalDevice: Handle): DeviceRecord
    {
      if physicalDevice in records then records[physicalDevice] else UnknownDevice
    }

    function Surface(physicalDevice: Handle, surface: Handle): SurfaceInfo
    {
      var surfaces := Record(physicalDevice).surfaces;
      if surface in surfaces then surfaces[surface] else UnknownSurface
    }

    /** vkGetInstanceProcAddr: null when the command is not resolvable at that level. */
    function GetInstanceProcAddr(instance: Handle, command: Name): Option<EntryPoint>
    {
      var known := if instance == NullHandle then globalCommands else instanceCommands;
      if command in known then Some(EntryPoint(command, instance)) else None
    }

    /** vkGetDeviceProcAddr. */
    function GetDeviceProcAddr(device: Handle, command: Name): Option<EntryPoint>
    {
      if device != NullHandle && command in deviceCommands then Some(EntryPoint(command, device)) else None
    }

    /** vkEnumerateInstanceExtensionProperties(nullptr, &count, nullptr). */
    method EnumerateInstanceExtensionCount() returns (count: nat)
      modifies this
      ensures count == |instanceExtensions| && lastHandle == old(lastHandle)
      ensures trace == old(trace) + [EnumerateInstanceExtensionProperties(false)]
    {
      count := |instanceExtensions|;
      trace := trace + [EnumerateInstanceExtensionProperties(false)];
    }

    /** vkEnumerateInstanceExtensionProperties(nullptr, &count, data). */
    method EnumerateInstanceExtensionFill(buf: array<ExtensionProperties>) returns (written: nat)
      modifies this, buf
      ensures written == Min(buf.Length, |instanceExtensions|)
      ensures buf[..written] == instanceExtensions[..written] && lastHandle == old(lastHandle)
      ensures trace == old(trace) + [EnumerateInstanceExtensionProperties(true)]
    {
      written := Fill(instanceExtensions, buf);
      trace := trace + [EnumerateInstanceExtensionProperties(true)];
    }

    /** vkCreateInstance: a new non-null handle on success, none otherwise. */
    method CreateInstance(info: InstanceCreateInfo) returns (status: Status, instance: Handle)
      modifies this
      ensures status == createInstanceResult
      ensures trace == old(trace) + [Call.CreateInstance(info)]
      ensures status == VK_SUCCESS ==> instance == old(lastHandle) + 1 == lastHandle
      ensures status != VK_SUCCESS ==> instance == NullHandle && lastHandle == old(lastHandle)
    {
      status := createInstanceResult;
      trace := trace + [Call.CreateInstance(info)];
      if status == VK_SUCCESS {
        lastHandle := lastHandle + 1;
        instance := lastHandle;
      } else {
        instance := NullHandle;
      }
    }

    /** vkDestroyInstance. */
    method DestroyInstance(instance: Handle)
      modifies this
      ensures trace == old(trace) + [Call.DestroyInstance(instance)] && lastHandle == old(lastHandle)
    {
      trace := trace + [Call.DestroyInstance(instance)];
    }

    /** vkDestroyDevice. */
    method DestroyDevice(device: Handle)
      modifies this
      ensures trace == old(trace) + [Call.DestroyDevice(device)] && lastHandle == old(lastHandle)
    {
      trace := trace + [Call.DestroyDevice(device)];
    }

    /** vkDestroySurfaceKHR. */
    method DestroySurface(instance: Handle, surface: Handle)
      modifies this
      ensures trace == old(trace) + [Call.DestroySurface(instance, surface)] && lastHandle == old(lastHandle)
    {
      trace := trace + [Call.DestroySurface(instance, surface)];
    }

    /** vkEnumeratePhysicalDevices, count then fill. */
    function PhysicalDeviceCount(instance: Handle): nat
    {
      |physicalDevices|
    }

    method EnumeratePhysicalDevicesFill(instance: Handle, buf: array<Handle>) returns (written: nat)
      modifies buf
      ensures written == Min(buf.Length, |physicalDevices|) && buf[..written] == physicalDevices[..written]
    {
      written := Fill(physicalDevices, buf);
    }

    /** vkGetPhysicalDeviceProperties and vkGetPhysicalDeviceFeatures. */
    function PhysicalDeviceProperties(physicalDevice: Handle): PhysicalDeviceProperties
    {
      Record(physicalDevice).properties
    }

    function PhysicalDeviceFeatures(physicalDevice: Handle): PhysicalDeviceFeatures
    {
      Record(physicalDevice).features
    }

    /** vkGetPhysicalDeviceQueueFamilyProperties, count then fill. */
    function QueueFamilyCount(physicalDevice: Handle): nat
    {
      |Record(physicalDevice).queueFamilies|
    }

    method QueueFamilyFill(physicalDevice: Handle, buf: array<QueueFamilyProperties>) returns (written: nat)
      modifies buf
      ensures var src := Record(physicalDevice).queueFamilies;
        written == Min(buf.Length, |src|) && buf[..written] == src[..written]
    {
      written := Fill(Record(physicalDevice).queueFamilies, buf);
    }

    /** vkEnumerateDeviceExtensionProperties, count then fill. */
    function DeviceExtensionCount(physicalDevice: Handle): nat
    {
      |Record(physicalDevice).extensions|
    }

    method DeviceExtensionFill(physicalDevice: Handle, buf: array<ExtensionProperties>) returns (written: nat)
      modifies buf
      ensures var src := Record(physicalDevice).extensions;
        written == Min(buf.Length, |src|) && buf[..written] == src[..written]
    {
      written := Fill(Record(physicalDevice).extensions, buf);
    }

    /** vkGetPhysicalDeviceSurfaceCapabilitiesKHR. */
    method GetSurfaceCapabilities(physicalDevice: Handle, surface: Handle) returns (caps: SurfaceCapabilities)
      modifies this
      ensures caps == Surface(physicalDevice, surface).capabilities && lastHandle == old(lastHandle)
      ensures trace == old(trace) + [Call.GetSurfaceCapabilities(physicalDevice, surface)]
    {
      caps := Surface(physicalDevice, surface).capabilities;
      trace := trace + [Call.GetSurfaceCapabilities(physicalDevice, surface)];
    }

    /** vkGetPhysicalDeviceSurfaceFormatsKHR, count then fill. */
    method SurfaceFormatCount(physicalDevice: Handle, surface: Handle) returns (count: nat)
      modifies this
      ensures count == |Surface(physicalDevice, surface).formats| && lastHandle == old(lastHandle)
      ensures trace == old(trace) + [GetSurfaceFormats(physicalDevice, surface, false)]
    {
      count := |Surface(physicalDevice, surface).formats|;
      trace := trace + [GetSurfaceFormats(physicalDevice, surface, false)];
    }

    method SurfaceFormatFill(physicalDevice: Handle, surface: Handle, buf: array<SurfaceFormat>) returns (written: nat)
      modifies this, buf
      ensures var src := Surface(physicalDevice, surface).formats;
        written == Min(buf.Length, |src|) && buf[..written] == src[..written]
      ensures trace == old(trace) + [GetSurfaceFormats(physicalDevice, surface, true)] && lastHandle == old(lastHandle)
    {
      written := Fill(Surface(physicalDevice, surface).formats, buf);
      trace := trace + [GetSurfaceFormats(physicalDevice, surface, true)];
    }

    /** vkGetPhysicalDeviceSurfacePresentModesKHR, count then fill. */
    method PresentModeCount(physicalDevice: Handle, surface: Handle) returns (count: nat)
      modifies this
      ensures count == |Surface(physicalDevice, surface).presentModes| && lastHandle == old(lastHandle)
      ensures trace == old(trace) + [GetSurfacePresentModes(physicalDevice, surface, false)]
    {
      count := |Surface(physicalDevice, surface).presentModes|;
      trace := trace + [GetSurfacePresentModes(physicalDevice, surface, false)];
    }

    method PresentModeFill(physicalDevice: Handle, surface: Handle, buf: array<PresentMode>) returns (written: nat)
      modifies this, buf
      ensures var src := Surface(physicalDevice, surface).presentModes;
        written == Min(buf.Length, |src|) && buf[..written] == src[..written]
      ensures trace == old(trace) + [GetSurfacePresentModes(physicalDevice, surface, true)] && lastHandle == old(lastHandle)
    {
      written := Fill(Surface(physicalDevice, surface).presentModes, buf);
      trace := trace + [GetSurfacePresentModes(physicalDevice, surface, true)];
    }

    /** The VkBool32 vkGetPhysicalDeviceSurfaceSupportKHR reports for a queue family. */
    function SurfaceSupport(physicalDevice: Handle, queueFamily: nat, surface: Handle): nat
    {
      var support := Surface(physicalDevice, surface).support;
      if queueFamily < |support| then support[queueFamily] else 0
    }

    method GetSurfaceSupport(physicalDevice: Handle, queueFamily: nat, surface: Handle) returns (supported: nat)
      modifies this
      ensures supported == SurfaceSupport(physicalDevice, queueFamily, surface) && lastHandle == old(lastHandle)
      ensures trace == old(trace) + [Call.GetSurfaceSupport(physicalDevice, queueFamily, surface)]
    {
      supported := SurfaceSupport(physicalDevice, queueFamily, surface);
      trace := trace + [Call.GetSurfaceSupport(physicalDevice, queueFamily, surface)];
    }
  }
}
