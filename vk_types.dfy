/**
 * The parts of the native graphics API (vulkan.h) and of <cstring> that the wrapper relies on:
 * handles, status codes, the plain structures it copies around, and strcmp on NUL-terminated names.
 */
module VkTypes {

  /** A dispatchable or non-dispatchable native handle; 0 is VK_NULL_HANDLE / nullptr. */
  type Handle = nat

  const NullHandle: Handle := 0

  /** VkResult; 0 is VK_SUCCESS, every other value is an error or a partial result. */
  type Status = int

  const VK_SUCCESS: Status := 0

  /** The NUL character that terminates a C string. */
  const NUL: char := 0 as char

  /** A C string as the characters of its buffer; the string ends at the first NUL or at the end of the buffer. */
  type Name = seq<char>

  /** VK_MAKE_VERSION(major, minor, patch) = major << 22 | minor << 12 | patch. */
  function MakeVersion(major: nat, minor: nat, patch: nat): (v: nat)
    requires minor < 1024 && patch < 4096
    ensures v / 4194304 == major && (v / 4096) % 1024 == minor && v % 4096 == patch
  {
    major * 4194304 + minor * 4096 + patch
  }

  /** VkExtensionProperties: a fixed-size name buffer and the extension's revision. */
  datatype ExtensionProperties = ExtensionProperties(extensionName: Name, specVersion: nat)

  /** VkPhysicalDeviceType. */
  datatype PhysicalDeviceType = Other | IntegratedGpu | DiscreteGpu | VirtualGpu | Cpu

  /** The part of VkPhysicalDeviceProperties the wrapper's predicates look at. */
  datatype PhysicalDeviceProperties = PhysicalDeviceProperties(
    apiVersion: nat, vendorId: nat, deviceId: nat, deviceType: PhysicalDeviceType, deviceName: Name)

  /** VkPhysicalDeviceFeatures: one VkBool32 per optional feature. */
  datatype PhysicalDeviceFeatures = PhysicalDeviceFeatures(enabled: seq<bool>)

  /** VkQueueFlags bits. */
  const VK_QUEUE_GRAPHICS_BIT: bv32 := 0x1
  const VK_QUEUE_COMPUTE_BIT: bv32 := 0x2
  const VK_QUEUE_TRANSFER_BIT: bv32 := 0x4

  /** VkQueueFamilyProperties. */
  datatype QueueFamilyProperties = QueueFamilyProperties(queueFlags: bv32, queueCount: nat, timestampValidBits: nat)

  /** The wrapper's queue_family_t: a family's position in the native list and its properties. */
  datatype QueueFamily = QueueFamily(index: nat, properties: QueueFamilyProperties)

  /** VkSurfaceCapabilitiesKHR, VkSurfaceFormatKHR and VkPresentModeKHR, kept opaque. */
  datatype SurfaceCapabilities = SurfaceCapabilities(minImageCount: nat, maxImageCount: nat)
  datatype SurfaceFormat = SurfaceFormat(format: nat, colorSpace: nat)
  type PresentMode = nat

  /** The std::runtime_error messages the wrapper throws, one variant per throw site. */
  datatype Error =
    | LibraryNotFound(library: Name)        // boost::dll could not open the platform library
    | SymbolNotFound(symbol: Name)          // "<name> not found!"
    | LoadFailed(command: Name)             // "Failed to load <name> from vulkan!"
    | ExtensionsNotSatisfied                // "Extensions are not satisfired!"
    | CreateInstanceFailed(status: Status)  // "Failed to call vkCreateInstance!"
    | NoSuitablePhysicalDevice              // "Cannot select an appropriate physical device!"

  /** The character at position i of a C string buffer, reading past the end as NUL. */
  function At(s: Name, i: nat): char
  {
    if i < |s| then s[i] else NUL
  }

  /** The string a buffer holds: its characters before the first NUL. */
  function CStr(s: Name): (r: Name)
    ensures |r| <= |s| && r == s[..|r|]
    ensures forall k | 0 <= k < |r| :: r[k] != NUL
    ensures At(s, |r|) == NUL
  {
    if s == [] || s[0] == NUL then [] else [s[0]] + CStr(s[1..])
  }

  /**
   * strcmp: compares character by character up to the first difference or the terminating NUL;
   * zero exactly when the two C strings are equal, byte for byte.
   */
  function StrCmp(a: Name, b: Name): (r: int)
    ensures r == 0 <==> CStr(a) == CStr(b)
    decreases |a|
  {
    var ca, cb := At(a, 0), At(b, 0);
    if ca != cb then
      assert CStr(a) == [] || CStr(b) == [] || CStr(a)[0] != CStr(b)[0];
      ca as int - cb as int
    else if ca == NUL then 0
    else
      var r := StrCmp(a[1..], b[1..]);
      assert CStr(a) == [ca] + CStr(a[1..]) && CStr(b) == [cb] + CStr(b[1..]);
      r
  }

  /** A name literal has no NUL inside, so the string it holds is the literal itself. */
  lemma {:induction false} CStrOfPlain(s: Name)
    requires forall k | 0 <= k < |s| :: s[k] != NUL
    ensures CStr(s) == s
  {
    if s != [] {
      CStrOfPlain(s[1..]);
    }
  }
}
