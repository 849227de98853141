/**
 * The extension tags of the KHR surface, win32-surface and swapchain extensions. Each tag is a type
 * in the C++ code whose static name() returns the extension's advertised name.
 */
module Tags {
  import opened VkTypes

  const VK_KHR_SURFACE_EXTENSION_NAME: Name := "VK_KHR_surface"
  const VK_KHR_WIN32_SURFACE_EXTENSION_NAME: Name := "VK_KHR_win32_surface"
  const VK_KHR_SWAPCHAIN_EXTENSION_NAME: Name := "VK_KHR_swapchain"

  /** khr::surface_ext_t, khr::surface_win32_ext_t and khr::swapchain_ext_t. */
  datatype ExtensionTag = KhrSurface | KhrWin32Surface | KhrSwapchain {

    /** Surface and win32 surface specialise instance_extension; swapchain specialises device_extension. */
    predicate IsInstanceExtension()
    {
      !KhrSwapchain?
    }
  }

  /** Tag::name(). */
  function ExtensionName(t: ExtensionTag): (n: Name)
    ensures n != [] && CStr(n) == n
  {
    var n := match t
      case KhrSurface => VK_KHR_SURFACE_EXTENSION_NAME
      case KhrWin32Surface => VK_KHR_WIN32_SURFACE_EXTENSION_NAME
      case KhrSwapchain => VK_KHR_SWAPCHAIN_EXTENSION_NAME;
    CStrOfPlain(n);
    n
  }

  /** Different tags advertise different names, so a name list determines the tags it came from. */
  lemma ExtensionNameInjective(s: ExtensionTag, t: ExtensionTag)
    requires s != t
    ensures CStr(ExtensionName(s)) != CStr(ExtensionName(t))
  {
    assert ExtensionName(s)[7] != ExtensionName(t)[7] || |ExtensionName(s)| != |ExtensionName(t)|;
  }

  /** The commands each extension layer's constructor loads, in order. */
  const SurfaceCommands: seq<Name> := [
    "vkGetPhysicalDeviceSurfaceSupportKHR", "vkGetPhysicalDeviceSurfaceCapabilitiesKHR",
    "vkGetPhysicalDeviceSurfaceFormatsKHR", "vkGetPhysicalDeviceSurfacePresentModesKHR", "vkDestroySurfaceKHR"]
  const Win32SurfaceCommands: seq<Name> := ["vkCreateWin32SurfaceKHR"]
  const SwapchainCommands: seq<Name> := [
    "vkCreateSwapchainKHR", "vkGetSwapchainImagesKHR", "vkAcquireNextImageKHR", "vkQueuePresentKHR", "vkDestroySwapchainKHR"]

  function LayerCommands(t: ExtensionTag): seq<Name>
  {
    match t
    case KhrSurface => SurfaceCommands
    case KhrWin32Surface => Win32SurfaceCommands
    case KhrSwapchain => SwapchainCommands
  }
}
