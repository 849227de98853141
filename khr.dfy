/**
 * The KHR surface layer of an instance (src/extensions/khr.hpp): destroying a surface, querying
 * its properties with the count/fill protocol, the per-queue-family support query, and the
 * chooser that accepts a device with a queue family able to present to the surface. These are
 * members of instance_extension<surface_ext_t, Base>, so each requires the surface layer to be
 * among the instance's extensions.
 */
module Khr {
  import opened VkTypes
  import opened Native
  import PhysicalDevices
  import Device
  import Instances
  import Tags

  /** khr::surface_properties_t. */
  datatype SurfaceProperties = SurfaceProperties(
    capabilities: SurfaceCapabilities,
    formats: seq<SurfaceFormat>,
    presentModes: seq<PresentMode>)

  /** destory_surface: vkDestroySurfaceKHR once for a non-null surface, nothing for a null one. */
  method DestroySurface(instance: Instances.Instance, surface: Handle)
    requires Tags.KhrSurface in instance.extensions
    modifies instance.driver
    ensures instance.driver.lastHandle == old(instance.driver.lastHandle)
    ensures instance.driver.trace == old(instance.driver.trace) +
      if surface != NullHandle then [Call.DestroySurface(instance.handle, surface)] else []
  {
    if surface != NullHandle {
      instance.driver.DestroySurface(instance.handle, surface);
    }
  }

  /** The native calls get_surface_properties makes: a fill call follows a count query only when the count is non-zero. */
  function SurfacePropertiesCalls(device: Handle, surface: Handle, formatCount: nat, presentModeCount: nat): (calls: seq<Call>)
    ensures |calls| == 3 + (if formatCount > 0 then 1 else 0) + (if presentModeCount > 0 then 1 else 0)
    ensures calls[0] == GetSurfaceCapabilities(device, surface) && calls[1] == GetSurfaceFormats(device, surface, false)
    ensures GetSurfaceFormats(device, surface, true) in calls <==> formatCount > 0
    ensures GetSurfacePresentModes(device, surface, false) in calls
    ensures GetSurfacePresentModes(device, surface, true) in calls <==> presentModeCount > 0
  {
    [GetSurfaceCapabilities(device, surface), GetSurfaceFormats(device, surface, false)]
    + (if formatCount > 0 then [GetSurfaceFormats(device, surface, true)] else [])
    + [GetSurfacePresentModes(device, surface, false)]
    + (if presentModeCount > 0 then [GetSurfacePresentModes(device, surface, true)] else [])
  }

  /**
   * get_surface_properties: the capabilities, then the formats and the present modes, each with a
   * count query and, for a non-zero count, a resize and a fill; a zero count leaves the list empty.
   */
  method GetSurfaceProperties(instance: Instances.Instance, device: Handle, surface: Handle) returns (p: SurfaceProperties)
    requires Tags.KhrSurface in instance.extensions
    modifies instance.driver
    ensures var info := instance.driver.Surface(device, surface);
      p == SurfaceProperties(info.capabilities, info.formats, info.presentModes)
    ensures var info := instance.driver.Surface(device, surface);
      instance.driver.trace == old(instance.driver.trace) + SurfacePropertiesCalls(device, surface, |info.formats|, |info.presentModes|)
    ensures instance.driver.lastHandle == old(instance.driver.lastHandle)
  {
    var driver := instance.driver;
    var capabilities := driver.GetSurfaceCapabilities(device, surface);
    var formats := QuerySurfaceFormats(driver, device, surface);
    var presentModes := QueryPresentModes(driver, device, surface);
    p := SurfaceProperties(capabilities, formats, presentModes);
  }

  /** The formats half of get_surface_properties: count, then resize and fill for a non-zero count. */
  method QuerySurfaceFormats(driver: Driver, device: Handle, surface: Handle) returns (formats: seq<SurfaceFormat>)
    modifies driver
    ensures formats == driver.Surface(device, surface).formats
    ensures driver.trace == old(driver.trace) + [GetSurfaceFormats(device, surface, false)]
                           + (if |formats| > 0 then [GetSurfaceFormats(device, surface, true)] else [])
    ensures driver.lastHandle == old(driver.lastHandle)
  {
    formats := [];
    var count := driver.SurfaceFormatCount(device, surface);
    if count > 0 {
      var buf := new SurfaceFormat[count];
      var written := driver.SurfaceFormatFill(device, surface, buf);
      formats := buf[..];
    }
  }

  /** The present-modes half of get_surface_properties, with the same count-then-fill protocol. */
  method QueryPresentModes(driver: Driver, device: Handle, surface: Handle) returns (presentModes: seq<PresentMode>)
    modifies driver
    ensures presentModes == driver.Surface(device, surface).presentModes
    ensures driver.trace == old(driver.trace) + [GetSurfacePresentModes(device, surface, false)]
                           + (if |presentModes| > 0 then [GetSurfacePresentModes(device, surface, true)] else [])
    ensures driver.lastHandle == old(driver.lastHandle)
  {
    presentModes := [];
    var count := driver.PresentModeCount(device, surface);
    if count > 0 {
      var buf := new PresentMode[count];
      var written := driver.PresentModeFill(device, surface, buf);
      presentModes := buf[..];
    }
  }

  /** get_surface_support: a non-zero VkBool32 means supported. */
  method GetSurfaceSupport(instance: Instances.Instance, device: Handle, surface: Handle, queueIndex: nat) returns (supported: bool)
    requires Tags.KhrSurface in instance.extensions
    modifies instance.driver
    ensures supported <==> instance.driver.SurfaceSupport(device, queueIndex, surface) != 0
    ensures instance.driver.trace == old(instance.driver.trace) + [Call.GetSurfaceSupport(device, queueIndex, surface)]
    ensures instance.driver.lastHandle == old(instance.driver.lastHandle)
  {
    var result := instance.driver.GetSurfaceSupport(device, queueIndex, surface);
    supported := 0 != result;
  }

  /** A family with the graphics bit and at least one queue qualifies without asking the surface. */
  predicate GraphicsCapable(f: QueueFamily)
  {
    f.properties.queueFlags & VK_QUEUE_GRAPHICS_BIT != 0 && 0 < f.properties.queueCount
  }

  predicate FamilyQualifies(driver: Driver, device: Handle, surface: Handle, f: QueueFamily)
  {
    GraphicsCapable(f) || driver.SurfaceSupport(device, f.index, surface) != 0
  }

  /** std::any_of over the queue families with the inner lambda. */
  function AnyFamilyQualifies(driver: Driver, device: Handle, surface: Handle, families: seq<QueueFamily>): (r: bool)
    ensures r <==> exists i | 0 <= i < |families| :: FamilyQualifies(driver, device, surface, families[i])
  {
    if families == [] then false
    else if GraphicsCapable(families[0]) then true
    else if driver.SurfaceSupport(device, families[0].index, surface) != 0 then true
    else
      var rest := AnyFamilyQualifies(driver, device, surface, families[1..]);
      assert forall i | 1 <= i < |families| :: families[i] == families[1..][i - 1];
      rest
  }

  /**
   * The outer lambda of any_queue_family_is_compatible_with_surface: no format or no present mode
   * rejects the device; otherwise some queue family must qualify.
   */
  function SurfaceCompatible(driver: Driver, d: PhysicalDevices.PhysicalDevice, surface: Handle): (r: bool)
    ensures var info := driver.Surface(d.device, surface);
      r <==> |info.formats| > 0 && |info.presentModes| > 0
             && exists i | 0 <= i < |d.queueFamilies| :: FamilyQualifies(driver, d.device, surface, d.queueFamilies[i])
  {
    var info := driver.Surface(d.device, surface);
    if |info.formats| == 0 || |info.presentModes| == 0 then false
    else AnyFamilyQualifies(driver, d.device, surface, d.queueFamilies)
  }

  /**
   * The support queries any_of makes: the families are tried in order, a graphics-capable family
   * stops the scan without a query, and a supported family stops it after its query.
   */
  function SupportQueries(driver: Driver, device: Handle, surface: Handle, families: seq<QueueFamily>): seq<Call>
  {
    if families == [] then []
    else if GraphicsCapable(families[0]) then []
    else
      var query := [Call.GetSurfaceSupport(device, families[0].index, surface)];
      if driver.SurfaceSupport(device, families[0].index, surface) != 0 then query
      else query + SupportQueries(driver, device, surface, families[1..])
  }

  /**
   * The queries go to a prefix of the families, in order, none of them graphics-capable, and
   * every queried family but the last answered "not supported".
   */
  lemma {:induction false} SupportQueriesArePrefix(driver: Driver, device: Handle, surface: Handle, families: seq<QueueFamily>)
    ensures var q := SupportQueries(driver, device, surface, families);
      && |q| <= |families|
      && (forall i | 0 <= i < |q| :: q[i] == Call.GetSurfaceSupport(device, families[i].index, surface) && !GraphicsCapable(families[i]))
      && (forall i | 0 <= i < |q| - 1 :: driver.SurfaceSupport(device, families[i].index, surface) == 0)
  {
    if families != [] && !GraphicsCapable(families[0]) && driver.SurfaceSupport(device, families[0].index, surface) == 0 {
      SupportQueriesArePrefix(driver, device, surface, families[1..]);
      assert forall i | 1 <= i < |families| :: families[i] == families[1..][i - 1];
    }
  }

  /** A family that qualifies by its graphics queue is never asked about the surface. */
  lemma GraphicsFamilyIsNotQueried(driver: Driver, device: Handle, surface: Handle, families: seq<QueueFamily>, i: nat)
    requires i < |families| && GraphicsCapable(families[i])
    ensures |SupportQueries(driver, device, surface, families)| <= i
  {
    SupportQueriesArePrefix(driver, device, surface, families);
  }

  /** The std::any_of scan itself, with the support queries it makes. */
  method AnyFamilyCompatible(instance: Instances.Instance, device: Handle, surface: Handle, families: seq<QueueFamily>)
    returns (ok: bool)
    requires Tags.KhrSurface in instance.extensions
    modifies instance.driver
    ensures ok == AnyFamilyQualifies(instance.driver, device, surface, families)
    ensures instance.driver.trace == old(instance.driver.trace) + SupportQueries(instance.driver, device, surface, families)
    ensures instance.driver.lastHandle == old(instance.driver.lastHandle)
  {
    var driver := instance.driver;
    var rest := families;
    while rest != []
      invariant driver.lastHandle == old(driver.lastHandle)
      invariant old(driver.trace) + SupportQueries(driver, device, surface, families)
             == driver.trace + SupportQueries(driver, device, surface, rest)
      invariant AnyFamilyQualifies(driver, device, surface, families) == AnyFamilyQualifies(driver, device, surface, rest)
      decreases |rest|
    {
      ScanStep(driver, device, surface, rest);
      if GraphicsCapable(rest[0]) {
        return true;
      }
      var supported := GetSurfaceSupport(instance, device, surface, rest[0].index);
      if supported {
        return true;
      }
      rest := rest[1..];
    }
    ok := false;
  }

  /** One step of the scan, unfolded. */
  lemma ScanStep(driver: Driver, device: Handle, surface: Handle, rest: seq<QueueFamily>)
    requires rest != []
    ensures GraphicsCapable(rest[0]) ==>
      SupportQueries(driver, device, surface, rest) == [] && AnyFamilyQualifies(driver, device, surface, rest)
    ensures !GraphicsCapable(rest[0]) && driver.SurfaceSupport(device, rest[0].index, surface) != 0 ==>
      && SupportQueries(driver, device, surface, rest) == [Call.GetSurfaceSupport(device, rest[0].index, surface)]
      && AnyFamilyQualifies(driver, device, surface, rest)
    ensures !GraphicsCapable(rest[0]) && driver.SurfaceSupport(device, rest[0].index, surface) == 0 ==>
      && SupportQueries(driver, device, surface, rest)
         == [Call.GetSurfaceSupport(device, rest[0].index, surface)] + SupportQueries(driver, device, surface, rest[1..])
      && AnyFamilyQualifies(driver, device, surface, rest) == AnyFamilyQualifies(driver, device, surface, rest[1..])
  {
  }

  /** The check run on one descriptor, with the native calls it makes. */
  method CheckCompatibility(instance: Instances.Instance, d: PhysicalDevices.PhysicalDevice, surface: Handle) returns (ok: bool)
    requires Tags.KhrSurface in instance.extensions
    modifies instance.driver
    ensures ok == SurfaceCompatible(instance.driver, d, surface)
    ensures var info := instance.driver.Surface(d.device, surface);
      instance.driver.trace == old(instance.driver.trace)
        + SurfacePropertiesCalls(d.device, surface, |info.formats|, |info.presentModes|)
        + if |info.formats| > 0 && |info.presentModes| > 0 then SupportQueries(instance.driver, d.device, surface, d.queueFamilies) else []
    ensures instance.driver.lastHandle == old(instance.driver.lastHandle)
  {
    var properties := GetSurfaceProperties(instance, d.device, surface);
    if |properties.formats| == 0 || |properties.presentModes| == 0 {
      return false;
    }
    ok := AnyFamilyCompatible(instance, d.device, surface, d.queueFamilies);
  }

  /**
   * khr::any_queue_family_is_compatible_with_surface: a physical_device_function whose verdict is
   * the compatibility rule for that surface, leaving the device's chosen extensions alone.
   */
  function AnyQueueFamilyIsCompatibleWithSurface(instance: Instances.Instance, surface: Handle): (c: Device.Chooser)
    requires Tags.KhrSurface in instance.extensions
    ensures forall v :: Device.Eval(c, v) == Device.Verdict(SurfaceCompatible(instance.driver, v.descriptor, surface), v)
  {
    Device.PhysicalDeviceFunction((d: PhysicalDevices.PhysicalDevice) => SurfaceCompatible(instance.driver, d, surface))
  }
}
