/**
 * The physical-device descriptor as a copyable value, and the chooser binder that feeds a
 * lambda one descriptor field per parameter, picked by the parameter's type
 * (src/core/physical_device.hpp).
 */
module PhysicalDevices {
  import opened VkTypes

  /**
   * physical_device_t: the native handle (not owned), the static properties and features,
   * the queue families and the advertised extensions, captured once at enumeration time.
   * The accessors features(), properties(), queue_families() and extensions() are the fields.
   */
  datatype PhysicalDevice = PhysicalDevice(
    device: Handle,
    properties: PhysicalDeviceProperties,
    features: PhysicalDeviceFeatures,
    queueFamilies: seq<QueueFamily>,
    extensions: seq<ExtensionProperties>)

  /** The parameter types pdc_helper is specialised for. */
  datatype ArgType = PropertiesType | FeaturesType | QueueFamiliesType | ExtensionsType | DescriptorType

  /** An argument handed to a chooser lambda: a value of one of those types. */
  datatype Arg =
    | PropertiesArg(properties: PhysicalDeviceProperties)
    | FeaturesArg(features: PhysicalDeviceFeatures)
    | QueueFamiliesArg(queueFamilies: seq<QueueFamily>)
    | ExtensionsArg(extensions: seq<ExtensionProperties>)
    | DescriptorArg(descriptor: PhysicalDevice)

  function TypeOf(a: Arg): ArgType
  {
    match a
    case PropertiesArg(_) => PropertiesType
    case FeaturesArg(_) => FeaturesType
    case QueueFamiliesArg(_) => QueueFamiliesType
    case ExtensionsArg(_) => ExtensionsType
    case DescriptorArg(_) => DescriptorType
  }

  /** The argument carries the descriptor's field of its own type (or the whole descriptor). */
  predicate TakenFrom(a: Arg, pd: PhysicalDevice)
  {
    match a
    case PropertiesArg(p) => p == pd.properties
    case FeaturesArg(f) => f == pd.features
    case QueueFamiliesArg(q) => q == pd.queueFamilies
    case ExtensionsArg(e) => e == pd.extensions
    case DescriptorArg(d) => d == pd
  }

  /** pdc_helper<X>::get: the descriptor's field whose type is X, or the descriptor itself. */
  function PdcGet(t: ArgType, pd: PhysicalDevice): (a: Arg)
    ensures TypeOf(a) == t && TakenFrom(a, pd)
  {
    match t
    case PropertiesType => PropertiesArg(pd.properties)
    case FeaturesType => FeaturesArg(pd.features)
    case QueueFamiliesType => QueueFamiliesArg(pd.queueFamilies)
    case ExtensionsType => ExtensionsArg(pd.extensions)
    case DescriptorType => DescriptorArg(pd)
  }

  /** The pack expansion pdc_helper<arg type i>::get(pd)... over a lambda's parameter types. */
  function Args(params: seq<ArgType>, pd: PhysicalDevice): (r: seq<Arg>)
    ensures |r| == |params|
    ensures forall i | 0 <= i < |params| :: TypeOf(r[i]) == params[i] && TakenFrom(r[i], pd)
  {
    if params == [] then [] else [PdcGet(params[0], pd)] + Args(params[1..], pd)
  }

  /** args is a valid argument list for parameters params on descriptor pd: one per parameter, typed and taken from pd. */
  predicate ArgsFor(params: seq<ArgType>, pd: PhysicalDevice, args: seq<Arg>)
  {
    |args| == |params| && forall i | 0 <= i < |args| :: TypeOf(args[i]) == params[i] && TakenFrom(args[i], pd)
  }

  /** The type of an argument and the descriptor it is taken from determine it. */
  lemma ArgDetermined(a: Arg, b: Arg, pd: PhysicalDevice)
    requires TypeOf(a) == TypeOf(b) && TakenFrom(a, pd) && TakenFrom(b, pd)
    ensures a == b
  {
  }

  /** There is exactly one valid argument list per parameter list and descriptor: the pack expansion's. */
  lemma ArgsForIsArgs(params: seq<ArgType>, pd: PhysicalDevice, args: seq<Arg>)
    requires ArgsFor(params, pd, args)
    ensures args == Args(params, pd)
  {
    var r := Args(params, pd);
    forall i | 0 <= i < |args|
      ensures args[i] == r[i]
    {
      ArgDetermined(args[i], r[i], pd);
    }
  }

  /** bind_physical_device_chooser: a predicate over descriptors that calls f with one projected field per parameter. */
  function BindChooser(params: seq<ArgType>, f: seq<Arg> -> bool): (c: PhysicalDevice -> bool)
    ensures forall pd, args | ArgsFor(params, pd, args) :: c(pd) == f(args)
    ensures forall pd :: c(pd) == f(Args(params, pd))
  {
    forall pd, args | ArgsFor(params, pd, args) ensures args == Args(params, pd) {
      ArgsForIsArgs(params, pd, args);
    }
    pd => f(Args(params, pd))
  }

  /** The lambda of requrie_descete_gpu: takes the properties, accepts a discrete GPU. */
  function IsDiscreteProperties(args: seq<Arg>): bool
  {
    |args| == 1 && args[0].PropertiesArg? && args[0].properties.deviceType == DiscreteGpu
  }

  /** requrie_descete_gpu: holds exactly for a descriptor whose deviceType is VK_PHYSICAL_DEVICE_TYPE_DISCRETE_GPU. */
  function RequireDiscreteGpu(): (c: PhysicalDevice -> bool)
    ensures forall pd :: c(pd) <==> pd.properties.deviceType == DiscreteGpu
  {
    var c := BindChooser([PropertiesType], IsDiscreteProperties);
    assert forall pd :: Args([PropertiesType], pd) == [PropertiesArg(pd.properties)];
    c
  }

  /** A bound chooser reads the descriptor only through the fields its parameters name. */
  lemma {:induction false} ArgsDependOnlyOnNamedFields(params: seq<ArgType>, pd1: PhysicalDevice, pd2: PhysicalDevice)
    requires forall i | 0 <= i < |params| :: PdcGet(params[i], pd1) == PdcGet(params[i], pd2)
    ensures Args(params, pd1) == Args(params, pd2)
  {
    if params != [] {
      ArgsDependOnlyOnNamedFields(params[1..], pd1, pd2);
    }
  }
}
