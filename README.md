# vulkancpp in Dafny

A model of the core of vulkancpp, a thin C++17 RAII wrapper over the Vulkan API. Its job is to
negotiate extensions and select resources:

- open the Vulkan loader library and resolve its global commands;
- enumerate the instance extensions with Vulkan's two-call count/fill protocol;
- refuse to create an instance whose requested extensions are not all advertised;
- build the instance as a chain of extension layers with the core layer innermost, each layer
  loading its own entry points;
- enumerate physical devices into value descriptors and pick the first one a composable chooser
  accepts, where a chooser may annotate the device with the extensions it requires;
- for the KHR surface extension, query surface properties and decide whether some queue family
  can present to a surface.

The native Vulkan API is not code of this repository. It is the class `Native.Driver`:

- its `const` fields hold what the driver and loader report (libraries, exported symbols,
  resolvable commands, advertised extensions, the `vkCreateInstance` status, physical devices
  with their properties, queue families, extensions and surfaces);
- `lastHandle` hands out fresh instance handles;
- a ghost `trace` records every native call whose presence or absence the library promises
  something about: both enumeration calls, `vkCreateInstance`, the destroy calls and the surface
  queries.

Methods that call into the driver state their new trace exactly, so "no fill call for a zero
count", "vkCreateInstance is never called when the extensions are missing" and "vkDestroyInstance
exactly when the handle is non-null" are postconditions.

There is one Dafny module per header:

| module | header |
|---|---|
| `Function` | src/core/function.hpp |
| `Object` | src/core/object.hpp |
| `PhysicalDevices` | src/core/physical_device.hpp |
| `Device` | src/core/device.hpp |
| `Global` | src/core/global.hpp |
| `Instances` | src/core/instance.hpp |
| `Mpl` | src/base/mpl.hpp |
| `Khr` | src/extensions/khr.hpp |
| `Vulkancpp` | src/vulkancpp.hpp, the older single-header variant |

The supporting modules are:

- `Wrappers`: `Option` and `Result`;
- `VkTypes`: the vulkan.h types used, with `strcmp` on NUL-terminated names;
- `Tags`: the extension tag types and their `name()`;
- `Native`: the driver stand-in.

A C++ exception is an `Err` result carrying an `Error` that says which throw it was.

Where the code and its documentation disagree, the model follows the code:

- `object<T>::reset` does not run the deleter on the handle it replaces. It returns that handle
  to the caller.
- C++ constructs base classes first. So the layers of `instance<Exts...>` are constructed core
  layer first and then the extensions from the last declared to the first. `typelist2inheritance`
  bases are constructed in declaration order.
- `global_t::get()` returns the same object once construction has succeeded. A constructor that
  throws leaves the function-local static unconstructed, so the next call tries again.

## Model

| member | source | states |
|---|---|---|
| VkTypes.StrCmp | src/core/function.hpp:14 | strcmp is zero exactly when the two NUL-terminated strings are equal byte for byte |
| VkTypes.MakeVersion | src/core/global.hpp:90-93 | VK_MAKE_VERSION packs major, minor and patch so that each can be read back from its bit field |
| Function.FindIf | src/core/function.hpp:11-15 | find_if returns the first entry whose extensionName equals the name as a C string, or the end position when no entry does; no earlier entry matches |
| Function.IsExtensionsSatisfied | src/core/function.hpp:5-17 | true exactly when every desired name is the extensionName of some available entry |
| Function.ExtensionStringArray | src/core/function.hpp:19-23 | one name per tag, in argument order |
| Function.EmptyDesiredIsSatisfied | src/core/function.hpp:9-15 | an empty request is satisfied by any enumeration |
| Function.NothingAdvertised | src/core/function.hpp:9-15 | a non-empty request is never satisfied by an empty enumeration |
| Function.SingleNameIsExactMatch | src/core/function.hpp:14 | one name against one entry is satisfied exactly when the C strings are equal |
| Function.MatchIsCaseSensitive | src/core/function.hpp:14 | "vk_khr_surface" does not match an advertised "VK_KHR_surface" |
| Function.SameNamesSameVerdict | src/core/function.hpp:11-15 | the verdict depends on the available entries only through the set of names they carry |
| Function.PermutedAvailable | src/core/function.hpp:11-15 | reordering the available entries does not change the verdict |
| Function.DuplicatedAvailable | src/core/function.hpp:11-15 | repeating an available entry does not change the verdict |
| Function.MoreAvailable | src/core/function.hpp:11-15 | more available entries never turn a satisfied request into an unsatisfied one |
| Function.FewerDesired | src/core/function.hpp:9 | requesting a subset of a satisfied request is satisfied |
| Function.SubsetExample | src/core/function.hpp:5-17 | ["A", "B"] is satisfied by entries named B, A, C |
| Tags.ExtensionName | src/extensions/khr.hpp:18-24 | each tag's name() is a non-empty NUL-free string: VK_KHR_surface, VK_KHR_win32_surface or VK_KHR_swapchain |
| Tags.ExtensionNameInjective | src/extensions/khr.hpp:96-104 | different tags report different names as C strings |
| Object.Object.Default | src/core/object.hpp:10-13 | a default object holds a null handle and an empty deleter |
| Object.Object.constructor | src/core/object.hpp:15-19 | object(h, d) holds h and the deleter d |
| Object.Object.Get | src/core/object.hpp:32-40 | get() and the conversion return the held handle and change nothing |
| Object.Object.Reset | src/core/object.hpp:42-47 | reset(h) returns the previous handle, holds h, keeps the deleter and releases nothing |
| Object.Object.ResetWith | src/core/object.hpp:49-53 | reset(h, d) installs d, then behaves as reset(h) |
| Object.Object.Destroy | src/core/object.hpp:21-25 | the destructor adds exactly the releases DestructorReleases gives for the held handle and deleter |
| Object.DestructorReleases | src/core/object.hpp:21-25 | the deleter runs once, on the held handle, exactly when both the deleter and the handle are non-null |
| Object.ResetThenDestroy | src/core/object.hpp:42-47 | after a reset, the handle the object was built with is returned and never passed to the deleter; only the last handle is released |
| PhysicalDevices.PdcGet | src/core/physical_device.hpp:74-120 | pdc_helper<X>::get is the descriptor's field of type X, or the descriptor itself |
| PhysicalDevices.Args | src/core/physical_device.hpp:122-132 | the pack expansion gives one argument per lambda parameter, in order, each of the parameter's type and taken from the descriptor |
| PhysicalDevices.BindChooser | src/core/physical_device.hpp:125-141 | on every descriptor the bound chooser returns what the lambda returns for the one argument list that has an argument of each parameter's type, in order, taken from that descriptor |
| PhysicalDevices.RequireDiscreteGpu | src/core/physical_device.hpp:144-147 | holds exactly when deviceType is VK_PHYSICAL_DEVICE_TYPE_DISCRETE_GPU |
| PhysicalDevices.ArgsDependOnlyOnNamedFields | src/core/physical_device.hpp:125-133 | two descriptors that agree on the parameters' fields get the same arguments |
| Device.Choose | src/core/device.hpp:68-78 | choose_extensions accepts exactly when every requested name is advertised; on success the chosen list is the requested names in argument order; on failure nothing changes; the descriptor never changes |
| Device.PhysicalDevice.constructor | src/core/device.hpp:19-30 | the descriptor holds the five captured values and nothing is chosen |
| Device.PhysicalDevice.Copy | src/core/device.hpp:38 | the defaulted copy keeps the descriptor and the chosen extensions |
| Device.PhysicalDevice.ChooseExtensions | src/core/device.hpp:68-78 | the verdict and the new state of the object are those Choose gives for the old state |
| Device.Eval | src/core/device.hpp:80-86 | a chooser never changes the descriptor fields, only the mutable chosen list |
| Device.Evaluate | src/core/device.hpp:307-310 | running a chooser on the object yields the verdict and the new state Eval gives |
| Device.PhysicalDeviceFunction | src/core/device.hpp:316-323 | physical_device_function applies f to the descriptor and leaves the device alone |
| Device.PropertiesFunction | src/core/device.hpp:325-332 | applies f to the properties only |
| Device.FeaturesFunction | src/core/device.hpp:334-341 | applies f to the features only |
| Device.ExtensionFunction | src/core/device.hpp:343-350 | applies f to the advertised extensions only |
| Device.QueueFamiliesFunction | src/core/device.hpp:352-359 | applies f to the queue families only |
| Device.RequireDiscreteCard | src/core/device.hpp:411-417 | holds exactly for a discrete GPU and annotates nothing |
| Device.IncludeExtensionsChooser | src/core/device.hpp:419-426 | behaves exactly as choose_extensions with the tags |
| Device.AndShortCircuits | src/core/device.hpp:371-374 | && runs lhs first; a false lhs decides and rhs, with its annotation, is not run |
| Device.OrShortCircuits | src/core/device.hpp:391-394 | \|\| runs lhs first; a true lhs decides and rhs is not run |
| Device.PureChooserIsBoolean | src/core/device.hpp:361-399 | a chooser free of choose_extensions leaves the device unchanged and computes plain boolean && and \|\| |
| Device.PureOperandsCommute | src/core/device.hpp:361-399 | for such choosers the operands of && and \|\| commute |
| Device.ChosenComesFromARequest | src/core/device.hpp:68-78 | after any chooser the chosen list is the old one or the name array of one of the chooser's own requests |
| Device.AcceptedRequestIsRecorded | src/core/device.hpp:71-75 | an accepting include-extensions chooser records exactly its names, one per tag |
| Device.DeviceCore.Destroy | src/core/device.hpp:190-194 | vkDestroyDevice is called exactly when the device handle is non-null |
| Device.CreateDeviceCore | src/core/device.hpp:96-188 | the 88 device commands are loaded in order; the first that does not resolve throws with its name; on success the table holds exactly those commands, each at the address vkGetDeviceProcAddr resolved for the device |
| Global.LoadFunction | src/core/global.hpp:7-17 | throws exactly when the resolver returns null, naming the command; otherwise the slot holds the resolved address |
| Global.LoadFunctions | src/core/global.hpp:50-53 | a run of loads succeeds exactly when every command resolves; otherwise the error names the first unresolved one; the table has one resolved entry per command |
| Global.ExportFunc | src/core/global.hpp:119-127 | throws exactly when the library lacks the symbol |
| Global.AvailableExtensionCalls | src/core/global.hpp:59-68 | a count query always, and a fill call exactly when the count is non-zero |
| Global.Loader.GetAvailableExtension | src/core/global.hpp:56-69 | returns exactly the advertised extensions, empty with no fill call for a zero count |
| Global.CreationProtocol | src/core/global.hpp:71-117 | unsatisfied extensions throw and never reach vkCreateInstance; satisfied ones call it once; a non-success status throws; otherwise the new handle is returned |
| Global.CreateInfo | src/core/global.hpp:96-107 | no layers; the enabled names are the requested list with its size as count |
| Global.DefaultApplicationInfo | src/core/global.hpp:84-94 | the names come from the parameters; all three versions are VK_MAKE_VERSION(1, 0, 0) |
| Global.Loader.CreateWith | src/core/global.hpp:76-116 | the result and the native calls are exactly those CreationProtocol gives; a fresh handle is used only on success |
| Global.Loader.CreateInstanceHandle | src/core/global.hpp:71-117 | the same for create_instance_handle with its fixed versions |
| Global.LoadGlobalCommands | src/core/global.hpp:51-53 | the three global commands are loaded in order with a null instance; succeeds exactly when all resolve; otherwise the error names the first that does not; on success each is at its resolved address |
| Global.Open | src/core/global.hpp:46-54 | a missing library, then a missing vkGetInstanceProcAddr export, then a missing global command throws, each with its own error, the last naming the first global command in load order that does not resolve; otherwise the loader holds exactly the three global commands, each at the address vkGetInstanceProcAddr resolved with a null instance |
| Global.Process.Get | src/core/global.hpp:33-37 | once a construction has succeeded every later call returns that same object; a failed construction is retried on the next call; while nothing is stored, the call's outcome is exactly the global_t() constructor's (Global.Opened) |
| Instances.InstanceHierarchy | src/core/instance.hpp:13-23 | the chain lists the extensions outermost first with instance_core_t appended, so its depth is one more than the list and the core layer is innermost |
| Instances.ConstructionLayers | src/core/instance.hpp:32-36 | layers are constructed base first: the core layer, then the extensions from the last to the first |
| Instances.QueueFamiliesOf | src/core/instance.hpp:147-154 | entry i is queue_family_t{ i, the i-th native properties } |
| Instances.Descriptors | src/core/instance.hpp:164-176 | one descriptor per enumerated handle, in enumeration order |
| Instances.FirstMatch | src/core/instance.hpp:179-183 | find_if gives the first accepted descriptor, and no earlier one is accepted |
| Instances.FirstMatchCharacterised | src/core/instance.hpp:179-183 | position k is chosen exactly when it is accepted and every earlier one is rejected |
| Instances.FirstMatchIgnoresLaterDevices | src/core/instance.hpp:179-189 | there is no ranking: devices after the first accepted one do not influence the choice |
| Instances.DiscreteAfterIntegrated | src/core/instance.hpp:179-189 | with the discrete-card filter an integrated GPU listed first is skipped for the discrete one after it |
| Instances.Instance.Destroy | src/core/instance.hpp:88-92 | vkDestroyInstance is called exactly when the handle is non-null |
| Instances.Instance.EnumeratePhysicalDevices | src/core/instance.hpp:99-108 | the enumerated handles, in the driver's order |
| Instances.Instance.EnumerateDeviceExtensions | src/core/instance.hpp:116-123 | the device's advertised extensions |
| Instances.Instance.EnumerateQueueFamilies | src/core/instance.hpp:139-157 | count entries; entry i has index i and the i-th native properties |
| Instances.Instance.SelectPhysicalDevice | src/core/instance.hpp:159-190 | returns a fresh copy of the first descriptor the filter accepts, carrying what the filter chose on it; throws NoSuitablePhysicalDevice exactly when none is accepted, including when none was enumerated |
| Instances.LoadLayers | src/core/instance.hpp:73-86 | the layers load their commands in construction order; the first layer with an unresolved command throws naming that command; the number of completed layers is reported |
| Instances.Create | src/core/instance.hpp:44-47 | the handle is created, with the extension names in declaration order, before any layer runs; creation errors pass through; a failing layer throws; the handle is destroyed exactly when the core layer had completed; on success every layer's command is resolved for the new handle; the driver's handle counter advances exactly when vkCreateInstance succeeded |
| Mpl.DisableIf | src/base/mpl.hpp:13-17 | disable_if<Test, T> names T exactly when Test is false |
| Mpl.Build | src/base/mpl.hpp:161-181 | T :: Rests puts T outermost over the chain of Rests; a single type sits on null_type |
| Mpl.Generate | src/base/mpl.hpp:153-159 | an empty list has no hierarchy |
| Mpl.BuildLayers | src/base/mpl.hpp:161-181 | the chain lists the types in declaration order, outermost first |
| Mpl.BuildDepth | src/base/mpl.hpp:167-181 | the nesting depth is the length of the list |
| Mpl.BuildTagged | src/base/mpl.hpp:169-180 | the tag TT is threaded unchanged into every layer |
| Mpl.BuildInnermost | src/base/mpl.hpp:172-181 | the last type is the innermost layer, right above null_type |
| Mpl.ConstructionIsReversedLayers | src/base/mpl.hpp:161-170 | base-first construction visits the layers in reverse order |
| Mpl.BuildConstructionOrder | src/base/mpl.hpp:161-181 | for a generated chain the last type is constructed first and the first type last |
| Khr.DestroySurface | src/extensions/khr.hpp:47-51 | vkDestroySurfaceKHR once for a non-null surface, nothing for a null one |
| Khr.SurfacePropertiesCalls | src/extensions/khr.hpp:54-73 | the capabilities query, then a count query for formats and for present modes, each followed by a fill call exactly when its count is non-zero |
| Khr.GetSurfaceProperties | src/extensions/khr.hpp:54-73 | the result is the surface's capabilities, formats and present modes, made with exactly those calls |
| Khr.QuerySurfaceFormats | src/extensions/khr.hpp:59-64 | the formats, left empty with no fill call for a zero count |
| Khr.QueryPresentModes | src/extensions/khr.hpp:65-70 | the present modes, left empty with no fill call for a zero count |
| Khr.GetSurfaceSupport | src/extensions/khr.hpp:75-80 | supported exactly when the native VkBool32 is non-zero, with one query |
| Khr.AnyFamilyQualifies | src/extensions/khr.hpp:202-211 | true exactly when some family is graphics-capable with a non-zero queue count or reports support |
| Khr.SurfaceCompatible | src/extensions/khr.hpp:196-212 | false when there is no format or no present mode; otherwise exactly when some queue family qualifies |
| Khr.SupportQueriesArePrefix | src/extensions/khr.hpp:203-211 | support is queried for a prefix of the families, in order, none graphics-capable, all but the last answering no |
| Khr.GraphicsFamilyIsNotQueried | src/extensions/khr.hpp:206-210 | a family that qualifies by its graphics queue is never asked, nor is any family after it |
| Khr.AnyFamilyCompatible | src/extensions/khr.hpp:202-211 | the any_of scan returns AnyFamilyQualifies and makes exactly the SupportQueries calls |
| Khr.CheckCompatibility | src/extensions/khr.hpp:196-212 | returns SurfaceCompatible; the support queries are made only when there are formats and present modes |
| Khr.AnyQueueFamilyIsCompatibleWithSurface | src/extensions/khr.hpp:191-214 | the chooser's verdict on every device is SurfaceCompatible, and it annotates nothing |
| Vulkancpp.ApplicationInfoOf | src/vulkancpp.hpp:168-177 | the application, engine and API versions are taken from the parameters |
| Vulkancpp.CreateInstance | src/vulkancpp.hpp:155-205 | the same guard-then-call protocol as create_instance_handle, with the caller's versions; the handle counter advances exactly on success |
| Vulkancpp.Typelist2Inheritance | src/vulkancpp.hpp:234-278 | no type gives the empty layer, one type a single base, several types the head over the recursive rest |
| Vulkancpp.ConstructionsFollowTheList | src/vulkancpp.hpp:264-278 | bases are constructed in list order, head before the rest, each with the same arguments |
| Vulkancpp.EmptyLayerIgnoresArguments | src/vulkancpp.hpp:237-248 | the empty list's layer constructs nothing whatever the arguments |
| Vulkancpp.InstanceCore.constructor | src/vulkancpp.hpp:295-298 | param_ is copied and instance_ starts null |
| Vulkancpp.InstanceCore.Load | src/vulkancpp.hpp:299-310 | the ten instance commands are loaded in order; instance_ is assigned only after all of them resolved |
| Vulkancpp.CreateInstanceCore | src/vulkancpp.hpp:295-311 | creation errors pass through; a failed load throws naming the first unresolved command; on success instance_ is the new handle and the table holds exactly the ten commands, each at the address vkGetInstanceProcAddr resolved for that handle; the handle counter advances exactly when vkCreateInstance succeeded |
| Vulkancpp.DestroyCallsAsWritten | src/vulkancpp.hpp:313-319 | as written, the destructor calls vkDestroyInstance exactly when instance_ is null |
| Vulkancpp.InstanceCore.DestroyAsWritten | src/vulkancpp.hpp:313-319 | the destructor as written makes exactly the calls DestroyCallsAsWritten gives |
| Vulkancpp.LiveInstanceLeaksAsWritten | src/vulkancpp.hpp:313-319 | as written, a live instance is never destroyed, and a null one is passed to vkDestroyInstance |
| Vulkancpp.DestroyCalls | src/vulkancpp.hpp:313-319 | corrected, vkDestroyInstance for a live instance and nothing for a null one |
| Vulkancpp.InstanceCore.Destroy | src/vulkancpp.hpp:313-319 | the corrected destructor makes exactly the calls DestroyCalls gives |
| Vulkancpp.LiveInstanceIsDestroyedOnce | src/vulkancpp.hpp:313-319 | corrected, a live instance is destroyed exactly once and no null handle is ever passed |

## Left out

- I/O and foreign code: boost::dll library loading, the Vulkan driver and the meaning of the loaded entry points are the `Native.Driver` stand-in; a loaded entry point is just the name and scope it resolved for.
- Move semantics: the defaulted moves copy raw handles without nulling the source, so the model claims nothing about moved-from objects or about deleters after a move.
- Copying is deleted for `object<T>` and the layers; Dafny has no copy constructors, so the model simply offers none.
- The native calls made inside a chooser during `select_physical_device` (the surface queries of the compatibility chooser) are not added to the driver trace, because `Device.Eval` is a function; `Khr.CheckCompatibility` states that trace for one device.
- Counts that change between the count call and the fill call of an enumeration: the stand-in reports the same list both times.
- `create_surface` and vkCreateWin32SurfaceKHR: they need a window and the Win32 API, and the creation result is ignored by the code anyway; the win32 layer's command loading is modelled.
- `get_physical_device_memory_properties`, format properties and the swapchain commands' behaviour: the code only loads them.
- `callable_traits` and `is_functor`: compile-time type introspection; `PhysicalDevices.BindChooser` takes the parameter-type list directly.
- The application files (window, application, platform) and vulkancpp_forward.hpp: windowing and declarations only; the two platform library names are `Global.DynamicLibrary`.
- The older `global` class of src/vulkancpp.hpp is the same class as `global_t` and shares `Global.Loader`: its load_funtion (lines 84-94), get_available_extension (lines 126-138) and is_extensions_satisfied (lines 140-152) are the ones of `Global.LoadFunction`, `Global.Loader.GetAvailableExtension` and `Function.IsExtensionsSatisfied`; only its `create_instance` versions differ (`Vulkancpp.CreateInstance`).
- Code that does not compile as written is modelled as evidently intended: `surface.get_object()` (object has `get()`), `get_surface_support` receiving a `physical_device_t` where a handle is needed, and the device macro calling `load_func` where the instance offers `load_function` through vkGetDeviceProcAddr.
- Nested chooser expressions such as `(a && b) && c` do not compile: `operator&&` and `operator||` (src/core/device.hpp:401-409) take `physical_device_functor_t` operands, whose constructor is `explicit` (src/core/device.hpp:302-305), so an and/or object does not convert to one. The and/or objects also keep `const&` references to their operands (src/core/device.hpp:361-399), which dangle once a temporary operand is destroyed. The model makes a chooser a value (`Device.Chooser`) that nests to any depth and owns its operands.
- PhysicalDevices.PdcGet: `pdc_helper<physical_device_t>::get` (src/core/physical_device.hpp:113-119) takes the descriptor by value and returns `auto&` to that parameter, a reference that dangles once `get` returns; the model hands the lambda the descriptor itself, as evidently intended, and says nothing about the behaviour of the dangling reference.
- `instance_extension<T, Base>` has two parameters where mpl.hpp's generator threads a tag; the instance chain uses the unit tag.
- Instances.Create: requires every extension to be an instance extension, because a device-extension tag has no `instance_extension` specialisation and does not compile.
- Instances.Create: when the core layer itself fails to load, nothing owns the handle yet and it is not destroyed; the model states this as the code does.
- VkTypes.MakeVersion: requires the minor and patch numbers to fit their bit fields; overlapping bits and 32-bit truncation of the macro are not modelled.
- The 32-bit `uint32_t` counts and versions are unbounded naturals.

## Findings

| source | as written | input that shows it | evidently intended | confidence | as-written member | corrected member |
|---|---|---|---|---|---|---|
| src/vulkancpp.hpp:313-319 | the `global_friends<instance_core_tag>` destructor calls vkDestroyInstance when `instance_ == nullptr` | any successfully built instance core: its live handle is never destroyed, and a null-holding one passes null to vkDestroyInstance | destroy when `instance_ != nullptr`, as the core/instance.hpp destructor does | not executed | Vulkancpp.InstanceCore.DestroyAsWritten, Vulkancpp.LiveInstanceLeaksAsWritten | Vulkancpp.InstanceCore.Destroy, Vulkancpp.LiveInstanceIsDestroyedOnce |
