/**
 * The single-header variant of the wrapper (src/vulkancpp.hpp): instance creation with the
 * versions taken from the parameters, the typelist2inheritance layer composition, and the instance
 * core global_friends<instance_core_tag>, whose destructor is modelled both as written and as
 * evidently intended.
 */
module Vulkancpp {
  import opened Wrappers
  import opened VkTypes
  import opened Native
  import opened Global
  import Instances

  /** instance_param: the names and the three versions. */
  datatype InstanceParam = InstanceParam(appName: Name, engineName: Name, appVersion: nat, engineVersion: nat, apiVersion: nat)

  /** The VkApplicationInfo of global::create_instance: everything comes from the parameters. */
  function ApplicationInfoOf(param: InstanceParam): (app: ApplicationInfo)
    ensures app.applicationName == param.appName && app.engineName == param.engineName
    ensures app.applicationVersion == param.appVersion && app.engineVersion == param.engineVersion
    ensures app.apiVersion == param.apiVersion
  {
    ApplicationInfo(param.appName, param.appVersion, param.engineName, param.engineVersion, param.apiVersion)
  }

  /**
   * global::create_instance: the same guard-then-call sequence as global_t::create_instance_handle,
   * except that the versions are the caller's.
   */
  method CreateInstance(global: Loader, param: InstanceParam, extensions: seq<Name>) returns (r: Result<Handle, Error>)
    modifies global.driver
    ensures var c := CreationProtocol(global.driver.instanceExtensions, global.driver.createInstanceResult,
                                      old(global.driver.lastHandle) + 1, CreateInfo(ApplicationInfoOf(param), extensions));
      r == c.result && global.driver.trace == old(global.driver.trace) + c.calls
    ensures global.driver.lastHandle == if r.Ok? then old(global.driver.lastHandle) + 1 else old(global.driver.lastHandle)
  {
    r := global.CreateWith(ApplicationInfoOf(param), extensions);
  }

  /** The struct typelist2inheritance<Types...>::type: no base, one base, or T followed by the recursive rest. */
  datatype Inheritance<T> = EmptyLayer | Leaf(base: T) | Node(head: T, rest: Inheritance<T>)

  function Typelist2Inheritance<T>(types: seq<T>): (h: Inheritance<T>)
    ensures types == [] <==> h == EmptyLayer
    ensures |types| == 1 ==> h == Leaf(types[0])
    ensures |types| > 1 ==> h.Node? && h.head == types[0]
  {
    if types == [] then EmptyLayer
    else if |types| == 1 then Leaf(types[0])
    else Node(types[0], Typelist2Inheritance(types[1..]))
  }

  /** One base-class constructor call: the layer, and the arguments it is handed. */
  datatype BaseConstruction<T, A> = BaseConstruction(layer: T, args: A)

  /**
   * The base constructors empty_layer(args...) runs: T before the recursive rest, because bases
   * are constructed in the order they are listed, each forwarded the same arguments; the empty
   * layer takes any arguments and constructs nothing.
   */
  function Constructions<T, A>(h: Inheritance<T>, args: A): seq<BaseConstruction<T, A>>
  {
    match h
    case EmptyLayer => []
    case Leaf(t) => [BaseConstruction(t, args)]
    case Node(t, rest) => [BaseConstruction(t, args)] + Constructions(rest, args)
  }

  /** The layers are constructed in declaration order, each with the same arguments. */
  lemma {:induction false} ConstructionsFollowTheList<T, A>(types: seq<T>, args: A)
    ensures |Constructions(Typelist2Inheritance(types), args)| == |types|
    ensures forall i | 0 <= i < |types| :: Constructions(Typelist2Inheritance(types), args)[i] == BaseConstruction(types[i], args)
  {
    if |types| > 1 {
      ConstructionsFollowTheList(types[1..], args);
      assert forall i | 1 <= i < |types| :: types[i] == types[1..][i - 1];
    }
  }

  /** The empty list's layer ignores its arguments. */
  lemma EmptyLayerIgnoresArguments<T, A>(args1: A, args2: A)
    ensures Constructions(Typelist2Inheritance<T>([]), args1) == Constructions(Typelist2Inheritance<T>([]), args2) == []
  {
  }

  /** The calls the destructor ~global_friends makes as written: it tests instance_ == nullptr. */
  function DestroyCallsAsWritten(instance: Handle): (calls: seq<Call>)
    ensures calls != [] <==> instance == NullHandle
  {
    if instance == NullHandle then [Call.DestroyInstance(instance)] else []
  }

  /** The calls the destructor evidently should make: destroy a live instance, nothing for null. */
  function DestroyCalls(instance: Handle): (calls: seq<Call>)
    ensures instance != NullHandle ==> calls == [Call.DestroyInstance(instance)]
    ensures instance == NullHandle ==> calls == []
  {
    if instance != NullHandle then [Call.DestroyInstance(instance)] else []
  }

  /** As written, a live instance is never destroyed, and the only call made passes a null handle. */
  lemma LiveInstanceLeaksAsWritten(instance: Handle)
    requires instance != NullHandle
    ensures Call.DestroyInstance(instance) !in DestroyCallsAsWritten(instance)
    ensures DestroyCallsAsWritten(NullHandle) == [Call.DestroyInstance(NullHandle)]
  {
  }

  /** Corrected, every live instance is destroyed exactly once and a null one is left alone. */
  lemma {:induction false} LiveInstanceIsDestroyedOnce(instance: Handle)
    ensures multiset(DestroyCalls(instance))[Call.DestroyInstance(instance)] == if instance != NullHandle then 1 else 0
    ensures forall c | c in DestroyCalls(instance) :: c.DestroyInstance? && c.instance != NullHandle
  {
    if instance != NullHandle {
      assert DestroyCalls(instance) == [Call.DestroyInstance(instance)];
    }
  }

  /** global_friends<instance_core_tag>: the parameters, the instance handle and the ten instance commands. */
  class InstanceCore {
    const driver: Driver
    const param: InstanceParam
    var instance: Handle
    var commands: map<Name, EntryPoint>

    /** The member initialisers: param_(param), instance_(nullptr). */
    constructor (driver: Driver, param: InstanceParam)
      ensures this.driver == driver && this.param == param && instance == NullHandle && commands == map[]
    {
      this.driver, this.param := driver, param;
      instance, commands := NullHandle, map[];
    }

    /**
     * The constructor body after the instance exists: the ten instance commands are loaded in
     * order, and instance_ is assigned only once all of them resolved.
     */
    method Load(resolve: Resolver, created: Handle) returns (failure: Option<Error>)
      modifies this
      ensures var k := FirstUnresolved(resolve, Instances.InstanceCoreCommands, created);
        && (failure.None? <==> k == |Instances.InstanceCoreCommands|)
        && (failure.Some? ==> failure.value == LoadFailed(Instances.InstanceCoreCommands[k]))
      ensures failure.Some? ==> instance == old(instance) && commands == old(commands)
      ensures failure.None? ==> instance == created && commands.Keys == set n | n in Instances.InstanceCoreCommands
      ensures failure.None? ==> forall n | n in commands :: resolve(created, n) == Some(commands[n])
    {
      var loaded := LoadFunctions(resolve, Instances.InstanceCoreCommands, created);
      if loaded.Err? {
        return Some(loaded.error);
      }
      commands := loaded.value;
      instance := created;
      failure := None;
    }

    /** ~global_friends as written. */
    method DestroyAsWritten()
      modifies driver
      ensures driver.trace == old(driver.trace) + DestroyCallsAsWritten(instance)
      ensures driver.lastHandle == old(driver.lastHandle)
    {
      if NullHandle == instance {
        driver.DestroyInstance(instance);
      }
    }

    /** ~global_friends with the test the RAII design calls for. */
    method Destroy()
      modifies driver
      ensures driver.trace == old(driver.trace) + DestroyCalls(instance)
      ensures driver.lastHandle == old(driver.lastHandle)
    {
      if NullHandle != instance {
        driver.DestroyInstance(instance);
      }
    }
  }

  /**
   * The global_friends<instance_core_tag> constructor: creates the instance, loads the ten instance
   * commands for it, and only then stores the handle in instance_. A failed load throws out of the
   * constructor, so no destructor runs and the created instance is not destroyed.
   */
  method CreateInstanceCore(global: Loader, param: InstanceParam, extensions: seq<Name>) returns (r: Result<InstanceCore, Error>)
    modifies global.driver
    ensures var c := CreationProtocol(global.driver.instanceExtensions, global.driver.createInstanceResult,
                                      old(global.driver.lastHandle) + 1, CreateInfo(ApplicationInfoOf(param), extensions));
      global.driver.trace == old(global.driver.trace) + c.calls && (c.result.Err? ==> r == Err(c.result.error))
      && global.driver.lastHandle == if c.result.Ok? then old(global.driver.lastHandle) + 1 else old(global.driver.lastHandle)
    ensures var c := CreationProtocol(global.driver.instanceExtensions, global.driver.createInstanceResult,
                                      old(global.driver.lastHandle) + 1, CreateInfo(ApplicationInfoOf(param), extensions));
      var k := FirstUnresolved(global.Resolver(), Instances.InstanceCoreCommands, old(global.driver.lastHandle) + 1);
      c.result.Ok? ==>
        && (r.Ok? <==> k == |Instances.InstanceCoreCommands|)
        && (r.Err? ==> r.error == LoadFailed(Instances.InstanceCoreCommands[k]))
    ensures r.Ok? ==> r.value.instance == old(global.driver.lastHandle) + 1
    ensures r.Ok? ==> fresh(r.value) && r.value.driver == global.driver && r.value.param == param
    ensures r.Ok? ==> r.value.commands.Keys == set n | n in Instances.InstanceCoreCommands
    ensures r.Ok? ==> forall n | n in r.value.commands ::
      global.driver.GetInstanceProcAddr(r.value.instance, n) == Some(r.value.commands[n])
  {
    var core := new InstanceCore(global.driver, param);
    var created := CreateInstance(global, param, extensions);
    if created.Err? {
      return Err(created.error);
    }
    assert created.value == old(global.driver.lastHandle) + 1;
    var failure := core.Load(global.Resolver(), created.value);
    if failure.Some? {
      return Err(failure.value);
    }
    r := Ok(core);
  }
}
