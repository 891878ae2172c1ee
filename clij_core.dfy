/**
 * The control logic of the CLIJ entry point, against an abstract OpenCL
 * backend: device selection, the process-wide singleton and its device-name
 * cache, the kernel-executor slot, the parameter-map builder, converter
 * dispatch and the allocation wrappers.
 */
module ClijCore {
  import opened Wrappers
  import opened JavaStrings

  /** An OpenCL device as the backend enumerates it. */
  datatype Device = Device(name: string)

  /** A fully qualified Java class name. */
  type ClassName = string

  const StringClass: ClassName := "java.lang.String"
  const ObjectClass: ClassName := "java.lang.Object"

  /** A Java reference as a value: null, a string, or an instance of a class. */
  datatype JValue = Null | Str(chars: string) | Ref(cls: ClassName, id: nat)

  /** A Java object reference; a `java.lang.String` is always a `Str`, never a `Ref`. */
  type JObject = o: JValue | !(o.Ref? && o.cls == StringClass) witness Null

  /** The exceptions the modelled code lets escape. */
  datatype Exception = IndexOutOfBounds | ArrayIndexOutOfBounds | ClassCast | NullPointer

  /** A parameter map as `parameters` builds it; the key `None` is Java's null key. */
  type ParameterMap = map<Option<string>, JObject>

  /** Everything a kernel executor is configured with before it is enqueued. */
  datatype KernelCall = KernelCall(
    anchor: ClassName,
    programFilename: string,
    kernelName: string,
    globalSizes: Option<seq<int>>,
    parameters: ParameterMap)

  /**
   * The foreign side: the devices ClearCL enumerates, its name lookup
   * (`None` for null), whether the kernel executor's constructor completes
   * without an IOException, and what enqueue reports.
   */
  datatype Backend = Backend(
    devices: seq<Device>,
    deviceByName: string -> Option<Device>,
    executorLoads: (ClassName, string, string, Option<seq<int>>) -> bool,
    enqueue: (KernelCall, bool) -> bool)

  /** Calls into the backend whose order the model records. */
  datatype Event =
    | ContextCreated(device: Device)
    | ContextClosed(device: Device)
    | DeviceClosed(device: Device)
    | DevicesProbed

  /** Element types and the other allocation descriptors, by their library constant names. */
  datatype NativeType = NativeType(name: string)
  datatype ChannelDataType = ChannelDataType(name: string)
  datatype ChannelOrder = R | OtherOrder(name: string)
  datatype AccessType = ReadWrite | ReadOnly | WriteOnly
  datatype MemAllocMode = Best | OtherMode(name: string)

  /** A device buffer allocation; `id` is its position among the context's allocations. */
  datatype Buffer = Buffer(
    id: nat,
    dimensions: seq<int>,
    nativeType: NativeType,
    allocMode: MemAllocMode,
    hostAccess: AccessType,
    kernelAccess: AccessType,
    channels: int)

  /** A device image allocation. */
  datatype Image = Image(
    id: nat,
    dimensions: seq<int>,
    channelType: ChannelDataType,
    channelOrder: ChannelOrder,
    hostAccess: AccessType,
    kernelAccess: AccessType)

  datatype Allocation = OfBuffer(buffer: Buffer) | OfImage(image: Image)

  // ---------------------------------------------------------------------
  // Device selection

  /** Devices whose name contains "CPU" are passed over by the selection loop. */
  predicate IsCpuName(name: string)
  {
    Contains(name, "CPU")
  }

  /** What the name lookup yields: it is consulted only for a non-null, non-empty hint. */
  function NamedDevice(backend: Backend, hint: Option<string>): Option<Device>
  {
    if hint.None? || hint.value == "" then None else backend.deviceByName(hint.value)
  }

  /** `k` is the index of the last device whose name does not contain "CPU". */
  ghost predicate IsLastNonCpu(devices: seq<Device>, k: int)
  {
    && 0 <= k < |devices|
    && !IsCpuName(devices[k].name)
    && forall j :: k < j < |devices| ==> IsCpuName(devices[j].name)
  }

  /** The last non-CPU index, searched from the back. */
  function LastNonCpuIndex(devices: seq<Device>): (r: Option<nat>)
    ensures r.Some? ==> r.value < |devices|
  {
    if devices == [] then None
    else if !IsCpuName(devices[|devices| - 1].name) then Some(|devices| - 1)
    else LastNonCpuIndex(devices[..|devices| - 1])
  }

  /** LastNonCpuIndex finds the last non-CPU device, and finds none only when every device is a CPU. */
  lemma {:induction false} LastNonCpuIndexCorrect(devices: seq<Device>)
    ensures LastNonCpuIndex(devices).Some? ==> IsLastNonCpu(devices, LastNonCpuIndex(devices).value)
    ensures LastNonCpuIndex(devices).None? <==> forall j :: 0 <= j < |devices| ==> IsCpuName(devices[j].name)
    decreases |devices|
  {
    if devices != [] && IsCpuName(devices[|devices| - 1].name) {
      var front := devices[..|devices| - 1];
      LastNonCpuIndexCorrect(front);
      assert forall j :: 0 <= j < |front| ==> front[j] == devices[j];
    }
  }

  /** The device the name-hint constructor settles on, or the exception it throws. */
  function SelectDevice(backend: Backend, hint: Option<string>): Result<Device, Exception>
  {
    var named := NamedDevice(backend, hint);
    if named.Some? then Success(named.value)
    else
      var k := LastNonCpuIndex(backend.devices);
      if k.Some? then Success(backend.devices[k.value])
      else if backend.devices != [] then Success(backend.devices[0])
      else Failure(IndexOutOfBounds)
  }

  /**
   * Without a usable name match the selection takes the last non-CPU
   * device, else the first device; an unmatched hint is not an error,
   * only an empty device list is.
   */
  lemma SelectDeviceOrder(backend: Backend, hint: Option<string>)
    ensures NamedDevice(backend, hint).Some? ==> SelectDevice(backend, hint) == Success(NamedDevice(backend, hint).value)
    ensures NamedDevice(backend, hint).None? && (exists j :: 0 <= j < |backend.devices| && !IsCpuName(backend.devices[j].name)) ==>
      exists k :: IsLastNonCpu(backend.devices, k) && SelectDevice(backend, hint) == Success(backend.devices[k])
    ensures NamedDevice(backend, hint).None? && (forall j :: 0 <= j < |backend.devices| ==> IsCpuName(backend.devices[j].name)) && backend.devices != [] ==>
      SelectDevice(backend, hint) == Success(backend.devices[0])
    ensures SelectDevice(backend, hint).Failure? <==> NamedDevice(backend, hint).None? && backend.devices == []
  {
    LastNonCpuIndexCorrect(backend.devices);
  }

  /** A null or empty hint never consults the name lookup. */
  lemma SelectDeviceIgnoresLookupWithoutHint(b1: Backend, b2: Backend, hint: Option<string>)
    requires b1.devices == b2.devices
    requires hint.None? || hint.value == ""
    ensures SelectDevice(b1, hint) == SelectDevice(b2, hint)
  {
  }

  /** The selection code of the name-hint constructor, with its loop over all devices. */
  method ChooseDevice(backend: Backend, hint: Option<string>) returns (r: Result<Device, Exception>)
    ensures r == SelectDevice(backend, hint)
  {
    var device := NamedDevice(backend, hint);
    if device.None? {
      var all := backend.devices;
      var i := 0;
      while i < |all|
        invariant 0 <= i <= |all|
        invariant device == (var k := LastNonCpuIndex(all[..i]); if k.Some? then Some(all[k.value]) else None)
      {
        assert all[..i + 1][..i] == all[..i];
        if !IsCpuName(all[i].name) {
          device := Some(all[i]);
        }
        i := i + 1;
      }
      assert all[..i] == all;
    }
    if device.None? {
      if |backend.devices| == 0 {
        return Failure(IndexOutOfBounds);
      }
      device := Some(backend.devices[0]);
    }
    r := Success(device.value);
  }

  // ---------------------------------------------------------------------
  // Parameter maps

  /** `(String) o` succeeds for null and for strings. */
  predicate CastsToString(o: JObject)
  {
    o.Null? || o.Str?
  }

  /** The map key an argument becomes; only meaningful when it casts to a string. */
  function KeyOf(o: JObject): Option<string>
  {
    if o.Str? then Some(o.chars) else None
  }

  /** The argument in key position `k` (index 2k). */
  function KeyArg(args: seq<JObject>, k: int): JObject
    requires 0 <= k && 2 * k < |args|
  {
    args[2 * k]
  }

  /** The argument in value position `k` (index 2k + 1). */
  function ValueArg(args: seq<JObject>, k: int): JObject
    requires 0 <= k && 2 * k + 1 < |args|
  {
    args[2 * k + 1]
  }

  /** Every key position holds something the `(String)` cast accepts. */
  ghost predicate AllKeysCast(args: seq<JObject>)
  {
    forall k :: 0 <= k && 2 * k < |args| ==> CastsToString(KeyArg(args, k))
  }

  /** No key position after `k` and before `q` repeats the key at `k`. */
  ghost predicate LastOccurrence(args: seq<JObject>, q: int, k: int)
    requires 0 <= k < q && 2 * q <= |args|
  {
    forall k' :: k < k' < q ==> KeyOf(KeyArg(args, k')) != KeyOf(KeyArg(args, k))
  }

  /** The keys of the first `q` pairs. */
  ghost function KeysBefore(args: seq<JObject>, q: int): set<Option<string>>
    requires 0 <= q && 2 * q <= |args|
  {
    set k | 0 <= k < q :: KeyOf(KeyArg(args, k))
  }

  /**
   * `parameters(k0, v0, k1, v1, ...)`: a map from every key-position
   * argument to the argument after its last occurrence. A key that is not a
   * string throws ClassCast; a missing last value throws ArrayIndexOutOfBounds.
   */
  method Parameters(args: seq<JObject>) returns (r: Result<ParameterMap, Exception>)
    ensures r.Success? <==> |args| % 2 == 0 && AllKeysCast(args)
    ensures r.Failure? ==> r.error == if AllKeysCast(args) then ArrayIndexOutOfBounds else ClassCast
    ensures r.Success? ==> r.value.Keys == KeysBefore(args, |args| / 2)
    ensures r.Success? ==> forall k :: 0 <= k < |args| / 2 && LastOccurrence(args, |args| / 2, k) ==>
      KeyOf(KeyArg(args, k)) in r.value && r.value[KeyOf(KeyArg(args, k))] == ValueArg(args, k)
  {
    var m: ParameterMap := map[];
    var i := 0;
    ghost var q := 0;
    while i < |args|
      invariant i == 2 * q && 0 <= i <= |args|
      invariant forall k :: 0 <= k < q ==> CastsToString(KeyArg(args, k))
      invariant PairsBound(args, q, m)
    {
      assert KeyArg(args, q) == args[i];
      if !CastsToString(args[i]) {
        assert !AllKeysCast(args);
        return Failure(ClassCast);
      }
      if i + 1 >= |args| {
        assert |args| == 2 * q + 1;
        assert AllKeysCast(args);
        return Failure(ArrayIndexOutOfBounds);
      }
      assert ValueArg(args, q) == args[i + 1];
      PairsBoundStep(args, q, m);
      m := m[KeyOf(args[i]) := args[i + 1]];
      i, q := i + 2, q + 1;
    }
    assert |args| == 2 * q;
    assert AllKeysCast(args);
    r := Success(m);
  }

  /** `m` binds the keys of the first `q` pairs, each to the value after its last occurrence. */
  ghost predicate PairsBound(args: seq<JObject>, q: int, m: ParameterMap)
    requires 0 <= q && 2 * q <= |args|
  {
    && m.Keys == KeysBefore(args, q)
    && forall k :: 0 <= k < q && LastOccurrence(args, q, k) ==>
         KeyOf(KeyArg(args, k)) in m && m[KeyOf(KeyArg(args, k))] == ValueArg(args, k)
  }

  /** Binding the next pair (a later put overrides an earlier one) keeps `PairsBound`. */
  lemma PairsBoundStep(args: seq<JObject>, q: int, m: ParameterMap)
    requires 0 <= q && 2 * q + 1 < |args|
    requires PairsBound(args, q, m)
    ensures PairsBound(args, q + 1, m[KeyOf(KeyArg(args, q)) := ValueArg(args, q)])
  {
    var key := KeyOf(KeyArg(args, q));
    var m' := m[key := ValueArg(args, q)];
    KeysBeforeStep(args, q);
    assert m'.Keys == KeysBefore(args, q + 1);
    forall k | 0 <= k < q + 1 && LastOccurrence(args, q + 1, k)
      ensures KeyOf(KeyArg(args, k)) in m' && m'[KeyOf(KeyArg(args, k))] == ValueArg(args, k)
    {
      if k < q {
        assert KeyOf(KeyArg(args, q)) != KeyOf(KeyArg(args, k));
        assert LastOccurrence(args, q, k);
      }
    }
  }

  lemma KeysBeforeStep(args: seq<JObject>, q: int)
    requires 0 <= q && 2 * q + 1 < |args|
    ensures KeysBefore(args, q + 1) == KeysBefore(args, q) + {KeyOf(KeyArg(args, q))}
  {
    forall x | x in KeysBefore(args, q + 1) ensures x in KeysBefore(args, q) + {KeyOf(KeyArg(args, q))} {
      var k :| 0 <= k < q + 1 && KeyOf(KeyArg(args, k)) == x;
      if k < q {
        assert x in KeysBefore(args, q);
      }
    }
  }

  // ---------------------------------------------------------------------
  // Converter dispatch

  /** Java's class hierarchy: the proper supertypes (classes and interfaces) of each class. */
  datatype TypeSystem = TypeSystem(supertypes: ClassName -> set<ClassName>)

  /** Class.isAssignableFrom: `target` is `cls` or one of its supertypes. */
  predicate IsAssignableFrom(types: TypeSystem, target: ClassName, cls: ClassName)
  {
    target == cls || target in types.supertypes(cls)
  }

  function ClassOf(o: JObject): ClassName
    requires !o.Null?
  {
    if o.Str? then StringClass else o.cls
  }

  type Converter = JObject -> JObject

  /** The converters a converter service offers, keyed by (source class, target class). */
  type ConverterRegistry = map<(ClassName, ClassName), Converter>

  /**
   * `convert(source, target)` once a converter service is present: the
   * source itself when the target class accepts it, else the converter
   * registered for exactly (dynamic class of source, target). A missing
   * converter is the null that `converter.convert` dereferences.
   */
  function ConvertWith(types: TypeSystem, registry: ConverterRegistry, source: JObject, target: ClassName)
    : Result<JObject, Exception>
  {
    if source.Null? then Failure(NullPointer)
    else if IsAssignableFrom(types, target, ClassOf(source)) then Success(source)
    else if (ClassOf(source), target) in registry then Success(registry[(ClassOf(source), target)](source))
    else Failure(NullPointer)
  }

  /** A source the target class already accepts comes back unchanged, whatever is registered. */
  lemma ConvertIdentity(types: TypeSystem, registry: ConverterRegistry, source: JObject, target: ClassName)
    requires !source.Null? && IsAssignableFrom(types, target, ClassOf(source))
    ensures ConvertWith(types, registry, source, target) == Success(source)
  {
  }

  /** Only the converter for the exact (dynamic class, target) pair can be used. */
  lemma ConvertUsesExactPairOnly(types: TypeSystem, registry: ConverterRegistry, source: JObject,
                                 target: ClassName, key: (ClassName, ClassName), c: Converter)
    requires !source.Null?
    requires key != (ClassOf(source), target)
    ensures ConvertWith(types, registry[key := c], source, target) == ConvertWith(types, registry, source, target)
  {
  }

  /** Converters are never chained through an intermediate class. */
  lemma ConvertDoesNotChain(types: TypeSystem, registry: ConverterRegistry, source: JObject,
                            middle: ClassName, target: ClassName)
    requires !source.Null? && !IsAssignableFrom(types, target, ClassOf(source))
    requires (ClassOf(source), middle) in registry && (middle, target) in registry
    requires (ClassOf(source), target) !in registry
    ensures ConvertWith(types, registry, source, target) == Failure(NullPointer)
  {
  }

  /** Converting with a registered converter applies it to the source. */
  lemma ConvertApplies(types: TypeSystem, registry: ConverterRegistry, source: JObject, target: ClassName)
    requires !source.Null? && !IsAssignableFrom(types, target, ClassOf(source))
    requires (ClassOf(source), target) in registry
    ensures ConvertWith(types, registry, source, target) == Success(registry[(ClassOf(source), target)](source))
  {
  }

  // ---------------------------------------------------------------------
  // The process-wide state

  /** The static state of the CLIJ class and the backend it talks to. */
  class Process {
    const backend: Backend
    const types: TypeSystem
    /** What the scijava context's converter service would offer when created. */
    const discoveredConverters: ConverterRegistry
    /** `sInstance` */
    var instance: Clij?
    /** `cachedAvailableDeviceNames` */
    var cachedDeviceNames: Option<seq<string>>
    /** The backend calls made so far, in order. */
    var log: seq<Event>

    /** The singleton, when set, still owns an open context and device. */
    ghost predicate Valid()
      reads this, instance
    {
      instance != null ==> instance.contextOpen && instance.deviceOpen
    }

    constructor (backend: Backend, types: TypeSystem, discoveredConverters: ConverterRegistry)
      ensures this.backend == backend && this.types == types
      ensures this.discoveredConverters == discoveredConverters
      ensures instance == null && cachedDeviceNames == None && log == []
      ensures Valid()
    {
      this.backend := backend;
      this.types := types;
      this.discoveredConverters := discoveredConverters;
      instance := null;
      cachedDeviceNames := None;
      log := [];
    }

    /** The backend event that opening a context through the name-hint constructor produces. */
    ghost function OpenEvents(hint: Option<string>): seq<Event>
    {
      var d := SelectDevice(backend, hint);
      if d.Success? then [ContextCreated(d.value)] else []
    }

    /** A hint asks for a switch when it is non-null and differs exactly from the current GPU name. */
    static predicate SwitchRequested(current: Device, hint: Option<string>)
    {
      hint.Some? && current.name != hint.value
    }

    /**
     * getInstance(hint): keeps the singleton unless a different device is
     * named; a switch closes the old instance before the new one is built.
     */
    method GetInstance(hint: Option<string>) returns (r: Result<Clij, Exception>)
      requires Valid()
      modifies this, instance
      ensures Valid()
      ensures cachedDeviceNames == old(cachedDeviceNames)
      ensures r.Success? <==> instance != null
      ensures r.Success? ==> instance == r.value
      ensures old(instance) != null && !SwitchRequested(old(instance).device, hint) ==>
        r == Success(old(instance)) && log == old(log) && unchanged(old(instance))
      ensures old(instance) == null || SwitchRequested(old(instance).device, hint) ==>
        && (r.Failure? ==> SelectDevice(backend, hint) == Failure(r.error))
        && (r.Success? ==> fresh(r.value) && r.value.JustOpened() && SelectDevice(backend, hint) == Success(r.value.device))
      ensures old(instance) == null ==> log == old(log) + OpenEvents(hint)
      ensures old(instance) != null ==>
        && old(instance).executor == old(instance.executor)
        && old(instance).converterService == old(instance.converterService)
        && old(instance).allocations == old(instance.allocations)
      ensures old(instance) != null && SwitchRequested(old(instance).device, hint) ==>
        && !old(instance).contextOpen && !old(instance).deviceOpen
        && log == old(log) + [ContextClosed(old(instance).device), DeviceClosed(old(instance).device)] + OpenEvents(hint)
    {
      if instance == null {
        r := Clij.ByName(this, hint);
      } else if hint.Some? && instance.device.name != hint.value {
        var _ := instance.Close(this);
        instance := null;
        r := Clij.ByName(this, hint);
      } else {
        return Success(instance);
      }
      if r.Success? {
        instance := r.value;
      }
    }

    /** getInstance() is getInstance(null). */
    method GetDefaultInstance() returns (r: Result<Clij, Exception>)
      requires Valid()
      modifies this, instance
      ensures Valid()
      ensures cachedDeviceNames == old(cachedDeviceNames)
      ensures r.Success? <==> instance != null
      ensures r.Success? ==> instance == r.value
      ensures old(instance) != null ==> r == Success(old(instance)) && log == old(log) && unchanged(old(instance))
      ensures old(instance) == null ==>
        && (r.Failure? ==> SelectDevice(backend, None) == Failure(r.error))
        && (r.Success? ==> fresh(r.value) && r.value.JustOpened() && SelectDevice(backend, None) == Success(r.value.device))
        && log == old(log) + OpenEvents(None)
    {
      r := GetInstance(None);
    }

    /**
     * getAvailableDeviceNames(): the cached list when there is one;
     * otherwise the names of all devices, in order, which also fill the cache.
     */
    method GetAvailableDeviceNames() returns (names: seq<string>)
      modifies this`cachedDeviceNames, this`log
      ensures old(cachedDeviceNames).Some? ==>
        names == old(cachedDeviceNames).value && cachedDeviceNames == old(cachedDeviceNames) && log == old(log)
      ensures old(cachedDeviceNames).None? ==>
        && |names| == |backend.devices|
        && (forall i :: 0 <= i < |names| ==> names[i] == backend.devices[i].name)
        && cachedDeviceNames == Some(names)
        && log == old(log) + [DevicesProbed]
    {
      if cachedDeviceNames.Some? {
        return cachedDeviceNames.value;
      }
      names := [];
      var all := backend.devices;
      log := log + [DevicesProbed];
      var i := 0;
      while i < |all|
        invariant 0 <= i <= |all|
        invariant |names| == i
        invariant forall j :: 0 <= j < i ==> names[j] == all[j].name
      {
        names := names + [all[i].name];
        i := i + 1;
      }
      if cachedDeviceNames.None? {
        cachedDeviceNames := Some(names);
      }
    }
  }

  // ---------------------------------------------------------------------
  // The kernel executor slot

  /** The part of CLKernelExecutor that CLIJ.execute sets. */
  class KernelExecutor {
    const context: Device
    var anchor: ClassName
    var programFilename: string
    var kernelName: string
    var globalSizes: Option<seq<int>>
    var parameters: ParameterMap

    function Call(): KernelCall
      reads this
    {
      KernelCall(anchor, programFilename, kernelName, globalSizes, parameters)
    }

    /** The constructor on the path where it does not throw; it starts with no parameters. */
    constructor (context: Device, anchor: ClassName, programFilename: string, kernelName: string,
                 globalSizes: Option<seq<int>>)
      ensures this.context == context
      ensures Call() == KernelCall(anchor, programFilename, kernelName, globalSizes, map[])
    {
      this.context := context;
      this.anchor := anchor;
      this.programFilename := programFilename;
      this.kernelName := kernelName;
      this.globalSizes := globalSizes;
      this.parameters := map[];
    }

    method SetProgramFilename(f: string)
      modifies this`programFilename
      ensures programFilename == f
    {
      programFilename := f;
    }

    method SetKernelName(k: string)
      modifies this`kernelName
      ensures kernelName == k
    {
      kernelName := k;
    }

    method SetAnchorClass(a: ClassName)
      modifies this`anchor
      ensures anchor == a
    {
      anchor := a;
    }

    method SetParameterMap(m: ParameterMap)
      modifies this`parameters
      ensures parameters == m
    {
      parameters := m;
    }

    method SetGlobalSizes(g: Option<seq<int>>)
      modifies this`globalSizes
      ensures globalSizes == g
    {
      globalSizes := g;
    }
  }

  // ---------------------------------------------------------------------
  // A CLIJ instance

  class Clij {
    /** The device of the context (`getGPUName()` is its name). */
    const device: Device
    var contextOpen: bool
    var deviceOpen: bool
    /** `mCLKernelExecutor` */
    var executor: KernelExecutor?
    /** `converterService`; `None` is null. */
    var converterService: Option<ConverterRegistry>
    /** Everything allocated in this instance's context, in order. */
    var allocations: seq<Allocation>

    /** The state right after a constructor opened the context. */
    ghost predicate JustOpened()
      reads this
    {
      && contextOpen && deviceOpen
      && executor == null && converterService == None && allocations == []
    }

    /** The context creation that ends both constructors. */
    constructor Open(p: Process, d: Device)
      modifies p`log
      ensures device == d && JustOpened()
      ensures p.log == old(p.log) + [ContextCreated(d)]
    {
      device := d;
      contextOpen := true;
      deviceOpen := true;
      executor := null;
      converterService := None;
      allocations := [];
      new;
      p.log := p.log + [ContextCreated(d)];
    }

    /** The deprecated constructor CLIJ(int): the device at that index of all devices. */
    static method ByIndex(p: Process, deviceIndex: int) returns (r: Result<Clij, Exception>)
      modifies p`log
      ensures r.Failure? <==> !(0 <= deviceIndex < |p.backend.devices|)
      ensures r.Failure? ==> r.error == IndexOutOfBounds && p.log == old(p.log)
      ensures r.Success? ==>
        && fresh(r.value) && r.value.device == p.backend.devices[deviceIndex] && r.value.JustOpened()
        && p.log == old(p.log) + [ContextCreated(p.backend.devices[deviceIndex])]
    {
      var all := p.backend.devices;
      if !(0 <= deviceIndex < |all|) {
        return Failure(IndexOutOfBounds);
      }
      var c := new Clij.Open(p, all[deviceIndex]);
      r := Success(c);
    }

    /** The constructor CLIJ(String): select a device by its hint, then open its context. */
    static method ByName(p: Process, hint: Option<string>) returns (r: Result<Clij, Exception>)
      modifies p`log
      ensures r.Failure? ==> SelectDevice(p.backend, hint) == Failure(r.error)
      ensures r.Success? ==> fresh(r.value) && r.value.JustOpened() && SelectDevice(p.backend, hint) == Success(r.value.device)
      ensures p.log == old(p.log) + p.OpenEvents(hint)
    {
      var d := ChooseDevice(p.backend, hint);
      if d.Failure? {
        return Failure(d.error);
      }
      var c := new Clij.Open(p, d.value);
      r := Success(c);
    }

    /** getGPUName(): the name of the context's device; asking getInstance for it never switches. */
    function GpuName(): (name: string)
      ensures name == device.name
      ensures !Process.SwitchRequested(device, Some(name))
    {
      device.name
    }

    /** close(): closes the context, then the device, and clears the singleton if it is this one. */
    method Close(p: Process) returns (ok: bool)
      modifies this`contextOpen, this`deviceOpen, p`instance, p`log
      ensures ok && !contextOpen && !deviceOpen
      ensures p.log == old(p.log) + [ContextClosed(device), DeviceClosed(device)]
      ensures p.instance == if old(p.instance) == this then null else old(p.instance)
      ensures old(p.Valid()) ==> p.Valid()
    {
      contextOpen := false;
      p.log := p.log + [ContextClosed(device)];
      deviceOpen := false;
      p.log := p.log + [DeviceClosed(device)];
      if p.instance == this {
        p.instance := null;
      }
      return true;
    }

    /** dispose(): closes the context only, drops the converter service, and clears the singleton if it is this one. */
    method Dispose(p: Process)
      modifies this`contextOpen, this`converterService, p`instance, p`log
      ensures !contextOpen && converterService == None
      ensures p.log == old(p.log) + [ContextClosed(device)]
      ensures p.instance == if old(p.instance) == this then null else old(p.instance)
      ensures old(p.Valid()) ==> p.Valid()
    {
      contextOpen := false;
      p.log := p.log + [ContextClosed(device)];
      converterService := None;
      if p.instance == this {
        p.instance := null;
      }
    }

    /**
     * What one execute call does to the executor slot: an existing executor
     * is reused and reconfigured; an empty slot gets a new one, unless its
     * construction fails, which leaves the slot empty and reports false.
     */
    twostate predicate Executed(backend: Backend, call: KernelCall, ok: bool)
      reads this, executor
    {
      if old(executor) != null then
        executor == old(executor) && executor.Call() == call && ok == backend.enqueue(call, true)
      else if backend.executorLoads(call.anchor, call.programFilename, call.kernelName, call.globalSizes) then
        && executor != null && fresh(executor) && executor.context == device
        && executor.Call() == call && ok == backend.enqueue(call, true)
      else
        executor == null && !ok
    }

    /** execute(anchor, program, kernel, globalSizes, parameters) */
    method Execute(p: Process, anchor: ClassName, programFilename: string, kernelName: string,
                   globalSizes: Option<seq<int>>, parameters: ParameterMap) returns (ok: bool)
      modifies this`executor, executor
      ensures Executed(p.backend, KernelCall(anchor, programFilename, kernelName, globalSizes, parameters), ok)
    {
      if executor == null {
        if !p.backend.executorLoads(anchor, programFilename, kernelName, globalSizes) {
          return false;
        }
        executor := new KernelExecutor(device, anchor, programFilename, kernelName, globalSizes);
      } else {
        executor.SetProgramFilename(programFilename);
        executor.SetKernelName(kernelName);
        executor.SetAnchorClass(anchor);
        executor.SetParameterMap(parameters);
        executor.SetGlobalSizes(globalSizes);
      }
      executor.SetParameterMap(parameters);
      ok := p.backend.enqueue(executor.Call(), true);
    }

    /** execute(anchor, program, kernel, parameters): no explicit global sizes. */
    method ExecuteAnchored(p: Process, anchor: ClassName, programFilename: string, kernelName: string,
                           parameters: ParameterMap) returns (ok: bool)
      modifies this`executor, executor
      ensures Executed(p.backend, KernelCall(anchor, programFilename, kernelName, None, parameters), ok)
    {
      ok := Execute(p, anchor, programFilename, kernelName, None, parameters);
    }

    /** execute(program, kernel, parameters): anchored at java.lang.Object. */
    method ExecuteUnanchored(p: Process, programFilename: string, kernelName: string,
                             parameters: ParameterMap) returns (ok: bool)
      modifies this`executor, executor
      ensures Executed(p.backend, KernelCall(ObjectClass, programFilename, kernelName, None, parameters), ok)
    {
      ok := ExecuteAnchored(p, ObjectClass, programFilename, kernelName, parameters);
    }

    /** setConverterService */
    method SetConverterService(service: Option<ConverterRegistry>)
      modifies this`converterService
      ensures converterService == service
    {
      converterService := service;
    }

    /**
     * convert(source, target): the identity short-circuit needs no converter
     * service; otherwise a missing service is created first.
     */
    method Convert(p: Process, source: JObject, target: ClassName) returns (r: Result<JObject, Exception>)
      modifies this`converterService
      ensures source.Null? || IsAssignableFrom(p.types, target, ClassOf(source)) ==>
        converterService == old(converterService)
      ensures !source.Null? && !IsAssignableFrom(p.types, target, ClassOf(source)) ==>
        converterService == (if old(converterService).None? then Some(p.discoveredConverters) else old(converterService))
      ensures r == ConvertWith(p.types, if converterService.Some? then converterService.value else map[], source, target)
    {
      if source.Null? {
        return Failure(NullPointer);
      }
      if IsAssignableFrom(p.types, target, ClassOf(source)) {
        return Success(source);
      }
      if converterService.None? {
        converterService := Some(p.discoveredConverters);
      }
      var registry := converterService.value;
      var key := (ClassOf(source), target);
      if key !in registry {
        return Failure(NullPointer);
      }
      r := Success(registry[key](source));
    }

    /** createCLImage(dimensions, type): read/write access, single channel in order R. */
    method CreateImage(dimensions: seq<int>, channelType: ChannelDataType) returns (image: Image)
      modifies this`allocations
      ensures image == Image(|old(allocations)|, dimensions, channelType, R, ReadWrite, ReadWrite)
      ensures allocations == old(allocations) + [OfImage(image)]
    {
      image := Image(|allocations|, dimensions, channelType, R, ReadWrite, ReadWrite);
      allocations := allocations + [OfImage(image)];
    }

    /** createCLImage(template): a new image with the template's descriptor. */
    method CreateImageLike(template: Image) returns (image: Image)
      modifies this`allocations
      ensures image == template.(id := |old(allocations)|)
      ensures allocations == old(allocations) + [OfImage(image)]
    {
      image := template.(id := |allocations|);
      allocations := allocations + [OfImage(image)];
    }

    /** createCLBuffer(dimensions, type): best allocation, read/write access, one channel. */
    method CreateBuffer(dimensions: seq<int>, nativeType: NativeType) returns (buffer: Buffer)
      modifies this`allocations
      ensures buffer == Buffer(|old(allocations)|, dimensions, nativeType, Best, ReadWrite, ReadWrite, 1)
      ensures allocations == old(allocations) + [OfBuffer(buffer)]
    {
      buffer := Buffer(|allocations|, dimensions, nativeType, Best, ReadWrite, ReadWrite, 1);
      allocations := allocations + [OfBuffer(buffer)];
    }

    /** createCLBuffer(input): a new buffer with the input's dimensions and element type. */
    method CreateBufferLike(input: Buffer) returns (buffer: Buffer)
      modifies this`allocations
      ensures buffer.dimensions == input.dimensions && buffer.nativeType == input.nativeType
      ensures buffer == Buffer(|old(allocations)|, input.dimensions, input.nativeType, Best, ReadWrite, ReadWrite, 1)
      ensures allocations == old(allocations) + [OfBuffer(buffer)]
    {
      buffer := CreateBuffer(input.dimensions, input.nativeType);
    }
  }
}
