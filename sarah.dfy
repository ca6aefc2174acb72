/**
 * The core of the scan server: resolving a device by name, looking up
 * options, coercing the loosely typed values of a scan request to the
 * declared option kinds, the step order of a scan, the name of the file a
 * scan is written to, and the slot that remembers the last scan.
 */
module Sarah {
  import opened Wrappers
  import opened GoRuntime
  import opened Sane
  import opened Seqs

  // ---------------------------------------------------------------------------
  // Errors, requests and outcomes
  // ---------------------------------------------------------------------------

  /** The errors the core returns, each with the text Go's `Error()` gives. */
  datatype Error =
    | DriverError(msg: string)      // returned by the SANE driver, passed on unchanged
    | NoDeviceNamed(name: string)   // openDevice found no candidate
    | NoSuchOption(name: string)    // findOption found no option of that name
    | FileError(msg: string)        // os.Create failed
    | EncodeError(msg: string)      // png.Encode failed
    | BindError(msg: string)        // the request body is not a scan request
  {
    function Message(): (r: string)
      // the texts fmt.Errorf builds in openDevice and findOption
      ensures NoDeviceNamed? ==> r == "no device named " + name
      ensures NoSuchOption? ==> r == "no such option " + name
      // every other error is passed on with the text it came with
      ensures !NoDeviceNamed? && !NoSuchOption? ==> r == msg
    {
      match this
      case DriverError(m) => m
      case NoDeviceNamed(n) => "no device named " + n
      case NoSuchOption(n) => "no such option " + n
      case FileError(m) => m
      case EncodeError(m) => m
      case BindError(m) => m
    }
  }

  /**
   * The two lookup failures can be told apart by their text, and each text
   * gives back the name that was looked up.
   */
  lemma LookupMessagesDistinct(a: string, b: string)
    ensures NoSuchOption(a).Message() != NoDeviceNamed(b).Message()
    ensures NoSuchOption(a).Message() == NoSuchOption(b).Message() ==> a == b
    ensures NoDeviceNamed(a).Message() == NoDeviceNamed(b).Message() ==> a == b
  {
    assert NoSuchOption(a).Message()[3] == 's';
    assert NoDeviceNamed(b).Message()[3] == 'd';
    if NoSuchOption(a).Message() == NoSuchOption(b).Message() {
      assert a == NoSuchOption(a).Message()[15..];
    }
    if NoDeviceNamed(a).Message() == NoDeviceNamed(b).Message() {
      assert a == NoDeviceNamed(a).Message()[16..];
    }
  }

  /**
   * A value decoded from JSON into Go's `interface{}`: every number is a
   * float64. Arrays and objects fail every type assertion doScan makes, so
   * their contents are not kept.
   */
  datatype JsonValue =
    | JNull
    | JBool(b: bool)
    | JNum(x: real)
    | JStr(s: string)
    | JArray
    | JObject

  /**
   * A scan request. Its options are a Go map; the sequence lists the pairs in
   * the order in which ranging over the map happened to visit them.
   */
  datatype ScanRequest = ScanRequest(device: string, options: seq<(string, JsonValue)>)

  /** How a scan ends. */
  datatype ScanStatus =
    | Success
    | Failed(err: Error)          // doScan returned this error
    | Panicked(option: string)    // an unchecked type assertion on this option's value failed

  // ---------------------------------------------------------------------------
  // findOption
  // ---------------------------------------------------------------------------

  /** `findOption(opts, name)`: the first declared option with exactly that name. */
  function FindOption(opts: seq<SaneOption>, name: string): (r: Result<SaneOption, Error>)
    ensures r.Ok? ==> r.value.name == name && r.value in opts
    ensures r.Err? <==> forall o :: o in opts ==> o.name != name
    ensures r.Err? ==> r.error == NoSuchOption(name) && r.error.Message() == "no such option " + name
    decreases |opts|
  {
    if opts == [] then Err(NoSuchOption(name))
    else if opts[0].name == name then Ok(opts[0])
    else FindOption(opts[1..], name)
  }

  /** Of several options with the requested name, findOption returns the first. */
  lemma {:induction false} FindOptionIsFirst(opts: seq<SaneOption>, name: string, i: nat)
    requires i < |opts| && opts[i].name == name
    requires forall j :: 0 <= j < i ==> opts[j].name != name
    ensures FindOption(opts, name) == Ok(opts[i])
    decreases i
  {
    if i > 0 {
      FindOptionIsFirst(opts[1..], name, i - 1);
    }
  }

  // ---------------------------------------------------------------------------
  // openDevice
  // ---------------------------------------------------------------------------

  /** A call the resolver makes into the driver. */
  datatype DriverCall = Open(name: string) | ListDevices

  /** What openDevice returns, with the driver calls it made on the way. */
  datatype Resolution = Resolution(result: Result<Handle, Error>, calls: seq<DriverCall>)

  /** A driver answer as openDevice passes it on. */
  function Lift(r: Result<Handle, string>): Result<Handle, Error> {
    match r
    case Ok(h) => Ok(h)
    case Err(e) => Err(DriverError(e))
  }

  /** The loop of openDevice: the index of the first device whose name contains `name`. */
  function FirstCandidate(devs: seq<Device>, name: string): (r: Option<nat>)
    ensures r.Some? ==> r.value < |devs| && Contains(devs[r.value].name, name)
    ensures r.Some? ==> forall j :: 0 <= j < r.value ==> !Contains(devs[j].name, name)
    ensures r.None? <==> forall d :: d in devs ==> !Contains(d.name, name)
    decreases |devs|
  {
    if devs == [] then None
    else if Contains(devs[0].name, name) then Some(0)
    else match FirstCandidate(devs[1..], name)
      case None => None
      case Some(k) => Some(k + 1)
  }

  /**
   * `openDevice(name)`: open the device by its exact name; failing that,
   * open the first enumerated device whose name contains `name`.
   */
  function OpenDevice(driver: Driver, name: string): (r: Resolution)
    // the exact name is always tried first
    ensures |r.calls| >= 1 && r.calls[0] == Open(name)
  {
    match driver.open(name)
    case Ok(h) => Resolution(Ok(h), [Open(name)])
    case Err(_) =>
      match driver.devices
      case Err(e) => Resolution(Err(DriverError(e)), [Open(name), ListDevices])
      case Ok(devs) =>
        match FirstCandidate(devs, name)
        case Some(i) => Resolution(Lift(driver.open(devs[i].name)), [Open(name), ListDevices, Open(devs[i].name)])
        case None => Resolution(Err(NoDeviceNamed(name)), [Open(name), ListDevices])
  }

  /** The four ways openDevice can end. */
  lemma OpenDeviceCases(driver: Driver, name: string)
    // a direct open that succeeds is returned without enumerating
    ensures driver.open(name).Ok? ==> OpenDevice(driver, name) == Resolution(Lift(driver.open(name)), [Open(name)])
    // an enumeration error is returned as is
    ensures driver.open(name).Err? && driver.devices.Err? ==>
              OpenDevice(driver, name) == Resolution(Err(DriverError(driver.devices.error)), [Open(name), ListDevices])
    // no enumerated name contains the requested one
    ensures driver.open(name).Err? && driver.devices.Ok? &&
            (forall d :: d in driver.devices.value ==> !Contains(d.name, name)) ==>
              OpenDevice(driver, name) == Resolution(Err(NoDeviceNamed(name)), [Open(name), ListDevices]) &&
              OpenDevice(driver, name).result.error.Message() == "no device named " + name
    // the first candidate is opened, its result returned as is, and no later one is tried
    ensures driver.open(name).Err? && driver.devices.Ok? ==>
              forall i :: 0 <= i < |driver.devices.value| &&
                          Contains(driver.devices.value[i].name, name) &&
                          (forall j :: 0 <= j < i ==> !Contains(driver.devices.value[j].name, name)) ==>
                OpenDevice(driver, name) == Resolution(Lift(driver.open(driver.devices.value[i].name)),
                                [Open(name), ListDevices, Open(driver.devices.value[i].name)])
  {
  }

  /**
   * A requested name that exactly one enumerated device name contains, when
   * the direct open fails, resolves to whatever opening that device gives.
   */
  lemma UniqueMatchResolves(driver: Driver, name: string, i: nat)
    requires driver.open(name).Err? && driver.devices.Ok?
    requires i < |driver.devices.value| && Contains(driver.devices.value[i].name, name)
    requires forall j :: 0 <= j < |driver.devices.value| && j != i ==> !Contains(driver.devices.value[j].name, name)
    ensures OpenDevice(driver, name).result == Lift(driver.open(driver.devices.value[i].name))
  {
    var devs := driver.devices.value;
    var k := FirstCandidate(devs, name);
    assert devs[i] in devs;
    assert k == Some(i);
  }

  /**
   * Every name contains the empty string, so an empty device name that does
   * not open directly selects the first enumerated device.
   */
  lemma EmptyNameOpensFirstDevice(driver: Driver)
    requires driver.open("").Err? && driver.devices.Ok? && driver.devices.value != []
    ensures OpenDevice(driver, "").calls == [Open(""), ListDevices, Open(driver.devices.value[0].name)]
    ensures OpenDevice(driver, "").result == Lift(driver.open(driver.devices.value[0].name))
  {
    EmptyIsContained(driver.devices.value[0].name);
  }

  // ---------------------------------------------------------------------------
  // Coercing one requested value (the type switch in doScan)
  // ---------------------------------------------------------------------------

  /**
   * The value doScan hands to `SetOption` for an option of the given kind, or
   * None where its type assertion panics. Kinds the switch does not list
   * leave the value nil.
   */
  function Coerce(kind: ValueKind, j: JsonValue): (r: Option<Value>)
    ensures kind == TypeBool ==> (r.Some? <==> j.JBool?) && (j.JBool? ==> r.value == VBool(j.b))
    ensures kind == TypeInt ==> (r.Some? <==> j.JNum?) &&
                                (j.JNum? ==> r.value.VInt? && IsTruncation(j.x, r.value.i))
    ensures kind == TypeFloat ==> (r.Some? <==> j.JNum?) && (j.JNum? ==> r.value == VFloat(j.x))
    ensures kind == TypeString ==> (r.Some? <==> j.JStr?) && (j.JStr? ==> r.value == VString(j.s))
    ensures kind == TypeButton || kind == TypeGroup ==> r == Some(VNil)
  {
    match kind
    case TypeBool => if j.JBool? then Some(VBool(j.b)) else None
    case TypeInt => if j.JNum? then Some(VInt(Trunc(j.x))) else None
    case TypeFloat => if j.JNum? then Some(VFloat(j.x)) else None
    case TypeString => if j.JStr? then Some(VString(j.s)) else None
    case _ => Some(VNil)
  }

  // ---------------------------------------------------------------------------
  // Applying the requested options (the loop of doScan)
  // ---------------------------------------------------------------------------

  /** What one requested pair leads to. */
  datatype Step = Skip | Call(call: SetCall) | Stop(status: ScanStatus)

  /** One iteration of doScan's option loop. */
  function ApplyOne(opts: seq<SaneOption>, req: (string, JsonValue)): (r: Step)
    ensures r.Stop? ==> !r.status.Success?
  {
    match FindOption(opts, req.0)
    case Err(e) => Stop(Failed(e))
    case Ok(o) =>
      if !o.isSettable then Skip
      else match Coerce(o.kind, req.1)
        case None => Stop(Panicked(o.name))
        case Some(v) => Call(SetCall(o.name, v))
  }

  /** What one requested pair does, by what the device declares for its name. */
  lemma ApplyOneCases(opts: seq<SaneOption>, req: (string, JsonValue))
    // an unknown name stops the scan with the lookup error
    ensures (forall o :: o in opts ==> o.name != req.0) <==>
              ApplyOne(opts, req) == Stop(Failed(NoSuchOption(req.0)))
    // a known option that is not settable is skipped: no call and no error
    ensures ApplyOne(opts, req).Skip? <==>
              FindOption(opts, req.0).Ok? && !FindOption(opts, req.0).value.isSettable
    // a settable option receives the value coerced to its declared kind
    ensures ApplyOne(opts, req).Call? ==>
              var c := ApplyOne(opts, req).call;
              c.name == req.0 && FindOption(opts, req.0).Ok? &&
              FindOption(opts, req.0).value.isSettable &&
              Coerce(FindOption(opts, req.0).value.kind, req.1) == Some(c.value)
    ensures FindOption(opts, req.0).Ok? && FindOption(opts, req.0).value.isSettable &&
            Coerce(FindOption(opts, req.0).value.kind, req.1).Some? ==>
              ApplyOne(opts, req) == Call(SetCall(req.0, Coerce(FindOption(opts, req.0).value.kind, req.1).value))
    // a value of the wrong representation for a settable option panics
    ensures ApplyOne(opts, req) == Stop(Panicked(req.0)) <==>
              FindOption(opts, req.0).Ok? && FindOption(opts, req.0).value.isSettable &&
              Coerce(FindOption(opts, req.0).value.kind, req.1).None?
  {
  }

  /** The calls made and how the loop ended ("Success" when it ran to the end). */
  datatype Applied = Applied(calls: seq<SetCall>, status: ScanStatus)

  /** Whether a requested pair lets the option loop go on. */
  predicate Passes(opts: seq<SaneOption>, req: (string, JsonValue)) {
    !ApplyOne(opts, req).Stop?
  }

  /** One step of the loop followed by the rest of it. */
  function Then(step: Step, rest: Applied): Applied {
    match step
    case Stop(s) => Applied([], s)
    case Skip => rest
    case Call(c) => Applied([c] + rest.calls, rest.status)
  }

  /** doScan's option loop over the pairs in visiting order. */
  function ApplyOptions(opts: seq<SaneOption>, reqs: seq<(string, JsonValue)>): (r: Applied)
    ensures |r.calls| <= |reqs|
    decreases |reqs|
  {
    if reqs == [] then Applied([], Success)
    else Then(ApplyOne(opts, reqs[0]), ApplyOptions(opts, reqs[1..]))
  }

  /**
   * The option loop runs to the end exactly when every requested pair lets
   * it go on; otherwise it ends as one of the requested pairs makes it end.
   */
  lemma {:induction false} ApplyOptionsStatus(opts: seq<SaneOption>, reqs: seq<(string, JsonValue)>)
    ensures ApplyOptions(opts, reqs).status.Success? <==> forall req :: req in reqs ==> Passes(opts, req)
    ensures !ApplyOptions(opts, reqs).status.Success? ==>
              exists req :: req in reqs && ApplyOne(opts, req) == Stop(ApplyOptions(opts, reqs).status)
    decreases |reqs|
  {
    if reqs != [] {
      ApplyOptionsStatus(opts, reqs[1..]);
      assert forall req :: req in reqs <==> req == reqs[0] || req in reqs[1..];
      assert Passes(opts, reqs[0]) <==> !ApplyOne(opts, reqs[0]).Stop?;
    }
  }

  /** The calls of a step: one for a Call, none otherwise. */
  function CallsOf(s: Step): seq<SetCall> {
    if s.Call? then [s.call] else []
  }

  /** The calls one requested pair leads to. */
  function CallsFor(opts: seq<SaneOption>): ((string, JsonValue)) -> seq<SetCall> {
    req => CallsOf(ApplyOne(opts, req))
  }

  /** Reference definition: the calls the requested pairs lead to, one pair at a time. */
  function RequestedCalls(opts: seq<SaneOption>, reqs: seq<(string, JsonValue)>): seq<SetCall> {
    FlatMap(CallsFor(opts), reqs)
  }

  /** The calls of one more pair of the request follow those of the pairs before it. */
  lemma RequestedCallsExtend(opts: seq<SaneOption>, reqs: seq<(string, JsonValue)>, i: nat)
    requires i < |reqs|
    ensures RequestedCalls(opts, reqs[..i + 1]) == RequestedCalls(opts, reqs[..i]) + CallsOf(ApplyOne(opts, reqs[i]))
  {
    assert reqs[..i + 1] == reqs[..i] + [reqs[i]];
    FlatMapAppend(CallsFor(opts), reqs[..i], [reqs[i]]);
    FlatMapSingle(CallsFor(opts), reqs[i]);
  }

  /** When no requested pair stops the option loop, it makes every call they lead to, in order. */
  lemma {:induction false} ApplyOptionsAllPass(opts: seq<SaneOption>, reqs: seq<(string, JsonValue)>)
    requires forall req :: req in reqs ==> Passes(opts, req)
    ensures ApplyOptions(opts, reqs) == Applied(RequestedCalls(opts, reqs), Success)
    decreases |reqs|
  {
    if reqs != [] {
      assert reqs[0] in reqs;
      assert forall req :: req in reqs[1..] ==> req in reqs;
      ApplyOptionsAllPass(opts, reqs[1..]);
    }
  }

  /**
   * The option loop makes the calls of the pairs before the first one that
   * stops it, in visiting order, and then ends as that pair makes it end.
   */
  lemma {:induction false} ApplyOptionsStopsAtFirstRejected(opts: seq<SaneOption>, reqs: seq<(string, JsonValue)>, k: nat)
    requires k < |reqs| && !Passes(opts, reqs[k])
    requires forall req :: req in reqs[..k] ==> Passes(opts, req)
    ensures ApplyOptions(opts, reqs) == Applied(RequestedCalls(opts, reqs[..k]), ApplyOne(opts, reqs[k]).status)
    decreases k
  {
    if k > 0 {
      assert reqs[0] in reqs[..k];
      assert reqs[..k][1..] == reqs[1..][..k - 1];
      assert forall req :: req in reqs[1..][..k - 1] ==> req in reqs[..k];
      ApplyOptionsStopsAtFirstRejected(opts, reqs[1..], k - 1);
    }
  }

  /**
   * Requested options come from a Go map, whose iteration order varies.
   * Whether the loop runs to the end does not depend on the order, and when
   * it does the device receives the same assignments, possibly reordered.
   */
  lemma ApplyOptionsOrderIndependent(opts: seq<SaneOption>, a: seq<(string, JsonValue)>, b: seq<(string, JsonValue)>)
    requires multiset(a) == multiset(b)
    ensures ApplyOptions(opts, a).status.Success? <==> ApplyOptions(opts, b).status.Success?
    ensures ApplyOptions(opts, a).status.Success? ==>
              multiset(ApplyOptions(opts, a).calls) == multiset(ApplyOptions(opts, b).calls)
  {
    forall x ensures x in a <==> x in b {
      assert x in a <==> x in multiset(a);
      assert x in b <==> x in multiset(b);
    }
    ApplyOptionsStatus(opts, a);
    ApplyOptionsStatus(opts, b);
    var ra, rb := ApplyOptions(opts, a), ApplyOptions(opts, b);
    if ra.status.Success? {
      ApplyOptionsAllPass(opts, a);
      ApplyOptionsAllPass(opts, b);
      FlatMapPermutation(CallsFor(opts), a, b);
    }
  }

  /**
   * A requested option the device declares as not settable changes nothing:
   * the loop behaves exactly as if the pair had not been requested.
   */
  lemma {:induction false} NonSettableOptionIgnored(opts: seq<SaneOption>, reqs: seq<(string, JsonValue)>, i: nat)
    requires i < |reqs|
    requires FindOption(opts, reqs[i].0).Ok? && !FindOption(opts, reqs[i].0).value.isSettable
    ensures ApplyOptions(opts, reqs) == ApplyOptions(opts, reqs[..i] + reqs[i + 1..])
    decreases i
  {
    var step := ApplyOne(opts, reqs[0]);
    assert ApplyOptions(opts, reqs) == Then(step, ApplyOptions(opts, reqs[1..]));
    if i > 0 {
      var shorter := reqs[..i] + reqs[i + 1..];
      NonSettableOptionIgnored(opts, reqs[1..], i - 1);
      assert shorter[0] == reqs[0];
      assert shorter[1..] == reqs[1..][..i - 1] + reqs[1..][i..];
      assert ApplyOptions(opts, shorter) == Then(step, ApplyOptions(opts, shorter[1..]));
    } else {
      assert step == Skip;
      assert reqs[..0] + reqs[1..] == reqs[1..];
    }
  }

  // ---------------------------------------------------------------------------
  // doScan: the step order of a scan
  // ---------------------------------------------------------------------------

  /**
   * The outside world a scan runs against: whether `os.Create` succeeds for
   * a path, the SANE driver, and whether `png.Encode` succeeds for an image.
   */
  datatype Env = Env(
    create: string -> Option<string>,
    driver: Driver,
    encode: Image -> Option<string>)

  /**
   * What a scan did: how it ended, the device it opened, the assignments the
   * device received, and whether an image was acquired from it.
   */
  datatype ScanTrace = ScanTrace(status: ScanStatus, device: Option<Handle>, applied: seq<SetCall>, acquired: bool)

  /**
   * `doScan(sr, fileName)`: create the output file, resolve the device,
   * apply the requested options, acquire an image and encode it. Every step
   * ends the scan when it fails.
   */
  function ScanSpec(sr: ScanRequest, fileName: string, env: Env): (t: ScanTrace)
    // nothing reaches a device that was not opened, and the scan then fails
    ensures t.device.None? ==> t.applied == [] && !t.acquired && t.status.Failed?
    // success only after an image was acquired from an opened device
    ensures t.status.Success? ==> t.device.Some? && t.acquired
  {
    match env.create(fileName)
    case Some(e) => ScanTrace(Failed(FileError(e)), None, [], false)
    case None =>
      match OpenDevice(env.driver, sr.device).result
      case Err(e) => ScanTrace(Failed(e), None, [], false)
      case Ok(h) =>
        var a := ApplyOptions(h.options, sr.options);
        if !a.status.Success? then ScanTrace(a.status, Some(h), a.calls, false)
        else match h.acquisition
          case Err(e) => ScanTrace(Failed(DriverError(e)), Some(h), a.calls, true)
          case Ok(img) =>
            match env.encode(img)
            case Some(e) => ScanTrace(Failed(EncodeError(e)), Some(h), a.calls, true)
            case None => ScanTrace(Success, Some(h), a.calls, true)
  }

  /** The steps of a scan happen in order, and each one ends the scan when it fails. */
  lemma ScanStepOrder(sr: ScanRequest, fileName: string, env: Env)
    // no image is acquired unless every requested pair passed the option loop
    ensures var t := ScanSpec(sr, fileName, env);
            t.acquired ==>
              t.device.Some? &&
              forall req :: req in sr.options ==> Passes(t.device.value.options, req)
    // nothing reaches the device unless it was opened, and the scan then fails
    ensures var t := ScanSpec(sr, fileName, env);
            t.device.None? ==> t.applied == [] && !t.acquired && t.status.Failed?
    // a successful scan acquired an image
    ensures var t := ScanSpec(sr, fileName, env);
            t.status.Success? ==> t.acquired
    // at most one assignment per requested pair
    ensures |ScanSpec(sr, fileName, env).applied| <= |sr.options|
  {
    if env.create(fileName).None? && OpenDevice(env.driver, sr.device).result.Ok? {
      ApplyOptionsStatus(OpenDevice(env.driver, sr.device).result.value.options, sr.options);
    }
  }

  /**
   * A requested name the opened device does not declare ends the scan
   * before acquisition; when it is the first pair that stops the option
   * loop, the scan fails with its lookup error.
   */
  lemma UnknownOptionStopsScan(sr: ScanRequest, fileName: string, env: Env, h: Handle, i: nat)
    requires env.create(fileName).None? && OpenDevice(env.driver, sr.device).result == Ok(h)
    requires i < |sr.options| && forall o :: o in h.options ==> o.name != sr.options[i].0
    ensures !ScanSpec(sr, fileName, env).acquired && !ScanSpec(sr, fileName, env).status.Success?
    ensures (forall req :: req in sr.options[..i] ==> Passes(h.options, req)) ==>
              ScanSpec(sr, fileName, env) ==
                ScanTrace(Failed(NoSuchOption(sr.options[i].0)), Some(h),
                          RequestedCalls(h.options, sr.options[..i]), false)
  {
    ApplyOneCases(h.options, sr.options[i]);
    ApplyOptionsStatus(h.options, sr.options);
    if forall req :: req in sr.options[..i] ==> Passes(h.options, req) {
      ApplyOptionsStopsAtFirstRejected(h.options, sr.options, i);
    }
  }

  /**
   * A pair naming an option the opened device declares as not settable can
   * be left out of the request without changing anything the scan does.
   */
  lemma NonSettableOptionChangesNothing(sr: ScanRequest, fileName: string, env: Env, h: Handle, i: nat)
    requires OpenDevice(env.driver, sr.device).result == Ok(h)
    requires i < |sr.options|
    requires FindOption(h.options, sr.options[i].0).Ok? && !FindOption(h.options, sr.options[i].0).value.isSettable
    ensures ScanSpec(sr, fileName, env) ==
              ScanSpec(sr.(options := sr.options[..i] + sr.options[i + 1..]), fileName, env)
  {
    NonSettableOptionIgnored(h.options, sr.options, i);
  }

  /** A scan succeeds exactly when every step does. */
  lemma ScanSucceedsIffEveryStepDoes(sr: ScanRequest, fileName: string, env: Env)
    ensures ScanSpec(sr, fileName, env).status.Success? <==>
              env.create(fileName).None? &&
              OpenDevice(env.driver, sr.device).result.Ok? &&
              (var h := OpenDevice(env.driver, sr.device).result.value;
               (forall req :: req in sr.options ==> Passes(h.options, req)) &&
               h.acquisition.Ok? && env.encode(h.acquisition.value).None?)
  {
    if env.create(fileName).None? && OpenDevice(env.driver, sr.device).result.Ok? {
      ApplyOptionsStatus(OpenDevice(env.driver, sr.device).result.value.options, sr.options);
    }
  }

  /** The driver with every opened device's option rejections replaced. */
  function WithRejects(driver: Driver, rejects: set<string>): Driver {
    driver.(open := (n: string) => match driver.open(n)
                                   case Ok(h) => Ok(h.(rejects := rejects))
                                   case Err(e) => Err(e))
  }

  /** Which option assignments the device rejects changes nothing the scan does but the handle itself. */
  lemma RejectedSetOptionIgnored(sr: ScanRequest, fileName: string, env: Env, rejects: set<string>)
    ensures var t, u := ScanSpec(sr, fileName, env), ScanSpec(sr, fileName, env.(driver := WithRejects(env.driver, rejects)));
            u.status == t.status && u.applied == t.applied && u.acquired == t.acquired
  {
    var d, d' := env.driver, WithRejects(env.driver, rejects);
    var r, r' := OpenDevice(d, sr.device), OpenDevice(d', sr.device);
    assert r'.result.Ok? <==> r.result.Ok?;
    if r.result.Ok? {
      assert r'.result.value == r.result.value.(rejects := rejects);
    } else {
      assert r'.result == r.result;
    }
  }

  /** The options of a device declaring an integer `resolution` and a string `mode`, both settable. */
  function GenesysOptions(): seq<SaneOption> {
    [SaneOption("resolution", TypeInt, true), SaneOption("mode", TypeString, true)]
  }

  /**
   * `{"device": "genesys", "options": {"resolution": 300, "mode": "Color"}}`
   * sets both options as given, acquires one image and succeeds.
   */
  lemma GenesysExample(env: Env, fileName: string, h: Handle, img: Image)
    requires env.create(fileName).None? && env.driver.open("genesys") == Ok(h)
    requires h.options == GenesysOptions() && h.acquisition == Ok(img) && env.encode(img).None?
    ensures ScanSpec(ScanRequest("genesys", [("resolution", JNum(300.0)), ("mode", JStr("Color"))]), fileName, env) ==
              ScanTrace(Success, Some(h), [SetCall("resolution", VInt(300)), SetCall("mode", VString("Color"))], true)
  {
    var reqs := [("resolution", JNum(300.0)), ("mode", JStr("Color"))];
    assert FindOption(h.options, "resolution") == Ok(h.options[0]);
    assert FindOption(h.options, "mode") == Ok(h.options[1]);
    assert ApplyOptions(h.options, reqs) ==
             Applied([SetCall("resolution", VInt(300)), SetCall("mode", VString("Color"))], Success) by {
      assert reqs[1..][1..] == [];
    }
  }

  /** A request naming an option the device does not have fails before acquisition, with nothing set. */
  lemma NonexistentOptionExample(env: Env, fileName: string, h: Handle)
    requires env.create(fileName).None? && OpenDevice(env.driver, "genesys").result == Ok(h)
    requires forall o :: o in h.options ==> o.name != "nonexistent"
    ensures ScanSpec(ScanRequest("genesys", [("nonexistent", JBool(true))]), fileName, env) ==
              ScanTrace(Failed(NoSuchOption("nonexistent")), Some(h), [], false)
  {
    var sr := ScanRequest("genesys", [("nonexistent", JBool(true))]);
    UnknownOptionStopsScan(sr, fileName, env, h, 0);
    assert sr.options[..0] == [];
  }

  /**
   * One iteration of doScan's option loop against an open connection: look
   * the name up, skip an option that is not settable, otherwise coerce the
   * value and set it, ignoring the device's answer.
   */
  method ApplyPair(c: Conn, req: (string, JsonValue)) returns (stop: Option<ScanStatus>)
    requires !c.closed
    modifies c
    ensures stop.Some? <==> ApplyOne(c.Options(), req).Stop?
    ensures stop.Some? ==> stop.value == ApplyOne(c.Options(), req).status
    ensures c.applied == old(c.applied) + CallsOf(ApplyOne(c.Options(), req))
    ensures !c.closed && c.acquisitions == old(c.acquisitions)
  {
    var (name, value) := req;
    var found := FindOption(c.Options(), name);
    if found.Err? {
      return Some(Failed(found.error));
    }
    var o := found.value;
    if o.isSettable {
      var v := Coerce(o.kind, value);
      if v.None? {
        return Some(Panicked(o.name));
      }
      var _ := c.SetOption(o.name, v.value);
    }
    return None;
  }

  /** The option loop of doScan run against an open connection, until a pair stops it. */
  method ApplyRequestedOptions(c: Conn, reqs: seq<(string, JsonValue)>) returns (status: ScanStatus)
    requires !c.closed
    modifies c
    ensures status == ApplyOptions(c.Options(), reqs).status
    ensures c.applied == old(c.applied) + ApplyOptions(c.Options(), reqs).calls
    ensures !c.closed && c.acquisitions == old(c.acquisitions)
  {
    ghost var opts := c.Options();
    ghost var start := c.applied;
    var i := 0;
    while i < |reqs|
      invariant 0 <= i <= |reqs|
      invariant !c.closed && c.acquisitions == old(c.acquisitions)
      invariant c.applied == start + RequestedCalls(opts, reqs[..i])
      invariant forall req :: req in reqs[..i] ==> Passes(opts, req)
    {
      var stop := ApplyPair(c, reqs[i]);
      if stop.Some? {
        ApplyOptionsStopsAtFirstRejected(opts, reqs, i);
        return stop.value;
      }
      RequestedCallsExtend(opts, reqs, i);
      i := i + 1;
    }
    assert reqs[..i] == reqs;
    ApplyOptionsAllPass(opts, reqs);
    return Success;
  }

  /**
   * `doScan(sr, fileName)` over an abstract device. The connection it opens
   * (null when no device was opened) records the assignments made and the
   * acquisitions, and is closed on every path, as the deferred Close does.
   */
  method DoScan(sr: ScanRequest, fileName: string, env: Env) returns (status: ScanStatus, c: Conn?)
    ensures status == ScanSpec(sr, fileName, env).status
    ensures c == null <==> ScanSpec(sr, fileName, env).device.None?
    ensures c != null ==>
              Some(c.handle) == ScanSpec(sr, fileName, env).device &&
              c.applied == ScanSpec(sr, fileName, env).applied &&
              c.acquisitions == (if ScanSpec(sr, fileName, env).acquired then 1 else 0) &&
              c.closed
  {
    var created := env.create(fileName);
    if created.Some? {
      return Failed(FileError(created.value)), null;
    }
    var resolved := OpenDevice(env.driver, sr.device).result;
    if resolved.Err? {
      return Failed(resolved.error), null;
    }
    c := new Conn(resolved.value);
    status := ApplyRequestedOptions(c, sr.options);
    if !status.Success? {
      c.Close();
      return status, c;
    }
    var img := c.ReadImage();
    if img.Err? {
      c.Close();
      return Failed(DriverError(img.error)), c;
    }
    var encoded := env.encode(img.value);
    c.Close();
    if encoded.Some? {
      return Failed(EncodeError(encoded.value)), c;
    }
    return Success, c;
  }

  // ---------------------------------------------------------------------------
  // The name of a scan's output file
  // ---------------------------------------------------------------------------

  /** The local time a scan starts at, as `time.Now()` reports its fields. */
  datatype Clock = Clock(year: int, month: int, day: int, hour: int, minute: int, second: int)

  /** The ranges of Go's calendar fields, with a year of at most four digits. */
  predicate InRange(t: Clock) {
    0 <= t.year <= 9999 && 1 <= t.month <= 12 && 1 <= t.day <= 31 &&
    0 <= t.hour < 24 && 0 <= t.minute < 60 && 0 <= t.second < 60
  }

  /** The time as `%04d%02d%02d%02d%02d%02d` writes it: YYYYMMDDhhmmss. */
  function Stamp(t: Clock): string {
    PadInt(t.year, 4) + PadInt(t.month, 2) + PadInt(t.day, 2) +
    PadInt(t.hour, 2) + PadInt(t.minute, 2) + PadInt(t.second, 2)
  }

  /** `getScanFilename`: "scan-", the time stamp, then ".png". */
  function ScanFilename(t: Clock): (name: string)
    // the prefix and extension are fixed, and no field is ever cut short
    ensures |name| >= 23 && name[..5] == "scan-" && name[|name| - 4..] == ".png"
  {
    "scan-" + Stamp(t) + ".png"
  }

  /** Reads a time back out of fourteen digits YYYYMMDDhhmmss. */
  function ParseStamp(d: string): Clock
    requires |d| == 14 && AllDigits(d)
  {
    assert forall k :: 0 <= k < |d| ==> IsDigit(d[k]);
    Clock(ValueOf(d[0..4]), ValueOf(d[4..6]), ValueOf(d[6..8]),
          ValueOf(d[8..10]), ValueOf(d[10..12]), ValueOf(d[12..14]))
  }

  /** Reads the time back out of a scan file name; None for any other name. */
  function ParseScanFilename(s: string): (r: Option<Clock>)
    ensures r.Some? ==> |s| == 23 && s[..5] == "scan-" && s[19..] == ".png" && AllDigits(s[5..19])
  {
    if |s| == 23 && s[..5] == "scan-" && s[19..] == ".png" && AllDigits(s[5..19]) then
      Some(ParseStamp(s[5..19]))
    else None
  }

  /** An in-range time gives fourteen digits that read back as that time. */
  lemma StampRoundTrip(t: Clock)
    requires InRange(t)
    ensures |Stamp(t)| == 14 && AllDigits(Stamp(t)) && ParseStamp(Stamp(t)) == t
  {
    PadIntRoundTrip(t.year, 4);
    PadIntRoundTrip(t.month, 2);
    PadIntRoundTrip(t.day, 2);
    PadIntRoundTrip(t.hour, 2);
    PadIntRoundTrip(t.minute, 2);
    PadIntRoundTrip(t.second, 2);
    StampFields(PadInt(t.year, 4), PadInt(t.month, 2), PadInt(t.day, 2),
                PadInt(t.hour, 2), PadInt(t.minute, 2), PadInt(t.second, 2));
  }

  /** Where each field of a stamp sits in it. */
  lemma StampFields(y: string, mo: string, d: string, h: string, mi: string, se: string)
    requires |y| == 4 && |mo| == 2 && |d| == 2 && |h| == 2 && |mi| == 2 && |se| == 2
    requires AllDigits(y) && AllDigits(mo) && AllDigits(d) && AllDigits(h) && AllDigits(mi) && AllDigits(se)
    ensures var s := y + mo + d + h + mi + se;
            |s| == 14 && AllDigits(s) &&
            s[0..4] == y && s[4..6] == mo && s[6..8] == d && s[8..10] == h && s[10..12] == mi && s[12..14] == se
  {
    var s := y + mo + d + h + mi + se;
    assert s[0..4] == y && s[4..6] == mo && s[6..8] == d;
    assert s[8..10] == h && s[10..12] == mi && s[12..14] == se;
    forall k | 0 <= k < 14 ensures IsDigit(s[k]) {
      if k < 4 { assert s[k] == y[k]; }
      else if k < 6 { assert s[k] == mo[k - 4]; }
      else if k < 8 { assert s[k] == d[k - 6]; }
      else if k < 10 { assert s[k] == h[k - 8]; }
      else if k < 12 { assert s[k] == mi[k - 10]; }
      else { assert s[k] == se[k - 12]; }
    }
  }

  /** Every in-range time gives a 23-character name that reads back as that time. */
  lemma ScanFilenameRoundTrip(t: Clock)
    requires InRange(t)
    ensures |ScanFilename(t)| == 23
    ensures ParseScanFilename(ScanFilename(t)) == Some(t)
  {
    StampRoundTrip(t);
    var s := ScanFilename(t);
    assert s[..5] == "scan-" && s[5..19] == Stamp(t) && s[19..] == ".png";
  }

  /** Two different in-range times never share a scan file name. */
  lemma ScanFilenameInjective(t: Clock, u: Clock)
    requires InRange(t) && InRange(u) && ScanFilename(t) == ScanFilename(u)
    ensures t == u
  {
    ScanFilenameRoundTrip(t);
    ScanFilenameRoundTrip(u);
  }

  // ---------------------------------------------------------------------------
  // The scan and last handlers
  // ---------------------------------------------------------------------------

  /**
   * The server's process-wide state: the directory scans go to, fixed at
   * start-up, and the name of the file the most recent scan wrote.
   */
  class Server {
    const scanPath: string
    var scanFile: string

    constructor (scanPath: string)
      ensures this.scanPath == scanPath && scanFile == ""
    {
      this.scanPath := scanPath;
      scanFile := "";
    }

    /** The file the most recent scan was written to: the directory, a slash and the file name. */
    function LastScan(): (p: string)
      reads this
      ensures |p| == |scanPath| + 1 + |scanFile|
      ensures p[..|scanPath|] == scanPath && p[|scanPath|] == '/' && p[|scanPath| + 1..] == scanFile
    {
      scanPath + "/" + scanFile
    }

    /**
     * `scan`: a body that is not a scan request ends the handler and leaves
     * the state alone. Otherwise the file name is taken from the clock
     * before the scan runs, so the slot names the new file even when the
     * scan then fails, and doScan writes to the path `last` serves.
     */
    method Scan(request: Result<ScanRequest, string>, now: Clock, env: Env) returns (status: ScanStatus)
      modifies this
      ensures request.Err? ==> status == Failed(BindError(request.error)) && scanFile == old(scanFile)
      ensures request.Ok? ==> scanFile == ScanFilename(now)
      ensures request.Ok? ==> status == ScanSpec(request.value, LastScan(), env).status
    {
      if request.Err? {
        return Failed(BindError(request.error));
      }
      scanFile := ScanFilename(now);
      var c;
      status, c := DoScan(request.value, LastScan(), env);
    }
  }
}
