/**
 * The SANE driver library as the scan server sees it. The driver itself is
 * foreign code: opening a device, enumerating devices and acquiring an image
 * are given as data (what the driver answers), and an open connection is an
 * object that records the calls made on it.
 */
module Sane {
  import opened Wrappers

  /** `sane.Type`: the declared value kind of a device option. */
  datatype ValueKind = TypeBool | TypeInt | TypeFloat | TypeString | TypeButton | TypeGroup

  /** `sane.Option`, reduced to the fields the server reads. */
  datatype SaneOption = SaneOption(name: string, kind: ValueKind, isSettable: bool)

  /** `sane.Device`: one entry of the driver's device enumeration. */
  datatype Device = Device(name: string, vendor: string, model: string, kind: string)

  /** `sane.Image`, abstracted to its dimensions. */
  datatype Image = Image(width: nat, height: nat)

  /** The dynamic value handed to `SetOption`; `VNil` is Go's untyped nil. */
  datatype Value = VNil | VBool(b: bool) | VInt(i: int) | VFloat(f: real) | VString(s: string)

  /** One call `SetOption(name, value)` as the device received it. */
  datatype SetCall = SetCall(name: string, value: Value)

  /**
   * What the driver exposes about a device once it is open: its declared
   * options, the outcome `ReadImage` will have, and the option names whose
   * `SetOption` the device rejects.
   */
  datatype Handle = Handle(
    deviceName: string,
    options: seq<SaneOption>,
    acquisition: Result<Image, string>,
    rejects: set<string>)

  /**
   * The driver's answers: `sane.Open(name)` for every name, and the result of
   * `sane.Devices()`.
   */
  datatype Driver = Driver(
    open: string -> Result<Handle, string>,
    devices: Result<seq<Device>, string>)

  /** `*sane.Conn`: an open device connection. */
  class Conn {
    const handle: Handle
    /** The option assignments the device has received, in call order. */
    var applied: seq<SetCall>
    /** How many times `ReadImage` was called. */
    var acquisitions: nat
    var closed: bool

    constructor (h: Handle)
      ensures handle == h && applied == [] && acquisitions == 0 && !closed
    {
      handle := h;
      applied := [];
      acquisitions := 0;
      closed := false;
    }

    /** `Conn.Options()`: the device's declared options. */
    function Options(): seq<SaneOption> {
      handle.options
    }

    /** `Conn.SetOption(name, v)`: the device records the call and may reject it. */
    method SetOption(name: string, v: Value) returns (err: Option<string>)
      requires !closed
      modifies this
      ensures applied == old(applied) + [SetCall(name, v)]
      ensures acquisitions == old(acquisitions) && !closed
      ensures err.Some? <==> name in handle.rejects
    {
      applied := applied + [SetCall(name, v)];
      if name in handle.rejects {
        err := Some("invalid argument");
      } else {
        err := None;
      }
    }

    /** `Conn.ReadImage()`: acquire one frame. */
    method ReadImage() returns (r: Result<Image, string>)
      requires !closed
      modifies this
      ensures r == handle.acquisition
      ensures acquisitions == old(acquisitions) + 1 && applied == old(applied) && !closed
    {
      acquisitions := acquisitions + 1;
      r := handle.acquisition;
    }

    /** `Conn.Close()`. */
    method Close()
      modifies this
      ensures closed && applied == old(applied) && acquisitions == old(acquisitions)
    {
      closed := true;
    }
  }
}
