/**
 * The evdev beep driver: capability negotiation against an input device, the
 * descriptor lifecycle, and the encoding of tone start/stop events.
 *
 * The device is an oracle. For every path, a `Probe` says what the checked open
 * returns, whether the EVIOCGSND query succeeds and what the EVIOCGBIT query
 * reports; the byte count returned by each `write` is an argument of the tone
 * operations. Process termination through `safe_error_exit` is the `Fatal`
 * outcome, kept apart from the plain `false` that a failed detection returns.
 */
module EvdevDriver {
  import opened InputAbi

  /** The two sound sub-APIs the driver can drive, `enum snd_api_type`. */
  datatype SndApi = Tone | Bell

  /** The value the C enum gives each sub-API, as stored in `device_flags`. */
  function FlagOf(api: SndApi): (flags: int)
    ensures 0 <= flags < 2
    ensures flags == 0 <==> api == Tone
  {
    match api
    case Tone => 0
    case Bell => 1
  }

  /** Reads `device_flags` back as a sub-API; a value that names neither
      enumerator matches no case of the driver's `switch`. */
  function ApiOf(flags: int): (r: Option<SndApi>)
    ensures r.Some? <==> exists api :: FlagOf(api) == flags
    ensures r.Some? ==> FlagOf(r.value) == flags
  {
    if flags == 0 then assert FlagOf(Tone) == flags; Some(Tone)
    else if flags == 1 then assert FlagOf(Bell) == flags; Some(Bell)
    else None
  }

  /** The fields of the `beep_driver` record this driver reads or writes. */
  datatype Driver = Driver(
    name: string,                // fixed identifier, never written by the driver
    deviceFd: int,               // device_fd; -1 when no device is open
    deviceName: Option<string>,  // device_name; None for NULL
    deviceFlags: int             // device_flags; holds FlagOf of the chosen sub-API
  )

  /** What the device found at one path answers to the driver's system calls. */
  datatype Probe = Probe(
    openResult: int,          // result of open_checked_char_device(path)
    sndQueryOk: bool,         // ioctl(fd, EVIOCGSND(0)) did not return -1
    sndBits: Option<Bitmap>   // ioctl(fd, EVIOCGBIT(EV_SND, ...)); None when it returned -1
  )

  /** The whole device side: what is found at each path. */
  type Host = string -> Probe

  /** The result of a detection: the C function's return value and the
      descriptor as it is left afterwards. */
  datatype Detection = Detection(found: bool, driver: Driver)

  /** How a tone operation ends: normally, or by terminating the process. */
  datatype Outcome = Ok | Fatal(message: string)

  /** One record handed to `write`, with the handle it is written to. */
  datatype Write = Write(fd: int, event: Event)

  /** A tone operation's effect: the write it issues, and its outcome. */
  datatype Emission = Emission(write: Write, outcome: Outcome)

  /** The path tried when the caller names no device. */
  const DefaultDevice: string := "/dev/input/by-path/platform-pcspkr-event-spkr"

  /** The message `safe_error_exit` reports for a short write. */
  const WriteFailure: string := "write EV_SND"

  // ---------------------------------------------------------------------------
  // Capability negotiation
  // ---------------------------------------------------------------------------

  /** `open_checked_device`: the descriptor from the checked open, or -1 when
      that open fails or the device does not implement the EV_SND API. */
  function OpenCheckedDevice(p: Probe): (fd: int)
    ensures fd == -1 || fd == p.openResult
    ensures fd != -1 <==> p.openResult != -1 && p.sndQueryOk
  {
    if p.openResult == -1 then -1
    else if !p.sndQueryOk then -1
    else p.openResult
  }

  /** The device path one detection tries: the caller's if given, otherwise the
      compiled-in default. There is no list of further candidates. */
  function DevicePath(consoleDevice: Option<string>): (path: string)
    ensures consoleDevice.Some? ==> path == consoleDevice.value
    ensures consoleDevice.None? ==> path == "/dev/input/by-path/platform-pcspkr-event-spkr"
  {
    match consoleDevice
    case Some(path) => path
    case None => DefaultDevice
  }

  /** The bitmap advertises the capability bit of `api`. */
  predicate Supports(abi: Abi, bits: Bitmap, api: SndApi) {
    match api
    case Tone => HasBit(bits, abi.sndTone)
    case Bell => HasBit(bits, abi.sndBell)
  }

  /** The driver's order of preference: a lower rank is preferred. */
  function Rank(api: SndApi): nat {
    match api
    case Tone => 0
    case Bell => 1
  }

  /** The sub-API chosen from an EV_SND capability bitmap: the most preferred
      one the device supports, or None when it supports neither. */
  function Classify(abi: Abi, bits: Bitmap): (r: Option<SndApi>)
    ensures r.None? <==> forall api :: !Supports(abi, bits, api)
    ensures r.Some? ==> Supports(abi, bits, r.value)
    ensures r.Some? ==> forall api :: Supports(abi, bits, api) ==> Rank(r.value) <= Rank(api)
  {
    if HasBit(bits, abi.sndTone) then assert Supports(abi, bits, Tone); Some(Tone)
    else if HasBit(bits, abi.sndBell) then assert Supports(abi, bits, Bell); Some(Bell)
    else None
  }

  /** `driver_detect`. Only the chosen path is consulted. A failed open leaves
      the descriptor as it was; once the open succeeds, the handle and path are
      stored even if a later query fails; `device_flags` is written only on
      success. */
  function Detect(abi: Abi, host: Host, d: Driver, consoleDevice: Option<string>): (r: Detection)
    ensures r.driver.name == d.name
    ensures var path := DevicePath(consoleDevice);
            var fd := OpenCheckedDevice(host(path));
            && (fd < 0 ==> r == Detection(false, d))
            && (fd >= 0 ==> r.driver.deviceFd == fd && r.driver.deviceName == Some(path))
    ensures var p := host(DevicePath(consoleDevice));
            r.found <==> OpenCheckedDevice(p) >= 0 && p.sndBits.Some?
                         && exists api :: Supports(abi, p.sndBits.value, api)
    ensures r.found ==>
              var bits := host(DevicePath(consoleDevice)).sndBits.value;
              && ApiOf(r.driver.deviceFlags).Some?
              && Supports(abi, bits, ApiOf(r.driver.deviceFlags).value)
              && forall api :: Supports(abi, bits, api) ==>
                   Rank(ApiOf(r.driver.deviceFlags).value) <= Rank(api)
    ensures !r.found ==> r.driver.deviceFlags == d.deviceFlags
  {
    var path := DevicePath(consoleDevice);
    var p := host(path);
    var fd := OpenCheckedDevice(p);
    if fd < 0 then
      Detection(false, d)
    else
      var withHandle := d.(deviceFd := fd, deviceName := Some(path));
      match p.sndBits
      case None => Detection(false, withHandle)
      case Some(bits) =>
        match Classify(abi, bits)
        case None => Detection(false, withHandle)
        case Some(api) => Detection(true, withHandle.(deviceFlags := FlagOf(api)))
  }

  // ---------------------------------------------------------------------------
  // Lifecycle
  // ---------------------------------------------------------------------------

  /** `driver_init`: acquires nothing and changes no field. */
  function Init(d: Driver): (r: Driver)
    ensures r == d
  {
    d
  }

  /** The result of `driver_fini`: the descriptor afterwards, and the handle
      that was passed to `close`. */
  datatype Closing = Closing(driver: Driver, closed: int)

  /** `driver_fini`: closes whatever handle is stored, without checking it, and
      resets it to -1; no other field changes. */
  function Fini(d: Driver): (r: Closing)
    ensures r.closed == d.deviceFd
    ensures r.driver.deviceFd == -1
    ensures r.driver == d.(deviceFd := r.driver.deviceFd)
  {
    Closing(d.(deviceFd := -1), d.deviceFd)
  }

  // ---------------------------------------------------------------------------
  // Tone events
  // ---------------------------------------------------------------------------

  /** What the caller asks the driver to do. */
  datatype Request = Begin(freq: u16) | End

  /** The record `driver_begin_tone` or `driver_end_tone` builds from the stored
      `device_flags`. The record starts zeroed, so a flag that matches neither
      case leaves code and value 0. */
  function Encode(abi: Abi, flags: int, req: Request): (e: Event)
    ensures e.evType == abi.evSnd
    ensures ApiOf(flags) == Some(Tone) ==> e.code == abi.sndTone
    ensures ApiOf(flags) == Some(Bell) ==> e.code == abi.sndBell
    ensures ApiOf(flags).None? ==> e.code == 0 && e.value == 0
    ensures req.End? ==> e.value == 0
    ensures req.Begin? && ApiOf(flags) == Some(Tone) ==> e.value == req.freq as int
    ensures req.Begin? && ApiOf(flags) == Some(Bell) ==> e.value == 1
  {
    match ApiOf(flags)
    case Some(Tone) =>
      Event(abi.evSnd, abi.sndTone, if req.Begin? then req.freq as int else 0)
    case Some(Bell) =>
      Event(abi.evSnd, abi.sndBell, if req.Begin? then 1 else 0)
    case None =>
      Event(abi.evSnd, 0, 0)
  }

  /** The byte count `write` reports for a record of `written` bytes offered
      on handle `fd`: a negative handle is never open, so the call fails with
      -1 there, whatever the device would have accepted. */
  function Transferred(fd: int, written: int): (n: int)
    ensures fd < 0 ==> n == -1
    ensures fd >= 0 ==> n == written
  {
    if fd < 0 then -1 else written
  }

  /** The check after `write`: anything but the full record size ends the
      process; there is no retry and no error return. */
  function CheckWrite(abi: Abi, transferred: int): (o: Outcome)
    ensures o.Ok? <==> transferred == abi.eventSize
    ensures o.Fatal? ==> o.message == WriteFailure
  {
    if transferred != abi.eventSize then Fatal(WriteFailure) else Ok
  }

  /** `driver_begin_tone`: writes the start record for `freq` to the stored
      handle; `written` is what the device would accept from `write`. */
  function BeginTone(abi: Abi, d: Driver, freq: u16, written: int): (r: Emission)
    ensures r.write == Write(d.deviceFd, Encode(abi, d.deviceFlags, Begin(freq)))
    ensures r.outcome.Ok? <==> d.deviceFd >= 0 && written == abi.eventSize
    ensures r.outcome.Fatal? ==> r.outcome.message == WriteFailure
  {
    var w := Write(d.deviceFd, Encode(abi, d.deviceFlags, Begin(freq)));
    Emission(w, CheckWrite(abi, Transferred(d.deviceFd, written)))
  }

  /** `driver_end_tone`: writes the stop record to the stored handle;
      `written` is what the device would accept from `write`. */
  function EndTone(abi: Abi, d: Driver, written: int): (r: Emission)
    ensures r.write == Write(d.deviceFd, Encode(abi, d.deviceFlags, End))
    ensures r.outcome.Ok? <==> d.deviceFd >= 0 && written == abi.eventSize
    ensures r.outcome.Fatal? ==> r.outcome.message == WriteFailure
  {
    var w := Write(d.deviceFd, Encode(abi, d.deviceFlags, End));
    Emission(w, CheckWrite(abi, Transferred(d.deviceFd, written)))
  }

  /** What a sound record asks of the device: silence, a tone of the given
      pitch in Hz, or the bell. Records of another type or sub-code, and
      negative pitches, carry no sound request. */
  datatype Sound = Silence | Pitch(hz: nat) | Ring

  /** The reading of a record under the EV_SND protocol: for SND_TONE the value
      is a frequency with 0 meaning stop; for SND_BELL it is on (non-zero) or
      off (zero). */
  function SoundOf(abi: Abi, e: Event): Option<Sound> {
    if e.evType != abi.evSnd then None
    else if e.code == abi.sndTone then
      if e.value == 0 then Some(Silence)
      else if e.value > 0 then Some(Pitch(e.value))
      else None
    else if e.code == abi.sndBell then
      if e.value == 0 then Some(Silence) else Some(Ring)
    else None
  }
}
