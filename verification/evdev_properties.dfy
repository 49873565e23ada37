/**
 * Properties of single driver operations: the preference order of the
 * negotiation, which path is tried, what is left behind by a failed detection,
 * and what the start and stop records ask of the device.
 */
module EvdevProperties {
  import opened InputAbi
  import opened EvdevDriver

  /** The stored flag reads back as the sub-API it was written for. */
  lemma FlagRoundTrip(api: SndApi)
    ensures ApiOf(FlagOf(api)) == Some(api)
  {
  }

  /** A device with the tone bit is driven through SND_TONE whatever its bell
      bit says. */
  lemma TonePreferred(abi: Abi, bits: Bitmap)
    requires HasBit(bits, abi.sndTone)
    ensures Classify(abi, bits) == Some(Tone)
  {
  }

  /** A device with only the bell bit is driven through SND_BELL. */
  lemma BellFallback(abi: Abi, bits: Bitmap)
    requires !HasBit(bits, abi.sndTone) && HasBit(bits, abi.sndBell)
    ensures Classify(abi, bits) == Some(Bell)
  {
  }

  /** A device with neither bit is rejected: detection answers false and
      `device_flags` keeps its old value. */
  lemma NeitherRejected(abi: Abi, host: Host, d: Driver, consoleDevice: Option<string>)
    requires var p := host(DevicePath(consoleDevice));
             p.sndBits.Some? && !HasBit(p.sndBits.value, abi.sndTone)
             && !HasBit(p.sndBits.value, abi.sndBell)
    ensures Classify(abi, host(DevicePath(consoleDevice)).sndBits.value).None?
    ensures !Detect(abi, host, d, consoleDevice).found
    ensures Detect(abi, host, d, consoleDevice).driver.deviceFlags == d.deviceFlags
  {
  }

  /** The path tried is the caller's when one is given, the default otherwise. */
  lemma PathChoice(consoleDevice: Option<string>)
    ensures consoleDevice.Some? ==> DevicePath(consoleDevice) == consoleDevice.value
    ensures consoleDevice.None? ==> DevicePath(consoleDevice) == "/dev/input/by-path/platform-pcspkr-event-spkr"
  {
  }

  /** Only the chosen path is consulted: two hosts that agree on it give the
      same detection, whatever they hold at every other path. */
  lemma OnlyChosenPathTried(abi: Abi, h1: Host, h2: Host, d: Driver, consoleDevice: Option<string>)
    requires h1(DevicePath(consoleDevice)) == h2(DevicePath(consoleDevice))
    ensures Detect(abi, h1, d, consoleDevice) == Detect(abi, h2, d, consoleDevice)
  {
  }

  /** A successful open stores the path that was tried as `device_name`. */
  lemma OpenedPathStored(abi: Abi, host: Host, d: Driver, consoleDevice: Option<string>)
    requires OpenCheckedDevice(host(DevicePath(consoleDevice))) >= 0
    ensures var r := Detect(abi, host, d, consoleDevice).driver;
            && (consoleDevice.Some? ==> r.deviceName == consoleDevice)
            && (consoleDevice.None? ==> r.deviceName == Some(DefaultDevice))
  {
  }

  /** A failed checked open, or a device without the EV_SND API, gives false
      and leaves the whole descriptor untouched. */
  lemma EarlyFailureUntouched(abi: Abi, host: Host, d: Driver, consoleDevice: Option<string>)
    requires var p := host(DevicePath(consoleDevice));
             p.openResult == -1 || !p.sndQueryOk
    ensures Detect(abi, host, d, consoleDevice) == Detection(false, d)
  {
  }

  /** A failed EVIOCGBIT query, or a bitmap with neither sub-code, gives false
      but the opened handle and path are already stored. */
  lemma LateFailureKeepsHandle(abi: Abi, host: Host, d: Driver, consoleDevice: Option<string>)
    requires var p := host(DevicePath(consoleDevice));
             && p.openResult >= 0 && p.sndQueryOk
             && (p.sndBits.None? || Classify(abi, p.sndBits.value).None?)
    ensures var r := Detect(abi, host, d, consoleDevice);
            && !r.found
            && r.driver.deviceFd == host(DevicePath(consoleDevice)).openResult
            && r.driver.deviceName == Some(DevicePath(consoleDevice))
            && r.driver.deviceFlags == d.deviceFlags
  {
  }

  /** A successful detection leaves `device_flags` naming the classified
      sub-API. */
  lemma SuccessSetsFlags(abi: Abi, host: Host, d: Driver, consoleDevice: Option<string>)
    requires Detect(abi, host, d, consoleDevice).found
    ensures var bits := host(DevicePath(consoleDevice)).sndBits.value;
            ApiOf(Detect(abi, host, d, consoleDevice).driver.deviceFlags) == Classify(abi, bits)
  {
  }

  /** `fini` followed by `detect` is a full re-open: the descriptor detection
      leaves behind does not depend on the closed handle. */
  lemma ReopenAfterFini(abi: Abi, host: Host, d: Driver, consoleDevice: Option<string>)
    requires Detect(abi, host, d, consoleDevice).found
    ensures Detect(abi, host, Fini(d).driver, consoleDevice) == Detect(abi, host, d, consoleDevice)
  {
  }

  /** In bell mode the frequency has no effect on the record. */
  lemma BellIgnoresFrequency(abi: Abi, d: Driver, f1: u16, f2: u16, written: int)
    requires ApiOf(d.deviceFlags) == Some(Bell)
    ensures BeginTone(abi, d, f1, written) == BeginTone(abi, d, f2, written)
  {
  }

  /** The start and stop records of a sub-API go to the same stored handle
      and differ only in their value. */
  lemma BeginEndDifferOnlyInValue(abi: Abi, d: Driver, freq: u16, w1: int, w2: int)
    ensures var b := BeginTone(abi, d, freq, w1).write;
            var e := EndTone(abi, d, w2).write;
            && b.fd == e.fd == d.deviceFd
            && b.event.evType == e.event.evType == abi.evSnd
            && b.event.code == e.event.code && e.event.value == 0
  {
  }

  /** In bell mode a start record asks for the bell; in either mode a stop
      record asks for silence. */
  lemma RecordsMeanWhatWasAsked(abi: Abi, d: Driver, freq: u16, w1: int, w2: int)
    requires abi.DistinctCodes()
    requires ApiOf(d.deviceFlags).Some?
    ensures ApiOf(d.deviceFlags) == Some(Bell) ==>
              SoundOf(abi, BeginTone(abi, d, freq, w1).write.event) == Some(Ring)
    ensures SoundOf(abi, EndTone(abi, d, w2).write.event) == Some(Silence)
  {
  }

  /** In tone mode a start at frequency 0 writes exactly the stop record. */
  lemma ZeroFrequencyIsStop(abi: Abi, d: Driver, w: int)
    requires ApiOf(d.deviceFlags) == Some(Tone)
    ensures BeginTone(abi, d, 0, w).write == EndTone(abi, d, w).write
  {
  }

  /** In tone mode the start record reads back as the requested pitch, or as
      silence for frequency 0. */
  lemma TonePitchRecoverable(abi: Abi, d: Driver, freq: u16, w: int)
    requires ApiOf(d.deviceFlags) == Some(Tone)
    ensures SoundOf(abi, BeginTone(abi, d, freq, w).write.event)
            == Some(if freq == 0 then Silence else Pitch(freq as nat))
  {
  }

  /** A short write, including a failed one, is fatal for both operations. */
  lemma ShortWriteFatal(abi: Abi, d: Driver, freq: u16, written: int)
    requires written < abi.eventSize
    ensures BeginTone(abi, d, freq, written).outcome == Fatal("write EV_SND")
    ensures EndTone(abi, d, written).outcome == Fatal("write EV_SND")
  {
  }

  /** With no open handle, as after `fini`, both tone operations end the
      process: `write` on -1 transfers nothing, whatever the device would
      have accepted. */
  lemma ClosedHandleFatal(abi: Abi, d: Driver, freq: u16, written: int)
    requires d.deviceFd < 0
    ensures BeginTone(abi, d, freq, written).outcome == Fatal("write EV_SND")
    ensures EndTone(abi, d, written).outcome == Fatal("write EV_SND")
  {
  }
}
