# evdev beep driver — Dafny model

This project models the Linux evdev backend of the `beep` program. The driver
finds a speaker through the kernel's generic input-event interface. It opens one
device path, checks that the device implements the sound event type EV_SND, and
reads the device's EV_SND capability bitmap. From that bitmap it picks the
pitched-tone sub-API SND_TONE if it can, and the on/off sub-API SND_BELL if not.
It then starts and stops tones by writing one `struct input_event` record per
request.

The model is functional. The descriptor (`Driver`) is an immutable record, and
every driver operation is a pure function from the old descriptor to the new one.
The device is an oracle:

- `Host` maps each path to a `Probe`. A probe holds the checked-open result, the
  success of the EVIOCGSND query, and the EVIOCGBIT bitmap, or `None` when that
  query fails.
- The byte count the device would accept from `write` is an argument of each
  tone operation. Every write names the stored handle it goes to. A write on a
  negative handle, as after `fini`, fails with -1, whatever the device would
  have accepted.
- Ending the process through `safe_error_exit` is the `Fatal` outcome. It is a
  different type from the plain `false` a failed detection returns.

The kernel constants EV_SND, SND_TONE and SND_BELL, and the record size, are not
fixed to numbers. They are fields of an `Abi` value. The two sub-codes are bit
positions below 31, because the driver builds its masks as `1 << SND_TONE` on a
plain `int`. Lemmas that need the two sub-codes to differ say so with
`abi.DistinctCodes()`.

Files:

- `input_abi.dfy` (module `InputAbi`) holds the ABI constants, the event record,
  the 64-bit capability bitmap and the bit test.
- `evdev_driver.dfy` (module `EvdevDriver`) holds the sub-API enum, the
  descriptor, negotiation, init/fini, and the encoding and writing of events.
- `evdev_properties.dfy` (module `EvdevProperties`) holds the properties of
  single operations.
- `evdev_session.dfy` (module `EvdevSession`) holds a sequence of dispatcher
  calls run against the oracle, with inductive proofs about ordering, fatal
  writes and composition.

Three behaviours of the driver are modelled as written:

- A later successful detection overwrites the stored sub-API. Nothing keeps it
  from being written more than once.
- A failed EVIOCGBIT query, or a bitmap with neither bit, still leaves the opened
  handle and path in the descriptor.
- Nothing guards against two starts without a stop in between.

## Model

| member | source | states |
|---|---|---|
| EvdevDriver.FlagOf | beep-driver-evdev.c:55-58 | the value stored in `device_flags` for a sub-API is 0 for Tone and 1 for Bell, as the enum numbers them |
| EvdevDriver.DevicePath | beep-driver-evdev.c:91-111 | the one path detection tries is the caller's when given, otherwise "/dev/input/by-path/platform-pcspkr-event-spkr" |
| EvdevDriver.ApiOf | beep-driver-evdev.c:55-58 | a stored flag is read as Tone or Bell exactly when it equals one of the enum's values; any other value matches neither case |
| EvdevDriver.OpenCheckedDevice | beep-driver-evdev.c:61-75 | the result is either -1 or the descriptor from the checked open; it is not -1 exactly when the open succeeded and the EVIOCGSND query did not fail |
| EvdevDriver.Classify | beep-driver-evdev.c:125-138 | the chosen sub-API is one the bitmap supports and is preferred over every other supported one; there is no choice exactly when neither bit is set |
| EvdevDriver.Detect | beep-driver-evdev.c:78-142 | the descriptor name never changes; a failed checked open gives false and leaves the descriptor untouched; a successful open stores the handle and path; the answer is true exactly when the open succeeded, the bitmap query succeeded and some sub-API is supported; on true the flags name the preferred supported sub-API; on false the flags keep their old value |
| EvdevDriver.Init | beep-driver-evdev.c:145-149 | init changes nothing |
| EvdevDriver.Fini | beep-driver-evdev.c:152-158 | fini closes whatever handle is stored, without a check; it sets the handle to -1 and changes no other field |
| EvdevDriver.Encode | beep-driver-evdev.c:166-206 | every record has type EV_SND; the code is SND_TONE in tone mode and SND_BELL in bell mode; a stop has value 0; a tone-mode start carries the frequency; a bell-mode start carries 1; a flag naming neither mode leaves the zeroed code and value |
| EvdevDriver.Transferred | beep-driver-evdev.c:181 | a write on a negative handle reports -1; on an open handle it reports what the device accepted |
| EvdevDriver.CheckWrite | beep-driver-evdev.c:181-184 | the write is accepted exactly when it transferred the full record size; anything else is fatal with the message "write EV_SND" |
| EvdevDriver.BeginTone | beep-driver-evdev.c:161-185 | begin-tone writes the start record for the stored mode and frequency to the stored handle; it succeeds exactly when that handle is open and the whole record is accepted, and is fatal otherwise |
| EvdevDriver.EndTone | beep-driver-evdev.c:188-211 | end-tone writes the stop record for the stored mode to the stored handle; it succeeds exactly when that handle is open and the whole record is accepted, and is fatal otherwise |
| EvdevProperties.FlagRoundTrip | beep-driver-evdev.c:140-141 | the flag stored for a sub-API reads back as that sub-API |
| EvdevProperties.TonePreferred | beep-driver-evdev.c:125-129 | with the tone bit set, TONE is chosen whatever the bell bit says |
| EvdevProperties.BellFallback | beep-driver-evdev.c:130-133 | with only the bell bit set, BELL is chosen |
| EvdevProperties.NeitherRejected | beep-driver-evdev.c:134-138 | with neither bit set, detection answers false and the flags are not written |
| EvdevProperties.PathChoice | beep-driver-evdev.c:91-111 | the path tried is the caller's when one is given, otherwise "/dev/input/by-path/platform-pcspkr-event-spkr" |
| EvdevProperties.OnlyChosenPathTried | beep-driver-evdev.c:91-111 | two hosts that agree on the chosen path give the same detection, so no other path is tried |
| EvdevProperties.OpenedPathStored | beep-driver-evdev.c:94-95 | after a successful open the stored name is the caller's path, or the default path when there is none |
| EvdevProperties.EarlyFailureUntouched | beep-driver-evdev.c:64-72 | a failed checked open or a failed EVIOCGSND query gives false and leaves the descriptor untouched |
| EvdevProperties.LateFailureKeepsHandle | beep-driver-evdev.c:117-137 | a failed EVIOCGBIT query, or a bitmap with neither bit, gives false, yet the opened handle and path are already stored and the flags are unchanged |
| EvdevProperties.SuccessSetsFlags | beep-driver-evdev.c:140-141 | after a true answer the flags name the classified sub-API |
| EvdevProperties.ReopenAfterFini | beep-driver-evdev.c:152-158 | detection after fini leaves the same descriptor as detection without it, so the descriptor can be detected again |
| EvdevProperties.BellIgnoresFrequency | beep-driver-evdev.c:175-178 | in bell mode two different frequencies give identical start records |
| EvdevProperties.BeginEndDifferOnlyInValue | beep-driver-evdev.c:193-206 | the start and stop records of one mode go to the same stored handle and share the type and code; the stop value is 0 |
| EvdevProperties.RecordsMeanWhatWasAsked | beep-driver-evdev.c:166-206 | in bell mode a start record rings the bell; in either mode a stop record asks for silence |
| EvdevProperties.ZeroFrequencyIsStop | beep-driver-evdev.c:171-174 | in tone mode a start at frequency 0 writes exactly the stop record |
| EvdevProperties.TonePitchRecoverable | beep-driver-evdev.c:171-174 | in tone mode the start record reads back as the requested frequency, or as silence for 0 |
| EvdevProperties.ShortWriteFatal | beep-driver-evdev.c:181-184 | a write that transfers fewer bytes than the record size is fatal for both begin and end |
| EvdevProperties.ClosedHandleFatal | beep-driver-evdev.c:181-184 | with no open handle, both begin and end are fatal, whatever the device would accept |
| EvdevSession.Step | beep-driver-evdev.c:145-211 | a tone call writes one record to the stored handle and leaves the descriptor alone; it is fatal exactly when the handle is negative or the write is short; detect, init and fini write nothing and never end the process; only detect changes the mode |
| EvdevSession.Run | beep-driver-evdev.c:161-211 | a run never issues more writes than there are tone calls; it writes exactly that many when nothing is fatal; the descriptor name never changes |
| EvdevSession.RecordsInCallOrder | beep-driver-evdev.c:181-184 | on an open handle, with no re-detection, no fini and no short write, the stored handle gets exactly one record per tone call, in call order, each encoding its request under the stored mode |
| EvdevSession.FatalIffRefusedWrite | beep-driver-evdev.c:181-184 | a run ends the process exactly when some tone call's write is short or goes to a negative handle, judged against the handle stored just before that call; the message is "write EV_SND" |
| EvdevSession.FatalIsFinal | beep-driver-evdev.c:208-210 | after a fatal write no later call has any effect |
| EvdevSession.RunSequential | beep-driver-evdev.c:161-211 | running two call lists back to back gives the records of the first, then those of the second run from the descriptor the first left |
| EvdevSession.BeginThenEnd | beep-driver-evdev.c:166-206 | on an open handle, a start then a stop, both accepted in full, deliver exactly two records to that handle in call order, differing only in value |
| EvdevSession.ClosedAfterFini | beep-driver-evdev.c:156-157 | a run that ends with fini leaves no device handle |
| EvdevSession.ToneAfterFiniFatal | beep-driver-evdev.c:156-157 | a tone call right after fini writes to handle -1 and ends the process |

## Left out

- Only the outcomes of the system calls `open`, `ioctl`, `write` and `close` are modelled, as oracle inputs. The calls themselves are operating-system I/O. The one operating-system rule the model adds is that `write` on a negative handle fails. A closed but non-negative handle is not distinguished from an open one.
- `open_checked_char_device` is not part of this model. Only its result is an input. It may end the process on a misconfigured device, and the model does not represent that case.
- The bytes of `struct input_event` are not modelled. That covers the zeroed timestamp fields and the kernel's layout. A record is the abstract triple of type, code and value, and the record size is an `Abi` field.
- Verbose logging is left out because it has no effect on behaviour.
- `safe_error_exit` is modelled as the `Fatal` outcome, not as process termination.
- The static `driver_data` initializer and the load-time registration constructor (lines 214-239) are left out. They hand the driver to a registry that is not part of this model. The meaning of the initializer's trailing fields depends on a header that is not part of this model either. So the model never assumes an initial descriptor: every operation accepts any descriptor.
- The handle that `open_checked_device` leaves open on its EVIOCGSND failure path is not tracked. The same goes for the handle an earlier detection stored when a later one overwrites it. Both are operating-system resource accounting.
- Errors from `close` are not modelled, because the driver ignores them.
- The kernel's integer types are not modelled. The EV_SND, SND_TONE and SND_BELL values are not fixed. The record type and code are naturals and the value an unbounded integer. No driver path comes near their limits: the frequency is a 16-bit value and the bell value is 0 or 1.
- The integer widths of the check after `write` are not modelled. The model compares the byte count with the record size as unbounded integers. The C code converts a -1 result of `write` to a huge `size_t` first. Both comparisons treat -1 as a short write.
