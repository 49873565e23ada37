/**
 * The slice of the Linux input-event protocol that the evdev beep driver uses:
 * the sound event type, its two sub-codes, the size of one event record and the
 * capability bitmap returned by the EVIOCGBIT query.
 *
 * The kernel header that defines EV_SND, SND_TONE and SND_BELL is not part of this
 * model, so their values are not fixed here: they are the fields of an `Abi` value
 * that every operation receives.
 */
module InputAbi {

  /** A small optional value, used where the C code has a nullable pointer or a
      query that can fail. */
  datatype Option<+T> = None | Some(value: T)

  /** The `uint16_t` frequency parameter of `driver_begin_tone`. */
  newtype u16 = x: int | 0 <= x < 0x1_0000

  /** A bit position the driver may test. The driver builds its mask as
      `1 << SND_TONE` on a plain `int`, which is only defined below 31. */
  type BitPos = k: nat | k < 31

  /** The kernel's constants as the driver sees them. */
  datatype Abi = Abi(
    evSnd: nat,         // EV_SND, the event type of every record the driver writes
    sndTone: BitPos,    // SND_TONE, sub-code and capability bit for a pitched tone
    sndBell: BitPos,    // SND_BELL, sub-code and capability bit for an on/off bell
    eventSize: nat      // sizeof(struct input_event)
  )
  {
    /** The two sub-codes are different constants in the kernel header. */
    predicate DistinctCodes() {
      sndTone != sndBell
    }
  }

  /** One `struct input_event` as the driver fills it; the timestamp fields are
      zeroed by the driver and carry no information, so they are not modelled. */
  datatype Event = Event(evType: nat, code: nat, value: int)

  /** The `unsigned long` filled in by `EVIOCGBIT(EV_SND, ...)`, modelled as
      64 bits; only bits below 31 are ever tested. */
  type Bitmap = bv64

  /** `bits & (1 << k)` is non-zero. */
  predicate HasBit(bits: Bitmap, k: BitPos) {
    bits & ((1 as bv64) << k) != 0
  }
}
