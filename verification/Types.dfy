/** Small vocabulary shared by every component of the model. */
module Types {
  newtype byte = x: int | 0 <= x < 256

  const TWO_32: int := 0x1_0000_0000
  const TWO_31: int := 0x8000_0000

  /** A TCP sequence number. */
  type u32 = x: int | 0 <= x < 0x1_0000_0000

  /** Packet time and durations, in nanoseconds. */
  type Time = nat

  /** `Timestamp::MAX`: the last nanosecond of 32-bit seconds. */
  const END_OF_TIME: Time := 0xFFFF_FFFF * 1_000_000_000 + 999_999_999

  datatype Option<+T> = None | Some(value: T)

  /** Why a side stopped reassembling. */
  datatype Stop = Overflow | Memcap

  /** What happens when the ready buffer would outgrow its cap. */
  datatype OverflowPolicy = SlidingWindow | DropFlow

  /** Which of two overlapping segments keeps a byte. */
  datatype OverlapPolicy = First | Last | LowerSeq | HigherSeq

  function Min(a: int, b: int): int { if a <= b then a else b }

  function Max(a: int, b: int): int { if a >= b then a else b }

  /** `Timestamp::saturating_sub`. */
  function Since(now: Time, then_: Time): Time { if now >= then_ then now - then_ else 0 }
}
