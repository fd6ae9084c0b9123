/** Small shared vocabulary: optional values, raw bytes and persistent identities. */
module Common {

  /** Swift's `Optional`: `nil` is `None`. */
  datatype Option<+T> = None | Some(value: T)

  /** `Data`: a byte payload (audio clips, JPEG images). */
  type Byte = x: int | 0 <= x < 256
  type Bytes = seq<Byte>

  /** A SwiftData `PersistentIdentifier`, or a `UUID` of a value that is identified by one. */
  type Id = nat

  /** The payload of an optional, as a zero- or one-element sequence. */
  function OptionToSeq<T>(o: Option<T>): (r: seq<T>)
    ensures o.None? ==> r == []
    ensures o.Some? ==> r == [o.value]
  {
    match o
    case None => []
    case Some(v) => [v]
  }
}
