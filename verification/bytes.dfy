/** Byte strings as the aspect sees call data and addresses. */
module Bytes {

  type Byte = b: int | 0 <= b < 256

  /** `data.slice(from, to)` on a JavaScript typed array, for non-negative bounds:
      both bounds are clamped to the length, and an empty range gives an empty array. */
  function Slice(data: seq<Byte>, from: nat, to: nat): (r: seq<Byte>)
    ensures from <= to <= |data| ==> r == data[from..to]
    ensures from <= |data| <= to ==> r == data[from..]
    ensures |data| <= from || to <= from ==> r == []
  {
    var lo := if from <= |data| then from else |data|;
    var hi := if to <= |data| then to else |data|;
    if hi <= lo then [] else data[lo..hi]
  }
}
