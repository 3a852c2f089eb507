/** Types shared by the models. */
module Common {
  datatype Option<+T> = None | Some(value: T)

  /** Go's byte/uint8 and uint16, as ranges of the unbounded integers. */
  type Byte = b: int | 0 <= b < 0x100
  type Word = w: int | 0 <= w < 0x1_0000

  /** The 16-bit value of two big-endian bytes. */
  function BigEndian(hi: Byte, lo: Byte): Word {
    hi as int * 0x100 + lo as int
  }

  /** The first n naturals. */
  ghost function Below(n: nat): (s: set<nat>)
    ensures forall i :: i in s <==> 0 <= i < n
    ensures |s| == n
  {
    if n == 0 then {} else Below(n - 1) + {n - 1}
  }

  lemma SubsetSize<T>(small: set<T>, big: set<T>)
    requires small <= big
    ensures |small| <= |big|
  {
    assert big == small + (big - small);
  }

  lemma Regroup<T>(a: seq<T>, b: seq<T>, c: seq<T>)
    ensures (a + b) + c == a + (b + c)
  {
  }
}
