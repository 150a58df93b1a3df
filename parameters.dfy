/**
  The part of the effect's parameter set that the buffer lifecycle depends on
  (Datamoshing/Datamoshing.cs lines 8-11): the macroblock edge length, a
  clamped integer parameter. Every write to a clamped parameter stores the
  nearest value inside its declared range, so no out-of-range value ever
  reaches the frame pipeline.
*/
module Parameters {

  const MinBlockSize: int := 1
  const MaxBlockSize: int := 128
  const DefaultBlockSize: int := 32

  /** A macroblock edge length as the parameter can hold it. */
  type BlockSize = n: int | MinBlockSize <= n <= MaxBlockSize witness DefaultBlockSize

  /** Distance between two integers. */
  function Dist(x: int, y: int): nat
  {
    if x <= y then y - x else x - y
  }

  /** The value a clamped parameter with range [lo, hi] stores when written `v`. */
  function Clamp(v: int, lo: int, hi: int): (r: int)
    requires lo <= hi
    ensures lo <= r <= hi
    ensures forall x :: lo <= x <= hi ==> Dist(r, v) <= Dist(x, v)
  {
    if v < lo then lo else if hi < v then hi else v
  }

  /** A write to `blockSize`: kept as it is when in range, clamped otherwise. */
  function ClampBlockSize(v: int): (r: BlockSize)
    ensures r == v <==> MinBlockSize <= v <= MaxBlockSize
    ensures v < MinBlockSize ==> r == MinBlockSize
    ensures MaxBlockSize < v ==> r == MaxBlockSize
  {
    Clamp(v, MinBlockSize, MaxBlockSize)
  }
}
