/** run_LP_filt as its loop is written: i starts at SENSE_BUFF_LENGTH, so the
    first pass copies slot 63 into slot 64, one past the end of the 64-byte
    sample array.  To make that write visible the memory is modelled with
    one extra slot, the byte that follows the array; what really lives
    there is not modelled. */
module ShiftAsWritten {
  import opened SenseFilter

  /** The 64 samples followed by the byte after the array. */
  predicate IsSpilledMemory(mem: seq<byte>)
  {
    |mem| == SENSE_BUFF_LENGTH + 1
  }

  /** The memory after the as-written shift with new sample x. */
  function ShiftedAsWritten(mem: seq<byte>, x: byte): (r: seq<byte>)
    requires IsSpilledMemory(mem)
    ensures IsSpilledMemory(r)
  {
    [x] + mem[..SENSE_BUFF_LENGTH]
  }

  /** The loop exactly as written, on the 65 bytes it touches. */
  method RunLPFiltAsWritten(mem: array<byte>, touched: bool)
    requires mem.Length == SENSE_BUFF_LENGTH + 1
    modifies mem
    ensures mem[..] == ShiftedAsWritten(old(mem[..]), Sample(touched))
  {
    var i := SENSE_BUFF_LENGTH;
    while i > 0
      invariant 0 <= i <= SENSE_BUFF_LENGTH
      invariant forall k :: 0 <= k <= i ==> mem[k] == old(mem[k])
      invariant forall k :: i < k <= SENSE_BUFF_LENGTH ==> mem[k] == old(mem[k - 1])
    {
      mem[i] := mem[i - 1];
      i := i - 1;
    }
    mem[0] := Sample(touched);
  }

  /** Inside the array the as-written loop agrees with the intended shift;
      its only other effect is to overwrite the byte after the array with
      the sample that should have been discarded. */
  lemma AsWrittenAgreesInside(mem: seq<byte>, x: byte)
    requires IsSpilledMemory(mem)
    ensures ShiftedAsWritten(mem, x)[..SENSE_BUFF_LENGTH] == Shifted(mem[..SENSE_BUFF_LENGTH], x)
    ensures ShiftedAsWritten(mem, x)[SENSE_BUFF_LENGTH] == mem[SENSE_BUFF_LENGTH - 1]
  {
  }

  /** A concrete case: with the oldest sample set and the following byte 0,
      one pass changes the byte after the array to 1. */
  lemma StrayWriteChangesNextByte()
    ensures var mem := seq(SENSE_BUFF_LENGTH + 1, k => if k == SENSE_BUFF_LENGTH - 1 then 1 else 0);
      ShiftedAsWritten(mem, 0)[SENSE_BUFF_LENGTH] != mem[SENSE_BUFF_LENGTH]
  {
  }
}
