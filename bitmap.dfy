/** 32-bit slot bitmaps as the driver reads them.
    The controller exposes one flag per message object (valid, new data,
    transmit request) through pairs of 16-bit registers; the driver glues each
    pair into one 32-bit word in which bit i belongs to message object i+1, and
    then scans or counts the bits of that word. Here such a word is the
    sequence of its 32 bits, bit i at index i. */
module Bitmap {

  /** The least index in lo..hi-1 whose bit equals `want`, or hi when there is none. */
  function FirstMatch(bits: seq<bool>, lo: nat, hi: nat, want: bool): (k: nat)
    requires lo <= hi <= |bits|
    ensures lo <= k <= hi
    ensures k < hi ==> bits[k] == want
    ensures forall j :: lo <= j < k ==> bits[j] != want
    decreases hi - lo
  {
    if lo == hi then hi
    else if bits[lo] == want then lo
    else FirstMatch(bits, lo + 1, hi, want)
  }

  /** The number of set bits among positions lo..hi-1. */
  function PopCount(bits: seq<bool>, lo: nat, hi: nat): (n: nat)
    requires lo <= hi <= |bits|
    ensures n <= hi - lo
    ensures n == 0 <==> forall j :: lo <= j < hi ==> !bits[j]
    ensures n == hi - lo <==> forall j :: lo <= j < hi ==> bits[j]
    decreases hi - lo
  {
    if lo == hi then 0
    else (if bits[lo] then 1 else 0) + PopCount(bits, lo + 1, hi)
  }

  /** The driver's scan `for (i = lo; i < hi; i++) if (bit i == want) break;`;
      k == hi when the loop runs to its end. */
  method ScanFirst(bits: seq<bool>, lo: nat, hi: nat, want: bool) returns (k: nat)
    requires lo <= hi <= |bits|
    ensures k == FirstMatch(bits, lo, hi, want)
  {
    k := lo;
    while k < hi
      invariant lo <= k <= hi
      invariant FirstMatch(bits, k, hi, want) == FirstMatch(bits, lo, hi, want)
      decreases hi - k
    {
      if bits[k] == want {
        return;
      }
      k := k + 1;
    }
  }

  /** The driver's count `for (i = lo; i < hi; i++) if (bit i) count++;`. */
  method CountSet(bits: seq<bool>, lo: nat, hi: nat) returns (count: nat)
    requires lo <= hi <= |bits|
    ensures count == PopCount(bits, lo, hi)
  {
    count := 0;
    var i := lo;
    while i < hi
      invariant lo <= i <= hi
      invariant count + PopCount(bits, i, hi) == PopCount(bits, lo, hi)
      decreases hi - i
    {
      if bits[i] {
        count := count + 1;
      }
      i := i + 1;
    }
  }
}
