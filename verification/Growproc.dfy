/** The size that growproc gives a process, for the kernel and for the allocator above it. */
module Growproc {
  import opened Bytes

  /** sz + n in 32 bits; a sum on the wrong side of sz changes nothing. */
  function NewSize(sz: nat, n: int): (r: nat)
    ensures sz < WORD_LIMIT ==> r < WORD_LIMIT
    ensures 0 <= sz + n < WORD_LIMIT ==> r == sz + n
    ensures n >= 0 ==> r >= sz
    ensures n <= 0 ==> r <= sz
  {
    var want := (sz + n) % WORD_LIMIT;
    if (n >= 0 && want < sz) || (n <= 0 && want >= sz) then sz else want
  }
}
