/**
 * The malloc-context-size register: how many stack frames are captured for
 * each tracked allocation event. A single process-wide 32-bit cell with a
 * setter and a getter.
 */
module AsanStack {
  import opened CTypes

  class MallocContextRegister {
    /** The stored word; a `u32` cell, so always within the 32-bit range. */
    var size: U32

    /** The register is a zero-initialised static. */
    constructor ()
      ensures size == 0
    {
      size := 0;
    }

    /**
     * Stores `n` as given: there is no validation, so 0 (no stack capture)
     * and 2^32 - 1 are stored like any other value.
     */
    method SetMallocContextSize(n: U32)
      modifies this
      ensures size == n
    {
      size := n;
    }

    /** Returns the value of the most recent store and changes nothing. */
    method GetMallocContextSize() returns (r: U32)
      ensures r == size
    {
      r := size;
    }
  }

  /**
   * Last write wins: after two stores with no store in between, a load
   * returns the second value, whatever the first and the initial value were.
   */
  method LastWriteWins(reg: MallocContextRegister, first: U32, second: U32) returns (r: U32)
    modifies reg
    ensures r == second && reg.size == second
  {
    reg.SetMallocContextSize(first);
    reg.SetMallocContextSize(second);
    r := reg.GetMallocContextSize();
  }
}
