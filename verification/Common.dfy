/** Types and constants shared by the modules. */
module Common {

  datatype Option<+T> = None | Some(value: T)

  /** One more than the largest unsigned int, and one more than the largest unsigned long long. */
  const WORD: nat := 0x1_0000_0000
  const LONG: nat := 0x1_0000_0000_0000_0000

  /** A thread; a user thread is identified with its process and its page table. */
  type Tid = nat

  /** The address of one second-level page table entry: which table, which page. */
  datatype Eid = Eid(pt: Tid, vpn: nat)

  const PAGE_SIZE := 4096

  /** The contents of one page frame or of one swap slot, as bytes. */
  type Page = p: seq<int> | |p| == PAGE_SIZE witness Zeros(PAGE_SIZE)

  function Zeros(n: nat): (z: seq<int>)
    ensures |z| == n && forall i :: 0 <= i < n ==> z[i] == 0
  {
    seq(n, _ => 0)
  }

  /** What `bzero` leaves in a frame. */
  const ZERO_PAGE: Page := Zeros(PAGE_SIZE)
}
