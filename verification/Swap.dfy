/** The reference-counted swap file (kern/vm/swapfile.c). */
module Swap {
  import opened Common

  /** 9 megabytes of 4096-byte slots. */
  const SWAP_MAX: nat := 9 * 1024 * 1024 / 4096

  /** Reference counts are unsigned bytes and wrap around. */
  const REF_LIMIT: nat := 256

  /** The first slot from `i` on that nobody refers to, or the number of slots. */
  function FirstFree(refs: seq<nat>, i: nat): (k: nat)
    requires i <= |refs|
    ensures i <= k <= |refs|
    ensures k < |refs| ==> refs[k] == 0
    ensures forall j :: i <= j < k ==> refs[j] > 0
    decreases |refs| - i
  {
    if i == |refs| || refs[i] == 0 then i else FirstFree(refs, i + 1)
  }

  class File {
    const refs: array<nat>
    const disk: array<Page>

    ghost predicate Valid()
      reads this, refs
    {
      && refs.Length == SWAP_MAX && disk.Length == SWAP_MAX
      && (forall k :: 0 <= k < SWAP_MAX ==> refs[k] < REF_LIMIT)
    }

    constructor ()
      ensures Valid() && fresh(refs) && fresh(disk)
      ensures forall k :: 0 <= k < SWAP_MAX ==> refs[k] == 0
    {
      refs := new nat[SWAP_MAX](_ => 0);
      disk := new Page[SWAP_MAX](_ => ZERO_PAGE);
    }

    /**
      `swap_set`: store `content` in the first unreferenced slot. The kernel
      panics when there is none; the result is then the number of slots.
     */
    method Set(content: Page) returns (index: nat)
      requires Valid()
      modifies refs, disk
      ensures Valid() && index == FirstFree(old(refs[..]), 0)
      ensures index == SWAP_MAX ==> refs[..] == old(refs[..]) && disk[..] == old(disk[..])
      ensures index < SWAP_MAX ==>
        && refs[..] == old(refs[..])[index := 1]
        && disk[..] == old(disk[..])[index := content]
    {
      ghost var r := refs[..];
      index := 0;
      while index < SWAP_MAX && refs[index] > 0
        invariant 0 <= index <= SWAP_MAX
        invariant FirstFree(r, 0) == FirstFree(r, index)
      {
        index := index + 1;
      }
      if index < SWAP_MAX {
        refs[index] := 1;
        disk[index] := content;
      }
    }

    /** `swap_get`: drop one reference; the content is read unless the caller only frees. */
    method Get(index: nat) returns (content: Page)
      requires Valid() && index < SWAP_MAX && refs[index] > 0
      modifies refs
      ensures Valid() && content == disk[index]
      ensures refs[..] == old(refs[..])[index := old(refs[index]) - 1]
    {
      refs[index] := refs[index] - 1;
      content := disk[index];
    }

    /** `swap_inc_ref`: the byte wraps. */
    method IncRef(index: nat)
      requires Valid() && index < SWAP_MAX
      modifies refs
      ensures Valid()
      ensures refs[..] == old(refs[..])[index := (old(refs[index]) + 1) % REF_LIMIT]
    {
      refs[index] := (refs[index] + 1) % REF_LIMIT;
    }
  }
}
