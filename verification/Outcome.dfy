/** Outcomes of operations that the simulator may abort with panic(). */
module Outcome {

  /** Why a run stops.  Each value names one panic (or one undefined access) of the source. */
  datatype PanicKind =
    | OutOfRange            // checked vector access outside its bounds
    | WriteNotErased        // "Write to non erased page"
    | WriteNotSequential    // "Write to block should sequential"
    | NoFreeBlock           // "No free block left"
    | AlreadyInUse          // "Corrupted": the free block is in the block list
    | WritePointLost        // "Corrupted": the write point is not in the block list
    | NoSuchBlock           // a block that is looked up is not in the block list
    | InvalidMapping        // "Invalid mapping table entry"
    | ValidPagesInVictim    // "There are valid pages in victim block"
    | EmptyFreeList         // the reverse search of eraseInternal has no element to start from
    | UnmappedUnit          // trim: "Block is not in use"
    | GcWhileInitializing   // "ftl: GC triggered while in initialization"
    | LayerBitmapCorrupted  // "Corrupted layer check bitmap"
    | FrontOfEmptyQueue     // front() or pop() of an empty DMA queue
    | UnknownEvent          // "Event does not exists"
    | AllocateFailed        // "Fail to allocate event"
    | PastTheTable          // access behind the end of a table of bytes
    | SizeMismatch          // "Size does not match", "I/O map size mismatch"
    | CacheCorrupted        // "Cache corrupted!"
    | IoFlagSize            // "Invalid size of I/O flag"
    | IoFlagCount           // "I/O flag size != # pages in super page"
    | BadAllocationString   // "Invalid page allocation string"

  datatype Result<+T> = Ok(value: T) | Panic(why: PanicKind) {
    predicate IsFailure() { Panic? }

    function PropagateFailure<U>(): Result<U>
      requires Panic?
    {
      Panic(why)
    }

    function Extract(): T
      requires Ok?
    {
      value
    }

    /** The same outcome without its value. */
    function Status(): Result<()> {
      if Ok? then Ok(()) else Panic(why)
    }
  }
}
