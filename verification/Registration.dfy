/** How `updateChannel` and `removeChannel` move a channel's registration, as values. */
module Registration {
  /** `events_`: only the read and write bits are ever set. */
  datatype Mask = Mask(read: bool, write: bool) {
    predicate None() { !read && !write }
  }

  /** kNew, kAdded and kDeleted. */
  datatype Index = New | Added | Deleted

  /**
   The index after `updateChannel`. Only a channel that is in the kernel's list and has lost
   all its events leaves that list; any other channel is put in, even with an empty mask.
   */
  function Updated(i: Index, m: Mask): (r: Index)
    ensures !r.New?
    ensures r.Deleted? <==> i.Added? && m.None()
  {
    if i.Added? && m.None() then Deleted else Added
  }
}
