/** What a run of one gate client leaves behind: one entry for each step that others can observe. */
module History {
  import opened Orders

  /**
    What the input goroutine did with a report before it handed it to the pending calls: put it into the cache,
    at this position, or not, because the user was not accepted when the history was this long.
   */
  datatype Prepared = CachedAt(position: nat) | IgnoredAt(position: nat)

  datatype Entry =
    | Stored(user: UserId, orders: seq<OrderModel>)       // an accepted snapshot replaced the user's orders
    | Released(user: UserId, storedAt: nat)               // ... and woke those who wait for it
    | Cached(user: UserId, report: OrderReport)           // a report of an accepted user went to the cache
    | Replied(user: UserId, report: OrderReport, prepared: Prepared)  // ... and to the pending calls
    | Rejected(user: UserId, reject: Reject)              // a reject went to the pending calls
    | Dropped(user: UserId)                               // the user was unsubscribed
    | Accepted(user: UserId)                              // a caller asked for the user's snapshot
    | Joined(user: UserId, opens: bool)                   // ... and waits; `opens` if nobody waited before
    | SubscribeTried(user: UserId)                        // the one who opened sent the subscription

  /** Entries that neither the input goroutine nor the cache takes part in, apart from a drop. */
  predicate Passive(e: Entry) {
    e.Dropped? || e.Accepted? || e.Joined? || e.SubscribeTried?
  }
}
