/** The table of connection descriptors and the handler counter, changed in place. */
module ConnectionTable {
  import opened Common
  import opened HandlerAllocator
  import opened ServerState

  /** A search is over at the first advance that finds a free handler or comes back to the start. */
  lemma {:induction false} SearchEnds(space: Space, used: set<int>, ticks: nat, k: nat, n: nat)
    requires 1 <= k <= n <= Size(space)
    requires forall j :: k <= j < n ==> InUse(space, used, ticks, j)
    requires n < Size(space) ==> !InUse(space, used, ticks, n)
    ensures SearchFrom(space, used, ticks, k) == n
    decreases n - k
  {
    if k < n {
      assert InUse(space, used, ticks, k);
      SearchEnds(space, used, ticks, k + 1, n);
    }
  }

  class Table {
    const space: Space
    var descriptors: map<int, Descriptor>
    var counter: int
    /** The number of grants so far, which the descriptors are numbered with. */
    var grants: nat
    /** The number of advances of the counter so far. */
    ghost var ticks: nat

    ghost predicate Valid()
      reads this
    {
      counter == At(space, ticks) && CONNECTION_HANDLER_INVALID !in descriptors
    }

    constructor (space: Space)
      ensures Valid() && this.space == space
      ensures descriptors == map[] && counter == 0 && grants == 0 && ticks == 0
    {
      this.space := space;
      descriptors, counter, grants, ticks := map[], 0, 0, 0;
    }

    /** The search terminates, leaves the counter at a valid handler, and adds a descriptor for the first
        free handler after the counter, or none if there is no such handler. */
    method GenerateConnectionHandler() returns (handler: int)
      requires Valid()
      modifies this
      ensures Valid() && counter != CONNECTION_HANDLER_INVALID
      ensures ticks == old(ticks) + Search(space, old(descriptors.Keys), old(ticks))
      ensures handler == Generated(space, old(descriptors.Keys), old(ticks))
      ensures handler == CONNECTION_HANDLER_INVALID
         <==> forall h :: IsHandler(space, h) && h != old(counter) ==> h in old(descriptors)
      ensures descriptors == if handler == CONNECTION_HANDLER_INVALID then old(descriptors)
                             else old(descriptors)[handler := Descriptor(CNone, false, None, old(grants))]
      ensures grants == old(grants) + if handler == CONNECTION_HANDLER_INVALID then 0 else 1
    {
      var found := SearchFreeHandler();
      GeneratedInvalid(space, descriptors.Keys, old(ticks));
      handler := CONNECTION_HANDLER_INVALID;
      if found {
        handler := counter;
        descriptors := descriptors[handler := Descriptor(CNone, false, None, grants)];
        grants := grants + 1;
      }
    }

    /** The loop: advance until a free handler or the start is reached. */
    method SearchFreeHandler() returns (found: bool)
      requires Valid()
      modifies this`counter, this`ticks
      ensures Valid() && ticks == old(ticks) + Search(space, descriptors.Keys, old(ticks))
      ensures found <==> Search(space, descriptors.Keys, old(ticks)) < Size(space)
    {
      var hStart := counter;
      ghost var t, k := ticks, 0;
      found := false;
      while true
        invariant Valid() && ticks == t + k && k < Size(space)
        invariant hStart == At(space, t) && !found
        invariant forall j :: 1 <= j <= k ==> InUse(space, descriptors.Keys, t, j)
        decreases Size(space) - k
      {
        assert At(space, ticks + 1) == Advance(space, counter);
        counter := Increment(space, counter);
        if counter == CONNECTION_HANDLER_INVALID {
          counter := Increment(space, counter);
        }
        k, ticks := k + 1, ticks + 1;
        NotBackBefore(space, t, k);
        assert InUse(space, descriptors.Keys, t, k) <==> counter in descriptors;
        if counter == hStart {
          break;
        }
        if counter !in descriptors {
          found := true;
          break;
        }
      }
      SearchEnds(space, descriptors.Keys, t, 1, k);
    }

    method ReleaseConnectionHandler(handler: int)
      requires Valid()
      modifies this
      ensures Valid() && ticks == old(ticks) && counter == old(counter) && grants == old(grants)
      ensures descriptors == if handler == CONNECTION_HANDLER_INVALID then old(descriptors)
                             else old(descriptors) - {handler}
    {
      if handler != CONNECTION_HANDLER_INVALID {
        if handler in descriptors {
          descriptors := descriptors - {handler};
        }
      }
    }

    /** `GetConnectionDescriptor`; the source's pointer into the table is the descriptor's value here. */
    method GetConnectionDescriptor(handler: int) returns (descr: Option<Descriptor>)
      ensures descr.Some? <==> handler in descriptors
      ensures descr.Some? ==> descr.value == descriptors[handler]
    {
      if handler in descriptors {
        descr := Some(descriptors[handler]);
      } else {
        descr := None;
      }
    }

    /** An assignment through the pointer that `GetConnectionDescriptor` returned. */
    method Write(handler: int, descr: Descriptor)
      requires Valid() && handler in descriptors
      modifies this`descriptors
      ensures Valid() && descriptors == old(descriptors)[handler := descr]
    {
      descriptors := descriptors[handler := descr];
    }
  }
}
