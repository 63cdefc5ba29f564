/**
 The deadline scheduler: per direction a sector-sorted list and an arrival list of the same requests,
 the next request of a batch, and the rules that choose between reads and writes. The red-black tree
 is modelled as the sequence of its requests in sector order.
 */
module Deadline {
  import opened Options
  import opened SortList

  /** One direction: sort_list, fifo_list and next_rq. */
  datatype Side = Side(sort: seq<nat>, fifo: seq<nat>, next: Option<nat>)

  /** deadline_data with the queued requests, and the requests dispatched so far. */
  datatype Data = Data(
    rqs: map<nat, Rq>, readSide: Side, writeSide: Side, batching: nat, starved: nat, lastSector: nat, out: seq<nat>)

  /** fifo_batch and writes_starved. */
  datatype Tunables = Tunables(fifoBatch: nat, writesStarved: nat)

  function Get(d: Data, write: bool): Side {
    if write then d.writeSide else d.readSide
  }

  function Put(d: Data, write: bool, side: Side): Data {
    if write then d.(writeSide := side) else d.(readSide := side)
  }

  // ----- The operations

  /** Every request in a sort list is queued in its direction and on the arrival list. */
  ghost predicate Listed(d: Data) {
    SideListed(d.rqs, d.readSide, false) && SideListed(d.rqs, d.writeSide, true)
  }

  ghost predicate SideListed(rqs: map<nat, Rq>, side: Side, write: bool) {
    forall r :: r in side.sort ==> r in rqs && rqs[r].write == write && r in side.fifo
  }

  /** deadline_move_request. */
  function Moved(d: Data, r: nat): Data
    requires r in d.rqs && r in Get(d, d.rqs[r].write).sort && r in Get(d, d.rqs[r].write).fifo
  {
    var rq := d.rqs[r];
    var side := Get(d, rq.write);
    var cleared := d.(
      rqs := d.rqs - {r}, readSide := d.readSide.(next := None), writeSide := d.writeSide.(next := None),
      lastSector := rq.sector + rq.sectors, out := d.out + [r]);
    Put(cleared, rq.write, Side(Remove(side.sort, r), Remove(side.fifo, r), Latter(side.sort, r)))
  }

  /** A request of this direction that starts at sector is moved out of the way. */
  function Evicted(d: Data, write: bool, sector: nat): Data
    requires Listed(d)
  {
    var a := Alias(d.rqs, Get(d, write).sort, sector);
    if a.Some? then Moved(d, a.value) else d
  }

  /** deadline_add_rq_rb. */
  function AddedRb(d: Data, r: nat): Data
    requires Listed(d) && r in d.rqs
  {
    var rq := d.rqs[r];
    var e := Evicted(d, rq.write, rq.sector);
    var side := Get(e, rq.write);
    Put(e, rq.write, side.(sort := Insert(side.sort, Place(e.rqs, side.sort, rq.sector), r)))
  }

  lemma ListedGrows(d: Data, r: nat, rq: Rq)
    requires Listed(d) && r !in d.rqs
    ensures Listed(d.(rqs := d.rqs[r := rq]))
  {
  }

  /** deadline_add_request, for a new request r with its expiry time set. */
  function Added(d: Data, r: nat, rq: Rq): Data
    requires Listed(d) && r !in d.rqs
  {
    ListedGrows(d, r, rq);
    var e := AddedRb(d.(rqs := d.rqs[r := rq]), r);
    var side := Get(e, rq.write);
    Put(e, rq.write, side.(fifo := side.fifo + [r]))
  }

  /** r with its new start, out of the sort list: the first half of deadline_merged_request. */
  function Unsorted(d: Data, r: nat, rq: Rq): Data
    requires r in Get(d, rq.write).sort
  {
    var side := Get(d, rq.write);
    Put(d.(rqs := d.rqs[r := rq]), rq.write, side.(sort := Remove(side.sort, r)))
  }

  /** deadline_merged_requests; rq is r as enlarged by the merge. */
  function MergedRequests(d: Data, r: nat, next: nat, rq: Rq): Data
    requires r in d.rqs && next in d.rqs && r != next && d.rqs[r].write == d.rqs[next].write == rq.write
    requires next in Get(d, rq.write).sort && r in Get(d, rq.write).fifo && next in Get(d, rq.write).fifo
  {
    var side := Get(d, rq.write);
    var urgent := d.rqs[next].stamp < d.rqs[r].stamp;
    var fifo := MergedFifo(side.fifo, r, next, urgent);
    var nx := if side.next == Some(next) then Latter(side.sort, next) else side.next;
    Put(d.(rqs := d.rqs[r := Hurried(d, r, next, rq)] - {next}), rq.write,
      Side(Remove(side.sort, next), if next in fifo then Remove(fifo, next) else fifo, nx))
  }

  /** r takes over next's expiry time if that is earlier. */
  function Hurried(d: Data, r: nat, next: nat, rq: Rq): Rq
    requires r in d.rqs && next in d.rqs
  {
    if d.rqs[next].stamp < d.rqs[r].stamp then rq.(stamp := d.rqs[next].stamp) else rq
  }

  // ----- deadline_dispatch_requests

  /** The best request of a direction: the oldest if it has expired or no batch goes on, else the next in sort order. */
  function Best(d: Data, write: bool, now: nat): nat
    requires Get(d, write).fifo != [] && forall r :: r in Get(d, write).fifo ==> r in d.rqs
  {
    var side := Get(d, write);
    if d.rqs[side.fifo[0]].stamp < now || side.next.None? then side.fifo[0] else side.next.value
  }

  /** The batch going on, writes first. */
  function Batch(d: Data): Option<nat> {
    if d.writeSide.next.Some? then d.writeSide.next else d.readSide.next
  }

  /** A dispatch chooses writes: there are writes, and no reads or reads have been chosen too often. */
  predicate ChoosesWrites(d: Data, t: Tunables) {
    d.writeSide.fifo != [] && (d.readSide.fifo != [] ==> d.starved >= t.writesStarved)
  }

  /** The request to dispatch, if any. */
  function Choice(d: Data, t: Tunables, now: nat): Option<nat>
    requires Ok(d, {}, {})
  {
    if Batch(d).Some? && d.batching < t.fifoBatch then Batch(d)
    else if d.readSide.fifo == [] && d.writeSide.fifo == [] then None
    else Some(Best(d, ChoosesWrites(d, t), now))
  }

  /**
   The requests of the current batch so far, and how often reads were chosen over waiting writes, after a dispatch.
   */
  function Counted(d: Data, t: Tunables): Data {
    if Batch(d).Some? && d.batching < t.fifoBatch then d.(batching := d.batching + 1)
    else if ChoosesWrites(d, t) then d.(starved := 0, batching := 1)
    else d.(starved := if d.writeSide.fifo != [] then d.starved + 1 else d.starved, batching := 1)
  }

  /** deadline_dispatch_requests. */
  function Dispatched(d: Data, t: Tunables, now: nat): Data
    requires Ok(d, {}, {})
  {
    var c := Choice(d, t, now);
    if c.None? then d else Moved(Counted(d, t), c.value)
  }

  /**
   Reads and writes take turns: with writes_starved above 0, writes chosen over queued reads are not chosen again at
   the next choice while reads are queued, and reads are chosen over waiting writes exactly writes_starved times.
   */
  lemma ChoicesTakeTurns(d: Data, t: Tunables)
    requires !(Batch(d).Some? && d.batching < t.fifoBatch) && d.readSide.fifo != [] && d.writeSide.fifo != []
    ensures ChoosesWrites(d, t) ==> Counted(d, t).starved == 0
    ensures ChoosesWrites(d, t) && t.writesStarved > 0 ==> !ChoosesWrites(Counted(d, t), t)
    ensures !ChoosesWrites(d, t) ==> Counted(d, t).starved == d.starved + 1 <= t.writesStarved
  {
  }

  /** Reads that are chosen while no write waits are not counted. */
  lemma OnlyWaitingCounts(d: Data, t: Tunables)
    requires d.writeSide.fifo == []
    ensures Counted(d, t).starved == d.starved
  {
  }

  // ----- What the operations keep

  /** The lists hold the same queued requests; those in noSort or noFifo are out of that list for a moment. */
  ghost predicate SideOk(rqs: map<nat, Rq>, side: Side, write: bool, noSort: set<nat>, noFifo: set<nat>) {
    match side case Side(sort, fifo, next) =>
      && Sorted(rqs, sort) && NoDup(fifo)
      && (forall r :: r in fifo <==> r in rqs && rqs[r].write == write && r !in noFifo)
      && (forall r :: r in sort <==> r in rqs && rqs[r].write == write && r !in noSort)
      && (next.Some? ==> next.value in rqs && rqs[next.value].write == write)
  }

  /** Both directions are right, and at most one has a next request. */
  ghost predicate Ok(d: Data, noSort: set<nat>, noFifo: set<nat>) {
    match d case Data(rqs, readSide, writeSide, _, _, _, _) =>
      && SideOk(rqs, readSide, false, noSort, noFifo) && SideOk(rqs, writeSide, true, noSort, noFifo)
      && (readSide.next.None? || writeSide.next.None?)
  }

  lemma OtherSideKeeps(rqs: map<nat, Rq>, side: Side, write: bool, noSort: set<nat>, noFifo: set<nat>, r: nat)
    requires SideOk(rqs, side, write, noSort, noFifo) && r in rqs && rqs[r].write != write
    ensures SideOk(rqs - {r}, side.(next := None), write, noSort, noFifo)
    ensures SideOk(rqs - {r}, side, write, noSort, noFifo)
  {
  }

  lemma SideKeeps(rqs: map<nat, Rq>, side: Side, write: bool, noSort: set<nat>, noFifo: set<nat>, r: nat,
                  next: Option<nat>)
    requires SideOk(rqs, side, write, noSort, noFifo) && r in rqs && rqs[r].write == write && r !in noSort
    requires r !in noFifo
    requires next.Some? ==> next.value != r && (next.value in side.sort || next == side.next)
    ensures SideOk(rqs - {r}, Side(Remove(side.sort, r), Remove(side.fifo, r), next), write, noSort, noFifo)
  {
    SortedRemoves(rqs, side.sort, r);
    RemoveKeeps(side.fifo, r);
  }

  lemma MovedKeeps(d: Data, r: nat, noSort: set<nat>, noFifo: set<nat>)
    requires Ok(d, noSort, noFifo) && r in d.rqs && r !in noSort && r !in noFifo
    ensures Ok(Moved(d, r), noSort, noFifo)
  {
    var w := d.rqs[r].write;
    LatterIsOther(d.rqs, Get(d, w).sort, r);
    SideKeeps(d.rqs, Get(d, w), w, noSort, noFifo, r, Latter(Get(d, w).sort, r));
    OtherSideKeeps(d.rqs, Get(d, !w), !w, noSort, noFifo, r);
  }

  lemma OkIsListed(d: Data, noSort: set<nat>, noFifo: set<nat>)
    requires Ok(d, noSort, noFifo) && noFifo <= noSort
    ensures Listed(d)
  {
  }

  /** After an eviction nothing of this direction starts at sector. */
  lemma EvictedKeeps(d: Data, write: bool, sector: nat, noSort: set<nat>, noFifo: set<nat>)
    requires Ok(d, noSort, noFifo) && noFifo <= noSort && Listed(d)
    ensures var e := Evicted(d, write, sector);
      Ok(e, noSort, noFifo) && Alias(e.rqs, Get(e, write).sort, sector).None?
      && (forall r :: r in noSort && r in d.rqs ==> r in e.rqs && e.rqs[r] == d.rqs[r])
  {
    var side := Get(d, write);
    assert SideOk(d.rqs, side, write, noSort, noFifo);
    AliasExact(d.rqs, side.sort, sector);
    var a := Alias(d.rqs, side.sort, sector);
    if a.Some? {
      MovedKeeps(d, a.value, noSort, noFifo);
      EvictedOnce(d.rqs, side.sort, a.value, sector);
    }
  }

  lemma {:induction false} InsertedSideKeeps(rqs: map<nat, Rq>, side: Side, write: bool, noFifo: set<nat>, r: nat)
    requires SideOk(rqs, side, write, {r}, noFifo) && r in rqs && rqs[r].write == write
    requires Alias(rqs, side.sort, rqs[r].sector).None?
    ensures SideOk(rqs, side.(sort := Insert(side.sort, Place(rqs, side.sort, rqs[r].sector), r)), write, {}, noFifo)
  {
    SortedInserts(rqs, side.sort, r);
    InsertHas(side.sort, Place(rqs, side.sort, rqs[r].sector), r);
  }

  lemma OtherNotMissing(rqs: map<nat, Rq>, side: Side, write: bool, noFifo: set<nat>, r: nat)
    requires SideOk(rqs, side, write, {r}, noFifo) && r in rqs && rqs[r].write != write
    ensures SideOk(rqs, side, write, {}, noFifo)
  {
  }

  lemma AddedRbKeeps(d: Data, r: nat, noFifo: set<nat>)
    requires Ok(d, {r}, noFifo) && noFifo <= {r} && Listed(d) && r in d.rqs
    ensures Ok(AddedRb(d, r), {}, noFifo)
    ensures r in AddedRb(d, r).rqs && AddedRb(d, r).rqs[r] == d.rqs[r]
  {
    var rq := d.rqs[r];
    EvictedKeeps(d, rq.write, rq.sector, {r}, noFifo);
    var e := Evicted(d, rq.write, rq.sector);
    InsertedSideKeeps(e.rqs, Get(e, rq.write), rq.write, noFifo, r);
    OtherNotMissing(e.rqs, Get(e, !rq.write), !rq.write, noFifo, r);
  }

  lemma NewSideOk(rqs: map<nat, Rq>, side: Side, write: bool, r: nat, rq: Rq)
    requires SideOk(rqs, side, write, {}, {}) && r !in rqs
    ensures SideOk(rqs[r := rq], side, write, {r}, {r})
  {
  }

  lemma FiledSideOk(rqs: map<nat, Rq>, side: Side, write: bool, r: nat)
    requires SideOk(rqs, side, write, {}, {r}) && r in rqs && rqs[r].write == write
    ensures SideOk(rqs, side.(fifo := side.fifo + [r]), write, {}, {})
  {
  }

  lemma OtherFiledOk(rqs: map<nat, Rq>, side: Side, write: bool, r: nat)
    requires SideOk(rqs, side, write, {}, {r}) && r in rqs && rqs[r].write != write
    ensures SideOk(rqs, side, write, {}, {})
  {
  }

  lemma AddedKeeps(d: Data, r: nat, rq: Rq)
    requires Ok(d, {}, {}) && Listed(d) && r !in d.rqs
    ensures Ok(Added(d, r, rq), {}, {})
  {
    var d' := d.(rqs := d.rqs[r := rq]);
    NewSideOk(d.rqs, d.readSide, false, r, rq);
    NewSideOk(d.rqs, d.writeSide, true, r, rq);
    OkIsListed(d', {r}, {r});
    AddedRbKeeps(d', r, {r});
    var e := AddedRb(d', r);
    FiledSideOk(e.rqs, Get(e, rq.write), rq.write, r);
    OtherFiledOk(e.rqs, Get(e, !rq.write), !rq.write, r);
  }

  lemma UnsortedKeeps(d: Data, r: nat, rq: Rq)
    requires Ok(d, {}, {}) && r in d.rqs && rq.write == d.rqs[r].write
    ensures Ok(Unsorted(d, r, rq), {r}, {})
  {
    var side := Get(d, rq.write);
    SortedRemoves(d.rqs, side.sort, r);
    UnsortedSideOk(d.rqs, side, rq.write, r, rq);
    ChangedOtherOk(d.rqs, Get(d, !rq.write), !rq.write, r, rq);
  }

  lemma UnsortedSideOk(rqs: map<nat, Rq>, side: Side, write: bool, r: nat, rq: Rq)
    requires SideOk(rqs, side, write, {}, {}) && r in side.sort && rqs[r].write == write && rq.write == write
    ensures SideOk(rqs[r := rq], side.(sort := Remove(side.sort, r)), write, {r}, {})
  {
    SortedRemoves(rqs, side.sort, r);
    SortedElsewhere(rqs, Remove(side.sort, r), r, rq);
  }

  lemma ChangedOtherOk(rqs: map<nat, Rq>, side: Side, write: bool, r: nat, rq: Rq)
    requires SideOk(rqs, side, write, {}, {}) && r in rqs && rqs[r].write != write && rq.write != write
    ensures SideOk(rqs[r := rq], side, write, {r}, {}) && SideOk(rqs[r := rq], side, write, {}, {})
  {
  }

  /** deadline_merged_request after a front merge: r moves to its new place. */
  lemma FrontMergedKeeps(d: Data, r: nat, rq: Rq)
    requires Ok(d, {}, {}) && r in d.rqs && rq.write == d.rqs[r].write
    ensures Listed(Unsorted(d, r, rq)) && Ok(AddedRb(Unsorted(d, r, rq), r), {}, {})
  {
    UnsortedKeeps(d, r, rq);
    OkIsListed(Unsorted(d, r, rq), {r}, {});
    AddedRbKeeps(Unsorted(d, r, rq), r, {});
  }

  /** The request keeps its place in the sort order when it grows at its end. */
  lemma GrownSideOk(rqs: map<nat, Rq>, side: Side, write: bool, r: nat, rq: Rq)
    requires SideOk(rqs, side, write, {}, {}) && r in rqs && rq.write == rqs[r].write && rq.sector == rqs[r].sector
    ensures SideOk(rqs[r := rq], side, write, {}, {})
  {
  }

  lemma RefiledSideOk(rqs: map<nat, Rq>, side: Side, write: bool, fifo: seq<nat>)
    requires SideOk(rqs, side, write, {}, {}) && NoDup(fifo) && forall x :: x in fifo <==> x in side.fifo
    ensures SideOk(rqs, side.(fifo := fifo), write, {}, {})
  {
  }

  lemma MergedSideKeeps(rqs: map<nat, Rq>, side: Side, write: bool, r: nat, next: nat, rq: Rq, urgent: bool)
    requires SideOk(rqs, side, write, {}, {}) && r in rqs && next in rqs && r != next
    requires rqs[r].write == rqs[next].write == rq.write == write && rq.sector == rqs[r].sector
    ensures next in MergedFifo(side.fifo, r, next, urgent)
    ensures SideOk(rqs[r := rq] - {next},
      Side(Remove(side.sort, next), Remove(MergedFifo(side.fifo, r, next, urgent), next),
        if side.next == Some(next) then Latter(side.sort, next) else side.next), write, {}, {})
  {
    var fifo := MergedFifo(side.fifo, r, next, urgent);
    GrownSideOk(rqs, side, write, r, rq);
    MergedFifoKeeps(side.fifo, r, next, urgent);
    RefiledSideOk(rqs[r := rq], side, write, fifo);
    LatterIsOther(rqs[r := rq], side.sort, next);
    var nx := if side.next == Some(next) then Latter(side.sort, next) else side.next;
    SideKeeps(rqs[r := rq], side.(fifo := fifo), write, {}, {}, next, nx);
  }

  lemma MergedRequestsKeeps(d: Data, r: nat, next: nat, rq: Rq)
    requires Ok(d, {}, {}) && r in d.rqs && next in d.rqs && r != next
    requires d.rqs[r].write == d.rqs[next].write == rq.write && rq.sector == d.rqs[r].sector
    ensures Ok(MergedRequests(d, r, next, rq), {}, {})
  {
    var w := rq.write;
    var urgent := d.rqs[next].stamp < d.rqs[r].stamp;
    var rq' := Hurried(d, r, next, rq);
    MergedSideKeeps(d.rqs, Get(d, w), w, r, next, rq', urgent);
    GrownSideOk(d.rqs, Get(d, !w), !w, r, rq');
    OtherSideKeeps(d.rqs[r := rq'], Get(d, !w), !w, {}, {}, next);
  }

  /** A join moves the next request only if that is the one taken out, and then to the nearest queued above it. */
  lemma JoinedNext(d: Data, r: nat, next: nat, rq: Rq, x: nat)
    requires Ok(d, {}, {}) && r in d.rqs && next in d.rqs && r != next && x in d.rqs && d.rqs[x].write == rq.write
    requires d.rqs[r].write == d.rqs[next].write == rq.write
    ensures var e := MergedRequests(d, r, next, rq); var nx, was := Get(e, rq.write).next, Get(d, rq.write).next;
      && Get(e, !rq.write) == Get(d, !rq.write) && (was != Some(next) ==> nx == was)
      && (was == Some(next) && nx.Some? ==> nx.value in d.rqs && d.rqs[nx.value].sector > d.rqs[next].sector)
      && (was == Some(next) && d.rqs[next].sector < d.rqs[x].sector ==>
            nx.Some? && d.rqs[nx.value].sector <= d.rqs[x].sector)
  {
    var side := Get(d, rq.write);
    assert SideOk(d.rqs, side, rq.write, {}, {});
    if d.rqs[next].sector < d.rqs[x].sector {
      LatterIsNearest(d.rqs, side.sort, next, x);
    }
  }

  lemma ChoiceExists(d: Data, t: Tunables, now: nat)
    requires Ok(d, {}, {})
    ensures Choice(d, t, now).None? <==> d.rqs == map[]
    ensures Choice(d, t, now).Some? ==> Choice(d, t, now).value in d.rqs
  {
  }

  lemma CountedKeeps(d: Data, t: Tunables)
    requires Ok(d, {}, {})
    ensures Ok(Counted(d, t), {}, {}) && Counted(d, t).rqs == d.rqs && Counted(d, t).out == d.out
  {
  }

  lemma MovedTakes(d: Data, r: nat)
    requires r in d.rqs && r in Get(d, d.rqs[r].write).sort && r in Get(d, d.rqs[r].write).fifo
    ensures Moved(d, r).rqs == d.rqs - {r} && Moved(d, r).out == d.out + [r]
    ensures Moved(d, r).lastSector == d.rqs[r].sector + d.rqs[r].sectors
  {
  }

  /** A dispatch moves one request, and some request whenever any is queued. */
  lemma DispatchedKeeps(d: Data, t: Tunables, now: nat)
    requires Ok(d, {}, {})
    ensures var d', c := Dispatched(d, t, now), Choice(d, t, now);
      && Ok(d', {}, {}) && (c.None? <==> d.rqs == map[]) && (c.None? ==> d' == d)
      && (c.Some? ==> c.value in d.rqs && d'.out == d.out + [c.value] && d'.rqs == d.rqs - {c.value})
  {
    ChoiceExists(d, t, now);
    CountedKeeps(d, t);
    var c := Choice(d, t, now);
    if c.Some? {
      MovedKeeps(Counted(d, t), c.value, {}, {});
      MovedTakes(Counted(d, t), c.value);
    }
  }

  /**
   Which request a dispatch takes: with a batch going on, the next one of its direction, which is the nearest
   above the last; otherwise the oldest of the chosen direction if it has expired.
   */
  lemma ExpiredGoesFirst(d: Data, t: Tunables, now: nat)
    requires Ok(d, {}, {}) && d.rqs != map[] && !(Batch(d).Some? && d.batching < t.fifoBatch)
    ensures var side := Get(d, ChoosesWrites(d, t));
      && Choice(d, t, now).Some? && side.fifo != []
      && (d.rqs[side.fifo[0]].stamp < now ==> Choice(d, t, now).value == side.fifo[0])
      && (d.rqs[side.fifo[0]].stamp >= now && side.next.Some? ==> Choice(d, t, now) == side.next)
      && (Choice(d, t, now).value != side.fifo[0] ==> side.next == Choice(d, t, now))
  {
  }

  /** After a request has moved, the next one of its direction is the nearest queued above it. */
  lemma BatchGoesUpward(d: Data, r: nat, x: nat)
    requires Ok(d, {}, {}) && r in d.rqs && x in d.rqs && d.rqs[x].write == d.rqs[r].write
    requires d.rqs[r].sector < d.rqs[x].sector
    ensures var next := Get(Moved(d, r), d.rqs[r].write).next;
      next.Some? && next.value in d.rqs && d.rqs[r].sector < d.rqs[next.value].sector <= d.rqs[x].sector
    ensures Get(Moved(d, r), !d.rqs[r].write).next == None
  {
    var side := Get(d, d.rqs[r].write);
    assert SideOk(d.rqs, side, d.rqs[r].write, {}, {});
    LatterIsNearest(d.rqs, side.sort, r, x);
  }

  /** With a batch going on in one direction, its next request is chosen. */
  lemma NextIsChosen(d: Data, t: Tunables, now: nat, write: bool)
    requires Ok(d, {}, {}) && Get(d, write).next.Some? && Get(d, !write).next.None? && d.batching < t.fifoBatch
    ensures Choice(d, t, now) == Get(d, write).next
  {
  }

  /**
   A batch that is not full goes on: the dispatch after that of r takes the nearest queued above r in r's direction,
   whatever the time and however long reads or writes have waited.
   */
  lemma BatchGoesOn(d: Data, t: Tunables, now: nat, later: nat, x: nat)
    requires Ok(d, {}, {}) && Choice(d, t, now).Some? && Counted(d, t).batching < t.fifoBatch && x in d.rqs
    requires var r := Choice(d, t, now).value;
      r in d.rqs && d.rqs[x].write == d.rqs[r].write && d.rqs[r].sector < d.rqs[x].sector
    ensures var d', r := Dispatched(d, t, now), d.rqs[Choice(d, t, now).value];
      && Ok(d', {}, {}) && Choice(d', t, later).Some? && Choice(d', t, later).value in d.rqs
      && var y := d.rqs[Choice(d', t, later).value];
      && y.write == r.write && r.sector < y.sector <= d.rqs[x].sector
  {
    var c, r := Counted(d, t), Choice(d, t, now).value;
    CountedKeeps(d, t);
    BatchGoesUpward(c, r, x);
    assert Ok(Moved(c, r), {}, {}) && Moved(c, r).batching == c.batching by {
      MovedKeeps(c, r, {}, {});
      MovedTakes(c, r);
    }
    NextIsChosen(Moved(c, r), t, later, c.rqs[r].write);
  }
}
