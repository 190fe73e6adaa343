/** The Redis index of drivers per zone: a member set per cell and a zone key per driver,
    both expiring. A key is live while the clock is before its expiry. */
module DriverZoneIndex {
  import opened Options

  datatype ZoneSet = ZoneSet(members: set<string>, expiresAt: int)
  datatype ZoneKey = ZoneKey(cell: string, expiresAt: int)
  datatype Index = Index(sets: map<string, ZoneSet>, zoneOf: map<string, ZoneKey>)

  /** `sMembers` at time `now`: an expired set reads as empty. */
  function Members(x: Index, cell: string, now: int): set<string> {
    if cell in x.sets && now < x.sets[cell].expiresAt then x.sets[cell].members else {}
  }

  /** `get driver:zone` at time `now`. */
  function ZoneOf(x: Index, driver: string, now: int): Option<string> {
    if driver in x.zoneOf && now < x.zoneOf[driver].expiresAt then Some(x.zoneOf[driver].cell) else None
  }

  /** `sRem`: an expired set has nothing to remove, and a set left empty disappears. */
  function Remove(x: Index, cell: string, driver: string, now: int): Index {
    if Members(x, cell, now) - {driver} == {} then x.(sets := x.sets - {cell})
    else x.(sets := x.sets[cell := x.sets[cell].(members := x.sets[cell].members - {driver})])
  }

  /** `addDriverToZone`. */
  function Add(x: Index, cell: string, driver: string, now: int, ttl: nat): Index {
    var previous := ZoneOf(x, driver, now);
    var y := if previous.Some? && previous.value != "" && previous.value != cell
             then Remove(x, previous.value, driver, now) else x;
    Index(y.sets[cell := ZoneSet(Members(y, cell, now) + {driver}, now + ttl)],
          y.zoneOf[driver := ZoneKey(cell, now + ttl)])
  }

  // ---- Histories ----

  datatype Ping = Ping(driver: string, cell: string, time: int)

  function IndexAfter(log: seq<Ping>, ttl: nat): Index {
    if log == [] then Index(map[], map[])
    else
      var p := log[|log| - 1];
      Add(IndexAfter(log[..|log| - 1], ttl), p.cell, p.driver, p.time, ttl)
  }

  /** A driver's latest ping. */
  function LastPing(log: seq<Ping>, driver: string): (r: Option<Ping>)
    ensures r.Some? ==> r.value.driver == driver && r.value in log
  {
    if log == [] then None
    else if log[|log| - 1].driver == driver then Some(log[|log| - 1])
    else LastPing(log[..|log| - 1], driver)
  }

  predicate InOrder(log: seq<Ping>) {
    && (forall i, j | 0 <= i < j < |log| :: log[i].time <= log[j].time)
    && (forall i | 0 <= i < |log| :: log[i].cell != "")
  }

  lemma {:induction false} ZoneKeyIsLastPing(log: seq<Ping>, ttl: nat, driver: string)
    ensures var x := IndexAfter(log, ttl);
            match LastPing(log, driver)
            case None => driver !in x.zoneOf
            case Some(p) => driver in x.zoneOf && x.zoneOf[driver] == ZoneKey(p.cell, p.time + ttl)
  {
    if log != [] {
      ZoneKeyIsLastPing(log[..|log| - 1], ttl, driver);
    }
  }

  /** Every zone key that outlives `now` has its driver in a set that lives as long. */
  ghost predicate Covered(x: Index, now: int) {
    forall d | d in x.zoneOf && now < x.zoneOf[d].expiresAt ::
      var c := x.zoneOf[d].cell;
      c in x.sets && d in x.sets[c].members && x.zoneOf[d].expiresAt <= x.sets[c].expiresAt
  }

  lemma RemoveCovers(x: Index, cell: string, driver: string, now: int, d: string)
    requires Covered(x, now) && d != driver && d in x.zoneOf && now < x.zoneOf[d].expiresAt
    ensures var y := Remove(x, cell, driver, now); var c := x.zoneOf[d].cell;
            && y.zoneOf == x.zoneOf && c in y.sets && d in y.sets[c].members
            && x.zoneOf[d].expiresAt <= y.sets[c].expiresAt
  {
    if x.zoneOf[d].cell == cell {
      assert d in Members(x, cell, now) - {driver};
    }
  }

  lemma AddCovers(x: Index, cell: string, driver: string, before: int, now: int, ttl: nat)
    requires before <= now && Covered(x, before)
    requires forall d | d in x.zoneOf :: x.zoneOf[d].expiresAt <= now + ttl
    ensures Covered(Add(x, cell, driver, now, ttl), now)
    ensures forall d | d in Add(x, cell, driver, now, ttl).zoneOf ::
              Add(x, cell, driver, now, ttl).zoneOf[d].expiresAt <= now + ttl
  {
    var y := Add(x, cell, driver, now, ttl);
    assert Covered(x, now);
    var previous := ZoneOf(x, driver, now);
    forall d | d in y.zoneOf && now < y.zoneOf[d].expiresAt
      ensures var c := y.zoneOf[d].cell;
              c in y.sets && d in y.sets[c].members && y.zoneOf[d].expiresAt <= y.sets[c].expiresAt
    {
      if d != driver && previous.Some? {
        RemoveCovers(x, previous.value, driver, now, d);
      }
    }
  }

  lemma {:induction false} EveryHistoryCovers(log: seq<Ping>, ttl: nat)
    requires InOrder(log)
    ensures log != [] ==> Covered(IndexAfter(log, ttl), log[|log| - 1].time)
    ensures log != [] ==> forall d | d in IndexAfter(log, ttl).zoneOf ::
                            IndexAfter(log, ttl).zoneOf[d].expiresAt <= log[|log| - 1].time + ttl
    ensures log == [] ==> IndexAfter(log, ttl) == Index(map[], map[])
  {
    if log != [] {
      var front, p := log[..|log| - 1], log[|log| - 1];
      EveryHistoryCovers(front, ttl);
      if front == [] {
        AddCovers(Index(map[], map[]), p.cell, p.driver, p.time, p.time, ttl);
      } else {
        AddCovers(IndexAfter(front, ttl), p.cell, p.driver, front[|front| - 1].time, p.time, ttl);
      }
    }
  }

  /** A recently seen driver is never missed: whoever pinged last from a cell less than the
      TTL ago is in that cell's live set. */
  lemma {:induction false} RecentDriverIsListed(log: seq<Ping>, ttl: nat, driver: string, now: int)
    requires InOrder(log) && LastPing(log, driver).Some?
    requires forall p <- log :: p.time <= now
    requires now < LastPing(log, driver).value.time + ttl
    ensures driver in Members(IndexAfter(log, ttl), LastPing(log, driver).value.cell, now)
  {
    ZoneKeyIsLastPing(log, ttl, driver);
    EveryHistoryCovers(log, ttl);
    assert log[|log| - 1] in log;
  }

  // ---- Stale members ----

  /** A ping leaves its driver listed in another cell exactly when the cell listed it and
      the driver's live zone key did not name that cell - a lapsed key, above all. */
  lemma StaleMembership(x: Index, cell: string, driver: string, now: int, ttl: nat, other: string)
    requires other != cell && other != ""
    ensures driver in Members(Add(x, cell, driver, now, ttl), other, now)
            <==> driver in Members(x, other, now) && ZoneOf(x, driver, now) != Some(other)
  {}

  /** A driver whose key lapsed while a second driver kept the old set alive is in two
      live sets at once. */
  lemma LapsedDriverIsListedTwice(ttl: nat)
    requires ttl >= 2
    ensures var log := [Ping("a", "old", 0), Ping("b", "old", ttl - 1), Ping("a", "new", ttl)];
            && InOrder(log)
            && "a" in Members(IndexAfter(log, ttl), "old", ttl)
            && "a" in Members(IndexAfter(log, ttl), "new", ttl)
  {
    var p1, p2, p3 := Ping("a", "old", 0), Ping("b", "old", ttl - 1), Ping("a", "new", ttl);
    assert [p1, p2, p3][..2] == [p1, p2] && [p1, p2][..1] == [p1] && [p1][..0] == [];
    var x1 := IndexAfter([p1], ttl);
    assert x1 == Add(IndexAfter([], ttl), "old", "a", 0, ttl);
    assert Members(x1, "old", ttl - 1) == {"a"};
    var x2 := IndexAfter([p1, p2], ttl);
    assert x2 == Add(x1, "old", "b", ttl - 1, ttl);
    assert "a" in Members(x2, "old", ttl);
    assert ZoneOf(x2, "a", ttl) == None;
    StaleMembership(x2, "new", "a", ttl, ttl, "old");
  }

  // ---- Without lapses the sets are exact ----

  /** At every moment up to `now` every driver seen so far has a live key. */
  ghost predicate NoLapse(log: seq<Ping>, ttl: nat, now: int) {
    && (forall p <- log :: ZoneOf(IndexAfter(log, ttl), p.driver, now).Some?)
    && (log != [] ==> log[|log| - 1].time <= now
                      && NoLapse(log[..|log| - 1], ttl, log[|log| - 1].time))
  }

  ghost predicate Exact(x: Index, now: int) {
    && (forall d | d in x.zoneOf :: x.zoneOf[d].cell != "" && ZoneOf(x, d, now).Some?)
    && (forall d, c :: d in Members(x, c, now) <==> d in x.zoneOf && x.zoneOf[d].cell == c)
  }

  lemma AddKeepsExact(x: Index, cell: string, driver: string, now: int, ttl: nat)
    requires Exact(x, now) && cell != "" && ttl > 0
    ensures forall d, c :: d in Members(Add(x, cell, driver, now, ttl), c, now)
                           <==> d in Add(x, cell, driver, now, ttl).zoneOf
                                && Add(x, cell, driver, now, ttl).zoneOf[d].cell == c
  {
    var y := Add(x, cell, driver, now, ttl);
    forall d, c ensures d in Members(y, c, now) <==> d in y.zoneOf && y.zoneOf[d].cell == c {
      assert d in Members(x, c, now) <==> d in x.zoneOf && x.zoneOf[d].cell == c;
      assert driver in Members(x, c, now) <==> driver in x.zoneOf && x.zoneOf[driver].cell == c;
    }
  }

  lemma {:induction false} MembersOnlyShrink(x: Index, now: int, later: int, c: string)
    requires now <= later
    ensures Members(x, c, later) <= Members(x, c, now)
  {}

  lemma {:induction false} SeenDriversHaveKeys(log: seq<Ping>, ttl: nat, d: string)
    ensures d in IndexAfter(log, ttl).zoneOf <==> exists p <- log :: p.driver == d
  {
    if log != [] {
      var front, p := log[..|log| - 1], log[|log| - 1];
      SeenDriversHaveKeys(front, ttl, d);
      assert log == front + [p];
    }
  }

  /** As long as no driver's key lapses, a cell's live set is exactly the drivers whose
      last ping was in that cell. */
  lemma {:induction false} SetsAreExactWithoutLapse(log: seq<Ping>, ttl: nat, now: int)
    requires InOrder(log) && NoLapse(log, ttl, now)
    ensures Exact(IndexAfter(log, ttl), now)
    ensures forall d, c :: d in Members(IndexAfter(log, ttl), c, now)
                           <==> LastPing(log, d).Some? && LastPing(log, d).value.cell == c
  {
    var x := IndexAfter(log, ttl);
    if log != [] {
      var front, p := log[..|log| - 1], log[|log| - 1];
      SetsAreExactWithoutLapse(front, ttl, p.time);
      assert p in log;
      ZoneKeyIsLastPing(log, ttl, p.driver);
      AddKeepsExact(IndexAfter(front, ttl), p.cell, p.driver, p.time, ttl);
      EveryHistoryCovers(log, ttl);
      forall d | d in x.zoneOf ensures x.zoneOf[d].cell != "" && ZoneOf(x, d, now).Some? {
        SeenDriversHaveKeys(log, ttl, d);
        ZoneKeyIsLastPing(log, ttl, d);
      }
      forall d, c ensures d in Members(x, c, now) <==> d in x.zoneOf && x.zoneOf[d].cell == c {
        MembersOnlyShrink(x, p.time, now, c);
      }
    }
    forall d, c ensures d in Members(x, c, now) <==> LastPing(log, d).Some? && LastPing(log, d).value.cell == c {
      ZoneKeyIsLastPing(log, ttl, d);
    }
  }

  class RedisStateService {
    const zoneDriverTtl: nat
    var sets: map<string, ZoneSet>
    var zoneOf: map<string, ZoneKey>

    function Contents(): Index
      reads this
    {
      Index(sets, zoneOf)
    }

    constructor (zoneDriverTtl: nat)
      ensures this.zoneDriverTtl == zoneDriverTtl && Contents() == Index(map[], map[])
    {
      this.zoneDriverTtl := zoneDriverTtl;
      sets, zoneOf := map[], map[];
    }

    method AddDriverToZone(cell: string, driver: string, now: int)
      modifies this
      ensures Contents() == Add(old(Contents()), cell, driver, now, zoneDriverTtl)
    {
      var previous := ZoneOf(Contents(), driver, now);
      if previous.Some? && previous.value != "" && previous.value != cell {
        var kept := Members(Contents(), previous.value, now) - {driver};
        sets := if kept == {} then sets - {previous.value}
                else sets[previous.value := sets[previous.value].(members := kept)];
      }
      sets := sets[cell := ZoneSet(Members(Contents(), cell, now) + {driver}, now + zoneDriverTtl)];
      zoneOf := zoneOf[driver := ZoneKey(cell, now + zoneDriverTtl)];
    }

    method GetZoneDrivers(cell: string, now: int) returns (drivers: set<string>)
      ensures drivers == Members(Contents(), cell, now)
    {
      drivers := if cell in sets && now < sets[cell].expiresAt then sets[cell].members else {};
    }
  }
}
