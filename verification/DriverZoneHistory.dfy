/** Who is in a cell's live set, read off the ping history alone. */
module DriverZoneHistory {
  import opened Options
  import opened DriverZoneIndex

  /** A cell's latest ping. */
  function LastIn(log: seq<Ping>, cell: string): Option<Ping> {
    if log == [] then None
    else if log[|log| - 1].cell == cell then Some(log[|log| - 1])
    else LastIn(log[..|log| - 1], cell)
  }

  /** If ping j is in the cell, the cell's set had not expired when it came. */
  predicate AliveAt(log: seq<Ping>, ttl: nat, cell: string, j: nat)
    requires j < |log|
  {
    log[j].cell == cell ==>
      LastIn(log[..j], cell).Some? && log[j].time < LastIn(log[..j], cell).value.time + ttl
  }

  /** Ping j takes its driver out of the cell: a live key still named that cell. */
  predicate RemovedAt(log: seq<Ping>, ttl: nat, driver: string, cell: string, j: nat)
    requires j < |log|
  {
    && log[j].driver == driver && log[j].cell != cell
    && LastPing(log[..j], driver).Some?
    && LastPing(log[..j], driver).value.cell == cell
    && log[j].time < LastPing(log[..j], driver).value.time + ttl
  }

  /** No ping after the i-th found the cell's set expired. */
  ghost predicate KeptAlive(log: seq<Ping>, ttl: nat, cell: string, i: nat) {
    forall j | i < j < |log| :: AliveAt(log, ttl, cell, j)
  }

  ghost predicate NeverRemoved(log: seq<Ping>, ttl: nat, driver: string, cell: string, i: nat) {
    forall j | i < j < |log| :: !RemovedAt(log, ttl, driver, cell, j)
  }

  /** Ping i put the driver in; no later ping found the set expired, and none removed the driver. */
  ghost predicate ListedSince(log: seq<Ping>, ttl: nat, driver: string, cell: string, i: nat) {
    && i < |log| && log[i].driver == driver && log[i].cell == cell
    && KeptAlive(log, ttl, cell, i) && NeverRemoved(log, ttl, driver, cell, i)
  }

  ghost predicate StillListed(log: seq<Ping>, ttl: nat, driver: string, cell: string) {
    exists i: nat :: ListedSince(log, ttl, driver, cell, i)
  }

  // ---- One more ping ----

  /** What happened at a ping does not depend on later ones. */
  lemma PrefixSees(log: seq<Ping>, n: nat, ttl: nat, driver: string, cell: string, j: nat)
    requires j < n <= |log|
    ensures log[..n][j] == log[j]
    ensures AliveAt(log[..n], ttl, cell, j) == AliveAt(log, ttl, cell, j)
    ensures RemovedAt(log[..n], ttl, driver, cell, j) == RemovedAt(log, ttl, driver, cell, j)
  {
    assert log[..n][..j] == log[..j];
  }

  lemma KeptAliveSnoc(log: seq<Ping>, ttl: nat, cell: string, i: nat)
    requires log != [] && i < |log| - 1
    ensures var n := |log| - 1;
            KeptAlive(log, ttl, cell, i)
            <==> KeptAlive(log[..n], ttl, cell, i) && AliveAt(log, ttl, cell, n)
  {
    var n := |log| - 1;
    var front := log[..n];
    forall j: nat | j < n ensures AliveAt(front, ttl, cell, j) == AliveAt(log, ttl, cell, j) {
      PrefixSees(log, n, ttl, "", cell, j);
    }
    if KeptAlive(front, ttl, cell, i) && AliveAt(log, ttl, cell, n) {
      forall j | i < j < |log| ensures AliveAt(log, ttl, cell, j) {
        assert j < n ==> AliveAt(front, ttl, cell, j);
      }
    }
  }

  lemma NeverRemovedSnoc(log: seq<Ping>, ttl: nat, driver: string, cell: string, i: nat)
    requires log != [] && i < |log| - 1
    ensures var n := |log| - 1;
            NeverRemoved(log, ttl, driver, cell, i)
            <==> NeverRemoved(log[..n], ttl, driver, cell, i) && !RemovedAt(log, ttl, driver, cell, n)
  {
    var n := |log| - 1;
    var front := log[..n];
    forall j: nat | j < n
      ensures RemovedAt(front, ttl, driver, cell, j) == RemovedAt(log, ttl, driver, cell, j)
    {
      PrefixSees(log, n, ttl, driver, cell, j);
    }
    if NeverRemoved(front, ttl, driver, cell, i) && !RemovedAt(log, ttl, driver, cell, n) {
      forall j | i < j < |log| ensures !RemovedAt(log, ttl, driver, cell, j) {
        assert j < n ==> !RemovedAt(front, ttl, driver, cell, j);
      }
    }
  }

  lemma ListedSinceSnoc(log: seq<Ping>, ttl: nat, driver: string, cell: string, i: nat)
    requires log != [] && i < |log| - 1
    ensures var n := |log| - 1;
            ListedSince(log, ttl, driver, cell, i)
            <==> && ListedSince(log[..n], ttl, driver, cell, i)
                 && AliveAt(log, ttl, cell, n)
                 && !RemovedAt(log, ttl, driver, cell, n)
  {
    KeptAliveSnoc(log, ttl, cell, i);
    NeverRemovedSnoc(log, ttl, driver, cell, i);
  }

  lemma StillListedSnoc(log: seq<Ping>, ttl: nat, driver: string, cell: string)
    requires log != []
    ensures var n := |log| - 1;
            StillListed(log, ttl, driver, cell)
            <==> || (log[n].driver == driver && log[n].cell == cell)
                 || (&& StillListed(log[..n], ttl, driver, cell)
                     && AliveAt(log, ttl, cell, n)
                     && !RemovedAt(log, ttl, driver, cell, n))
  {
    var n := |log| - 1;
    if log[n].driver == driver && log[n].cell == cell {
      assert ListedSince(log, ttl, driver, cell, n);
    }
    if i: nat :| i < n && ListedSince(log[..n], ttl, driver, cell, i) {
      ListedSinceSnoc(log, ttl, driver, cell, i);
    }
    if i: nat :| ListedSince(log, ttl, driver, cell, i) {
      if i < n {
        ListedSinceSnoc(log, ttl, driver, cell, i);
      }
    }
  }

  lemma AddInCell(x: Index, cell: string, driver: string, at: int, ttl: nat, now: int, d: string)
    requires at <= now
    ensures d in Members(Add(x, cell, driver, at, ttl), cell, now)
            <==> now < at + ttl && (d == driver || d in Members(x, cell, at))
  {}

  lemma AddElsewhere(x: Index, cell: string, driver: string, at: int, ttl: nat, now: int, d: string, other: string)
    requires at <= now && other != cell && other != ""
    ensures d in Members(Add(x, cell, driver, at, ttl), other, now)
            <==> d in Members(x, other, now) && !(d == driver && ZoneOf(x, driver, at) == Some(other))
  {
    if ZoneOf(x, driver, at) == Some(other) {
      MembersOnlyShrink(x, at, now, other);
    }
  }

  lemma RemovedMeansNamed(log: seq<Ping>, ttl: nat, driver: string, cell: string)
    requires log != []
    ensures var n := |log| - 1;
            RemovedAt(log, ttl, driver, cell, n)
            <==> log[n].driver == driver && log[n].cell != cell
                 && ZoneOf(IndexAfter(log[..n], ttl), driver, log[n].time) == Some(cell)
  {
    ZoneKeyIsLastPing(log[..|log| - 1], ttl, driver);
  }

  /** A driver is in a cell's live set exactly when some ping put it there, the set never
      expired from then until now, and no later ping removed it. */
  lemma {:induction false} ListedIff(log: seq<Ping>, ttl: nat, driver: string, cell: string, now: int)
    requires InOrder(log) && cell != "" && forall p <- log :: p.time <= now
    ensures driver in Members(IndexAfter(log, ttl), cell, now)
            <==> StillListed(log, ttl, driver, cell)
                 && LastIn(log, cell).Some? && now < LastIn(log, cell).value.time + ttl
  {
    if log == [] {
      assert !StillListed(log, ttl, driver, cell);
    } else {
      var n := |log| - 1;
      var front, p := log[..n], log[n];
      var x := IndexAfter(front, ttl);
      assert p in log;
      StillListedSnoc(log, ttl, driver, cell);
      if p.cell == cell {
        ListedIff(front, ttl, driver, cell, p.time);
        AddInCell(x, p.cell, p.driver, p.time, ttl, now, driver);
      } else {
        ListedIff(front, ttl, driver, cell, now);
        AddElsewhere(x, p.cell, p.driver, p.time, ttl, now, driver, cell);
        RemovedMeansNamed(log, ttl, driver, cell);
      }
    }
  }
}
