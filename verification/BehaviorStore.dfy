/** The fraud behaviour store: the active users of a cell over the last hour, the users
    seen on a device, and a capped GPS history, each as a view of its full log. */
module BehaviorStore {

  datatype Seen = Seen(user: string, timestamp: int)

  const WINDOW_SECONDS: int := 3600
  const DEVICE_SHARE_LIMIT: nat := 3
  const GPS_HISTORY_CAP: nat := 500

  // ---- Active users of a cell ----

  function Fresh(es: seq<Seen>, ts: int): seq<Seen> {
    if es == [] then []
    else (if ts - es[0].timestamp < WINDOW_SECONDS then [es[0]] else []) + Fresh(es[1..], ts)
  }

  function Without(es: seq<Seen>, user: string): seq<Seen> {
    if es == [] then [] else (if es[0].user != user then [es[0]] else []) + Without(es[1..], user)
  }

  /** `record_h3_active_user` on the stored list: prune, drop the user, append. */
  function Record(es: seq<Seen>, user: string, ts: int): seq<Seen> {
    Without(Fresh(es, ts), user) + [Seen(user, ts)]
  }

  function StoredAfter(log: seq<Seen>): seq<Seen> {
    if log == [] then []
    else Record(StoredAfter(log[..|log| - 1]), log[|log| - 1].user, log[|log| - 1].timestamp)
  }

  predicate Mentions(log: seq<Seen>, user: string) {
    exists i | 0 <= i < |log| :: log[i].user == user
  }

  /** Each user's latest sighting, in log order: those not followed by one of the same user. */
  function Latest(log: seq<Seen>): seq<Seen> {
    if log == [] then []
    else (if Mentions(log[1..], log[0].user) then [] else [log[0]]) + Latest(log[1..])
  }

  predicate InOrder(log: seq<Seen>) {
    forall i, j | 0 <= i < j < |log| :: log[i].timestamp <= log[j].timestamp
  }

  lemma {:induction false} WithoutConcat(a: seq<Seen>, b: seq<Seen>, user: string)
    ensures Without(a + b, user) == Without(a, user) + Without(b, user)
  {
    if a == [] {
      assert a + b == b;
    } else {
      assert (a + b)[1..] == a[1..] + b;
      WithoutConcat(a[1..], b, user);
    }
  }

  lemma {:induction false} FreshConcat(a: seq<Seen>, b: seq<Seen>, ts: int)
    ensures Fresh(a + b, ts) == Fresh(a, ts) + Fresh(b, ts)
  {
    if a == [] {
      assert a + b == b;
    } else {
      assert (a + b)[1..] == a[1..] + b;
      FreshConcat(a[1..], b, ts);
    }
  }

  lemma MentionsSnoc(log: seq<Seen>, p: Seen, user: string)
    ensures Mentions(log + [p], user) <==> Mentions(log, user) || p.user == user
  {
    if Mentions(log, user) {
      var i :| 0 <= i < |log| && log[i].user == user;
      assert (log + [p])[i].user == user;
    }
    assert (log + [p])[|log|] == p;
  }

  lemma WithoutOne(e: Seen, user: string)
    ensures Without([e], user) == if e.user != user then [e] else []
  {
    assert [e][1..] == [];
  }

  /** A new sighting replaces the user's earlier one at the end. */
  lemma {:induction false} LatestSnoc(log: seq<Seen>, p: Seen)
    ensures Latest(log + [p]) == Without(Latest(log), p.user) + [p]
  {
    if log == [] {
      assert log + [p] == [p] && [p][1..] == [];
    } else {
      assert (log + [p])[1..] == log[1..] + [p];
      LatestSnoc(log[1..], p);
      MentionsSnoc(log[1..], p, log[0].user);
      var head := if Mentions(log[1..], log[0].user) then [] else [log[0]];
      WithoutConcat(head, Latest(log[1..]), p.user);
      WithoutOne(log[0], p.user);
      assert Latest(log + [p]) == Without(head, p.user) + Latest(log[1..] + [p]);
    }
  }

  lemma {:induction false} FreshTwice(es: seq<Seen>, t1: int, t2: int)
    requires t1 <= t2
    ensures Fresh(Fresh(es, t1), t2) == Fresh(es, t2)
  {
    if es != [] {
      FreshTwice(es[1..], t1, t2);
      var head := if t1 - es[0].timestamp < WINDOW_SECONDS then [es[0]] else [];
      FreshConcat(head, Fresh(es[1..], t1), t2);
      assert [es[0]][1..] == [];
    }
  }

  lemma {:induction false} FreshWithout(es: seq<Seen>, user: string, ts: int)
    ensures Without(Fresh(es, ts), user) == Fresh(Without(es, user), ts)
  {
    if es != [] {
      FreshWithout(es[1..], user, ts);
      var recent := if ts - es[0].timestamp < WINDOW_SECONDS then [es[0]] else [];
      WithoutConcat(recent, Fresh(es[1..], ts), user);
      var other := if es[0].user != user then [es[0]] else [];
      FreshConcat(other, Without(es[1..], user), ts);
      assert [es[0]][1..] == [];
    }
  }

  /** The stored list is exactly the fresh part of every user's latest sighting. */
  lemma {:induction false} StoredIsFreshLatest(log: seq<Seen>)
    requires InOrder(log)
    ensures log != [] ==> StoredAfter(log) == Fresh(Latest(log), log[|log| - 1].timestamp)
  {
    if log != [] {
      var front, p := log[..|log| - 1], log[|log| - 1];
      assert log == front + [p];
      StoredIsFreshLatest(front);
      LatestSnoc(front, p);
      FreshConcat(Without(Latest(front), p.user), [p], p.timestamp);
      assert [p][1..] == [];
      FreshWithout(Latest(front), p.user, p.timestamp);
      if front != [] {
        FreshTwice(Latest(front), front[|front| - 1].timestamp, p.timestamp);
      }
    }
  }

  predicate IsLatest(log: seq<Seen>, e: Seen) {
    exists i | 0 <= i < |log| :: log[i] == e && !Mentions(log[i + 1..], e.user)
  }

  lemma {:induction false} LatestMembers(log: seq<Seen>, e: Seen)
    ensures e in Latest(log) <==> IsLatest(log, e)
  {
    if log != [] {
      LatestMembers(log[1..], e);
      if IsLatest(log[1..], e) {
        var i :| 0 <= i < |log| - 1 && log[1..][i] == e && !Mentions(log[1..][i + 1..], e.user);
        assert log[i + 1] == e && log[i + 1 + 1..] == log[1..][i + 1..];
      }
      if IsLatest(log, e) {
        var i :| 0 <= i < |log| && log[i] == e && !Mentions(log[i + 1..], e.user);
        if i > 0 {
          assert log[1..][i - 1] == e && log[1..][i - 1 + 1..] == log[i + 1..];
        }
      }
    }
  }

  lemma {:induction false} FreshMembers(es: seq<Seen>, ts: int, e: Seen)
    ensures e in Fresh(es, ts) <==> e in es && ts - e.timestamp < WINDOW_SECONDS
  {
    if es != [] {
      FreshMembers(es[1..], ts, e);
    }
  }

  predicate OncePerUserInOrder(es: seq<Seen>) {
    forall i, j | 0 <= i < j < |es| :: es[i].user != es[j].user && es[i].timestamp <= es[j].timestamp
  }

  lemma ConsKeepsOrder(e: Seen, es: seq<Seen>)
    requires OncePerUserInOrder(es)
    requires forall x | x in es :: x.user != e.user && e.timestamp <= x.timestamp
    ensures OncePerUserInOrder([e] + es)
  {}

  lemma {:induction false} LatestHasNoRepeats(log: seq<Seen>)
    requires InOrder(log)
    ensures OncePerUserInOrder(Latest(log))
  {
    if log != [] {
      LatestHasNoRepeats(log[1..]);
      if !Mentions(log[1..], log[0].user) {
        forall x | x in Latest(log[1..]) ensures x.user != log[0].user && log[0].timestamp <= x.timestamp {
          LatestMembers(log[1..], x);
          var i :| 0 <= i < |log[1..]| && log[1..][i] == x;
          assert log[i + 1] == x;
        }
        ConsKeepsOrder(log[0], Latest(log[1..]));
      } else {
        assert Latest(log) == Latest(log[1..]);
      }
    }
  }

  lemma {:induction false} FreshKeepsOrder(es: seq<Seen>, ts: int)
    requires OncePerUserInOrder(es)
    ensures OncePerUserInOrder(Fresh(es, ts))
  {
    if es != [] {
      FreshKeepsOrder(es[1..], ts);
      if ts - es[0].timestamp < WINDOW_SECONDS {
        forall x | x in Fresh(es[1..], ts) ensures x.user != es[0].user && es[0].timestamp <= x.timestamp {
          FreshMembers(es[1..], ts, x);
          var k :| 0 <= k < |es[1..]| && es[1..][k] == x;
          assert es[k + 1] == x;
        }
        ConsKeepsOrder(es[0], Fresh(es[1..], ts));
      } else {
        assert Fresh(es, ts) == Fresh(es[1..], ts);
      }
    }
  }

  /** For nondecreasing timestamps the active users of a cell are exactly those whose latest
      sighting there is under an hour old, each once, ordered by that sighting. */
  lemma {:induction false} ActiveUsersAreExact(log: seq<Seen>, e: Seen)
    requires InOrder(log) && log != []
    ensures var stored := StoredAfter(log); var now := log[|log| - 1].timestamp;
            && (e in stored <==> IsLatest(log, e) && now - e.timestamp < 3600)
            && OncePerUserInOrder(stored)
  {
    StoredIsFreshLatest(log);
    LatestMembers(log, e);
    FreshMembers(Latest(log), log[|log| - 1].timestamp, e);
    LatestHasNoRepeats(log);
    FreshKeepsOrder(Latest(log), log[|log| - 1].timestamp);
  }

  lemma AllActiveUsers(log: seq<Seen>)
    requires InOrder(log) && log != []
    ensures var stored := StoredAfter(log);
            && OncePerUserInOrder(stored)
            && forall e :: e in stored <==> IsLatest(log, e) && log[|log| - 1].timestamp - e.timestamp < 3600
  {
    ActiveUsersAreExact(log, log[|log| - 1]);
    forall e ensures e in StoredAfter(log) <==> IsLatest(log, e) && log[|log| - 1].timestamp - e.timestamp < 3600 {
      ActiveUsersAreExact(log, e);
    }
  }

  // ---- Device sharing ----

  function DeviceUsersAfter(log: seq<string>): seq<string> {
    if log == [] then []
    else
      var users := DeviceUsersAfter(log[..|log| - 1]);
      if log[|log| - 1] in users then users else users + [log[|log| - 1]]
  }

  function UsersIn(log: seq<string>): set<string> {
    set u | u in log
  }

  lemma {:induction false} DeviceUsersAreDistinct(log: seq<string>)
    ensures |DeviceUsersAfter(log)| == |UsersIn(log)|
    ensures UsersIn(DeviceUsersAfter(log)) == UsersIn(log)
  {
    if log != [] {
      var front, u := log[..|log| - 1], log[|log| - 1];
      DeviceUsersAreDistinct(front);
      assert log == front + [u];
      assert UsersIn(log) == UsersIn(front) + {u};
      assert u in DeviceUsersAfter(front) <==> u in UsersIn(DeviceUsersAfter(front));
      assert UsersIn(DeviceUsersAfter(front) + [u]) == UsersIn(DeviceUsersAfter(front)) + {u};
    }
  }

  // ---- The store ----

  function LastOf<T>(s: seq<T>, n: nat): (r: seq<T>)
    ensures |r| == if |s| <= n then |s| else n
    ensures r == s[|s| - |r|..]
  {
    if |s| <= n then s else s[|s| - n..]
  }

  datatype GpsPing = GpsPing(lat: real, lng: real, timestamp: int)

  class Store {
    var activeUsers: seq<Seen>
    var deviceUsers: seq<string>
    var highShare: bool
    var gpsHistory: seq<GpsPing>
    ghost var seenLog: seq<Seen>
    ghost var deviceLog: seq<string>
    ghost var gpsLog: seq<GpsPing>

    ghost predicate Valid()
      reads this
    {
      && activeUsers == StoredAfter(seenLog)
      && deviceUsers == DeviceUsersAfter(deviceLog)
      && highShare == (|UsersIn(deviceLog)| > DEVICE_SHARE_LIMIT)
      && gpsHistory == LastOf(gpsLog, GPS_HISTORY_CAP)
    }

    constructor ()
      ensures Valid() && seenLog == [] && deviceLog == [] && gpsLog == []
    {
      activeUsers, deviceUsers, highShare, gpsHistory := [], [], false, [];
      seenLog, deviceLog, gpsLog := [], [], [];
    }

    /** One cell's list; a burst is more than one user in it. */
    method RecordH3ActiveUser(user: string, ts: int) returns (activeCount: nat, burst: bool)
      requires Valid()
      modifies this
      ensures Valid() && seenLog == old(seenLog) + [Seen(user, ts)]
      ensures deviceLog == old(deviceLog) && gpsLog == old(gpsLog)
      ensures activeCount == |activeUsers| && (burst <==> activeCount > 1)
      ensures InOrder(seenLog) ==>
                && OncePerUserInOrder(activeUsers)
                && forall e :: e in activeUsers <==> IsLatest(seenLog, e) && ts - e.timestamp < 3600
    {
      activeUsers := Without(Fresh(activeUsers, ts), user);
      activeUsers := activeUsers + [Seen(user, ts)];
      assert (seenLog + [Seen(user, ts)])[..|seenLog|] == seenLog;
      seenLog := seenLog + [Seen(user, ts)];
      if InOrder(seenLog) {
        AllActiveUsers(seenLog);
      }
      activeCount := |activeUsers|;
      burst := activeCount > 1;
    }

    /** One device's users; shared when more than three were ever seen on it. */
    method RecordDevice(user: string)
      requires Valid()
      modifies this
      ensures Valid() && deviceLog == old(deviceLog) + [user]
      ensures highShare <==> |UsersIn(deviceLog)| > 3
      ensures seenLog == old(seenLog) && gpsLog == old(gpsLog)
    {
      if user !in deviceUsers {
        deviceUsers := deviceUsers + [user];
      }
      highShare := |deviceUsers| > DEVICE_SHARE_LIMIT;
      assert (deviceLog + [user])[..|deviceLog|] == deviceLog;
      deviceLog := deviceLog + [user];
      DeviceUsersAreDistinct(deviceLog);
    }

    method RecordGpsPing(p: GpsPing)
      requires Valid()
      modifies this
      ensures Valid() && gpsLog == old(gpsLog) + [p]
      ensures |gpsHistory| <= 500 && gpsHistory == gpsLog[|gpsLog| - |gpsHistory|..]
      ensures |gpsLog| >= 500 ==> |gpsHistory| == 500
      ensures |gpsLog| <= 500 ==> gpsHistory == gpsLog
      ensures seenLog == old(seenLog) && deviceLog == old(deviceLog)
    {
      gpsHistory := gpsHistory + [p];
      gpsHistory := LastOf(gpsHistory, GPS_HISTORY_CAP);
      gpsLog := gpsLog + [p];
    }
  }
}
