/** Which disruption event a payout request is booked under: the newest event of its type in
    the last hour, or a new one. Times are in milliseconds. */
module DisruptionEvents {
  import opened Options

  const HOUR_MS := 3600 * 1000

  /** `createdAt` is the clock at the insert, `occurredAt` the start of the request. */
  datatype Event = Event(kind: string, occurredAt: int, createdAt: int)
  datatype Request = Request(kind: string, startedAt: int, lookedUpAt: int)

  predicate Matches(e: Event, kind: string, since: int) {
    e.kind == kind && e.occurredAt >= since
  }

  /** `findFirst` ordered by `occurredAt` descending. */
  function Newest(events: seq<Event>, kind: string, since: int): (r: Option<nat>)
    ensures r.None? ==> forall i | 0 <= i < |events| :: !Matches(events[i], kind, since)
    ensures r.Some? ==> r.value < |events| && Matches(events[r.value], kind, since)
    ensures r.Some? ==> forall i | 0 <= i < |events| && Matches(events[i], kind, since) ::
                          events[i].occurredAt <= events[r.value].occurredAt
  {
    if events == [] then None
    else
      var n := |events| - 1;
      var best := Newest(events[..n], kind, since);
      if Matches(events[n], kind, since) && (best.None? || events[best.value].occurredAt <= events[n].occurredAt)
      then Some(n) else best
  }

  /** The events afterwards and the one the request is booked under. */
  function Locate(events: seq<Event>, r: Request): (t: (seq<Event>, nat))
    ensures t.1 < |t.0| && events <= t.0 && t.0[t.1].kind == r.kind
  {
    var found := Newest(events, r.kind, r.lookedUpAt - HOUR_MS);
    if found.Some? then (events, found.value)
    else (events + [Event(r.kind, r.startedAt, r.lookedUpAt)], |events|)
  }

  /** The newest event of the type in the last hour if there is one, and otherwise a new one
      that occurs when the request started. */
  lemma {:induction false} LocateIsNewestOrNew(events: seq<Event>, r: Request)
    ensures var (t, id) := Locate(events, r); var since := r.lookedUpAt - 3_600_000;
            if exists e <- events :: Matches(e, r.kind, since)
            then t == events && Matches(events[id], r.kind, since)
                 && forall e <- events :: Matches(e, r.kind, since) ==> e.occurredAt <= events[id].occurredAt
            else t == events + [Event(r.kind, r.startedAt, r.lookedUpAt)] && id == |events|
  {
    var since := r.lookedUpAt - HOUR_MS;
    if e :| e in events && Matches(e, r.kind, since) {
      var i :| 0 <= i < |events| && events[i] == e;
      assert Matches(events[i], r.kind, since);
    }
  }

  function EventsAfter(requests: seq<Request>): seq<Event> {
    if requests == [] then []
    else Locate(EventsAfter(requests[..|requests| - 1]), requests[|requests| - 1]).0
  }

  function EventOf(requests: seq<Request>, i: nat): nat
    requires i < |requests|
  {
    Locate(EventsAfter(requests[..i]), requests[i]).1
  }

  /** Requests run one after the other on a clock that never goes back. */
  ghost predicate ClockRuns(requests: seq<Request>) {
    && (forall i | 0 <= i < |requests| :: requests[i].startedAt <= requests[i].lookedUpAt)
    && (forall i, j | 0 <= i < j < |requests| :: requests[i].lookedUpAt <= requests[j].startedAt)
  }

  /** Any two events of one type: the later was created over an hour after the earlier occurred. */
  ghost predicate HourApart(events: seq<Event>) {
    forall i, j | 0 <= i < j < |events| && events[i].kind == events[j].kind ::
      events[j].createdAt - events[i].occurredAt > 3_600_000
  }

  ghost predicate CreatedBy(events: seq<Event>, now: int) {
    forall i | 0 <= i < |events| :: events[i].occurredAt <= events[i].createdAt <= now
  }

  lemma LocateKeepsApart(events: seq<Event>, r: Request)
    requires HourApart(events) && CreatedBy(events, r.startedAt) && r.startedAt <= r.lookedUpAt
    ensures HourApart(Locate(events, r).0) && CreatedBy(Locate(events, r).0, r.lookedUpAt)
  {
    var t := Locate(events, r).0;
    forall i, j | 0 <= i < j < |t| && t[i].kind == t[j].kind
      ensures t[j].createdAt - t[i].occurredAt > HOUR_MS
    {
      if j == |events| {
        assert !Matches(events[i], r.kind, r.lookedUpAt - HOUR_MS);
      }
    }
  }

  /** However requests come in, events of one type lie more than an hour apart. */
  lemma {:induction false} EventsAreHourApart(requests: seq<Request>, now: int)
    requires ClockRuns(requests) && (requests != [] ==> requests[|requests| - 1].lookedUpAt <= now)
    ensures HourApart(EventsAfter(requests)) && CreatedBy(EventsAfter(requests), now)
  {
    if requests != [] {
      var front, last := requests[..|requests| - 1], requests[|requests| - 1];
      EventsAreHourApart(front, last.startedAt);
      LocateKeepsApart(EventsAfter(front), last);
    }
  }

  lemma {:induction false} EventsOnlyGrow(requests: seq<Request>, i: nat)
    requires i <= |requests|
    ensures EventsAfter(requests[..i]) <= EventsAfter(requests)
  {
    if i < |requests| {
      var front := requests[..|requests| - 1];
      assert front[..i] == requests[..i];
      EventsOnlyGrow(front, i);
    } else {
      assert requests[..i] == requests;
    }
  }

  lemma OlderAreStale(events: seq<Event>, now: int)
    requires HourApart(events) && CreatedBy(events, now)
    ensures forall i, j | 0 <= i < j < |events| && events[i].kind == events[j].kind ::
              events[i].occurredAt < now - HOUR_MS
  {
    forall i, j | 0 <= i < j < |events| && events[i].kind == events[j].kind
      ensures events[i].occurredAt < now - HOUR_MS
    {
      assert events[j].createdAt <= now;
    }
  }

  /** The newest recent event is the one already known, while it is recent. */
  lemma RecentIsFound(events: seq<Event>, r: Request, e: nat)
    requires HourApart(events) && CreatedBy(events, r.startedAt) && r.startedAt <= r.lookedUpAt
    requires e < |events| && events[e].kind == r.kind
    ensures Locate(events, r).1 == e <==> r.lookedUpAt - events[e].occurredAt <= HOUR_MS
  {
    var found := Newest(events, r.kind, r.lookedUpAt - HOUR_MS);
    if Matches(events[e], r.kind, r.lookedUpAt - HOUR_MS) {
      assert found.Some?;
      OlderAreStale(events, r.lookedUpAt);
    }
  }

  lemma AfterSnoc(requests: seq<Request>, i: nat)
    requires i < |requests|
    ensures EventsAfter(requests[..i + 1]) == Locate(EventsAfter(requests[..i]), requests[i]).0
  {
    assert requests[..i + 1][..i] == requests[..i];
  }

  /** A request's event keeps its place and its contents. */
  lemma EventStays(requests: seq<Request>, i: nat, j: nat)
    requires i < j <= |requests|
    ensures var e, first := EventOf(requests, i), EventsAfter(requests[..i + 1]);
            var later := EventsAfter(requests[..j]);
            e < |first| && first[e].kind == requests[i].kind && e < |later| && later[e] == first[e]
  {
    AfterSnoc(requests, i);
    assert requests[..j][..i + 1] == requests[..i + 1];
    EventsOnlyGrow(requests[..j], i + 1);
  }

  /** Two requests of one type are booked under the same event exactly when the later looks
      up no more than an hour after that event occurred: the window is fixed by the first
      request, later ones do not extend it. */
  lemma SameEventIffWithinHour(requests: seq<Request>, i: nat, j: nat)
    requires ClockRuns(requests) && i < j < |requests| && requests[i].kind == requests[j].kind
    ensures EventOf(requests, i) < |EventsAfter(requests)|
    ensures EventOf(requests, i) == EventOf(requests, j)
            <==> requests[j].lookedUpAt - EventsAfter(requests)[EventOf(requests, i)].occurredAt <= 3_600_000
  {
    var e := EventOf(requests, i);
    EventStays(requests, i, j);
    EventStays(requests, i, |requests|);
    assert requests[..|requests|] == requests;
    ClockOfPrefix(requests, j);
    EventFoundAgain(requests[..j], requests[j], e);
  }

  lemma ClockOfPrefix(requests: seq<Request>, j: nat)
    requires ClockRuns(requests) && j < |requests|
    ensures ClockRuns(requests[..j] + [requests[j]])
  {
    assert requests[..j] + [requests[j]] == requests[..j + 1];
  }

  lemma EventFoundAgain(before: seq<Request>, r: Request, e: nat)
    requires ClockRuns(before + [r]) && e < |EventsAfter(before)| && EventsAfter(before)[e].kind == r.kind
    ensures Locate(EventsAfter(before), r).1 == e
            <==> r.lookedUpAt - EventsAfter(before)[e].occurredAt <= 3_600_000
  {
    ClockBefore(before, r);
    EventsAreHourApart(before, r.startedAt);
    RecentIsFound(EventsAfter(before), r, e);
  }

  lemma ClockBefore(before: seq<Request>, r: Request)
    requires ClockRuns(before + [r])
    ensures ClockRuns(before) && r.startedAt <= r.lookedUpAt
    ensures before != [] ==> before[|before| - 1].lookedUpAt <= r.startedAt
  {
    var all := before + [r];
    assert forall i | 0 <= i < |before| :: all[i] == before[i];
    assert all[|before|] == r;
  }

  class DisruptionEventTable {
    var events: seq<Event>

    constructor ()
      ensures events == []
    {
      events := [];
    }

    /** The lookup of `processPayout`: one pass for the newest match, then the insert. */
    method FindOrCreate(r: Request) returns (id: nat)
      modifies this
      ensures (events, id) == Locate(old(events), r)
    {
      var since := r.lookedUpAt - HOUR_MS;
      var found: Option<nat> := None;
      for i := 0 to |events|
        invariant found == Newest(events[..i], r.kind, since)
      {
        assert events[..i + 1][..i] == events[..i];
        if Matches(events[i], r.kind, since)
           && (found.None? || events[found.value].occurredAt <= events[i].occurredAt) {
          found := Some(i);
        }
      }
      assert events[..|events|] == events;
      if found.Some? {
        return found.value;
      }
      id := |events|;
      events := events + [Event(r.kind, r.startedAt, r.lookedUpAt)];
    }
  }
}
