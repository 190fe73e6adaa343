/** Zone transitions end to end: the aggregator turns pings into a change log per cell,
    the monitor follows the log and fires auto-claims when a cell enters HALTED. */
module ZoneTransitions {
  import opened Options
  import opened Sequences
  import opened Text

  const NORMAL := "NORMAL"
  const HALTED := "HALTED"
  const UNKNOWN := "UNKNOWN"
  const AQI_LIMIT := 300.0

  // ---- The aggregator ----

  datatype Update = Update(cell: string, oldState: string, newState: string)

  function StateOf(states: map<string, string>, cell: string): string {
    if cell in states then states[cell] else NORMAL
  }

  /** One flush over the snapshot's cells; `ml(cell)` is the pipeline's zone state, or None
      when the pipeline failed and the cell is skipped. */
  function Flush(states: map<string, string>, cells: seq<string>, ml: string -> Option<string>):
    (map<string, string>, seq<Update>)
    decreases |cells|
  {
    if cells == [] then (states, [])
    else
      var c := cells[0];
      if ml(c).None? || ml(c).value == StateOf(states, c) then Flush(states, cells[1..], ml)
      else
        var (later, updates) := Flush(states[c := ml(c).value], cells[1..], ml);
        (later, [Update(c, StateOf(states, c), ml(c).value)] + updates)
  }

  datatype FlushInput = FlushInput(cells: seq<string>, ml: string -> Option<string>)

  function FlushAll(states: map<string, string>, inputs: seq<FlushInput>): (map<string, string>, seq<Update>)
    decreases |inputs|
  {
    if inputs == [] then (states, [])
    else
      var (mid, first) := Flush(states, inputs[0].cells, inputs[0].ml);
      var (end, others) := FlushAll(mid, inputs[1..]);
      (end, first + others)
  }

  function Apply(states: map<string, string>, updates: seq<Update>): map<string, string>
    decreases |updates|
  {
    if updates == [] then states else Apply(states[updates[0].cell := updates[0].newState], updates[1..])
  }

  /** Each update starts where its cell stood and really changes it. */
  predicate Chained(states: map<string, string>, updates: seq<Update>)
    decreases |updates|
  {
    updates == [] ||
    (&& updates[0].oldState == StateOf(states, updates[0].cell)
     && updates[0].newState != updates[0].oldState
     && Chained(states[updates[0].cell := updates[0].newState], updates[1..]))
  }

  lemma {:induction false} ChainedConcat(states: map<string, string>, a: seq<Update>, b: seq<Update>)
    requires Chained(states, a) && Chained(Apply(states, a), b)
    ensures Chained(states, a + b) && Apply(states, a + b) == Apply(Apply(states, a), b)
    decreases |a|
  {
    if a == [] {
      assert a + b == b;
    } else {
      assert (a + b)[1..] == a[1..] + b;
      ChainedConcat(states[a[0].cell := a[0].newState], a[1..], b);
    }
  }

  lemma {:induction false} FlushChains(states: map<string, string>, cells: seq<string>, ml: string -> Option<string>)
    ensures var (later, updates) := Flush(states, cells, ml);
            Chained(states, updates) && later == Apply(states, updates)
    decreases |cells|
  {
    if cells != [] {
      var c := cells[0];
      if ml(c).None? || ml(c).value == StateOf(states, c) {
        FlushChains(states, cells[1..], ml);
      } else {
        FlushChains(states[c := ml(c).value], cells[1..], ml);
        var updates := Flush(states, cells, ml).1;
        assert updates[1..] == Flush(states[c := ml(c).value], cells[1..], ml).1;
      }
    }
  }

  /** Over any number of flushes the change log of every cell is a stutter-free chain from
      NORMAL that ends in the aggregator's own state. */
  lemma {:induction false} ChangeLogIsAChain(states: map<string, string>, inputs: seq<FlushInput>)
    ensures var (end, updates) := FlushAll(states, inputs);
            Chained(states, updates) && end == Apply(states, updates)
    decreases |inputs|
  {
    if inputs != [] {
      var (mid, first) := Flush(states, inputs[0].cells, inputs[0].ml);
      FlushChains(states, inputs[0].cells, inputs[0].ml);
      ChangeLogIsAChain(mid, inputs[1..]);
      ChainedConcat(states, first, FlushAll(mid, inputs[1..]).1);
    }
  }

  /** After a flush every cell of the window stands where the pipeline put it, or where it stood
      if the pipeline failed; cells without pings stand where they stood. */
  lemma {:induction false} FlushFollowsPipeline(
    states: map<string, string>, cells: seq<string>, ml: string -> Option<string>, c: string)
    ensures var end := Flush(states, cells, ml).0;
            StateOf(end, c) == if c in cells && ml(c).Some? then ml(c).value else StateOf(states, c)
    decreases |cells|
  {
    if cells != [] {
      var d := cells[0];
      if ml(d).None? || ml(d).value == StateOf(states, d) {
        FlushFollowsPipeline(states, cells[1..], ml, c);
      } else {
        FlushFollowsPipeline(states[d := ml(d).value], cells[1..], ml, c);
      }
      assert c in cells <==> c == d || c in cells[1..];
    }
  }

  lemma FlushStep(states: map<string, string>, cells: seq<string>, ml: string -> Option<string>, i: nat)
    requires i < |cells|
    ensures var c := cells[i];
            if ml(c).None? || ml(c).value == StateOf(states, c)
            then Flush(states, cells[i..], ml) == Flush(states, cells[i + 1..], ml)
            else
              var later := Flush(states[c := ml(c).value], cells[i + 1..], ml);
              Flush(states, cells[i..], ml) == (later.0, [Update(c, StateOf(states, c), ml(c).value)] + later.1)
  {
    assert cells[i..][0] == cells[i] && cells[i..][1..] == cells[i + 1..];
  }

  datatype Ping = Ping(cell: string, driver: string)

  function AddPing(riders: map<string, set<string>>, p: Ping): map<string, set<string>> {
    riders[p.cell := (if p.cell in riders then riders[p.cell] else {}) + {p.driver}]
  }

  /** The window after some pings, from an empty one. */
  function Window(pings: seq<Ping>): map<string, set<string>> {
    if pings == [] then map[] else AddPing(Window(pings[..|pings| - 1]), pings[|pings| - 1])
  }

  /** A window holds exactly the drivers that pinged a cell since it was opened. */
  lemma {:induction false} WindowHoldsPings(pings: seq<Ping>, cell: string, driver: string)
    ensures (cell in Window(pings) && driver in Window(pings)[cell]) <==> Ping(cell, driver) in pings
  {
    if pings != [] {
      var front, last := pings[..|pings| - 1], pings[|pings| - 1];
      WindowHoldsPings(front, cell, driver);
      assert pings == front + [last];
    }
  }

  class ZoneAggregator {
    var zoneRiders: map<string, set<string>>
    var zoneStates: map<string, string>

    constructor ()
      ensures zoneRiders == map[] && zoneStates == map[]
    {
      zoneRiders, zoneStates := map[], map[];
    }

    method ProcessPing(p: Ping)
      modifies this`zoneRiders
      ensures zoneRiders == AddPing(old(zoneRiders), p)
    {
      if p.cell !in zoneRiders {
        zoneRiders := zoneRiders[p.cell := {}];
      }
      zoneRiders := zoneRiders[p.cell := zoneRiders[p.cell] + {p.driver}];
    }

    /** One round of the flush loop; `cells` lists the snapshot's keys in their order. The
        pings that arrive while the pipeline is awaited open the next window. */
    method FlushOnce(cells: seq<string>, ml: string -> Option<string>, meanwhile: seq<Ping>)
      returns (published: seq<Update>)
      requires zoneRiders.Keys == set c | c in cells
      modifies this
      ensures zoneRiders == Window(meanwhile)
      ensures (zoneStates, published) == Flush(old(zoneStates), cells, ml)
    {
      zoneRiders := map[];
      for i := 0 to |meanwhile|
        invariant zoneRiders == Window(meanwhile[..i]) && zoneStates == old(zoneStates)
      {
        assert meanwhile[..i + 1][..i] == meanwhile[..i];
        ProcessPing(meanwhile[i]);
      }
      assert meanwhile[..|meanwhile|] == meanwhile;
      published := [];
      ghost var all := Flush(zoneStates, cells, ml);
      assert cells[0..] == cells;
      for i := 0 to |cells|
        invariant zoneRiders == Window(meanwhile)
        invariant Continues(all, published, Flush(zoneStates, cells[i..], ml))
      {
        FlushStep(zoneStates, cells, ml, i);
        var result := ml(cells[i]);
        if result.Some? {
          var oldState := if cells[i] in zoneStates then zoneStates[cells[i]] else NORMAL;
          if result.value != oldState {
            ContinuesOn(all, published, Update(cells[i], oldState, result.value),
                        Flush(zoneStates[cells[i] := result.value], cells[i + 1..], ml));
            zoneStates := zoneStates[cells[i] := result.value];
            published := published + [Update(cells[i], oldState, result.value)];
          }
        }
      }
      assert cells[|cells|..] == [] && published + [] == published;
    }
  }

  // ---- The monitor ----

  /** A zone_state_updates message; absent JSON fields are None. */
  datatype Message = Message(cell: string, oldState: Option<string>, newState: Option<string>, aqi: Option<real>)

  function Effective(m: Message): string {
    if m.aqi.Some? && m.aqi.value > AQI_LIMIT then HALTED
    else if m.newState.Some? then Upper(m.newState.value) else ""
  }

  function Previous(stored: Option<string>, m: Message): string {
    if stored.Some? then Upper(stored.value) else if m.oldState.Some? then Upper(m.oldState.value) else ""
  }

  function Resolve(newState: string, previous: string): string {
    if newState != "" then newState else if previous != "" then previous else UNKNOWN
  }

  /** What one message does to its cell: the state stored, and whether claims fire. */
  function Handle(stored: Option<string>, m: Message): (string, bool) {
    var previous := Previous(stored, m);
    (Resolve(Effective(m), previous), Effective(m) == HALTED && previous != HALTED)
  }

  /** Delivering a message again at once changes nothing and fires nothing. */
  lemma RedeliveryFiresNothing(stored: Option<string>, m: Message)
    ensures var (state, _) := Handle(stored, m);
            Handle(Some(state), m) == (state, false)
  {
    if m.newState.Some? { UpperTwice(m.newState.value); }
    if m.oldState.Some? { UpperTwice(m.oldState.value); }
    if stored.Some? { UpperTwice(stored.value); }
    assert Upper(HALTED) == HALTED && Upper(UNKNOWN) == UNKNOWN;
    var s := Handle(stored, m).0;
    assert Upper(s) == s;
  }

  // ---- Firing over a stream, for one cell ----

  /** The states a cell passes through, one per message. */
  function StatesOver(stored: Option<string>, ms: seq<Message>): seq<string>
    decreases |ms|
  {
    if ms == [] then []
    else
      var s := Handle(stored, ms[0]).0;
      [s] + StatesOver(Some(s), ms[1..])
  }

  function Fires(stored: Option<string>, ms: seq<Message>): nat
    decreases |ms|
  {
    if ms == [] then 0
    else
      var (s, fired) := Handle(stored, ms[0]);
      (if fired then 1 else 0) + Fires(Some(s), ms[1..])
  }

  function SkipTrue(flags: seq<bool>): (r: seq<bool>)
    ensures |r| <= |flags|
  {
    if flags != [] && flags[0] then SkipTrue(flags[1..]) else flags
  }

  /** The number of maximal blocks of `true`. */
  function MaximalRuns(flags: seq<bool>): nat
    decreases |flags|
  {
    if flags == [] then 0
    else if flags[0] then 1 + MaximalRuns(SkipTrue(flags[1..]))
    else MaximalRuns(flags[1..])
  }

  function HaltedFlags(states: seq<string>): (r: seq<bool>)
    ensures |r| == |states|
  {
    seq(|states|, i requires 0 <= i < |states| => states[i] == HALTED)
  }

  lemma HaltedFlagsCons(s: string, states: seq<string>)
    ensures HaltedFlags([s] + states) == [s == HALTED] + HaltedFlags(states)
  {}

  lemma RunsAfter(h: bool, g: bool, later: seq<bool>)
    ensures MaximalRuns([h] + ([g] + later))
            == (if h then 1 else 0) + (if g && !h then 1 else 0)
               + (MaximalRuns([g] + later) - if g then 1 else 0)
  {
    assert ([h] + ([g] + later))[1..] == [g] + later;
    assert ([g] + later)[1..] == later;
  }

  /** Where a cell stands before its first message: its stored state, or what the message
      says it was. */
  function Baseline(stored: Option<string>, ms: seq<Message>): string {
    if ms == [] then (if stored.Some? then Upper(stored.value) else "") else Previous(stored, ms[0])
  }

  /** For any message stream, claims fire once per maximal run of HALTED states, a run that
      was already under way at the start excepted. */
  lemma {:induction false} FiresOncePerHaltedRun(stored: Option<string>, ms: seq<Message>)
    ensures var base := Baseline(stored, ms) == HALTED;
            Fires(stored, ms) == MaximalRuns([base] + HaltedFlags(StatesOver(stored, ms))) - (if base then 1 else 0)
    decreases |ms|
  {
    var base := Baseline(stored, ms) == HALTED;
    if ms == [] {
      assert [base] + HaltedFlags([]) == [base];
      assert [base][1..] == [];
      assert MaximalRuns([base]) == if base then 1 else 0;
    } else {
      var s := Handle(stored, ms[0]).0;
      var later := HaltedFlags(StatesOver(Some(s), ms[1..]));
      FiresOncePerHaltedRun(Some(s), ms[1..]);
      StoredIsUpper(stored, ms[0]);
      assert Baseline(Some(s), ms[1..]) == s;
      HaltedFlagsCons(s, StatesOver(Some(s), ms[1..]));
      RunsAfter(base, s == HALTED, later);
      FiresOnEntry(stored, ms[0]);
    }
  }

  /** Claims fire exactly when the stored state becomes HALTED. */
  lemma FiresOnEntry(stored: Option<string>, m: Message)
    ensures Handle(stored, m).1 <==> Handle(stored, m).0 == HALTED && Previous(stored, m) != HALTED
  {}

  lemma StoredIsUpper(stored: Option<string>, m: Message)
    ensures Upper(Handle(stored, m).0) == Handle(stored, m).0
  {
    if m.newState.Some? { UpperTwice(m.newState.value); }
    if m.oldState.Some? { UpperTwice(m.oldState.value); }
    if stored.Some? { UpperTwice(stored.value); }
    assert Upper(HALTED) == HALTED && Upper(UNKNOWN) == UNKNOWN;
  }

  // ---- The monitor over all cells ----

  function Stored(states: map<string, string>, cell: string): Option<string> {
    if cell in states then Some(states[cell]) else None
  }

  /** One message; a message without a cell is dropped. */
  function Receive(states: map<string, string>, m: Message): (map<string, string>, seq<string>) {
    if m.cell == "" then (states, [])
    else
      var (s, fired) := Handle(Stored(states, m.cell), m);
      (states[m.cell := s], if fired then [m.cell] else [])
  }

  /** The final states and the cells fired, in order. */
  function ReceiveAll(states: map<string, string>, ms: seq<Message>): (map<string, string>, seq<string>)
    decreases |ms|
  {
    if ms == [] then (states, [])
    else
      var (mid, fired) := Receive(states, ms[0]);
      var (end, later) := ReceiveAll(mid, ms[1..]);
      (end, fired + later)
  }

  function MessagesFor(ms: seq<Message>, cell: string): seq<Message> {
    if ms == [] then []
    else (if ms[0].cell == cell then [ms[0]] else []) + MessagesFor(ms[1..], cell)
  }

  function CountOf(cells: seq<string>, cell: string): nat {
    multiset(cells)[cell]
  }

  /** Cells do not disturb each other: the monitor fires a cell exactly as often as the
      cell's own messages do. */
  lemma {:induction false} FiresPerCell(states: map<string, string>, ms: seq<Message>, cell: string)
    requires cell != ""
    ensures CountOf(ReceiveAll(states, ms).1, cell) == Fires(Stored(states, cell), MessagesFor(ms, cell))
    decreases |ms|
  {
    if ms != [] {
      var (mid, fired) := Receive(states, ms[0]);
      var later := ReceiveAll(mid, ms[1..]).1;
      FiresPerCell(mid, ms[1..], cell);
      assert multiset(fired + later) == multiset(fired) + multiset(later);
      FirstMessage(states, ms, cell);
    }
  }

  lemma FiresCons(stored: Option<string>, m: Message, later: seq<Message>)
    ensures Fires(stored, [m] + later)
            == (if Handle(stored, m).1 then 1 else 0) + Fires(Some(Handle(stored, m).0), later)
  {
    assert ([m] + later)[1..] == later;
  }

  lemma FilterCons(ms: seq<Message>, cell: string)
    requires ms != []
    ensures MessagesFor(ms, cell)
            == if ms[0].cell == cell then [ms[0]] + MessagesFor(ms[1..], cell) else MessagesFor(ms[1..], cell)
  {}

  lemma ReceiveEffect(states: map<string, string>, m: Message, cell: string)
    requires cell != ""
    ensures var (mid, fired) := Receive(states, m);
            var (s, f) := Handle(Stored(states, cell), m);
            if m.cell == cell then Stored(mid, cell) == Some(s) && multiset(fired)[cell] == (if f then 1 else 0)
            else Stored(mid, cell) == Stored(states, cell) && multiset(fired)[cell] == 0
  {}

  lemma FirstMessage(states: map<string, string>, ms: seq<Message>, cell: string)
    requires ms != [] && cell != ""
    ensures multiset(Receive(states, ms[0]).1)[cell]
            + Fires(Stored(Receive(states, ms[0]).0, cell), MessagesFor(ms[1..], cell))
            == Fires(Stored(states, cell), MessagesFor(ms, cell))
  {
    FilterCons(ms, cell);
    ReceiveEffect(states, ms[0], cell);
    FiresCons(Stored(states, cell), ms[0], MessagesFor(ms[1..], cell));
  }

  class ZoneMonitoringService {
    var zoneState: map<string, string>
    /** The state column of the cache that the API reads. */
    var zoneCache: map<string, string>

    constructor ()
      ensures zoneState == zoneCache == map[]
    {
      zoneState, zoneCache := map[], map[];
    }

    /** `eachMessage`; `fired` is whether auto-claims are orchestrated for the cell. */
    method EachMessage(m: Message) returns (fired: bool)
      modifies this
      ensures (zoneState, if fired then [m.cell] else []) == Receive(old(zoneState), m)
      ensures old(zoneCache == zoneState) ==> zoneCache == zoneState
      ensures var overLimit := m.aqi.Some? && m.aqi.value > 300.0;
              var was := if m.cell in old(zoneState) then Upper(old(zoneState)[m.cell])
                         else if m.oldState.Some? then Upper(m.oldState.value) else "";
              && (fired <==> m.cell != "" && was != "HALTED" && zoneState[m.cell] == "HALTED")
              && (m.cell != "" ==>
                    zoneState[m.cell] == if overLimit then "HALTED"
                                         else if m.newState.Some? && m.newState.value != "" then Upper(m.newState.value)
                                         else if was != "" then was
                                         else "UNKNOWN")
    {
      if m.cell == "" {
        return false;
      }
      var newState := if m.newState.Some? then Upper(m.newState.value) else "";
      var previousState := if m.cell in zoneState then Upper(zoneState[m.cell])
                           else if m.oldState.Some? then Upper(m.oldState.value) else "";
      if m.aqi.Some? && m.aqi.value > AQI_LIMIT {
        newState := HALTED;
      }
      zoneState := zoneState[m.cell := Resolve(newState, previousState)];
      zoneCache := zoneCache[m.cell := Resolve(newState, previousState)];
      fired := newState == HALTED && previousState != HALTED;
    }
  }

  // ---- Aggregator and monitor together ----

  /** The aggregator publishes no AQI. */
  function AsMessage(u: Update): Message {
    Message(u.cell, Some(u.oldState), Some(u.newState), None)
  }

  function AsMessages(updates: seq<Update>): seq<Message> {
    if updates == [] then [] else [AsMessage(updates[0])] + AsMessages(updates[1..])
  }

  /** Upper-case and not empty, as the pipeline's labels are. */
  predicate Canonical(s: string) {
    s != "" && Upper(s) == s
  }

  predicate CanonicalUpdates(updates: seq<Update>) {
    forall i | 0 <= i < |updates| :: updates[i].cell != "" && Canonical(updates[i].newState)
  }

  /** With in-order, loss-free delivery of canonical states, the monitor's states are the
      aggregator's. */
  lemma {:induction false} MonitorFollowsAggregator(states: map<string, string>, updates: seq<Update>)
    requires CanonicalUpdates(updates)
    ensures ReceiveAll(states, AsMessages(updates)).0 == Apply(states, updates)
    decreases |updates|
  {
    if updates != [] {
      assert Canonical(updates[0].newState);
      var ms := AsMessages(updates);
      assert ms[1..] == AsMessages(updates[1..]);
      MonitorFollowsAggregator(states[updates[0].cell := updates[0].newState], updates[1..]);
    }
  }

  /** The aggregator's transitions of a cell into HALTED. */
  function HaltingUpdates(updates: seq<Update>, cell: string): nat
    decreases |updates|
  {
    if updates == [] then 0
    else (if updates[0].cell == cell && updates[0].newState == HALTED then 1 else 0)
         + HaltingUpdates(updates[1..], cell)
  }

  ghost predicate CanonicalStates(states: map<string, string>) {
    forall c | c in states :: Canonical(states[c])
  }

  /** A chained update fires its cell exactly when it enters HALTED. */
  lemma UpdateFires(states: map<string, string>, u: Update)
    requires CanonicalStates(states) && u.cell != "" && Canonical(u.newState)
    requires u.oldState == StateOf(states, u.cell) && u.newState != u.oldState
    ensures Receive(states, AsMessage(u))
            == (states[u.cell := u.newState], if u.newState == HALTED then [u.cell] else [])
  {
    assert Upper(NORMAL) == NORMAL;
    assert Upper(u.oldState) == u.oldState;
  }

  lemma {:induction false} FiresPerHaltingUpdate(states: map<string, string>, updates: seq<Update>, cell: string)
    requires Chained(states, updates) && CanonicalUpdates(updates) && CanonicalStates(states)
    ensures CountOf(ReceiveAll(states, AsMessages(updates)).1, cell) == HaltingUpdates(updates, cell)
    decreases |updates|
  {
    if updates != [] {
      var u := updates[0];
      var mid := states[u.cell := u.newState];
      assert Canonical(u.newState);
      assert AsMessages(updates)[1..] == AsMessages(updates[1..]);
      UpdateFires(states, u);
      FiresPerHaltingUpdate(mid, updates[1..], cell);
      var fired := if u.newState == HALTED then [u.cell] else [];
      var later := ReceiveAll(mid, AsMessages(updates[1..])).1;
      assert multiset(fired + later) == multiset(fired) + multiset(later);
    }
  }

  /** Both ends started empty: after any flushes the monitor knows what the aggregator knows,
      and it fired a cell's auto-claims once for each of the aggregator's updates of that cell
      to HALTED, which are the cell's maximal HALTED runs. */
  lemma {:induction false} ClaimsFollowAggregator(inputs: seq<FlushInput>, cell: string)
    requires CanonicalUpdates(FlushAll(map[], inputs).1) && cell != ""
    ensures var (end, updates) := FlushAll(map[], inputs);
            var ms := AsMessages(updates);
            && ReceiveAll(map[], ms).0 == end
            && CountOf(ReceiveAll(map[], ms).1, cell) == HaltingUpdates(updates, cell)
            && HaltingUpdates(updates, cell) == MaximalRuns(HaltedFlags(StatesOver(None, MessagesFor(ms, cell))))
  {
    var (end, updates) := FlushAll(map[], inputs);
    ChangeLogIsAChain(map[], inputs);
    MonitorFollowsAggregator(map[], updates);
    FiresPerHaltingUpdate(map[], updates, cell);
    HaltedRunsOfUpdates(updates, cell);
  }

  lemma HaltedRunsOfUpdates(updates: seq<Update>, cell: string)
    requires Chained(map[], updates) && cell != ""
    ensures var ms := AsMessages(updates);
            CountOf(ReceiveAll(map[], ms).1, cell) == MaximalRuns(HaltedFlags(StatesOver(None, MessagesFor(ms, cell))))
  {
    var ms := AsMessages(updates);
    var mine := MessagesFor(ms, cell);
    FiresPerCell(map[], ms, cell);
    FiresOncePerHaltedRun(None, mine);
    if mine != [] {
      FirstUpdateStartsNormal(map[], updates, cell);
    }
    var flags := HaltedFlags(StatesOver(None, mine));
    assert ([false] + flags)[1..] == flags;
  }

  lemma {:induction false} FirstUpdateStartsNormal(states: map<string, string>, updates: seq<Update>, cell: string)
    requires Chained(states, updates) && cell !in states
    requires MessagesFor(AsMessages(updates), cell) != []
    ensures Baseline(None, MessagesFor(AsMessages(updates), cell)) == "NORMAL"
    decreases |updates|
  {
    var ms := AsMessages(updates);
    assert ms[1..] == AsMessages(updates[1..]);
    if updates[0].cell == cell {
      assert MessagesFor(ms, cell)[0] == ms[0];
      assert Upper(NORMAL) == NORMAL;
    } else {
      assert MessagesFor(ms, cell) == MessagesFor(ms[1..], cell);
      FirstUpdateStartsNormal(states[updates[0].cell := updates[0].newState], updates[1..], cell);
    }
  }
}
