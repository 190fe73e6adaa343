/** The change log when some publications fail: the aggregator keeps its new state either way. */
module LossyUpdates {
  import opened Options
  import opened Text
  import opened ZoneTransitions

  datatype Publication = Publication(u: Update, delivered: bool)

  function Published(log: seq<Publication>): (r: seq<Update>)
    ensures |r| == |log| && forall i | 0 <= i < |r| :: r[i] == log[i].u
  {
    seq(|log|, i requires 0 <= i < |log| => log[i].u)
  }

  function Delivered(log: seq<Publication>): seq<Update> {
    if log == [] then []
    else
      var front, last := Delivered(log[..|log| - 1]), log[|log| - 1];
      if last.delivered then front + [last.u] else front
  }

  /** Where the last of some updates left a cell. */
  function LastState(us: seq<Update>, cell: string): Option<string> {
    if us == [] then None
    else if us[|us| - 1].cell == cell then Some(us[|us| - 1].newState)
    else LastState(us[..|us| - 1], cell)
  }

  lemma LastStateSnoc(us: seq<Update>, u: Update, cell: string)
    ensures LastState(us + [u], cell) == if u.cell == cell then Some(u.newState) else LastState(us, cell)
  {
    assert (us + [u])[..|us|] == us;
  }

  lemma PublicationSnoc(log: seq<Publication>, p: Publication)
    ensures Published(log + [p]) == Published(log) + [p.u]
    ensures Delivered(log + [p]) == if p.delivered then Delivered(log) + [p.u] else Delivered(log)
  {
    assert (log + [p])[..|log|] == log;
  }

  lemma {:induction false} ApplySnoc(states: map<string, string>, us: seq<Update>, u: Update)
    ensures Apply(states, us + [u]) == Apply(states, us)[u.cell := u.newState]
    decreases |us|
  {
    if us == [] {
      assert [u][1..] == [] && us + [u] == [u];
    } else {
      assert (us + [u])[1..] == us[1..] + [u];
      ApplySnoc(states[us[0].cell := us[0].newState], us[1..], u);
    }
  }

  lemma {:induction false} AppliedState(us: seq<Update>, cell: string)
    ensures Stored(Apply(map[], us), cell) == LastState(us, cell)
  {
    if us != [] {
      var front, last := us[..|us| - 1], us[|us| - 1];
      AppliedState(front, cell);
      assert us == front + [last];
      ApplySnoc(map[], front, last);
    }
  }

  lemma {:induction false} DeliveredIsCanonical(log: seq<Publication>)
    requires CanonicalUpdates(Published(log))
    ensures CanonicalUpdates(Delivered(log))
  {
    if log != [] {
      var front := log[..|log| - 1];
      forall i | 0 <= i < |front| ensures Published(front)[i] == Published(log)[i] {}
      DeliveredIsCanonical(front);
      assert Published(log)[|log| - 1] == log[|log| - 1].u;
    }
  }

  /** Monitor and aggregator hold the same state of the cell. */
  ghost predicate Agree(log: seq<Publication>, cell: string) {
    Stored(ReceiveAll(map[], AsMessages(Delivered(log))).0, cell) == Stored(Apply(map[], Published(log)), cell)
  }

  /** With lost publications monitor and aggregator agree on a cell exactly when the cell's last
      delivered update led to the state that its last update led to. */
  lemma {:induction false} AgreeIff(log: seq<Publication>, cell: string)
    requires CanonicalUpdates(Published(log))
    ensures Agree(log, cell) <==> LastState(Delivered(log), cell) == LastState(Published(log), cell)
  {
    DeliveredIsCanonical(log);
    MonitorFollowsAggregator(map[], Delivered(log));
    AppliedState(Delivered(log), cell);
    AppliedState(Published(log), cell);
  }

  lemma {:induction false} LastOfChain(states: map<string, string>, us: seq<Update>, u: Update)
    requires Chained(states, us + [u])
    ensures u.oldState == StateOf(Apply(states, us), u.cell) && u.newState != u.oldState
    decreases |us|
  {
    if us == [] {
      assert us + [u] == [u];
    } else {
      assert (us + [u])[1..] == us[1..] + [u];
      LastOfChain(states[us[0].cell := us[0].newState], us[1..], u);
    }
  }

  /** Where both agree, the next update of the cell keeps them together exactly when it is
      delivered: a lost one leaves the monitor behind. */
  lemma {:induction false} NextUpdateAgreesIff(log: seq<Publication>, p: Publication)
    requires Chained(map[], Published(log + [p])) && CanonicalUpdates(Published(log + [p]))
    requires LastState(Delivered(log), p.u.cell) == LastState(Published(log), p.u.cell)
    ensures Agree(log + [p], p.u.cell) <==> p.delivered
  {
    var cell := p.u.cell;
    PublicationSnoc(log, p);
    LastStateSnoc(Published(log), p.u, cell);
    LastStateSnoc(Delivered(log), p.u, cell);
    LastOfChain(map[], Published(log), p.u);
    AppliedState(Published(log), cell);
    AgreeIff(log + [p], cell);
  }

  function OneOfThree(u: Update, v: Update, w: Update): seq<Publication> {
    [Publication(u, true)] + [Publication(v, false)] + [Publication(w, false)]
  }

  lemma OnlyFirstDelivered(u: Update, v: Update, w: Update)
    ensures Published(OneOfThree(u, v, w)) == [u] + [v] + [w] && Delivered(OneOfThree(u, v, w)) == [u]
  {
    PublicationSnoc([], Publication(u, true));
    assert [] + [Publication(u, true)] == [Publication(u, true)] && [] + [u] == [u];
    PublicationSnoc([Publication(u, true)], Publication(v, false));
    PublicationSnoc([Publication(u, true)] + [Publication(v, false)], Publication(w, false));
  }

  /** Losses can cancel: after two lost updates there and back both ends agree, although the
      cell's last update was lost. */
  lemma LossesCancel(u: Update, v: Update, w: Update)
    requires CanonicalUpdates([u] + [v] + [w]) && u.cell == w.cell && u.newState == w.newState
    ensures Agree(OneOfThree(u, v, w), u.cell)
  {
    OnlyFirstDelivered(u, v, w);
    LastStateSnoc([], u, u.cell);
    assert [] + [u] == [u];
    LastStateSnoc([u] + [v], w, u.cell);
    AgreeIff(OneOfThree(u, v, w), u.cell);
  }

  /** The case NORMAL to HALTED, to SLOW and back to HALTED is such a log. */
  lemma ThereAndBack()
    ensures var u, v, w := Update("c", NORMAL, HALTED), Update("c", HALTED, "SLOW"), Update("c", "SLOW", HALTED);
            Chained(map[], [u] + [v] + [w]) && Agree(OneOfThree(u, v, w), "c")
  {
    var u, v, w := Update("c", NORMAL, HALTED), Update("c", HALTED, "SLOW"), Update("c", "SLOW", HALTED);
    var s1: map<string, string> := map["c" := HALTED];
    var s2: map<string, string> := s1["c" := "SLOW"];
    assert ([u] + [v] + [w])[1..] == [v] + [w] && ([v] + [w])[1..] == [w] && [w][1..] == [];
    assert Chained(s2, [w]) && Chained(s1, [v] + [w]);
    assert map[]["c" := HALTED] == s1;
    assert Upper(HALTED) == HALTED && Upper("SLOW") == "SLOW";
    LossesCancel(u, v, w);
  }
}
