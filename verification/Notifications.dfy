/** Notifications from Kafka events: what a delivery is about, and the duplicate check that
    makes redelivery harmless. */
module Notifications {
  import opened Options
  import opened Decimal
  import opened Text

  /** The JSON values that matter here; anything else is `OtherValue`. */
  datatype Json = Str(s: string) | Fields(fields: map<string, Json>) | OtherValue

  type Payload = map<string, Json>

  /** A delivery; `meta` is Kafka's partition and offset when known. */
  datatype Delivery = Delivery(topic: string, payload: Payload, meta: Option<(nat, string)>)

  datatype Row = Row(userId: string, eventType: string, eventId: Option<string>, source: Delivery)

  // ---- Extraction ----

  predicate IsBlank(c: char) {
    c == ' ' || c == '\t' || c == '\n' || c == '\r' || 11 <= c as int <= 12 || c as int == 0xA0 || c as int == 0xFEFF
  }

  /** `asString`: a string that is not all whitespace, kept untrimmed. */
  function AsString(p: Payload, key: string): Option<string> {
    if key in p && p[key].Str? && exists i | 0 <= i < |p[key].s| :: !IsBlank(p[key].s[i])
    then Some(p[key].s) else None
  }

  /** The first of the keys that holds a string. */
  function FirstString(p: Payload, keys: seq<string>): Option<string> {
    if keys == [] then None
    else if AsString(p, keys[0]).Some? then AsString(p, keys[0])
    else FirstString(p, keys[1..])
  }

  function Nested(p: Payload, key: string): Payload {
    if key in p && p[key].Fields? then p[key].fields else map[]
  }

  function ExtractUserId(p: Payload): Option<string> {
    OrElse(FirstString(p, ["userId", "user_id", "driverId", "driver_id"]),
           OrElse(FirstString(Nested(p, "user"), ["id", "userId"]),
                  FirstString(Nested(p, "policy"), ["userId", "user_id"])))
  }

  function ExtractEventId(d: Delivery): (r: Option<string>)
    ensures d.meta.Some? && d.meta.value.1 != "" ==> r.Some?
  {
    var direct := FirstString(d.payload, ["eventId", "event_id", "id", "traceId", "trace_id"]);
    if direct.Some? then direct
    else if d.meta.Some? && d.meta.value.1 != ""
    then Some(d.topic + ":" + NatToString(d.meta.value.0) + ":" + d.meta.value.1)
    else None
  }

  lemma {:induction false} FirstStringIsFirst(p: Payload, keys: seq<string>, i: nat)
    requires i < |keys| && AsString(p, keys[i]).Some?
    requires forall j | 0 <= j < i :: AsString(p, keys[j]).None?
    ensures FirstString(p, keys) == AsString(p, keys[i])
  {
    if i > 0 {
      assert AsString(p, keys[0]).None?;
      FirstStringIsFirst(p, keys[1..], i - 1);
    }
  }

  lemma {:induction false} NoStringAtAll(p: Payload, keys: seq<string>)
    requires forall k <- keys :: AsString(p, k).None?
    ensures FirstString(p, keys).None?
  {
    if keys != [] {
      assert AsString(p, keys[0]).None?;
      NoStringAtAll(p, keys[1..]);
    }
  }

  const EVENT_ID_KEYS := ["eventId", "event_id", "id", "traceId", "trace_id"]

  /** The event id is the first of the five id fields that holds a string, and failing all
      of them the delivery's topic, partition and offset. */
  lemma {:induction false} EventIdIsFirstField(d: Delivery, i: nat)
    requires i <= |EVENT_ID_KEYS| && forall j | 0 <= j < i :: AsString(d.payload, EVENT_ID_KEYS[j]).None?
    requires i < |EVENT_ID_KEYS| ==> AsString(d.payload, EVENT_ID_KEYS[i]).Some?
    ensures i < |EVENT_ID_KEYS| ==> ExtractEventId(d) == AsString(d.payload, EVENT_ID_KEYS[i])
    ensures i == |EVENT_ID_KEYS| && d.meta.Some? && d.meta.value.1 != "" ==>
              ExtractEventId(d) == Some(d.topic + ":" + NatToString(d.meta.value.0) + ":" + d.meta.value.1)
    ensures i == |EVENT_ID_KEYS| && (d.meta.None? || d.meta.value.1 == "") ==> ExtractEventId(d).None?
  {
    if i < |EVENT_ID_KEYS| {
      FirstStringIsFirst(d.payload, EVENT_ID_KEYS, i);
    } else {
      NoStringAtAll(d.payload, EVENT_ID_KEYS);
    }
  }

  predicate Includes(s: string, part: string) {
    part <= s || (s != "" && Includes(s[1..], part))
  }

  function TypeFromLabel(t: string): Option<string> {
    if Includes(t, "LOGIN") then Some("USER_LOGIN")
    else if Includes(t, "PAYOUT_INITIATED") || Includes(t, "PAYOUT_STARTED") || t == "PROCESSING"
    then Some("PAYOUT_INITIATED")
    else if Includes(t, "PAYOUT_COMPLETED") || Includes(t, "PAYOUT_APPROVED") || t == "APPROVED"
            || Includes(t, "SUCCESS")
    then Some("PAYOUT_COMPLETED")
    else if Includes(t, "FRAUD_DETECTED") || Includes(t, "FRAUD_ALERT") || Includes(t, "SUSPICIOUS")
    then Some("FRAUD_DETECTED")
    else if Includes(t, "POLICY_TRIGGERED") || Includes(t, "POLICY_ACTIVATED") || Includes(t, "POLICY_ISSUED")
    then Some("POLICY_TRIGGERED")
    else None
  }

  function TypeFromTopic(topic: string, p: Payload): Option<string> {
    if topic == "user_events" then Some("USER_LOGIN")
    else if topic == "payout_events" then
      var status := if AsString(p, "status").Some? then Upper(AsString(p, "status").value) else "";
      if status == "APPROVED" || status == "COMPLETED" || status == "SUCCESS"
      then Some("PAYOUT_COMPLETED") else Some("PAYOUT_INITIATED")
    else if topic == "fraud_events" then Some("FRAUD_DETECTED")
    else if topic == "policy_events" then Some("POLICY_TRIGGERED")
    else None
  }

  function InferEventType(d: Delivery): Option<string> {
    var raw := FirstString(d.payload, ["eventType", "event_type", "type", "event", "action", "status"]);
    OrElse(if raw.Some? then TypeFromLabel(Upper(raw.value)) else None, TypeFromTopic(Lower(d.topic), d.payload))
  }

  // ---- What the extraction finds ----

  /** The blanks are tab, line feed, vertical tab, form feed, return, space, the no-break space
      and the byte order mark. */
  lemma Blanks(c: char)
    ensures IsBlank(c) <==> c as int in {9, 10, 11, 12, 13, 32, 0xA0, 0xFEFF}
  {}

  /** `trim`: without the blanks at both ends. */
  function Trim(s: string): string {
    if s == "" then ""
    else if IsBlank(s[0]) then Trim(s[1..])
    else if IsBlank(s[|s| - 1]) then Trim(s[..|s| - 1])
    else s
  }

  lemma {:induction false} TrimIsEmptyIff(s: string)
    ensures Trim(s) == "" <==> forall c <- s :: IsBlank(c)
  {
    if s != "" && IsBlank(s[0]) {
      TrimIsEmptyIff(s[1..]);
      assert forall c <- s :: c == s[0] || c in s[1..];
    } else if s != "" && IsBlank(s[|s| - 1]) {
      TrimIsEmptyIff(s[..|s| - 1]);
      assert forall c <- s :: c == s[|s| - 1] || c in s[..|s| - 1];
      assert s[0] in s;
    } else if s != "" {
      assert s[0] in s;
    }
  }

  /** A field counts exactly when it is a string that is not empty once trimmed, and counts
      untrimmed. */
  lemma FieldCountsIff(p: Payload, key: string, s: string)
    ensures AsString(p, key) == Some(s) <==> key in p && p[key] == Str(s) && Trim(s) != ""
  {
    TrimIsEmptyIff(s);
    if Trim(s) != "" {
      var c :| c in s && !IsBlank(c);
      var i :| 0 <= i < |s| && s[i] == c;
    }
  }

  predicate OccursAt(s: string, part: string, i: nat) {
    i + |part| <= |s| && s[i..i + |part|] == part
  }

  /** `includes` is a search at every position. */
  lemma {:induction false} IncludesIff(s: string, part: string)
    ensures Includes(s, part) <==> exists i: nat :: OccursAt(s, part, i)
  {
    if part <= s {
      assert OccursAt(s, part, 0);
    } else if s != "" {
      IncludesIff(s[1..], part);
      if i: nat :| OccursAt(s[1..], part, i) {
        assert s[1..][i..i + |part|] == s[i + 1..i + 1 + |part|];
        assert OccursAt(s, part, i + 1);
      }
      if i: nat :| OccursAt(s, part, i) {
        assert i > 0;
        assert s[1..][i - 1..i - 1 + |part|] == s[i..i + |part|];
        assert OccursAt(s[1..], part, i - 1);
      }
    }
  }

  /** A label rule: the word anywhere in the text, or as the whole label. */
  datatype Rule = Rule(word: string, whole: bool, eventType: string)

  predicate Fits(text: string, r: Rule) {
    if r.whole then text == r.word else Includes(text, r.word)
  }

  const RULES := [
    Rule("LOGIN", false, "USER_LOGIN"),
    Rule("PAYOUT_INITIATED", false, "PAYOUT_INITIATED"),
    Rule("PAYOUT_STARTED", false, "PAYOUT_INITIATED"),
    Rule("PROCESSING", true, "PAYOUT_INITIATED"),
    Rule("PAYOUT_COMPLETED", false, "PAYOUT_COMPLETED"),
    Rule("PAYOUT_APPROVED", false, "PAYOUT_COMPLETED"),
    Rule("APPROVED", true, "PAYOUT_COMPLETED"),
    Rule("SUCCESS", false, "PAYOUT_COMPLETED"),
    Rule("FRAUD_DETECTED", false, "FRAUD_DETECTED"),
    Rule("FRAUD_ALERT", false, "FRAUD_DETECTED"),
    Rule("SUSPICIOUS", false, "FRAUD_DETECTED"),
    Rule("POLICY_TRIGGERED", false, "POLICY_TRIGGERED"),
    Rule("POLICY_ACTIVATED", false, "POLICY_TRIGGERED"),
    Rule("POLICY_ISSUED", false, "POLICY_TRIGGERED")]

  /** The first rule that fits the label gives the type, and none if no rule fits. */
  lemma TypeIsFirstRule(text: string, i: nat)
    requires i <= |RULES| && forall j | 0 <= j < i :: !Fits(text, RULES[j])
    requires i < |RULES| ==> Fits(text, RULES[i])
    ensures TypeFromLabel(text) == if i < |RULES| then Some(RULES[i].eventType) else None
  {
    RuleMeanings(text);
    assert forall j | 0 <= j < i :: !Fits(text, RULES[j]);
  }

  lemma RuleMeanings(text: string)
    ensures Fits(text, RULES[0]) == Includes(text, "LOGIN")
    ensures Fits(text, RULES[1]) == Includes(text, "PAYOUT_INITIATED")
    ensures Fits(text, RULES[2]) == Includes(text, "PAYOUT_STARTED")
    ensures Fits(text, RULES[3]) == (text == "PROCESSING")
    ensures Fits(text, RULES[4]) == Includes(text, "PAYOUT_COMPLETED")
    ensures Fits(text, RULES[5]) == Includes(text, "PAYOUT_APPROVED")
    ensures Fits(text, RULES[6]) == (text == "APPROVED")
    ensures Fits(text, RULES[7]) == Includes(text, "SUCCESS")
    ensures Fits(text, RULES[8]) == Includes(text, "FRAUD_DETECTED")
    ensures Fits(text, RULES[9]) == Includes(text, "FRAUD_ALERT")
    ensures Fits(text, RULES[10]) == Includes(text, "SUSPICIOUS")
    ensures Fits(text, RULES[11]) == Includes(text, "POLICY_TRIGGERED")
    ensures Fits(text, RULES[12]) == Includes(text, "POLICY_ACTIVATED")
    ensures Fits(text, RULES[13]) == Includes(text, "POLICY_ISSUED")
  {}

  const LABEL_KEYS := ["eventType", "event_type", "type", "event", "action", "status"]

  /** The label is the first of six fields that holds a string; the first rule that fits it
      decides the type, whatever the topic. */
  lemma LabelDecides(d: Delivery, i: nat, j: nat)
    requires i < |LABEL_KEYS| && AsString(d.payload, LABEL_KEYS[i]).Some?
    requires forall k | 0 <= k < i :: AsString(d.payload, LABEL_KEYS[k]).None?
    requires var text := Upper(AsString(d.payload, LABEL_KEYS[i]).value);
             j < |RULES| && Fits(text, RULES[j]) && forall k | 0 <= k < j :: !Fits(text, RULES[k])
    ensures InferEventType(d) == Some(RULES[j].eventType)
  {
    FirstStringIsFirst(d.payload, LABEL_KEYS, i);
    TypeIsFirstRule(Upper(AsString(d.payload, LABEL_KEYS[i]).value), j);
  }

  /** No rule fits the delivery's label, if it has one. */
  predicate NoKnownLabel(d: Delivery) {
    var found := FirstString(d.payload, LABEL_KEYS);
    found.Some? ==> forall r <- RULES :: !Fits(Upper(found.value), r)
  }

  predicate IsPaidStatus(p: Payload) {
    var status := AsString(p, "status");
    status.Some? && Upper(status.value) in {"APPROVED", "COMPLETED", "SUCCESS"}
  }

  /** Without a known label the topic gives the type. A payout counts as started whatever its
      status, unless that says it is done. */
  lemma TopicDecides(d: Delivery)
    requires NoKnownLabel(d)
    ensures Lower(d.topic) == "user_events" ==> InferEventType(d) == Some("USER_LOGIN")
    ensures Lower(d.topic) == "payout_events" ==>
              InferEventType(d) == Some(if IsPaidStatus(d.payload) then "PAYOUT_COMPLETED" else "PAYOUT_INITIATED")
    ensures Lower(d.topic) == "fraud_events" ==> InferEventType(d) == Some("FRAUD_DETECTED")
    ensures Lower(d.topic) == "policy_events" ==> InferEventType(d) == Some("POLICY_TRIGGERED")
    ensures Lower(d.topic) !in {"user_events", "payout_events", "fraud_events", "policy_events"} ==>
              InferEventType(d) == None
  {
    var found := FirstString(d.payload, LABEL_KEYS);
    if found.Some? {
      forall j | 0 <= j < |RULES| ensures !Fits(Upper(found.value), RULES[j]) {
        assert RULES[j] in RULES;
      }
      TypeIsFirstRule(Upper(found.value), |RULES|);
    }
  }

  /** The places a user id may stand, in order. */
  function UserIdFields(p: Payload): seq<Option<string>> {
    [AsString(p, "userId"), AsString(p, "user_id"), AsString(p, "driverId"), AsString(p, "driver_id"),
     AsString(Nested(p, "user"), "id"), AsString(Nested(p, "user"), "userId"),
     AsString(Nested(p, "policy"), "userId"), AsString(Nested(p, "policy"), "user_id")]
  }

  /** The user id is the first of the eight fields that holds a string. */
  lemma UserIdIsFirstField(p: Payload, i: nat)
    requires i <= 8 && forall j | 0 <= j < i :: UserIdFields(p)[j].None?
    requires i < 8 ==> UserIdFields(p)[i].Some?
    ensures ExtractUserId(p) == if i < 8 then UserIdFields(p)[i] else None
  {
    var fields := UserIdFields(p);
    FirstOfFour(p, "userId", "user_id", "driverId", "driver_id");
    FirstOfTwo(Nested(p, "user"), "id", "userId");
    FirstOfTwo(Nested(p, "policy"), "userId", "user_id");
    assert forall j | 0 <= j < i :: fields[j].None?;
    assert fields[0].None? || i == 0;
    assert fields[1].None? || i <= 1;
    assert fields[2].None? || i <= 2;
    assert fields[3].None? || i <= 3;
    assert fields[4].None? || i <= 4;
    assert fields[5].None? || i <= 5;
    assert fields[6].None? || i <= 6;
    assert fields[7].None? || i <= 7;
  }

  lemma FirstOfTwo(p: Payload, a: string, b: string)
    ensures FirstString(p, [a, b]) == OrElse(AsString(p, a), AsString(p, b))
  {
    assert [a, b][1..] == [b] && [b][1..] == [];
    assert FirstString(p, [b]) == AsString(p, b);
  }

  lemma FirstOfFour(p: Payload, a: string, b: string, c: string, d: string)
    ensures FirstString(p, [a, b, c, d])
            == OrElse(AsString(p, a), OrElse(AsString(p, b), OrElse(AsString(p, c), AsString(p, d))))
  {
    assert [a, b, c, d][1..] == [b, c, d] && [b, c, d][1..] == [c, d];
    FirstOfTwo(p, c, d);
  }

  // ---- Processing ----

  /** What a delivery would be recorded as, if it notifies anyone at all. */
  function RowOf(d: Delivery): Option<Row> {
    if InferEventType(d).None? || ExtractUserId(d.payload).None? then None
    else Some(Row(ExtractUserId(d.payload).value, InferEventType(d).value, ExtractEventId(d), d))
  }

  predicate SameEvent(a: Row, b: Row) {
    a.userId == b.userId && a.eventType == b.eventType && a.eventId.Some? && a.eventId == b.eventId
  }

  predicate IsDuplicate(rows: seq<Row>, row: Row) {
    exists i | 0 <= i < |rows| :: SameEvent(rows[i], row)
  }

  /** `processKafkaEvent`. */
  function Process(rows: seq<Row>, d: Delivery): seq<Row> {
    var row := RowOf(d);
    if row.None? || IsDuplicate(rows, row.value) then rows else rows + [row.value]
  }

  function ProcessAll(ds: seq<Delivery>): seq<Row> {
    if ds == [] then [] else Process(ProcessAll(ds[..|ds| - 1]), ds[|ds| - 1])
  }

  /** A delivery that notifies but carries no event id. */
  predicate Anonymous(d: Delivery) {
    RowOf(d).Some? && ExtractEventId(d).None?
  }

  lemma {:induction false} ProcessedIsRecorded(ds: seq<Delivery>, d: Delivery)
    requires d in ds && RowOf(d).Some? && !Anonymous(d)
    ensures IsDuplicate(ProcessAll(ds), RowOf(d).value)
  {
    var front, last := ds[..|ds| - 1], ds[|ds| - 1];
    var rows := ProcessAll(front);
    assert ds == front + [last];
    if d in front {
      ProcessedIsRecorded(front, d);
      var i :| 0 <= i < |rows| && SameEvent(rows[i], RowOf(d).value);
      assert ProcessAll(ds)[i] == rows[i];
    } else if !IsDuplicate(rows, RowOf(d).value) {
      assert ProcessAll(ds)[|rows|] == RowOf(d).value;
    }
  }

  /** Redelivering a processed message leaves the table alone exactly when it has an event
      id (or notifies nobody). */
  lemma RedeliveryIsHarmlessIff(ds: seq<Delivery>, d: Delivery)
    requires d in ds
    ensures Process(ProcessAll(ds), d) == ProcessAll(ds) <==> !Anonymous(d)
  {
    if Anonymous(d) {
      assert !IsDuplicate(ProcessAll(ds), RowOf(d).value);
    } else if RowOf(d).Some? {
      ProcessedIsRecorded(ds, d);
    }
  }

  /** The deliveries without later repeats. */
  function FirstOccurrences(ds: seq<Delivery>): seq<Delivery> {
    if ds == [] then []
    else
      var front := FirstOccurrences(ds[..|ds| - 1]);
      if ds[|ds| - 1] in ds[..|ds| - 1] then front else front + [ds[|ds| - 1]]
  }

  /** Some delivery without an event id comes more than once. */
  predicate RepeatsAnonymous(ds: seq<Delivery>) {
    ds != []
    && (RepeatsAnonymous(ds[..|ds| - 1]) || (ds[|ds| - 1] in ds[..|ds| - 1] && Anonymous(ds[|ds| - 1])))
  }

  function AnonymousDeliveries(ds: seq<Delivery>): nat {
    if ds == [] then 0
    else AnonymousDeliveries(ds[..|ds| - 1]) + if Anonymous(ds[|ds| - 1]) then 1 else 0
  }

  function AnonymousRows(rows: seq<Row>): nat {
    if rows == [] then 0
    else AnonymousRows(rows[..|rows| - 1]) + if rows[|rows| - 1].eventId.None? then 1 else 0
  }

  lemma AnonymousRowsSnoc(rows: seq<Row>, row: Row)
    ensures AnonymousRows(rows + [row]) == AnonymousRows(rows) + if row.eventId.None? then 1 else 0
  {
    assert (rows + [row])[..|rows|] == rows;
  }

  lemma {:induction false} AnonymousAlwaysRecorded(ds: seq<Delivery>)
    ensures AnonymousRows(ProcessAll(ds)) == AnonymousDeliveries(ds)
  {
    if ds != [] {
      var front, row := ds[..|ds| - 1], RowOf(ds[|ds| - 1]);
      AnonymousAlwaysRecorded(front);
      if row.Some? {
        AnonymousRowsSnoc(ProcessAll(front), row.value);
      }
    }
  }

  lemma AnonymousSnoc(ds: seq<Delivery>, d: Delivery)
    ensures AnonymousDeliveries(ds + [d]) == AnonymousDeliveries(ds) + if Anonymous(d) then 1 else 0
  {
    assert (ds + [d])[..|ds|] == ds;
  }

  lemma {:induction false} FirstOccurrencesOfAnonymous(ds: seq<Delivery>)
    ensures AnonymousDeliveries(FirstOccurrences(ds)) <= AnonymousDeliveries(ds)
    ensures RepeatsAnonymous(ds) ==> AnonymousDeliveries(FirstOccurrences(ds)) < AnonymousDeliveries(ds)
  {
    if ds != [] {
      var front, last := ds[..|ds| - 1], ds[|ds| - 1];
      FirstOccurrencesOfAnonymous(front);
      AnonymousSnoc(FirstOccurrences(front), last);
    }
  }

  /** A delivery sequence with redeliveries leaves the same table as the sequence with the
      repeats removed exactly when no repeated delivery lacks an event id. */
  lemma {:induction false} RedeliveriesLeaveNoTraceIff(ds: seq<Delivery>)
    ensures ProcessAll(ds) == ProcessAll(FirstOccurrences(ds)) <==> !RepeatsAnonymous(ds)
  {
    if RepeatsAnonymous(ds) {
      AnonymousAlwaysRecorded(ds);
      AnonymousAlwaysRecorded(FirstOccurrences(ds));
      FirstOccurrencesOfAnonymous(ds);
    } else if ds != [] {
      var front, last := ds[..|ds| - 1], ds[|ds| - 1];
      RedeliveriesLeaveNoTraceIff(front);
      if last in front {
        RedeliveryIsHarmlessIff(front, last);
      } else {
        var kept := FirstOccurrences(front) + [last];
        assert kept[..|kept| - 1] == FirstOccurrences(front);
      }
    }
  }

  /** Kafka's own partition and offset give every delivery an event id, so a consumer that
      always has them never repeats an anonymous delivery. */
  lemma {:induction false} OffsetsMakeRedeliveryHarmless(ds: seq<Delivery>)
    requires forall d <- ds :: d.meta.Some? && d.meta.value.1 != ""
    ensures ProcessAll(ds) == ProcessAll(FirstOccurrences(ds))
  {
    NoAnonymousNoRepeat(ds);
    RedeliveriesLeaveNoTraceIff(ds);
  }

  lemma {:induction false} NoAnonymousNoRepeat(ds: seq<Delivery>)
    requires forall d <- ds :: !Anonymous(d)
    ensures !RepeatsAnonymous(ds)
  {
    if ds != [] {
      NoAnonymousNoRepeat(ds[..|ds| - 1]);
    }
  }

  function RowsLike(rows: seq<Row>, row: Row): nat {
    if rows == [] then 0
    else RowsLike(rows[..|rows| - 1], row) + if SameEvent(rows[|rows| - 1], row) then 1 else 0
  }

  predicate Occurs(ds: seq<Delivery>, row: Row) {
    exists i | 0 <= i < |ds| :: RowOf(ds[i]).Some? && SameEvent(RowOf(ds[i]).value, row)
  }

  lemma {:induction false} DuplicateIffCounted(rows: seq<Row>, row: Row)
    ensures IsDuplicate(rows, row) <==> RowsLike(rows, row) >= 1
  {
    if rows != [] {
      var front := rows[..|rows| - 1];
      DuplicateIffCounted(front, row);
      if IsDuplicate(front, row) {
        var i :| 0 <= i < |front| && SameEvent(front[i], row);
        assert SameEvent(rows[i], row);
      }
      if IsDuplicate(rows, row) && !SameEvent(rows[|rows| - 1], row) {
        var i :| 0 <= i < |rows| && SameEvent(rows[i], row);
        assert SameEvent(front[i], row);
      }
    }
  }

  lemma OccursSnoc(front: seq<Delivery>, last: Delivery, row: Row)
    ensures Occurs(front + [last], row)
            <==> Occurs(front, row) || (RowOf(last).Some? && SameEvent(RowOf(last).value, row))
  {
    var ds := front + [last];
    if Occurs(front, row) {
      var i :| 0 <= i < |front| && RowOf(front[i]).Some? && SameEvent(RowOf(front[i]).value, row);
      assert ds[i] == front[i];
    }
    assert ds[|front|] == last;
    if Occurs(ds, row) {
      var i :| 0 <= i < |ds| && RowOf(ds[i]).Some? && SameEvent(RowOf(ds[i]).value, row);
      assert i < |front| ==> ds[i] == front[i];
    }
  }

  lemma {:induction false} LikeIsSymmetric(rows: seq<Row>, a: Row, b: Row)
    requires SameEvent(a, b)
    ensures RowsLike(rows, a) == RowsLike(rows, b)
  {
    if rows != [] {
      LikeIsSymmetric(rows[..|rows| - 1], a, b);
    }
  }

  /** Exactly one row per distinct (user, event type, event id) that was ever delivered. */
  lemma {:induction false} OneRowPerEvent(ds: seq<Delivery>, row: Row)
    ensures RowsLike(ProcessAll(ds), row) == if Occurs(ds, row) then 1 else 0
  {
    if ds != [] {
      var front, last := ds[..|ds| - 1], ds[|ds| - 1];
      var rows := ProcessAll(front);
      OneRowPerEvent(front, row);
      assert ds == front + [last];
      OccursSnoc(front, last, row);
      var added := RowOf(last);
      if added.Some? {
        DuplicateIffCounted(rows, added.value);
        assert (rows + [added.value])[..|rows|] == rows;
        if SameEvent(added.value, row) {
          LikeIsSymmetric(rows, added.value, row);
        }
      }
    }
  }

  class NotificationService {
    var rows: seq<Row>

    constructor ()
      ensures rows == []
    {
      rows := [];
    }

    /** `findFirst` on user, type and event id. */
    method FindDuplicate(userId: string, eventType: string, eventId: string) returns (found: bool)
      ensures found <==> exists i | 0 <= i < |rows| ::
                rows[i].userId == userId && rows[i].eventType == eventType && rows[i].eventId == Some(eventId)
    {
      found := false;
      var i := 0;
      while i < |rows| && !found
        invariant 0 <= i <= |rows|
        invariant found <==> exists j | 0 <= j < i ::
                    rows[j].userId == userId && rows[j].eventType == eventType && rows[j].eventId == Some(eventId)
      {
        found := rows[i].userId == userId && rows[i].eventType == eventType && rows[i].eventId == Some(eventId);
        i := i + 1;
      }
    }

    method ProcessKafkaEvent(d: Delivery)
      modifies this
      ensures rows == Process(old(rows), d)
    {
      var eventType := InferEventType(d);
      if eventType.None? {
        return;
      }
      var userId := ExtractUserId(d.payload);
      if userId.None? {
        return;
      }
      var eventId := ExtractEventId(d);
      var row := Row(userId.value, eventType.value, eventId, d);
      if eventId.Some? {
        var duplicate := FindDuplicate(userId.value, eventType.value, eventId.value);
        assert duplicate <==> exists i | 0 <= i < |rows| :: SameEvent(rows[i], row);
        if duplicate {
          return;
        }
      }
      rows := rows + [row];
    }
  }
}
