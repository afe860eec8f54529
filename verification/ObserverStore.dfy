/** The observer's event table: replay-idempotent ingest, the legacy migration, and keyset pagination. */
module ObserverStore {
  import opened Common

  /** A bus event as it arrives: the fields the store looks at, and the rest. */
  datatype Event = Event(
    kind: Option<string>, messageId: Option<string>, callId: Option<string>, sessionId: Option<string>, rest: string)

  /** Every stored row keeps its event; `key` is the column under the unique index, None for NULL. */
  datatype Row = Row(id: nat, event: Event, key: Option<string>)

  /** Rows in ascending id order, and the id the next insert gets. */
  datatype Table = Table(rows: seq<Row>, nextId: nat)

  const EMPTY := Table([], 1)
  const DROP_KINDS: set<string> := {"AudioChunk", "Ping", "Pong", "ChannelList", "ReplayDone", "BackpressureNotice"}

  function KindOf(e: Event): string {
    if e.kind.Some? && e.kind.value != "" then e.kind.value else "Unknown"
  }

  function NonEmpty(id: Option<string>): Option<string> {
    if id == Some("") then None else id
  }

  function Prefixed(prefix: string, id: Option<string>): Option<string> {
    if id.Some? then Some(prefix + id.value) else None
  }

  /** The key of live ingest: an empty id counts as no id. */
  function LiveKey(e: Event): Option<string> {
    if KindOf(e) == "ChatMessage" then Prefixed("ChatMessage:", NonEmpty(e.messageId))
    else if KindOf(e) == "ConfirmationRequest" then Prefixed("ConfirmationRequest:", NonEmpty(e.callId))
    else None
  }

  /** The key of the migration: only an absent id counts as no id. */
  function MigrationKey(e: Event): Option<string> {
    if KindOf(e) == "ChatMessage" then Prefixed("ChatMessage:", e.messageId)
    else if KindOf(e) == "ConfirmationRequest" then Prefixed("ConfirmationRequest:", e.callId)
    else None
  }

  predicate EmptyChat(e: Event) { KindOf(e) == "ChatMessage" && e.messageId == Some("") }

  predicate EmptyRequest(e: Event) { KindOf(e) == "ConfirmationRequest" && e.callId == Some("") }

  predicate EmptyId(e: Event) { EmptyChat(e) || EmptyRequest(e) }

  /** The two keys differ exactly on empty ids. */
  lemma KeysAgreeIff(e: Event)
    ensures LiveKey(e) == MigrationKey(e) <==> !EmptyId(e)
    ensures EmptyId(e) ==> LiveKey(e) == None
  {
  }

  /** Keys identify kind and id. */
  lemma KeysIdentify(a: Event, b: Event)
    requires MigrationKey(a).Some? && MigrationKey(a) == MigrationKey(b)
    ensures KindOf(a) == KindOf(b)
    ensures if KindOf(a) == "ChatMessage" then a.messageId == b.messageId else a.callId == b.callId
  {
    var k, l := MigrationKey(a).value, MigrationKey(b).value;
    assert k[1] == l[1];
    if KindOf(a) == "ChatMessage" {
      assert k[12..] == a.messageId.value && l[12..] == b.messageId.value;
    } else {
      assert k[20..] == a.callId.value && l[20..] == b.callId.value;
    }
  }

  // ---------------------------------------------------------------- ingest

  predicate HasKey(rows: seq<Row>, key: Option<string>) {
    key.Some? && exists i :: 0 <= i < |rows| && rows[i].key == key
  }

  /** Insert or ignore; an ignored insert uses up its id. */
  function Inserted(t: Table, e: Event): Table {
    Table(if HasKey(t.rows, LiveKey(e)) then t.rows else t.rows + [Row(t.nextId, e, LiveKey(e))], t.nextId + 1)
  }

  function InsertedAll(t: Table, es: seq<Event>): Table {
    if es == [] then t else Inserted(InsertedAll(t, es[..|es| - 1]), es[|es| - 1])
  }

  /** Events of the dropped kinds never reach the table. */
  function Persisted(t: Table, e: Event): Table {
    if KindOf(e) in DROP_KINDS then t else Inserted(t, e)
  }

  function PersistedAll(t: Table, es: seq<Event>): Table {
    if es == [] then t else Persisted(PersistedAll(t, es[..|es| - 1]), es[|es| - 1])
  }

  /** The key under which an event is recorded: its kind and its id, if it is of a keyed kind and has an id. */
  function RecordedKey(kind: string, e: Event): Option<string> {
    if kind == "ChatMessage" && e.messageId.Some? && e.messageId.value != "" then
      Some("ChatMessage:" + e.messageId.value)
    else if kind == "ConfirmationRequest" && e.callId.Some? && e.callId.value != "" then
      Some("ConfirmationRequest:" + e.callId.value)
    else None
  }

  /**
   * What becomes of an arriving event; one without a kind counts as "Unknown". The six noise kinds leave no trace.
   * Any other event uses up an id, and gets a row unless a row with its key is there.
   */
  lemma WhatIsRecorded(t: Table, e: Event)
    ensures var kind := if e.kind.GetOr("") == "" then "Unknown" else e.kind.value;
            var key := RecordedKey(kind, e);
            if kind in ["AudioChunk", "Ping", "Pong", "ChannelList", "ReplayDone", "BackpressureNotice"] then
              Persisted(t, e) == t
            else
              && Persisted(t, e).nextId == t.nextId + 1
              && Persisted(t, e).rows ==
                   if key.Some? && exists i :: 0 <= i < |t.rows| && t.rows[i].key == key then t.rows
                   else t.rows + [Row(t.nextId, e, key)]
  {
    var kind := if e.kind.GetOr("") == "" then "Unknown" else e.kind.value;
    KindIsNoise(kind);
    assert kind == KindOf(e) && RecordedKey(kind, e) == LiveKey(e);
    hide KindOf;
    hide LiveKey;
  }

  lemma KindIsNoise(kind: string)
    ensures kind in DROP_KINDS <==>
              kind in ["AudioChunk", "Ping", "Pong", "ChannelList", "ReplayDone", "BackpressureNotice"]
  {
  }

  ghost predicate Ascending(rows: seq<Row>) {
    forall i, j :: 0 <= i < j < |rows| ==> rows[i].id < rows[j].id
  }

  predicate UniqueKeys(rows: seq<Row>) {
    forall i, j :: 0 <= i < j < |rows| && rows[i].key.Some? ==> rows[i].key != rows[j].key
  }

  ghost predicate WellFormed(t: Table) {
    Ascending(t.rows) && UniqueKeys(t.rows) && forall i :: 0 <= i < |t.rows| ==> t.rows[i].id < t.nextId
  }

  /** Any ingest keeps the table well formed and only appends to it. */
  lemma {:induction false} IngestKeepsTable(t: Table, es: seq<Event>)
    requires WellFormed(t)
    ensures WellFormed(PersistedAll(t, es)) && t.rows <= PersistedAll(t, es).rows
  {
    if es != [] { IngestKeepsTable(t, es[..|es| - 1]); }
  }

  /** An event that has been persisted is on record ever after. */
  lemma {:induction false} KeyStays(t: Table, es: seq<Event>, key: Option<string>)
    requires HasKey(t.rows, key)
    ensures HasKey(PersistedAll(t, es).rows, key)
  {
    if es != [] {
      KeyStays(t, es[..|es| - 1], key);
      var mid := PersistedAll(t, es[..|es| - 1]);
      var i :| 0 <= i < |mid.rows| && mid.rows[i].key == key;
      assert PersistedAll(t, es).rows[i].key == key;
    }
  }

  /** Redelivering a keyed event adds no row, however much was ingested since; it only uses up an id. */
  lemma RedeliveryIsNoOp(t: Table, e: Event, es: seq<Event>)
    requires LiveKey(e).Some? && KindOf(e) !in DROP_KINDS
    ensures var later := PersistedAll(Persisted(t, e), es); Persisted(later, e) == Table(later.rows, later.nextId + 1)
  {
    var t1 := Persisted(t, e);
    if !HasKey(t.rows, LiveKey(e)) {
      assert t1.rows[|t.rows|].key == LiveKey(e);
    }
    KeyStays(t1, es, LiveKey(e));
  }

  // ---------------------------------------------------------------- migration

  function Backfill(r: Row): Row {
    if r.key.None? then r.(key := MigrationKey(r.event)) else r
  }

  function Backfilled(rows: seq<Row>): (b: seq<Row>)
    ensures |b| == |rows|
  {
    seq(|rows|, i requires 0 <= i < |rows| => Backfill(rows[i]))
  }

  /** Keyless rows stay, and of each key the row with the smallest id. */
  function FirstPerKey(rows: seq<Row>): seq<Row> {
    if rows == [] then []
    else
      var front, last := rows[..|rows| - 1], rows[|rows| - 1];
      FirstPerKey(front) + (if HasKey(front, last.key) then [] else [last])
  }

  function Migrated(rows: seq<Row>): seq<Row> {
    FirstPerKey(Backfilled(rows))
  }

  lemma {:induction false} FirstPerKeyFacts(rows: seq<Row>)
    ensures var r := FirstPerKey(rows); UniqueKeys(r) && (forall k :: HasKey(r, k) <==> HasKey(rows, k))
    ensures forall x :: x in FirstPerKey(rows) ==> x in rows
  {
    if rows != [] {
      var front, last := rows[..|rows| - 1], rows[|rows| - 1];
      FirstPerKeyFacts(front);
      assert rows == front + [last];
      HasKeySnoc(front, last);
      HasKeySnoc(FirstPerKey(front), last);
      var r := FirstPerKey(front);
      hide HasKey;
      if HasKey(front, last.key) {
        assert FirstPerKey(rows) == r;
      } else {
        assert FirstPerKey(rows) == r + [last];
        assert !HasKey(r, last.key);
        NewKeyIsUnique(r, last);
      }
    }
  }

  lemma NewKeyIsUnique(rows: seq<Row>, r: Row)
    requires UniqueKeys(rows) && !HasKey(rows, r.key)
    ensures UniqueKeys(rows + [r])
  {
  }

  lemma HasKeySnoc(rows: seq<Row>, r: Row)
    ensures forall k :: HasKey(rows + [r], k) <==> HasKey(rows, k) || (k.Some? && r.key == k)
  {
    forall k ensures HasKey(rows + [r], k) <==> HasKey(rows, k) || (k.Some? && r.key == k) {
      if HasKey(rows, k) {
        var i :| 0 <= i < |rows| && rows[i].key == k;
        assert (rows + [r])[i].key == k;
      }
      assert (rows + [r])[|rows|] == r;
    }
  }

  /** A keyed row survives exactly when no earlier row has its key: the smallest id per key is kept. */
  lemma {:induction false} SurvivesIff(rows: seq<Row>, i: nat)
    requires i < |rows| && Ascending(rows)
    ensures rows[i] in FirstPerKey(rows) <==> !HasKey(rows[..i], rows[i].key)
  {
    var front, last := rows[..|rows| - 1], rows[|rows| - 1];
    FirstPerKeyFacts(front);
    if i < |rows| - 1 {
      SurvivesIff(front, i);
      assert front[..i] == rows[..i] && front[i] == rows[i];
      assert rows[i] != last;
    } else {
      assert rows[..i] == front;
      assert last !in front;
    }
  }

  lemma {:induction false} UniqueStays(rows: seq<Row>)
    requires UniqueKeys(rows)
    ensures FirstPerKey(rows) == rows
  {
    if rows != [] {
      var front, last := rows[..|rows| - 1], rows[|rows| - 1];
      UniqueStays(front);
      assert rows == front + [last];
      assert !HasKey(front, last.key);
    }
  }

  /** Migration leaves keys unique, so the index can be built, and migrating again changes nothing. */
  lemma MigrationIsIdempotent(rows: seq<Row>)
    ensures UniqueKeys(Migrated(rows)) && Migrated(Migrated(rows)) == Migrated(rows)
  {
    FirstPerKeyFacts(Backfilled(rows));
    var m := Migrated(rows);
    forall i | 0 <= i < |m| ensures Backfill(m[i]) == m[i] {
      assert m[i] in Backfilled(rows);
    }
    assert Backfilled(m) == m;
    UniqueStays(m);
  }

  // ---------------------------------------------------------------- migration against live ingest

  /** A legacy row has no key yet, or the one the migration would give it. */
  ghost predicate Legacy(rows: seq<Row>) {
    && Ascending(rows)
    && (forall i :: 0 <= i < |rows| ==> rows[i].key == None || rows[i].key == MigrationKey(rows[i].event))
  }

  function Events(rows: seq<Row>): (es: seq<Event>)
    ensures |es| == |rows|
  {
    seq(|rows|, i requires 0 <= i < |rows| => rows[i].event)
  }

  /** What a table records, apart from the numbering. */
  function Contents(rows: seq<Row>): (cs: seq<(Event, Option<string>)>)
    ensures |cs| == |rows|
  {
    seq(|rows|, i requires 0 <= i < |rows| => (rows[i].event, rows[i].key))
  }

  lemma SameContentsSameKeys(a: seq<Row>, b: seq<Row>)
    requires Contents(a) == Contents(b)
    ensures forall k :: HasKey(a, k) <==> HasKey(b, k)
  {
    assert forall i :: 0 <= i < |a| ==> Contents(a)[i].1 == a[i].key;
    assert forall i :: 0 <= i < |b| ==> Contents(b)[i].1 == b[i].key;
    forall k | HasKey(a, k) ensures HasKey(b, k) {
      var i :| 0 <= i < |a| && a[i].key == k;
      assert b[i].key == k;
    }
    forall k | HasKey(b, k) ensures HasKey(a, k) {
      var i :| 0 <= i < |b| && b[i].key == k;
      assert a[i].key == k;
    }
  }

  lemma ContentsSnoc(rows: seq<Row>, r: Row)
    ensures Contents(rows + [r]) == Contents(rows) + [(r.event, r.key)]
  {
  }

  /** The same event under the same key is ignored by both tables or appended to both. */
  lemma SameNextContents(a: seq<Row>, b: seq<Row>, r: Row, q: Row)
    requires Contents(a) == Contents(b) && r.event == q.event && r.key == q.key
    ensures HasKey(a, r.key) <==> HasKey(b, q.key)
    ensures Contents(a + [r]) == Contents(b + [q])
  {
    SameContentsSameKeys(a, b);
    ContentsSnoc(a, r);
    ContentsSnoc(b, q);
    hide Contents;
    hide HasKey;
  }

  lemma {:induction false} MigrationAgrees(rows: seq<Row>)
    requires Legacy(rows) && forall i :: 0 <= i < |rows| ==> !EmptyId(rows[i].event)
    ensures Contents(Migrated(rows)) == Contents(InsertedAll(EMPTY, Events(rows)).rows)
  {
    hide LiveKey;
    hide MigrationKey;
    hide HasKey;
    hide Contents;
    if rows == [] {
      assert Backfilled(rows) == [] && Events(rows) == [];
    } else {
      var front, last := rows[..|rows| - 1], rows[|rows| - 1];
      MigrationAgrees(front);
      var filled, live := Backfilled(front), InsertedAll(EMPTY, Events(front));
      assert Backfilled(rows)[..|rows| - 1] == filled && Backfilled(rows)[|rows| - 1] == Backfill(last);
      assert Events(rows)[..|rows| - 1] == Events(front);
      KeysAgreeIff(last.event);
      assert Backfill(last).key == LiveKey(last.event);
      FirstPerKeyFacts(filled);
      SameNextContents(FirstPerKey(filled), live.rows, Backfill(last),
                       Row(live.nextId, last.event, LiveKey(last.event)));
      assert FirstPerKey(filled) + [] == FirstPerKey(filled);
    }
  }

  /** Live ingest only ever writes the live key. */
  lemma {:induction false} LiveRowsHaveLiveKeys(es: seq<Event>)
    ensures forall i :: 0 <= i < |InsertedAll(EMPTY, es).rows| ==>
              InsertedAll(EMPTY, es).rows[i].key == LiveKey(InsertedAll(EMPTY, es).rows[i].event)
  {
    if es != [] { LiveRowsHaveLiveKeys(es[..|es| - 1]); }
  }

  /** The first row with an empty id survives the migration under a key that live ingest never writes. */
  lemma EmptyIdBreaksAgreement(rows: seq<Row>, i: nat)
    requires Legacy(rows) && i < |rows| && EmptyId(rows[i].event)
    ensures Contents(Migrated(rows)) != Contents(InsertedAll(EMPTY, Events(rows)).rows)
  {
    var filled, m, live := Backfilled(rows), Migrated(rows), InsertedAll(EMPTY, Events(rows)).rows;
    var k := MigrationKey(rows[i].event);
    EmptyKeys(rows[i].event);
    assert filled[i].key == k;
    FirstPerKeyFacts(filled);
    assert HasKey(filled, k);
    LiveRowsHaveLiveKeys(Events(rows));
    hide MigrationKey;
    hide LiveKey;
    hide Contents;
    forall j | 0 <= j < |live| ensures live[j].key != k { LiveKeysAreLong(live[j].event); }
    assert !HasKey(live, k);
    hide HasKey;
    if Contents(m) == Contents(live) {
      SameContentsSameKeys(m, live);
    }
  }

  lemma EmptyKeys(e: Event)
    requires EmptyId(e)
    ensures MigrationKey(e) == Some("ChatMessage:") || MigrationKey(e) == Some("ConfirmationRequest:")
  {
    assert "ChatMessage:" + "" == "ChatMessage:" && "ConfirmationRequest:" + "" == "ConfirmationRequest:";
  }

  lemma LiveKeysAreLong(e: Event)
    ensures LiveKey(e) != Some("ChatMessage:") && LiveKey(e) != Some("ConfirmationRequest:")
  {
    assert |"ChatMessage:"| == 12 && |"ConfirmationRequest:"| == 20;
    if LiveKey(e).Some? {
      var k := LiveKey(e).value;
      if KindOf(e) == "ChatMessage" {
        assert k[1] == 'h' && |k| > 12;
      } else {
        assert k[1] == 'o' && |k| > 20;
      }
    }
  }

  /**
   * Migrating a legacy table records exactly what live ingest of the same events would have recorded,
   * in the same order and under the same keys, if and only if no chat message or confirmation request
   * in it has an empty id.
   */
  lemma MigrationAgreesIff(rows: seq<Row>)
    requires Legacy(rows)
    ensures Contents(Migrated(rows)) == Contents(InsertedAll(EMPTY, Events(rows)).rows)
            <==> forall i :: 0 <= i < |rows| ==> !EmptyId(rows[i].event)
  {
    if forall i :: 0 <= i < |rows| ==> !EmptyId(rows[i].event) {
      MigrationAgrees(rows);
    } else {
      var i :| 0 <= i < |rows| && EmptyId(rows[i].event);
      EmptyIdBreaksAgreement(rows, i);
    }
  }

  // ---------------------------------------------------------------- life after the migration

  /** What later events add depends on what is recorded, not on the numbering. */
  lemma {:induction false} IngestRespectsContents(t: Table, u: Table, es: seq<Event>)
    requires Contents(t.rows) == Contents(u.rows)
    ensures Contents(PersistedAll(t, es).rows) == Contents(PersistedAll(u, es).rows)
  {
    if es != [] {
      var front, e := es[..|es| - 1], es[|es| - 1];
      IngestRespectsContents(t, u, front);
      var a, b := PersistedAll(t, front), PersistedAll(u, front);
      SameContentsSameKeys(a.rows, b.rows);
      ContentsSnoc(a.rows, Row(a.nextId, e, LiveKey(e)));
      ContentsSnoc(b.rows, Row(b.nextId, e, LiveKey(e)));
      hide HasKey;
      hide LiveKey;
      hide Contents;
    }
  }

  /** A migrated table goes on as if every event had been ingested live from the start. */
  lemma MigrateThenIngest(rows: seq<Row>, nextId: nat, es: seq<Event>)
    requires Legacy(rows) && forall i :: 0 <= i < |rows| ==> !EmptyId(rows[i].event)
    ensures Contents(PersistedAll(Table(Migrated(rows), nextId), es).rows)
        == Contents(PersistedAll(InsertedAll(EMPTY, Events(rows)), es).rows)
  {
    MigrationAgrees(rows);
    IngestRespectsContents(Table(Migrated(rows), nextId), InsertedAll(EMPTY, Events(rows)), es);
  }

  ghost predicate KeysFilled(rows: seq<Row>) {
    forall r :: r in rows ==> r.key == MigrationKey(r.event)
  }

  lemma MigratedIsFilled(rows: seq<Row>)
    requires Legacy(rows)
    ensures KeysFilled(Migrated(rows))
  {
    FirstPerKeyFacts(Backfilled(rows));
    hide FirstPerKey;
  }

  lemma {:induction false} LiveTail(t: Table, es: seq<Event>)
    ensures var r := PersistedAll(t, es);
            && t.rows <= r.rows
            && (forall x :: x in r.rows[|t.rows|..] ==> x.event in es && x.key == LiveKey(x.event))
            && (forall e :: e in es && EmptyId(e) ==> exists x :: x in r.rows && x.event == e && x.key == None)
  {
    if es != [] {
      var front, e := es[..|es| - 1], es[|es| - 1];
      LiveTail(t, front);
      var mid, r := PersistedAll(t, front), PersistedAll(t, es);
      KeysAgreeIff(e);
      var row := Row(mid.nextId, e, LiveKey(e));
      hide LiveKey;
      hide EmptyId;
      assert mid.rows <= r.rows;
      if r.rows != mid.rows {
        assert r.rows[|mid.rows|] == row;
        assert r.rows[|t.rows|..] == mid.rows[|t.rows|..] + [row];
      }
      forall d | d in es && EmptyId(d) ensures exists x :: x in r.rows && x.event == d && x.key == None {
        if d in front {
          var x :| x in mid.rows && x.event == d && x.key == None;
          assert x in r.rows;
        } else {
          assert d == e;
          EmptyIsInserted(mid, e);
          assert row in r.rows;
        }
      }
    }
  }

  lemma EmptyIsInserted(t: Table, e: Event)
    requires EmptyId(e)
    ensures LiveKey(e) == None && Persisted(t, e) == Table(t.rows + [Row(t.nextId, e, None)], t.nextId + 1)
  {
  }

  // ---------------------------------------------------------------- starts after the first

  /** The database file: its table, and whether the unique index on the keys has been built. */
  datatype Database = Database(table: Table, indexed: bool)

  /**
   * Opening a database. The first start has no index yet: it fills in keys, deletes duplicates and builds the
   * index. Under the index, filling in a key that is taken raises: nothing is committed and nothing opens.
   */
  function Opened(db: Database): Option<Database> {
    if db.indexed && !UniqueKeys(Backfilled(db.table.rows)) then None
    else Some(Database(db.table.(rows := Migrated(db.table.rows)), true))
  }

  /** How many of the events satisfy `p`. */
  function Count(es: seq<Event>, p: Event -> bool): nat {
    if es == [] then 0 else Count(es[..|es| - 1], p) + (if p(es[|es| - 1]) then 1 else 0)
  }

  lemma CountSnoc(es: seq<Event>, e: Event, p: Event -> bool)
    ensures Count(es + [e], p) == Count(es, p) + (if p(e) then 1 else 0)
  {
    assert (es + [e])[..|es|] == es;
  }

  lemma {:induction false} CountZeroIff(es: seq<Event>, p: Event -> bool)
    ensures Count(es, p) == 0 <==> forall i :: 0 <= i < |es| ==> !p(es[i])
  {
    if es != [] { CountZeroIff(es[..|es| - 1], p); }
  }

  lemma {:induction false} AtMostOneIff(es: seq<Event>, p: Event -> bool)
    ensures Count(es, p) <= 1 <==> forall i, j :: 0 <= i < j < |es| ==> !(p(es[i]) && p(es[j]))
  {
    if es != [] {
      var front, n := es[..|es| - 1], |es| - 1;
      AtMostOneIff(front, p);
      CountZeroIff(front, p);
      assert forall i :: 0 <= i < n ==> front[i] == es[i];
      hide Count;
      if p(es[n]) && Count(front, p) > 0 {
        var i :| 0 <= i < n && p(front[i]);
        assert p(es[i]) && p(es[n]);
      }
    }
  }

  /** At most one chat message and at most one confirmation request has an empty id. */
  ghost predicate FewEmpty(es: seq<Event>) {
    Count(es, EmptyChat) <= 1 && Count(es, EmptyRequest) <= 1
  }

  /** What an indexed table looks like at any time: a key is missing only under an empty id or where there is no id. */
  ghost predicate Indexed(rows: seq<Row>) {
    && UniqueKeys(rows)
    && (forall i :: 0 <= i < |rows| ==>
          rows[i].key == MigrationKey(rows[i].event) || (rows[i].key == None && EmptyId(rows[i].event)))
  }

  lemma BackfilledKey(r: Row)
    requires r.key == MigrationKey(r.event) || (r.key == None && EmptyId(r.event))
    ensures Backfill(r) == r.(key := MigrationKey(r.event))
  {
  }

  lemma EmptyKeyIff(e: Event)
    ensures MigrationKey(e) == Some("ChatMessage:") <==> EmptyChat(e)
    ensures MigrationKey(e) == Some("ConfirmationRequest:") <==> EmptyRequest(e)
  {
    LiveKeysAreLong(e);
    KeysAgreeIff(e);
    assert "ChatMessage:" + "" == "ChatMessage:" && "ConfirmationRequest:" + "" == "ConfirmationRequest:";
    assert "ChatMessage:"[1] == 'h' && "ConfirmationRequest:"[1] == 'o';
  }

  /** Two rows clash in the backfill exactly when both are empty-id chat messages or both empty-id requests. */
  lemma ClashIff(rows: seq<Row>, i: nat, j: nat)
    requires Indexed(rows) && i < j < |rows|
    ensures var a, b := rows[i].event, rows[j].event;
            (MigrationKey(a).Some? && MigrationKey(a) == MigrationKey(b))
            <==> (EmptyChat(a) && EmptyChat(b)) || (EmptyRequest(a) && EmptyRequest(b))
  {
    var a, b := rows[i].event, rows[j].event;
    EmptyKeyIff(a);
    EmptyKeyIff(b);
    hide MigrationKey;
    hide EmptyChat;
    hide EmptyRequest;
    assert rows[i].key.Some? ==> rows[i].key != rows[j].key;
  }

  lemma UniqueBackfillIff(rows: seq<Row>)
    requires Indexed(rows)
    ensures UniqueKeys(Backfilled(rows)) <==> FewEmpty(Events(rows))
  {
    var es, filled := Events(rows), Backfilled(rows);
    AtMostOneIff(es, EmptyChat);
    AtMostOneIff(es, EmptyRequest);
    forall i | 0 <= i < |rows| ensures filled[i].key == MigrationKey(es[i]) { BackfilledKey(rows[i]); }
    forall i, j | 0 <= i < j < |rows|
      ensures (filled[i].key.Some? && filled[i].key == filled[j].key)
              <==> (EmptyChat(es[i]) && EmptyChat(es[j])) || (EmptyRequest(es[i]) && EmptyRequest(es[j]))
    {
      ClashIff(rows, i, j);
    }
    hide MigrationKey;
    hide EmptyChat;
    hide EmptyRequest;
    hide Backfilled;
    hide Indexed;
    hide Events;
    hide Count;
  }

  lemma UniqueMigration(rows: seq<Row>)
    requires UniqueKeys(Backfilled(rows))
    ensures Migrated(rows) == Backfilled(rows)
  {
    UniqueStays(Backfilled(rows));
  }

  /** Live ingest keeps an indexed table indexed, and every event with an empty id that comes in is recorded. */
  lemma {:induction false} IngestCounts(t: Table, es: seq<Event>)
    requires Indexed(t.rows)
    ensures var r := PersistedAll(t, es);
            && Indexed(r.rows)
            && Count(Events(r.rows), EmptyChat) == Count(Events(t.rows) + es, EmptyChat)
            && Count(Events(r.rows), EmptyRequest) == Count(Events(t.rows) + es, EmptyRequest)
  {
    hide Count;
    hide Indexed;
    hide Persisted;
    hide Events;
    if es == [] {
      assert Events(t.rows) + es == Events(t.rows);
    } else {
      var front, e := es[..|es| - 1], es[|es| - 1];
      IngestCounts(t, front);
      PersistCounts(PersistedAll(t, front), e);
      assert Events(t.rows) + es == (Events(t.rows) + front) + [e];
      CountSnoc(Events(t.rows) + front, e, EmptyChat);
      CountSnoc(Events(t.rows) + front, e, EmptyRequest);
    }
  }

  lemma PersistCounts(t: Table, e: Event)
    requires Indexed(t.rows)
    ensures var r := Persisted(t, e).rows;
            && Indexed(r)
            && Count(Events(r), EmptyChat) == Count(Events(t.rows), EmptyChat) + (if EmptyChat(e) then 1 else 0)
            && Count(Events(r), EmptyRequest)
               == Count(Events(t.rows), EmptyRequest) + (if EmptyRequest(e) then 1 else 0)
  {
    hide Count;
    hide LiveKey;
    hide KindOf;
    hide UniqueKeys;
    hide EmptyChat;
    hide EmptyRequest;
    var row := Row(t.nextId, e, LiveKey(e));
    NoKeyNoCount(e);
    if KindOf(e) !in DROP_KINDS && !HasKey(t.rows, LiveKey(e)) {
      assert Events(t.rows + [row]) == Events(t.rows) + [e];
      CountSnoc(Events(t.rows), e, EmptyChat);
      CountSnoc(Events(t.rows), e, EmptyRequest);
      KeysAgreeIff(e);
      NewKeyIsUnique(t.rows, row);
    }
  }

  /** Neither an event that is dropped nor one with a key has an empty id. */
  lemma NoKeyNoCount(e: Event)
    ensures KindOf(e) in DROP_KINDS || LiveKey(e).Some? ==> !EmptyChat(e) && !EmptyRequest(e)
  {
  }

  lemma MigratedIsIndexed(rows: seq<Row>)
    requires Legacy(rows)
    ensures Indexed(Migrated(rows))
  {
    MigratedIsFilled(rows);
    MigrationIsIdempotent(rows);
    hide Migrated;
    hide MigrationKey;
    hide EmptyId;
    assert forall i :: 0 <= i < |Migrated(rows)| ==> Migrated(rows)[i] in Migrated(rows);
  }

  /** Filling in the keys changes nothing exactly when none is missing. */
  lemma BackfillIsNoOpIff(rows: seq<Row>)
    requires Indexed(rows)
    ensures Backfilled(rows) == rows <==> forall i :: 0 <= i < |rows| ==> rows[i].key == MigrationKey(rows[i].event)
  {
    forall i | 0 <= i < |rows| ensures Backfilled(rows)[i] == rows[i].(key := MigrationKey(rows[i].event)) {
      BackfilledKey(rows[i]);
    }
    hide MigrationKey;
    hide Backfill;
    if Backfilled(rows) == rows {
      assert forall i :: 0 <= i < |rows| ==> Backfilled(rows)[i] == rows[i];
    }
  }

  /**
   * Every start after the first migrates under the index. After the first start and any live ingest, the store
   * opens again exactly when at most one chat message and at most one confirmation request with an empty id are
   * among the events the first start kept and those that came in since. It then keeps every row, in place and
   * under its id, and changes nothing exactly when no event with an empty id came in.
   */
  lemma ReopensIff(rows: seq<Row>, nextId: nat, es: seq<Event>)
    requires Legacy(rows)
    ensures var t := PersistedAll(Table(Migrated(rows), nextId), es);
            var again := Opened(Database(t, true));
            && (again.Some? <==> FewEmpty(Events(Migrated(rows)) + es))
            && (again.Some? ==>
                  && again == Some(Database(t.(rows := Backfilled(t.rows)), true))
                  && (again == Some(Database(t, true)) <==> forall e :: e in es ==> !EmptyId(e)))
  {
    var start := Table(Migrated(rows), nextId);
    var t := PersistedAll(start, es);
    MigratedIsIndexed(rows);
    IngestCounts(start, es);
    UniqueBackfillIff(t.rows);
    if UniqueKeys(Backfilled(t.rows)) {
      UniqueMigration(t.rows);
      BackfillIsNoOpIff(t.rows);
      KeysMissingIff(rows, nextId, es);
    }
    hide Migrated;
    hide PersistedAll;
    hide UniqueKeys;
    hide Count;
    hide Backfilled;
    hide EmptyId;
  }

  lemma KeysMissingIff(rows: seq<Row>, nextId: nat, es: seq<Event>)
    requires Legacy(rows)
    ensures var t := PersistedAll(Table(Migrated(rows), nextId), es).rows;
            (forall i :: 0 <= i < |t| ==> t[i].key == MigrationKey(t[i].event)) <==> forall e :: e in es ==> !EmptyId(e)
  {
    hide LiveKey;
    hide MigrationKey;
    hide EmptyId;
    hide Migrated;
    hide PersistedAll;
    var start := Table(Migrated(rows), nextId);
    var t := PersistedAll(start, es).rows;
    MigratedIsFilled(rows);
    LiveTail(start, es);
    assert t == start.rows + t[|start.rows|..];
    if e :| e in es && EmptyId(e) {
      var x :| x in t && x.event == e && x.key == None;
      KeysAgreeIff(e);
      var i :| 0 <= i < |t| && t[i] == x;
      assert t[i].key != MigrationKey(t[i].event);
    } else {
      forall i | 0 <= i < |t| ensures t[i].key == MigrationKey(t[i].event) {
        if i < |start.rows| {
          assert t[i] == start.rows[i] && t[i] in start.rows;
        } else {
          assert t[i] in t[|start.rows|..];
          KeysAgreeIff(t[i].event);
        }
      }
    }
  }

  lemma MigratedIsAscending(rows: seq<Row>, nextId: nat)
    requires Ascending(rows) && forall r :: r in rows ==> r.id < nextId
    ensures Ascending(Migrated(rows)) && forall r :: r in Migrated(rows) ==> r.id < nextId
  {
    var filled := Backfilled(rows);
    forall r | r in filled ensures r.id < nextId {
      var i :| 0 <= i < |filled| && filled[i] == r;
      assert rows[i] in rows;
    }
    FirstIsAscending(filled);
    FirstPerKeyFacts(filled);
  }

  lemma LastIsNewest(front: seq<Row>, last: Row)
    requires Ascending(front + [last])
    ensures Ascending(front) && forall r :: r in front ==> r.id < last.id
  {
    var rows := front + [last];
    forall r | r in front ensures r.id < last.id {
      var i :| 0 <= i < |front| && front[i] == r;
      assert rows[i].id < rows[|front|].id;
    }
    assert forall i :: 0 <= i < |front| ==> rows[i] == front[i];
  }

  lemma AscendingSnoc(rows: seq<Row>, r: Row)
    requires Ascending(rows) && forall x :: x in rows ==> x.id < r.id
    ensures Ascending(rows + [r])
  {
  }

  lemma {:induction false} FirstIsAscending(rows: seq<Row>)
    requires Ascending(rows)
    ensures Ascending(FirstPerKey(rows))
  {
    if rows != [] {
      var front, last := rows[..|rows| - 1], rows[|rows| - 1];
      assert rows == front + [last];
      LastIsNewest(front, last);
      FirstIsAscending(front);
      FirstPerKeyFacts(front);
      AscendingSnoc(FirstPerKey(front), last);
    }
  }

  // ---------------------------------------------------------------- the whole life of a database

  datatype StoreOp = Start | Arrive(event: Event)

  /** The database after a run of starts and arriving events, None once a start has failed. */
  function Lived(db: Database, ops: seq<StoreOp>): Option<Database> {
    if ops == [] then Some(db)
    else
      var d := Lived(db, ops[..|ops| - 1]);
      if d.None? then None else LivedOn(d.value, ops[|ops| - 1])
  }

  function LivedOn(db: Database, op: StoreOp): Option<Database> {
    match op
    case Start => Opened(db)
    case Arrive(e) => Some(db.(table := Persisted(db.table, e)))
  }

  function Arrived(ops: seq<StoreOp>): seq<Event> {
    if ops == [] then []
    else
      var last := ops[|ops| - 1];
      Arrived(ops[..|ops| - 1]) + (if last.Arrive? then [last.event] else [])
  }

  /** An open database that has recorded `es`, as far as empty ids go. */
  ghost predicate Sound(db: Database, es: seq<Event>) {
    && db.indexed && Indexed(db.table.rows) && WellFormed(db.table)
    && Count(Events(db.table.rows), EmptyChat) == Count(es, EmptyChat)
    && Count(Events(db.table.rows), EmptyRequest) == Count(es, EmptyRequest)
  }

  lemma BackfillIsIndexed(rows: seq<Row>)
    requires Indexed(rows) && UniqueKeys(Backfilled(rows))
    ensures Indexed(Backfilled(rows)) && Events(Backfilled(rows)) == Events(rows)
  {
    forall i | 0 <= i < |rows| ensures Backfilled(rows)[i] == rows[i].(key := MigrationKey(rows[i].event)) {
      BackfilledKey(rows[i]);
    }
    hide MigrationKey;
    hide Backfill;
  }

  lemma BackfillKeepsPlaces(t: Table)
    requires WellFormed(t) && UniqueKeys(Backfilled(t.rows))
    ensures WellFormed(t.(rows := Backfilled(t.rows))) && SameRows(t.rows, Backfilled(t.rows))
  {
    hide UniqueKeys;
    hide MigrationKey;
  }

  lemma StartKeepsSound(db: Database, es: seq<Event>)
    requires Sound(db, es)
    ensures Opened(db).Some? <==> FewEmpty(es)
    ensures Opened(db).Some? ==> Sound(Opened(db).value, es) && SameRows(db.table.rows, Opened(db).value.table.rows)
  {
    hide Count;
    hide Indexed;
    hide Migrated;
    hide UniqueKeys;
    hide WellFormed;
    hide SameRows;
    hide Backfilled;
    hide Events;
    hide EmptyChat;
    hide EmptyRequest;
    UniqueBackfillIff(db.table.rows);
    if UniqueKeys(Backfilled(db.table.rows)) {
      UniqueMigration(db.table.rows);
      BackfillIsIndexed(db.table.rows);
      BackfillKeepsPlaces(db.table);
    }
  }

  lemma ArrivalKeepsSound(db: Database, es: seq<Event>, e: Event)
    requires Sound(db, es)
    ensures var r := db.(table := Persisted(db.table, e));
            Sound(r, es + [e]) && SameRows(db.table.rows, r.table.rows)
  {
    hide Count;
    hide Indexed;
    hide UniqueKeys;
    hide LiveKey;
    PersistCounts(db.table, e);
    CountSnoc(es, e, EmptyChat);
    CountSnoc(es, e, EmptyRequest);
    IngestKeepsTable(db.table, [e]);
    assert [e][..0] == [] && PersistedAll(db.table, []) == db.table;
    assert PersistedAll(db.table, [e]) == Persisted(db.table, e);
    hide WellFormed;
    hide EmptyChat;
    hide EmptyRequest;
    hide Events;
  }

  /** The rows of `a` are the first of `b`, with the same ids and events. */
  ghost predicate SameRows(a: seq<Row>, b: seq<Row>) {
    |a| <= |b| && forall i :: 0 <= i < |a| ==> a[i].id == b[i].id && a[i].event == b[i].event
  }

  /** A legacy database right after its first start. */
  function FirstStart(rows: seq<Row>, nextId: nat): Database {
    Database(Table(Migrated(rows), nextId), true)
  }

  lemma FirstStartIsSound(rows: seq<Row>, nextId: nat)
    requires Legacy(rows) && forall r :: r in rows ==> r.id < nextId
    ensures Sound(FirstStart(rows, nextId), Events(Migrated(rows)))
  {
    MigratedIsIndexed(rows);
    MigratedIsAscending(rows, nextId);
    MigrationIsIdempotent(rows);
    hide Migrated;
    hide Indexed;
    hide Count;
    assert forall i :: 0 <= i < |Migrated(rows)| ==> Migrated(rows)[i] in Migrated(rows);
  }

  lemma {:induction false} LivedIsSound(rows: seq<Row>, nextId: nat, ops: seq<StoreOp>)
    requires Legacy(rows) && forall r :: r in rows ==> r.id < nextId
    requires Lived(FirstStart(rows, nextId), ops).Some?
    ensures Sound(Lived(FirstStart(rows, nextId), ops).value, Events(Migrated(rows)) + Arrived(ops))
  {
    var db, es := FirstStart(rows, nextId), Events(Migrated(rows));
    hide Sound;
    hide FirstStart;
    hide Migrated;
    if ops == [] {
      FirstStartIsSound(rows, nextId);
      assert es + [] == es;
    } else {
      var front, last := ops[..|ops| - 1], ops[|ops| - 1];
      LivedIsSound(rows, nextId, front);
      var d := Lived(db, front).value;
      match last
      case Start =>
        StartKeepsSound(d, es + Arrived(front));
        assert Arrived(front) + [] == Arrived(front);
      case Arrive(e) =>
        ArrivalKeepsSound(d, es + Arrived(front), e);
        assert es + (Arrived(front) + [e]) == (es + Arrived(front)) + [e];
    }
  }

  /** Whatever comes, a database that is open has all its rows of before, in place and under their ids. */
  lemma {:induction false} NoRowIsLost(rows: seq<Row>, nextId: nat, ops: seq<StoreOp>, more: seq<StoreOp>)
    requires Legacy(rows) && forall r :: r in rows ==> r.id < nextId
    requires Lived(FirstStart(rows, nextId), ops + more).Some?
    ensures var db := FirstStart(rows, nextId);
            && Lived(db, ops).Some?
            && SameRows(Lived(db, ops).value.table.rows, Lived(db, ops + more).value.table.rows)
  {
    var db, es := FirstStart(rows, nextId), Events(Migrated(rows));
    hide FirstStart;
    hide Migrated;
    hide Opened;
    hide Persisted;
    hide Sound;
    if more == [] {
      assert ops + more == ops;
    } else {
      var front, last := more[..|more| - 1], more[|more| - 1];
      assert (ops + more)[..|ops + more| - 1] == ops + front;
      NoRowIsLost(rows, nextId, ops, front);
      LivedIsSound(rows, nextId, ops + front);
      var d := Lived(db, ops + front).value;
      match last
      case Start => StartKeepsSound(d, es + Arrived(ops + front));
      case Arrive(e) => ArrivalKeepsSound(d, es + Arrived(ops + front), e);
    }
  }

  /**
   * The store lives through a run of starts and arriving events if and only if at each start of the run at most
   * one chat message and at most one confirmation request with an empty id have been recorded; the first start
   * that finds two fails, and so does every later one.
   */
  lemma {:induction false} LivesIff(rows: seq<Row>, nextId: nat, ops: seq<StoreOp>)
    requires Legacy(rows) && forall r :: r in rows ==> r.id < nextId
    ensures Lived(FirstStart(rows, nextId), ops).Some?
            <==> forall k :: 0 <= k < |ops| && ops[k].Start? ==> FewEmpty(Events(Migrated(rows)) + Arrived(ops[..k]))
  {
    var db, es := FirstStart(rows, nextId), Events(Migrated(rows));
    hide FirstStart;
    hide Migrated;
    hide Opened;
    hide Persisted;
    hide Sound;
    hide FewEmpty;
    if ops != [] {
      var front, last := ops[..|ops| - 1], ops[|ops| - 1];
      LivesIff(rows, nextId, front);
      assert forall k :: 0 <= k < |front| ==> front[k] == ops[k] && front[..k] == ops[..k];
      if Lived(db, front).Some? {
        LivedIsSound(rows, nextId, front);
        StartKeepsSound(Lived(db, front).value, es + Arrived(front));
      }
    }
  }

  /** From an empty database: two live chat messages with an empty id, and no later start opens the store. */
  lemma TwoEmptyIdsBlockRestart(a: Event, b: Event)
    requires EmptyChat(a) && EmptyChat(b)
    ensures var db := Database(PersistedAll(Table(Migrated([]), 1), [a, b]), true);
            |db.table.rows| == 2 && Opened(db) == None
  {
    assert Backfilled([]) == [];
    var start := Table(Migrated([]), 1);
    assert [a, b][..1] == [a] && [a][..0] == [];
    EmptyIsInserted(start, a);
    EmptyIsInserted(Persisted(start, a), b);
    assert PersistedAll(start, []) == start;
    assert PersistedAll(start, [a]) == Persisted(start, a);
    assert PersistedAll(start, [a, b]) == Persisted(Persisted(start, a), b);
    ReopensIff([], 1, [a, b]);
    assert Count([a], EmptyChat) == 1 && Count([a, b], EmptyChat) == 2;
    assert Events([]) + [a, b] == [a, b];
  }

  // ---------------------------------------------------------------- keyset pagination

  predicate Matches(r: Row, keep: Row -> bool, before: Option<nat>) {
    keep(r) && (before.Some? ==> r.id < before.value)
  }

  /** The matching rows, newest first. */
  function Newest(rows: seq<Row>, keep: Row -> bool, before: Option<nat>): seq<Row> {
    if rows == [] then []
    else
      var last := rows[|rows| - 1];
      (if Matches(last, keep, before) then [last] else []) + Newest(rows[..|rows| - 1], keep, before)
  }

  /** SQLite's LIMIT: a negative limit is no limit. */
  function Limited(rows: seq<Row>, limit: int): seq<Row> {
    if limit < 0 || limit >= |rows| then rows else rows[..limit]
  }

  function EventsPage(rows: seq<Row>, limit: int, keep: Row -> bool, before: Option<nat>): seq<Row> {
    Limited(Newest(rows, keep, before), limit)
  }

  /** The page size that the endpoint asks the store for. */
  function Capped(limit: int): int {
    if limit < 500 then limit else 500
  }

  function NextBefore(page: seq<Row>): Option<nat> {
    if page == [] then None else Some(page[|page| - 1].id)
  }

  lemma {:induction false} NewestIsDescending(rows: seq<Row>, keep: Row -> bool, before: Option<nat>)
    requires Ascending(rows)
    ensures var n := Newest(rows, keep, before);
            && (forall i, j :: 0 <= i < j < |n| ==> n[i].id > n[j].id)
            && (forall r :: r in n <==> r in rows && Matches(r, keep, before))
  {
    if rows != [] {
      var front, last := rows[..|rows| - 1], rows[|rows| - 1];
      NewestIsDescending(front, keep, before);
      assert rows == front + [last];
      assert forall r :: r in front ==> r.id < last.id;
    }
  }

  /** Rows inserted later have larger ids, so they do not show on a page that starts below an old row. */
  lemma {:induction false} NewRowsStayOut(rows: seq<Row>, more: seq<Row>, keep: Row -> bool, b: nat)
    requires forall r :: r in more ==> r.id >= b
    ensures Newest(rows + more, keep, Some(b)) == Newest(rows, keep, Some(b))
  {
    if more == [] {
      assert rows + more == rows;
    } else {
      var front := more[..|more| - 1];
      assert (rows + more)[..|rows + more| - 1] == rows + front;
      assert more[|more| - 1] in more;
      NewRowsStayOut(rows, front, keep, b);
    }
  }

  lemma {:induction false} AllBelow(rows: seq<Row>, keep: Row -> bool, b: nat)
    requires forall r :: r in rows ==> r.id < b
    ensures Newest(rows, keep, Some(b)) == Newest(rows, keep, None)
  {
    if rows != [] { AllBelow(rows[..|rows| - 1], keep, b); }
  }

  lemma NewestSnoc(front: seq<Row>, last: Row, keep: Row -> bool, before: Option<nat>)
    ensures Newest(front + [last], keep, before)
            == (if Matches(last, keep, before) then [last] else []) + Newest(front, keep, before)
  {
    assert (front + [last])[..|front|] == front;
  }

  /** Moving the row at `i` to the page, if it matches. */
  lemma NewestMoves(rows: seq<Row>, i: nat, page: seq<Row>, keep: Row -> bool, before: Option<nat>)
    requires i <= |rows|
    ensures i < |rows| ==>
              page + Newest(rows[..i + 1], keep, before)
              == (if Matches(rows[i], keep, before) then page + [rows[i]] else page) + Newest(rows[..i], keep, before)
    ensures i == 0 ==> page + Newest(rows[..0], keep, before) == page
  {
    if i < |rows| {
      assert rows[..i + 1] == rows[..i] + [rows[i]];
      NewestSnoc(rows[..i], rows[i], keep, before);
    }
    if i == 0 { assert rows[..0] == []; }
  }

  /** Below the id of a matching row come exactly the matching rows after it. */
  lemma {:induction false} PageFollows(rows: seq<Row>, keep: Row -> bool, i: nat)
    requires Ascending(rows) && i < |Newest(rows, keep, None)|
    ensures Newest(rows, keep, Some(Newest(rows, keep, None)[i].id)) == Newest(rows, keep, None)[i + 1..]
  {
    var front, last := rows[..|rows| - 1], rows[|rows| - 1];
    var n, m := Newest(rows, keep, None), Newest(front, keep, None);
    assert rows == front + [last];
    LastIsNewest(front, last);
    NewestSnoc(front, last, keep, None);
    NewestSnoc(front, last, keep, Some(n[i].id));
    hide Newest;
    if keep(last) && i == 0 {
      AllBelow(front, keep, last.id);
      assert n[1..] == m;
    } else {
      var j := if keep(last) then i - 1 else i;
      assert n[i] == m[j] && n[i + 1..] == m[j + 1..];
      NewestIsDescending(front, keep, None);
      hide Ascending;
      assert m[j] in m;
      PageFollows(front, keep, j);
    }
  }

  function Concat(pages: seq<seq<Row>>): seq<Row> {
    if pages == [] then [] else Concat(pages[..|pages| - 1]) + pages[|pages| - 1]
  }

  /** What request `k` passes as `before_id`. */
  function Cursor(pages: seq<seq<Row>>, k: nat): Option<nat>
    requires k <= |pages|
  {
    if k == 0 then None else NextBefore(pages[k - 1])
  }

  /**
   * A client following the pages: request k sees the table as it is then, and asks for what lies below
   * the last row it got. All pages but possibly the last have rows.
   */
  ghost predicate Crawl(tables: seq<seq<Row>>, limit: int, keep: Row -> bool, pages: seq<seq<Row>>) {
    && |tables| == |pages|
    && (forall k :: 0 <= k < |tables| ==> Ascending(tables[k]))
    && (forall k :: 0 < k < |tables| ==> tables[0] <= tables[k])
    && (forall k :: 0 <= k < |pages| ==>
          pages[k] == EventsPage(tables[k], limit, keep, Cursor(pages, k)))
    && (forall k :: 0 <= k < |pages| - 1 ==> pages[k] != [])
  }

  /** After `count` requests the client holds `got`, the first rows of `n`: at least one per non-empty page. */
  ghost predicate Progress(n: seq<Row>, got: seq<Row>, count: nat, page: seq<Row>, limit: int) {
    && got <= n && count <= |got| + 1
    && (page != [] ==> got != [] && count <= |got| && NextBefore(page) == Some(got[|got| - 1].id))
    && (page == [] ==> limit == 0 || got == n)
  }

  lemma PageExtends(n: seq<Row>, got: seq<Row>, count: nat, limit: int)
    requires got <= n && count <= |got|
    ensures var page := Limited(n[|got|..], limit); Progress(n, got + page, count + 1, page, limit)
  {
    assert n == got + n[|got|..];
  }

  lemma {:induction false} CrawlIsPrefix(tables: seq<seq<Row>>, limit: int, keep: Row -> bool, pages: seq<seq<Row>>)
    requires Crawl(tables, limit, keep, pages) && pages != []
    ensures Progress(Newest(tables[0], keep, None), Concat(pages), |pages|, pages[|pages| - 1], limit)
  {
    hide Newest;
    hide EventsPage;
    hide Limited;
    hide Ascending;
    var last := |pages| - 1;
    var n, front := Newest(tables[0], keep, None), pages[..last];
    assert pages[last] == EventsPage(tables[last], limit, keep, Cursor(pages, last));
    if last == 0 {
      FirstPage(tables[0], limit, keep);
      PageExtends(n, [], 0, limit);
      assert Concat(pages) == [] + pages[0];
    } else {
      CrawlShorter(tables, limit, keep, pages);
      CrawlIsPrefix(tables[..last], limit, keep, front);
      assert front[|front| - 1] == pages[last - 1] && pages[last - 1] != [];
      NextPage(tables[0], tables[last], limit, keep, Concat(front));
      PageExtends(n, Concat(front), last, limit);
    }
  }

  lemma FirstPage(table: seq<Row>, limit: int, keep: Row -> bool)
    ensures EventsPage(table, limit, keep, None) == Limited(Newest(table, keep, None)[0..], limit)
  {
    assert Newest(table, keep, None)[0..] == Newest(table, keep, None);
  }

  /** The page below the last row the client holds continues what matched at the start. */
  lemma NextPage(start: seq<Row>, table: seq<Row>, limit: int, keep: Row -> bool, got: seq<Row>)
    requires Ascending(table) && start <= table && got != [] && got <= Newest(start, keep, None)
    ensures EventsPage(table, limit, keep, Some(got[|got| - 1].id))
        == Limited(Newest(start, keep, None)[|got|..], limit)
  {
    var n, more, r := Newest(start, keep, None), table[|start|..], got[|got| - 1];
    assert table == start + more;
    NewestIsDescending(start, keep, None);
    assert n[|got| - 1] == r && r in n;
    NewerThan(start, more, r);
    NewRowsStayOut(start, more, keep, r.id);
    PageFollows(start, keep, |got| - 1);
  }

  lemma CrawlShorter(tables: seq<seq<Row>>, limit: int, keep: Row -> bool, pages: seq<seq<Row>>)
    requires Crawl(tables, limit, keep, pages) && |pages| > 1
    ensures Crawl(tables[..|pages| - 1], limit, keep, pages[..|pages| - 1])
  {
    hide EventsPage;
    hide Ascending;
    var m := |pages| - 1;
    var ts, ps := tables[..m], pages[..m];
    assert forall k :: 0 <= k < m ==> ts[k] == tables[k] && ps[k] == pages[k];
    forall k | 0 <= k < m
      ensures ps[k] == EventsPage(ts[k], limit, keep, Cursor(ps, k))
    {
      assert Cursor(ps, k) == Cursor(pages, k);
    }
  }

  lemma NewerThan(rows: seq<Row>, more: seq<Row>, r: Row)
    requires Ascending(rows + more) && r in rows
    ensures forall x :: x in more ==> x.id >= r.id
  {
    var i :| 0 <= i < |rows| && rows[i] == r;
    forall x | x in more ensures x.id >= r.id {
      var j :| 0 <= j < |more| && more[j] == x;
      assert (rows + more)[i] == r && (rows + more)[|rows| + j] == x;
    }
  }

  /**
   * Following the pages until one is empty: the client ends up with exactly the rows that matched at its
   * first request, each once, newest first, whatever was inserted in between; this takes at most one
   * request more than there are matching rows. The one exception is a page size of 0, which stops at once.
   */
  lemma PagesAreCompleteIff(tables: seq<seq<Row>>, limit: int, keep: Row -> bool, pages: seq<seq<Row>>)
    requires Crawl(tables, Capped(limit), keep, pages) && pages != [] && pages[|pages| - 1] == []
    ensures var n := Newest(tables[0], keep, None);
            && (Concat(pages) == n <==> limit != 0 || n == [])
            && |pages| <= |n| + 1
            && (forall i, j :: 0 <= i < j < |n| ==> n[i].id > n[j].id)
            && (forall r :: r in n <==> r in tables[0] && keep(r))
  {
    CrawlIsPrefix(tables, Capped(limit), keep, pages);
    NewestIsDescending(tables[0], keep, None);
    hide Newest;
    if limit == 0 {
      ZeroStops(tables, keep, pages);
    }
  }

  lemma ZeroStops(tables: seq<seq<Row>>, keep: Row -> bool, pages: seq<seq<Row>>)
    requires Crawl(tables, 0, keep, pages) && pages != []
    ensures pages == [[]] && Concat(pages) == []
  {
    assert Cursor(pages, 0) == None;
    assert pages[0] == [];
    assert |pages| == 1;
    assert pages[..0] == [];
  }

  /**
   * A client that has not come to an empty page yet is not stuck: it has had fewer pages than there are
   * matching rows left to see.
   */
  lemma CrawlIsBounded(tables: seq<seq<Row>>, limit: int, keep: Row -> bool, pages: seq<seq<Row>>)
    requires Crawl(tables, Capped(limit), keep, pages) && pages != [] && pages[|pages| - 1] != []
    ensures |pages| <= |Newest(tables[0], keep, None)|
  {
    CrawlIsPrefix(tables, Capped(limit), keep, pages);
  }

  // ---------------------------------------------------------------- the object

  class Store {
    var rows: seq<Row>
    var nextId: nat
    var indexed: bool

    ghost function State(): Table
      reads this
    {
      Table(rows, nextId)
    }

    ghost function Content(): Database
      reads this
    {
      Database(State(), indexed)
    }

    /** Connecting alone changes nothing. */
    constructor (db: Database)
      ensures Content() == db
    {
      rows, nextId, indexed := db.table.rows, db.table.nextId, db.indexed;
    }

    /** Opening a database migrates it; None is the error raised when a key to be filled in is taken. */
    static method Open(db: Database) returns (store: Option<Store>)
      ensures store.Some? <==> Opened(db).Some?
      ensures store.Some? ==> fresh(store.value) && Some(store.value.Content()) == Opened(db)
    {
      var s := new Store(db);
      var ok := s.Migrate();
      if !ok { return None; }
      return Some(s);
    }

    /** Without the index duplicates are deleted; under it a key that is taken aborts, and all is as before. */
    method Migrate() returns (ok: bool)
      modifies this`rows, this`indexed
      ensures ok <==> Opened(old(Content())).Some?
      ensures Content() == if ok then Opened(old(Content())).value else old(Content())
    {
      hide UniqueKeys;
      hide Backfill;
      hide HasKey;
      var filled: seq<Row> := [];
      for i := 0 to |rows|
        invariant filled == Backfilled(rows)[..i]
      {
        filled := filled + [Backfill(rows[i])];
      }
      assert filled == Backfilled(rows);
      if indexed && !UniqueKeys(filled) { return false; }
      rows := DropDuplicates(filled);
      indexed := true;
      return true;
    }

    method DropDuplicates(filled: seq<Row>) returns (kept: seq<Row>)
      ensures kept == FirstPerKey(filled)
    {
      hide HasKey;
      kept := [];
      for i := 0 to |filled|
        invariant kept == FirstPerKey(filled[..i])
      {
        assert filled[..i + 1][..i] == filled[..i];
        if !HasKey(filled[..i], filled[i].key) {
          kept := kept + [filled[i]];
        }
      }
      assert filled[..|filled|] == filled;
    }

    /** The new row's id, or None for a duplicate. */
    method InsertEvent(e: Event) returns (id: Option<nat>)
      modifies this`rows, this`nextId
      ensures State() == Inserted(old(State()), e)
      ensures id == if HasKey(old(rows), LiveKey(e)) then None else Some(old(nextId))
    {
      var key, id0 := LiveKey(e), nextId;
      nextId := nextId + 1;
      if HasKey(rows, key) { return None; }
      rows := rows + [Row(id0, e, key)];
      return Some(id0);
    }

    method PersistEvent(e: Event) returns (id: Option<nat>)
      modifies this`rows, this`nextId
      ensures State() == Persisted(old(State()), e)
      ensures id.Some? <==> rows != old(rows)
    {
      if KindOf(e) in DROP_KINDS { return None; }
      id := InsertEvent(e);
    }

    method Page(limit: int, keep: Row -> bool, before: Option<nat>) returns (page: seq<Row>)
      ensures page == EventsPage(rows, limit, keep, before)
    {
      hide Newest;
      hide Matches;
      page := [];
      var i: nat := |rows|;
      assert rows[..i] == rows;
      while i > 0
        invariant i <= |rows|
        invariant page + Newest(rows[..i], keep, before) == Newest(rows, keep, before)
      {
        i := i - 1;
        NewestMoves(rows, i, page, keep, before);
        if Matches(rows[i], keep, before) { page := page + [rows[i]]; }
      }
      NewestMoves(rows, 0, page, keep, before);
      if 0 <= limit < |page| { page := page[..limit]; }
    }
  }
}
