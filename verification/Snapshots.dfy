/** The snapshot of an application: its maps as lists. Decoding refuses repeated entries, stamps entries of the older
    schema with the vault clock, and gives back exactly the application that was encoded. */
module Snapshots {
  import opened Types
  import opened Policy
  import opened Ledger
  import opened Validator
  import opened Runs

  datatype Snapshot = Snapshot(schema: nat, generation: U64, tasks: seq<Task>, records: seq<Record>, grants: seq<(Uuid, Grant)>,
                               requests: seq<(RequestKey, Remembered)>, revokedTasks: seq<Uuid>, deliveries: seq<(Uuid, Delivery)>,
                               audit: seq<AuditEvent>, lastTime: Option<Time>, clockFrozen: bool, baselines: seq<(Uuid, Baseline)>,
                               predecessor: Option<Digest>)

  // ----- lists of entries -----

  predicate Distinct<K(==), V>(entries: seq<(K, V)>)
  {
    forall i, j | 0 <= i < j < |entries| :: entries[i].0 != entries[j].0
  }

  /** The list holds exactly the entries of the map. */
  ghost predicate Lists<K, V>(entries: seq<(K, V)>, m: map<K, V>)
  {
    && (forall i | 0 <= i < |entries| :: entries[i].0 in m && m[entries[i].0] == entries[i].1)
    && (forall k | k in m :: HasKey(entries, k))
  }

  ghost predicate HasKey<K, V>(entries: seq<(K, V)>, k: K) { exists i :: 0 <= i < |entries| && entries[i].0 == k }

  lemma ListsOne<K, V>(entries: seq<(K, V)>, m: map<K, V>, n: map<K, V>)
    requires Lists(entries, m) && Lists(entries, n)
    ensures m == n
  {
    forall k ensures k in m <==> k in n {
      if k in m { var i :| 0 <= i < |entries| && entries[i].0 == k; }
      if k in n { var i :| 0 <= i < |entries| && entries[i].0 == k; }
    }
    forall k | k in m ensures m[k] == n[k] {
      var i :| 0 <= i < |entries| && entries[i].0 == k;
    }
  }

  lemma ListsMore<K, V>(entries: seq<(K, V)>, m: map<K, V>, k: K, v: V)
    requires Lists(entries, m) && k !in m
    ensures Lists(entries + [(k, v)], m[k := v])
  {
    var more := entries + [(k, v)];
    forall j | j in m[k := v] ensures HasKey(more, j) {
      if j == k {
        assert more[|entries|].0 == k;
      } else {
        var i :| 0 <= i < |entries| && entries[i].0 == j;
        assert more[i].0 == j;
      }
    }
  }

  method ListOf<K(==), V>(m: map<K, V>) returns (entries: seq<(K, V)>)
    ensures Lists(entries, m) && Distinct(entries)
  {
    entries := [];
    var done: map<K, V> := map[];
    var todo := m.Keys;
    while todo != {}
      invariant todo <= m.Keys && Lists(entries, done) && Distinct(entries)
      invariant forall k :: k in done <==> k in m && k !in todo
      invariant forall k | k in done :: done[k] == m[k]
      decreases |todo|
    {
      var k :| k in todo;
      ListsMore(entries, done, k, m[k]);
      entries, done := entries + [(k, m[k])], done[k := m[k]];
      todo := todo - {k};
    }
    assert done == m;
  }

  /** Inserts the entries one by one and refuses a repeated key. */
  method Fill<K(==), V>(entries: seq<(K, V)>) returns (m: Option<map<K, V>>)
    ensures m.Some? <==> Distinct(entries)
    ensures m.Some? ==> Lists(entries, m.value)
  {
    var found: map<K, V> := map[];
    for i := 0 to |entries|
      invariant Distinct(entries[..i]) && Lists(entries[..i], found)
    {
      var (k, v) := entries[i];
      if k in found {
        assert HasKey(entries[..i], k);
        return None;
      }
      ListsMore(entries[..i], found, k, v);
      assert entries[..i + 1] == entries[..i] + [(k, v)];
      found := found[k := v];
    }
    assert entries[..|entries|] == entries;
    m := Some(found);
  }

  // ----- what a snapshot represents -----

  function Keyed(tasks: seq<Task>): seq<(Uuid, Task)> { seq(|tasks|, i requires 0 <= i < |tasks| => (tasks[i].id, tasks[i])) }

  function KeyedRecords(records: seq<Record>): seq<(Uuid, Record)> { seq(|records|, i requires 0 <= i < |records| => (records[i].id, records[i])) }

  function Marks(ids: seq<Uuid>): seq<(Uuid, ())> { seq(|ids|, i requires 0 <= i < |ids| => (ids[i], ())) }

  function Marked(ids: set<Uuid>): map<Uuid, ()> { map id | id in ids :: () }

  ghost predicate Represents(s: Snapshot, app: App)
  {
    && Lists(Keyed(s.tasks), app.tasks) && Lists(KeyedRecords(s.records), app.records) && Lists(s.grants, app.grants)
    && Lists(s.requests, app.requests) && Lists(Marks(s.revokedTasks), Marked(app.revokedTasks)) && Lists(s.deliveries, app.deliveries)
    && Lists(s.baselines, app.baselines) && s.audit == app.audit && s.lastTime == app.lastTime && s.clockFrozen == app.clockFrozen
    && s.generation == app.generation && s.predecessor == app.predecessor
  }

  ghost predicate NoRepeats(s: Snapshot)
  {
    && Distinct(Keyed(s.tasks)) && Distinct(KeyedRecords(s.records)) && Distinct(s.grants) && Distinct(s.requests)
    && Distinct(Marks(s.revokedTasks)) && Distinct(s.deliveries) && Distinct(s.baselines)
  }

  // ----- stamping -----

  function Stamp(at: Option<Time>, last: Option<Time>): Option<Time> { if at.None? then last else at }

  function StampedRequests(m: map<RequestKey, Remembered>, last: Option<Time>): map<RequestKey, Remembered>
  {
    map k | k in m :: m[k].(at := Stamp(m[k].at, last))
  }

  function StampedDeliveries(m: map<Uuid, Delivery>, last: Option<Time>): map<Uuid, Delivery>
  {
    map d | d in m :: m[d].(at := Stamp(m[d].at, last))
  }

  function Stamped(app: App): App
  {
    app.(requests := StampedRequests(app.requests, app.lastTime), deliveries := StampedDeliveries(app.deliveries, app.lastTime))
  }

  /** Stamping changes nothing exactly when every entry carries a time, or there is none to give. */
  lemma StampedExactly(app: App)
    ensures Stamped(app) == app <==> AllStamped(app) || app.lastTime.None?
  {
    if Stamped(app) == app && app.lastTime.Some? {
      forall k | k in app.requests ensures app.requests[k].at.Some? { assert Stamped(app).requests[k] == app.requests[k]; }
      forall d | d in app.deliveries ensures app.deliveries[d].at.Some? { assert Stamped(app).deliveries[d] == app.deliveries[d]; }
    }
    if AllStamped(app) || app.lastTime.None? {
      assert Stamped(app).requests == app.requests;
      assert Stamped(app).deliveries == app.deliveries;
    }
  }

  // ----- encoding -----

  function Seconds<K, V>(entries: seq<(K, V)>): seq<V> { seq(|entries|, i requires 0 <= i < |entries| => entries[i].1) }

  function Firsts<K, V>(entries: seq<(K, V)>): seq<K> { seq(|entries|, i requires 0 <= i < |entries| => entries[i].0) }

  lemma TasksKeyed(entries: seq<(Uuid, Task)>, tasks: map<Uuid, Task>)
    requires Lists(entries, tasks) && forall id | id in tasks :: tasks[id].id == id
    ensures Keyed(Seconds(entries)) == entries
  {}

  lemma RecordsKeyed(entries: seq<(Uuid, Record)>, records: map<Uuid, Record>)
    requires Lists(entries, records) && forall id | id in records :: records[id].id == id
    ensures KeyedRecords(Seconds(entries)) == entries
  {}

  lemma IdsKeyed(entries: seq<(Uuid, ())>)
    ensures Marks(Firsts(entries)) == entries
  {
    forall i | 0 <= i < |entries| ensures Marks(Firsts(entries))[i] == entries[i] { assert entries[i].1 == (); }
  }

  lemma OwnIds(app: App)
    requires Valid(app)
    ensures (forall id | id in app.tasks :: app.tasks[id].id == id) && forall id | id in app.records :: app.records[id].id == id
  {
    ValidIs(app);
    forall id | id in app.records ensures app.records[id].id == id { assert RecordOk(app.tasks[app.records[id].task], id, app.records[id]); }
  }

  method Encode(app: App) returns (s: Option<Snapshot>)
    ensures s.Some? <==> Valid(app)
    ensures s.Some? ==> Represents(s.value, app) && NoRepeats(s.value) && s.value.schema == 3
  {
    var valid := Validate(app);
    if !valid { return None; }
    OwnIds(app);
    hide Lists, Distinct;
    var tasks := ListOf(app.tasks);
    TasksKeyed(tasks, app.tasks);
    var records := ListOf(app.records);
    RecordsKeyed(records, app.records);
    var grants := ListOf(app.grants);
    var requests := ListOf(app.requests);
    var revoked := ListOf(Marked(app.revokedTasks));
    IdsKeyed(revoked);
    var deliveries := ListOf(app.deliveries);
    var baselines := ListOf(app.baselines);
    s := Some(Snapshot(3, app.generation, Seconds(tasks), Seconds(records), grants, requests, Firsts(revoked), deliveries,
                       app.audit, app.lastTime, app.clockFrozen, baselines, app.predecessor));
  }

  // ----- decoding -----

  /** The maps of a snapshot without repeated entries, before stamping. */
  method Unlist(s: Snapshot) returns (r: Option<App>)
    ensures r.Some? <==> NoRepeats(s)
    ensures r.Some? ==> Represents(s, r.value)
  {
    hide Lists, Distinct, Keyed, KeyedRecords, Marks;
    var tasks := Fill(Keyed(s.tasks));
    var records := Fill(KeyedRecords(s.records));
    var grants := Fill(s.grants);
    var requests := Fill(s.requests);
    var revoked := Fill(Marks(s.revokedTasks));
    var deliveries := Fill(s.deliveries);
    var baselines := Fill(s.baselines);
    if tasks.None? || records.None? || grants.None? || requests.None? || revoked.None? || deliveries.None? || baselines.None? { return None; }
    MarkedKeys(revoked.value);
    r := Some(App(tasks.value, records.value, grants.value, requests.value, s.audit, s.lastTime, s.clockFrozen, s.generation,
                  revoked.value.Keys, deliveries.value, baselines.value, s.predecessor));
  }

  lemma MarkedKeys(m: map<Uuid, ()>)
    ensures Marked(m.Keys) == m
  {
    forall id | id in m ensures Marked(m.Keys)[id] == m[id] { assert m[id] == (); }
  }

  lemma MarkedOne(a: set<Uuid>, b: set<Uuid>)
    requires Marked(a) == Marked(b)
    ensures a == b
  {
    assert Marked(a).Keys == a && Marked(b).Keys == b;
  }

  /** A snapshot represents at most one application. */
  lemma RepresentsOne(s: Snapshot, a: App, b: App)
    requires Represents(s, a) && Represents(s, b)
    ensures a == b
  {
    hide Lists;
    ListsOne(Keyed(s.tasks), a.tasks, b.tasks);
    ListsOne(KeyedRecords(s.records), a.records, b.records);
    ListsOne(s.grants, a.grants, b.grants);
    ListsOne(s.requests, a.requests, b.requests);
    ListsOne(Marks(s.revokedTasks), Marked(a.revokedTasks), Marked(b.revokedTasks));
    MarkedOne(a.revokedTasks, b.revokedTasks);
    ListsOne(s.deliveries, a.deliveries, b.deliveries);
    ListsOne(s.baselines, a.baselines, b.baselines);
  }

  predicate SchemaOk(s: Snapshot)
  {
    && (s.schema == 2 || s.schema == 3) && s.generation != 0 && |s.tasks| <= LIMIT && |s.records| <= LIMIT && |s.grants| <= LIMIT && |s.requests| <= LIMIT
    && |s.revokedTasks| <= LIMIT && |s.deliveries| <= LIMIT && |s.audit| <= LIMIT && |s.baselines| <= LIMIT
  }

  /** Decoding gives the represented application, stamped, exactly when the snapshot has no repeated entry and that
      application satisfies the ledger invariant. */
  method Decode(s: Snapshot) returns (r: Result<App>)
    ensures !SchemaOk(s) || !NoRepeats(s) ==> r == Err(InvalidStorage)
    ensures forall app: App | Represents(s, app) && SchemaOk(s) && NoRepeats(s) ::
      r == if Valid(Stamped(app)) then Ok(Stamped(app)) else Err(InvalidStorage)
  {
    hide Represents, NoRepeats;
    if !SchemaOk(s) { return Err(InvalidStorage); }
    var found := Unlist(s);
    if found.None? { return Err(InvalidStorage); }
    forall app: App | Represents(s, app) ensures app == found.value { RepresentsOne(s, app, found.value); }
    var app := Stamped(found.value);
    var valid := Validate(app);
    r := if valid then Ok(app) else Err(InvalidStorage);
  }

  lemma EncodedSchema(s: Snapshot, app: App)
    requires Valid(app) && Represents(s, app) && NoRepeats(s) && s.schema == 3
    ensures SchemaOk(s)
  {
    ValidIs(app);
    EncodedSizes(s, app);
  }

  lemma {:induction false} ListedSize<K, V>(entries: seq<(K, V)>, m: map<K, V>)
    requires Lists(entries, m) && Distinct(entries)
    ensures |entries| == |m|
    decreases |entries|
  {
    if entries == [] {
      assert forall k | k in m :: HasKey(entries, k);
      assert m.Keys == {};
    } else {
      var n := |entries| - 1;
      var rest := entries[..n];
      var less := m - {entries[n].0};
      forall k | k in less ensures HasKey(rest, k) {
        var i :| 0 <= i < |entries| && entries[i].0 == k;
        assert rest[i].0 == k;
      }
      ListedSize(rest, less);
      assert less.Keys == m.Keys - {entries[n].0};
      assert |m.Keys| == |less.Keys| + 1;
    }
  }

  lemma EncodedSizes(s: Snapshot, app: App)
    requires Valid(app) && Represents(s, app) && NoRepeats(s)
    ensures |s.tasks| == |app.tasks| && |s.records| == |app.records| && |s.grants| == |app.grants| && |s.requests| == |app.requests|
    ensures |s.revokedTasks| == |app.revokedTasks| && |s.deliveries| == |app.deliveries| && |s.baselines| == |app.baselines|
  {
    hide Lists, Distinct;
    ListedSize(Keyed(s.tasks), app.tasks);
    ListedSize(KeyedRecords(s.records), app.records);
    ListedSize(s.grants, app.grants);
    ListedSize(s.requests, app.requests);
    ListedSize(Marks(s.revokedTasks), Marked(app.revokedTasks));
    assert Marked(app.revokedTasks).Keys == app.revokedTasks;
    ListedSize(s.deliveries, app.deliveries);
    ListedSize(s.baselines, app.baselines);
  }

  /** Encoding and decoding a valid application gives it back exactly when nothing needs a stamp. */
  method Reload(app: App) returns (r: Result<App>)
    requires Valid(app)
    ensures r == Ok(app) <==> AllStamped(app) || app.lastTime.None?
  {
    hide Represents, NoRepeats, SchemaOk, Stamped, AllStamped;
    var s := Encode(app);
    EncodedSchema(s.value, app);
    StampedExactly(app);
    r := Decode(s.value);
  }

  /** What an opened snapshot holds is stamped, unless it has no clock. */
  lemma OpenedIsStamped(app: App)
    requires app.lastTime.Some?
    ensures AllStamped(Stamped(app))
  {}

  /** A run of a vault that was new, or opened with a clock: reading back any of its states changes nothing, so an image may be
      taken for the application it encrypts. */
  lemma EveryStateReloads(states: seq<App>, events: seq<Event>, j: nat, app: App)
    requires Run(states, events) && j < |states|
    requires states[0] == EMPTY.(generation := 1) || (states[0] == Stamped(app) && app.lastTime.Some?)
    ensures AllStamped(states[j]) && Stamped(states[j]) == states[j]
  {
    if states[0] != EMPTY.(generation := 1) { OpenedIsStamped(app); }
    hide Runs.Step, Runs.Run, Stamped;
    RunKeepsStamps(states, events, j);
    StampedExactly(states[j]);
  }
}
