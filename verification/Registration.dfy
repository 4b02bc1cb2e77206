/** Registration happens at most once per record: over every run of any number of vaults copied from one another,
    mixing operations, restarts, crashes, recoveries, re-keyings, backups and restores. */
module Registration {
  import opened Types
  import opened Policy
  import opened Ledger
  import opened Compaction
  import opened CompactionLedger
  import opened CompactionPolicy
  import opened Preservation
  import opened Operations
  import opened Mutations
  import opened Workflow
  import opened Settlement
  import opened Commands
  import opened Transition
  import opened Runs

  // ----- which steps keep the dispatch mark -----

  /** Every attempt keeps its record, action and dispatch mark, except the given one. */
  ghost predicate KeepsMarks(m: App, n: App, except: Option<Uuid>)
  {
    && (forall d | d in m.deliveries && Some(d) != except ::
          d in n.deliveries && n.deliveries[d] == m.deliveries[d].(status := n.deliveries[d].status))
    && n.baselines == m.baselines
  }

  function Cancels(c: Command): Option<Uuid> { if c.CCancel? then Some(c.attempt) else None }

  lemma ClockMarks(app: App, now: Time)
    ensures Clock(app, now).app.deliveries == app.deliveries && Clock(app, now).app.baselines == app.baselines
  {}

  lemma SameMarks(m: App, n: App, except: Option<Uuid>)
    requires n.deliveries == m.deliveries && n.baselines == m.baselines
    ensures KeepsMarks(m, n, except)
  {}

  lemma MutateMarks(app: App, ctx: Context, task: Uuid, request: Uuid, op: Mutation, now: Time, draw: Draw)
    requires TasksOk(app.tasks)
    ensures var n := Mutate(app, ctx, task, request, op, now, draw).app; n.deliveries == app.deliveries && n.baselines == app.baselines
  {
    ClockMarks(app, now);
    MutateShape(app, ctx, task, request, op, now, draw);
    var o, c := Mutate(app, ctx, task, request, op, now, draw), Clock(app, now);
    if KeyOf(ctx, task, request) !in app.requests && o.result.Ok? {
      BookedRest(c.app, ctx, c.app.tasks[task], task, request, op, c.result.value, draw);
    }
  }

  lemma ReadMarks(app: App, ctx: Context, task: Uuid, record: Uuid, fields: set<Field>, secret: bool, now: Time)
    ensures var n := Read(app, ctx, task, record, fields, secret, now).app; n.deliveries == app.deliveries && n.baselines == app.baselines
  {
    ClockMarks(app, now);
    ReadShape(app, ctx, task, record, fields, secret, now);
  }

  lemma InsertMarks(c: App, attempt: Uuid, d: Delivery)
    requires d.record in c.records && attempt !in c.deliveries
    ensures KeepsMarks(c, InsertAttempt(c, attempt, d), None)
  {}

  lemma IntentMarks(app: App, ctx: Context, task: Uuid, use: PrivateUse, now: Time, attempt: Uuid)
    requires attempt !in app.deliveries
    ensures KeepsMarks(app, Intent(app, ctx, task, use, now, attempt).app, None)
  {
    ClockMarks(app, now);
    IntentShape(app, ctx, task, use, now, attempt);
    var o, c := Intent(app, ctx, task, use, now, attempt), Clock(app, now);
    if o.result == Ok(None) {
      InsertMarks(c.app, attempt, NewAttempt(task, use, c.app.records[use.record].secretVersion, KeyOf(ctx, task, use.request), c.result.value));
    }
  }

  lemma SettleMarks(app: App, c: Command)
    requires WellDrawn(app, c) && (c.CCancel? || c.CFinish?) && app.deliveries[c.attempt].record in app.records
    ensures KeepsMarks(app, Staged(app, c), Cancels(c))
  {
    if c.CCancel? { CancelShape(app, c.attempt); } else { FinishShape(app, c.ctx, c.task, c.attempt, c.status, c.at); }
  }

  lemma ApprovalMarks(app: App, c: Command)
    requires c.CApprove? || c.CRevokeTask?
    ensures Staged(app, c).deliveries == app.deliveries && Staged(app, c).baselines == app.baselines
  {
    ClockMarks(app, c.now);
  }

  lemma CommandMarks(app: App, c: Command)
    requires Sound(app) && WellDrawn(app, c)
    ensures KeepsMarks(app, Staged(app, c), Cancels(c))
  {
    if c.CIntent? {
      IntentMarks(app, c.ctx, c.task, c.use, c.now, c.attempt);
    } else if Settles(c) {
      UnfinishedIsDispatched(app, c.attempt);
      SettleMarks(app, c);
    } else {
      SoundTasks(app);
      RequestMarks(app, c);
      SameMarks(app, Staged(app, c), Cancels(c));
    }
  }

  lemma RequestMarks(app: App, c: Command)
    requires TasksOk(app.tasks) && !Settles(c)
    ensures Staged(app, c).deliveries == app.deliveries && Staged(app, c).baselines == app.baselines
  {
    if c.CMutate? {
      MutateMarks(app, c.ctx, c.task, c.request, c.op, c.now, c.draw);
    } else if c.CRead? {
      ReadMarks(app, c.ctx, c.task, c.record, c.fields, c.secret, c.now);
    } else {
      ApprovalMarks(app, c);
    }
  }

  // ----- the guard of one record over one step -----

  /** The step cancels a registration of the record. */
  ghost predicate CancelsRegistration(a: App, e: Event, id: Uuid)
  {
    e.Op? && e.c.CCancel? && e.c.attempt in a.deliveries && a.deliveries[e.c.attempt].record == id && a.deliveries[e.c.attempt].action == Register
  }

  lemma MarksKeepGuard(m: App, n: App, except: Option<Uuid>, id: Uuid)
    requires KeepsMarks(m, n, except) && RegistrationSealed(m, id)
    requires except.Some? ==> except.value in m.deliveries && !(m.deliveries[except.value].record == id && m.deliveries[except.value].action == Register)
    ensures RegistrationSealed(n, id)
  {
    if !(id in m.baselines && m.baselines[id].registrationDispatched) {
      var d :| d in m.deliveries && m.deliveries[d].record == id && m.deliveries[d].action == Register && m.deliveries[d].dispatched;
      assert d in n.deliveries;
    }
  }

  lemma PruningKeepsGuard(a: App, id: Uuid)
    requires BaselinesOk(a) && id in MaybeCompact(a).records
    ensures RegistrationSealed(MaybeCompact(a), id) <==> RegistrationSealed(a, id)
  {
    if ShouldCompact(a) { RegistrationGuardUnchanged(a, id); }
  }

  lemma OpRecordWasThere(mid: App, n: App, c: Command, id: Uuid)
    requires AddsOnly(mid, n, c) && id in n.records && !Draws(Op(c), id)
    ensures id in mid.records
  {}

  lemma PrunedAttemptKept(a: App, attempt: Uuid)
    requires attempt in MaybeCompact(a).deliveries
    ensures attempt in a.deliveries && MaybeCompact(a).deliveries[attempt] == a.deliveries[attempt]
  {}

  lemma OpKeepsGuard(a: App, c: Command, b: App, id: Uuid)
    requires Sound(a) && Step(a, Op(c), b) && id in b.records && !Draws(Op(c), id) && RegistrationSealed(a, id)
    requires !CancelsRegistration(a, Op(c), id)
    ensures RegistrationSealed(b, id)
  {
    GuardAfterPruning(a, c, b, id);
    StepMarks(a, c, b, MaybeCompact(a));
    UncancelledKeepsGuard(a, c, b, id, MaybeCompact(a));
  }

  lemma UncancelledKeepsGuard(a: App, c: Command, b: App, id: Uuid, mid: App)
    requires Sound(mid) && WellDrawn(mid, c) && RegistrationSealed(mid, id) && mid == MaybeCompact(a) && !CancelsRegistration(a, Op(c), id)
    requires b.deliveries == Staged(mid, c).deliveries && b.baselines == Staged(mid, c).baselines
    ensures RegistrationSealed(b, id)
  {
    CancelledOther(a, mid, c, id);
    PrunedKeepsGuard(mid, c, b, id);
  }

  lemma StepMarks(a: App, c: Command, b: App, mid: App)
    requires Step(a, Op(c), b) && mid == MaybeCompact(a)
    ensures b.deliveries == Staged(mid, c).deliveries && b.baselines == Staged(mid, c).baselines
  {}

  lemma PrunedKeepsGuard(mid: App, c: Command, b: App, id: Uuid)
    requires Sound(mid) && WellDrawn(mid, c) && RegistrationSealed(mid, id)
    requires c.CCancel? ==> c.attempt in mid.deliveries && !(mid.deliveries[c.attempt].record == id && mid.deliveries[c.attempt].action == Register)
    requires b.deliveries == Staged(mid, c).deliveries && b.baselines == Staged(mid, c).baselines
    ensures RegistrationSealed(b, id)
  {
    CommandMarks(mid, c);
    var n, except := Staged(mid, c), Cancels(c);
    StagedKeepsGuard(mid, n, b, except, id);
  }

  lemma CancelledOther(a: App, mid: App, c: Command, id: Uuid)
    requires WellDrawn(mid, c) && mid == MaybeCompact(a) && !CancelsRegistration(a, Op(c), id)
    ensures c.CCancel? ==> c.attempt in mid.deliveries && !(mid.deliveries[c.attempt].record == id && mid.deliveries[c.attempt].action == Register)
  {
    if c.CCancel? { PrunedAttemptKept(a, c.attempt); }
  }

  lemma GuardAfterPruning(a: App, c: Command, b: App, id: Uuid)
    requires Sound(a) && Step(a, Op(c), b) && id in b.records && !Draws(Op(c), id) && RegistrationSealed(a, id)
    ensures Sound(MaybeCompact(a)) && WellDrawn(MaybeCompact(a), c) && RegistrationSealed(MaybeCompact(a), id)
  {
    var mid := MaybeCompact(a);
    StepOfOp(a, c, b);
    StagedFacts(a, c);
    SoundReferences(a);
    StepRecords(a, c, b);
    OpRecordWasThere(mid, Staged(mid, c), c, id);
    PruningKeepsGuard(a, id);
  }

  lemma StagedKeepsGuard(mid: App, n: App, b: App, except: Option<Uuid>, id: Uuid)
    requires KeepsMarks(mid, n, except) && RegistrationSealed(mid, id) && n.deliveries == b.deliveries && n.baselines == b.baselines
    requires except.Some? ==> except.value in mid.deliveries && !(mid.deliveries[except.value].record == id && mid.deliveries[except.value].action == Register)
    ensures RegistrationSealed(b, id)
  {
    MarksKeepGuard(mid, n, except, id);
    GuardOfSame(n, b, id);
  }

  lemma StepRecords(a: App, c: Command, b: App)
    requires Step(a, Op(c), b)
    ensures b.records == Staged(MaybeCompact(a), c).records && b.baselines == Staged(MaybeCompact(a), c).baselines
  {}

  lemma GuardOfSame(m: App, n: App, id: Uuid)
    requires n.deliveries == m.deliveries && n.baselines == m.baselines
    ensures RegistrationSealed(n, id) == RegistrationSealed(m, id)
  {}

  lemma SettledGuard(a: App, b: App, id: Uuid)
    requires b.deliveries == SettledDeliveries(a.deliveries) && b.baselines == a.baselines && RegistrationSealed(a, id)
    ensures RegistrationSealed(b, id)
  {
    assert KeepsMarks(a, b, None);
    MarksKeepGuard(a, b, None, id);
  }

  lemma OtherKeepsGuard(a: App, e: Event, b: App, id: Uuid)
    requires !e.Op? && Step(a, e, b) && RegistrationSealed(a, id)
    ensures RegistrationSealed(b, id)
  {
    match e
    case Tick(_, _) => GuardOfSame(a, b, id);
    case Recovered(now) => SanitizedIs(a, now); SettledGuard(a, b, id);
    case Rekey(_) => GuardOfSame(a, b, id);
  }

  /** The guard of a record that survives a step is lost only by cancelling a registration of that record. */
  lemma GuardKept(a: App, e: Event, b: App, id: Uuid)
    requires Sound(a) && Step(a, e, b) && id in b.records && !Draws(e, id) && RegistrationSealed(a, id) && !CancelsRegistration(a, e, id)
    ensures RegistrationSealed(b, id)
  {
    if e.Op? { OpKeepsGuard(a, e.c, b, id); } else { OtherKeepsGuard(a, e, b, id); }
  }

  // ----- many vaults -----

  /** An attempt whose intent is durable: `called` once its callback has been entered. */
  datatype Flight = Flight(attempt: Uuid, called: bool)

  /** The durable application of one directory and the private use in progress in its owner, if any. */
  datatype Vault = Vault(app: App, flight: Option<Flight>)

  /** `called` holds the records whose registration callback was ever entered, in any vault. */
  datatype World = World(vaults: seq<Vault>, called: set<Uuid>)

  datatype Move =
    | Plain(e: Event)                          // any step without a private use in progress
    | Begin(c: Command)                        // the intent is committed
    | Call(last: Option<Time>)                 // authority was checked again; the callback is entered
    | Abort(last: Option<Time>, frozen: bool)  // the second sample was taken, the handoff refused and the attempt cancelled
    | End(c: Command)                          // the outcome is committed
    | Crash(last: Option<Time>, frozen: bool)

  ghost predicate Stages(a: App, c: Command)
  {
    c.CIntent? && Intent(MaybeCompact(a), c.ctx, c.task, c.use, c.now, c.attempt).result == Ok(None)
  }

  function Ticked(a: App, last: Option<Time>, frozen: bool): App { a.(lastTime := last, clockFrozen := frozen) }

  ghost predicate Moves(v: Vault, m: Move, n: Vault)
  {
    match m
    case Plain(e) => v.flight.None? && n.flight.None? && Step(v.app, e, n.app) && (e.Op? ==> !e.c.CCancel? && !e.c.CFinish? && !Stages(v.app, e.c))
    case Begin(c) => v.flight.None? && Stages(v.app, c) && Step(v.app, Op(c), n.app) && n.flight == Some(Flight(c.attempt, false))
    case Call(last) => v.flight.Some? && !v.flight.value.called && Step(v.app, Tick(last, false), n.app)
                       && n.flight == Some(v.flight.value.(called := true))
    case Abort(last, frozen) => v.flight.Some? && !v.flight.value.called && Step(v.app, Tick(last, frozen), Ticked(v.app, last, frozen))
                                && Step(Ticked(v.app, last, frozen), Op(CCancel(v.flight.value.attempt)), n.app) && n.flight.None?
    case End(c) => v.flight.Some? && v.flight.value.called && c.CFinish? && c.attempt == v.flight.value.attempt
                   && Step(v.app, Op(c), n.app) && n.flight.None?
    case Crash(last, frozen) => Step(v.app, Tick(last, frozen), n.app) && n.flight.None?
  }

  /** The record whose registration callback the move enters. */
  ghost function Entered(v: Vault, m: Move): set<Uuid>
  {
    if m.Call? && v.flight.Some? && v.flight.value.attempt in v.app.deliveries && v.app.deliveries[v.flight.value.attempt].action == Register
    then {v.app.deliveries[v.flight.value.attempt].record} else {}
  }

  /** Identifiers of new records are new to the whole world. */
  ghost predicate NewToWorld(w: World, m: Move)
  {
    m.Plain? ==> forall id | Draws(m.e, id) :: id !in w.called && forall j | 0 <= j < |w.vaults| :: id !in w.vaults[j].app.records
  }

  datatype Happening =
    | At(i: nat, m: Move)
    | Restore(copy: App, admin: Context, now: Time)   // a backup of any sound application becomes a new vault

  ghost predicate Next(w: World, h: Happening, n: World)
  {
    match h
    case At(i, m) =>
      && i < |w.vaults| && |n.vaults| == |w.vaults| && Moves(w.vaults[i], m, n.vaults[i]) && NewToWorld(w, m)
      && (forall j | 0 <= j < |w.vaults| && j != i :: n.vaults[j] == w.vaults[j]) && n.called == w.called + Entered(w.vaults[i], m)
    case Restore(copy, admin, now) =>
      && Sound(copy) && PrepareRestored(copy, admin, now).Ok? && n.called == w.called
      && n.vaults == w.vaults + [Vault(PrepareRestored(copy, admin, now).value, None)]
  }

  // ----- the invariant -----

  predicate Registrable(app: App, id: Uuid) { id in app.records && !app.records[id].restored }

  ghost predicate GuardOk(app: App, called: set<Uuid>)
  {
    forall id | id in called && Registrable(app, id) :: RegistrationSealed(app, id)
  }

  /** A private use in progress has an unfinished attempt; a registration not yet entered was never entered before. */
  ghost predicate FlightOk(v: Vault, called: set<Uuid>)
  {
    v.flight.Some? ==>
      && Unfinished(v.app, v.flight.value.attempt)
      && var d := v.app.deliveries[v.flight.value.attempt];
         d.action == Register ==> d.dispatched && Registrable(v.app, d.record) && (!v.flight.value.called ==> d.record !in called)
  }

  ghost predicate VaultOk(v: Vault, called: set<Uuid>) { Sound(v.app) && GuardOk(v.app, called) && FlightOk(v, called) }

  /** A record is registrable in at most one vault: every copy is marked as restored. */
  ghost predicate Apart(vaults: seq<Vault>)
  {
    forall i, j, id | 0 <= i < |vaults| && 0 <= j < |vaults| && Registrable(vaults[i].app, id) && Registrable(vaults[j].app, id) :: i == j
  }

  ghost predicate WorldOk(w: World)
  {
    Apart(w.vaults) && forall i | 0 <= i < |w.vaults| :: VaultOk(w.vaults[i], w.called)
  }

  // ----- every move keeps it -----

  lemma RegistrableBack(a: App, e: Event, b: App, id: Uuid)
    requires Heirs(a, e, b) && Registrable(b, id) && !Draws(e, id)
    ensures Registrable(a, id)
  {
    assert RecordHeir(a, b, id);
  }

  lemma GuardStep(a: App, e: Event, b: App, called: set<Uuid>)
    requires Sound(a) && Step(a, e, b) && GuardOk(a, called)
    requires forall id | id in called :: !Draws(e, id) && !CancelsRegistration(a, e, id)
    ensures GuardOk(b, called)
  {
    StepHeirs(a, e, b);
    forall id | id in called && Registrable(b, id) ensures RegistrationSealed(b, id) {
      RegistrableBack(a, e, b, id);
      GuardKept(a, e, b, id);
    }
  }

  lemma StagedAttempt(mid: App, c: Command, n: App)
    requires c.CIntent? && n == Intent(mid, c.ctx, c.task, c.use, c.now, c.attempt).app
    requires Intent(mid, c.ctx, c.task, c.use, c.now, c.attempt).result == Ok(None)
    ensures c.attempt in n.deliveries && Unfinished(n, c.attempt)
    ensures var d := n.deliveries[c.attempt]; d.dispatched && d.action == c.use.action && d.record == c.use.record
    ensures c.use.action == Register ==> Registrable(mid, c.use.record) && Registrable(n, c.use.record) && !RegistrationSealed(mid, c.use.record)
  {
    IntentShape(mid, c.ctx, c.task, c.use, c.now, c.attempt);
    ClockMarks(mid, c.now);
    GuardOfSame(mid, Clock(mid, c.now).app, c.use.record);
    assert Clock(mid, c.now).app.records == mid.records;
  }

  lemma StagedWasRegistrable(a: App, id: Uuid)
    requires Registrable(MaybeCompact(a), id)
    ensures Registrable(a, id)
  {}

  lemma BeginFlight(a: App, c: Command, b: App, called: set<Uuid>)
    requires Sound(a) && Stages(a, c) && Step(a, Op(c), b) && GuardOk(a, called)
    ensures FlightOk(Vault(b, Some(Flight(c.attempt, false))), called)
  {
    var mid := MaybeCompact(a);
    StagedAttempt(mid, c, Staged(mid, c));
    StepOfOp(a, c, b);
    StepRecords(a, c, b);
    if c.use.action == Register {
      StagedWasRegistrable(a, c.use.record);
      SoundReferences(a);
      PruningKeepsGuard(a, c.use.record);
    }
  }

  lemma EnteredIsSealed(v: Vault, called: set<Uuid>, id: Uuid)
    requires FlightOk(v, called) && v.flight.Some? && id in Entered(v, Call(None))
    ensures RegistrationSealed(v.app, id) && Registrable(v.app, id) && (!v.flight.value.called ==> id !in called)
  {}

  lemma CallKeeps(v: Vault, last: Option<Time>, n: Vault, called: set<Uuid>)
    requires VaultOk(v, called) && Moves(v, Call(last), n)
    ensures VaultOk(n, called + Entered(v, Call(last)))
  {
    StepKeepsSound(v.app, Tick(last, false), n.app);
    TickKeepsMarks(v.app, last, n.app);
    GuardStep(v.app, Tick(last, false), n.app, called);
    CalledGuard(v, last, n.app, called);
    CalledFlight(v, last, n, called);
  }

  lemma TickKeepsMarks(a: App, last: Option<Time>, b: App)
    requires Step(a, Tick(last, false), b)
    ensures b.deliveries == a.deliveries && b.baselines == a.baselines
  {}

  lemma CalledGuard(v: Vault, last: Option<Time>, b: App, called: set<Uuid>)
    requires FlightOk(v, called) && v.flight.Some? && GuardOk(b, called) && b.deliveries == v.app.deliveries && b.baselines == v.app.baselines
    ensures GuardOk(b, called + Entered(v, Call(last)))
  {
    forall id | id in Entered(v, Call(last)) ensures RegistrationSealed(b, id) {
      EnteredIsSealed(v, called, id);
      GuardOfSame(v.app, b, id);
    }
  }

  lemma CalledFlight(v: Vault, last: Option<Time>, n: Vault, called: set<Uuid>)
    requires FlightOk(v, called) && Moves(v, Call(last), n)
    ensures FlightOk(n, called + Entered(v, Call(last)))
  {}

  /** The application the move's own step starts from: an abort has sampled the clock. */
  function SampledBy(v: Vault, m: Move): App { if m.Abort? then Ticked(v.app, m.last, m.frozen) else v.app }

  lemma SampledIsSound(v: Vault, m: Move, n: Vault)
    requires Sound(v.app) && Moves(v, m, n)
    ensures Sound(SampledBy(v, m))
  {
    if m.Abort? { StepKeepsSound(v.app, Tick(m.last, m.frozen), SampledBy(v, m)); }
  }

  lemma SampledGuard(v: Vault, m: Move, called: set<Uuid>)
    requires GuardOk(v.app, called)
    ensures GuardOk(SampledBy(v, m), called)
  {
    forall id | id in called && Registrable(v.app, id) ensures RegistrationSealed(SampledBy(v, m), id) {
      GuardOfSame(v.app, SampledBy(v, m), id);
    }
  }

  lemma AbortKeeps(v: Vault, m: Move, n: Vault, called: set<Uuid>)
    requires VaultOk(v, called) && m.Abort? && Moves(v, m, n)
    ensures VaultOk(n, called)
  {
    var e := Op(CCancel(v.flight.value.attempt));
    SampledIsSound(v, m, n);
    SampledGuard(v, m, called);
    StepKeepsSound(SampledBy(v, m), e, n.app);
    GuardStep(SampledBy(v, m), e, n.app, called);
  }

  /** The moves without a guard to lose: everything but entering and aborting. */
  lemma OtherMoveKeeps(v: Vault, m: Move, e: Event, n: Vault, called: set<Uuid>)
    requires VaultOk(v, called) && Step(v.app, e, n.app) && (forall id | id in called :: !Draws(e, id)) && !(e.Op? && e.c.CCancel?)
    requires n.flight.Some? ==> m.Begin? && e == Op(m.c) && Stages(v.app, m.c) && n.flight == Some(Flight(m.c.attempt, false))
    ensures VaultOk(n, called)
  {
    StepKeepsSound(v.app, e, n.app);
    GuardStep(v.app, e, n.app, called);
    if n.flight.Some? { BeginFlight(v.app, m.c, n.app, called); }
  }

  function EventOfMove(v: Vault, m: Move): Event
  {
    match m
    case Plain(e) => e
    case Begin(c) => Op(c)
    case Call(last) => Tick(last, false)
    case Abort(last, frozen) => if v.flight.Some? then Op(CCancel(v.flight.value.attempt)) else Tick(last, frozen)
    case End(c) => Op(c)
    case Crash(last, frozen) => Tick(last, frozen)
  }

  lemma MoveIsStep(v: Vault, m: Move, n: Vault)
    requires Moves(v, m, n)
    ensures Step(SampledBy(v, m), EventOfMove(v, m), n.app)
  {}

  lemma MoveKeeps(v: Vault, m: Move, n: Vault, called: set<Uuid>)
    requires VaultOk(v, called) && Moves(v, m, n) && forall id | id in called :: !Draws(EventOfMove(v, m), id)
    ensures VaultOk(n, called + Entered(v, m))
  {
    if m.Call? {
      CallKeeps(v, m.last, n, called);
    } else {
      assert called + Entered(v, m) == called;
      if m.Abort? { AbortKeeps(v, m, n, called); } else { QuietMoveKeeps(v, m, n, called); }
    }
  }

  lemma QuietMove(v: Vault, m: Move, n: Vault)
    requires Moves(v, m, n) && !m.Call? && !m.Abort?
    ensures var e := EventOfMove(v, m); !(e.Op? && e.c.CCancel?)
    ensures n.flight.Some? ==> m.Begin? && Stages(v.app, m.c) && n.flight == Some(Flight(m.c.attempt, false))
  {}

  lemma QuietMoveKeeps(v: Vault, m: Move, n: Vault, called: set<Uuid>)
    requires VaultOk(v, called) && Moves(v, m, n) && !m.Call? && !m.Abort? && forall id | id in called :: !Draws(EventOfMove(v, m), id)
    ensures VaultOk(n, called)
  {
    MoveIsStep(v, m, n);
    QuietMove(v, m, n);
    OtherMoveKeeps(v, m, EventOfMove(v, m), n, called);
  }

  // ----- the whole world -----

  lemma OthersKeep(v: Vault, called: set<Uuid>, more: set<Uuid>)
    requires VaultOk(v, called) && forall id | id in more :: !Registrable(v.app, id)
    ensures VaultOk(v, called + more)
  {}

  lemma EnteredElsewhere(w: World, i: nat, j: nat, m: Move, id: Uuid)
    requires WorldOk(w) && i < |w.vaults| && j < |w.vaults| && i != j && id in Entered(w.vaults[i], m)
    ensures !Registrable(w.vaults[j].app, id)
  {
    assert VaultOk(w.vaults[i], w.called);
    EnteredRegistrable(w.vaults[i], m, w.called, id);
  }

  lemma EnteredRegistrable(v: Vault, m: Move, called: set<Uuid>, id: Uuid)
    requires FlightOk(v, called) && id in Entered(v, m)
    ensures Registrable(v.app, id)
  {}

  lemma ApartKept(w: World, i: nat, a: App, e: Event, n: World)
    requires Apart(w.vaults) && i < |w.vaults| && |n.vaults| == |w.vaults| && (forall j | 0 <= j < |w.vaults| && j != i :: n.vaults[j] == w.vaults[j])
    requires a.records == w.vaults[i].app.records && Heirs(a, e, n.vaults[i].app)
    requires forall id | Draws(e, id) :: forall j | 0 <= j < |w.vaults| :: id !in w.vaults[j].app.records
    ensures Apart(n.vaults)
  {
    forall j, k, id | 0 <= j < |n.vaults| && 0 <= k < |n.vaults| && Registrable(n.vaults[j].app, id) && Registrable(n.vaults[k].app, id)
      ensures j == k
    {
      if Registrable(n.vaults[i].app, id) && !Draws(e, id) { RegistrableBack(a, e, n.vaults[i].app, id); }
    }
  }

  lemma MoveDraws(w: World, i: nat, m: Move, id: Uuid)
    requires NewToWorld(w, m) && i < |w.vaults| && (m.Begin? ==> m.c.CIntent?) && (m.End? ==> m.c.CFinish?) && Draws(EventOfMove(w.vaults[i], m), id)
    ensures id !in w.called && forall j | 0 <= j < |w.vaults| :: id !in w.vaults[j].app.records
  {}

  lemma MoveKeepsWorld(w: World, i: nat, m: Move, n: World)
    requires WorldOk(w) && Next(w, At(i, m), n)
    ensures WorldOk(n)
  {
    var v, e := w.vaults[i], EventOfMove(w.vaults[i], m);
    assert VaultOk(v, w.called);
    MoveIsStep(v, m, n.vaults[i]);
    SampledIsSound(v, m, n.vaults[i]);
    StepHeirs(SampledBy(v, m), e, n.vaults[i].app);
    forall id | Draws(e, id) ensures id !in w.called && forall j | 0 <= j < |w.vaults| :: id !in w.vaults[j].app.records {
      MoveDraws(w, i, m, id);
    }
    ApartKept(w, i, SampledBy(v, m), e, n);
    MoveKeeps(v, m, n.vaults[i], w.called);
    forall j | 0 <= j < |n.vaults| && j != i ensures VaultOk(n.vaults[j], n.called) {
      forall id | id in Entered(v, m) ensures !Registrable(w.vaults[j].app, id) { EnteredElsewhere(w, i, j, m, id); }
      assert VaultOk(w.vaults[j], w.called);
      OthersKeep(w.vaults[j], w.called, Entered(v, m));
    }
  }

  lemma CopyIsRestored(copy: App, admin: Context, now: Time, id: Uuid)
    requires PrepareRestored(copy, admin, now).Ok?
    ensures !Registrable(PrepareRestored(copy, admin, now).value, id)
  {
    RestoredRecord(copy, RestoredCopy(copy, now), id);
  }

  lemma RestoredRecord(copy: App, b: App, id: Uuid)
    requires b.records == Settled(copy, true).records
    ensures !Registrable(b, id)
  {}

  lemma RestoreKeepsWorld(w: World, copy: App, admin: Context, now: Time, n: World)
    requires WorldOk(w) && Next(w, Restore(copy, admin, now), n)
    ensures WorldOk(n)
  {
    var b := PrepareRestored(copy, admin, now).value;
    RestoreSucceedsExactly(copy, admin, now);
    forall id ensures !Registrable(b, id) { CopyIsRestored(copy, admin, now, id); }
    AddedVault(w, b, n);
  }

  lemma AddedVault(w: World, b: App, n: World)
    requires WorldOk(w) && Sound(b) && (forall id :: !Registrable(b, id)) && n == World(w.vaults + [Vault(b, None)], w.called)
    ensures WorldOk(n)
  {
    CopyOk(b, w.called);
    CopyApart(w.vaults, Vault(b, None));
    forall j | 0 <= j < |n.vaults| ensures VaultOk(n.vaults[j], n.called) {
      assert j < |w.vaults| ==> n.vaults[j] == w.vaults[j];
    }
  }

  lemma CopyOk(b: App, called: set<Uuid>)
    requires Sound(b) && forall id :: !Registrable(b, id)
    ensures VaultOk(Vault(b, None), called)
  {}

  lemma CopyApart(vaults: seq<Vault>, v: Vault)
    requires Apart(vaults) && forall id :: !Registrable(v.app, id)
    ensures Apart(vaults + [v])
  {}

  lemma HappeningKeepsWorld(w: World, h: Happening, n: World)
    requires WorldOk(w) && Next(w, h, n)
    ensures WorldOk(n)
  {
    match h
    case At(i, m) => MoveKeepsWorld(w, i, m, n);
    case Restore(copy, admin, now) => RestoreKeepsWorld(w, copy, admin, now, n);
  }

  /** A history that starts with one sound vault in which nothing was ever registered. */
  ghost predicate History(worlds: seq<World>, hs: seq<Happening>)
  {
    && |worlds| == |hs| + 1 && |worlds[0].vaults| == 1 && Sound(worlds[0].vaults[0].app) && worlds[0].vaults[0].flight.None? && worlds[0].called == {}
    && forall i | 0 <= i < |hs| :: Next(worlds[i], hs[i], worlds[i + 1])
  }

  lemma {:induction false} HistoryKeepsWorld(worlds: seq<World>, hs: seq<Happening>, j: nat)
    requires History(worlds, hs) && j < |worlds|
    ensures WorldOk(worlds[j])
  {
    if j > 0 {
      HistoryKeepsWorld(worlds, hs, j - 1);
      HappeningKeepsWorld(worlds[j - 1], hs[j - 1], worlds[j]);
    }
  }

  /** The registration callback of a record is entered at most once in the whole history, over all vaults. */
  lemma RegisteredAtMostOnce(worlds: seq<World>, hs: seq<Happening>, j: nat, id: Uuid)
    requires History(worlds, hs) && j < |hs| && hs[j].At? && hs[j].i < |worlds[j].vaults| && id in Entered(worlds[j].vaults[hs[j].i], hs[j].m)
    ensures id !in worlds[j].called
  {
    HistoryKeepsWorld(worlds, hs, j);
    assert Next(worlds[j], hs[j], worlds[j + 1]);
    assert VaultOk(worlds[j].vaults[hs[j].i], worlds[j].called);
  }

  /** The guard of a surviving record is lost only by aborting a handoff of its registration, and that registration
      callback was never entered. */
  lemma OnlyAnAbortClearsTheGuard(worlds: seq<World>, hs: seq<Happening>, j: nat, id: Uuid)
    requires History(worlds, hs) && j < |hs| && hs[j].At? && hs[j].i < |worlds[j].vaults| == |worlds[j + 1].vaults|
    requires var a, b := worlds[j].vaults[hs[j].i].app, worlds[j + 1].vaults[hs[j].i].app;
      id in a.records && id in b.records && RegistrationSealed(a, id) && !RegistrationSealed(b, id)
    ensures hs[j].m.Abort? && id !in worlds[j].called
  {
    HistoryKeepsWorld(worlds, hs, j);
    assert Next(worlds[j], hs[j], worlds[j + 1]);
    var v, n, m := worlds[j].vaults[hs[j].i], worlds[j + 1].vaults[hs[j].i], hs[j].m;
    assert VaultOk(v, worlds[j].called);
    ClearedByAbort(v, m, n, worlds[j].called, id);
  }

  lemma ClearedByAbort(v: Vault, m: Move, n: Vault, called: set<Uuid>, id: Uuid)
    requires VaultOk(v, called) && Moves(v, m, n) && RegistrationSealed(v.app, id) && !RegistrationSealed(n.app, id)
    requires id in v.app.records && id in n.app.records && (m.Plain? ==> !Draws(m.e, id))
    ensures m.Abort? && id !in called
  {
    MoveIsStep(v, m, n);
    SampledIsSound(v, m, n);
    GuardOfSame(v.app, SampledBy(v, m), id);
    if CancelsRegistration(SampledBy(v, m), EventOfMove(v, m), id) {
      CancelledByAbort(v, m, n, called, id);
    } else {
      GuardKept(SampledBy(v, m), EventOfMove(v, m), n.app, id);
    }
  }

  lemma CancelledByAbort(v: Vault, m: Move, n: Vault, called: set<Uuid>, id: Uuid)
    requires FlightOk(v, called) && Moves(v, m, n) && CancelsRegistration(SampledBy(v, m), EventOfMove(v, m), id)
    ensures m.Abort? && id !in called
  {}

  // ----- what one owner does, move by move -----

  ghost predicate Travels(vaults: seq<Vault>, moves: seq<Move>)
  {
    |vaults| == |moves| + 1 && forall i | 0 <= i < |moves| :: Moves(vaults[i], moves[i], vaults[i + 1])
  }

  /** How many callbacks the moves enter. */
  function Entries(moves: seq<Move>): nat
  {
    if moves == [] then 0 else Entries(moves[..|moves| - 1]) + if moves[|moves| - 1].Call? then 1 else 0
  }

  /** Some moves lead from an owner of `start` without a private use in progress to `v`, entering `n` callbacks. */
  ghost predicate Reaches(start: App, n: nat, v: Vault)
  {
    exists vaults, moves :: Travels(vaults, moves) && vaults[0] == Vault(start, None) && vaults[|moves|] == v && Entries(moves) == n
  }

  lemma ReachesStart(start: App)
    ensures Reaches(start, 0, Vault(start, None))
  {
    assert Travels([Vault(start, None)], []);
  }

  lemma ReachesMore(start: App, n: nat, v: Vault, m: Move, w: Vault)
    requires Reaches(start, n, v) && Moves(v, m, w)
    ensures Reaches(start, if m.Call? then n + 1 else n, w)
  {
    hide Moves;
    var vaults, moves :| Travels(vaults, moves) && vaults[0] == Vault(start, None) && vaults[|moves|] == v && Entries(moves) == n;
    assert (moves + [m])[..|moves|] == moves;
    assert Travels(vaults + [w], moves + [m]);
  }

  /** A restart may find the clock moved, and nothing else. */
  lemma ReachesRestart(start: App, n: nat, v: Vault, x: App)
    requires Reaches(start, n, v) && x == Ticked(v.app, x.lastTime, x.clockFrozen) && Valid(x)
    ensures Reaches(start, n, Vault(x, None))
  {
    hide Reaches;
    ReachesMore(start, n, v, Crash(x.lastTime, x.clockFrozen), Vault(x, None));
  }
}
