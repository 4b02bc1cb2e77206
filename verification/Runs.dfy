/** Runs of one vault: published operations, clock movement and restarts, recovery and re-keying, in any order.
    What is permanent, what authority survives a recovery, and what a retained request key guarantees. */
module Runs {
  import opened Types
  import opened Policy
  import opened Ledger
  import opened Compaction
  import opened CompactionLedger
  import opened CompactionPolicy
  import opened Preservation
  import opened Operations
  import opened Mutations
  import opened Workflow
  import opened Settlement
  import opened Commands
  import opened Transition
  import Authority

  datatype Event =
    | Op(c: Command)                              // an operation whose publication became durable
    | Tick(last: Option<Time>, frozen: bool)      // in-memory clock movement, or a restart that lost some of it
    | Recovered(now: Time)                        // recovery of the published image
    | Rekey(hash: Digest)

  ghost predicate Step(a: App, e: Event, b: App)
  {
    match e
    case Op(c) => a.generation < U64_MAX && WellDrawn(MaybeCompact(a), c) && NewIds(a, c) && b == Published(a, c) && Valid(b)
    case Tick(last, frozen) => b == a.(lastTime := last, clockFrozen := frozen) && Valid(b)
    case Recovered(now) => Sanitize(a, now) == Ok(b)
    case Rekey(hash) => a.generation < U64_MAX && b == Rekeyed(a, hash)
  }

  ghost predicate Run(states: seq<App>, events: seq<Event>)
  {
    |states| == |events| + 1 && Sound(states[0]) && forall i | 0 <= i < |events| :: Step(states[i], events[i], states[i + 1])
  }

  // ----- the invariant along a run -----

  lemma CommandSingleDelete(app: App, c: Command)
    requires Sound(app) && WellDrawn(app, c)
    ensures SingleDelete(Staged(app, c).requests)
  {
    SoundParts(app);
    if c.CMutate? {
      MutateSingleDelete(app, c.ctx, c.task, c.request, c.op, c.now, c.draw);
    } else {
      EveryCommandFollows(app, c);
      EveryCommandAddsOnly(app, c);
      SameReceipts(app, Staged(app, c), c);
    }
  }

  lemma SameReceipts(app: App, n: App, c: Command)
    requires SingleDelete(app.requests) && RequestsFollow(app, n) && AddsOnly(app, n, c) && !c.CMutate?
    ensures SingleDelete(n.requests)
  {}

  lemma MutateSingleDelete(app: App, ctx: Context, task: Uuid, request: Uuid, op: Mutation, now: Time, draw: Draw)
    requires Sound(app) && FreshDraw(app, draw)
    ensures SingleDelete(Mutate(app, ctx, task, request, op, now, draw).app.requests)
  {
    SoundParts(app);
    MutateShape(app, ctx, task, request, op, now, draw);
    ClockKeepsSound(app, now);
    ClockFresh(app, now, draw);
    ShapeSingleDelete(app, Mutate(app, ctx, task, request, op, now, draw), ctx, task, request, op, now, draw);
  }

  lemma ShapeSingleDelete(app: App, o: Outcome<Receipt>, ctx: Context, task: Uuid, request: Uuid, op: Mutation, now: Time, draw: Draw)
    requires ShapeOk(app, o, ctx, task, request, op, now, draw) && Sound(Clock(app, now).app) && FreshDraw(Clock(app, now).app, draw)
    ensures SingleDelete(o.app.requests)
  {
    var c := Clock(app, now);
    if KeyOf(ctx, task, request) !in app.requests && o.result.Ok? {
      SoundParts(c.app);
      BookedSingleDelete(c.app, ctx, c.app.tasks[task], task, request, op, c.result.value, draw);
    }
  }

  lemma OpKeepsSound(a: App, c: Command, b: App)
    requires Sound(a) && Step(a, Op(c), b)
    ensures Sound(b)
  {
    CompactKeepsSound(a);
    CommandSingleDelete(MaybeCompact(a), c);
  }

  /** Every step of a run keeps the ledger invariant. */
  lemma StepKeepsSound(a: App, e: Event, b: App)
    requires Sound(a) && Step(a, e, b)
    ensures Sound(b)
  {
    if e.Op? { OpKeepsSound(a, e.c, b); } else { OtherKeepsSound(a, e, b); }
  }

  lemma OtherKeepsSound(a: App, e: Event, b: App)
    requires Sound(a) && !e.Op? && Step(a, e, b)
    ensures Sound(b)
  {
    match e
    case Tick(_, _) =>
    case Recovered(now) => SanitizeSucceedsExactly(a, now);
    case Rekey(hash) => RekeyedSound(a, hash);
  }

  lemma {:induction false} RunKeepsSound(states: seq<App>, events: seq<Event>, j: nat)
    requires Run(states, events) && j < |states|
    ensures Sound(states[j])
  {
    if j > 0 {
      RunKeepsSound(states, events, j - 1);
      StepKeepsSound(states[j - 1], events[j - 1], states[j]);
    }
  }

  // ----- what one step can have changed, looking back -----

  predicate Draws(e: Event, id: Uuid) { e.Op? && e.c.CMutate? && e.c.draw.id == id }

  /** The event approves the identifier afresh: pruning has removed it, and an administrator's approval is accepted. */
  ghost predicate Approves(a: App, e: Event, id: Uuid)
  {
    e.Op? && e.c.CApprove? && e.c.approval.id == id && Authority.Approvable(MaybeCompact(a), e.c.admin, e.c.approval, e.c.now)
  }

  ghost predicate TaskHeir(a: App, b: App, id: Uuid)
  {
    id in a.tasks && id in b.tasks && b.tasks[id] == a.tasks[id] && (id in a.revokedTasks ==> id in b.revokedTasks)
  }

  ghost predicate RecordHeir(a: App, b: App, id: Uuid)
  {
    && id in a.records && id in b.records
    && a.records[id].task == b.records[id].task && a.records[id].createdBy == b.records[id].createdBy
    && (a.records[id].deleted ==> b.records[id].deleted) && (a.records[id].restored ==> b.records[id].restored)
    && TaskHeir(a, b, b.records[id].task)
  }

  ghost predicate GrantHeir(a: App, b: App, g: Uuid)
  {
    g in a.grants && g in b.grants && GrantStep(a.grants[g], b.grants[g])
  }

  ghost predicate Heirs(a: App, e: Event, b: App)
  {
    && (forall id | id in b.tasks :: TaskHeir(a, b, id) || Approves(a, e, id))
    && (forall id | id in b.records :: RecordHeir(a, b, id) || Draws(e, id))
    && (forall g | g in b.grants :: GrantHeir(a, b, g) || Draws(e, g))
  }

  lemma TaskHeirOf(a: App, mid: App, n: App, id: Uuid)
    requires PrunedTasks(a, mid) && TasksFollow(mid, n) && mid.tasks.Keys <= a.tasks.Keys && id in mid.tasks
    ensures TaskHeir(a, n, id)
  {}

  lemma RecordHeirOf(a: App, mid: App, n: App, id: Uuid)
    requires PrunedTasks(a, mid) && PrunedRecords(a, mid) && TasksFollow(mid, n) && RecordsFollow(mid, n) && RecordsOk(mid.tasks, mid.records)
    requires mid.tasks.Keys <= a.tasks.Keys && mid.records.Keys <= a.records.Keys && id in mid.records
    ensures RecordHeir(a, n, id)
  {
    assert RecordStep(mid.records[id], n.records[id]);
    TaskHeirOf(a, mid, n, mid.records[id].task);
  }

  lemma GrantHeirOf(a: App, mid: App, n: App, g: Uuid)
    requires PrunedGrants(a, mid) && GrantsFollow(mid, n) && mid.grants.Keys <= a.grants.Keys && g in mid.grants
    ensures GrantHeir(a, n, g)
  {
    assert GrantStep(mid.grants[g], n.grants[g]);
  }

  lemma HeirsOfStaged(a: App, mid: App, n: App, c: Command)
    requires Pruned(a, mid) && TasksFollow(mid, n) && RecordsFollow(mid, n) && GrantsFollow(mid, n) && AddsOnly(mid, n, c)
    requires mid.tasks.Keys <= a.tasks.Keys && mid.records.Keys <= a.records.Keys && mid.grants.Keys <= a.grants.Keys
    requires RecordsOk(mid.tasks, mid.records) && forall id | id in n.tasks && id !in mid.tasks :: Approves(a, Op(c), id)
    ensures Heirs(a, Op(c), n)
  {
    hide Approves, TaskHeir, RecordHeir, GrantHeir, Transition.PrunedTasks, Transition.PrunedRecords, Transition.PrunedGrants;
    hide Commands.TasksFollow, Commands.RecordsFollow, Commands.GrantsFollow, Ledger.RecordsOk;
    forall id | id in n.tasks && id in mid.tasks ensures TaskHeir(a, n, id) { TaskHeirOf(a, mid, n, id); }
    forall id | id in n.records && id in mid.records ensures RecordHeir(a, n, id) { RecordHeirOf(a, mid, n, id); }
    forall g | g in n.grants && g in mid.grants ensures GrantHeir(a, n, g) { GrantHeirOf(a, mid, n, g); }
  }

  lemma SoundRecords(a: App)
    requires Sound(a)
    ensures RecordsOk(a.tasks, a.records) && GrantsOk(a.tasks, a.records, a.grants)
  {
    ValidIs(a);
  }

  lemma CompactIsSubset(a: App)
    ensures var mid := MaybeCompact(a);
      mid.tasks.Keys <= a.tasks.Keys && mid.records.Keys <= a.records.Keys && mid.grants.Keys <= a.grants.Keys
  {}

  lemma HeirsIgnoreGeneration(a: App, e: Event, n: App, b: App)
    requires Heirs(a, e, n) && b.tasks == n.tasks && b.records == n.records && b.grants == n.grants && b.revokedTasks == n.revokedTasks
    ensures Heirs(a, e, b)
  {}

  lemma AddedIsApproved(a: App, mid: App, c: Command, id: Uuid)
    requires mid == MaybeCompact(a) && AddsOnly(mid, Staged(mid, c), c) && id in Staged(mid, c).tasks && id !in mid.tasks
    ensures Approves(a, Op(c), id)
  {
    hide Compaction.MaybeCompact;
    Authority.ApprovedExactly(mid, c.admin, c.approval, c.now);
    hide Authority.Approvable;
  }

  lemma OpHeirs(a: App, c: Command, b: App)
    requires Sound(a) && Step(a, Op(c), b)
    ensures Heirs(a, Op(c), b)
  {
    var mid := MaybeCompact(a);
    StagedFacts(a, c);
    CompactIsSubset(a);
    SoundRecords(mid);
    hide Compaction.MaybeCompact, Commands.Staged, Approves;
    forall id | id in Staged(mid, c).tasks && id !in mid.tasks ensures Approves(a, Op(c), id) { AddedIsApproved(a, mid, c, id); }
    HeirsOfStaged(a, mid, Staged(mid, c), c);
    HeirsIgnoreGeneration(a, Op(c), Staged(mid, c), b);
  }

  lemma SettledTaskHeirs(a: App, b: App, id: Uuid)
    requires id in b.tasks && b.tasks == a.tasks && b.revokedTasks == a.revokedTasks + a.tasks.Keys
    ensures TaskHeir(a, b, id)
  {}

  lemma SettledHeirs(a: App, e: Event, b: App, restore: bool)
    requires b.tasks == a.tasks && b.revokedTasks == a.revokedTasks + a.tasks.Keys
    requires b.records == Settled(a, restore).records && b.grants == RevokedGrants(a.grants) && RecordsOk(a.tasks, a.records)
    ensures Heirs(a, e, b)
  {
    forall id | id in b.tasks ensures TaskHeir(a, b, id) { SettledTaskHeirs(a, b, id); }
    forall id | id in b.records ensures RecordHeir(a, b, id) {
      assert a.records[id].task in a.tasks;
    }
  }

  lemma UnchangedHeirs(a: App, e: Event, b: App)
    requires b.tasks == a.tasks && b.revokedTasks == a.revokedTasks && b.records == a.records && b.grants == a.grants && RecordsOk(a.tasks, a.records)
    ensures Heirs(a, e, b)
  {}

  lemma StepHeirs(a: App, e: Event, b: App)
    requires Sound(a) && Step(a, e, b)
    ensures Heirs(a, e, b)
  {
    if e.Op? { OpHeirs(a, e.c, b); } else { OtherHeirs(a, e, b); }
  }

  lemma OtherHeirs(a: App, e: Event, b: App)
    requires Sound(a) && !e.Op? && Step(a, e, b)
    ensures Heirs(a, e, b)
  {
    SoundRecords(a);
    match e
    case Tick(_, _) => UnchangedHeirs(a, e, b);
    case Recovered(_) => SettledHeirs(a, e, b, false);
    case Rekey(_) => UnchangedHeirs(a, e, b);
  }

  // ----- permanence -----

  ghost predicate NeverDrawn(events: seq<Event>, id: Uuid) { forall i | 0 <= i < |events| :: !Draws(events[i], id) }

  /** A run, seen through what each state owes to the one before. */
  ghost predicate Lineage(states: seq<App>, events: seq<Event>)
  {
    |states| == |events| + 1 && forall i | 0 <= i < |events| :: Heirs(states[i], events[i], states[i + 1])
  }

  lemma RunIsLineage(states: seq<App>, events: seq<Event>)
    requires Run(states, events)
    ensures Lineage(states, events)
  {
    forall i | 0 <= i < |events| ensures Heirs(states[i], events[i], states[i + 1]) {
      RunKeepsSound(states, events, i);
      StepHeirs(states[i], events[i], states[i + 1]);
    }
  }

  lemma {:induction false} DeletedAlong(states: seq<App>, events: seq<Event>, id: Uuid, j: nat)
    requires Lineage(states, events) && NeverDrawn(events, id) && j < |states|
    requires id in states[0].records ==> states[0].records[id].deleted
    ensures id in states[j].records ==> states[j].records[id].deleted
  {
    if j > 0 {
      DeletedAlong(states, events, id, j - 1);
      assert Heirs(states[j - 1], events[j - 1], states[j]) && !Draws(events[j - 1], id);
    }
  }

  /** A deleted record never becomes live again, in any run. */
  lemma DeletionIsPermanent(states: seq<App>, events: seq<Event>, id: Uuid, j: nat)
    requires Run(states, events) && NeverDrawn(events, id) && j < |states|
    requires id in states[0].records && states[0].records[id].deleted
    ensures id in states[j].records ==> states[j].records[id].deleted
    ensures forall ctx: Context :: RecordFor(states[j], ctx, id).Err?
  {
    RunIsLineage(states, events);
    DeletedAlong(states, events, id, j);
  }

  lemma {:induction false} RevokedAlong(states: seq<App>, events: seq<Event>, g: Uuid, j: nat)
    requires Lineage(states, events) && NeverDrawn(events, g) && j < |states|
    requires g in states[0].grants ==> states[0].grants[g].revoked
    ensures g in states[j].grants ==> states[j].grants[g].revoked
  {
    if j > 0 {
      RevokedAlong(states, events, g, j - 1);
      assert Heirs(states[j - 1], events[j - 1], states[j]) && !Draws(events[j - 1], g);
    }
  }

  /** A revoked grant never permits anything again, in any run. */
  lemma GrantRevocationIsPermanent(states: seq<App>, events: seq<Event>, g: Uuid, j: nat, ctx: Context, r: Record,
                                   permission: Permission, fields: set<Field>, destination: Option<string>, now: Time)
    requires Run(states, events) && NeverDrawn(events, g) && j < |states|
    requires g in states[0].grants && states[0].grants[g].revoked
    ensures g in states[j].grants ==> !GrantPermits(states[j], states[j].grants[g], ctx, r, permission, fields, destination, now)
  {
    RunIsLineage(states, events);
    RevokedAlong(states, events, g, j);
  }

  lemma {:induction false} TaskRevokedAlong(states: seq<App>, events: seq<Event>, id: Uuid, j: nat)
    requires Lineage(states, events) && j < |states| && (forall i | 0 <= i < j :: !Approves(states[i], events[i], id))
    requires id in states[0].tasks ==> id in states[0].revokedTasks
    ensures id in states[j].tasks ==> id in states[j].revokedTasks
  {
    if j > 0 {
      TaskRevokedAlong(states, events, id, j - 1);
      assert Heirs(states[j - 1], events[j - 1], states[j]) && !Approves(states[j - 1], events[j - 1], id);
    }
  }

  /** A revoked task authorizes nobody at any time, in any run in which no approval of its identifier is accepted after it was
      pruned; approval requests that are refused change nothing. */
  lemma TaskRevocationIsPermanent(states: seq<App>, events: seq<Event>, id: Uuid, j: nat)
    requires Run(states, events) && j < |states| && id in states[0].revokedTasks
    requires forall i | 0 <= i < j :: !Approves(states[i], events[i], id)
    ensures forall ctx: Context, now: Time :: TaskFor(states[j], ctx, id, now).Err?
  {
    RunIsLineage(states, events);
    TaskRevokedAlong(states, events, id, j);
  }

  /** An approval that brings back a known task identifier finds nothing that still refers to it. */
  lemma ReapprovalFindsNoReference(a: App, c: Command, b: App)
    requires Sound(a) && Step(a, Op(c), b) && c.CApprove? && c.approval.id in b.tasks && c.approval.id !in MaybeCompact(a).tasks
    ensures var mid := MaybeCompact(a); !Referenced(mid.records, mid.grants, mid.deliveries, mid.requests, c.approval.id)
  {
    CompactKeepsSound(a);
    ValidIsClosed(MaybeCompact(a));
  }

  // ----- sealed logins -----

  /** The record's baseline says that its login was verified. */
  predicate SealedLogin(app: App, id: Uuid) { id in app.records && BaseOf(app.baselines, id).verifiedLogin }

  /** A changed secret version comes with a signup that is not a verified login. */
  predicate RotatesOpenly(r: Record, n: Record) { n.secretVersion == r.secretVersion || n.signup != VerifiedLogin }

  lemma MutateRotates(mid: App, o: Outcome<Receipt>, ctx: Context, task: Uuid, request: Uuid, op: Mutation, now: Time, draw: Draw, id: Uuid)
    requires ShapeOk(mid, o, ctx, task, request, op, now, draw) && FreshDraw(mid, draw) && id in mid.records && id in o.app.records
    ensures RotatesOpenly(mid.records[id], o.app.records[id])
  {
    var c := Clock(mid, now);
    SampledRecords(mid, now);
    if KeyOf(ctx, task, request) !in mid.requests && o.result.Ok? {
      ClockFresh(mid, now, draw);
      hide Policy.Clock;
      BookedRotates(c.app, ctx, c.app.tasks[task], task, request, op, c.result.value, draw, id);
    }
  }

  lemma SampledRecords(app: App, now: Time)
    ensures Clock(app, now).app.records == app.records && Clock(app, now).app.requests == app.requests
  {}

  lemma BookedRotates(c: App, ctx: Context, t: Task, task: Uuid, request: Uuid, op: Mutation, at: Time, draw: Draw, id: Uuid)
    requires Performs(c, ctx, t, task, op, draw) && FreshDraw(c, draw) && KeyOf(ctx, task, request) !in c.requests && id in c.records
    ensures var b := Booked(c, ctx, t, task, request, op, at, draw); id in b.records ==> RotatesOpenly(c.records[id], b.records[id])
  {
    if !Creates(op) { BookedAdvances(c, ctx, t, task, request, op, at, draw); }
  }

  lemma CommandRotates(mid: App, c: Command, id: Uuid)
    requires Sound(mid) && WellDrawn(mid, c) && id in mid.records && id in Staged(mid, c).records
    ensures RotatesOpenly(mid.records[id], Staged(mid, c).records[id])
  {
    SoundTasks(mid);
    hide CompactionLedger.Sound;
    if c.CMutate? {
      MutateShape(mid, c.ctx, c.task, c.request, c.op, c.now, c.draw);
      MutateRotates(mid, Mutate(mid, c.ctx, c.task, c.request, c.op, c.now, c.draw), c.ctx, c.task, c.request, c.op, c.now, c.draw, id);
    } else if Settles(c) {
      if !c.CIntent? { UnfinishedIsDispatched(mid, c.attempt); }
      UseRotates(mid, c, id);
    } else {
      RequestRecords(mid, c);
    }
  }

  lemma UseRotates(mid: App, c: Command, id: Uuid)
    requires Settles(c) && (!c.CIntent? ==> Unfinished(mid, c.attempt) && mid.deliveries[c.attempt].record in mid.records)
    requires id in mid.records && id in Staged(mid, c).records
    ensures Staged(mid, c).records[id].secretVersion == mid.records[id].secretVersion
  {
    if c.CIntent? {
      SampledRecords(mid, c.now);
      IntentShape(mid, c.ctx, c.task, c.use, c.now, c.attempt);
    } else if c.CCancel? {
      CancelShape(mid, c.attempt);
    } else {
      FinishShape(mid, c.ctx, c.task, c.attempt, c.status, c.at);
    }
  }

  lemma RequestRecords(mid: App, c: Command)
    requires c.CApprove? || c.CRevokeTask? || c.CRead?
    ensures Staged(mid, c).records == mid.records
  {
    SampledRecords(mid, c.now);
    if c.CRead? { ReadShape(mid, c.ctx, c.task, c.record, c.fields, c.secret, c.now); }
  }

  lemma SealedSignup(app: App, id: Uuid)
    requires Valid(app) && SealedLogin(app, id)
    ensures app.records[id].signup == VerifiedLogin
  {
    ValidIs(app);
    assert BaselineOk(app.records[id], app.baselines[id]);
  }

  lemma PruningKeepsSeal(a: App, id: Uuid)
    requires Sound(a) && SealedLogin(a, id) && id in MaybeCompact(a).records
    ensures SealedLogin(MaybeCompact(a), id) && MaybeCompact(a).records[id] == a.records[id]
  {
    SealedSignup(a, id);
    SoundReferences(a);
    if ShouldCompact(a) { BaseAfter(a, id); }
  }

  lemma OpRecordWas(a: App, c: Command, b: App, id: Uuid)
    requires Sound(a) && Step(a, Op(c), b) && id in b.records && !Draws(Op(c), id)
    ensures var mid := MaybeCompact(a);
      && id in mid.records && Sound(mid) && WellDrawn(mid, c) && b.records == Staged(mid, c).records && b.baselines == mid.baselines && Valid(b)
  {
    StagedFacts(a, c);
  }

  lemma OpKeepsSeal(a: App, c: Command, b: App, id: Uuid)
    requires Sound(a) && Step(a, Op(c), b) && SealedLogin(a, id) && id in b.records && !Draws(Op(c), id)
    ensures SealedLogin(b, id) && b.records[id].secretVersion == a.records[id].secretVersion
  {
    OpRecordWas(a, c, b, id);
    hide Compaction.MaybeCompact, Commands.Staged, Step;
    PruningKeepsSeal(a, id);
    CommandRotates(MaybeCompact(a), c, id);
    SealedSignup(b, id);
  }

  lemma OtherKeepsSeal(a: App, e: Event, b: App, id: Uuid)
    requires Sound(a) && !e.Op? && Step(a, e, b) && SealedLogin(a, id) && id in b.records
    ensures SealedLogin(b, id) && b.records[id].secretVersion == a.records[id].secretVersion
  {
    if e.Recovered? { SanitizedIs(a, e.now); }
  }

  /** A record that was sealed before is sealed after, at the same secret version. */
  ghost predicate SealHeir(a: App, b: App, id: Uuid)
  {
    (id in a.records ==> SealedLogin(a, id)) && id in b.records ==>
      id in a.records && SealedLogin(b, id) && b.records[id].secretVersion == a.records[id].secretVersion
  }

  lemma SealStep(a: App, e: Event, b: App, id: Uuid)
    requires Sound(a) && Step(a, e, b) && !Draws(e, id)
    ensures SealHeir(a, b, id)
  {
    hide Step;
    if id in b.records && (id in a.records ==> SealedLogin(a, id)) {
      StepHeirs(a, e, b);
      assert RecordHeir(a, b, id);
      if e.Op? { OpKeepsSeal(a, e.c, b, id); } else { OtherKeepsSeal(a, e, b, id); }
    }
  }

  ghost predicate SealLineage(states: seq<App>, id: Uuid) { forall i | 0 <= i < |states| - 1 :: SealHeir(states[i], states[i + 1], id) }

  lemma RunIsSealLineage(states: seq<App>, events: seq<Event>, id: Uuid)
    requires Run(states, events) && NeverDrawn(events, id)
    ensures SealLineage(states, id)
  {
    hide Step, SealHeir;
    forall i | 0 <= i < |states| - 1 ensures SealHeir(states[i], states[i + 1], id) {
      RunKeepsSound(states, events, i);
      SealStep(states[i], events[i], states[i + 1], id);
    }
  }

  lemma {:induction false} SealAlong(states: seq<App>, id: Uuid, j: nat)
    requires SealLineage(states, id) && j < |states| && SealedLogin(states[0], id)
    ensures id in states[j].records ==> SealedLogin(states[j], id) && states[j].records[id].secretVersion == states[0].records[id].secretVersion
  {
    if j > 0 {
      SealAlong(states, id, j - 1);
      assert SealHeir(states[j - 1], states[j], id);
    }
  }

  /** A sealed verified login is for ever: in every run, for as long as the record stands, the seal stays, the signup stays
      verified and the secret version never changes, so the credential can never be rotated. */
  lemma SealIsForever(states: seq<App>, events: seq<Event>, id: Uuid, j: nat)
    requires Run(states, events) && NeverDrawn(events, id) && SealedLogin(states[0], id) && j < |states| && id in states[j].records
    ensures SealedLogin(states[j], id) && states[j].records[id].signup == VerifiedLogin
    ensures states[j].records[id].secretVersion == states[0].records[id].secretVersion
  {
    hide Step;
    RunIsSealLineage(states, events, id);
    SealAlong(states, id, j);
    RunKeepsSound(states, events, j);
    SealedSignup(states[j], id);
  }

  // ----- stamps -----

  /** Every receipt and every attempt carries its time. */
  predicate AllStamped(app: App)
  {
    (forall k | k in app.requests :: app.requests[k].at.Some?) && forall d | d in app.deliveries :: app.deliveries[d].at.Some?
  }

  /** What is new in `n` carries its time. */
  ghost predicate StampsNew(m: App, n: App)
  {
    && (forall k | k in n.requests && k !in m.requests :: n.requests[k].at.Some?)
    && (forall d | d in n.deliveries && d !in m.deliveries :: n.deliveries[d].at.Some?)
  }

  lemma SampledLedger(app: App, now: Time)
    ensures var c := Clock(app, now).app; c.requests == app.requests && c.deliveries == app.deliveries
  {}

  lemma BookedStamps(c: App, ctx: Context, t: Task, task: Uuid, request: Uuid, op: Mutation, at: Time, draw: Draw)
    requires Performs(c, ctx, t, task, op, draw)
    ensures StampsNew(c, Booked(c, ctx, t, task, request, op, at, draw))
  {
    hide Policy.Perform;
    PerformedRest(c, ctx, t, task, op, draw);
  }

  lemma MutateStamps(mid: App, o: Outcome<Receipt>, ctx: Context, task: Uuid, request: Uuid, op: Mutation, now: Time, draw: Draw)
    requires ShapeOk(mid, o, ctx, task, request, op, now, draw)
    ensures StampsNew(mid, o.app)
  {
    SampledLedger(mid, now);
    var c := Clock(mid, now);
    if KeyOf(ctx, task, request) !in mid.requests && o.result.Ok? {
      hide Policy.Clock, Operations.Booked;
      BookedStamps(c.app, ctx, c.app.tasks[task], task, request, op, c.result.value, draw);
    }
  }

  lemma IntentStamps(mid: App, ctx: Context, task: Uuid, use: PrivateUse, now: Time, attempt: Uuid)
    ensures StampsNew(mid, Intent(mid, ctx, task, use, now, attempt).app)
  {
    SampledLedger(mid, now);
    IntentShape(mid, ctx, task, use, now, attempt);
  }

  lemma SettlingStamps(mid: App, c: Command)
    requires (c.CCancel? || c.CFinish?) && Unfinished(mid, c.attempt) && mid.deliveries[c.attempt].record in mid.records
    ensures StampsNew(mid, Staged(mid, c))
  {
    if c.CCancel? { CancelShape(mid, c.attempt); } else { FinishShape(mid, c.ctx, c.task, c.attempt, c.status, c.at); }
  }

  lemma RequestStamps(mid: App, c: Command)
    requires c.CApprove? || c.CRevokeTask? || c.CRead?
    ensures StampsNew(mid, Staged(mid, c))
  {
    SampledLedger(mid, c.now);
    if c.CRead? { ReadShape(mid, c.ctx, c.task, c.record, c.fields, c.secret, c.now); }
  }

  lemma CommandStamps(mid: App, c: Command)
    requires Sound(mid) && WellDrawn(mid, c)
    ensures StampsNew(mid, Staged(mid, c))
  {
    SoundTasks(mid);
    hide StampsNew, CompactionLedger.Sound;
    if c.CMutate? {
      MutateShape(mid, c.ctx, c.task, c.request, c.op, c.now, c.draw);
      MutateStamps(mid, Mutate(mid, c.ctx, c.task, c.request, c.op, c.now, c.draw), c.ctx, c.task, c.request, c.op, c.now, c.draw);
    } else if c.CIntent? {
      IntentStamps(mid, c.ctx, c.task, c.use, c.now, c.attempt);
    } else if Settles(c) {
      UnfinishedIsDispatched(mid, c.attempt);
      SettlingStamps(mid, c);
    } else {
      RequestStamps(mid, c);
    }
  }

  lemma StampedFollows(mid: App, n: App)
    requires AllStamped(mid) && StampsNew(mid, n) && RequestsFollow(mid, n) && DeliveriesFollow(mid, n)
    ensures AllStamped(n)
  {
    forall d | d in mid.deliveries ensures d in n.deliveries && n.deliveries[d].at == mid.deliveries[d].at {
      assert DeliveryStep(mid.deliveries[d], n.deliveries[d]);
    }
  }

  lemma PruningKeepsStamps(a: App)
    requires AllStamped(a)
    ensures AllStamped(MaybeCompact(a))
  {}

  lemma SettlingKeepsStamps(a: App, b: App)
    requires AllStamped(a) && b.requests == a.requests && b.deliveries == SettledDeliveries(a.deliveries)
    ensures AllStamped(b)
  {}

  lemma StepKeepsStamps(a: App, e: Event, b: App)
    requires Sound(a) && Step(a, e, b) && AllStamped(a)
    ensures AllStamped(b)
  {
    if e.Op? {
      var mid := MaybeCompact(a);
      StepOfOp(a, e.c, b);
      StagedFacts(a, e.c);
      PruningKeepsStamps(a);
      hide Compaction.MaybeCompact, Commands.Staged, Step;
      CommandStamps(mid, e.c);
      StampedFollows(mid, Staged(mid, e.c));
    } else if e.Recovered? {
      SanitizedIs(a, e.now);
      SettlingKeepsStamps(a, b);
    }
  }

  /** In every run that starts with its entries stamped, as a new vault does, every entry of every state carries its time. */
  lemma {:induction false} RunKeepsStamps(states: seq<App>, events: seq<Event>, j: nat)
    requires Run(states, events) && AllStamped(states[0]) && j < |states|
    ensures AllStamped(states[j])
  {
    if j > 0 {
      RunKeepsStamps(states, events, j - 1);
      RunKeepsSound(states, events, j - 1);
      assert Step(states[j - 1], events[j - 1], states[j]);
      hide Step;
      StepKeepsStamps(states[j - 1], events[j - 1], states[j]);
    }
  }

  // ----- authority after a recovery -----

  /** Every task of state `j` is revoked or was approved afresh before it, and the record's creating task is revoked. */
  ghost predicate Reissued(states: seq<App>, events: seq<Event>, j: nat, id: Uuid)
    requires j < |states| == |events| + 1
  {
    && (forall t | t in states[j].tasks && t !in states[j].revokedTasks :: ApprovedBy(states, events, j, t))
    && (id in states[j].records ==> states[j].records[id].task in states[j].revokedTasks)
  }

  /** One of the first `j` events approved the identifier afresh. */
  ghost predicate ApprovedBy(states: seq<App>, events: seq<Event>, j: nat, t: Uuid)
    requires j < |states| == |events| + 1
  {
    exists i :: 0 <= i < j && Approves(states[i], events[i], t)
  }

  lemma ReissuedStep(states: seq<App>, events: seq<Event>, j: nat, id: Uuid)
    requires j + 1 < |states| == |events| + 1 && Heirs(states[j], events[j], states[j + 1])
    requires Reissued(states, events, j, id) && !Draws(events[j], id)
    ensures Reissued(states, events, j + 1, id)
  {
    hide Approves;
    var a, b := states[j], states[j + 1];
    forall t | t in b.tasks && t !in b.revokedTasks ensures ApprovedBy(states, events, j + 1, t) {
      if !Approves(a, events[j], t) {
        assert TaskHeir(a, b, t);
        var i :| 0 <= i < j && Approves(states[i], events[i], t);
      }
    }
    if id in b.records { assert RecordHeir(a, b, id); }
  }

  lemma {:induction false} ReissuedAlong(states: seq<App>, events: seq<Event>, id: Uuid, j: nat)
    requires Lineage(states, events) && j < |states| && NeverDrawn(events, id)
    requires states[0].revokedTasks == states[0].tasks.Keys && RecordsOk(states[0].tasks, states[0].records)
    ensures Reissued(states, events, j, id)
  {
    if j > 0 {
      ReissuedAlong(states, events, id, j - 1);
      assert Heirs(states[j - 1], events[j - 1], states[j]) && !Draws(events[j - 1], id);
      ReissuedStep(states, events, j - 1, id);
    }
  }

  /** The selection on the record rests on a grant an administrator issued from a task approved afresh. */
  ghost predicate ByReissuedGrant(states: seq<App>, events: seq<Event>, j: nat, g: Uuid, ctx: Context, record: Uuid, permission: Permission,
                                  fields: set<Field>, destination: Option<string>, now: Time)
    requires j < |states| == |events| + 1
  {
    var b := states[j];
    && record in b.records && g in b.grants
    && GrantPermits(b, b.grants[g], ctx, b.records[record], permission, fields, destination, now)
    && b.grants[g].adminIssued && ApprovedBy(states, events, j, b.grants[g].issuerTask)
  }

  lemma SelectedByGrant(states: seq<App>, events: seq<Event>, j: nat, ctx: Context, task: Uuid, record: Uuid, fields: set<Field>,
                        permission: Permission, destination: Option<string>, now: Time) returns (g: Uuid)
    requires j < |states| == |events| + 1 && TasksOk(states[j].tasks) && Reissued(states, events, j, record)
    requires Select(states[j], ctx, task, record, fields, permission, destination, now).Ok?
    ensures var b := states[j];
      ApprovedBy(states, events, j, task) && record in b.records && g in b.grants
      && GrantPermits(b, b.grants[g], ctx, b.records[record], permission, fields, destination, now)
  {
    hide ApprovedBy;
    var b := states[j];
    g :| g in b.grants && GrantPermits(b, b.grants[g], ctx, b.records[record], permission, fields, destination, now);
  }

  lemma SelectionIsReissued(states: seq<App>, events: seq<Event>, j: nat, ctx: Context, task: Uuid, record: Uuid, fields: set<Field>,
                            permission: Permission, destination: Option<string>, now: Time) returns (g: Uuid)
    requires j < |states| == |events| + 1 && Reissued(states, events, j, record)
    requires TasksOk(states[j].tasks) && GrantsOk(states[j].tasks, states[j].records, states[j].grants) && RecordsOk(states[j].tasks, states[j].records)
    requires Select(states[j], ctx, task, record, fields, permission, destination, now).Ok?
    ensures ApprovedBy(states, events, j, task)
    ensures ByReissuedGrant(states, events, j, g, ctx, record, permission, fields, destination, now)
  {
    hide ApprovedBy;
    var b := states[j];
    g := SelectedByGrant(states, events, j, ctx, task, record, fields, permission, destination, now);
    assert RecordOk(b.tasks[b.records[record].task], record, b.records[record]);
    assert GrantOk(b.tasks[b.grants[g].issuerTask], b.records[b.grants[g].record], g, b.grants[g]);
  }

  /** A run that starts with every task revoked: a successful selection on a record that was already there is made by a
      task approved afresh since, through a grant an administrator issued from a task approved afresh since. */
  lemma AuthorityIsReissued(states: seq<App>, events: seq<Event>, j: nat, ctx: Context, task: Uuid, record: Uuid,
                            fields: set<Field>, permission: Permission, destination: Option<string>, now: Time) returns (g: Uuid)
    requires Run(states, events) && states[0].revokedTasks == states[0].tasks.Keys && j < |states| && NeverDrawn(events, record)
    requires Select(states[j], ctx, task, record, fields, permission, destination, now).Ok?
    ensures ApprovedBy(states, events, j, task)
    ensures ByReissuedGrant(states, events, j, g, ctx, record, permission, fields, destination, now)
  {
    RunIsLineage(states, events);
    PartsAlong(states, events, 0);
    PartsAlong(states, events, j);
    ReissuedAlong(states, events, record, j);
    g := SelectionIsReissued(states, events, j, ctx, task, record, fields, permission, destination, now);
  }

  lemma PartsAlong(states: seq<App>, events: seq<Event>, j: nat)
    requires Run(states, events) && j < |states|
    ensures TasksOk(states[j].tasks) && RecordsOk(states[j].tasks, states[j].records) && GrantsOk(states[j].tasks, states[j].records, states[j].grants)
  {
    ValidIs(states[j]);
    RunKeepsSound(states, events, j);
  }

  lemma RevokedByRecovery(a: App, now: Time, b: App)
    requires Sound(a) && Step(a, Recovered(now), b)
    ensures b.revokedTasks == b.tasks.Keys
  {
    SoundTasks(a);
    SanitizedIs(a, now);
  }

  lemma RevokedByRestore(a: App, admin: Context, now: Time)
    requires Sound(a) && PrepareRestored(a, admin, now).Ok?
    ensures var b := PrepareRestored(a, admin, now).value; b.revokedTasks == b.tasks.Keys
  {
    SoundTasks(a);
  }

  /** After a recovery, in every run, authority over what was there before rests on what was approved since. */
  lemma AuthorityAfterRecovery(a: App, now0: Time, states: seq<App>, events: seq<Event>, j: nat, ctx: Context, task: Uuid, record: Uuid,
                               fields: set<Field>, permission: Permission, destination: Option<string>, now: Time) returns (g: Uuid)
    requires Sound(a) && Run(states, events) && Step(a, Recovered(now0), states[0]) && j < |states| && NeverDrawn(events, record)
    requires Select(states[j], ctx, task, record, fields, permission, destination, now).Ok?
    ensures ApprovedBy(states, events, j, task)
    ensures ByReissuedGrant(states, events, j, g, ctx, record, permission, fields, destination, now)
  {
    RevokedByRecovery(a, now0, states[0]);
    g := AuthorityIsReissued(states, events, j, ctx, task, record, fields, permission, destination, now);
  }

  /** The same after a restore. */
  lemma AuthorityAfterRestore(a: App, admin: Context, now0: Time, states: seq<App>, events: seq<Event>, j: nat, ctx: Context, task: Uuid,
                              record: Uuid, fields: set<Field>, permission: Permission, destination: Option<string>, now: Time) returns (g: Uuid)
    requires Sound(a) && Run(states, events) && PrepareRestored(a, admin, now0) == Ok(states[0]) && j < |states| && NeverDrawn(events, record)
    requires Select(states[j], ctx, task, record, fields, permission, destination, now).Ok?
    ensures ApprovedBy(states, events, j, task)
    ensures ByReissuedGrant(states, events, j, g, ctx, record, permission, fields, destination, now)
  {
    RevokedByRestore(a, admin, now0);
    g := AuthorityIsReissued(states, events, j, ctx, task, record, fields, permission, destination, now);
  }

  // ----- delegation -----

  /** The backing of a success of `can`: a live grant without `AccessGrant`, issued by an administrator or by the
      creating task within its share bounds, whose live issuer holds the permission, the fields and the destination. */
  ghost predicate Backed(app: App, g: Uuid, r: Record, permission: Permission, fields: set<Field>, destination: Option<string>, now: Time)
  {
    && g in app.grants && !app.grants[g].revoked && now < app.grants[g].spec.expiresAt && app.grants[g].record == r.id
    && AccessGrant !in app.grants[g].spec.permissions
    && app.grants[g].issuerTask in app.tasks && app.grants[g].issuerTask !in app.revokedTasks
    && var issuer := app.tasks[app.grants[g].issuerTask];
       && now < issuer.expiresAt && permission in issuer.permissions && fields <= issuer.fields
       && (destination.Some? ==> destination.value in issuer.destinations)
       && (!app.grants[g].adminIssued ==>
             issuer.id == r.task && AccessGrant in issuer.permissions && issuer.share.Some? && WithinBounds(app.grants[g].spec, issuer.share.value))
  }

  lemma PermittingGrantBacked(app: App, g: Uuid, ctx: Context, r: Record, permission: Permission, fields: set<Field>,
                              destination: Option<string>, now: Time)
    requires GrantsOk(app.tasks, app.records, app.grants) && r.id in app.records && app.records[r.id] == r
    requires g in app.grants && GrantPermits(app, app.grants[g], ctx, r, permission, fields, destination, now)
    ensures Backed(app, g, r, permission, fields, destination, now) && permission != AccessGrant
  {}

  lemma PermittingGrant(app: App, ctx: Context, t: Task, r: Record, permission: Permission, fields: set<Field>,
                        destination: Option<string>, now: Time) returns (g: Uuid)
    requires Can(app, ctx, t, r, permission, fields, destination, now) && !(r.createdBy == ctx.principal && r.task == t.id)
    ensures g in app.grants && GrantPermits(app, app.grants[g], ctx, r, permission, fields, destination, now)
  {
    g :| g in app.grants && GrantPermits(app, app.grants[g], ctx, r, permission, fields, destination, now);
  }

  /** Delegation has depth one and only attenuates: whoever may act without being the creating task is backed by a
      grant that cannot be shared further. */
  lemma DelegationAttenuates(app: App, ctx: Context, t: Task, record: Uuid, permission: Permission, fields: set<Field>,
                             destination: Option<string>, now: Time) returns (g: Uuid)
    requires Sound(app) && record in app.records
    requires Can(app, ctx, t, app.records[record], permission, fields, destination, now)
    requires !(app.records[record].createdBy == ctx.principal && app.records[record].task == t.id)
    ensures Backed(app, g, app.records[record], permission, fields, destination, now) && permission != AccessGrant
  {
    SoundRecords(app);
    assert RecordOk(app.tasks[app.records[record].task], record, app.records[record]);
    g := PermittingGrant(app, ctx, t, app.records[record], permission, fields, destination, now);
    PermittingGrantBacked(app, g, ctx, app.records[record], permission, fields, destination, now);
  }

  // ----- retained request keys -----

  lemma OpRetains(a: App, mid: App, n: App, b: App, k: RequestKey)
    requires k in mid.requests && k in a.requests && mid.requests[k] == a.requests[k] && RequestsFollow(mid, n) && b.requests == n.requests
    ensures k in b.requests && b.requests[k] == a.requests[k]
  {}

  lemma OtherRetains(a: App, e: Event, b: App)
    requires Step(a, e, b) && !e.Op?
    ensures b.requests == a.requests
  {}

  lemma SanitizedIs(a: App, now: Time)
    requires Sanitize(a, now).Ok?
    ensures a.generation < U64_MAX && Sanitize(a, now).value == Sanitized(a, now)
  {}

  lemma StepOfOp(a: App, c: Command, b: App)
    requires Step(a, Op(c), b)
    ensures WellDrawn(MaybeCompact(a), c) && b.requests == Staged(MaybeCompact(a), c).requests && b.deliveries == Staged(MaybeCompact(a), c).deliveries
  {}

  /** A receipt inside its retry window survives every step unchanged. */
  lemma ReceiptRetained(a: App, e: Event, b: App, k: RequestKey)
    requires Sound(a) && Step(a, e, b) && k in a.requests && !Stale(a.requests[k].at, a.lastTime)
    ensures k in b.requests && b.requests[k] == a.requests[k]
  {
    if e.Op? { OpReceiptRetained(a, e.c, b, k); } else { OtherRetains(a, e, b); }
  }

  lemma OpReceiptRetained(a: App, c: Command, b: App, k: RequestKey)
    requires Sound(a) && Step(a, Op(c), b) && k in a.requests && !Stale(a.requests[k].at, a.lastTime)
    ensures k in b.requests && b.requests[k] == a.requests[k]
  {
    var mid := MaybeCompact(a);
    StepOfOp(a, c, b);
    KeyKeptByPruning(a, k);
    StagedFacts(a, c);
    OpRetains(a, mid, Staged(mid, c), b, k);
  }

  /** The receipt survives every step that starts inside its retry window. */
  ghost predicate Retains(states: seq<App>, k: RequestKey)
  {
    forall i | 0 <= i < |states| - 1 :: k in states[i].requests && !Stale(states[i].requests[k].at, states[i].lastTime) ==>
      k in states[i + 1].requests && states[i + 1].requests[k] == states[i].requests[k]
  }

  lemma RunRetains(states: seq<App>, events: seq<Event>, k: RequestKey)
    requires Run(states, events)
    ensures Retains(states, k)
  {
    forall i | 0 <= i < |states| - 1 && k in states[i].requests && !Stale(states[i].requests[k].at, states[i].lastTime)
      ensures k in states[i + 1].requests && states[i + 1].requests[k] == states[i].requests[k]
    {
      RunKeepsSound(states, events, i);
      assert Step(states[i], events[i], states[i + 1]);
      ReceiptRetained(states[i], events[i], states[i + 1], k);
    }
  }

  lemma {:induction false} RetainedAlong(states: seq<App>, k: RequestKey, j: nat)
    requires Retains(states, k) && j < |states| && k in states[0].requests
    requires forall i | 0 <= i < j :: !Stale(states[0].requests[k].at, states[i].lastTime)
    ensures k in states[j].requests && states[j].requests[k] == states[0].requests[k]
  {
    if j > 0 { RetainedAlong(states, k, j - 1); }
  }

  lemma RetriedResult(app: App, ctx: Context, key: RequestKey, op: Mutation)
    requires key in app.requests && MutateRetry(app, ctx, key, op).Ok?
    ensures MutateRetry(app, ctx, key, op).value == app.requests[key].result && app.requests[key].fingerprint == OfMutation(op)
  {}

  lemma RetainedMutation(app: App, ctx: Context, task: Uuid, request: Uuid, op: Mutation, now: Time, draw: Draw)
    requires KeyOf(ctx, task, request) in app.requests
    ensures var o := Mutate(app, ctx, task, request, op, now, draw);
      && o.app == Clock(app, now).app
      && (o.result.Ok? ==> o.result.value == app.requests[KeyOf(ctx, task, request)].result
                           && app.requests[KeyOf(ctx, task, request)].fingerprint == OfMutation(op))
  {
    var c, key := Clock(app, now).app, KeyOf(ctx, task, request);
    assert c.requests == app.requests;
    var r := MutateRetry(c, ctx, key, op);
    if r.Ok? { RetriedResult(c, ctx, key, op); }
  }

  lemma RetainedUse(app: App, ctx: Context, task: Uuid, use: PrivateUse, now: Time, attempt: Uuid)
    requires KeyOf(ctx, task, use.request) in app.requests || DeliveryKeyUsed(app, KeyOf(ctx, task, use.request))
    ensures var o := Intent(app, ctx, task, use, now, attempt); o.app == Clock(app, now).app && o.result != Ok(None)
  {}

  /** In every run, as long as the vault clock stays inside the retry window of a receipt, using its key again changes
      nothing but the clock: a mutation answers with the same receipt or an error, a delivery is never staged. */
  lemma RequestTakesEffectOnce(states: seq<App>, events: seq<Event>, j: nat, ctx: Context, task: Uuid, request: Uuid,
                               op: Mutation, use: PrivateUse, now: Time, draw: Draw, attempt: Uuid)
    requires Run(states, events) && j < |states| && KeyOf(ctx, task, request) in states[0].requests && use.request == request
    requires forall i | 0 <= i <= j :: !Stale(states[0].requests[KeyOf(ctx, task, request)].at, states[i].lastTime)
    ensures var key := KeyOf(ctx, task, request); var mid := MaybeCompact(states[j]);
      && key in mid.requests && mid.requests[key] == states[0].requests[key]
      && Mutate(mid, ctx, task, request, op, now, draw).app == Clock(mid, now).app
      && (Mutate(mid, ctx, task, request, op, now, draw).result.Ok? ==>
            Mutate(mid, ctx, task, request, op, now, draw).result.value == states[0].requests[key].result)
      && Intent(mid, ctx, task, use, now, attempt).app == Clock(mid, now).app
      && Intent(mid, ctx, task, use, now, attempt).result != Ok(None)
  {
    var key, mid := KeyOf(ctx, task, request), MaybeCompact(states[j]);
    RunRetains(states, events, key);
    RetainedAlong(states, key, j);
    RunKeepsSound(states, events, j);
    KeyKeptByPruning(states[j], key);
    RetainedMutation(mid, ctx, task, request, op, now, draw);
    RetainedUse(mid, ctx, task, use, now, attempt);
  }

  lemma KeyKeptByPruning(a: App, k: RequestKey)
    requires Sound(a) && k in a.requests && !Stale(a.requests[k].at, a.lastTime)
    ensures k in MaybeCompact(a).requests && MaybeCompact(a).requests[k] == a.requests[k]
  {
    SoundReferences(a);
    if k !in MaybeCompact(a).requests { PrunedReceiptIsStale(a, k); }
  }

  /** An attempt of the same identity: only its status and its dispatch mark may differ. */
  predicate SameAttempt(d: Delivery, n: Delivery) { n == d.(status := n.status, dispatched := n.dispatched) }

  lemma OtherAttempts(a: App, e: Event, b: App, d: Uuid)
    requires Step(a, e, b) && !e.Op? && d in a.deliveries
    ensures d in b.deliveries && SameAttempt(a.deliveries[d], b.deliveries[d])
  {}

  lemma OpAttempt(mid: App, n: App, d: Uuid)
    requires DeliveriesFollow(mid, n) && d in mid.deliveries
    ensures d in n.deliveries && SameAttempt(mid.deliveries[d], n.deliveries[d])
  {}

  lemma AttemptKeptByPruning(a: App, d: Uuid)
    requires d in a.deliveries && !Stale(a.deliveries[d].at, a.lastTime)
    ensures d in MaybeCompact(a).deliveries && MaybeCompact(a).deliveries[d] == a.deliveries[d]
  {}

  /** An attempt inside its retry window survives every step with its key and its time. */
  lemma AttemptRetained(a: App, e: Event, b: App, d: Uuid)
    requires Sound(a) && Step(a, e, b) && d in a.deliveries && !Stale(a.deliveries[d].at, a.lastTime)
    ensures d in b.deliveries && SameAttempt(a.deliveries[d], b.deliveries[d])
  {
    if e.Op? {
      StepOfOp(a, e.c, b);
      AttemptKeptByPruning(a, d);
      StagedFacts(a, e.c);
      OpAttempt(MaybeCompact(a), Staged(MaybeCompact(a), e.c), d);
    } else {
      OtherAttempts(a, e, b, d);
    }
  }

  ghost predicate RetainsAttempt(states: seq<App>, d: Uuid)
  {
    forall i | 0 <= i < |states| - 1 :: d in states[i].deliveries && !Stale(states[i].deliveries[d].at, states[i].lastTime) ==>
      d in states[i + 1].deliveries && SameAttempt(states[i].deliveries[d], states[i + 1].deliveries[d])
  }

  lemma RunRetainsAttempt(states: seq<App>, events: seq<Event>, d: Uuid)
    requires Run(states, events)
    ensures RetainsAttempt(states, d)
  {
    forall i | 0 <= i < |states| - 1 && d in states[i].deliveries && !Stale(states[i].deliveries[d].at, states[i].lastTime)
      ensures d in states[i + 1].deliveries && SameAttempt(states[i].deliveries[d], states[i + 1].deliveries[d])
    {
      RunKeepsSound(states, events, i);
      assert Step(states[i], events[i], states[i + 1]);
      AttemptRetained(states[i], events[i], states[i + 1], d);
    }
  }

  lemma {:induction false} AttemptRetainedAlong(states: seq<App>, d: Uuid, j: nat)
    requires RetainsAttempt(states, d) && j < |states| && d in states[0].deliveries
    requires forall i | 0 <= i < j :: !Stale(states[0].deliveries[d].at, states[i].lastTime)
    ensures d in states[j].deliveries && SameAttempt(states[0].deliveries[d], states[j].deliveries[d])
  {
    if j > 0 { AttemptRetainedAlong(states, d, j - 1); }
  }

  lemma UsedKeyMutation(app: App, ctx: Context, task: Uuid, request: Uuid, op: Mutation, now: Time, draw: Draw)
    requires DeliveryKeyUsed(app, KeyOf(ctx, task, request))
    ensures var o := Mutate(app, ctx, task, request, op, now, draw); o.app == Clock(app, now).app && o.result.Err?
  {}

  /** In every run, as long as the vault clock stays inside the retry window of an attempt, its key stages neither a
      mutation nor a second delivery. */
  lemma AttemptTakesEffectOnce(states: seq<App>, events: seq<Event>, j: nat, d: Uuid, ctx: Context, task: Uuid, request: Uuid,
                               op: Mutation, use: PrivateUse, now: Time, draw: Draw, attempt: Uuid)
    requires Run(states, events) && j < |states| && d in states[0].deliveries && use.request == request
    requires states[0].deliveries[d].key == KeyOf(ctx, task, request)
    requires forall i | 0 <= i <= j :: !Stale(states[0].deliveries[d].at, states[i].lastTime)
    ensures var mid := MaybeCompact(states[j]);
      && Mutate(mid, ctx, task, request, op, now, draw).app == Clock(mid, now).app
      && Mutate(mid, ctx, task, request, op, now, draw).result.Err?
      && Intent(mid, ctx, task, use, now, attempt).app == Clock(mid, now).app
      && Intent(mid, ctx, task, use, now, attempt).result != Ok(None)
  {
    var mid := MaybeCompact(states[j]);
    RunRetainsAttempt(states, events, d);
    AttemptRetainedAlong(states, d, j);
    AttemptKeptByPruning(states[j], d);
    UsedKeyMutation(mid, ctx, task, request, op, now, draw);
    RetainedUse(mid, ctx, task, use, now, attempt);
  }

  /** Mutation keys and delivery keys stay disjoint in every state of a run. */
  lemma KeysStayDisjoint(states: seq<App>, events: seq<Event>, j: nat, k: RequestKey)
    requires Run(states, events) && j < |states|
    ensures !(k in states[j].requests && DeliveryKeyUsed(states[j], k))
  {
    RunKeepsSound(states, events, j);
    SoundParts(states[j]);
  }

  // ----- failed operations -----

  /** Whether the operation reports an error to its caller. */
  ghost predicate Fails(app: App, c: Command)
  {
    match c
    case CApprove(admin, approval, now) => ApproveTask(app, admin, approval, now).result.Err?
    case CRevokeTask(admin, id, now) => RevokeTask(app, admin, id, now).result.Err?
    case CMutate(ctx, task, request, op, now, draw) => Mutate(app, ctx, task, request, op, now, draw).result.Err?
    case CRead(ctx, task, record, fields, secret, now) => Read(app, ctx, task, record, fields, secret, now).result.Err?
    case CIntent(ctx, task, use, now, attempt) => Intent(app, ctx, task, use, now, attempt).result.Err?
    case CCancel(attempt) => Cancel(app, attempt).result.Err?
    case CFinish(ctx, task, attempt, status, at) => Finish(app, ctx, task, attempt, status, at).result.Err?
  }

  predicate OnlyClock(a: App, b: App) { b == a.(lastTime := b.lastTime, clockFrozen := b.clockFrozen) }

  lemma ClockOnlyClock(app: App, now: Time)
    ensures OnlyClock(app, Clock(app, now).app)
  {}

  lemma MutateFails(app: App, ctx: Context, task: Uuid, request: Uuid, op: Mutation, now: Time, draw: Draw)
    requires TasksOk(app.tasks) && Mutate(app, ctx, task, request, op, now, draw).result.Err?
    ensures OnlyClock(app, Mutate(app, ctx, task, request, op, now, draw).app)
  {
    MutateShape(app, ctx, task, request, op, now, draw);
    ClockOnlyClock(app, now);
  }

  lemma ApproveFails(app: App, admin: Context, task: Task, now: Time)
    requires ApproveTask(app, admin, task, now).result.Err?
    ensures OnlyClock(app, ApproveTask(app, admin, task, now).app)
  {
    ClockOnlyClock(app, now);
  }

  lemma RevokeTaskFails(app: App, admin: Context, id: Uuid, now: Time)
    requires RevokeTask(app, admin, id, now).result.Err?
    ensures OnlyClock(app, RevokeTask(app, admin, id, now).app)
  {}

  lemma ReadFails(app: App, ctx: Context, task: Uuid, record: Uuid, fields: set<Field>, secret: bool, now: Time)
    requires Read(app, ctx, task, record, fields, secret, now).result.Err?
    ensures OnlyClock(app, Read(app, ctx, task, record, fields, secret, now).app)
  {
    ReadShape(app, ctx, task, record, fields, secret, now);
    ClockOnlyClock(app, now);
  }

  lemma IntentFails(app: App, ctx: Context, task: Uuid, use: PrivateUse, now: Time, attempt: Uuid)
    requires Intent(app, ctx, task, use, now, attempt).result.Err?
    ensures OnlyClock(app, Intent(app, ctx, task, use, now, attempt).app)
  {
    IntentShape(app, ctx, task, use, now, attempt);
    ClockOnlyClock(app, now);
  }

  lemma SettlingSucceeds(app: App, attempt: Uuid, ctx: Context, task: Uuid, status: Status, at: Time)
    requires Sound(app) && Unfinished(app, attempt)
    ensures Finish(app, ctx, task, attempt, status, at).result.Ok?
  {
    UnfinishedIsDispatched(app, attempt);
  }

  /** The owner commits what a failed operation staged, and that differs from the pruned state only in the clock. */
  lemma FailureIsEffectFree(app: App, c: Command)
    requires Sound(app) && WellDrawn(app, c) && Fails(app, c)
    ensures OnlyClock(app, Staged(app, c))
  {
    if c.CCancel? || c.CFinish? {
      SettlingIsNoFailure(app, c);
    } else {
      SoundTasks(app);
      RequestFails(app, c);
    }
  }

  lemma SettlingIsNoFailure(app: App, c: Command)
    requires Sound(app) && WellDrawn(app, c) && (c.CCancel? || c.CFinish?)
    ensures !Fails(app, c)
  {
    if c.CCancel? { CancelSucceeds(app, c.attempt); } else { SettlingSucceeds(app, c.attempt, c.ctx, c.task, c.status, c.at); }
  }

  lemma CancelSucceeds(app: App, attempt: Uuid)
    requires Sound(app) && Unfinished(app, attempt)
    ensures Cancel(app, attempt).result.Ok?
  {
    UnfinishedIsDispatched(app, attempt);
  }

  lemma RequestFails(app: App, c: Command)
    requires TasksOk(app.tasks) && Fails(app, c) && !c.CCancel? && !c.CFinish?
    ensures OnlyClock(app, Staged(app, c))
  {
    match c
    case CApprove(admin, approval, now) => ApproveFails(app, admin, approval, now);
    case CRevokeTask(admin, id, now) => RevokeTaskFails(app, admin, id, now);
    case CMutate(ctx, task, request, op, now, draw) => MutateFails(app, ctx, task, request, op, now, draw);
    case CRead(ctx, task, record, fields, secret, now) => ReadFails(app, ctx, task, record, fields, secret, now);
    case CIntent(ctx, task, use, now, attempt) => IntentFails(app, ctx, task, use, now, attempt);
  }
}
