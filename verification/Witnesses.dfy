/** Concrete applications on which the promised behaviour fails, for each place where it holds only under a condition. */
module Witnesses {
  import opened Types
  import opened Policy
  import opened Ledger
  import opened Compaction
  import opened CompactionLedger
  import opened Preservation
  import opened Operations
  import opened Workflow
  import opened Settlement
  import opened Mutations
  import opened Commands
  import Transition
  import opened Directory
  import opened Recovery

  const TASK := Task(1, "owner", "agent", "desk", "mail", "site", {Username, Password}, {SecretWrite, SecretUse}, {"site"}, 1_000_000, None)

  lemma OneTask(t: Task)
    requires t.id == 1 && TaskBoundsOk(t, TIME_MIN)
    ensures TasksOk(map[1 := t])
  {}

  lemma TaskIsFine()
    ensures TaskBoundsOk(TASK, TIME_MIN)
  {}

  // ----- compaction of split deletes -----

  const GONE := Record(2, "owner", "desk", "agent", 1, "mail", "site", LoginKind, 3, 1, map[], Pending, true, false)

  function Key(id: Uuid): RequestKey { RequestKey("owner", "agent", 1, id) }

  function Entry(kind: Kind, revision: U64, at: Time): Remembered
  {
    Remembered(OfMutation(Delete(2, 0)), Receipt(2, revision, None), kind, Some(at))
  }

  const TWICE_DELETED := EMPTY.(generation := 1, tasks := map[1 := TASK], records := map[2 := GONE], lastTime := Some(100_000),
                                requests := map[Key(1) := Entry(KCreate, 1, 0), Key(2) := Entry(KDelete, 2, 0), Key(3) := Entry(KDelete, 3, 100_000)])

  lemma TwiceDeletedStructure()
    ensures StructureOk(TWICE_DELETED)
  {
    TaskIsFine();
    OneTask(TASK);
  }

  lemma TwiceDeletedAccount()
    ensures AccountOk(TWICE_DELETED.requests, NO_BASELINE, 2, GONE)
  {
    var r := TWICE_DELETED.requests;
    assert IsOfKind(r, Key(1), 2, KCreate) && IsOfKind(r, Key(2), 2, KDelete);
    assert KeysOfKind(r, 2, KPatch) == {};
    assert IsReceipt(r, Key(1), 2, 1) && IsReceipt(r, Key(2), 2, 2) && IsReceipt(r, Key(3), 2, 3);
    forall n | 0 < n <= 3 ensures HasRevision(r, 2, n) { assert IsReceipt(r, Key(n), 2, n); }
  }

  lemma TwiceDeletedValid()
    ensures Valid(TWICE_DELETED)
  {
    TwiceDeletedStructure();
    TwiceDeletedAccount();
    TwiceDeletedRequests();
    TwiceDeletedRest();
    hide Ledger.RequestsOk, Ledger.StructureOk, Ledger.AccountOk;
  }

  lemma TwiceDeletedRequests()
    ensures RequestsOk(TWICE_DELETED)
  {
    var a := TWICE_DELETED;
    forall k | k in a.requests ensures RequestOk(TASK, GONE, 0, a.grants, k, a.requests[k]) {}
  }

  lemma TwiceDeletedRest()
    ensures RevisionsDistinct(TWICE_DELETED.requests) && SharesDistinct(TWICE_DELETED.requests) && BaselinesOk(TWICE_DELETED)
    ensures GrantsAccounted(TWICE_DELETED) && ActivityOk(TWICE_DELETED)
  {}

  lemma FirstDeleteFolds()
    ensures NewThrough(TWICE_DELETED, 2) == 2
  {
    var r, last := TWICE_DELETED.requests, TWICE_DELETED.lastTime;
    assert IsStaleReceipt(r, last, Key(1), 2, 1) && IsStaleReceipt(r, last, Key(2), 2, 2);
    assert !HasStale(r, last, 2, 3);
    assert Horizon(r, last, 2, 2, 3) == 2;
    assert Horizon(r, last, 2, 1, 3) == 2;
    assert Horizon(r, last, 2, 0, 3) == 2;
  }

  /** A valid application with two delete receipts of one record, one of them stale: compaction makes it invalid. */
  lemma CompactionCanBreakTheLedger()
    ensures Valid(TWICE_DELETED) && !Valid(Compact(TWICE_DELETED))
  {
    TwiceDeletedValid();
    FirstDeleteFolds();
    assert Key(2) in FoldedOfKind(TWICE_DELETED, 2, KDelete);
    assert IsOfKind(KeptRequests(TWICE_DELETED), Key(3), 2, KDelete);
    assert SplitsDeletes(TWICE_DELETED, 2);
    CompactValidExactly(TWICE_DELETED);
  }

  // ----- recovery of an interrupted login on a sealed record -----

  /** A login may be attempted on a record whose verified login is sealed; if it is interrupted, nothing recovers the vault. */
  lemma InterruptedLoginSticks(app: App, ctx: Context, task: Uuid, use: PrivateUse, at: Time, attempt: Uuid, now: Time)
    requires Sound(app) && attempt != NIL && attempt !in app.deliveries && use.action == Login && BaseOf(app.baselines, use.record).verifiedLogin
    requires Intent(app, ctx, task, use, at, attempt).result == Ok(None)
    ensures var b := Intent(app, ctx, task, use, at, attempt).app; Sound(b) && Sanitize(b, now).Err?
  {
    var b := Intent(app, ctx, task, use, at, attempt).app;
    IntentSoundExactly(app, ctx, task, use, at, attempt);
    LoginIsStuck(app, ctx, task, use, at, attempt);
    SanitizeSucceedsExactly(b, now);
  }

  lemma LoginIsStuck(app: App, ctx: Context, task: Uuid, use: PrivateUse, at: Time, attempt: Uuid)
    requires use.action == Login && BaseOf(app.baselines, use.record).verifiedLogin && Intent(app, ctx, task, use, at, attempt).result == Ok(None)
    ensures Stuck(Intent(app, ctx, task, use, at, attempt).app)
  {
    var b := Intent(app, ctx, task, use, at, attempt).app;
    IntentShape(app, ctx, task, use, at, attempt);
    assert attempt in b.deliveries && b.deliveries[attempt].record == use.record;
    assert UnfinishedOn(b, use.record);
  }

  const VERIFIED := Record(2, "owner", "desk", "agent", 1, "mail", "site", LoginKind, 1, 1, map[Username := "u", Password := "p"], VerifiedLogin, false, false)

  const SEALED := EMPTY.(generation := 1, tasks := map[1 := TASK], records := map[2 := VERIFIED], lastTime := Some(100_000),
                         baselines := map[2 := Baseline(1, 1, false, {}, false, true)])

  const AGENT := Context("owner", "agent", "desk", false, None)

  const LOGIN := PrivateUse(7, 2, {Username, Password}, "site", Login)

  lemma SealedStructure()
    ensures StructureOk(SEALED)
  {
    TaskIsFine();
    OneTask(TASK);
    assert VERIFIED.values.Keys == {Username, Password};
  }

  lemma SealedSound()
    ensures Sound(SEALED)
  {
    SealedStructure();
    SealedAccounts();
    SealedRest();
    NoReceiptsSound(SEALED);
  }

  lemma SealedAccounts()
    ensures AccountsOk(SEALED)
  {
    assert KeysOfKind(SEALED.requests, 2, KPatch) == {};
    assert AccountOk(SEALED.requests, SEALED.baselines[2], 2, VERIFIED);
    hide Ledger.AccountOk;
  }

  lemma SealedRest()
    ensures BaselinesOk(SEALED) && GrantsAccounted(SEALED) && ActivityOk(SEALED)
  {}

  /** Without receipts, what is left to check. */
  lemma NoReceiptsSound(app: App)
    requires app.requests == map[] && StructureOk(app) && BaselinesOk(app) && AccountsOk(app) && GrantsAccounted(app) && ActivityOk(app)
    ensures Sound(app)
  {
    hide Ledger.StructureOk, Ledger.BaselinesOk, Ledger.AccountsOk, Ledger.GrantsAccounted, Ledger.ActivityOk;
    ValidIs(app);
  }

  /** Such a login is admitted: the conditions of `InterruptedLoginSticks` can be met. */
  lemma SealedLoginIsAdmitted()
    ensures Sound(SEALED) && BaseOf(SEALED.baselines, LOGIN.record).verifiedLogin
    ensures Intent(SEALED, AGENT, 1, LOGIN, 100_000, 3).result == Ok(None)
  {
    SealedSound();
    assert VERIFIED.values.Keys == {Username, Password};
    assert Select(SEALED, AGENT, 1, 2, {Username, Password}, SecretUse, Some("site"), 100_000).Ok?;
  }

  // ----- recovery evidence that is refused -----

  const SPENT := TASK.(id := 5)
  const CROWDED := EMPTY.(generation := 32, tasks := map[1 := TASK, 5 := SPENT], revokedTasks := {5}, lastTime := Some(100_000))
  const CHIEF := Context("owner", "chief", "desk", true, None)

  lemma CrowdedSound()
    ensures Sound(CROWDED)
  {
    CrowdedStructure();
    assert ReceiptsOk(CROWDED) && ActivityOk(CROWDED);
    hide Ledger.StructureOk;
  }

  lemma CrowdedStructure()
    ensures StructureOk(CROWDED)
  {
    TaskIsFine();
    assert TaskBoundsOk(SPENT, TIME_MIN);
    assert CROWDED.revokedTasks <= CROWDED.tasks.Keys;
  }

  lemma SpentIsPruned()
    ensures ShouldCompact(CROWDED) && 5 !in Compact(CROWDED).tasks && 1 in Compact(CROWDED).tasks && Compact(CROWDED).tasks[1] == TASK
    ensures Compact(CROWDED).lastTime == Some(100_000) && !Compact(CROWDED).clockFrozen
  {
    assert CROWDED.generation % 32 == 0;
    assert !Removable(CROWDED, 1) && Removable(CROWDED, 5);
  }

  /** Approving again, in the same publication, a task that it prunes: recovery refuses the genuine successor. */
  lemma ReapprovalIsRefused()
    ensures Sound(CROWDED)
    ensures var c := CApprove(CHIEF, SPENT, 100_000); Valid(Transition.Published(CROWDED, c)) && !Transition.Transition(CROWDED, Transition.Published(CROWDED, c))
  {
    CrowdedSound();
    SpentIsPruned();
    var c := CApprove(CHIEF, SPENT, 100_000);
    var mid := MaybeCompact(CROWDED);
    ReapprovedIsValid(c, mid);
    Reapproved(mid);
    Transition.OwnerReflexive(CROWDED);
    Transition.EvidenceAcceptedExactly(CROWDED, CROWDED, c);
    assert Transition.Reuses(CROWDED, c);
  }

  lemma Reapproved(mid: App)
    requires mid.lastTime == Some(100_000) && !mid.clockFrozen && 5 !in mid.tasks && |mid.tasks| < LIMIT
    requires forall id | id in mid.tasks :: mid.tasks[id].owner == "owner" && mid.tasks[id].workspace == "desk"
    ensures ApproveTask(mid, CHIEF, SPENT, 100_000).result.Ok?
  {
    assert TaskBoundsOk(SPENT, 100_000);
  }

  lemma ReapprovedIsValid(c: Command, mid: App)
    requires c == CApprove(CHIEF, SPENT, 100_000) && mid == MaybeCompact(CROWDED) && Sound(CROWDED)
    ensures Sound(mid) && Valid(Transition.Published(CROWDED, c)) && |mid.tasks| <= 2
    ensures forall id | id in mid.tasks :: mid.tasks[id].owner == "owner" && mid.tasks[id].workspace == "desk"
  {
    hide Compaction.Compact;
    CompactKeepsSound(CROWDED);
    ApproveKeepsSound(mid, CHIEF, SPENT, 100_000);
    Renumbered(Staged(mid, c), 33);
    CrowdedTasks();
  }

  lemma Renumbered(app: App, n: U64)
    requires Sound(app) && n > 0
    ensures Valid(app.(generation := n))
  {
    ValidIs(app);
    SameBooksValid(app, app.(generation := n));
  }

  lemma CrowdedTasks()
    ensures var mid := MaybeCompact(CROWDED);
      |mid.tasks| <= 2 && forall id | id in mid.tasks :: mid.tasks[id].owner == "owner" && mid.tasks[id].workspace == "desk"
  {
    var mid := MaybeCompact(CROWDED);
    assert mid.tasks.Keys <= CROWDED.tasks.Keys;
    SubsetSize(mid.tasks.Keys, CROWDED.tasks.Keys);
  }

  const PLAIN := VERIFIED.(signup := Pending)
  const CREATED := Entry(KCreate, 1, 0)
  const AGED := EMPTY.(generation := 1, tasks := map[1 := TASK], records := map[2 := PLAIN], lastTime := Some(100_000), requests := map[Key(1) := CREATED])
  const LOGIN_VALUES: Values := map[Username := "u", Password := "p"]
  const AGAIN := CMutate(AGENT, 1, 1, Create(LoginKind, LOGIN_VALUES), 100_000, Draw(8, None, false))

  lemma PlainRecordOk()
    ensures RecordOk(TASK, 2, PLAIN)
  {
    assert PLAIN.values.Keys == {Username, Password};
  }

  lemma AgedSound()
    ensures Sound(AGED)
  {
    TaskIsFine();
    OneTask(TASK);
    PlainRecordOk();
    AgedReceipts();
    ValidIs(AGED);
    assert StructureOk(AGED) && ActivityOk(AGED);
  }

  lemma AgedReceipts()
    ensures ReceiptsOk(AGED)
  {
    var r := AGED.requests;
    assert IsOfKind(r, Key(1), 2, KCreate) && IsReceipt(r, Key(1), 2, 1);
    assert KeysOfKind(r, 2, KPatch) == {};
    assert RequestOk(TASK, PLAIN, 0, AGED.grants, Key(1), CREATED);
    assert AccountOk(r, NO_BASELINE, 2, PLAIN);
    hide Ledger.AccountOk, Ledger.RequestOk;
  }

  lemma AgedFolds()
    ensures NewThrough(AGED, 2) == 1 && ShouldCompact(AGED)
  {
    var r, last := AGED.requests, AGED.lastTime;
    assert IsStaleReceipt(r, last, Key(1), 2, 1);
    assert Horizon(r, last, 2, 1, 1) == 1;
    assert Horizon(r, last, 2, 0, 1) == 1;
  }

  lemma AgedPruned()
    ensures var mid := MaybeCompact(AGED);
      && mid.requests == map[] && mid.deliveries == map[] && mid.grants == map[] && mid.tasks == map[1 := TASK] && mid.revokedTasks == {}
      && mid.records == map[2 := PLAIN] && mid.lastTime == Some(100_000) && !mid.clockFrozen && mid.generation == 1
  {
    AgedFolds();
    AgedRecords();
    AgedTask();
    hide Compaction.NewThrough, Compaction.KeptRecords, Compaction.KeepsTask, Compaction.NewBase, Compaction.KeepsGrant, Compaction.ShouldCompact;
    assert Compact(AGED).requests == map[] && Compact(AGED).grants == map[] && Compact(AGED).deliveries == map[];
  }

  lemma AgedRecords()
    ensures KeptRequests(AGED) == map[] && KeptRecords(AGED) == map[2 := PLAIN]
  {
    AgedFolds();
  }

  lemma AgedTask()
    ensures KeptTasks(AGED) == map[1 := TASK]
  {
    AgedRecords();
    assert KeptRecords(AGED)[2].task == 1;
    hide Compaction.NewThrough, Compaction.MentionsRecord;
    assert KeepsTask(AGED, 1);
  }

  lemma AgainIsAnswered(mid: App)
    requires mid.requests == map[] && mid.deliveries == map[] && mid.tasks == map[1 := TASK] && mid.revokedTasks == {}
    requires mid.records == map[2 := PLAIN] && mid.lastTime == Some(100_000) && !mid.clockFrozen
    ensures Mutate(mid, AGENT, 1, 1, Create(LoginKind, LOGIN_VALUES), 100_000, Draw(8, None, false)).result == Ok(Receipt(8, 1, None))
  {
    assert LOGIN_VALUES.Keys == {Username, Password};
    assert TaskFor(mid, AGENT, 1, 100_000) == Ok(TASK);
    assert Authorize(mid, AGENT, TASK, Create(LoginKind, LOGIN_VALUES), 100_000, true).None?;
    assert Authorize(mid, AGENT, TASK, Create(LoginKind, LOGIN_VALUES), 100_000, false).None?;
  }

  /** Using again, in the same publication, a request key that it prunes: recovery refuses the genuine successor. */
  lemma RepeatedKeyIsRefused()
    ensures Sound(AGED) && Valid(Transition.Published(AGED, AGAIN)) && !Transition.Transition(AGED, Transition.Published(AGED, AGAIN))
  {
    var mid := MaybeCompact(AGED);
    AgedSound();
    AgedPruned();
    AgainIsAnswered(mid);
    CompactKeepsSound(AGED);
    hide Policy.Mutate, Compaction.MaybeCompact, CompactionLedger.Sound, Compaction.Compact;
    AgainIsSound(mid);
    RepeatedIsReuse(mid);
    RepeatedIsPublished(mid);
    Transition.OwnerReflexive(AGED);
    hide Transition.Reuses, Commands.WellDrawn;
    Transition.EvidenceAcceptedExactly(AGED, AGED, AGAIN);
  }

  lemma RepeatedIsReuse(mid: App)
    requires mid == MaybeCompact(AGED) && mid.requests == map[]
    requires Mutate(mid, AGENT, 1, 1, Create(LoginKind, LOGIN_VALUES), 100_000, Draw(8, None, false)).result.Ok?
    ensures Transition.Reuses(AGED, AGAIN)
  {
    hide Policy.Mutate, Compaction.MaybeCompact;
  }

  lemma RepeatedIsPublished(mid: App)
    requires mid == MaybeCompact(AGED) && Sound(Staged(mid, AGAIN))
    ensures Valid(Transition.Published(AGED, AGAIN))
  {
    hide Policy.Mutate, Compaction.MaybeCompact;
    Renumbered(Staged(mid, AGAIN), 2);
  }

  lemma AgainIsSound(mid: App)
    requires Sound(mid) && mid.lastTime == Some(100_000) && !mid.clockFrozen && mid.tasks == map[1 := TASK] && WellDrawn(mid, AGAIN)
    ensures Sound(Staged(mid, AGAIN))
  {
    EveryCommandSoundExactly(mid, AGAIN);
  }

  // ----- operations whose candidate the validator refuses -----

  /** Patching the password of a record with a sealed verified login is accepted, and its candidate is refused. */
  lemma SealedPatchIsRefused()
    ensures var c := CMutate(AGENT, 1, 9, Patch(2, 1, map[Password := "q"]), 100_000, Draw(8, None, false));
      Sound(SEALED) && WellDrawn(SEALED, c) && !Sound(Staged(SEALED, c))
      && Mutate(SEALED, c.ctx, c.task, c.request, c.op, c.now, c.draw).result == Ok(Receipt(2, 2, None))
  {
    var op := Patch(2, 1, map[Password := "q"]);
    var draw := Draw(8, None, false);
    SealedSound();
    SealedPatchIsAnswered(op);
    hide Policy.Mutate, CompactionLedger.Sound;
    MutateSoundExactly(SEALED, AGENT, 1, 9, op, 100_000, draw);
    assert MovesSealed(SEALED, 2, SignupAfter(VERIFIED, op));
  }

  lemma SealedPatchIsAnswered(op: Mutation)
    requires op == Patch(2, 1, map[Password := "q"])
    ensures Mutate(SEALED, AGENT, 1, 9, op, 100_000, Draw(8, None, false)).result == Ok(Receipt(2, 2, None))
  {
    assert op.values.Keys == {Password};
    assert Can(SEALED, AGENT, TASK, VERIFIED, SecretWrite, {Password}, None, 100_000);
    assert Authorize(SEALED, AGENT, TASK, op, 100_000, true).None? && Authorize(SEALED, AGENT, TASK, op, 100_000, false).None?;
  }

  const START := EMPTY.(generation := 1, tasks := map[1 := TASK])

  lemma StartSound()
    ensures Sound(START)
  {
    TaskIsFine();
    OneTask(TASK);
  }

  /** A first operation at a negative time is accepted, and its candidate is refused. */
  lemma NegativeTimeIsRefused()
    ensures var c := CMutate(AGENT, 1, 9, Create(LoginKind, LOGIN_VALUES), -1, Draw(8, None, false));
      Sound(START) && WellDrawn(START, c) && !Sound(Staged(START, c))
      && Mutate(START, c.ctx, c.task, c.request, c.op, c.now, c.draw).result == Ok(Receipt(8, 1, None))
  {
    StartSound();
    EarlyIsAnswered();
    hide Policy.Mutate, CompactionLedger.Sound;
    MutateSoundExactly(START, AGENT, 1, 9, Create(LoginKind, LOGIN_VALUES), -1, Draw(8, None, false));
  }

  lemma EarlyIsAnswered()
    ensures Mutate(START, AGENT, 1, 9, Create(LoginKind, LOGIN_VALUES), -1, Draw(8, None, false)).result == Ok(Receipt(8, 1, None))
  {
    var op := Create(LoginKind, LOGIN_VALUES);
    assert LOGIN_VALUES.Keys == {Username, Password};
    assert Authorize(START, AGENT, TASK, op, -1, true).None? && Authorize(START, AGENT, TASK, op, -1, false).None?;
  }

  const BANKING := TASK.(id := 5, principal := "chief", service := "bank")
  const MISFILED := EMPTY.(generation := 1, tasks := map[1 := TASK, 5 := BANKING], records := map[2 := PLAIN], lastTime := Some(100_000),
                           baselines := map[2 := Baseline(1, 1, false, {}, false, false)])

  lemma MisfiledStructure()
    ensures StructureOk(MISFILED)
  {
    MisfiledTasks();
    PlainRecordOk();
    hide Ledger.TasksOk, Ledger.RecordOk;
  }

  lemma MisfiledTasks()
    ensures TasksOk(MISFILED.tasks)
  {
    TaskIsFine();
    assert TaskBoundsOk(BANKING, TIME_MIN);
    hide Policy.TaskBoundsOk;
  }

  lemma MisfiledSound()
    ensures Sound(MISFILED)
  {
    MisfiledStructure();
    MisfiledAccounts();
    MisfiledRest();
    NoReceiptsSound(MISFILED);
  }

  lemma MisfiledAccounts()
    ensures AccountsOk(MISFILED)
  {
    assert KeysOfKind(MISFILED.requests, 2, KPatch) == {};
    assert AccountOk(MISFILED.requests, MISFILED.baselines[2], 2, PLAIN);
    hide Ledger.AccountOk;
  }

  lemma MisfiledRest()
    ensures BaselinesOk(MISFILED) && GrantsAccounted(MISFILED) && ActivityOk(MISFILED)
  {}

  /** An administrator's delete through an approval of another service is accepted, and its candidate is refused. */
  lemma ForeignDeleteIsRefused()
    ensures var c := CMutate(CHIEF, 5, 9, Delete(2, 1), 100_000, Draw(8, None, false));
      Sound(MISFILED) && WellDrawn(MISFILED, c) && !Sound(Staged(MISFILED, c))
      && Mutate(MISFILED, c.ctx, c.task, c.request, c.op, c.now, c.draw).result == Ok(Receipt(2, 2, None))
  {
    MisfiledSound();
    ForeignIsAnswered();
    hide Policy.Mutate, CompactionLedger.Sound;
    MutateSoundExactly(MISFILED, CHIEF, 5, 9, Delete(2, 1), 100_000, Draw(8, None, false));
  }

  lemma ForeignIsAnswered()
    ensures Mutate(MISFILED, CHIEF, 5, 9, Delete(2, 1), 100_000, Draw(8, None, false)).result == Ok(Receipt(2, 2, None))
  {
    assert Authorize(MISFILED, CHIEF, BANKING, Delete(2, 1), 100_000, true).None?;
    assert Authorize(MISFILED, CHIEF, BANKING, Delete(2, 1), 100_000, false).None?;
  }

  // ----- a recovery that cannot be resumed -----

  const OLDER := Sealed(EMPTY.(generation := 1), "seed", Header(1, 1), 1)
  const NEWER := Sealed(EMPTY.(generation := 2), "seed", Header(1, 1), 2)

  /** The candidate is visible and its intent durable, but its rename is not synchronised yet. */
  const UNSETTLED: Files := Disk(Cell(Whole(NEWER), {Whole(OLDER), Whole(NEWER)}), Flushed(Cell(Pair(Some(OLDER), NEWER), {})), Flushed(Cell(Absent, {})))

  lemma EmptySound(n: U64)
    requires n > 0
    ensures Sound(EMPTY.(generation := n))
  {}

  lemma UnsettledIsGenuine()
    ensures Genuine(Some(OLDER), NEWER) && Announced(UNSETTLED, Some(OLDER), NEWER)
  {
    EmptySound(1);
    EmptySound(2);
  }

  lemma UnsettledIsDecided()
    ensures Decide(UNSETTLED, "seed", CHIEF, 0, 3).Ok?
  {
    UnsettledIsGenuine();
    EmptySound(2);
    SanitizeSucceedsExactly(NEWER.app, 0);
    hide Ledger.Valid, Settlement.Sanitize, Transition.Transition;
    GenuineIsConsistent(Some(OLDER), NEWER);
    DecidedFresh(UNSETTLED, Some(OLDER), NEWER, CHIEF, 0, 3, NEWER);
  }

  /** Recovery decides on a plan there, and some crash after the plan's rename leaves a directory it refuses for good. */
  lemma UnsettledPlanIsLost()
    ensures Decide(UNSETTLED, "seed", CHIEF, 0, 3).Ok? && !Survives(UNSETTLED, Decide(UNSETTLED, "seed", CHIEF, 0, 3).value, CHIEF)
  {
    UnsettledIsGenuine();
    UnsettledIsDecided();
    hide Recovery.Decide, Recovery.Survives, Recovery.Genuine;
    assert UNSETTLED.state.durable != {UNSETTLED.state.visible} by { assert Whole(OLDER) in UNSETTLED.state.durable && Whole(OLDER) != Whole(NEWER); }
    PlanSurvivesExactly(UNSETTLED, Some(OLDER), NEWER, CHIEF, 0, 3);
  }
}
