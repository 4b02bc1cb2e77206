/** Where authority and change come from, over every run: whatever is new or different in a later state was approved, shared,
    revoked or changed in between by somebody who was entitled to it then. */
module Provenance {
  import opened Types
  import opened Policy
  import opened Ledger
  import opened Compaction
  import opened CompactionLedger
  import opened Preservation
  import opened Operations
  import opened Workflow
  import opened Commands
  import opened Transition
  import opened Runs
  import Registration
  import Settlement
  import Authority
  import Deliveries

  // ----- approvals -----

  /** An administrator of its owner and workspace approves exactly this task. */
  ghost predicate Approval(a: App, e: Event, t: Task)
  {
    e.Op? && e.c.CApprove? && e.c.approval == t && Authority.Approvable(MaybeCompact(a), e.c.admin, t, e.c.now)
  }

  lemma StagedApproval(mid: App, c: Command, id: Uuid)
    requires c.CApprove? && c.approval.id == id && Authority.Approvable(mid, c.admin, c.approval, c.now)
    ensures id in Staged(mid, c).tasks && Staged(mid, c).tasks[id] == c.approval
  {
    Authority.ApprovedExactly(mid, c.admin, c.approval, c.now);
    hide Policy.ApproveTask;
  }

  lemma TaskOfStep(a: App, e: Event, b: App, id: Uuid)
    requires Sound(a) && Step(a, e, b) && id in b.tasks
    ensures (id in a.tasks && a.tasks[id] == b.tasks[id]) || Approval(a, e, b.tasks[id])
  {
    StepHeirs(a, e, b);
    hide Authority.Approvable, Compaction.MaybeCompact, Commands.Staged;
    if Approves(a, e, id) { StagedApproval(MaybeCompact(a), e.c, id); }
  }

  // ----- records and grants -----

  /** A new request with this operation is accepted from somebody entitled to it. */
  ghost predicate Request(a: App, e: Event)
  {
    && e.Op? && e.c.CMutate? && KeyOf(e.c.ctx, e.c.task, e.c.request) !in MaybeCompact(a).requests
    && Authority.Acceptable(MaybeCompact(a), e.c.ctx, e.c.task, e.c.request, e.c.op, e.c.now, e.c.draw)
  }

  /** What readers see of a record and what binds grants to it. */
  predicate SameContent(r: Record, n: Record) { n.values == r.values && n.deleted == r.deleted && n.secretVersion == r.secretVersion }

  /** The request deletes the record or writes to it. */
  ghost predicate Rewrites(a: App, e: Event, id: Uuid)
  {
    Request(a, e) && (e.c.op.Delete? || e.c.op.Patch?) && e.c.op.record == id
  }

  /** The request shares the record of the grant, under exactly its terms. */
  ghost predicate Sharing(a: App, e: Event, id: Uuid, g: Grant)
  {
    && Request(a, e) && e.c.op.Share? && e.c.draw.id == id && e.c.op.record == g.record && e.c.op.grant == g.spec
    && g.issuerTask == e.c.task && g.adminIssued == e.c.ctx.admin
  }

  /** No record but its own, and no grant but its own, is touched by a change. */
  lemma ChangeTouches(m: App, n: App, ctx: Context, task: Uuid, request: Uuid, op: Mutation, at: Time, draw: Draw, receipt: Receipt, id: Uuid)
    requires task in m.tasks && (Creates(op) || op.record in m.records) && Authority.Leaves(m, n, ctx, task, request, op, at, draw, receipt)
    ensures id in m.records && id in n.records && id != draw.id ==>
              SameContent(m.records[id], n.records[id]) || ((op.Delete? || op.Patch?) && op.record == id)
    ensures n.revokedTasks == m.revokedTasks
    ensures id in n.grants && id !in m.grants ==>
              op.Share? && id == draw.id && n.grants[id] == Grant(op.record, op.grant, false, m.records[op.record].secretVersion, task, ctx.admin)
  {}

  lemma MutationTouches(mid: App, c: Command, n: App, id: Uuid)
    requires c.CMutate? && n == Staged(mid, c)
    requires KeyOf(c.ctx, c.task, c.request) !in mid.requests
    ensures n.revokedTasks == mid.revokedTasks
    ensures id in mid.records && id in n.records && id != c.draw.id ==>
              || SameContent(mid.records[id], n.records[id])
              || ((c.op.Delete? || c.op.Patch?) && c.op.record == id && Authority.Acceptable(mid, c.ctx, c.task, c.request, c.op, c.now, c.draw))
    ensures id in n.grants && id !in mid.grants ==>
              && Authority.Acceptable(mid, c.ctx, c.task, c.request, c.op, c.now, c.draw) && c.op.Share? && id == c.draw.id
              && n.grants[id].record == c.op.record && n.grants[id].spec == c.op.grant && n.grants[id].issuerTask == c.task
              && n.grants[id].adminIssued == c.ctx.admin
  {
    var o := Mutate(mid, c.ctx, c.task, c.request, c.op, c.now, c.draw);
    Authority.MutatedExactly(mid, c.ctx, c.task, c.request, c.op, c.now, c.draw);
    Authority.SampledBooks(mid, c.now);
    if o.result.Ok? { AcceptedTouches(mid, c, o.app, o.result.value, id); }
    hide Authority.Acceptable, Policy.Mutate, Authority.Leaves, Authority.Sampled;
  }

  lemma AcceptedTouches(mid: App, c: Command, n: App, receipt: Receipt, id: Uuid)
    requires c.CMutate? && Authority.Acceptable(mid, c.ctx, c.task, c.request, c.op, c.now, c.draw)
    requires var m := Authority.Sampled(mid, c.now);
      && c.task in m.tasks && (Creates(c.op) || c.op.record in m.records)
      && Authority.Leaves(m, n, c.ctx, c.task, c.request, c.op, Authority.Effective(mid, c.now), c.draw, receipt)
    ensures n.revokedTasks == mid.revokedTasks
    ensures id in mid.records && id in n.records && id != c.draw.id ==>
              SameContent(mid.records[id], n.records[id]) || ((c.op.Delete? || c.op.Patch?) && c.op.record == id)
    ensures id in n.grants && id !in mid.grants ==>
              && c.op.Share? && id == c.draw.id && n.grants[id].record == c.op.record && n.grants[id].spec == c.op.grant
              && n.grants[id].issuerTask == c.task && n.grants[id].adminIssued == c.ctx.admin
  {
    Authority.SampledBooks(mid, c.now);
    ChangeTouches(Authority.Sampled(mid, c.now), n, c.ctx, c.task, c.request, c.op, Authority.Effective(mid, c.now), c.draw, receipt, id);
    hide Authority.Acceptable, Authority.Leaves, Authority.Sampled, Authority.Effective;
  }

  lemma RepeatedTouches(mid: App, c: Command, n: App, id: Uuid)
    requires c.CMutate? && n == Staged(mid, c) && KeyOf(c.ctx, c.task, c.request) in mid.requests
    ensures n.records == mid.records && n.grants == mid.grants && n.revokedTasks == mid.revokedTasks
  {
    Authority.RepeatedExactly(mid, c.ctx, c.task, c.request, c.op, c.now, c.draw);
    Authority.SampledBooks(mid, c.now);
    hide Policy.Mutate, Authority.Sampled;
  }

  /** An administrator of its owner and workspace revokes the approval, or a recovery revokes them all. */
  predicate Revocation(app: App, e: Event, id: Uuid)
    requires id in app.tasks
  {
    || e.Recovered?
    || (e.Op? && e.c.CRevokeTask? && e.c.id == id && Authority.Admitted(app, e.c.now) && Authority.Governs(e.c.admin, app.tasks[id]))
  }

  /** The content of all records and all grants are as they were, and no approval was revoked but by an administrator. */
  ghost predicate Untouched(mid: App, c: Command, n: App)
  {
    && n.grants == mid.grants && (forall id | id in mid.records && id in n.records :: SameContent(mid.records[id], n.records[id]))
    && (forall id | id in n.revokedTasks && id !in mid.revokedTasks :: id in mid.tasks && Revocation(mid, Op(c), id))
  }

  /** Every operation but a mutation. */
  lemma OthersTouch(mid: App, c: Command, n: App)
    requires !c.CMutate? && n == Staged(mid, c) && DeliveriesOk(mid) && WellDrawn(mid, c)
    ensures Untouched(mid, c, n)
  {
    if c.CIntent? {
      IntentTouches(mid, c, n);
    } else if Settles(c) {
      SettlingTouches(mid, c, n);
    } else {
      ReadingTouches(mid, c, n);
    }
    hide Untouched, Commands.Staged;
  }

  lemma ReadingTouches(mid: App, c: Command, n: App)
    requires !c.CMutate? && !Settles(c) && n == Staged(mid, c)
    ensures Untouched(mid, c, n)
  {
    Authority.SampledBooks(mid, c.now);
    hide Authority.Sampled, Authority.Approvable, Authority.Readable;
    match c
    case CApprove(admin, approval, now) => Authority.ApprovedExactly(mid, admin, approval, now); hide Policy.ApproveTask;
    case CRevokeTask(admin, t, now) => Authority.RevokedExactly(mid, admin, t, now); hide Policy.RevokeTask;
    case CRead(ctx, task, record, fields, secret, now) =>
      Authority.ReadExactly(mid, ctx, task, record, fields, secret, now);
      hide Policy.Read;
  }

  lemma IntentTouches(mid: App, c: Command, n: App)
    requires c.CIntent? && n == Staged(mid, c)
    ensures Untouched(mid, c, n)
  {
    Deliveries.IntendedExactly(mid, c.ctx, c.task, c.use, c.now, c.attempt);
    Authority.SampledBooks(mid, c.now);
    hide Workflow.Intent, Authority.Sampled;
  }

  lemma CancelTouches(mid: App, c: Command, n: App)
    requires c.CCancel? && n == Staged(mid, c) && c.attempt in mid.deliveries && mid.deliveries[c.attempt].record in mid.records
    ensures Untouched(mid, c, n)
  {
    Deliveries.CancelledExactly(mid, c.attempt);
    hide Workflow.Cancel;
  }

  lemma FinishTouches(mid: App, c: Command, n: App)
    requires c.CFinish? && n == Staged(mid, c) && c.attempt in mid.deliveries && mid.deliveries[c.attempt].record in mid.records
    ensures Untouched(mid, c, n)
  {
    Deliveries.FinishedExactly(mid, c.ctx, c.task, c.attempt, c.status, c.at);
    hide Workflow.Finish, Deliveries.Follows, Authority.Logged;
  }

  lemma SettlingTouches(mid: App, c: Command, n: App)
    requires (c.CCancel? || c.CFinish?) && n == Staged(mid, c) && DeliveriesOk(mid) && WellDrawn(mid, c)
    ensures Untouched(mid, c, n)
  {
    hide Untouched, Commands.Staged;
    if c.CCancel? { CancelTouches(mid, c, n); } else { FinishTouches(mid, c, n); }
  }

  // ----- one step -----

  /** What one step did to the content of a record, added to the grants, or revoked, it owes to somebody entitled to it. */
  ghost predicate Owed(a: App, e: Event, b: App, id: Uuid)
  {
    && (id in a.records && id in b.records && !Draws(e, id) ==> SameContent(a.records[id], b.records[id]) || Rewrites(a, e, id))
    && (id in b.grants && id !in a.grants ==> Sharing(a, e, id, b.grants[id]))
    && (id in b.revokedTasks && id !in a.revokedTasks ==> id in a.tasks && Revocation(a, e, id))
  }

  /** Pruning leaves what it keeps as it was. */
  predicate Subset(a: App, mid: App)
  {
    && (forall id | id in mid.records :: id in a.records && mid.records[id] == a.records[id])
    && (forall id | id in mid.tasks :: id in a.tasks && mid.tasks[id] == a.tasks[id])
    && mid.grants.Keys <= a.grants.Keys && (forall id | id in mid.revokedTasks :: id in a.revokedTasks)
    && (forall id | id in a.revokedTasks && id in mid.tasks :: id in mid.revokedTasks)
    && mid.lastTime == a.lastTime && mid.clockFrozen == a.clockFrozen
  }

  lemma PrunedIsSubset(a: App)
    requires Sound(a)
    ensures Subset(a, MaybeCompact(a)) && DeliveriesOk(MaybeCompact(a))
  {
    CompactKeepsSound(a);
    ValidIs(MaybeCompact(a));
  }

  lemma MutationOwes(a: App, mid: App, c: Command, n: App, id: Uuid)
    requires c.CMutate? && n == Staged(mid, c) && mid == MaybeCompact(a) && Subset(a, mid)
    requires id in n.records && id != c.draw.id ==> id in mid.records
    ensures Owed(a, Op(c), n, id)
  {
    if KeyOf(c.ctx, c.task, c.request) in mid.requests { RepeatedTouches(mid, c, n, id); } else { MutationTouches(mid, c, n, id); }
    hide Compaction.MaybeCompact, Commands.Staged, Authority.Acceptable;
  }

  lemma UntouchedOwes(a: App, mid: App, c: Command, n: App, id: Uuid)
    requires !c.CMutate? && Untouched(mid, c, n) && mid == MaybeCompact(a) && Subset(a, mid)
    requires id in n.records ==> id in mid.records
    ensures Owed(a, Op(c), n, id)
  {
    hide Compaction.MaybeCompact;
  }

  lemma OpOwes(a: App, c: Command, b: App, id: Uuid)
    requires Sound(a) && Step(a, Op(c), b)
    ensures Owed(a, Op(c), b, id)
  {
    var mid, n := MaybeCompact(a), Staged(MaybeCompact(a), c);
    StepOfOp(a, c, b);
    PrunedIsSubset(a);
    PublishedBooks(a, c, b);
    RecordWasThere(a, c, b, id);
    hide Compaction.MaybeCompact, Commands.Staged, Step, CompactionLedger.Sound, Subset, Untouched, Owed, Ledger.DeliveriesOk;
    if c.CMutate? {
      MutationOwes(a, mid, c, n, id);
    } else {
      OthersTouch(mid, c, n);
      UntouchedOwes(a, mid, c, n, id);
    }
    OwedSame(a, Op(c), n, b, id);
  }

  lemma RecordWasThere(a: App, c: Command, b: App, id: Uuid)
    requires Sound(a) && Step(a, Op(c), b)
    ensures id in Staged(MaybeCompact(a), c).records && !Draws(Op(c), id) ==> id in MaybeCompact(a).records
  {
    StepOfOp(a, c, b);
    StagedFacts(a, c);
    hide Compaction.MaybeCompact, Commands.Staged, Step, CompactionLedger.Sound, Commands.Follows;
    if id in Staged(MaybeCompact(a), c).records && !Draws(Op(c), id) {
      Registration.OpRecordWasThere(MaybeCompact(a), Staged(MaybeCompact(a), c), c, id);
    }
  }

  lemma OwedSame(a: App, e: Event, n: App, b: App, id: Uuid)
    requires Owed(a, e, n, id) && b.records == n.records && b.grants == n.grants && b.revokedTasks == n.revokedTasks
    ensures Owed(a, e, b, id)
  {
    hide Rewrites, Sharing, Revocation, SameContent;
  }

  lemma PublishedBooks(a: App, c: Command, b: App)
    requires Step(a, Op(c), b)
    ensures var n := Staged(MaybeCompact(a), c); b.records == n.records && b.grants == n.grants && b.revokedTasks == n.revokedTasks
  {}

  lemma StepOwes(a: App, e: Event, b: App, id: Uuid)
    requires Sound(a) && Step(a, e, b)
    ensures Owed(a, e, b, id)
  {
    match e
    case Op(c) => OpOwes(a, c, b, id);
    case Recovered(now) => RecoveryOwes(a, now, b, id);
    case _ =>
  }

  lemma RecoveryOwes(a: App, now: Time, b: App, id: Uuid)
    requires Sound(a) && Step(a, Recovered(now), b)
    ensures Owed(a, Recovered(now), b, id)
  {
    Settlement.SanitizedIsDisarmed(a, now);
    hide Settlement.Sanitize;
  }

  lemma GrantWasThere(a: App, e: Event, b: App, g: Uuid)
    requires Sound(a) && Step(a, e, b) && g in b.grants && g in a.grants
    ensures b.grants[g] == a.grants[g].(revoked := b.grants[g].revoked)
  {
    StepHeirs(a, e, b);
    assert !Draws(e, g);
    hide Step;
  }

  lemma RecordWasInState(a: App, e: Event, b: App, id: Uuid)
    requires Sound(a) && Step(a, e, b) && id in b.records && !Draws(e, id)
    ensures id in a.records
  {
    StepHeirs(a, e, b);
    hide Step;
  }

  // ----- runs -----

  /** Everything one step owes, by identifier. */
  ghost predicate Accounts(a: App, e: Event, b: App, id: Uuid)
  {
    && Owed(a, e, b, id)
    && (id in b.tasks ==> (id in a.tasks && a.tasks[id] == b.tasks[id]) || Approval(a, e, b.tasks[id]))
    && (id in b.records && !Draws(e, id) ==> id in a.records)
    && (id in b.grants && id in a.grants ==> b.grants[id] == a.grants[id].(revoked := b.grants[id].revoked))
  }

  /** A run, seen through what each step owes. */
  ghost predicate History(states: seq<App>, events: seq<Event>)
  {
    |states| == |events| + 1 && forall k, id :: AccountsAt(states, events, k, id)
  }

  ghost predicate AccountsAt(states: seq<App>, events: seq<Event>, k: int, id: Uuid)
    requires |states| == |events| + 1
  {
    0 <= k < |events| ==> Accounts(states[k], events[k], states[k + 1], id)
  }

  lemma StepAccounts(a: App, e: Event, b: App, id: Uuid)
    requires Sound(a) && Step(a, e, b)
    ensures Accounts(a, e, b, id)
  {
    StepOwes(a, e, b, id);
    if id in b.tasks { TaskOfStep(a, e, b, id); }
    if id in b.records && !Draws(e, id) { RecordWasInState(a, e, b, id); }
    if id in b.grants && id in a.grants { GrantWasThere(a, e, b, id); }
    hide Step, Owed, Approval, CompactionLedger.Sound;
  }

  lemma RunIsHistory(states: seq<App>, events: seq<Event>)
    requires Run(states, events)
    ensures History(states, events)
  {
    forall k, id ensures AccountsAt(states, events, k, id) {
      if 0 <= k < |events| {
        RunKeepsSound(states, events, k);
        StepAccounts(states[k], events[k], states[k + 1], id);
      }
    }
  }

  lemma {:induction false} ApprovedAlong(states: seq<App>, events: seq<Event>, i: nat, j: nat, id: Uuid)
    requires History(states, events) && i <= j < |states| && id in states[j].tasks
    requires !(id in states[i].tasks && states[i].tasks[id] == states[j].tasks[id])
    ensures exists k :: i <= k < j && Approval(states[k], events[k], states[j].tasks[id])
    decreases j
  {
    hide Approval, Owed;
    assert AccountsAt(states, events, j - 1, id);
    if !Approval(states[j - 1], events[j - 1], states[j].tasks[id]) { ApprovedAlong(states, events, i, j - 1, id); }
  }

  lemma {:induction false} RecordStays(states: seq<App>, events: seq<Event>, i: nat, j: nat, id: Uuid)
    requires History(states, events) && NeverDrawn(events, id) && i <= j < |states| && id in states[j].records
    ensures id in states[i].records
    decreases j
  {
    hide Approval, Owed;
    if i < j {
      assert AccountsAt(states, events, j - 1, id);
      RecordStays(states, events, i, j - 1, id);
    }
  }

  lemma {:induction false} RewrittenAlong(states: seq<App>, events: seq<Event>, i: nat, j: nat, id: Uuid)
    requires History(states, events) && NeverDrawn(events, id) && i <= j < |states|
    requires id in states[i].records && id in states[j].records && !SameContent(states[i].records[id], states[j].records[id])
    ensures exists k :: i <= k < j && Rewrites(states[k], events[k], id)
    decreases j
  {
    hide Approval, Rewrites, Sharing, Revocation;
    RecordStays(states, events, j - 1, j, id);
    assert AccountsAt(states, events, j - 1, id);
    if !Rewrites(states[j - 1], events[j - 1], id) { RewrittenAlong(states, events, i, j - 1, id); }
  }

  lemma {:induction false} SharedAlong(states: seq<App>, events: seq<Event>, i: nat, j: nat, g: Uuid)
    requires History(states, events) && i <= j < |states| && g in states[j].grants && g !in states[i].grants
    ensures exists k :: i <= k < j && Sharing(states[k], events[k], g, states[j].grants[g].(revoked := false))
    decreases j
  {
    hide Approval, Rewrites, Revocation;
    assert AccountsAt(states, events, j - 1, g);
    if g in states[j - 1].grants {
      SharedAlong(states, events, i, j - 1, g);
    }
  }

  lemma {:induction false} RevokedAlong(states: seq<App>, events: seq<Event>, i: nat, j: nat, id: Uuid)
    requires History(states, events) && i <= j < |states| && id in states[j].revokedTasks && id !in states[i].revokedTasks
    ensures exists k :: i <= k < j && id in states[k].tasks && Revocation(states[k], events[k], id)
    decreases j
  {
    hide Approval, Rewrites, Sharing, Revocation;
    assert AccountsAt(states, events, j - 1, id);
    if id in states[j - 1].revokedTasks { RevokedAlong(states, events, i, j - 1, id); }
  }

  /** An approval of a later state that was not in an earlier one was accepted in between, from an administrator of its owner
      and workspace. */
  lemma ApprovalsComeFromAdministrators(states: seq<App>, events: seq<Event>, i: nat, j: nat, id: Uuid)
    requires Run(states, events) && i <= j < |states| && id in states[j].tasks
    requires !(id in states[i].tasks && states[i].tasks[id] == states[j].tasks[id])
    ensures exists k :: i <= k < j && Approval(states[k], events[k], states[j].tasks[id])
  {
    RunIsHistory(states, events);
    hide Run, History, Approval;
    ApprovedAlong(states, events, i, j, id);
  }

  /** An approval revoked since was revoked by such an administrator, or by a recovery. */
  lemma RevocationsComeFromAdministrators(states: seq<App>, events: seq<Event>, i: nat, j: nat, id: Uuid)
    requires Run(states, events) && i <= j < |states| && id in states[j].revokedTasks && id !in states[i].revokedTasks
    ensures exists k :: i <= k < j && id in states[k].tasks && Revocation(states[k], events[k], id)
  {
    RunIsHistory(states, events);
    hide Run, History, Revocation;
    RevokedAlong(states, events, i, j, id);
  }

  /** Where the content of a record differs between two states, a request accepted between them, from somebody entitled to it
      then, deleted the record or wrote to it. */
  lemma ContentChangesByRequest(states: seq<App>, events: seq<Event>, i: nat, j: nat, id: Uuid)
    requires Run(states, events) && NeverDrawn(events, id) && i <= j < |states|
    requires id in states[i].records && id in states[j].records && !SameContent(states[i].records[id], states[j].records[id])
    ensures exists k :: i <= k < j && Rewrites(states[k], events[k], id)
  {
    RunIsHistory(states, events);
    hide Run, History, Rewrites;
    RewrittenAlong(states, events, i, j, id);
  }

  /** A grant made since rests on an accepted share of exactly its terms, from somebody who could share that much then. */
  lemma GrantsComeFromShares(states: seq<App>, events: seq<Event>, i: nat, j: nat, g: Uuid)
    requires Run(states, events) && i <= j < |states| && g in states[j].grants && g !in states[i].grants
    ensures exists k :: i <= k < j && Sharing(states[k], events[k], g, states[j].grants[g].(revoked := false))
  {
    RunIsHistory(states, events);
    hide Run, History, Sharing;
    SharedAlong(states, events, i, j, g);
  }
}
