/** What the vault publishes is what recovery accepts: first publications, operations and re-keyings are genuine pairs,
    so an interrupted one can be recovered. */
module Publications {
  import opened Types
  import opened Policy
  import opened Ledger
  import opened Compaction
  import opened CompactionLedger
  import opened Settlement
  import opened Commands
  import opened Transition
  import opened Directory
  import opened Recovery

  lemma GenuineIffEvidence(last: Image, next: Image)
    requires Valid(last.app) && Valid(next.app) && last.seed == next.seed && last.header == next.header
    ensures Genuine(Some(last), next) <==> Transition.Transition(last.app, next.app)
  {}

  /** The publication of an operation is a genuine pair exactly when it does not reuse what it pruned. */
  lemma OperationIsGenuine(image: Image, cur: App, c: Command, nonce: nat)
    requires Sound(cur) && Valid(image.app) && OwnerOf(image.app, cur) && cur.generation < U64_MAX
    requires WellDrawn(MaybeCompact(cur), c) && NewIds(cur, c) && Valid(Published(cur, c))
    ensures Genuine(Some(image), Sealed(Published(cur, c), image.seed, image.header, nonce)) <==> !Reuses(cur, c)
  {
    EvidenceAcceptedExactly(image.app, cur, c);
    GenuineIffEvidence(image, Sealed(Published(cur, c), image.seed, image.header, nonce));
  }

  lemma RekeyIsGenuine(image: Image, cur: App, seed: string, header: Header, nonce: nat)
    requires Sound(cur) && Valid(image.app) && OwnerOf(image.app, cur) && cur.generation < U64_MAX
    ensures Genuine(Some(image), Sealed(Rekeyed(cur, DigestOf(image)), seed, header, nonce))
  {
    RekeyAccepted(image.app, cur, DigestOf(image));
    RekeyedSound(cur, DigestOf(image));
  }

  lemma EmptyIsSafe()
    ensures SafeInitial(EMPTY.(generation := 1))
  {}

  /** A new vault may be published where there was nothing. */
  lemma CreateIsGenuine(seed: string, header: Header, nonce: nat)
    ensures Genuine(None, Sealed(EMPTY.(generation := 1), seed, header, nonce))
  {
    ValidIs(EMPTY.(generation := 1));
    EmptyIsSafe();
  }

  lemma RestoredIsSafe(app: App, now: Time)
    requires app.generation < U64_MAX
    ensures SafeInitial(RestoredCopy(app, now))
  {}

  /** A restored copy may be published where there was nothing. */
  lemma RestoreIsGenuine(app: App, admin: Context, now: Time, seed: string, header: Header, nonce: nat)
    requires PrepareRestored(app, admin, now).Ok?
    ensures Genuine(None, Sealed(PrepareRestored(app, admin, now).value, seed, header, nonce))
  {
    RestoredIsSafe(app, now);
  }

  /** The condition under which a sound image can be recovered at a given time. */
  ghost predicate Curable(app: App, now: Time) { app.generation < U64_MAX && AuditedBy(app, now) && !Stuck(app) }

  /** A crash at any stage of a genuine publication whose intent is complete: recovery with the candidate's seed works on
      the old or the new image and succeeds exactly when that image is curable, leaving it sanitized. */
  lemma InterruptedPublicationRecovers(d: Files, e: Files, previous: Option<Image>, next: Image, admin: Context, now: Time, nonce: nat)
    requires Genuine(previous, next) && Publishing(d, previous, next) && Crashed(d, e) && e.pending.visible.Pair?
    requires Sound(next.app) && (previous.Some? ==> Sound(previous.value.app)) && admin.admin
    requires AdminScope(next.app, admin) && (previous.Some? ==> AdminScope(previous.value.app, admin))
    ensures var found := Visible(e, next.seed, admin);
      && found.Ok? && (found.value == next || Some(found.value) == previous)
      && (Decide(e, next.seed, admin, now, nonce).Ok? <==> Curable(found.value.app, now))
      && (Decide(e, next.seed, admin, now, nonce).Ok? ==>
            Decide(e, next.seed, admin, now, nonce).value.plan.app == Sanitized(found.value.app, now))
  {
    CrashOfPublication(d, e, previous, next);
    CrashedInterrupted(d, e, previous, next);
    InterruptedIsRecovered(e, previous, next, admin, now, nonce);
    SanitizeIsCurable(Visible(e, next.seed, admin).value.app, now);
  }

  lemma CrashedInterrupted(d: Files, e: Files, previous: Option<Image>, next: Image)
    requires Genuine(previous, next) && Publishing(d, previous, next) && Crashed(d, e) && e.pending.visible.Pair?
    ensures Interrupted(e, previous, next)
  {}

  lemma SanitizeIsCurable(app: App, now: Time)
    requires Sound(app)
    ensures Sanitize(app, now).Ok? <==> Curable(app, now)
    ensures Sanitize(app, now).Ok? ==> app.generation < U64_MAX && Sanitize(app, now).value == Sanitized(app, now)
  {
    SanitizeSucceedsExactly(app, now);
  }
}
