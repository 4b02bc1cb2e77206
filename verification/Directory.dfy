/** The vault directory under crashes. Every name has the file a reader sees and the files that may be found there
    after a crash: an operation that has not been synchronised may have survived or not, independently for each name. */
module Directory {
  import opened Types

  /** An image file, a gate holding two images, a gate whose bytes are incomplete, or nothing. */
  datatype File<I> = Absent | Torn | Whole(image: I) | Pair(previous: Option<I>, candidate: I)

  datatype Cell<!I(==)> = Cell(visible: File<I>, durable: set<File<I>>)

  datatype Disk<!I(==)> = Disk(state: Cell<I>, pending: Cell<I>, recovery: Cell<I>)

  function FileOf<I>(image: Option<I>): File<I> { if image.Some? then Whole(image.value) else Absent }

  // ----- operations -----

  /** A create, rename or unlink that made `file` visible. */
  function Put<I(==)>(c: Cell<I>, file: File<I>): Cell<I> { Cell(file, c.durable + {file}) }

  /** One that failed without a visible effect; it may still be found after a crash. */
  function Botched<I(==)>(c: Cell<I>, file: File<I>): Cell<I> { c.(durable := c.durable + {file}) }

  function Flushed<I(==)>(c: Cell<I>): Cell<I> { Cell(c.visible, {c.visible}) }

  function Synced<I(==)>(d: Disk<I>): Disk<I> { Disk(Flushed(d.state), Flushed(d.pending), Flushed(d.recovery)) }

  /** `e` may be found after a crash of `d`. */
  predicate CrashedCell<I(==)>(c: Cell<I>, e: Cell<I>) { e.visible in c.durable && e == Flushed(e) }

  predicate Crashed<I(==)>(d: Disk<I>, e: Disk<I>)
  {
    CrashedCell(d.state, e.state) && CrashedCell(d.pending, e.pending) && CrashedCell(d.recovery, e.recovery)
  }

  /** Nothing waits for a synchronisation. */
  predicate Clean<I(==)>(d: Disk<I>) { d == Synced(d) }

  predicate Gated<I(==)>(d: Disk<I>) { d.pending.visible != Absent || d.recovery.visible != Absent }

  // ----- the stages of a publication -----

  predicate Only<I(==)>(c: Cell<I>, a: File<I>) { c.visible == a && c.durable == {a} }

  predicate Either<I(==)>(c: Cell<I>, a: File<I>, b: File<I>)
  {
    c.visible in c.durable && forall f | f in c.durable :: f == a || f == b
  }

  predicate OneOf<I(==)>(c: Cell<I>, a: File<I>, b: File<I>, z: File<I>)
  {
    c.visible in c.durable && forall f | f in c.durable :: f == a || f == b || f == z
  }

  /** The image is installed and no gate stands. */
  predicate Steady<I(==)>(d: Disk<I>, cur: Option<I>)
  {
    Only(d.state, FileOf(cur)) && Only(d.pending, Absent) && Only(d.recovery, Absent)
  }

  /** The intent is being written in place. */
  predicate Announcing<I(==)>(d: Disk<I>, cur: Option<I>, next: I)
  {
    Only(d.state, FileOf(cur)) && OneOf(d.pending, Absent, Torn, Pair(cur, next)) && Only(d.recovery, Absent)
  }

  /** The intent is durable and the candidate is being renamed over the state. */
  predicate Announced<I(==)>(d: Disk<I>, cur: Option<I>, next: I)
  {
    Either(d.state, FileOf(cur), Whole(next)) && Only(d.pending, Pair(cur, next)) && Only(d.recovery, Absent)
  }

  /** The candidate is durable and its intent is being removed. */
  predicate Clearing<I(==)>(d: Disk<I>, cur: Option<I>, next: I)
  {
    Only(d.state, Whole(next)) && Either(d.pending, Pair(cur, next), Absent) && Only(d.recovery, Absent)
  }

  predicate Publishing<I(==)>(d: Disk<I>, cur: Option<I>, next: I)
  {
    Announcing(d, cur, next) || Announced(d, cur, next) || Clearing(d, cur, next)
  }

  // ----- the stages of a recovery -----

  /** The plan replaces `base`; `state` and `pend` are the files recovery found. */
  datatype Repair<!I> = Repair(base: I, plan: I, state: File<I>, pend: File<I>)

  function PlanOf<I>(p: Repair<I>): File<I> { Pair(Some(p.base), p.plan) }

  predicate Planning<I(==)>(d: Disk<I>, p: Repair<I>)
  {
    Only(d.state, p.state) && Only(d.pending, p.pend) && Either(d.recovery, Absent, PlanOf(p))
  }

  predicate Planned<I(==)>(d: Disk<I>, p: Repair<I>)
  {
    Either(d.state, p.state, Whole(p.plan)) && Only(d.pending, p.pend) && Only(d.recovery, PlanOf(p))
  }

  predicate Retiring<I(==)>(d: Disk<I>, p: Repair<I>)
  {
    Only(d.state, Whole(p.plan)) && Either(d.pending, p.pend, Absent) && Only(d.recovery, PlanOf(p))
  }

  predicate Closing<I(==)>(d: Disk<I>, p: Repair<I>)
  {
    Only(d.state, Whole(p.plan)) && Only(d.pending, Absent) && Either(d.recovery, PlanOf(p), Absent)
  }

  /** The plan is durable. */
  predicate Resuming<I(==)>(d: Disk<I>, p: Repair<I>) { Planned(d, p) || Retiring(d, p) || Closing(d, p) }

  predicate Repairing<I(==)>(d: Disk<I>, p: Repair<I>) { Planning(d, p) || Resuming(d, p) }

  /** A recovery that found a plan never takes it back. */
  predicate RepairStage<I(==)>(d: Disk<I>, p: Repair<I>, unplanned: bool) { if unplanned then Repairing(d, p) else Resuming(d, p) }

  // ----- crashes -----

  /** What a crash in the middle of a publication can leave: a torn or complete intent beside the old image, a complete
      intent beside the new one, or no intent beside either; never a candidate without its intent before it is durable. */
  lemma CrashOfPublication<I>(d: Disk<I>, e: Disk<I>, cur: Option<I>, next: I)
    requires Publishing(d, cur, next) && Crashed(d, e)
    ensures Clean(e) && Only(e.recovery, Absent)
    ensures Only(e.pending, Absent) || Only(e.pending, Torn) || Only(e.pending, Pair(cur, next))
    ensures Only(e.state, FileOf(cur)) || Only(e.state, Whole(next))
    ensures e.pending.visible == Torn ==> Only(e.state, FileOf(cur))
    ensures e.pending.visible == Absent ==> Only(e.state, FileOf(cur)) || Clearing(d, cur, next)
  {}

  /** What a crash in the middle of a recovery can leave: the files it found, or its complete plan with the state
      replaced or not and the old gate removed or not, or the plan installed and nothing else. */
  lemma CrashOfRepair<I>(d: Disk<I>, e: Disk<I>, p: Repair<I>)
    requires Repairing(d, p) && Crashed(d, e)
    ensures Clean(e)
    ensures || (Only(e.state, p.state) && Only(e.pending, p.pend) && Only(e.recovery, Absent))
            || (Only(e.recovery, PlanOf(p)) && (Only(e.state, p.state) || Only(e.state, Whole(p.plan)))
                && (Only(e.pending, p.pend) || (Only(e.pending, Absent) && Only(e.state, Whole(p.plan)))))
            || Steady(e, Some(p.plan))
  {}
}
