/** The store of one vault: publication of an image through a durable intent, step by step on a directory whose
    operations may fail or be lost in a crash. */
module Stores {
  import opened Types
  import opened Directory
  import opened Recovery

  datatype Publication = Unpublished | Durable | Unconfirmed

  /** A directory. `trace` remembers every state it went through, so that a crash between two operations can be described. */
  class Device {
    var disk: Files
    ghost var trace: seq<Files>

    constructor (d: Files)
      ensures disk == d && trace == []
    {
      disk, trace := d, [];
    }

    /** A failed synchronisation promises nothing. */
    method Sync() returns (ok: bool)
      modifies this
      ensures disk == if ok then Synced(old(disk)) else old(disk)
      ensures trace == old(trace) + [disk]
    {
      ok := *;
      if ok { disk := Synced(disk); }
      trace := trace + [disk];
    }

    /** A rename over the state file. An error does not mean that the old file is still there. */
    method RenameState(image: Image, createOnly: bool) returns (ok: bool)
      modifies this
      ensures ok ==> disk == old(disk).(state := Put(old(disk.state), Whole(image)))
      ensures disk == old(disk) || disk == old(disk).(state := Put(old(disk.state), Whole(image)))
              || disk == old(disk).(state := Botched(old(disk.state), Whole(image)))
      ensures trace == old(trace) + [disk]
      ensures createOnly && old(disk.state.visible) != Absent ==> !ok && disk == old(disk)
    {
      ok := *;
      if createOnly && disk.state.visible != Absent {
        ok := false;
      } else if ok {
        disk := disk.(state := Put(disk.state, Whole(image)));
      } else if * {
        disk := disk.(state := Put(disk.state, Whole(image)));
      } else if * {
        disk := disk.(state := Botched(disk.state, Whole(image)));
      }
      trace := trace + [disk];
    }

    /** Makes `file` the visible intent; a failure may have happened before or after it took effect. */
    method SetPending(file: File<Image>) returns (ok: bool)
      modifies this
      ensures ok ==> disk == old(disk).(pending := Put(old(disk.pending), file))
      ensures disk == old(disk) || disk == old(disk).(pending := Put(old(disk.pending), file))
              || disk == old(disk).(pending := Botched(old(disk.pending), file))
      ensures trace == old(trace) + [disk]
    {
      ok := *;
      if ok {
        disk := disk.(pending := Put(disk.pending, file));
      } else if * {
        disk := disk.(pending := Put(disk.pending, file));
      } else if * {
        disk := disk.(pending := Botched(disk.pending, file));
      }
      trace := trace + [disk];
    }

    method SetRecovery(file: File<Image>) returns (ok: bool)
      modifies this
      ensures ok ==> disk == old(disk).(recovery := Put(old(disk.recovery), file))
      ensures disk == old(disk) || disk == old(disk).(recovery := Put(old(disk.recovery), file))
              || disk == old(disk).(recovery := Botched(old(disk.recovery), file))
      ensures trace == old(trace) + [disk]
    {
      ok := *;
      if ok {
        disk := disk.(recovery := Put(disk.recovery, file));
      } else if * {
        disk := disk.(recovery := Put(disk.recovery, file));
      } else if * {
        disk := disk.(recovery := Botched(disk.recovery, file));
      }
      trace := trace + [disk];
    }
  }

  /** Every directory state since position `from` is a stage of the publication. */
  ghost predicate PublishingSince(trace: seq<Files>, from: nat, cur: Option<Image>, next: Image)
  {
    from <= |trace| && forall i | from <= i < |trace| :: Publishing(trace[i], cur, next)
  }

  /** The current image is visible without a gate; something may still wait for a synchronisation. */
  ghost predicate Shows(d: Files, cur: Option<Image>)
  {
    d.state.visible == FileOf(cur) && d.pending.visible == Absent && d.recovery.visible == Absent
  }

  /** The intent is being written in place on the directory `d0`; nothing else has changed there. */
  ghost predicate Writing(d0: Files, d: Files, cur: Option<Image>, next: Image)
  {
    && d == d0.(pending := d.pending)
    && (d0.pending.visible in d0.pending.durable ==> d.pending.visible in d.pending.durable)
    && (d.pending.visible == Absent || d.pending.visible == Torn || d.pending.visible == Pair(cur, next))
    && d.pending.durable <= d0.pending.durable + {Torn, Pair(cur, next)}
  }

  /** The same of every state since position `from`, until the publication has passed its first synchronisation. */
  ghost predicate WritingSince(trace: seq<Files>, from: nat, d0: Files, cur: Option<Image>, next: Image)
  {
    from <= |trace| && forall i | from <= i < |trace| :: Writing(d0, trace[i], cur, next) || Publishing(trace[i], cur, next)
  }

  /** On a steady directory the writing is a stage of the publication. */
  lemma SteadyWriting(d0: Files, d: Files, cur: Option<Image>, next: Image)
    requires Steady(d0, cur) && Writing(d0, d, cur, next)
    ensures Announcing(d, cur, next)
  {}

  lemma SteadyWritingSince(trace: seq<Files>, from: nat, d0: Files, cur: Option<Image>, next: Image)
    requires WritingSince(trace, from, d0, cur, next) && Steady(d0, cur)
    ensures PublishingSince(trace, from, cur, next)
  {
    forall i | from <= i < |trace| ensures Publishing(trace[i], cur, next) {
      if Writing(d0, trace[i], cur, next) { SteadyWriting(d0, trace[i], cur, next); }
    }
  }

  lemma WritingOneMore(trace: seq<Files>, from: nat, d0: Files, cur: Option<Image>, next: Image, d: Files)
    requires WritingSince(trace, from, d0, cur, next) && (Writing(d0, d, cur, next) || Publishing(d, cur, next))
    ensures WritingSince(trace + [d], from, d0, cur, next)
  {}

  lemma WritingKept(d0: Files, d: Files, e: Files, cur: Option<Image>, next: Image, file: File<Image>)
    requires Writing(d0, d, cur, next) && (file == Torn || file == Pair(cur, next))
    requires e == d || e == d.(pending := Put(d.pending, file)) || e == d.(pending := Botched(d.pending, file))
    ensures Writing(d0, e, cur, next)
  {}

  lemma PublishingOneMore(trace: seq<Files>, from: nat, cur: Option<Image>, next: Image, d: Files)
    requires PublishingSince(trace, from, cur, next) && Publishing(d, cur, next)
    ensures PublishingSince(trace + [d], from, cur, next)
  {}

  lemma AnnouncedKept(d: Files, e: Files, cur: Option<Image>, next: Image)
    requires Announced(d, cur, next)
    requires e == d || e == d.(state := Put(d.state, Whole(next))) || e == d.(state := Botched(d.state, Whole(next)))
    ensures Announced(e, cur, next)
  {}

  lemma ClearingKept(d: Files, e: Files, cur: Option<Image>, next: Image)
    requires Clearing(d, cur, next)
    requires e == d || e == d.(pending := Put(d.pending, Absent)) || e == d.(pending := Botched(d.pending, Absent))
    ensures Clearing(e, cur, next)
  {}

  /** The store of the source: the directory with what the owner knows to be durable in it. */
  class Store {
    const dev: Device
    var currentImage: Option<Image>
    var seed: string
    var header: Header
    var blocked: bool
    var persistedLastTime: Option<Time>
    var persistedFrozen: bool

    /** An unblocked store has a steady directory. */
    ghost predicate Inv()
      reads this, dev
    {
      !blocked ==> Steady(dev.disk, currentImage)
    }

    constructor (d: Device, image: Option<Image>, seed: string, header: Header, last: Option<Time>, frozen: bool)
      ensures dev == d && currentImage == image && this.seed == seed && this.header == header && !blocked
      ensures persistedLastTime == last && persistedFrozen == frozen
    {
      dev, currentImage, this.seed, this.header, blocked := d, image, seed, header, false;
      persistedLastTime, persistedFrozen := last, frozen;
    }

    /** Writes the intent in place and makes it durable, with whatever was still waiting in the directory. */
    method Announce(next: Image) returns (ok: bool)
      requires Shows(dev.disk, currentImage)
      modifies dev
      ensures if ok then Announced(dev.disk, currentImage, next) else Writing(old(dev.disk), dev.disk, currentImage, next)
      ensures old(dev.trace) <= dev.trace && WritingSince(dev.trace, |old(dev.trace)|, old(dev.disk), currentImage, next)
    {
      ghost var d0, t0 := dev.disk, dev.trace;
      ok := dev.SetPending(Torn);
      WritingKept(d0, d0, dev.disk, currentImage, next, Torn);
      WritingOneMore(t0, |t0|, d0, currentImage, next, dev.disk);
      if !ok { return; }
      ghost var d1, t1 := dev.disk, dev.trace;
      ok := dev.SetPending(Pair(currentImage, next));
      WritingKept(d0, d1, dev.disk, currentImage, next, Pair(currentImage, next));
      WritingOneMore(t1, |t0|, d0, currentImage, next, dev.disk);
      if !ok { return; }
      ghost var t2 := dev.trace;
      ok := dev.Sync();
      WritingOneMore(t2, |t0|, d0, currentImage, next, dev.disk);
    }

    /** Renames the candidate over the state and makes it durable. */
    method Install(next: Image) returns (ok: bool)
      requires Announced(dev.disk, currentImage, next)
      modifies dev
      ensures if ok then Only(dev.disk.state, Whole(next)) && Clearing(dev.disk, currentImage, next) else Announced(dev.disk, currentImage, next)
      ensures old(dev.trace) <= dev.trace && PublishingSince(dev.trace, |old(dev.trace)|, currentImage, next)
    {
      ghost var d0, t0 := dev.disk, dev.trace;
      ok := dev.RenameState(next, currentImage.None?);
      AnnouncedKept(d0, dev.disk, currentImage, next);
      PublishingOneMore(t0, |t0|, currentImage, next, dev.disk);
      if !ok { return; }
      ghost var t1 := dev.trace;
      ok := dev.Sync();
      PublishingOneMore(t1, |t0|, currentImage, next, dev.disk);
    }

    /** Removes the intent of a durable image. */
    method Clear(cur: Option<Image>, next: Image) returns (ok: bool)
      requires Clearing(dev.disk, cur, next)
      modifies dev
      ensures Clearing(dev.disk, cur, next) && (ok ==> Steady(dev.disk, Some(next)))
      ensures old(dev.trace) <= dev.trace && PublishingSince(dev.trace, |old(dev.trace)|, cur, next)
    {
      ghost var d0, t0 := dev.disk, dev.trace;
      ok := dev.SetPending(Absent);
      ClearingKept(d0, dev.disk, cur, next);
      PublishingOneMore(t0, |t0|, cur, next, dev.disk);
      if !ok { return; }
      ghost var t1 := dev.trace;
      ok := dev.Sync();
      PublishingOneMore(t1, |t0|, cur, next, dev.disk);
    }

    /** Publishes `app` under the given key. Every directory state on the way is a stage of the publication; the answer says
        how far it got, and the store stays unblocked only when the directory is steady again. Where something still waits for
        a synchronisation, the intent is written beside it and the first synchronisation settles both. */
    method PublishWith(app: App, seed: string, header: Header, nonce: nat) returns (p: Publication)
      requires blocked || Shows(dev.disk, currentImage)
      modifies this, dev
      ensures old(dev.trace) <= dev.trace
      ensures WritingSince(dev.trace, |old(dev.trace)|, old(dev.disk), old(currentImage), Sealed(app, seed, header, nonce))
      ensures old(Inv()) ==> Inv() && PublishingSince(dev.trace, |old(dev.trace)|, old(currentImage), Sealed(app, seed, header, nonce))
      ensures p == Unpublished ==> dev.disk == old(dev.disk) && blocked == old(blocked)
      ensures p == Unconfirmed ==> blocked && (if old(blocked) then dev.disk == old(dev.disk)
                                               else Writing(old(dev.disk), dev.disk, old(currentImage), Sealed(app, seed, header, nonce))
                                                    || Announced(dev.disk, old(currentImage), Sealed(app, seed, header, nonce)))
      ensures p == Unconfirmed && old(!blocked && Inv()) ==>
        Announcing(dev.disk, old(currentImage), Sealed(app, seed, header, nonce)) || Announced(dev.disk, old(currentImage), Sealed(app, seed, header, nonce))
      ensures p != Durable ==> currentImage == old(currentImage) && this.seed == old(this.seed) && this.header == old(this.header)
                               && persistedLastTime == old(persistedLastTime) && persistedFrozen == old(persistedFrozen)
      ensures p == Durable ==> !old(blocked) && currentImage == Some(Sealed(app, seed, header, nonce)) && this.seed == seed && this.header == header
                               && persistedLastTime == app.lastTime && persistedFrozen == app.clockFrozen && Inv()
      ensures p == Durable ==> Clearing(dev.disk, old(currentImage), Sealed(app, seed, header, nonce))
    {
      if blocked || Gated(dev.disk) {
        blocked := true;
        return Unconfirmed;
      }
      var image := Sealed(app, seed, header, nonce);
      if * { return Unpublished; }                 // the candidate file could not be written
      var cur := currentImage;
      ghost var d0, t0 := dev.disk, dev.trace;
      var ok := Announce(image);
      ghost var t1 := dev.trace;
      if Steady(d0, cur) { SteadyWritingSince(t1, |t0|, d0, cur, image); }
      if !ok {
        if Steady(d0, cur) { SteadyWriting(d0, dev.disk, cur, image); }
        blocked := true;
        return Unconfirmed;
      }
      ok := Install(image);
      WritingJoined(dev.trace, |t0|, d0, cur, image, t1);
      if Steady(d0, cur) { SteadyWritingSince(dev.trace, |t0|, d0, cur, image); }
      if !ok {
        blocked := true;
        return Unconfirmed;
      }
      currentImage, this.seed, this.header := Some(image), seed, header;
      persistedLastTime, persistedFrozen := app.lastTime, app.clockFrozen;
      ghost var t2 := dev.trace;
      ok := Clear(cur, image);
      WritingJoined(dev.trace, |t0|, d0, cur, image, t2);
      if Steady(d0, cur) { SteadyWritingSince(dev.trace, |t0|, d0, cur, image); }
      if !ok { blocked := true; }
      p := Durable;
    }
  }

  lemma WritingJoined(trace: seq<Files>, from: nat, d0: Files, cur: Option<Image>, next: Image, before: seq<Files>)
    requires WritingSince(before, from, d0, cur, next) && before <= trace && PublishingSince(trace, |before|, cur, next)
    ensures WritingSince(trace, from, d0, cur, next)
  {}
}
