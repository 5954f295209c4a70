/** The alert relay: a cursor over an append-only journal, a durable pending
    batch, and a durable delivery mark per provider.

    A position n stands for the cursor of the n-th entry since the relay was
    first started, and 0 for no cursor.  Reading after a cursor returns a
    contiguous run of at most 1000 entries, or fails. */
module AlertRelay {
  import opened Wrappers
  import opened Runs
  import opened NotifyEvents

  datatype Pending = Pending(cursor: nat, alert: Alert, delivered: set<string>)
  datatype State = State(cursor: nat, pending: Option<Pending>)

  /** The providers by name, and how a batch of entries becomes an alert. */
  datatype Config = Config(providers: seq<string>, summarize: seq<Entry> -> Option<Alert>)

  /** What the outside sees: an accepted send, a send whose mark was lost before
      it became durable, and a stretch of the journal durably taken. */
  datatype Event =
    | Accepted(provider: nat, from: nat, to: nat, alert: Alert)
    | Forgotten(provider: nat, from: nat, to: nat)
    | Taken(from: nat, to: nat)

  /** Where the process stands; opening is true in the delivery that opens a round. */
  datatype Frame =
    | Exited
    | SavingFirst(s: State)
    | Delivering(s: State, i: nat, failed: bool, opening: bool)
    | SavingMark(s: State, i: nat, failed: bool, opening: bool)
    | SavingDone(s: State, opening: bool)
    | Reading(s: State)
    | SavingBatch(s: State)

  /** A save replaces the file, fails before, or fails after the rename. */
  datatype Save = Saved | NotSaved | SavedUnsynced

  datatype Outcome = Outcome(
    arrivals: seq<Entry>, crash: bool, accepted: bool, save: Save, readFails: bool, take: nat)

  datatype World = World(disk: Option<State>, frame: Frame, journal: seq<Entry>, log: seq<Event>)

  const LIMIT := 1000
  const START := World(None, Exited, [], [])

  function Loaded(disk: Option<State>): State {
    if disk.Some? then disk.value else State(0, None)
  }

  function Mark(s: State, name: string): State
    requires s.pending.Some?
  {
    s.(pending := Some(s.pending.value.(delivered := s.pending.value.delivered + {name})))
  }

  function Min(a: nat, b: nat): nat { if a <= b then a else b }

  /** The frame after a successful save, and the event that save makes durable. */
  function AfterSave(f: Frame): Frame {
    match f
    case SavingFirst(s) => Delivering(s, 0, false, true)
    case SavingMark(s, i, failed, opening) => Delivering(s, i + 1, failed, opening)
    case SavingDone(s, opening) => if opening then Reading(s) else Delivering(s, 0, false, true)
    case SavingBatch(s) => Delivering(s, 0, false, false)
    case _ => f
  }

  function Durable(f: Frame, disk: Option<State>): seq<Event> {
    if f.SavingBatch?
    then [Taken(Loaded(disk).cursor, if f.s.pending.Some? then f.s.pending.value.cursor else f.s.cursor)]
    else []
  }

  /** A process that ends while a mark is unsaved forgets an accepted send. */
  function Lost(f: Frame): seq<Event> {
    if f.SavingMark? && f.s.pending.Some?
    then [Forgotten(f.i, f.s.cursor, f.s.pending.value.cursor)]
    else []
  }

  predicate Saves(f: Frame) { f.SavingFirst? || f.SavingMark? || f.SavingDone? || f.SavingBatch? }

  function AtSave(w: World, save: Save): World
    requires Saves(w.frame)
  {
    match save
    case Saved => World(Some(w.frame.s), AfterSave(w.frame), w.journal, w.log + Durable(w.frame, w.disk))
    case NotSaved => World(w.disk, Exited, w.journal, w.log + Lost(w.frame))
    case SavedUnsynced => World(Some(w.frame.s), Exited, w.journal, w.log + Durable(w.frame, w.disk))
  }

  /** One iteration of the delivery loop, or its end. */
  function AtDelivery(c: Config, w: World, accepted: bool): World
    requires w.frame.Delivering?
  {
    var Delivering(s, i, failed, opening) := w.frame;
    if s.pending.None? then w.(frame := if opening then Reading(s) else Delivering(s, 0, false, true))
    else
      var p := s.pending.value;
      if i >= |c.providers| then
        w.(frame := if failed then Exited else SavingDone(State(p.cursor, None), opening))
      else if c.providers[i] in p.delivered then w.(frame := Delivering(s, i + 1, failed, opening))
      else if accepted then
        w.(frame := SavingMark(Mark(s, c.providers[i]), i, failed, opening),
           log := w.log + [Accepted(i, s.cursor, p.cursor, p.alert)])
      else w.(frame := Delivering(s, i + 1, true, opening))
  }

  function Batch(c: Config, journal: seq<Entry>, s: State, to: nat): State
    requires s.cursor <= to <= |journal|
  {
    var alert := c.summarize(journal[s.cursor..to]);
    if alert.Some? then s.(pending := Some(Pending(to, alert.value, {}))) else s.(cursor := to)
  }

  function AtRead(c: Config, w: World, fails: bool, take: nat): World
    requires w.frame.Reading?
  {
    var s := w.frame.s;
    if fails || s.cursor > |w.journal| then w.(frame := Exited)
    else
      var to := s.cursor + Min(Min(take, LIMIT), |w.journal| - s.cursor);
      if to == s.cursor then w.(frame := Delivering(s, 0, false, true))
      else w.(frame := SavingBatch(Batch(c, w.journal, s, to)))
  }

  function Next(c: Config, before: World, o: Outcome): World {
    var w := before.(journal := before.journal + o.arrivals);
    if o.crash then w.(frame := Exited, log := w.log + Lost(w.frame))
    else if w.frame.Exited? then w.(frame := SavingFirst(Loaded(w.disk)))
    else if w.frame.Delivering? then AtDelivery(c, w, o.accepted)
    else if w.frame.Reading? then AtRead(c, w, o.readFails, o.take)
    else AtSave(w, o.save)
  }

  function Stepper(c: Config): (World, Outcome) -> World {
    (w, o) => Next(c, w, o)
  }

  function Run(c: Config, w: World, outcomes: seq<Outcome>): World {
    Fold(Stepper(c), w, outcomes)
  }

  // ----- the invariant -----

  /** How far the journal has durably been taken. */
  function Frontier(log: seq<Event>): nat {
    if log == [] then 0
    else var e := log[|log| - 1];
         if e.Taken? then e.to else Frontier(log[..|log| - 1])
  }

  /** Every stretch starts where the one before it ended, and none is empty. */
  ghost predicate Tiled(log: seq<Event>) {
    forall i :: 0 <= i < |log| && log[i].Taken? ==> log[i].from == Frontier(log[..i]) && log[i].from < log[i].to
  }

  function Reach(s: State): nat {
    if s.pending.Some? then s.pending.value.cursor else s.cursor
  }

  predicate AcceptedBatch(c: Config, log: seq<Event>, journal: seq<Entry>, i: nat, from: nat, to: nat) {
    && from <= to <= |journal|
    && var alert := c.summarize(journal[from..to]);
       alert.Some? && Accepted(i, from, to, alert.value) in log
  }

  /** A finished stretch holds no event, or every provider accepted its alert. */
  ghost predicate Told(c: Config, journal: seq<Entry>, log: seq<Event>, from: nat, to: nat) {
    && from <= to <= |journal|
    && (c.summarize(journal[from..to]).None?
        || forall i :: 0 <= i < |c.providers| ==> AcceptedBatch(c, log, journal, i, from, to))
  }

  ghost predicate PendingOk(c: Config, journal: seq<Entry>, log: seq<Event>, s: State) {
    s.pending.Some? ==>
      var p := s.pending.value;
      && s.cursor < p.cursor <= |journal|
      && c.summarize(journal[s.cursor..p.cursor]) == Some(p.alert)
      && Taken(s.cursor, p.cursor) in log
      && forall i :: 0 <= i < |c.providers| && c.providers[i] in p.delivered ==>
           Accepted(i, s.cursor, p.cursor, p.alert) in log
  }

  /** Each stretch taken is finished, or is the pending one. */
  ghost predicate StretchesOk(c: Config, s: State, journal: seq<Entry>, log: seq<Event>) {
    forall e :: e in log && e.Taken? ==>
      || (e.to <= s.cursor && Told(c, journal, log, e.from, e.to))
      || (s.pending.Some? && e.from == s.cursor && e.to == s.pending.value.cursor)
  }

  ghost predicate DiskOk(c: Config, disk: Option<State>, journal: seq<Entry>, log: seq<Event>) {
    var s := Loaded(disk);
    && Tiled(log)
    && Frontier(log) == Reach(s) <= |journal|
    && PendingOk(c, journal, log, s)
    && StretchesOk(c, s, journal, log)
    && (forall e :: e in log && !e.Taken? ==> Taken(e.from, e.to) in log)
  }

  /** The first providers all carry a mark unless a send failed. */
  predicate MarkedUpTo(c: Config, s: State, i: nat, failed: bool) {
    s.pending.Some? && !failed ==>
      forall k :: 0 <= k < i && k < |c.providers| ==> c.providers[k] in s.pending.value.delivered
  }

  /** A mark in memory that the disk does not yet hold. */
  ghost predicate MarkOk(c: Config, d: State, s: State, i: nat, failed: bool, log: seq<Event>) {
    && d.pending.Some? && i < |c.providers|
    && c.providers[i] !in d.pending.value.delivered
    && s == Mark(d, c.providers[i])
    && Accepted(i, d.cursor, d.pending.value.cursor, d.pending.value.alert) in log
    && MarkedUpTo(c, s, i + 1, failed)
  }

  ghost predicate DoneOk(c: Config, d: State, s: State) {
    && d.pending.Some?
    && MarkedUpTo(c, d, |c.providers|, false)
    && s == State(d.pending.value.cursor, None)
  }

  ghost predicate BatchOk(c: Config, d: State, s: State, journal: seq<Entry>) {
    && d.pending.None?
    && d.cursor < Reach(s) <= |journal|
    && s == Batch(c, journal, d, Reach(s))
  }

  ghost predicate FrameOk(c: Config, w: World) {
    var d := Loaded(w.disk);
    && (!w.frame.Exited? && !w.frame.SavingFirst? ==> w.disk.Some?)
    && match w.frame
       case Exited => true
       case SavingFirst(s) => s == d
       case Delivering(s, i, failed, _) => s == d && MarkedUpTo(c, s, i, failed)
       case SavingMark(s, i, failed, _) => MarkOk(c, d, s, i, failed, w.log)
       case SavingDone(s, _) => DoneOk(c, d, s)
       case Reading(s) => s == d && s.pending.None?
       case SavingBatch(s) => BatchOk(c, d, s, w.journal)
  }

  ghost predicate Inv(c: Config, w: World) {
    DiskOk(c, w.disk, w.journal, w.log) && FrameOk(c, w)
  }

  ghost predicate Distinct(names: seq<string>) {
    forall i, j :: 0 <= i < j < |names| ==> names[i] != names[j]
  }

  lemma SliceKept(journal: seq<Entry>, arrivals: seq<Entry>, from: nat, to: nat)
    requires from <= to <= |journal|
    ensures (journal + arrivals)[from..to] == journal[from..to]
  {
  }

  /** The journal may grow at any time. */
  lemma ArrivalsKeep(c: Config, w: World, arrivals: seq<Entry>)
    requires Inv(c, w)
    ensures Inv(c, w.(journal := w.journal + arrivals))
  {
    var v := w.(journal := w.journal + arrivals);
    var d := Loaded(w.disk);
    if d.pending.Some? { SliceKept(w.journal, arrivals, d.cursor, d.pending.value.cursor); }
    if w.frame.SavingBatch? { SliceKept(w.journal, arrivals, d.cursor, Reach(w.frame.s)); }
    forall e | e in w.log && e.Taken? && e.to <= d.cursor && Told(c, w.journal, w.log, e.from, e.to)
      ensures Told(c, v.journal, v.log, e.from, e.to)
    {
      SliceKept(w.journal, arrivals, e.from, e.to);
      ToldKept(c, w.journal, v.journal, w.log, v.log, e.from, e.to);
    }
  }

  lemma ToldKept(c: Config, j: seq<Entry>, k: seq<Entry>, g: seq<Event>, h: seq<Event>, from: nat, to: nat)
    requires Told(c, j, g, from, to) && to <= |k| && k[from..to] == j[from..to]
    requires forall e :: e in g ==> e in h
    ensures Told(c, k, h, from, to)
  {
    if c.summarize(k[from..to]).Some? {
      forall i | 0 <= i < |c.providers| ensures AcceptedBatch(c, h, k, i, from, to) {
        assert AcceptedBatch(c, g, j, i, from, to);
      }
    }
  }

  lemma NoTakenKeepsTiles(log: seq<Event>, e: Event)
    requires Tiled(log) && !e.Taken?
    ensures Tiled(log + [e]) && Frontier(log + [e]) == Frontier(log)
  {
    var g := log + [e];
    assert g[..|log|] == log;
    forall i | 0 <= i < |g| && g[i].Taken? ensures g[i].from == Frontier(g[..i]) && g[i].from < g[i].to {
      assert g[..i] == log[..i];
    }
  }

  lemma TakenExtendsTiles(log: seq<Event>, to: nat)
    requires Tiled(log) && Frontier(log) < to
    ensures Tiled(log + [Taken(Frontier(log), to)]) && Frontier(log + [Taken(Frontier(log), to)]) == to
  {
    var g := log + [Taken(Frontier(log), to)];
    forall i | 0 <= i < |g| && g[i].Taken? ensures g[i].from == Frontier(g[..i]) && g[i].from < g[i].to {
      assert g[..i] == log[..i];
      if i == |log| { assert log[..i] == log; }
    }
  }

  /** A send or a lost mark of a stretch taken keeps the durable state good. */
  lemma LogKeepsDisk(c: Config, disk: Option<State>, journal: seq<Entry>, log: seq<Event>, e: Event)
    requires DiskOk(c, disk, journal, log) && !e.Taken? && Taken(e.from, e.to) in log
    ensures DiskOk(c, disk, journal, log + [e])
  {
    NoTakenKeepsTiles(log, e);
    forall f | f in log + [e] && f.Taken? && f.to <= Loaded(disk).cursor && Told(c, journal, log, f.from, f.to)
      ensures Told(c, journal, log + [e], f.from, f.to)
    {
      ToldKept(c, journal, journal, log, log + [e], f.from, f.to);
    }
  }

  lemma EndKeeps(c: Config, w: World)
    requires Inv(c, w)
    ensures Inv(c, w.(frame := Exited, log := w.log + Lost(w.frame)))
  {
    if Lost(w.frame) != [] {
      LogKeepsDisk(c, w.disk, w.journal, w.log, Lost(w.frame)[0]);
      assert Lost(w.frame) == [Lost(w.frame)[0]];
    } else {
      assert w.log + Lost(w.frame) == w.log;
    }
  }

  lemma SendMarks(c: Config, d: State, i: nat, failed: bool, log: seq<Event>)
    requires d.pending.Some? && i < |c.providers| && c.providers[i] !in d.pending.value.delivered
    requires MarkedUpTo(c, d, i, failed)
    requires Accepted(i, d.cursor, d.pending.value.cursor, d.pending.value.alert) in log
    ensures MarkOk(c, d, Mark(d, c.providers[i]), i, failed, log)
  {
  }

  predicate Sending(c: Config, f: Frame, accepted: bool)
    requires f.Delivering?
  {
    accepted && f.s.pending.Some? && f.i < |c.providers| && c.providers[f.i] !in f.s.pending.value.delivered
  }

  lemma AcceptedKeeps(c: Config, w: World)
    requires Inv(c, w) && w.frame.Delivering? && Sending(c, w.frame, true)
    ensures Inv(c, AtDelivery(c, w, true))
  {
    var s, i := w.frame.s, w.frame.i;
    var e := Accepted(i, s.cursor, s.pending.value.cursor, s.pending.value.alert);
    LogKeepsDisk(c, w.disk, w.journal, w.log, e);
    SendMarks(c, s, i, w.frame.failed, w.log + [e]);
  }

  lemma NoSendFrame(c: Config, w: World, accepted: bool)
    requires FrameOk(c, w) && w.frame.Delivering? && !Sending(c, w.frame, accepted)
    ensures var v := AtDelivery(c, w, accepted);
            FrameOk(c, v) && v.disk == w.disk && v.journal == w.journal && v.log == w.log
  {
    var s, i := w.frame.s, w.frame.i;
    if s.pending.Some? && i < |c.providers| && c.providers[i] in s.pending.value.delivered {
      assert MarkedUpTo(c, s, i + 1, w.frame.failed);
    }
  }

  lemma NoSendKeeps(c: Config, w: World, accepted: bool)
    requires Inv(c, w) && w.frame.Delivering? && !Sending(c, w.frame, accepted)
    ensures Inv(c, AtDelivery(c, w, accepted))
  {
    NoSendFrame(c, w, accepted);
  }

  lemma DeliveryKeeps(c: Config, w: World, accepted: bool)
    requires Inv(c, w) && w.frame.Delivering?
    ensures Inv(c, AtDelivery(c, w, accepted))
  {
    if Sending(c, w.frame, accepted) { AcceptedKeeps(c, w); } else { NoSendKeeps(c, w, accepted); }
  }

  lemma BatchIsOk(c: Config, d: State, journal: seq<Entry>, to: nat)
    requires d.pending.None? && d.cursor < to <= |journal|
    ensures BatchOk(c, d, Batch(c, journal, d, to), journal)
  {
  }

  lemma ReadFrame(c: Config, w: World, fails: bool, take: nat)
    requires FrameOk(c, w) && w.frame.Reading?
    ensures var v := AtRead(c, w, fails, take);
            FrameOk(c, v) && v.disk == w.disk && v.journal == w.journal && v.log == w.log
  {
    var s := w.frame.s;
    if !fails && s.cursor <= |w.journal| {
      var to := s.cursor + Min(Min(take, LIMIT), |w.journal| - s.cursor);
      if s.cursor < to { BatchIsOk(c, s, w.journal, to); }
    }
  }

  lemma ReadKeeps(c: Config, w: World, fails: bool, take: nat)
    requires Inv(c, w) && w.frame.Reading?
    ensures Inv(c, AtRead(c, w, fails, take))
  {
    ReadFrame(c, w, fails, take);
  }

  /** Marking one more provider as served. */
  lemma MarkKeepsDisk(c: Config, w: World)
    requires Inv(c, w) && w.frame.SavingMark? && Distinct(c.providers)
    ensures DiskOk(c, Some(w.frame.s), w.journal, w.log)
  {
  }

  /** Finishing a batch that every provider has accepted. */
  lemma DoneKeepsDisk(c: Config, w: World)
    requires Inv(c, w) && w.frame.SavingDone?
    ensures DiskOk(c, Some(w.frame.s), w.journal, w.log)
  {
    var d := Loaded(w.disk);
    var p := d.pending.value;
    forall i | 0 <= i < |c.providers| ensures AcceptedBatch(c, w.log, w.journal, i, d.cursor, p.cursor) {
      assert c.providers[i] in p.delivered;
    }
    assert Told(c, w.journal, w.log, d.cursor, p.cursor);
  }

  /** What had been taken before is finished, since nothing was pending. */
  lemma OldStretchKept(c: Config, w: World, e: Event)
    requires Inv(c, w) && w.frame.SavingBatch? && e in w.log && e.Taken?
    ensures e.to <= Loaded(w.disk).cursor
    ensures Told(c, w.journal, w.log + [Taken(Loaded(w.disk).cursor, Reach(w.frame.s))], e.from, e.to)
  {
    ToldKept(c, w.journal, w.journal, w.log, w.log + [Taken(Loaded(w.disk).cursor, Reach(w.frame.s))], e.from, e.to);
  }

  /** What has just been taken is pending, or holds no event. */
  lemma NewStretchOk(c: Config, w: World, log: seq<Event>)
    requires FrameOk(c, w) && w.frame.SavingBatch?
    ensures var d, s := Loaded(w.disk), w.frame.s;
            if s.pending.Some? then s.cursor == d.cursor && s.pending.value.cursor == Reach(s)
            else s.cursor == Reach(s) && Told(c, w.journal, log, d.cursor, Reach(s))
  {
  }

  lemma BatchKeepsStretches(c: Config, w: World)
    requires Inv(c, w) && w.frame.SavingBatch?
    ensures StretchesOk(c, w.frame.s, w.journal, w.log + [Taken(Loaded(w.disk).cursor, Reach(w.frame.s))])
  {
    var d, s := Loaded(w.disk), w.frame.s;
    var g := w.log + [Taken(d.cursor, Reach(s))];
    NewStretchOk(c, w, g);
    forall e | e in g && e.Taken?
      ensures (e.to <= s.cursor && Told(c, w.journal, g, e.from, e.to))
              || (s.pending.Some? && e.from == s.cursor && e.to == s.pending.value.cursor)
    {
      if e in w.log { OldStretchKept(c, w, e); }
    }
  }

  /** Taking a new stretch of the journal, with or without an alert. */
  lemma BatchKeepsDisk(c: Config, w: World)
    requires Inv(c, w) && w.frame.SavingBatch?
    ensures DiskOk(c, Some(w.frame.s), w.journal, w.log + Durable(w.frame, w.disk))
  {
    TakenExtendsTiles(w.log, Reach(w.frame.s));
    BatchKeepsStretches(c, w);
  }

  lemma SaveKeeps(c: Config, w: World, save: Save)
    requires Inv(c, w) && Saves(w.frame) && Distinct(c.providers)
    ensures Inv(c, AtSave(w, save))
  {
    if save == NotSaved {
      EndKeeps(c, w);
    } else {
      SavedDisk(c, w);
      SavedFrame(c, w, save);
    }
  }

  lemma SavedDisk(c: Config, w: World)
    requires Inv(c, w) && Saves(w.frame) && Distinct(c.providers)
    ensures DiskOk(c, Some(w.frame.s), w.journal, w.log + Durable(w.frame, w.disk))
  {
    if !w.frame.SavingBatch? { assert w.log + Durable(w.frame, w.disk) == w.log; }
    match w.frame
    case SavingMark(_, _, _, _) => MarkKeepsDisk(c, w);
    case SavingDone(_, _) => DoneKeepsDisk(c, w);
    case SavingBatch(_) => BatchKeepsDisk(c, w);
    case SavingFirst(_) =>
  }

  lemma SavedFrame(c: Config, w: World, save: Save)
    requires FrameOk(c, w) && Saves(w.frame) && save != NotSaved
    ensures FrameOk(c, AtSave(w, save))
  {
  }

  lemma NextKeeps(c: Config, w: World, o: Outcome)
    requires Inv(c, w) && Distinct(c.providers)
    ensures Inv(c, Next(c, w, o))
  {
    ArrivalsKeep(c, w, o.arrivals);
    var v := w.(journal := w.journal + o.arrivals);
    if o.crash { EndKeeps(c, v); }
    else if v.frame.Delivering? { DeliveryKeeps(c, v, o.accepted); }
    else if v.frame.Reading? { ReadKeeps(c, v, o.readFails, o.take); }
    else if Saves(v.frame) { SaveKeeps(c, v, o.save); }
  }

  lemma RunKeeps(c: Config, w: World, outcomes: seq<Outcome>)
    requires Inv(c, w) && Distinct(c.providers)
    ensures Inv(c, Run(c, w, outcomes))
  {
    forall v, o | Inv(c, v)
      ensures Inv(c, Stepper(c)(v, o))
    {
      NextKeeps(c, v, o);
    }
    FoldKeeps(Stepper(c), w, outcomes, v => Inv(c, v));
  }

  // ----- delivery over every run -----

  lemma StartIsGood(c: Config)
    ensures Inv(c, START)
  {
  }

  lemma {:induction false} TakenCovers(log: seq<Event>, p: nat) returns (from: nat, to: nat)
    requires Tiled(log) && p < Frontier(log)
    ensures Taken(from, to) in log && from <= p < to
  {
    var most, last := log[..|log| - 1], log[|log| - 1];
    assert Tiled(most) by {
      forall i | 0 <= i < |most| && most[i].Taken? ensures most[i].from == Frontier(most[..i]) && most[i].from < most[i].to {
        assert most[..i] == log[..i] && most[i] == log[i];
      }
    }
    if last.Taken? && last.from <= p {
      from, to := last.from, last.to;
    } else {
      from, to := TakenCovers(most, p);
    }
  }

  /** In every run of the relay, with crashes and failing saves at any point,
      every event entry before the persisted cursor lies in a stretch whose
      alert every provider accepted. */
  lemma NoEventSkipped(c: Config, event: Entry -> bool, outcomes: seq<Outcome>, p: nat)
    requires Distinct(c.providers)
    requires forall es, e :: e in es && event(e) ==> c.summarize(es).Some?
    requires var w := Run(c, START, outcomes);
             p < Loaded(w.disk).cursor && (p < |w.journal| ==> event(w.journal[p]))
    ensures var w := Run(c, START, outcomes);
            exists from: nat, to: nat :: from <= p < to && Taken(from, to) in w.log
              && forall i :: 0 <= i < |c.providers| ==> AcceptedBatch(c, w.log, w.journal, i, from, to)
  {
    StartIsGood(c);
    RunKeeps(c, START, outcomes);
    EventIsTold(c, event, Run(c, START, outcomes), p);
  }

  lemma EventIsTold(c: Config, event: Entry -> bool, w: World, p: nat)
    requires DiskOk(c, w.disk, w.journal, w.log)
    requires forall es, e :: e in es && event(e) ==> c.summarize(es).Some?
    requires p < Loaded(w.disk).cursor && (p < |w.journal| ==> event(w.journal[p]))
    ensures exists from: nat, to: nat :: from <= p < to && Taken(from, to) in w.log
              && forall i :: 0 <= i < |c.providers| ==> AcceptedBatch(c, w.log, w.journal, i, from, to)
  {
    var from, to := TakenCovers(w.log, p);
    assert Taken(from, to) in w.log && to <= Loaded(w.disk).cursor && Told(c, w.journal, w.log, from, to);
    var es := w.journal[from..to];
    assert es[p - from] == w.journal[p] && w.journal[p] in es && event(w.journal[p]);
    assert c.summarize(es).Some?;
  }

  /** In every run the stretches taken tile the journal up to the point reached:
      each starts where the one before it ended, and none is empty. */
  lemma StretchesTile(c: Config, outcomes: seq<Outcome>)
    requires Distinct(c.providers)
    ensures var w := Run(c, START, outcomes);
            Tiled(w.log) && Frontier(w.log) == Reach(Loaded(w.disk)) <= |w.journal|
  {
    StartIsGood(c);
    RunKeeps(c, START, outcomes);
  }

  /** The batch of the first state is still there, or it went because every provider
      carries a mark; and no new stretch has been taken. */
  ghost predicate Holds(c: Config, w: World, v: World)
    requires w.disk.Some? && w.disk.value.pending.Some?
  {
    var d, p := w.disk.value, w.disk.value.pending.value;
    && v.disk.Some?
    && Frontier(v.log) == Frontier(w.log)
    && ((v.disk.value.cursor == d.cursor && v.disk.value.pending.Some?
         && v.disk.value.pending.value.cursor == p.cursor && v.disk.value.pending.value.alert == p.alert
         && p.delivered <= v.disk.value.pending.value.delivered)
        || (v.disk == Some(State(p.cursor, None))
            && forall k :: 0 <= k < |c.providers| ==> c.providers[k] in p.delivered))
  }

  lemma HoldsAtSave(c: Config, w: World, save: Save)
    requires Inv(c, w) && w.disk.Some? && w.disk.value.pending.Some? && Saves(w.frame)
    ensures Holds(c, w, AtSave(w, save))
  {
    assert !w.frame.SavingBatch?;
    assert w.log + [] == w.log;
    if save == NotSaved { HoldsAtEnd(c, w); }
  }

  lemma HoldsAtEnd(c: Config, w: World)
    requires Inv(c, w) && w.disk.Some? && w.disk.value.pending.Some?
    ensures Holds(c, w, w.(frame := Exited, log := w.log + Lost(w.frame)))
  {
    if Lost(w.frame) == [] {
      assert w.log + [] == w.log;
    } else {
      NoTakenKeepsTiles(w.log, Lost(w.frame)[0]);
      assert Lost(w.frame) == [Lost(w.frame)[0]];
    }
  }

  lemma HoldsAtDelivery(c: Config, w: World, accepted: bool)
    requires Inv(c, w) && w.disk.Some? && w.disk.value.pending.Some? && w.frame.Delivering?
    ensures Holds(c, w, AtDelivery(c, w, accepted))
  {
    if Sending(c, w.frame, accepted) {
      var s := w.frame.s;
      NoTakenKeepsTiles(w.log, Accepted(w.frame.i, s.cursor, s.pending.value.cursor, s.pending.value.alert));
    }
  }

  lemma HoldsNext(c: Config, w: World, o: Outcome)
    requires Inv(c, w) && w.disk.Some? && w.disk.value.pending.Some?
    ensures Holds(c, w, Next(c, w, o))
  {
    ArrivalsKeep(c, w, o.arrivals);
    var v := w.(journal := w.journal + o.arrivals);
    if o.crash { HoldsAtEnd(c, v); }
    else if v.frame.Delivering? { HoldsAtDelivery(c, v, o.accepted); }
    else if Saves(v.frame) { HoldsAtSave(c, v, o.save); }
  }

  /** In every run, while a batch is pending the cursor stays and nothing new is
      taken; the batch goes away only when every provider carries a mark. */
  lemma PendingHolds(c: Config, outcomes: seq<Outcome>, o: Outcome)
    requires Distinct(c.providers)
    requires var w := Run(c, START, outcomes); w.disk.Some? && w.disk.value.pending.Some?
    ensures var w := Run(c, START, outcomes); Holds(c, w, Next(c, w, o))
  {
    StartIsGood(c);
    RunKeeps(c, START, outcomes);
    HoldsNext(c, Run(c, START, outcomes), o);
  }

  // ----- how often one batch can reach one provider -----

  function Sends(log: seq<Event>, i: nat, from: nat, to: nat): nat {
    if log == [] then 0
    else
      var e := log[|log| - 1];
      Sends(log[..|log| - 1], i, from, to)
      + if e.Accepted? && e.provider == i && e.from == from && e.to == to then 1 else 0
  }

  function Forgets(log: seq<Event>, i: nat, from: nat, to: nat): nat {
    if log == [] then 0
    else
      var e := log[|log| - 1];
      Forgets(log[..|log| - 1], i, from, to)
      + if e == Forgotten(i, from, to) then 1 else 0
  }

  lemma CountOne(log: seq<Event>, e: Event, i: nat, from: nat, to: nat)
    ensures Sends(log + [e], i, from, to)
            == Sends(log, i, from, to) + if e.Accepted? && e.provider == i && e.from == from && e.to == to then 1 else 0
    ensures Forgets(log + [e], i, from, to)
            == Forgets(log, i, from, to) + if e == Forgotten(i, from, to) then 1 else 0
  {
    assert (log + [e])[..|log|] == log;
  }

  /** The provider is done with the batch: finished, marked, or about to be. */
  ghost predicate Settled(c: Config, w: World, i: nat, from: nat, to: nat)
    requires i < |c.providers|
  {
    var d := Loaded(w.disk);
    || to <= d.cursor
    || (d.pending.Some? && from == d.cursor && to == d.pending.value.cursor
        && (c.providers[i] in d.pending.value.delivered || (w.frame.SavingMark? && w.frame.i == i)))
  }

  ghost predicate CountsOk(c: Config, w: World) {
    forall i, from, to | 0 <= i < |c.providers| && 0 <= from && 0 <= to ::
      Sends(w.log, i, from, to) <= Forgets(w.log, i, from, to) + if Settled(c, w, i, from, to) then 1 else 0
  }

  lemma NextCounts(c: Config, w: World, o: Outcome)
    requires Inv(c, w) && CountsOk(c, w)
    ensures CountsOk(c, Next(c, w, o))
  {
    var v := Next(c, w, o);
    forall i, from, to | 0 <= i < |c.providers| && 0 <= from && 0 <= to
      ensures Sends(v.log, i, from, to) <= Forgets(v.log, i, from, to) + if Settled(c, v, i, from, to) then 1 else 0
    {
      OneStepCounts(c, w, o, i, from, to);
    }
  }

  lemma LogGrows(c: Config, w: World, o: Outcome)
    ensures var v := Next(c, w, o);
            v.log == w.log || (|v.log| == |w.log| + 1 && v.log == w.log + [v.log[|w.log|]])
  {
  }

  lemma OneStepCounts(c: Config, w: World, o: Outcome, i: nat, from: nat, to: nat)
    requires Inv(c, w) && CountsOk(c, w) && i < |c.providers|
    ensures var v := Next(c, w, o);
            Sends(v.log, i, from, to) <= Forgets(v.log, i, from, to) + if Settled(c, v, i, from, to) then 1 else 0
  {
    var v := Next(c, w, o);
    LogGrows(c, w, o);
    assert Sends(w.log, i, from, to) <= Forgets(w.log, i, from, to) + if Settled(c, w, i, from, to) then 1 else 0;
    if v.log != w.log {
      CountOne(w.log, v.log[|w.log|], i, from, to);
    }
    SettledStep(c, w, o, i, from, to);
  }

  /** Settling is undone only by forgetting, and a settled provider gets no send. */
  ghost predicate SettledSoundly(c: Config, w: World, v: World, i: nat, from: nat, to: nat)
    requires i < |c.providers|
  {
    && (v.log == w.log ==> (Settled(c, w, i, from, to) ==> Settled(c, v, i, from, to)))
    && (v.log != w.log && v.log != [] ==>
          var e := v.log[|v.log| - 1];
          && (e.Accepted? && e.provider == i && e.from == from && e.to == to ==>
                !Settled(c, w, i, from, to) && Settled(c, v, i, from, to))
          && (Settled(c, w, i, from, to) && e != Forgotten(i, from, to) ==> Settled(c, v, i, from, to)))
  }

  lemma SettledAtSave(c: Config, w: World, save: Save, i: nat, from: nat, to: nat)
    requires Inv(c, w) && i < |c.providers| && Saves(w.frame)
    ensures SettledSoundly(c, w, AtSave(w, save), i, from, to)
  {
    match w.frame
    case SavingMark(_, _, _, _) => assert w.log + [] == w.log;
    case SavingDone(_, _) => assert w.log + [] == w.log;
    case SavingFirst(_) => assert w.log + [] == w.log;
    case SavingBatch(_) => assert w.log + [] == w.log;
  }

  lemma SettledAtDelivery(c: Config, w: World, accepted: bool, i: nat, from: nat, to: nat)
    requires Inv(c, w) && i < |c.providers| && w.frame.Delivering?
    ensures SettledSoundly(c, w, AtDelivery(c, w, accepted), i, from, to)
  {
    var v := AtDelivery(c, w, accepted);
    assert v.disk == w.disk;
  }

  lemma SettledAtEnd(c: Config, w: World, i: nat, from: nat, to: nat)
    requires Inv(c, w) && i < |c.providers|
    ensures SettledSoundly(c, w, w.(frame := Exited, log := w.log + Lost(w.frame)), i, from, to)
  {
    if Lost(w.frame) == [] { assert w.log + Lost(w.frame) == w.log; }
  }

  lemma SettledStep(c: Config, w: World, o: Outcome, i: nat, from: nat, to: nat)
    requires Inv(c, w) && i < |c.providers|
    ensures SettledSoundly(c, w, Next(c, w, o), i, from, to)
  {
    ArrivalsKeep(c, w, o.arrivals);
    var v := w.(journal := w.journal + o.arrivals);
    if o.crash { SettledAtEnd(c, v, i, from, to); }
    else if v.frame.Delivering? { SettledAtDelivery(c, v, o.accepted, i, from, to); }
    else if Saves(v.frame) { SettledAtSave(c, v, o.save, i, from, to); }
  }

  lemma {:induction false} RunCounts(c: Config, outcomes: seq<Outcome>)
    requires Distinct(c.providers)
    ensures CountsOk(c, Run(c, START, outcomes))
  {
    if outcomes != [] {
      var most := outcomes[..|outcomes| - 1];
      RunCounts(c, most);
      StartIsGood(c);
      RunKeeps(c, START, most);
      NextCounts(c, Run(c, START, most), outcomes[|outcomes| - 1]);
    }
  }

  /** In every run one provider accepts one batch at most once more often than a
      crash or failed save fell between such a send and its durable mark. */
  lemma DuplicatesAreAccountedFor(c: Config, outcomes: seq<Outcome>, i: nat, from: nat, to: nat)
    requires Distinct(c.providers) && i < |c.providers|
    ensures var h := Run(c, START, outcomes).log; Sends(h, i, from, to) <= 1 + Forgets(h, i, from, to)
  {
    RunCounts(c, outcomes);
  }
}
