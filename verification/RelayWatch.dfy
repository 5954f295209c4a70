/** Watch and deliver as they are written, driven by the outcomes of their
    effects.  Running out of outcomes is the process being stopped. */
module RelayWatch {
  import opened Wrappers
  import opened Runs
  import opened NotifyEvents
  import opened AlertRelay

  datatype Status = Continues | Failed | Stopped

  /** How one turn of the delivery loop leaves it. */
  datatype Turn = Again | Marked | Nothing | Complete | Died

  class Relay {
    const providers: seq<string>
    const host: string
    ghost const settings: Config
    ghost const step: (World, Outcome) -> World
    var disk: Option<State>
    var journal: seq<Entry>
    ghost var frame: Frame
    ghost var log: seq<Event>

    ghost function View(): World reads this { World(disk, frame, journal, log) }

    ghost predicate Valid() {
      && settings.providers == providers
      && (forall es :: settings.summarize(es) == Summary(es, host))
      && forall w: World, o: Outcome {:trigger AlertRelay.Next(settings, w, o)} :: step(w, o) == AlertRelay.Next(settings, w, o)
    }

    constructor (providers: seq<string>, host: string)
      ensures this.providers == providers && this.host == host && Valid() && View() == START
      ensures settings == Settings(providers, host) && step == Stepper(settings)
    {
      this.providers, this.host := providers, host;
      settings := Settings(providers, host);
      step := Stepper(Settings(providers, host));
      disk, journal, frame, log := None, [], Exited, [];
    }

    /** saveState: write a temporary file, rename it over the state, sync. */
    method SaveState(state: State, save: Save) returns (ok: bool)
      requires Saves(frame) && frame.s == state
      modifies this
      ensures View() == AtSave(old(View()), save) && ok == (save == Saved)
    {
      if save == NotSaved {
        log, frame := log + Lost(frame), Exited;
        return false;
      }
      log := log + Durable(frame, disk);
      disk := Some(state);
      frame := if save == Saved then AfterSave(frame) else Exited;
      return save == Saved;
    }

    /** What happens before an effect: the journal grows, or the process dies. */
    method Arrive(o: Outcome)
      modifies this
      ensures View() == old(View()).(journal := old(journal) + o.arrivals,
                                     frame := if o.crash then Exited else old(frame),
                                     log := if o.crash then old(log) + Lost(old(frame)) else old(log))
    {
      journal := journal + o.arrivals;
      if o.crash {
        log, frame := log + Lost(frame), Exited;
      }
    }

    /** One save, together with what may come before it. */
    method Persist(state: State, o: Outcome) returns (status: Status)
      requires Valid() && Saves(frame) && frame.s == state
      modifies this
      ensures View() == step(old(View()), o)
      ensures status.Continues? ==> frame == AfterSave(old(frame))
      ensures !status.Continues? ==> frame.Exited?
    {
      assert step(View(), o) == AlertRelay.Next(settings, View(), o);
      Arrive(o);
      if o.crash { return Stopped; }
      var ok := SaveState(state, o.save);
      status := if ok then Continues else Failed;
    }

    /** One turn of the delivery loop at provider i. */
    method Offer(state: State, i: nat, failed: bool, opening: bool, o: Outcome)
      returns (after: State, sendFailed: bool, turn: Turn)
      requires Valid() && frame == Delivering(state, i, failed, opening)
      modifies this
      ensures View() == step(old(View()), o)
      ensures turn.Again? ==> after == state && frame == Delivering(state, i + 1, sendFailed, opening)
      ensures turn.Marked? ==> sendFailed == failed && frame == SavingMark(after, i, failed, opening)
      ensures turn.Nothing? ==> after == state && frame == if opening then Reading(state) else Delivering(state, 0, false, true)
      ensures turn.Complete? ==> !failed && frame == SavingDone(after, opening)
      ensures turn.Died? ==> frame.Exited?
    {
      assert step(View(), o) == AlertRelay.Next(settings, View(), o);
      after, sendFailed := state, failed;
      Arrive(o);
      if o.crash { return after, sendFailed, Died; }
      if state.pending.None? {
        frame := if opening then Reading(state) else Delivering(state, 0, false, true);
        return after, sendFailed, Nothing;
      }
      var batch := state.pending.value;
      if i >= |providers| {
        if failed {
          frame := Exited;
          return after, sendFailed, Died;
        }
        after := State(batch.cursor, None);
        frame := SavingDone(after, opening);
        return after, sendFailed, Complete;
      }
      var name := providers[i];
      if name in batch.delivered {
        frame := Delivering(state, i + 1, failed, opening);
        return after, sendFailed, Again;
      }
      if !o.accepted {
        sendFailed := true;
        frame := Delivering(state, i + 1, true, opening);
        return after, sendFailed, Again;
      }
      log := log + [Accepted(i, state.cursor, batch.cursor, batch.alert)];
      after := Mark(state, name);
      frame := SavingMark(after, i, failed, opening);
      return after, sendFailed, Marked;
    }

    /** deliver: offer the pending alert to every provider not yet marked, save
        each mark, and clear the batch once no send failed. */
    method Deliver(initial: State, opening: bool, outcomes: seq<Outcome>, start: nat)
      returns (state: State, status: Status, pos: nat)
      requires Valid() && start <= |outcomes| && frame == Delivering(initial, 0, false, opening)
      modifies this
      ensures start <= pos <= |outcomes|
      ensures View() == FoldTo(step, old(View()), outcomes, start, pos)
      ensures status.Continues? ==>
                start < pos && frame == if opening then Reading(state) else Delivering(state, 0, false, true)
      ensures !status.Continues? ==> pos == |outcomes| || frame.Exited?
    {
      state, pos := initial, start;
      var i, failed := 0, false;
      while true
        invariant start <= pos <= |outcomes|
        invariant frame == Delivering(state, i, failed, opening)
        invariant View() == FoldTo(step, old(View()), outcomes, start, pos)
        decreases |outcomes| - pos
      {
        if pos == |outcomes| { return state, Stopped, pos; }
        var turn;
        state, failed, turn := Offer(state, i, failed, opening, outcomes[pos]);
        pos := pos + 1;
        if turn.Died? { return state, Failed, pos; }
        if turn.Nothing? { return state, Continues, pos; }
        if turn.Complete? { break; }
        if turn.Marked? {
          if pos == |outcomes| { return state, Stopped, pos; }
          status := Persist(state, outcomes[pos]);
          pos := pos + 1;
          if !status.Continues? { return; }
        }
        i := i + 1;
      }
      if pos == |outcomes| { return state, Stopped, pos; }
      status := Persist(state, outcomes[pos]);
      pos := pos + 1;
    }

    /** One read of the journal, and the batch or cursor that follows from it. */
    method Read(state: State, o: Outcome) returns (after: State, status: Status, found: bool)
      requires Valid() && frame == Reading(state)
      modifies this
      ensures View() == step(old(View()), o)
      ensures status.Continues? ==> frame == if found then SavingBatch(after) else Delivering(after, 0, false, true)
      ensures !status.Continues? ==> frame.Exited?
    {
      assert step(View(), o) == AlertRelay.Next(settings, View(), o);
      after, found := state, false;
      Arrive(o);
      if o.crash { return after, Stopped, found; }
      if o.readFails || state.cursor > |journal| {
        frame := Exited;
        return after, Failed, found;
      }
      var to := state.cursor + Min(Min(o.take, LIMIT), |journal| - state.cursor);
      if to == state.cursor {
        frame := Delivering(state, 0, false, true);
        return after, Continues, found;
      }
      after := Gather(state, to);
      frame := SavingBatch(after);
      return after, Continues, true;
    }

    /** A pending batch when the entries hold an event, a new cursor otherwise. */
    method Gather(state: State, to: nat) returns (after: State)
      requires Valid() && state.cursor <= to <= |journal|
      ensures after == Batch(settings, journal, state, to)
    {
      var entries := journal[state.cursor..to];
      assert settings.summarize(entries) == Summary(entries, host);
      var alert := Summarize(entries, host);
      if alert.Some? {
        return state.(pending := Some(Pending(to, alert.value, {})));
      }
      return state.(cursor := to);
    }

    /** One life of the relay process: load the state, save it, then deliver,
        read, save and deliver until something fails or the process stops. */
    method Watch(outcomes: seq<Outcome>) returns (status: Status, pos: nat)
      requires Valid() && frame.Exited?
      modifies this
      ensures pos <= |outcomes| && View() == FoldTo(step, old(View()), outcomes, 0, pos)
      ensures !status.Continues? && (pos == |outcomes| || frame.Exited?)
    {
      pos := 0;
      if pos == |outcomes| { return Stopped, pos; }
      assert step(View(), outcomes[0]) == AlertRelay.Next(settings, View(), outcomes[0]);
      Arrive(outcomes[0]);
      pos := 1;
      assert Lost(Exited) == [] && log + [] == log;
      if outcomes[0].crash { return Stopped, pos; }
      var state := if disk.Some? then disk.value else State(0, None);
      frame := SavingFirst(state);
      assert View() == FoldTo(step, old(View()), outcomes, 0, 1);
      if pos == |outcomes| { return Stopped, pos; }
      status := Persist(state, outcomes[pos]);
      pos := pos + 1;
      if !status.Continues? { return; }
      status, pos := Rounds(state, outcomes, pos, old(View()));
    }

    /** The endless loop of Watch. */
    method Rounds(initial: State, outcomes: seq<Outcome>, start: nat, ghost w: World) returns (status: Status, pos: nat)
      requires Valid() && start <= |outcomes| && frame == Delivering(initial, 0, false, true)
      requires View() == FoldTo(step, w, outcomes, 0, start)
      modifies this
      ensures pos <= |outcomes| && View() == FoldTo(step, w, outcomes, 0, pos)
      ensures !status.Continues? && (pos == |outcomes| || frame.Exited?)
    {
      var state := initial;
      pos := start;
      while true
        invariant pos <= |outcomes|
        invariant frame == Delivering(state, 0, false, true)
        invariant View() == FoldTo(step, w, outcomes, 0, pos)
        decreases |outcomes| - pos
      {
        ghost var at := pos;
        state, status, pos := Deliver(state, true, outcomes, pos);
        FoldToSplit(step, w, outcomes, 0, at, pos);
        if !status.Continues? { return; }
        if pos == |outcomes| { return Stopped, pos; }
        var found;
        state, status, found := Read(state, outcomes[pos]);
        pos := pos + 1;
        if !status.Continues? { return; }
        if found {
          if pos == |outcomes| { return Stopped, pos; }
          status := Persist(state, outcomes[pos]);
          pos := pos + 1;
          if !status.Continues? { return; }
          at := pos;
          state, status, pos := Deliver(state, false, outcomes, pos);
          FoldToSplit(step, w, outcomes, 0, at, pos);
          if !status.Continues? { return; }
        }
      }
    }
  }

  function Settings(providers: seq<string>, host: string): Config {
    Config(providers, es => Summary(es, host))
  }

  /** What Watch does with its own settings: no event is skipped, however often
      it was stopped, failed and restarted. */
  lemma WatchSkipsNothing(providers: seq<string>, host: string, outcomes: seq<Outcome>, p: nat)
    requires Distinct(providers)
    requires var w := Run(Settings(providers, host), START, outcomes);
             p < Loaded(w.disk).cursor && (p < |w.journal| ==> IsEvent(w.journal[p]))
    ensures var c := Settings(providers, host);
            var w := Run(c, START, outcomes);
            exists from: nat, to: nat :: from <= p < to && Taken(from, to) in w.log
              && forall i :: 0 <= i < |providers| ==> AcceptedBatch(c, w.log, w.journal, i, from, to)
  {
    var c := Settings(providers, host);
    forall es, e | e in es && IsEvent(e) ensures c.summarize(es).Some? {
      SummaryIffEvent(es, host);
    }
    NoEventSkipped(c, e => IsEvent(e), outcomes, p);
  }
}
