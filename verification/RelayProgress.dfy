/** That the relay gets somewhere: with commands that work it catches up with the journal
    from any state, and one refusing provider does not keep an alert from the others. */
module RelayProgress {
  import opened Wrappers
  import opened Runs
  import opened NotifyEvents
  import opened AlertRelay
  import opened RelayWatch

  /** Nothing arrives, nothing fails, a provider accepts, and a read returns all it may. */
  const GOOD := Outcome([], false, true, Saved, false, LIMIT)

  function Good(n: nat): seq<Outcome> { seq(n, _ => GOOD) }

  /** Nothing is pending and nothing is left to read. */
  predicate CaughtUp(w: World) {
    w.disk == Some(State(|w.journal|, None)) && w.frame == Delivering(State(|w.journal|, None), 0, false, true)
  }

  function Behind(w: World): int { |w.journal| - Loaded(w.disk).cursor }

  function Left(c: Config, i: nat): nat { if i < |c.providers| then |c.providers| - i else 0 }

  /** How many commands at most are left before the cursor moves. */
  function Phase(c: Config, w: World): nat {
    var most := 2 * |c.providers| + 2;
    match w.frame
    case SavingDone(_, _) => 0
    case SavingMark(_, i, failed, _) => (if failed then most + 7 else 0) + 2 * Left(c, i) + 1
    case Delivering(s, i, failed, opening) =>
      if s.pending.None? then most + if opening then 3 else 4
      else (if failed then most + 7 else 0) + 2 * Left(c, i) + 2
    case SavingBatch(_) => most + 1
    case Reading(_) => most + 2
    case SavingFirst(_) => most + 5
    case Exited => most + 6
  }

  /** Every good command brings the relay on. */
  predicate Nearer(c: Config, w: World, v: World) {
    v.journal == w.journal && (CaughtUp(v) || Behind(v) < Behind(w) || (Behind(v) == Behind(w) && Phase(c, v) < Phase(c, w)))
  }

  lemma GoodSave(c: Config, w: World)
    requires Inv(c, w) && Saves(w.frame)
    ensures Nearer(c, w, AtSave(w, Saved))
  {
  }

  lemma GoodDelivery(c: Config, w: World)
    requires Inv(c, w) && w.frame.Delivering?
    ensures Nearer(c, w, AtDelivery(c, w, true))
  {
  }

  lemma GoodRead(c: Config, w: World)
    requires Inv(c, w) && w.frame.Reading?
    ensures Nearer(c, w, AtRead(c, w, false, LIMIT))
  {
  }

  /** Whatever a read returns is taken, however little it is. */
  lemma TakesWhatIsRead(c: Config, w: World, take: nat)
    requires w.frame.Reading? && w.frame.s.pending.None? && w.frame.s.cursor <= |w.journal|
    ensures var cursor, n := w.frame.s.cursor, Min(Min(take, LIMIT), |w.journal| - w.frame.s.cursor);
            n > 0 ==> var v := AtRead(c, w, false, take); v.frame.SavingBatch? && Reach(v.frame.s) == cursor + n
  {
  }

  lemma GoodStep(c: Config, w: World)
    requires Inv(c, w)
    ensures Nearer(c, w, Next(c, w, GOOD))
  {
    assert w.(journal := w.journal + []) == w;
    if w.frame.Delivering? { GoodDelivery(c, w); }
    else if w.frame.Reading? { GoodRead(c, w); }
    else if Saves(w.frame) { GoodSave(c, w); }
  }

  lemma RunOne(c: Config, w: World, o: Outcome)
    ensures Run(c, w, [o]) == Next(c, w, o)
  {
    FoldOne(Stepper(c), w, [], o);
    assert [] + [o] == [o];
  }

  lemma GoodFirst(c: Config, w: World, n: nat)
    ensures Run(c, w, Good(n + 1)) == Run(c, Next(c, w, GOOD), Good(n))
  {
    assert Good(n + 1) == [GOOD] + Good(n);
    FoldJoin(Stepper(c), w, [GOOD], Good(n));
    RunOne(c, w, GOOD);
  }

  lemma {:induction false} CatchesUp(c: Config, w: World) returns (n: nat)
    requires Inv(c, w) && Distinct(c.providers)
    ensures CaughtUp(Run(c, w, Good(n))) && Run(c, w, Good(n)).journal == w.journal
    decreases if Behind(w) >= 0 then Behind(w) else 0, Phase(c, w)
  {
    var v := Next(c, w, GOOD);
    GoodStep(c, w);
    NextKeeps(c, w, GOOD);
    if CaughtUp(v) {
      n := 0;
      assert Run(c, v, Good(0)) == v;
    } else {
      n := CatchesUp(c, v);
    }
    GoodFirst(c, w, n);
    n := n + 1;
  }

  /** From every run of Watch, with whatever crashes, failing saves and refusals lie behind
      it, a number of working commands leads to a durable cursor at the end of the journal,
      with nothing pending; and by then every provider has accepted an alert for every event. */
  lemma WatchCatchesUp(providers: seq<string>, host: string, outcomes: seq<Outcome>) returns (n: nat)
    requires Distinct(providers)
    ensures var c := Settings(providers, host);
            var w, v := Run(c, START, outcomes), Run(c, START, outcomes + Good(n));
            && v.journal == w.journal && v.disk == Some(State(|w.journal|, None))
            && forall p :: 0 <= p < |w.journal| && IsEvent(w.journal[p]) ==> Notified(c, v, p)
  {
    var c := Settings(providers, host);
    StartIsGood(c);
    RunKeeps(c, START, outcomes);
    n := CatchesUp(c, Run(c, START, outcomes));
    FoldJoin(Stepper(c), START, outcomes, Good(n));
    var v := Run(c, START, outcomes + Good(n));
    forall p | 0 <= p < |v.journal| && IsEvent(v.journal[p])
      ensures Notified(c, v, p)
    {
      WatchSkipsNothing(providers, host, outcomes + Good(n), p);
    }
  }

  /** Every provider has accepted the alert of a stretch that holds this entry. */
  ghost predicate Notified(c: Config, w: World, p: nat) {
    exists from: nat, to: nat :: from <= p < to && Taken(from, to) in w.log
      && forall i :: 0 <= i < |c.providers| ==> AcceptedBatch(c, w.log, w.journal, i, from, to)
  }

  // ----- one delivery, with providers that refuse -----

  /** The alert has been offered to the next provider, and its mark saved if it accepts. */
  function Offered(c: Config, accepts: nat -> bool, w: World): (v: World)
    requires w.frame.Delivering? && w.frame.s.pending.Some? && w.frame.i < |c.providers|
    ensures v.frame.Delivering? && v.frame.s.pending.Some? && v.frame.i == w.frame.i + 1
  {
    var v := AtDelivery(c, w, accepts(w.frame.i));
    if v.frame.SavingMark? then AtSave(v, Saved) else v
  }

  /** One delivery from provider i on, when some providers accept, the others refuse, and
      every save works. */
  function Delivery(c: Config, accepts: nat -> bool, w: World): World
    requires w.frame.Delivering? && w.frame.s.pending.Some?
    decreases Left(c, w.frame.i)
  {
    if w.frame.i >= |c.providers| then AtDelivery(c, w, false) else Delivery(c, accepts, Offered(c, accepts, w))
  }

  function Acceptors(c: Config, accepts: nat -> bool, i: nat): set<string> {
    set k | i <= k < |c.providers| && accepts(k) :: c.providers[k]
  }

  function MarkAll(s: State, names: set<string>): State
    requires s.pending.Some?
  {
    s.(pending := Some(s.pending.value.(delivered := s.pending.value.delivered + names)))
  }

  /** Somebody who has not had the alert refuses it. */
  predicate Refused(c: Config, s: State, accepts: nat -> bool, i: nat)
    requires s.pending.Some?
  {
    exists k :: i <= k < |c.providers| && !accepts(k) && c.providers[k] !in s.pending.value.delivered
  }

  /** The delivery from provider i on: everybody who accepts has the alert and a durable
      mark, whoever refuses it before or after; it fails exactly when somebody does. */
  ghost predicate Delivers(c: Config, accepts: nat -> bool, w: World, v: World, s: State, i: nat, failed: bool, opening: bool)
    requires s.pending.Some?
  {
    var p := s.pending.value;
    && v.journal == w.journal && v.disk == Some(MarkAll(s, Acceptors(c, accepts, i)))
    && (forall k :: i <= k < |c.providers| && accepts(k) ==> Accepted(k, s.cursor, p.cursor, p.alert) in v.log)
    && v.frame == if failed || Refused(c, s, accepts, i) then Exited else SavingDone(State(p.cursor, None), opening)
  }

  /** What the delivery that a state is in the middle of comes to. */
  ghost predicate Ends(c: Config, accepts: nat -> bool, w: World, v: World)
    requires w.frame.Delivering? && w.frame.s.pending.Some?
  {
    w.log <= v.log && Delivers(c, accepts, w, v, w.frame.s, w.frame.i, w.frame.failed, w.frame.opening)
  }

  lemma {:induction false} DeliversToAll(c: Config, accepts: nat -> bool, w: World)
    requires Inv(c, w) && Distinct(c.providers) && w.frame.Delivering? && w.frame.s.pending.Some?
    ensures Ends(c, accepts, w, Delivery(c, accepts, w))
    decreases Left(c, w.frame.i)
  {
    if w.frame.i >= |c.providers| {
      DeliveryEnds(c, accepts, w);
    } else {
      var v := Offered(c, accepts, w);
      OfferedKeeps(c, accepts, w);
      DeliversToAll(c, accepts, v);
      OfferedEnds(c, accepts, w, Delivery(c, accepts, v));
    }
  }

  lemma OfferedKeeps(c: Config, accepts: nat -> bool, w: World)
    requires Inv(c, w) && Distinct(c.providers)
    requires w.frame.Delivering? && w.frame.s.pending.Some? && w.frame.i < |c.providers|
    ensures Inv(c, Offered(c, accepts, w))
  {
    var v := AtDelivery(c, w, accepts(w.frame.i));
    DeliveryKeeps(c, w, accepts(w.frame.i));
    if v.frame.SavingMark? { SaveKeeps(c, v, Saved); }
  }

  lemma OfferedEnds(c: Config, accepts: nat -> bool, w: World, v: World)
    requires Inv(c, w) && Distinct(c.providers)
    requires w.frame.Delivering? && w.frame.s.pending.Some? && w.frame.i < |c.providers|
    requires Ends(c, accepts, Offered(c, accepts, w), v)
    ensures Ends(c, accepts, w, v)
  {
    HasItAlready(c, w, w.frame.i);
    if c.providers[w.frame.i] in w.frame.s.pending.value.delivered || !accepts(w.frame.i) {
      PassesOver(c, accepts, w, v);
    } else {
      Serves(c, accepts, w, v);
    }
  }

  lemma DeliveryEnds(c: Config, accepts: nat -> bool, w: World)
    requires Inv(c, w) && w.frame.Delivering? && w.frame.s.pending.Some? && w.frame.i >= |c.providers|
    ensures Ends(c, accepts, w, AtDelivery(c, w, false))
  {
    var s := w.frame.s;
    assert Acceptors(c, accepts, w.frame.i) == {};
    assert s.pending.value.delivered + {} == s.pending.value.delivered;
  }

  lemma HasItAlready(c: Config, w: World, i: nat)
    requires Inv(c, w) && w.frame.Delivering? && w.frame.s.pending.Some? && i < |c.providers|
    ensures var s := w.frame.s;
            c.providers[i] in s.pending.value.delivered ==>
              Accepted(i, s.cursor, s.pending.value.cursor, s.pending.value.alert) in w.log
  {
  }

  lemma AcceptorsFirst(c: Config, accepts: nat -> bool, i: nat)
    requires i < |c.providers|
    ensures Acceptors(c, accepts, i) == Acceptors(c, accepts, i + 1) + if accepts(i) then {c.providers[i]} else {}
  {
    if accepts(i) { assert c.providers[i] in Acceptors(c, accepts, i); }
    forall name | name in Acceptors(c, accepts, i + 1)
      ensures name in Acceptors(c, accepts, i)
    {
      var k :| i + 1 <= k < |c.providers| && accepts(k) && c.providers[k] == name;
    }
  }

  lemma RefusedFirst(c: Config, s: State, accepts: nat -> bool, i: nat)
    requires s.pending.Some? && i < |c.providers|
    ensures Refused(c, s, accepts, i)
            <==> (!accepts(i) && c.providers[i] !in s.pending.value.delivered) || Refused(c, s, accepts, i + 1)
  {
    if Refused(c, s, accepts, i + 1) {
      var k :| i + 1 <= k < |c.providers| && !accepts(k) && c.providers[k] !in s.pending.value.delivered;
      assert i <= k;
    }
  }

  /** Passing a provider over leaves what the rest of the delivery does. */
  lemma PassesOver(c: Config, accepts: nat -> bool, w: World, v: World)
    requires w.frame.Delivering? && w.frame.s.pending.Some? && w.frame.i < |c.providers|
    requires c.providers[w.frame.i] in w.frame.s.pending.value.delivered || !accepts(w.frame.i)
    requires var s, i := w.frame.s, w.frame.i;
             c.providers[i] in s.pending.value.delivered ==>
               Accepted(i, s.cursor, s.pending.value.cursor, s.pending.value.alert) in w.log
    requires Ends(c, accepts, Offered(c, accepts, w), v)
    ensures Ends(c, accepts, w, v)
  {
    var Delivering(s, i, failed, opening) := w.frame;
    var delivered := s.pending.value.delivered;
    AcceptorsFirst(c, accepts, i);
    RefusedFirst(c, s, accepts, i);
    assert delivered + Acceptors(c, accepts, i) == delivered + Acceptors(c, accepts, i + 1);
  }

  /** A provider that accepts is marked, and the rest of the delivery goes on from there. */
  lemma Serves(c: Config, accepts: nat -> bool, w: World, v: World)
    requires Distinct(c.providers) && w.frame.Delivering? && w.frame.s.pending.Some? && w.frame.i < |c.providers|
    requires c.providers[w.frame.i] !in w.frame.s.pending.value.delivered && accepts(w.frame.i)
    requires Ends(c, accepts, Offered(c, accepts, w), v)
    ensures Ends(c, accepts, w, v)
  {
    var Delivering(s, i, failed, opening) := w.frame;
    var p := s.pending.value;
    var log := w.log + [Accepted(i, s.cursor, p.cursor, p.alert)];
    assert log + [] == log;
    assert Offered(c, accepts, w) ==
           World(Some(Mark(s, c.providers[i])), Delivering(Mark(s, c.providers[i]), i + 1, failed, opening), w.journal, log);
    assert log[|w.log|] in v.log;
    AcceptorsFirst(c, accepts, i);
    RefusedFirst(c, s, accepts, i);
    RefusedMark(c, s, accepts, i);
    assert p.delivered + Acceptors(c, accepts, i) == (p.delivered + {c.providers[i]}) + Acceptors(c, accepts, i + 1);
  }

  lemma RefusedMark(c: Config, s: State, accepts: nat -> bool, i: nat)
    requires s.pending.Some? && i < |c.providers| && Distinct(c.providers)
    ensures Refused(c, Mark(s, c.providers[i]), accepts, i + 1) <==> Refused(c, s, accepts, i + 1)
  {
    if Refused(c, s, accepts, i + 1) {
      var k :| i + 1 <= k < |c.providers| && !accepts(k) && c.providers[k] !in s.pending.value.delivered;
      assert c.providers[k] != c.providers[i];
    }
  }

  /** Such a delivery is a run without a crash in which all saves work. */
  lemma {:induction false} DeliveryIsRun(c: Config, accepts: nat -> bool, w: World) returns (outcomes: seq<Outcome>)
    requires w.frame.Delivering? && w.frame.s.pending.Some?
    ensures Run(c, w, outcomes) == Delivery(c, accepts, w)
    ensures forall o :: o in outcomes ==> !o.crash && o.save == Saved && o.arrivals == []
    decreases Left(c, w.frame.i)
  {
    if w.frame.i >= |c.providers| {
      outcomes := [Calm(false)];
      CalmStep(c, w, false);
    } else {
      var first := OfferedIsRun(c, accepts, w);
      var rest := DeliveryIsRun(c, accepts, Offered(c, accepts, w));
      FoldJoin(Stepper(c), w, first, rest);
      outcomes := first + rest;
    }
  }

  lemma OfferedIsRun(c: Config, accepts: nat -> bool, w: World) returns (outcomes: seq<Outcome>)
    requires w.frame.Delivering? && w.frame.s.pending.Some? && w.frame.i < |c.providers|
    ensures Run(c, w, outcomes) == Offered(c, accepts, w)
    ensures forall o :: o in outcomes ==> !o.crash && o.save == Saved && o.arrivals == []
  {
    var o := Calm(accepts(w.frame.i));
    var v := AtDelivery(c, w, o.accepted);
    CalmStep(c, w, o.accepted);
    outcomes := [o];
    if v.frame.SavingMark? {
      CalmStep(c, v, o.accepted);
      FoldJoin(Stepper(c), w, [o], [o]);
      outcomes := [o] + [o];
    }
  }

  function Calm(accepted: bool): Outcome { GOOD.(accepted := accepted) }

  lemma CalmStep(c: Config, w: World, accepted: bool)
    ensures w.frame.Delivering? ==> Run(c, w, [Calm(accepted)]) == AtDelivery(c, w, accepted)
    ensures Saves(w.frame) ==> Run(c, w, [Calm(accepted)]) == AtSave(w, Saved)
  {
    RunOne(c, w, Calm(accepted));
    assert w.(journal := w.journal + []) == w;
  }

  /** In every run of the relay: a delivery whose saves work serves every provider that
      accepts, whichever of the others refuse, and keeps the batch exactly when one does. */
  lemma RefusalsKeepNobodyOut(c: Config, outcomes: seq<Outcome>, accepts: nat -> bool)
    requires Distinct(c.providers)
    requires var w := Run(c, START, outcomes); w.frame.Delivering? && w.frame.s.pending.Some?
    ensures var w := Run(c, START, outcomes);
            Ends(c, accepts, w, Delivery(c, accepts, w))
  {
    StartIsGood(c);
    RunKeeps(c, START, outcomes);
    DeliversToAll(c, accepts, Run(c, START, outcomes));
  }
}
