/** One order for all: when failed and successful calls do not overlap, some
    order of the calls, taken one after the other, gives both the average and
    the error cost that they leave. */
module RecorderOrder {
  import opened BreakerMath
  import opened RecorderMachine
  import opened RecorderTheorems
  import RS = RecorderSerial

  /** Calls one after the other. */
  function Folded(cfg: Config, rec: Recorder, order: seq<Key>): Recorder
    requires Sane(cfg)
  {
    if order == [] then rec else Ended(cfg, Folded(cfg, rec, order[..|order| - 1]), order[|order| - 1]).0
  }

  lemma FoldedSnoc(cfg: Config, rec: Recorder, order: seq<Key>, key: Key)
    requires Sane(cfg)
    ensures Folded(cfg, rec, order + [key]) == Ended(cfg, Folded(cfg, rec, order), key).0
  {
    hide Ended;
    assert (order + [key])[..|order|] == order;
  }

  lemma EndedSuccess(cfg: Config, rec: Recorder, latency: int)
    requires Sane(cfg) && NextLatency(cfg.smooth, rec.ema, latency) >= 0
    ensures var r := Ended(cfg, rec, Key(false, latency)).0;
            r.ema == NextLatency(cfg.smooth, rec.ema, latency) && r.cost == Decay(cfg, rec.cost)
  {
    hide NextLatency, Decay, MaxCost, Tolerated, Capped;
    CappedBounds(cfg, NextLatency(cfg.smooth, rec.ema, latency), 0);
  }

  lemma EndedFailure(cfg: Config, rec: Recorder, key: Key)
    requires Sane(cfg) && key.error
    ensures var r := Ended(cfg, rec, key).0;
            var c := Capped(cfg, rec.ema, key.latency);
            r.ema == rec.ema && r.cost == if c != 0 then rec.cost + c else Decay(cfg, rec.cost)
  {
    hide NextLatency, Decay, MaxCost, Tolerated, Capped;
  }

  function Decayed(cfg: Config, cost: int, k: nat): int {
    if k == 0 then cost else Decay(cfg, Decayed(cfg, cost, k - 1))
  }

  lemma {:induction false} DecayFirst(cfg: Config, cost: int, k: nat)
    ensures Decayed(cfg, Decay(cfg, cost), k) == Decayed(cfg, cost, k + 1)
  {
    hide Decay;
    if k > 0 {
      DecayFirst(cfg, cost, k - 1);
    }
  }

  lemma {:induction false} NothingDecays(cfg: Config, k: nat)
    ensures Decayed(cfg, 0, k) == 0
  {
    DecayOfZero(cfg);
    if k > 0 {
      NothingDecays(cfg, k - 1);
    }
  }

  // ---- Kinds of calls ----

  predicate Fails(p: Pc) {
    match p
    case Averaging(_, _) => false
    case Costing(key, _, _) => key.error
    case Forgetting(key, _, _) => key.error
    case Sampling(error, _) => error
    case Counting(error, _) => error
    case Erring => true
    case Returned(error, _) => error
  }

  /** All calls in progress are of one kind. */
  ghost predicate Uniform(procs: seq<Pc>) {
    forall i, j :: 0 <= i < |procs| && 0 <= j < |procs| && !procs[i].Returned? && !procs[j].Returned? ==>
      Fails(procs[i]) == Fails(procs[j])
  }

  /** No failed call overlaps a successful one. */
  ghost predicate Unmixed(cfg: Config, s: State, events: seq<Event>)
    requires Sane(cfg)
    decreases |events|
  {
    events == [] ||
    (&& (events[0].Call? ==>
          forall i :: 0 <= i < |s.procs| && !s.procs[i].Returned? ==> Fails(s.procs[i]) == events[0].key.error)
     && Unmixed(cfg, Step(cfg, s, events[0]), events[1..]))
  }

  /** A success that is averaged in and has still to decay the cost. */
  function Owes(p: Pc): nat {
    if (p.Costing? || p.Forgetting?) && !p.key.error then 1 else 0
  }

  function Owed(procs: seq<Pc>): nat {
    if procs == [] then 0 else Owed(procs[..|procs| - 1]) + Owes(procs[|procs| - 1])
  }

  /** A call that has no place in the order yet. */
  function Awaits(p: Pc, key: Key): nat {
    match p
    case Averaging(latency, _) => if key == Key(false, latency) then 1 else 0
    case Costing(k, _, _) => if k.error && key == k then 1 else 0
    case Forgetting(k, _, _) => if k.error && key == k then 1 else 0
    case _ => 0
  }

  function Awaiting(procs: seq<Pc>, key: Key): nat {
    if procs == [] then 0 else Awaiting(procs[..|procs| - 1], key) + Awaits(procs[|procs| - 1], key)
  }

  lemma {:induction false} OwedUpdate(procs: seq<Pc>, i: nat, p: Pc)
    requires i < |procs|
    ensures Owed(procs[i := p]) + Owes(procs[i]) == Owed(procs) + Owes(p)
  {
    hide Owes;
    var n := |procs| - 1;
    if i == n {
      assert procs[i := p][..n] == procs[..n];
    } else {
      assert procs[i := p][..n] == procs[..n][i := p];
      OwedUpdate(procs[..n], i, p);
    }
  }

  lemma {:induction false} AwaitingUpdate(procs: seq<Pc>, i: nat, p: Pc, key: Key)
    requires i < |procs|
    ensures Awaiting(procs[i := p], key) + Awaits(procs[i], key) == Awaiting(procs, key) + Awaits(p, key)
  {
    hide Awaits;
    var n := |procs| - 1;
    if i == n {
      assert procs[i := p][..n] == procs[..n];
    } else {
      assert procs[i := p][..n] == procs[..n][i := p];
      AwaitingUpdate(procs[..n], i, p, key);
    }
  }

  lemma {:induction false} NothingAwaits(procs: seq<Pc>, key: Key)
    requires forall i :: 0 <= i < |procs| ==> procs[i].Returned?
    ensures Owed(procs) == 0 && Awaiting(procs, key) == 0
  {
    if procs != [] {
      NothingAwaits(procs[..|procs| - 1], key);
    }
  }

  /** While failed calls are in progress nothing is owed. */
  lemma {:induction false} FailuresOweNothing(procs: seq<Pc>)
    requires forall i :: 0 <= i < |procs| && !procs[i].Returned? ==> Fails(procs[i])
    ensures Owed(procs) == 0
  {
    if procs != [] {
      FailuresOweNothing(procs[..|procs| - 1]);
    }
  }

  // ---- The order so far ----

  /** A failed call goes by the average that is in place. */
  ghost predicate GoesBy(cfg: Config, w: Window, p: Pc) {
    && (p.Costing? && p.key.error ==> p.ema == w.rec.ema)
    && (p.Forgetting? && p.key.error ==> Capped(cfg, w.rec.ema, Amount(p.key)) == 0)
  }

  ghost predicate Placed(s: State, before: multiset<Key>, order: seq<Key>, key: Key) {
    multiset(order)[key] + Awaiting(s.procs, key) + before[key] == s.recent[key]
  }

  ghost predicate InOrder(cfg: Config, rec: Recorder, before: multiset<Key>, s: State, order: seq<Key>)
    requires Sane(cfg)
  {
    && Uniform(s.procs)
    && (forall i :: 0 <= i < |s.procs| ==> GoesBy(cfg, s.w, s.procs[i]))
    && Folded(cfg, rec, order).ema == s.w.rec.ema
    && Folded(cfg, rec, order).cost == Decayed(cfg, s.w.rec.cost, Owed(s.procs))
    && (forall key: Key :: Placed(s, before, order, key))
  }

  /** The key that a step puts in its place. */
  function Place(cfg: Config, w: Window, p: Pc, lucky: bool): seq<Key>
    requires Sane(cfg)
  {
    match p
    case Averaging(latency, seen) => if lucky && w.rec.ema == seen then [Key(false, latency)] else []
    case Costing(key, _, ema) =>
      if key.error && (Capped(cfg, ema, Amount(key)) != 0 || w.rec.cost == 0) then [key] else []
    case Forgetting(key, _, seen) =>
      if key.error && ((lucky && w.rec.cost == seen) || w.rec.cost == 0) then [key] else []
    case _ => []
  }

  lemma ActPlaces(cfg: Config, w: Window, p: Pc, lucky: bool, key: Key)
    requires Sane(cfg)
    ensures var (v, q) := Act(cfg, w, p, lucky);
            multiset(Place(cfg, w, p, lucky))[key] + Awaits(q, key) == Awaits(p, key)
  {
    hide NextLatency, Decay, MaxCost, Capped, Tolerated;
  }

  /** A success averages, or pays what it owes. */
  lemma SuccessActs(cfg: Config, rec: Recorder, w: Window, p: Pc, lucky: bool, order: seq<Key>, owed: nat)
    requires Sane(cfg) && WindowBounded(w) && PcBounded(p) && !Fails(p) && owed >= Owes(p)
    requires Folded(cfg, rec, order).ema == w.rec.ema && Folded(cfg, rec, order).cost == Decayed(cfg, w.rec.cost, owed)
    ensures var (v, q) := Act(cfg, w, p, lucky);
            var f := Folded(cfg, rec, order + Place(cfg, w, p, lucky));
            f.ema == v.rec.ema && f.cost == Decayed(cfg, v.rec.cost, owed - Owes(p) + Owes(q))
  {
    hide Folded, Ended, NextLatency, Decay, MaxCost, Capped, Tolerated;
    assert order + [] == order;
    var f := Folded(cfg, rec, order);
    match p {
      case Averaging(latency, seen) =>
        if lucky && w.rec.ema == seen {
          NextWithin(cfg.smooth, seen, latency, 0, if seen < latency then latency else seen);
          FoldedSnoc(cfg, rec, order, Key(false, latency));
          EndedSuccess(cfg, f, latency);
        }
      case Costing(key, _, ema) =>
        CappedBounds(cfg, ema, 0);
        NothingDecays(cfg, owed);
        NothingDecays(cfg, owed - 1);
      case Forgetting(key, _, seen) =>
        NothingDecays(cfg, owed);
        NothingDecays(cfg, owed - 1);
        DecayFirst(cfg, w.rec.cost, owed - 1);
      case _ =>
    }
  }

  /** A failure acts on the cost that is in place. */
  lemma FailureActs(cfg: Config, rec: Recorder, w: Window, p: Pc, lucky: bool, order: seq<Key>)
    requires Sane(cfg) && Fails(p) && GoesBy(cfg, w, p)
    requires Folded(cfg, rec, order).ema == w.rec.ema && Folded(cfg, rec, order).cost == w.rec.cost
    ensures var (v, q) := Act(cfg, w, p, lucky);
            var f := Folded(cfg, rec, order + Place(cfg, w, p, lucky));
            && v.rec.ema == w.rec.ema && GoesBy(cfg, v, q) && Fails(q) && Owes(q) == 0
            && f.ema == v.rec.ema && f.cost == v.rec.cost
  {
    hide Folded, Ended, NextLatency, Decay, MaxCost, Capped, Tolerated;
    assert order + [] == order;
    DecayOfZero(cfg);
    if p.Costing? || p.Forgetting? {
      FoldedSnoc(cfg, rec, order, p.key);
      EndedFailure(cfg, Folded(cfg, rec, order), p.key);
    }
  }

  lemma KindStays(cfg: Config, w: Window, p: Pc, lucky: bool)
    requires Sane(cfg)
    ensures var (v, q) := Act(cfg, w, p, lucky); Fails(q) == Fails(p) && (p.Returned? ==> q == p && v == w)
  {
    hide NextLatency, Decay, MaxCost, Capped, Tolerated;
  }

  lemma SuccessGoesBy(cfg: Config, w: Window, p: Pc)
    requires !Fails(p) || p.Returned?
    ensures GoesBy(cfg, w, p)
  {
  }

  lemma {:induction false} OwesOfOwed(procs: seq<Pc>, i: nat)
    requires i < |procs|
    ensures Owed(procs) >= Owes(procs[i])
  {
    if i < |procs| - 1 {
      OwesOfOwed(procs[..|procs| - 1], i);
    }
  }

  lemma GoInOrder(cfg: Config, rec: Recorder, before: multiset<Key>, s: State, order: seq<Key>, i: nat, lucky: bool)
    requires Sane(cfg) && Bounded(s) && InOrder(cfg, rec, before, s, order) && i < |s.procs|
    ensures InOrder(cfg, rec, before, Step(cfg, s, Go(i, lucky)), order + Place(cfg, s.w, s.procs[i], lucky))
  {
    hide Act, Folded, Owes, Owed, Awaits, Awaiting, GoesBy, Fails, Place, Decayed, WindowBounded, PcBounded;
    var p := s.procs[i];
    var (w, q) := Act(cfg, s.w, p, lucky);
    var t := Step(cfg, s, Go(i, lucky));
    var more := Place(cfg, s.w, p, lucky);
    KindStays(cfg, s.w, p, lucky);
    OwedUpdate(s.procs, i, q);
    OwesOfOwed(s.procs, i);
    forall key: Key
      ensures Placed(t, before, order + more, key)
    {
      assert Placed(s, before, order, key);
      ActPlaces(cfg, s.w, p, lucky, key);
      AwaitingUpdate(s.procs, i, q, key);
    }
    UniformUpdate(s.procs, i, q);
    if p.Returned? {
      ReturnedPlaces(cfg, s.w, p, lucky);
      assert order + more == order && t.procs == s.procs;
    } else if Fails(p) {
      FailuresOweNothing(s.procs);
      DecaysNotAtAll(cfg, s.w.rec.cost);
      FailureActs(cfg, rec, s.w, p, lucky, order);
      FailuresOweNothing(t.procs);
      DecaysNotAtAll(cfg, t.w.rec.cost);
      forall j | 0 <= j < |t.procs|
        ensures GoesBy(cfg, t.w, t.procs[j])
      {
        if j != i {
          SameAverage(cfg, s.w, t.w, s.procs[j]);
        }
      }
    } else {
      SuccessActs(cfg, rec, s.w, p, lucky, order, Owed(s.procs));
      forall j | 0 <= j < |t.procs|
        ensures GoesBy(cfg, t.w, t.procs[j])
      {
        SuccessGoesBy(cfg, t.w, t.procs[j]);
      }
    }
  }

  lemma DecaysNotAtAll(cfg: Config, cost: int)
    ensures Decayed(cfg, cost, 0) == cost
  {
  }

  lemma ReturnedPlaces(cfg: Config, w: Window, p: Pc, lucky: bool)
    requires Sane(cfg) && p.Returned?
    ensures Place(cfg, w, p, lucky) == [] && Act(cfg, w, p, lucky) == (w, p)
  {
  }

  lemma SameAverage(cfg: Config, v: Window, w: Window, p: Pc)
    requires v.rec.ema == w.rec.ema && GoesBy(cfg, v, p)
    ensures GoesBy(cfg, w, p)
  {
  }

  lemma UniformUpdate(procs: seq<Pc>, i: nat, q: Pc)
    requires i < |procs| && Uniform(procs) && Fails(q) == Fails(procs[i]) && (procs[i].Returned? ==> q.Returned?)
    ensures Uniform(procs[i := q])
    ensures !procs[i].Returned? ==> forall j :: 0 <= j < |procs| && !procs[j].Returned? ==> Fails(procs[j]) == Fails(procs[i])
    ensures var next := procs[i := q];
            !procs[i].Returned? ==> forall j :: 0 <= j < |next| && !next[j].Returned? ==> Fails(next[j]) == Fails(procs[i])
  {
    hide Fails;
  }

  lemma CallInOrder(cfg: Config, rec: Recorder, before: multiset<Key>, s: State, order: seq<Key>, key: Key)
    requires Sane(cfg) && InOrder(cfg, rec, before, s, order)
    requires forall i :: 0 <= i < |s.procs| && !s.procs[i].Returned? ==> Fails(s.procs[i]) == key.error
    ensures InOrder(cfg, rec, before, Step(cfg, s, Call(key)), order)
  {
    hide Folded, Decayed;
    var t := Step(cfg, s, Call(key));
    assert t.procs[..|s.procs|] == s.procs;
    forall k: Key
      ensures Placed(t, before, order, k)
    {
      assert Placed(s, before, order, k);
    }
  }

  lemma {:induction false} RunInOrder(cfg: Config, rec: Recorder, before: multiset<Key>, s: State, order: seq<Key>,
                                     events: seq<Event>)
    returns (longer: seq<Key>)
    requires Sane(cfg) && Bounded(s) && InOrder(cfg, rec, before, s, order) && Unmixed(cfg, s, events)
    requires forall k :: 0 <= k < |events| ==> Feasible(events[k]) && !events[k].Reset?
    ensures InOrder(cfg, rec, before, Run(cfg, s, events), longer)
    decreases |events|
  {
    hide InOrder, Bounded, Step;
    if events == [] {
      longer := order;
    } else {
      StepBounded(cfg, s, events[0]);
      match events[0] {
        case Call(key) =>
          CallInOrder(cfg, rec, before, s, order, key);
          longer := RunInOrder(cfg, rec, before, Step(cfg, s, events[0]), order, events[1..]);
        case Go(i, lucky) =>
          if i < |s.procs| {
            GoInOrder(cfg, rec, before, s, order, i, lucky);
            longer := RunInOrder(cfg, rec, before, Step(cfg, s, events[0]),
                                 order + Place(cfg, s.w, s.procs[i], lucky), events[1..]);
          } else {
            NoSuch(cfg, s, i, lucky);
            longer := RunInOrder(cfg, rec, before, Step(cfg, s, events[0]), order, events[1..]);
          }
      }
    }
  }

  lemma NoSuch(cfg: Config, s: State, i: nat, lucky: bool)
    requires Sane(cfg) && i >= |s.procs|
    ensures Step(cfg, s, Go(i, lucky)) == s
  {
  }

  // ---- The theorems ----

  /** Some order of the calls made between two states in which none is in
      progress accounts for the average and the error cost. */
  ghost predicate Serves(cfg: Config, s: State, t: State, order: seq<Key>)
    requires Sane(cfg)
  {
    && multiset(order) + s.recent == t.recent
    && Folded(cfg, s.w.rec, order).ema == t.w.rec.ema
    && Folded(cfg, s.w.rec, order).cost == t.w.rec.cost
  }

  lemma StartsInOrder(cfg: Config, s: State)
    requires Sane(cfg) && AllReturned(s)
    ensures InOrder(cfg, s.w.rec, s.recent, s, [])
  {
    forall key: Key
      ensures Placed(s, s.recent, [], key)
    {
      NothingAwaits(s.procs, key);
    }
    NothingAwaits(s.procs, Key(false, 0));
  }

  lemma EndsInOrder(cfg: Config, s: State, t: State, order: seq<Key>)
    requires Sane(cfg) && AllReturned(t) && InOrder(cfg, s.w.rec, s.recent, t, order)
    ensures Serves(cfg, s, t, order)
  {
    hide Folded, Awaiting, Owed;
    NothingAwaits(t.procs, Key(false, 0));
    forall key: Key
      ensures (multiset(order) + s.recent)[key] == t.recent[key]
    {
      assert Placed(t, s.recent, order, key);
      NothingAwaits(t.procs, key);
    }
    assert multiset(order) + s.recent == t.recent;
  }

  /** From any reached state with no call in progress: calls of which no failed
      one overlaps a successful one have an order that serves both. */
  lemma UnmixedHasOrder(cfg: Config, events: seq<Event>, more: seq<Event>) returns (order: seq<Key>)
    requires Sane(cfg) && AllReturned(Reached(cfg, events)) && Unmixed(cfg, Reached(cfg, events), more)
    requires forall k :: 0 <= k < |events| ==> Feasible(events[k])
    requires forall k :: 0 <= k < |more| ==> Feasible(more[k]) && !more[k].Reset?
    requires AllReturned(Run(cfg, Reached(cfg, events), more))
    ensures Serves(cfg, Reached(cfg, events), Run(cfg, Reached(cfg, events), more), order)
  {
    hide Run, Step, InOrder, Serves, AllReturned, Unmixed, Feasible;
    var s := Reached(cfg, events);
    RunBounded(cfg, INITIAL, events);
    StartsInOrder(cfg, s);
    order := RunInOrder(cfg, s.w.rec, s.recent, s, [], more);
    EndsInOrder(cfg, s, Run(cfg, s, more), order);
  }

  /** One order serves average and cost in all runs; `mixed` says whether failed
      calls may overlap successful ones. */
  ghost predicate OrderPromise(mixed: bool) {
    forall cfg: Config, events: seq<Event> :: Sane(cfg) ==> OrderIn(cfg, events, mixed)
  }

  ghost predicate OrderIn(cfg: Config, events: seq<Event>, mixed: bool)
    requires Sane(cfg)
  {
    && AllReturned(Reached(cfg, events))
    && (forall k :: 0 <= k < |events| ==> Feasible(events[k]) && !events[k].Reset?)
    && (mixed || Unmixed(cfg, INITIAL, events))
    ==> exists order :: Serves(cfg, INITIAL, Reached(cfg, events), order)
  }

  lemma TwoOrders(order: seq<Key>, a: Key, b: Key)
    requires multiset(order) == multiset{a, b} && a != b
    ensures order == [a, b] || order == [b, a]
  {
    assert |multiset(order)| == 2;
    assert order[0] in multiset(order) && order[1] in multiset(order);
    assert order == [order[0], order[1]];
    assert multiset(order) == multiset{order[0], order[1]};
    assert multiset(order)[a] == 1 && multiset(order)[b] == 1;
  }

  lemma FoldedTwo(cfg: Config, rec: Recorder, a: Key, b: Key)
    requires Sane(cfg)
    ensures Folded(cfg, rec, [a, b]) == Ended(cfg, Ended(cfg, rec, a).0, b).0
  {
    hide Ended;
    FoldedSnoc(cfg, rec, [a], b);
    FoldedSnoc(cfg, rec, [], a);
    assert [a] + [b] == [a, b] && [] + [a] == [a];
  }

  /** One order serves both in all runs if and only if failed calls are kept from
      overlapping successful ones. */
  lemma OrderPromiseIff(mixed: bool)
    ensures OrderPromise(mixed) <==> !mixed
  {
    hide Run, Step, Ended, Folded, Unmixed;
    if mixed {
      var events := RS.NoOrderServes();
      var s := Reached(RS.EXAMPLE, events);
      forall order
        ensures !Serves(RS.EXAMPLE, INITIAL, s, order)
      {
        if Serves(RS.EXAMPLE, INITIAL, s, order) {
          TwoOrders(order, RS.FAILURE, RS.SUCCESS);
          FoldedTwo(RS.EXAMPLE, EMPTY, RS.FAILURE, RS.SUCCESS);
          FoldedTwo(RS.EXAMPLE, EMPTY, RS.SUCCESS, RS.FAILURE);
        }
      }
      assert !OrderIn(RS.EXAMPLE, events, mixed);
    } else {
      forall cfg: Config, events: seq<Event> | Sane(cfg)
        ensures OrderIn(cfg, events, mixed)
      {
        if && AllReturned(Reached(cfg, events)) && Unmixed(cfg, INITIAL, events)
           && forall k :: 0 <= k < |events| ==> Feasible(events[k]) && !events[k].Reset? {
          NoEvents(cfg);
          var order := UnmixedHasOrder(cfg, [], events);
        }
      }
    }
  }

  lemma NoEvents(cfg: Config)
    requires Sane(cfg)
    ensures Reached(cfg, []) == INITIAL && AllReturned(INITIAL)
  {
  }
}
