/**
 The concurrent cache runs the service model. Over any stretch of a protocol run
 in which no described timeline is re-seeded, each step of the protocol is one
 event of the service or none; so the service's bounds hold of the protocol.
 */
module Projection {
  import opened Wrappers
  import opened VTime
  import opened Jobs
  import opened Frontier
  import opened Cell
  import opened Protocol
  import L = Locks
  import O = Order
  import K = Ledger
  import R = Runs
  import S = Service
  import E = Epochs
  import F = Fairness
  import V = Overtaking

  /** The timeline is one the shop describes. */
  predicate Mine(shop: S.Shop, line: Timeline) {
    line.partition == shop.partition && line.tenant in shop.lines
  }

  /** One Queue writes the timeline, and every account of it stands at the described line's clock. */
  ghost predicate LineOk(s: State, shop: S.Shop, tenant: string) {
    && tenant in shop.lines
    && O.SoleWriter(s, Timeline(tenant, shop.partition))
    && forall k <- s.past.ledger :: k.line == Timeline(tenant, shop.partition) ==>
                                      s.past.ledger[k].clock == S.Vtime(shop.lines[tenant])
  }

  ghost predicate Sim(s: State, shop: S.Shop) {
    && shop.jobs == s.jobs && S.Inv(shop)
    && forall tenant {:trigger LineOk(s, shop, tenant)} :: tenant in shop.lines ==> LineOk(s, shop, tenant)
  }

  // ----- the projection -----

  /** The service event a protocol step amounts to, if any. */
  ghost function Project(s: State, shop: S.Shop, a: Action): Option<S.Event> {
    if !Enabled(s, a) then None
    else match a
         case OfThread(t, step) => if step.InsertOne? then Some(ProjectInsert(s, shop, t)) else None
         case OfStore(ev) => ProjectCall(shop, ev)
         case _ => None
  }

  ghost function ProjectInsert(s: State, shop: S.Shop, t: Tid): S.Event
    requires ThreadEnabled(s, t, InsertOne(false))
  {
    var call, v := s.threads[t].call, s.threads[t].pc.vstamp;
    var line := call.key.line;
    if Mine(shop, line) then S.Enqueue(line.tenant, call.id, call.cost, call.weight, call.visibleAt)
    else S.Outsider(call.id, NewJob(line.tenant, line.partition, call.cost, v, call.visibleAt))
  }

  function ProjectCall(shop: S.Shop, ev: StoreEvent): Option<S.Event> {
    if !ev.Claim? || ev.partition != shop.partition then Some(S.Call(ev))
    else if ev.lease <= 0 then None
    else Some(S.Dispatch(ev.now, ev.lease, ev.claimId))
  }

  ghost function Advance(s: State, shop: S.Shop, a: Action): S.Shop {
    match Project(s, shop, a)
    case Some(ev) => S.Step(shop, ev)
    case None => shop
  }

  /**
   What the bounds assume of a step: the service's conditions, no re-seed, no hidden insert and one writer on the
   described timelines.
   */
  ghost predicate Admissible(s: State, shop: S.Shop, a: Action) {
    && (Project(s, shop, a).Some? ==> S.Enabled(shop, Project(s, shop, a).value))
    && (forall k {:trigger K.Reseeds(s, a, k)} :: K.Reseeds(s, a, k) ==> !Mine(shop, k.line))
    && (a.OfThread? && a.step == InsertOne(true) && ThreadEnabled(s, a.tid, a.step) ==>
          !Mine(shop, s.threads[a.tid].call.key.line))
    && (forall tenant <- shop.lines :: O.SoleWriter(Step(s, a), Timeline(tenant, shop.partition)))
  }

  ghost predicate AdmissibleRun(s: State, shop: S.Shop, actions: seq<Action>)
    decreases |actions|
  {
    actions != [] ==>
      && Admissible(s, shop, actions[0])
      && AdmissibleRun(Step(s, actions[0]), Advance(s, shop, actions[0]), actions[1..])
  }

  /** The service run a protocol run amounts to. */
  ghost function Events(s: State, shop: S.Shop, actions: seq<Action>): seq<S.Event>
    decreases |actions|
  {
    if actions == [] then []
    else
      var rest := Events(Step(s, actions[0]), Advance(s, shop, actions[0]), actions[1..]);
      match Project(s, shop, actions[0])
      case Some(ev) => [ev] + rest
      case None => rest
  }

  // ----- the simulation -----

  /** An enqueue on a described timeline stores what the service's does. */
  lemma InsertStores(s: State, shop: S.Shop, t: Tid)
    requires R.Good(s) && Sim(s, shop) && ThreadEnabled(s, t, InsertOne(false))
    requires Mine(shop, s.threads[t].call.key.line) && S.Enabled(shop, ProjectInsert(s, shop, t))
    ensures var call, shop' := s.threads[t].call, S.Step(shop, ProjectInsert(s, shop, t));
            && shop'.jobs == DoInsert(s, t, false).jobs && shop'.lines.Keys == shop.lines.Keys
            && S.Vtime(shop'.lines[call.key.line.tenant]) == s.threads[t].pc.vstamp
            && forall other <- shop.lines :: other != call.key.line.tenant ==> shop'.lines[other] == shop.lines[other]
  {
    var call := s.threads[t].call;
    K.StampFromAccount(s, t);
    assert L.ThreadOk(s, t) && LineOk(s, shop, call.key.line.tenant);
    assert Priced(call, IdealStride(call.cost, call.weight));
    S.AppendAdvance(shop.lines[call.key.line.tenant], S.Slot(call.id, call.cost, call.weight), 0);
  }

  /** It appends its stride to its line, whose accounts are that one alone. */
  lemma InsertMine(s: State, shop: S.Shop, t: Tid, tenant: string)
    requires R.Good(s) && Sim(s, shop) && ThreadEnabled(s, t, InsertOne(false)) && tenant in shop.lines
    requires Mine(shop, s.threads[t].call.key.line) && S.Enabled(shop, ProjectInsert(s, shop, t))
    ensures LineOk(DoInsert(s, t, false), S.Step(shop, ProjectInsert(s, shop, t)), tenant)
  {
    var key := s.threads[t].call.key;
    var shop' := S.Step(shop, ProjectInsert(s, shop, t));
    InsertStores(s, shop, t);
    assert LineOk(s, shop, tenant);
    forall k | k in s.past.ledger && k.line == Timeline(tenant, shop.partition)
      ensures DoInsert(s, t, false).past.ledger[k].clock == S.Vtime(shop'.lines[tenant])
    {
      OneAccount(s, t, k);
    }
  }

  /** Under one writer, the account of an inserting enqueue's timeline is the one it stamps from. */
  lemma OneAccount(s: State, t: Tid, k: Key)
    requires R.Good(s) && ThreadEnabled(s, t, InsertOne(false)) && k in s.past.ledger && O.SoleWriter(s, k.line)
    ensures k.line == s.threads[t].call.key.line ==> k == s.threads[t].call.key
    ensures var ledger := DoInsert(s, t, false).past.ledger;
            && ledger.Keys == s.past.ledger.Keys
            && ledger[k].clock == if k == s.threads[t].call.key then s.threads[t].pc.vstamp else s.past.ledger[k].clock
  {
    K.StampFromAccount(s, t);
    assert L.ThreadOk(s, t) && K.AccountOk(s, k);
  }

  /** A step that is no insert on a described timeline leaves their accounts alone. */
  lemma AccountsStand(s: State, shop: S.Shop, a: Action)
    requires R.Good(s) && Enabled(s, a) && Admissible(s, shop, a)
    requires a.OfThread? && a.step.InsertOne? ==> !Mine(shop, s.threads[a.tid].call.key.line)
    ensures forall k: Key :: Mine(shop, k.line) ==> K.SameAccount(s, Effect(s, a), k)
  {
    forall k: Key | Mine(shop, k.line) ensures K.SameAccount(s, Effect(s, a), k) { K.AccountStands(s, a, k); }
  }

  /** The clocks of the described lines change only by an enqueue. */
  lemma VtimesStand(shop: S.Shop, ev: S.Event)
    requires !ev.Enqueue?
    ensures S.Step(shop, ev).lines.Keys == shop.lines.Keys
    ensures forall tenant <- shop.lines :: S.Vtime(S.Step(shop, ev).lines[tenant]) == S.Vtime(shop.lines[tenant])
  {
  }

  lemma LinesStand(s: State, s': State, shop: S.Shop, shop': S.Shop)
    requires Sim(s, shop) && shop'.partition == shop.partition && shop'.lines.Keys == shop.lines.Keys
    requires forall tenant <- shop.lines :: S.Vtime(shop'.lines[tenant]) == S.Vtime(shop.lines[tenant])
    requires forall k: Key :: Mine(shop, k.line) ==> K.SameAccount(s, s', k)
    requires forall tenant <- shop.lines :: O.SoleWriter(s', Timeline(tenant, shop.partition))
    ensures forall tenant <- shop'.lines :: LineOk(s', shop', tenant)
  {
    forall tenant | tenant in shop'.lines ensures LineOk(s', shop', tenant) {
      assert LineOk(s, shop, tenant);
      forall k | k in s'.past.ledger && k.line == Timeline(tenant, shop.partition)
        ensures s'.past.ledger[k].clock == S.Vtime(shop'.lines[tenant])
      {
        assert K.SameAccount(s, s', k);
      }
    }
  }

  /** The store moves as the service's does. */
  lemma JobsFollow(s: State, shop: S.Shop, a: Action)
    requires R.Good(s) && Sim(s, shop) && Enabled(s, a) && Admissible(s, shop, a)
    requires a.OfThread? && a.step.InsertOne? ==> !Mine(shop, s.threads[a.tid].call.key.line)
    ensures Advance(s, shop, a).jobs == Effect(s, a).jobs
  {
    match a
    case OfThread(t, step) => if K.Plain(step) { K.PlainSteps(s, t, step); } else { K.WritingStep(s, t, step); }
    case OfRefresh(r, refresh) => L.RefreshShape(s, r, refresh);
    case OfWalk(q, walk) => O.WalkKeepsClocks(s, q, walk);
    case OfStore(ev) => CallsFollow(s, shop, ev);
  }

  lemma CallsFollow(s: State, shop: S.Shop, ev: StoreEvent)
    requires shop.jobs == s.jobs && (ProjectCall(shop, ev).Some? ==> S.Enabled(shop, ProjectCall(shop, ev).value))
    ensures StoreEffect(s, ev).jobs ==
            if ProjectCall(shop, ev).Some? then S.Step(shop, ProjectCall(shop, ev).value).jobs else shop.jobs
  {
    EffectStores(s, ev);
    if ev.Claim? && ev.partition == shop.partition {
      if ev.lease > 0 { S.DispatchJobs(shop, ProjectCall(shop, ev).value); }
    } else {
      assert S.Step(shop, S.Call(ev)).jobs == StoreStep(shop.jobs, ev);
    }
  }

  lemma EffectStores(s: State, ev: StoreEvent)
    ensures StoreEffect(s, ev).jobs == StoreStep(s.jobs, ev)
  {
  }

  lemma StepSimulates(s: State, shop: S.Shop, a: Action)
    requires R.Good(s) && Sim(s, shop) && Admissible(s, shop, a)
    ensures Sim(Step(s, a), Advance(s, shop, a))
  {
    if Enabled(s, a) {
      if Project(s, shop, a).Some? { S.StepKeepsInv(shop, Project(s, shop, a).value); }
      if a.OfThread? && a.step.InsertOne? && Mine(shop, s.threads[a.tid].call.key.line) {
        EnqueueSimulates(s, shop, a.tid);
      } else {
        OtherSimulates(s, shop, a);
      }
    }
  }

  lemma EnqueueSimulates(s: State, shop: S.Shop, t: Tid)
    requires var a := OfThread(t, InsertOne(false));
             && R.Good(s) && Sim(s, shop) && Enabled(s, a) && Mine(shop, s.threads[t].call.key.line)
             && Admissible(s, shop, a) && S.Inv(Advance(s, shop, a))
    ensures var a := OfThread(t, InsertOne(false)); Sim(Step(s, a), Advance(s, shop, a))
  {
    var a := OfThread(t, InsertOne(false));
    var shop' := Advance(s, shop, a);
    InsertStores(s, shop, t);
    forall tenant | tenant in shop'.lines ensures LineOk(Step(s, a), shop', tenant) { InsertMine(s, shop, t, tenant); }
  }

  lemma OtherSimulates(s: State, shop: S.Shop, a: Action)
    requires R.Good(s) && Sim(s, shop) && Enabled(s, a) && Admissible(s, shop, a) && S.Inv(Advance(s, shop, a))
    requires a.OfThread? && a.step.InsertOne? ==> !Mine(shop, s.threads[a.tid].call.key.line)
    ensures Sim(Step(s, a), Advance(s, shop, a))
  {
    JobsFollow(s, shop, a);
    AdvanceKeepsVtimes(s, shop, a);
    AccountsStand(s, shop, a);
    LinesStand(s, Step(s, a), shop, Advance(s, shop, a));
  }

  lemma AdvanceKeepsVtimes(s: State, shop: S.Shop, a: Action)
    requires Enabled(s, a)
    requires a.OfThread? && a.step.InsertOne? ==> !Mine(shop, s.threads[a.tid].call.key.line)
    ensures var shop' := Advance(s, shop, a);
            && shop'.partition == shop.partition && shop'.lines.Keys == shop.lines.Keys
            && forall tenant <- shop.lines :: S.Vtime(shop'.lines[tenant]) == S.Vtime(shop.lines[tenant])
  {
    if Project(s, shop, a).Some? { VtimesStand(shop, Project(s, shop, a).value); }
  }

  lemma EventsUnfold(s: State, shop: S.Shop, actions: seq<Action>)
    requires actions != []
    ensures var s', shop' := Step(s, actions[0]), Advance(s, shop, actions[0]);
            S.Run(shop, Events(s, shop, actions)) == S.Run(shop', Events(s', shop', actions[1..]))
  {
    var rest := Events(Step(s, actions[0]), Advance(s, shop, actions[0]), actions[1..]);
    if Project(s, shop, actions[0]).Some? { assert ([Project(s, shop, actions[0]).value] + rest)[1..] == rest; }
  }

  lemma {:induction false} RunSimulates(s: State, shop: S.Shop, actions: seq<Action>)
    requires R.Good(s) && Sim(s, shop) && AdmissibleRun(s, shop, actions)
    ensures R.Good(Run(s, actions)) && Sim(Run(s, actions), S.Run(shop, Events(s, shop, actions)))
    decreases |actions|
  {
    if actions != [] {
      var a := actions[0];
      StepSimulates(s, shop, a);
      R.StepKeepsGood(s, a);
      RunSimulates(Step(s, a), Advance(s, shop, a), actions[1..]);
      EventsUnfold(s, shop, actions);
    }
  }

  /** Where a stretch may begin: timelines with one writer, seeded or not, none of whose jobs is stored. */
  lemma OpeningSimulates(s: State, partition: string, lo: int, hi: int, bases: map<string, int>)
    requires lo <= hi && forall id <- s.jobs :: s.jobs[id].partition == partition ==> s.jobs[id].tenant !in bases
    requires forall tenant <- bases :: O.SoleWriter(s, Timeline(tenant, partition))
    requires forall k <- s.past.ledger :: k.line.partition == partition && k.line.tenant in bases ==>
                                            s.past.ledger[k].clock == bases[k.line.tenant]
    ensures Sim(s, S.Shop(partition, lo, hi, s.jobs, map tenant <- bases :: S.Line(bases[tenant], [], [], 0)))
  {
    S.OpeningIsServed(partition, lo, hi, s.jobs, bases);
  }

  // ----- the bounds, for the protocol -----

  /** Two consecutive stretches of a protocol run, from a reachable state the shop describes, where i and j contend. */
  ghost predicate Contends(s: State, shop: S.Shop, before: seq<Action>, window: seq<Action>,
                           i: string, j: string, mi: int, mj: int)
  {
    && R.Reachable(s) && Sim(s, shop) && AdmissibleRun(s, shop, before)
    && var half := S.Run(shop, Events(s, shop, before));
    && AdmissibleRun(Run(s, before), half, window)
    && F.Contest(shop, Events(s, shop, before), Events(Run(s, before), half, window), i, j, mi, mj)
  }

  /**
   Weighted fairness of the concurrent cache. Over any stretch of a protocol run from which no described timeline is
   re-seeded, with whatever lookups, walks, evictions, aborts, duplicates, refreshes and completions in between, the
   strides served to two timelines differ by at most one maximal stride of each.
   */
  lemma CacheIsFair(s: State, shop: S.Shop, before: seq<Action>, window: seq<Action>,
                    i: string, j: string, mi: int, mj: int)
    requires Contends(s, shop, before, window, i, j, mi, mj)
    ensures var a := S.Run(shop, Events(s, shop, before));
            var b := S.Run(a, Events(Run(s, before), a, window));
            && Sim(Run(s, before), a) && Sim(Run(Run(s, before), window), b)
            && i in a.lines && i in b.lines && j in a.lines && j in b.lines
            && a.lines[i].served <= b.lines[i].served <= |b.lines[i].strides|
            && a.lines[j].served <= b.lines[j].served <= |b.lines[j].strides|
            && var d := F.ServedStride(b.lines[i], a.lines[i].served) - F.ServedStride(b.lines[j], a.lines[j].served);
            -(mi + mj) <= d <= mi + mj
  {
    R.ReachableIsGood(s);
    RunSimulates(s, shop, before);
    var a := S.Run(shop, Events(s, shop, before));
    RunSimulates(Run(s, before), a, window);
    F.WeightedFairness(shop, Events(s, shop, before), Events(Run(s, before), a, window), i, j, mi, mj);
  }

  /** The same in cost over weight, with less than one unit of truncation per job served. */
  lemma CacheIsFairByCost(s: State, shop: S.Shop, before: seq<Action>, window: seq<Action>,
                          i: string, j: string, mi: int, mj: int)
    requires Contends(s, shop, before, window, i, j, mi, mj)
    ensures var a := S.Run(shop, Events(s, shop, before));
            var b := S.Run(a, Events(Run(s, before), a, window));
            && Sim(Run(s, before), a) && Sim(Run(Run(s, before), window), b)
            && i in a.lines && i in b.lines && j in a.lines && j in b.lines
            && S.LineShape(b.lines[i]) && S.LineShape(b.lines[j])
            && a.lines[i].served <= b.lines[i].served <= |b.lines[i].slots|
            && a.lines[j].served <= b.lines[j].served <= |b.lines[j].slots|
            && var ni, nj := b.lines[i].served - a.lines[i].served, b.lines[j].served - a.lines[j].served;
            var di := F.ServedShare(b.lines[i], a.lines[i].served, b.lines[i].served);
            var dj := F.ServedShare(b.lines[j], a.lines[j].served, b.lines[j].served);
            -((mi + mj + ni + nj) as real) <= di - dj <= (mi + mj + ni + nj) as real
  {
    CacheIsFair(s, shop, before, window, i, j, mi, mj);
    var a := S.Run(shop, Events(s, shop, before));
    F.CostFairness(shop, Events(s, shop, before), Events(Run(s, before), a, window), i, j, mi, mj);
  }

  // ----- between two walks -----

  /** What Admissible asks of a step, short of the re-seed. */
  ghost predicate Permissible(s: State, shop: S.Shop, a: Action) {
    && (Project(s, shop, a).Some? ==> S.Enabled(shop, Project(s, shop, a).value))
    && (a.OfThread? && a.step == InsertOne(true) && ThreadEnabled(s, a.tid, a.step) ==>
          !Mine(shop, s.threads[a.tid].call.key.line))
    && (forall tenant <- shop.lines :: O.SoleWriter(Step(s, a), Timeline(tenant, shop.partition)))
  }

  /** No step of the run re-seeds by way of a walk: none of them handles a described timeline. */
  ghost predicate PermissibleRun(s: State, shop: S.Shop, actions: seq<Action>)
    decreases |actions|
  {
    actions != [] ==>
      && Permissible(s, shop, actions[0])
      && (forall k: Key {:trigger E.Handles(s, actions[0], k)} :: E.Handles(s, actions[0], k) ==> !Mine(shop, k.line))
      && PermissibleRun(Step(s, actions[0]), Advance(s, shop, actions[0]), actions[1..])
  }

  /** Each described timeline is seeded, and no walk has handled it since that seed began. */
  ghost predicate Seeded(s: State, shop: S.Shop, tenant: string) {
    exists k: Key :: k.line == Timeline(tenant, shop.partition) && E.Unhandled(s, k)
  }

  /** A timeline's only writer is the one whose account is unhandled, so no step re-seeds it. */
  lemma SeededIsAdmissible(s: State, shop: S.Shop, a: Action)
    requires R.Good(s) && Sim(s, shop) && Permissible(s, shop, a)
    requires forall tenant <- shop.lines :: Seeded(s, shop, tenant)
    ensures Admissible(s, shop, a)
  {
    forall k | K.Reseeds(s, a, k) ensures !Mine(shop, k.line) {
      E.ReseededWasHandled(s, a, k);
      if Mine(shop, k.line) {
        var own: Key :| own.line == k.line && E.Unhandled(s, own);
        OneWriterKey(s, shop, a, k, own);
      }
    }
  }

  lemma OneWriterKey(s: State, shop: S.Shop, a: Action, k: Key, own: Key)
    requires R.Good(s) && Sim(s, shop) && K.Reseeds(s, a, k) && own in s.past.ledger && own.line == k.line
             && Mine(shop, k.line)
    ensures k == own
  {
    assert LineOk(s, shop, k.line.tenant) && K.AccountOk(s, own) && L.ThreadOk(s, a.tid);
  }

  lemma SeededStands(s: State, shop: S.Shop, a: Action, tenant: string)
    requires R.Good(s) && tenant in shop.lines && Seeded(s, shop, tenant)
    requires forall k: Key {:trigger E.Handles(s, a, k)} :: E.Handles(s, a, k) ==> !Mine(shop, k.line)
    ensures Seeded(Step(s, a), shop, tenant)
  {
    var own: Key :| own.line == Timeline(tenant, shop.partition) && E.Unhandled(s, own);
    E.UnhandledStands(s, a, own);
  }

  /**
   Between walks nothing about seeds has to be assumed: a run that keeps the caller's side is admissible
   throughout.
   */
  lemma {:induction false} BetweenWalksIsAdmissible(s: State, shop: S.Shop, actions: seq<Action>)
    requires R.Good(s) && Sim(s, shop) && PermissibleRun(s, shop, actions)
    requires forall tenant <- shop.lines :: Seeded(s, shop, tenant)
    ensures AdmissibleRun(s, shop, actions)
    ensures var shop' := S.Run(shop, Events(s, shop, actions));
            forall tenant <- shop'.lines :: Seeded(Run(s, actions), shop', tenant)
    decreases |actions|
  {
    if actions != [] {
      var a, shop' := actions[0], Advance(s, shop, actions[0]);
      SeededIsAdmissible(s, shop, a);
      AdvanceKeepsLines(s, shop, a);
      forall tenant | tenant in shop'.lines ensures Seeded(Step(s, a), shop', tenant) {
        SeededStands(s, shop, a, tenant);
      }
      StepSimulates(s, shop, a);
      R.StepKeepsGood(s, a);
      BetweenWalksIsAdmissible(Step(s, a), shop', actions[1..]);
      EventsUnfold(s, shop, actions);
    }
  }

  lemma AdvanceKeepsLines(s: State, shop: S.Shop, a: Action)
    ensures Advance(s, shop, a).partition == shop.partition && Advance(s, shop, a).lines.Keys == shop.lines.Keys
  {
  }

  /**
   So the concurrent cache is fair between walks, with no assumption on what its enqueues do: two timelines seeded and
   unhandled contend over any run in which no walk handles a described timeline.
   */
  lemma FairBetweenWalks(s: State, shop: S.Shop, before: seq<Action>, window: seq<Action>,
                         i: string, j: string, mi: int, mj: int)
    requires R.Reachable(s) && Sim(s, shop) && forall tenant <- shop.lines :: Seeded(s, shop, tenant)
    requires var half := S.Run(shop, Events(s, shop, before));
             && PermissibleRun(s, shop, before) && PermissibleRun(Run(s, before), half, window)
             && F.Contest(shop, Events(s, shop, before), Events(Run(s, before), half, window), i, j, mi, mj)
    ensures var a := S.Run(shop, Events(s, shop, before));
            var b := S.Run(a, Events(Run(s, before), a, window));
            && Sim(Run(Run(s, before), window), b)
            && i in a.lines && i in b.lines && j in a.lines && j in b.lines
            && a.lines[i].served <= b.lines[i].served <= |b.lines[i].strides|
            && a.lines[j].served <= b.lines[j].served <= |b.lines[j].strides|
            && var d := F.ServedStride(b.lines[i], a.lines[i].served) - F.ServedStride(b.lines[j], a.lines[j].served);
            -(mi + mj) <= d <= mi + mj
  {
    R.ReachableIsGood(s);
    BetweenWalksIsAdmissible(s, shop, before);
    RunSimulates(s, shop, before);
    BetweenWalksIsAdmissible(Run(s, before), S.Run(shop, Events(s, shop, before)), window);
    CacheIsFair(s, shop, before, window, i, j, mi, mj);
  }

  /** The claims of a protocol run in one partition, those that find nothing included. */
  ghost function Claims(actions: seq<Action>, partition: string): nat {
    if actions == [] then 0
    else
      var a := actions[0];
      (if a.OfStore? && ProperClaim(a.event) && a.event.Claim? && a.event.partition == partition
          && a.event.lease > 0 then 1 else 0)
      + Claims(actions[1..], partition)
  }

  lemma {:induction false} ClaimsProject(s: State, shop: S.Shop, actions: seq<Action>)
    requires AdmissibleRun(s, shop, actions)
    ensures V.Claims(shop, Events(s, shop, actions)) == Claims(actions, shop.partition)
    decreases |actions|
  {
    if actions != [] {
      var a, shop' := actions[0], Advance(s, shop, actions[0]);
      ClaimsProject(Step(s, a), shop', actions[1..]);
      var rest := Events(Step(s, a), shop', actions[1..]);
      if Project(s, shop, a).Some? { assert ([Project(s, shop, a).value] + rest)[1..] == rest; }
    }
  }

  /**
   Bounded overtaking of the concurrent cache. Over any such stretch, a job J that is still waiting at its end has
   seen at most as many claims as unclaimed jobs stood ahead of it, plus for each timeline the distance its clock
   was short of J's stamp.
   */
  lemma CacheBoundsOvertaking(s: State, shop: S.Shop, actions: seq<Action>, order: seq<string>, J: JobId)
    requires R.Reachable(s) && Sim(s, shop) && AdmissibleRun(s, shop, actions)
    requires V.Closed(shop, order) && V.InsideRun(shop, Events(s, shop, actions))
    requires V.Waiting(shop, J) && J in Run(s, actions).jobs
    requires Run(s, actions).jobs[J].liveness == Pending && Run(s, actions).jobs[J].claimId == ""
    ensures Claims(actions, shop.partition) <= V.Potential(shop, order, J)
  {
    R.ReachableIsGood(s);
    RunSimulates(s, shop, actions);
    ClaimsProject(s, shop, actions);
    V.RunKeepsJob(shop, Events(s, shop, actions), J);
    V.BoundedOvertaking(shop, Events(s, shop, actions), order, J);
  }
}
