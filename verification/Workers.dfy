/**
 * Several order workers on one database. Reading the stock and writing the batch are separate steps that
 * interleave freely: the query takes no lock, and the update subtracts from the row as it is by then.
 */
module Workers {
  import opened Domain
  import opened Items
  import opened Allocation
  import opened Merge
  import opened Database
  import opened Batch
  import opened BatchProof
  import opened Existence
  import opened Stock

  /** A worker that has read `seen` and trimmed its batch to it, but has not written yet. */
  datatype WorkerState = Idle | Busy(orders: seq<CreateOrder>, seen: map<Uuid, Int32>, plan: Plan)

  datatype Shop = Shop(db: Db, workers: map<nat, WorkerState>)

  /** The batches each worker may be handed, any number of times and in any order. */
  type Work = map<nat, set<seq<CreateOrder>>>

  datatype ShopStep = Read(w: nat, orders: seq<CreateOrder>, plan: Plan) | Write(w: nat, writes: Writes) | Abort(w: nat)

  ghost predicate ReadStep(work: Work, s: Shop, w: nat, orders: seq<CreateOrder>, plan: Plan, s': Shop) {
    && w in s.workers && s.workers[w].Idle? && w in work && orders in work[w]
    && PlanStarts(s.db.products, orders, plan) && PlanFits(plan) && PlanTrims(plan)
    && s' == s.(workers := s.workers[w := Busy(orders, s.db.products, plan)])
  }

  /** The three writing statements and the commit, on the tables as they are now. */
  ghost predicate WriteStep(s: Shop, w: nat, writes: Writes, s': Shop) {
    && w in s.workers && s.workers[w].Busy?
    && TraceWrites(s.db, {}, s.workers[w].plan, writes, None, s'.db)
    && s'.workers == s.workers[w := Idle]
  }

  ghost predicate ShopNext(work: Work, s: Shop, step: ShopStep, s': Shop) {
    match step
    case Read(w, orders, plan) => ReadStep(work, s, w, orders, plan, s')
    case Write(w, writes) => WriteStep(s, w, writes, s')
    case Abort(w) => w in s.workers && s.workers[w].Busy? && s' == s.(workers := s.workers[w := Idle])
  }

  ghost predicate ShopFollows(work: Work, run: seq<Shop>, steps: seq<ShopStep>, i: int)
    requires |run| == |steps| + 1 && 0 <= i < |steps|
  {
    ShopNext(work, run[i], steps[i], run[i + 1])
  }

  ghost predicate IsShopRun(work: Work, run: seq<Shop>, steps: seq<ShopStep>) {
    && |run| == |steps| + 1
    && (forall w :: w in run[0].workers ==> run[0].workers[w].Idle?)
    && (forall i :: 0 <= i < |steps| ==> ShopFollows(work, run, steps, i))
  }

  // ----- conservation -----

  /** A busy worker holds one of its batches, trimmed to a stock level of these products. */
  ghost predicate PlanIsCurrent(work: Work, db: Db, w: nat, busy: WorkerState) {
    busy.Busy? ==>
      && w in work && busy.orders in work[w] && busy.seen.Keys == db.products.Keys
      && PlanStarts(busy.seen, busy.orders, busy.plan) && PlanTrims(busy.plan)
  }

  ghost predicate Books(work: Work, s: Shop) {
    forall w :: w in s.workers ==> PlanIsCurrent(work, s.db, w, s.workers[w])
  }

  /** The statements a worker issues have the effect of its trim, whatever was committed in between. */
  lemma WriteApplies(work: Work, s: Shop, w: nat, writes: Writes, s': Shop)
    requires Books(work, s) && WriteStep(s, w, writes, s')
    ensures w in work && s.workers[w].orders in work[w]
    ensures Applies(s.db, s.workers[w].seen, s.workers[w].orders, s'.db)
  {
    var busy := s.workers[w];
    assert PlanIsCurrent(work, s.db, w, busy);
    TracePlans(busy.seen, busy.orders, busy.plan);
    WritesCommit(s.db, busy.seen, busy.orders, busy.plan, writes, s'.db);
  }

  lemma NextKeepsBooks(work: Work, s: Shop, step: ShopStep, s': Shop)
    requires Books(work, s) && ShopNext(work, s, step, s')
    ensures Books(work, s')
  {
    forall w | w in s'.workers ensures PlanIsCurrent(work, s'.db, w, s'.workers[w]) {
      assert w in s.workers && PlanIsCurrent(work, s.db, w, s.workers[w]);
    }
  }

  /** A worker that is idle can take up a batch exactly when that overdraws no order at the stock it reads. */
  lemma ReadExactlyWhen(work: Work, s: Shop, w: nat, orders: seq<CreateOrder>)
    requires w in s.workers && s.workers[w].Idle? && w in work && orders in work[w]
    ensures (exists plan, s' :: ShopNext(work, s, Read(w, orders, plan), s')) <==> !Overdrawn(orders, s.db.products)
  {
    if plan, s' :| ShopNext(work, s, Read(w, orders, plan), s') {
      PlanIsNotOverdrawn(s.db.products, orders, plan);
    }
    if !Overdrawn(orders, s.db.products) {
      var plan := PlanExists(s.db.products, orders);
      ReadIsNext(work, s, w, orders, plan);
      assert ShopNext(work, s, Read(w, orders, plan), s.(workers := s.workers[w := Busy(orders, s.db.products, plan)]));
    }
  }

  /** A busy one can commit exactly when the tables, as they are by then, accept what it had trimmed before. */
  lemma WriteExactlyWhen(work: Work, s: Shop, w: nat)
    requires Books(work, s) && w in s.workers && s.workers[w].Busy?
    ensures (exists writes, s' :: ShopNext(work, s, Write(w, writes), s'))
      <==> AdmissibleFor(s.db, s.workers[w].seen, s.workers[w].orders)
  {
    var busy := s.workers[w];
    assert PlanIsCurrent(work, s.db, w, busy);
    TracePlans(busy.seen, busy.orders, busy.plan);
    UnrefusedIsAdmissible(s.db, busy.seen, busy.orders);
    if writes, s' :| ShopNext(work, s, Write(w, writes), s') {
      AllRunUnrefused(s.db, busy.seen, busy.orders, {}, busy.plan, writes);
    }
    if AdmissibleFor(s.db, busy.seen, busy.orders) {
      WriteCanCommit(work, s, w);
    }
  }

  lemma WriteCanCommit(work: Work, s: Shop, w: nat)
    requires w in s.workers && s.workers[w].Busy? && PlanIsCurrent(work, s.db, w, s.workers[w])
    requires AdmissibleFor(s.db, s.workers[w].seen, s.workers[w].orders)
    ensures exists writes, s' :: ShopNext(work, s, Write(w, writes), s')
  {
    var busy := s.workers[w];
    var writes, db' := PlannedBatchCommits(s.db, busy.seen, busy.orders, busy.plan);
    assert ShopNext(work, s, Write(w, writes), Shop(db', s.workers[w := Idle]));
  }

  /** And it can always give up, leaving the tables alone. */
  lemma AbortIsPossible(work: Work, s: Shop, w: nat)
    requires w in s.workers && s.workers[w].Busy?
    ensures ShopNext(work, s, Abort(w), Shop(s.db, s.workers[w := Idle]))
  {
  }

  /** No prefix total of the product overflows int32, in any batch. */
  ghost predicate AllFit(work: Work, p: Uuid) {
    forall w, orders :: w in work && orders in work[w] ==> PrefixesFit(orders, p, INT32_MAX)
  }

  ghost predicate Conserves(work: Work, initial: map<Uuid, int>, s: Shop, p: Uuid) {
    Books(work, s) && BalancedAt(initial, s.db, p)
  }

  lemma NextConserves(work: Work, initial: map<Uuid, int>, s: Shop, step: ShopStep, s': Shop, p: Uuid)
    requires AllFit(work, p) && Conserves(work, initial, s, p) && ShopNext(work, s, step, s')
    ensures Conserves(work, initial, s', p)
  {
    NextKeepsBooks(work, s, step, s');
    if step.Write? {
      WriteApplies(work, s, step.w, step.writes, s');
      FitKeepsBalance(initial, s.db, s.workers[step.w].seen, s.workers[step.w].orders, s'.db, p);
    }
  }

  /** However the workers interleave, initial stock = stock + ordered in every state of every run. */
  lemma {:induction false} InterleavingConserves(work: Work, initial: map<Uuid, int>, run: seq<Shop>,
      steps: seq<ShopStep>, i: nat, p: Uuid)
    requires IsShopRun(work, run, steps) && AllFit(work, p) && BalancedAt(initial, run[0].db, p) && i < |run|
    ensures BalancedAt(initial, run[i].db, p)
  {
    for k := 0 to i
      invariant Conserves(work, initial, run[k], p)
    {
      assert ShopFollows(work, run, steps, k);
      NextConserves(work, initial, run[k], steps[k], run[k + 1], p);
    }
  }

  // ----- stock safety, exactly -----

  /** The batch asks for the product in a quantity other than zero. */
  ghost predicate Asks(orders: seq<CreateOrder>, p: Uuid) {
    exists x :: x in Select(AllItems(orders), OfProduct(p)) && x.quantity != 0
  }

  lemma {:induction false} NothingAskedIsNothing(own: seq<OrderItem>)
    requires forall x :: x in own ==> x.quantity == 0
    ensures Sum(own) == 0
  {
    if own != [] {
      NothingAskedIsNothing(own[..|own| - 1]);
      assert own[|own| - 1] in own;
    }
  }

  ghost predicate Share(work: Work, v: nat, a: seq<CreateOrder>, w: nat, b: seq<CreateOrder>, p: Uuid) {
    v != w && v in work && a in work[v] && w in work && b in work[w] && Asks(a, p) && Asks(b, p)
  }

  /** Two workers may be handed batches that both ask for the product. */
  ghost predicate Shared(work: Work, p: Uuid) {
    exists v, a, w, b :: Share(work, v, a, w, b, p)
  }

  /** No interleaving drives the product below zero, from whatever tables in which it is not. */
  ghost predicate NeverOversells(work: Work, p: Uuid) {
    forall run: seq<Shop>, steps: seq<ShopStep>, i: nat ::
      IsShopRun(work, run, steps) && NonNegativeAt(run[0].db, p) && i < |run| ==> NonNegativeAt(run[i].db, p)
  }

  ghost predicate DifferentCarts(orders: seq<CreateOrder>) {
    WellFormed(orders) && forall i, j :: 0 <= i < j < |orders| ==> orders[i].id != orders[j].id
  }

  /** Batches as the cart service makes them: bounded, and different workers are handed different carts. */
  ghost predicate NewCarts(work: Work) {
    && (forall w, orders :: w in work && orders in work[w] ==> Bounded(orders))
    && forall v, a, w, b :: v in work && a in work[v] && w in work && b in work[w] && v != w ==>
         DifferentCarts(a + b) && DistinctItems(AllItems(a + b))
  }

  /** A busy worker that asks for the product has seen its current row. */
  ghost predicate SawCurrent(s: Shop, w: nat, p: Uuid)
    requires w in s.workers
  {
    s.workers[w].Busy? && Asks(s.workers[w].orders, p) && p in s.db.products ==>
      p in s.workers[w].seen && s.workers[w].seen[p] == s.db.products[p]
  }

  ghost predicate Safe(work: Work, s: Shop, p: Uuid) {
    Books(work, s) && NonNegativeAt(s.db, p) && forall w :: w in s.workers ==> SawCurrent(s, w, p)
  }

  /** A commit on the row it has seen keeps the row non-negative; one that does not ask for the product keeps it. */
  lemma RowAfterCommit(db: Db, seen: map<Uuid, Int32>, orders: seq<CreateOrder>, db': Db, p: Uuid)
    requires Applies(db, seen, orders, db') && p in db.products && db.products[p] >= 0
    requires Asks(orders, p) ==> p in seen && seen[p] == db.products[p]
    ensures db'.products[p] >= 0
    ensures !Asks(orders, p) ==> db'.products[p] == db.products[p]
  {
    if Asks(orders, p) {
      RowStaysNonNegative(db, seen, orders, db', p);
    } else {
      NothingAskedIsNothing(KeptOf(AllItems(orders), seen, p));
    }
  }

  lemma WriteIsSafe(work: Work, s: Shop, w: nat, writes: Writes, s': Shop, p: Uuid)
    requires Safe(work, s, p) && WriteStep(s, w, writes, s')
    ensures s'.db.products.Keys == s.db.products.Keys && NonNegativeAt(s'.db, p)
    ensures p in s.db.products && !Asks(s.workers[w].orders, p) ==> s'.db.products[p] == s.db.products[p]
  {
    var busy := s.workers[w];
    WriteApplies(work, s, w, writes, s');
    assert SawCurrent(s, w, p);
    if p in s.db.products {
      RowAfterCommit(s.db, busy.seen, busy.orders, s'.db, p);
    }
  }

  lemma NextIsSafe(work: Work, s: Shop, step: ShopStep, s': Shop, p: Uuid)
    requires !Shared(work, p) && Safe(work, s, p) && ShopNext(work, s, step, s')
    ensures Safe(work, s', p)
  {
    NextKeepsBooks(work, s, step, s');
    if step.Write? {
      WriteIsSafe(work, s, step.w, step.writes, s', p);
    }
    forall v | v in s'.workers ensures SawCurrent(s', v, p) {
      assert v in s.workers && SawCurrent(s, v, p);
      if step.Write? && v != step.w && s.workers[v].Busy? && Asks(s.workers[v].orders, p) {
        assert PlanIsCurrent(work, s.db, v, s.workers[v]) && PlanIsCurrent(work, s.db, step.w, s.workers[step.w]);
        assert !Share(work, v, s.workers[v].orders, step.w, s.workers[step.w].orders, p);
      }
    }
  }

  lemma {:induction false} UnsharedIsSafe(work: Work, run: seq<Shop>, steps: seq<ShopStep>, i: nat, p: Uuid)
    requires !Shared(work, p)
    requires IsShopRun(work, run, steps) && NonNegativeAt(run[0].db, p) && i < |run|
    ensures NonNegativeAt(run[i].db, p)
  {
    for k := 0 to i
      invariant Safe(work, run[k], p)
    {
      assert ShopFollows(work, run, steps, k);
      NextIsSafe(work, run[k], steps[k], run[k + 1], p);
    }
  }

  // ----- the run that oversells -----

  ghost predicate Reaches(work: Work, run: seq<Shop>, steps: seq<ShopStep>, s: Shop, s': Shop) {
    IsShopRun(work, run, steps) && run[0] == s && run[|steps|] == s'
  }

  lemma Extend(work: Work, run: seq<Shop>, steps: seq<ShopStep>, s: Shop, s1: Shop, step: ShopStep, s': Shop)
    returns (run': seq<Shop>, steps': seq<ShopStep>)
    requires Reaches(work, run, steps, s, s1) && ShopNext(work, s1, step, s')
    ensures Reaches(work, run', steps', s, s') && |steps'| == |steps| + 1
  {
    run', steps' := run + [s'], steps + [step];
    forall i | 0 <= i < |steps'| ensures ShopFollows(work, run', steps', i) {
      if i < |steps| {
        assert ShopFollows(work, run, steps, i);
      }
    }
  }

  /** Two batches, planned on the same stock and written one after the other. */
  ghost predicate BothCommit(db0: Db, a: seq<CreateOrder>, ta: Plan, wa: Writes, db1: Db,
      b: seq<CreateOrder>, tb: Plan, wb: Writes, db2: Db) {
    && PlanStarts(db0.products, a, ta) && PlanFits(ta) && PlanTrims(ta) && TraceWrites(db0, {}, ta, wa, None, db1)
    && PlanStarts(db0.products, b, tb) && PlanFits(tb) && PlanTrims(tb) && TraceWrites(db1, {}, tb, wb, None, db2)
  }

  ghost function AllIdle(db: Db, work: Work): Shop {
    Shop(db, map w | w in work :: Idle)
  }

  lemma ReadIsNext(work: Work, s: Shop, w: nat, orders: seq<CreateOrder>, plan: Plan)
    requires w in s.workers && s.workers[w].Idle? && w in work && orders in work[w]
    requires PlanStarts(s.db.products, orders, plan) && PlanFits(plan) && PlanTrims(plan)
    ensures ShopNext(work, s, Read(w, orders, plan), s.(workers := s.workers[w := Busy(orders, s.db.products, plan)]))
  {
  }

  lemma WriteIsNext(work: Work, s: Shop, w: nat, writes: Writes, db': Db)
    requires w in s.workers && s.workers[w].Busy? && TraceWrites(s.db, {}, s.workers[w].plan, writes, None, db')
    ensures ShopNext(work, s, Write(w, writes), Shop(db', s.workers[w := Idle]))
  {
  }

  lemma BothRead(work: Work, v: nat, w: nat, db: Db, a: seq<CreateOrder>, ta: Plan, b: seq<CreateOrder>, tb: Plan)
    returns (run: seq<Shop>, steps: seq<ShopStep>, s: Shop)
    requires v != w && v in work && a in work[v] && w in work && b in work[w]
    requires PlanStarts(db.products, a, ta) && PlanFits(ta) && PlanTrims(ta)
    requires PlanStarts(db.products, b, tb) && PlanFits(tb) && PlanTrims(tb)
    ensures Reaches(work, run, steps, AllIdle(db, work), s) && |steps| == 2
    ensures s.db == db && v in s.workers && s.workers[v] == Busy(a, db.products, ta)
    ensures w in s.workers && s.workers[w] == Busy(b, db.products, tb)
  {
    var s0 := AllIdle(db, work);
    run, steps := [s0], [];
    var s1 := s0.(workers := s0.workers[v := Busy(a, db.products, ta)]);
    ReadIsNext(work, s0, v, a, ta);
    run, steps := Extend(work, run, steps, s0, s0, Read(v, a, ta), s1);
    s := s1.(workers := s1.workers[w := Busy(b, db.products, tb)]);
    ReadIsNext(work, s1, w, b, tb);
    run, steps := Extend(work, run, steps, s0, s1, Read(w, b, tb), s);
  }

  lemma BothWrite(work: Work, run: seq<Shop>, steps: seq<ShopStep>, s0: Shop, s: Shop, v: nat, wa: Writes, db1: Db,
      w: nat, wb: Writes, db2: Db) returns (run': seq<Shop>, steps': seq<ShopStep>)
    requires Reaches(work, run, steps, s0, s) && v != w
    requires v in s.workers && s.workers[v].Busy? && TraceWrites(s.db, {}, s.workers[v].plan, wa, None, db1)
    requires w in s.workers && s.workers[w].Busy? && TraceWrites(db1, {}, s.workers[w].plan, wb, None, db2)
    ensures IsShopRun(work, run', steps') && |steps'| == |steps| + 2
    ensures run'[0] == s0 && run'[|steps'|].db == db2
  {
    var s1 := Shop(db1, s.workers[v := Idle]);
    WriteIsNext(work, s, v, wa, db1);
    run', steps' := Extend(work, run, steps, s0, s, Write(v, wa), s1);
    WriteIsNext(work, s1, w, wb, db2);
    run', steps' := Extend(work, run', steps', s0, s1, Write(w, wb), Shop(db2, s1.workers[w := Idle]));
  }

  /** Both workers read before either writes. */
  lemma ReadReadWriteWrite(work: Work, v: nat, w: nat, db0: Db, a: seq<CreateOrder>, ta: Plan, wa: Writes, db1: Db,
      b: seq<CreateOrder>, tb: Plan, wb: Writes, db2: Db) returns (run: seq<Shop>, steps: seq<ShopStep>)
    requires v != w && v in work && a in work[v] && w in work && b in work[w]
    requires BothCommit(db0, a, ta, wa, db1, b, tb, wb, db2)
    ensures IsShopRun(work, run, steps) && |run| == 5 && run[0] == AllIdle(db0, work) && run[4].db == db2
  {
    var s;
    run, steps, s := BothRead(work, v, w, db0, a, ta, b, tb);
    run, steps := BothWrite(work, run, steps, AllIdle(db0, work), s, v, wa, db1, w, wb, db2);
  }

  lemma PlannedCommitFacts(db: Db, seen: map<Uuid, Int32>, orders: seq<CreateOrder>, t: Plan, w: Writes, db': Db)
    requires seen.Keys <= db.products.Keys && WellFormed(orders)
    requires PlanStarts(seen, orders, t) && PlanTrims(t) && TraceWrites(db, {}, t, w, None, db')
    ensures Applies(db, seen, orders, db') && OrderCommits(db, orders, db')
  {
    TracePlans(seen, orders, t);
    WritesCommit(db, seen, orders, t, w, db');
    WritesCommitKeys(db, seen, orders, t, w, db');
    WellFormedCommits(db, seen, orders, db');
  }

  ghost predicate DisjointCarts(a: seq<CreateOrder>, b: seq<CreateOrder>) {
    && (forall i, j :: 0 <= i < |a| && 0 <= j < |b| ==> a[i].id != b[j].id)
    && ItemIds(AllItems(a)) !! ItemIds(AllItems(b))
  }

  /** What one commit adds does not stand in the way of other carts. */
  lemma StaysNew(db: Db, seen: map<Uuid, Int32>, a: seq<CreateOrder>, db': Db, b: seq<CreateOrder>)
    requires Applies(db, seen, a, db') && OrderCommits(db, a, db') && IsNewTo(db, b) && DisjointCarts(a, b)
    ensures IsNewTo(db', b)
  {
    CommitAppends(db, db');
    ItemIdsConcat(db.items, NewItems(db, db'));
    forall j | 0 <= j < |b| ensures b[j].id !in OrderIds(NewOrders(db, db')) {
      forall r | r in NewOrders(db, db') ensures r.id != b[j].id {
        var i :| 0 <= i < |a| && a[i].id == r.id && a[i].userId == r.userId;
      }
    }
    forall x | x in NewItems(db, db') ensures x.id !in ItemIds(AllItems(b)) {
      NewItemIsOrdered(db, seen, a, db', x);
    }
  }

  /** Two bounded batches planned on the same stock stay within the column together. */
  lemma SecondRowFits(db: Db, a: seq<CreateOrder>, db': Db, b: seq<CreateOrder>, p: Uuid)
    requires NonNegative(db.products) && Bounded(a) && Bounded(b) && Applies(db, db.products, a, db')
    requires p in db.products
    ensures INT32_MIN <= db'.products[p] - Wrap32(Sum(KeptOf(AllItems(b), db.products, p))) <= INT32_MAX
  {
    KeptTotal(a, db.products, p);
    KeptTotal(b, db.products, p);
  }

  lemma SecondIsInRange(db: Db, a: seq<CreateOrder>, db': Db, b: seq<CreateOrder>)
    requires NonNegative(db.products) && Bounded(a) && Bounded(b) && Applies(db, db.products, a, db')
    ensures InRange(db', db.products, AllItems(b))
  {
    forall p | p in db'.products
      ensures INT32_MIN <= db'.products[p] - Wrap32(Sum(KeptOf(AllItems(b), db.products, p))) <= INT32_MAX
    {
      SecondRowFits(db, a, db', b, p);
    }
  }

  lemma BothCanCommit(db0: Db, a: seq<CreateOrder>, b: seq<CreateOrder>)
    returns (ta: Plan, wa: Writes, db1: Db, tb: Plan, wb: Writes, db2: Db)
    requires NonNegative(db0.products) && IsNewTo(db0, a) && IsNewTo(db0, b) && DisjointCarts(a, b)
    requires WellFormed(a) && Bounded(a) && AllItems(a) != [] && DistinctItems(AllItems(a))
    requires WellFormed(b) && Bounded(b) && AllItems(b) != [] && DistinctItems(AllItems(b))
    ensures BothCommit(db0, a, ta, wa, db1, b, tb, wb, db2)
    ensures Applies(db0, db0.products, a, db1) && Applies(db1, db0.products, b, db2)
  {
    var seen := db0.products;
    WellFormedNeverOverdrawn(a, seen);
    WellFormedNeverOverdrawn(b, seen);
    ta := PlanExists(seen, a);
    tb := PlanExists(seen, b);
    BoundedIsInRange(db0, a);
    NewBatchIsAdmissible(db0, seen, a);
    wa, db1 := PlannedBatchCommits(db0, seen, a, ta);
    PlannedCommitFacts(db0, seen, a, ta, wa, db1);
    StaysNew(db0, seen, a, db1, b);
    SecondIsInRange(db0, a, db1, b);
    NewBatchIsAdmissible(db1, seen, b);
    wb, db2 := PlannedBatchCommits(db1, seen, b, tb);
    PlannedCommitFacts(db1, seen, b, tb, wb, db2);
  }

  /** `pieces` of product p in stock, and none of anything else the two batches ask for. */
  ghost function OnlyStock(items: seq<OrderItem>, p: Uuid, pieces: Int32): map<Uuid, Int32> {
    map q | q in ProductsOf(items) :: if q == p then pieces else 0
  }

  /** A bounded batch takes exactly what its trim kept off the current row. */
  lemma RowAfterKept(db: Db, seen: map<Uuid, Int32>, orders: seq<CreateOrder>, db': Db, p: Uuid)
    requires Applies(db, seen, orders, db') && Bounded(orders) && p in db.products && p in seen && seen[p] >= 0
    ensures db'.products[p] == db.products[p] - Sum(KeptOf(AllItems(orders), seen, p))
  {
    KeptTotal(orders, seen, p);
  }

  lemma JointCartsDiffer(a: seq<CreateOrder>, b: seq<CreateOrder>)
    requires DifferentCarts(a + b)
    ensures WellFormed(a) && WellFormed(b)
    ensures forall i, j :: 0 <= i < |a| && 0 <= j < |b| ==> a[i].id != b[j].id
  {
    var all := a + b;
    forall i | 0 <= i < |a| ensures all[i] == a[i] {}
    forall j | 0 <= j < |b| ensures all[|a| + j] == b[j] {}
  }

  lemma JointItemsDiffer(x: seq<OrderItem>, y: seq<OrderItem>)
    requires DistinctItems(x + y)
    ensures DistinctItems(x) && DistinctItems(y) && ItemIds(x) !! ItemIds(y)
  {
    forall i, j | 0 <= i < j < |x| ensures x[i].id != x[j].id {
      assert (x + y)[i] == x[i] && (x + y)[j] == x[j];
    }
    forall i, j | 0 <= i < j < |y| ensures y[i].id != y[j].id {
      assert (x + y)[|x| + i] == y[i] && (x + y)[|x| + j] == y[j];
    }
    forall i, j | 0 <= i < |x| && 0 <= j < |y| ensures x[i].id != y[j].id {
      assert (x + y)[i] == x[i] && (x + y)[|x| + j] == y[j];
    }
  }

  lemma JointIsSeparate(a: seq<CreateOrder>, b: seq<CreateOrder>)
    requires DifferentCarts(a + b) && DistinctItems(AllItems(a + b))
    ensures WellFormed(a) && WellFormed(b) && DisjointCarts(a, b)
    ensures DistinctItems(AllItems(a)) && DistinctItems(AllItems(b))
    ensures AllItems(a + b) == AllItems(a) + AllItems(b)
  {
    AllItemsConcat(a, b);
    JointCartsDiffer(a, b);
    JointItemsDiffer(AllItems(a), AllItems(b));
  }

  /** The first item that asks for a piece. */
  ghost function FirstAsking(own: seq<OrderItem>): (k: nat)
    requires exists x :: x in own && x.quantity != 0
    ensures k < |own| && own[k].quantity != 0 && forall i :: 0 <= i < k ==> own[i].quantity == 0
  {
    if own[0].quantity != 0 then 0 else
      assert own == [own[0]] + own[1..];
      1 + FirstAsking(own[1..])
  }

  ghost function FirstAsked(orders: seq<CreateOrder>, p: Uuid): Int32
    requires Asks(orders, p)
  {
    var own := Select(AllItems(orders), OfProduct(p));
    own[FirstAsking(own)].quantity
  }

  lemma AsksForSome(orders: seq<CreateOrder>, p: Uuid)
    requires Bounded(orders) && Asks(orders, p)
    ensures FirstAsked(orders, p) > 0 && AllItems(orders) != [] && p in ProductsOf(AllItems(orders))
  {
    var own := Select(AllItems(orders), OfProduct(p));
    OrderedIsListed(AllItems(orders), p);
    SelectNoneNegative(AllItems(orders), OfProduct(p));
    assert own[FirstAsking(own)] in own;
  }

  lemma FirstAskedTotal(own: seq<OrderItem>)
    requires exists x :: x in own && x.quantity != 0
    ensures var k := FirstAsking(own); Sum(own[..k + 1]) == own[k].quantity
  {
    var k := FirstAsking(own);
    NothingAskedIsNothing(own[..k]);
    assert own[..k + 1][..k] == own[..k];
  }

  /** A stock that covers the first item that asks for a piece keeps at least that one. */
  lemma FirstIsKept(orders: seq<CreateOrder>, stock: map<Uuid, Int32>, p: Uuid)
    requires Bounded(orders) && Asks(orders, p) && p in stock && 0 <= FirstAsked(orders, p) <= stock[p]
    ensures Sum(KeptOf(AllItems(orders), stock, p)) >= FirstAsked(orders, p)
  {
    var own := Select(AllItems(orders), OfProduct(p));
    var k := FirstAsking(own);
    SelectNoneNegative(AllItems(orders), OfProduct(p));
    assert Sum(own) <= 0x8000_0000;
    FirstAskedTotal(own);
    FitsIsExact(own[..k + 1], stock[p]);
    assert KeepCount(own, stock[p]) >= k + 1;
    SumMonotone(own, k + 1, KeepCount(own, stock[p]));
  }

  /** The shop before: what both batches ask for is known, and there is enough of p for either. */
  ghost function ShopWith(a: seq<CreateOrder>, b: seq<CreateOrder>, p: Uuid, pieces: Int32): Db {
    EmptyShop(a + b, OnlyStock(AllItems(a + b), p, pieces))
  }

  lemma BothAreNew(a: seq<CreateOrder>, b: seq<CreateOrder>, p: Uuid, pieces: Int32)
    requires AllItems(a + b) == AllItems(a) + AllItems(b) && pieces >= 0
    ensures var db := ShopWith(a, b, p, pieces); IsNewTo(db, a) && IsNewTo(db, b) && NonNegative(db.products)
  {
    EmptyShopIsNew(a + b, OnlyStock(AllItems(a + b), p, pieces), a);
    EmptyShopIsNew(a + b, OnlyStock(AllItems(a + b), p, pieces), b);
  }

  /** Two workers that share a product both sell what they were shown. */
  lemma BothSell(work: Work, v: nat, a: seq<CreateOrder>, w: nat, b: seq<CreateOrder>, p: Uuid, pieces: Int32)
    returns (run: seq<Shop>, steps: seq<ShopStep>)
    requires Share(work, v, a, w, b, p) && Bounded(a) && Bounded(b) && pieces >= 0
    requires DifferentCarts(a + b) && DistinctItems(AllItems(a + b))
    ensures IsShopRun(work, run, steps) && |run| == 5 && run[0] == AllIdle(ShopWith(a, b, p, pieces), work)
    ensures p in run[0].db.products && run[0].db.products[p] == pieces && p in run[4].db.products
    ensures run[4].db.products[p] == pieces
      - Sum(KeptOf(AllItems(a), run[0].db.products, p)) - Sum(KeptOf(AllItems(b), run[0].db.products, p))
  {
    JointIsSeparate(a, b);
    AsksForSome(a, p);
    AsksForSome(b, p);
    BothAreNew(a, b, p, pieces);
    var db0 := ShopWith(a, b, p, pieces);
    var ta, wa, db1, tb, wb, db2 := BothCanCommit(db0, a, b);
    RowAfterKept(db0, db0.products, a, db1, p);
    RowAfterKept(db1, db0.products, b, db2, p);
    run, steps := ReadReadWriteWrite(work, v, w, db0, a, ta, wa, db1, b, tb, wb, db2);
  }

  /** With as many pieces in stock as the bigger of the two first items asks for, the row ends below zero. */
  lemma SharedOversells(work: Work, v: nat, a: seq<CreateOrder>, w: nat, b: seq<CreateOrder>, p: Uuid)
    returns (run: seq<Shop>, steps: seq<ShopStep>)
    requires Share(work, v, a, w, b, p) && Bounded(a) && Bounded(b)
    requires DifferentCarts(a + b) && DistinctItems(AllItems(a + b))
    ensures IsShopRun(work, run, steps) && |run| == 5 && NonNegativeAt(run[0].db, p) && !NonNegativeAt(run[4].db, p)
  {
    var m, n := FirstAsked(a, p), FirstAsked(b, p);
    AsksForSome(a, p);
    AsksForSome(b, p);
    run, steps := BothSell(work, v, a, w, b, p, if m < n then n else m);
    FirstIsKept(a, run[0].db.products, p);
    FirstIsKept(b, run[0].db.products, p);
  }

  /**
   * Stock safety of several workers: if no two workers may be handed batches that both ask for the product, no
   * interleaving of any batches whatever drives it below zero; with bounded batches of different carts only then.
   */
  lemma NeverOversellsExactlyWhen(work: Work, p: Uuid)
    ensures !Shared(work, p) ==> NeverOversells(work, p)
    ensures NewCarts(work) ==> (NeverOversells(work, p) <==> !Shared(work, p))
  {
    if !Shared(work, p) {
      forall run: seq<Shop>, steps: seq<ShopStep>, i: nat
        | IsShopRun(work, run, steps) && NonNegativeAt(run[0].db, p) && i < |run|
        ensures NonNegativeAt(run[i].db, p)
      {
        UnsharedIsSafe(work, run, steps, i, p);
      }
    } else if NewCarts(work) {
      var v, a, w, b :| Share(work, v, a, w, b, p);
      var run, steps := SharedOversells(work, v, a, w, b, p);
      assert !NonNegativeAt(run[4].db, p) && IsShopRun(work, run, steps);
    }
  }

  lemma OnePieceTotal(x: OrderItem, p: Uuid)
    requires x.quantity == 1
    ensures Sum(Select([x], OfProduct(p))) == if p == x.productId then 1 else 0
    ensures Select([x], OfProduct(x.productId)) == [x]
  {
    SelectAll([x], OfProduct(x.productId));
    SumHead([x]);
    if p != x.productId {
      SelectNone([x], OfProduct(p));
    }
  }

  ghost predicate IsOnePiece(orders: seq<CreateOrder>, x: OrderItem) {
    |orders| == 1 && orders[0].orderItems == [x] && x.orderId == orders[0].id && x.quantity == 1
  }

  lemma OnePieceBatch(orders: seq<CreateOrder>, x: OrderItem)
    requires IsOnePiece(orders, x)
    ensures AllItems(orders) == [x] && Bounded(orders) && Asks(orders, x.productId)
    ensures Sum(Select(AllItems(orders), OfProduct(x.productId))) == 1
  {
    OneOrderBatch(orders);
    forall p ensures Sum(Select(AllItems(orders), OfProduct(p))) == if p == x.productId then 1 else 0 {
      OnePieceTotal(x, p);
    }
    OnePieceTotal(x, x.productId);
  }

  /** The smallest case: one piece left, two workers with an order for it each, and a stock of minus one. */
  lemma TwoWorkersOversell(work: Work, a: seq<CreateOrder>, x: OrderItem, b: seq<CreateOrder>, y: OrderItem)
    returns (run: seq<Shop>, steps: seq<ShopStep>)
    requires 0 in work && a in work[0] && IsOnePiece(a, x)
    requires 1 in work && b in work[1] && IsOnePiece(b, y)
    requires x.productId == y.productId && DifferentCarts(a + b) && DistinctItems(AllItems(a + b))
    ensures IsShopRun(work, run, steps) && |run| == 5
    ensures x.productId in run[0].db.products && run[0].db.products[x.productId] == 1
    ensures x.productId in run[4].db.products && run[4].db.products[x.productId] == -1
  {
    OnePieceBatch(a, x);
    OnePieceBatch(b, y);
    run, steps := BothSell(work, 0, a, 1, b, x.productId, 1);
    EnoughKeepsAll(a, run[0].db.products, x.productId);
    EnoughKeepsAll(b, run[0].db.products, x.productId);
  }
}
