/**
 * Two status updates of one master order, interleaved statement by statement. Elsewhere a transaction is one step;
 * here the recomputation is taken apart under READ COMMITTED, where a statement sees what was committed before it
 * started, and a conditional update waits for the row lock and then looks at the row again.
 */
module OverlappingUpdates {
  import opened Common
  import opened MasterOrderStatus
  import opened Store
  import opened VendorOrders
  import Checkout
  import Shop = ShopRuns

  // ------------------------------------------------------------------------------------------
  // The statements of the two transactions

  datatype Move = Move(from: VendorStatus, to: VendorStatus)

  predicate IsMove(m: Move) {
    m.to in AllowedTargets(m.from)
  }

  /** What the transaction does next. Its own child is already updated, which nobody else sees before the commit. */
  datatype Phase =
    | ReadSiblings
    | ReadMaster(derived: OrderStatus)
    | WriteMaster(derived: OrderStatus, seen: OrderStatus)
    | Commit(wrote: Option<OrderStatus>)   // holds the master row's lock if it wrote
    | Committed
    | Thrown

  datatype Transaction = Transaction(move: Move, phase: Phase, round: nat)

  /** The committed master status, the other children, and the two transactions. */
  datatype Scene = Scene(rest: seq<VendorStatus>, master: OrderStatus, first: Transaction, second: Transaction)

  /** The status of a transaction's child as the other transaction sees it. */
  function Visible(t: Transaction): VendorStatus {
    if t.phase.Committed? then t.move.to else t.move.from
  }

  predicate HoldsMaster(t: Transaction) {
    t.phase.Commit? && t.phase.wrote.Some?
  }

  /** One statement of `me`, to which the children look like `siblings` and the committed master status is `master`. */
  function Advance(siblings: seq<VendorStatus>, master: OrderStatus, me: Transaction, other: Transaction)
    : (OrderStatus, Transaction)
  {
    match me.phase
    case ReadSiblings =>
      if me.round >= MASTER_ORDER_RECOMPUTE_MAX_ATTEMPTS then (master, me.(phase := Thrown))
      else (master, me.(phase := ReadMaster(DeriveMasterOrderStatus(siblings))))
    case ReadMaster(derived) =>
      (master, me.(phase := if master == derived then Commit(None) else WriteMaster(derived, master)))
    case WriteMaster(derived, seen) =>
      if HoldsMaster(other) then (master, me)
      else if master == seen then (master, me.(phase := Commit(Some(derived))))
      else (master, me.(phase := ReadSiblings, round := me.round + 1))
    case Commit(wrote) => (if wrote.Some? then wrote.value else master, me.(phase := Committed))
    case Committed => (master, me)
    case Thrown => (master, me)
  }

  datatype Turn = First | Second

  function Step(s: Scene, turn: Turn): Scene {
    match turn
    case First =>
      var (master, t) := Advance(s.rest + [s.first.move.to, Visible(s.second)], s.master, s.first, s.second);
      s.(master := master, first := t)
    case Second =>
      var (master, t) := Advance(s.rest + [Visible(s.first), s.second.move.to], s.master, s.second, s.first);
      s.(master := master, second := t)
  }

  function Run(s: Scene, turns: seq<Turn>): Scene
    decreases |turns|
  {
    if turns == [] then s else Run(Step(s, turns[0]), turns[1..])
  }

  /** Both transactions have updated their children and nothing else. */
  function Begin(rest: seq<VendorStatus>, master: OrderStatus, m: Move, n: Move): Scene {
    Scene(rest, master, Transaction(m, ReadSiblings, 0), Transaction(n, ReadSiblings, 0))
  }

  function Start(rest: seq<VendorStatus>, m: Move, n: Move): Scene {
    Begin(rest, Before(rest, m, n), m, n)
  }

  predicate Finished(s: Scene) {
    s.first.phase.Committed? && s.second.phase.Committed?
  }

  // The derived status with neither, only the first, only the second, and both moves.

  function Before(rest: seq<VendorStatus>, m: Move, n: Move): OrderStatus {
    DeriveMasterOrderStatus(rest + [m.from, n.from])
  }

  function OnlyFirst(rest: seq<VendorStatus>, m: Move, n: Move): OrderStatus {
    DeriveMasterOrderStatus(rest + [m.to, n.from])
  }

  function OnlySecond(rest: seq<VendorStatus>, m: Move, n: Move): OrderStatus {
    DeriveMasterOrderStatus(rest + [m.from, n.to])
  }

  function Both(rest: seq<VendorStatus>, m: Move, n: Move): OrderStatus {
    DeriveMasterOrderStatus(rest + [m.to, n.to])
  }

  // ------------------------------------------------------------------------------------------
  // What every interleaving keeps

  /**
   * A transaction that alone derives `mine`, beside one that alone derives `theirs` (`both` with both, `before` with
   * neither). Until the other commits it works on `mine` and `before`; a second round needs that commit.
   */
  predicate TransactionOk(me: Transaction, otherDone: bool, master: OrderStatus, before: OrderStatus,
                          mine: OrderStatus, both: OrderStatus)
  {
    && me.round <= 1
    && match me.phase
       case ReadSiblings => me.round == 0 || otherDone
       case ReadMaster(x) => (x == mine && me.round == 0) || (x == both && otherDone)
       case WriteMaster(x, seen) =>
         && x != seen
         && ((x == mine && me.round == 0 && (otherDone || seen == before))
             || (x == both && otherDone && seen == master))
       case Commit(None) => otherDone || mine == before
       case Commit(Some(x)) => x == mine || (x == both && otherDone)
       case Committed => true
       case Thrown => false
  }

  predicate SceneOk(s: Scene, rest: seq<VendorStatus>, m: Move, n: Move) {
    var a, d1, d2, d := Before(rest, m, n), OnlyFirst(rest, m, n), OnlySecond(rest, m, n), Both(rest, m, n);
    && s.rest == rest && s.first.move == m && s.second.move == n
    && TransactionOk(s.first, s.second.phase.Committed?, s.master, a, d1, d)
    && TransactionOk(s.second, s.first.phase.Committed?, s.master, a, d2, d)
    && (match (s.first.phase.Committed?, s.second.phase.Committed?)
        case (false, false) => s.master == a
        case (true, false) => s.master == d1
        case (false, true) => s.master == d2
        case (true, true) => s.master in {d1, d2, d})
  }

  lemma StepKeepsScene(s: Scene, turn: Turn, rest: seq<VendorStatus>, m: Move, n: Move)
    requires SceneOk(s, rest, m, n)
    ensures SceneOk(Step(s, turn), rest, m, n)
  {
    hide DeriveMasterOrderStatus;
  }

  lemma {:induction false} RunKeepsScene(s: Scene, turns: seq<Turn>, rest: seq<VendorStatus>, m: Move, n: Move)
    requires SceneOk(s, rest, m, n)
    ensures SceneOk(Run(s, turns), rest, m, n)
    decreases |turns|
  {
    hide SceneOk, Step;
    if turns != [] {
      StepKeepsScene(s, turns[0], rest, m, n);
      RunKeepsScene(Step(s, turns[0]), turns[1..], rest, m, n);
    }
  }

  /**
   * However the statements interleave, neither transaction needs a third round, so the final throw is not reached;
   * and the master ends with what one of the transactions alone, or both together, derive.
   */
  lemma TwoRoundsSuffice(rest: seq<VendorStatus>, m: Move, n: Move, turns: seq<Turn>)
    ensures var s := Run(Start(rest, m, n), turns);
            && s.first.round <= 1 && !s.first.phase.Thrown?
            && s.second.round <= 1 && !s.second.phase.Thrown?
            && (Finished(s) ==> s.master in {OnlyFirst(rest, m, n), OnlySecond(rest, m, n), Both(rest, m, n)})
  {
    hide DeriveMasterOrderStatus;
    RunKeepsScene(Start(rest, m, n), turns, rest, m, n);
  }

  // ------------------------------------------------------------------------------------------
  // When the master ends right whatever the interleaving

  /** The move changes what its siblings derive: it is the last thing the master status was waiting for. */
  predicate Decisive(siblings: seq<VendorStatus>, m: Move) {
    if Delivered in siblings then !SomeOutstanding(siblings) && !SomeOutstanding([m.to])
    else if m.from == Pending then Pending !in siblings
    else if m.from == Confirmed then Pending !in siblings && Confirmed !in siblings
    else m.to == Delivered
  }

  lemma DecisiveIff(siblings: seq<VendorStatus>, m: Move)
    requires IsMove(m)
    ensures Decisive(siblings, m) <==>
              DeriveMasterOrderStatus(siblings + [m.from]) != DeriveMasterOrderStatus(siblings + [m.to])
  {
    DerivedStatusMeaning(siblings + [m.from]);
    DerivedStatusMeaning(siblings + [m.to]);
    hide DeriveMasterOrderStatus;
  }

  lemma LastTwoSwapped(rest: seq<VendorStatus>, x: VendorStatus, y: VendorStatus)
    ensures DeriveMasterOrderStatus(rest + [x] + [y]) == DeriveMasterOrderStatus(rest + [x, y])
    ensures DeriveMasterOrderStatus(rest + [y] + [x]) == DeriveMasterOrderStatus(rest + [x, y])
  {
    DependsOnOccurrencesOnly(rest + [x] + [y], rest + [x, y]);
    DependsOnOccurrencesOnly(rest + [y] + [x], rest + [x, y]);
  }

  /** A move beside the other's outcome is decisive exactly when the other alone derives something else than both. */
  lemma DecisiveBesideTheOther(rest: seq<VendorStatus>, m: Move, n: Move)
    requires IsMove(m) && IsMove(n)
    ensures Decisive(rest + [m.to], n) <==> OnlyFirst(rest, m, n) != Both(rest, m, n)
    ensures Decisive(rest + [n.to], m) <==> OnlySecond(rest, m, n) != Both(rest, m, n)
  {
    hide Decisive, DeriveMasterOrderStatus;
    DecisiveIff(rest + [m.to], n);
    DecisiveIff(rest + [n.to], m);
    LastTwoSwapped(rest, m.to, n.from);
    LastTwoSwapped(rest, m.to, n.to);
    LastTwoSwapped(rest, m.from, n.to);
  }

  lemma RunCons(s: Scene, turn: Turn, turns: seq<Turn>)
    ensures Run(s, [turn] + turns) == Run(Step(s, turn), turns)
  {
    assert ([turn] + turns)[1..] == turns;
  }

  lemma {:induction false} RunSnoc(s: Scene, turns: seq<Turn>, turn: Turn)
    ensures Run(s, turns + [turn]) == Step(Run(s, turns), turn)
    decreases |turns|
  {
    hide Step;
    if turns == [] {
      assert [] + [turn] == [turn] + [];
      RunCons(s, turn, []);
    } else {
      assert (turns + [turn])[1..] == turns[1..] + [turn];
      RunSnoc(Step(s, turns[0]), turns[1..], turn);
    }
  }

  /** The second reads its siblings too early and the master row late: the first runs in between. */
  const LATE_WRITER: seq<Turn> := [Second, First, First, First, First, Second, Second]

  /** The late writer then puts what it alone derives over what the first alone derived. */
  lemma LateWriterWins(rest: seq<VendorStatus>, m: Move, n: Move)
    ensures var s := Run(Start(rest, m, n), LATE_WRITER);
            && s.master == OnlyFirst(rest, m, n)
            && Finished(Step(s, Second)) && Step(s, Second).master == OnlySecond(rest, m, n)
            && s.first.phase.Committed?
  {
    hide DeriveMasterOrderStatus;
    var s := Start(rest, m, n);
    RunCons(s, Second, [First, First, First, First, Second, Second]);
    s := Step(s, Second);
    RunFour(s, First, [Second, Second]);
    s := Step(Step(Step(Step(s, First), First), First), First);
    RunCons(s, Second, [Second]);
    RunCons(Step(s, Second), Second, []);
    assert [Second] + [] == [Second];
  }

  lemma RunFour(s: Scene, turn: Turn, turns: seq<Turn>)
    ensures Run(s, [turn, turn, turn, turn] + turns) == Run(Step(Step(Step(Step(s, turn), turn), turn), turn), turns)
  {
    hide Step, Run;
    assert [turn, turn, turn, turn] + turns == [turn] + ([turn] + ([turn] + ([turn] + turns)));
    RunCons(s, turn, [turn] + ([turn] + ([turn] + turns)));
    RunCons(Step(s, turn), turn, [turn] + ([turn] + turns));
    RunCons(Step(Step(s, turn), turn), turn, [turn] + turns);
    RunCons(Step(Step(Step(s, turn), turn), turn), turn, turns);
  }

  // Nothing distinguishes the two transactions.

  function OtherTurn(turn: Turn): Turn {
    if turn == First then Second else First
  }

  function OtherTurns(turns: seq<Turn>): (r: seq<Turn>)
    ensures |r| == |turns|
  {
    if turns == [] then [] else [OtherTurn(turns[0])] + OtherTurns(turns[1..])
  }

  function Mirrored(s: Scene): Scene {
    s.(first := s.second, second := s.first)
  }

  lemma StepMirrored(s: Scene, turn: Turn)
    ensures Step(Mirrored(s), OtherTurn(turn)) == Mirrored(Step(s, turn))
  {
    hide DeriveMasterOrderStatus;
    var x, y := if turn == First then s.first.move.to else Visible(s.first),
                if turn == First then Visible(s.second) else s.second.move.to;
    DependsOnOccurrencesOnly(s.rest + [x, y], s.rest + [y, x]);
  }

  lemma {:induction false} RunMirrored(s: Scene, turns: seq<Turn>)
    ensures Run(Mirrored(s), OtherTurns(turns)) == Mirrored(Run(s, turns))
    decreases |turns|
  {
    hide Step, Mirrored;
    if turns != [] {
      StepMirrored(s, turns[0]);
      RunMirrored(Step(s, turns[0]), turns[1..]);
      RunCons(Mirrored(s), OtherTurn(turns[0]), OtherTurns(turns[1..]));
    }
  }

  lemma StartMirrored(rest: seq<VendorStatus>, m: Move, n: Move)
    ensures Start(rest, n, m) == Mirrored(Start(rest, m, n)) && OnlySecond(rest, n, m) == OnlyFirst(rest, m, n)
  {
    hide DeriveMasterOrderStatus;
    DependsOnOccurrencesOnly(rest + [m.from, n.from], rest + [n.from, m.from]);
    DependsOnOccurrencesOnly(rest + [m.to, n.from], rest + [n.from, m.to]);
  }

  lemma LateWriterWinsMirrored(rest: seq<VendorStatus>, m: Move, n: Move)
    ensures var s := Run(Start(rest, m, n), OtherTurns(LATE_WRITER));
            && s.master == OnlySecond(rest, m, n)
            && Finished(Step(s, First)) && Step(s, First).master == OnlyFirst(rest, m, n)
  {
    hide DeriveMasterOrderStatus, OnlyFirst, OnlySecond, Step;
    LateWriterWins(rest, n, m);
    StartMirrored(rest, m, n);
    StartMirrored(rest, n, m);
    RunMirrored(Start(rest, n, m), LATE_WRITER);
    StepMirrored(Run(Start(rest, n, m), LATE_WRITER), Second);
  }

  /** Every interleaving in which both transactions commit ends with this master status. */
  ghost predicate AlwaysEndsAt(s: Scene, status: OrderStatus) {
    forall turns :: Finished(Run(s, turns)) ==> Run(s, turns).master == status
  }

  /** Exactly when overlapping updates are safe: neither move is decisive beside the outcome of the other. */
  lemma AlwaysEndsRightIff(rest: seq<VendorStatus>, m: Move, n: Move)
    requires IsMove(m) && IsMove(n)
    ensures AlwaysEndsAt(Start(rest, m, n), Both(rest, m, n)) <==>
              !Decisive(rest + [m.to], n) && !Decisive(rest + [n.to], m)
  {
    hide DeriveMasterOrderStatus, Decisive, Run, Step, Start, OnlyFirst, OnlySecond, Both;
    DecisiveBesideTheOther(rest, m, n);
    LateWriterWins(rest, m, n);
    RunSnoc(Start(rest, m, n), LATE_WRITER, Second);
    LateWriterWinsMirrored(rest, m, n);
    RunSnoc(Start(rest, m, n), OtherTurns(LATE_WRITER), First);
    forall turns | Finished(Run(Start(rest, m, n), turns))
      ensures Run(Start(rest, m, n), turns).master in {OnlyFirst(rest, m, n), OnlySecond(rest, m, n), Both(rest, m, n)}
    {
      TwoRoundsSuffice(rest, m, n, turns);
    }
  }

  /** In every interleaving each change of the master status moves it up. */
  ghost predicate AlwaysMovesUp(rest: seq<VendorStatus>, m: Move, n: Move) {
    forall turns, turn ::
      var s := Run(Start(rest, m, n), turns);
      Step(s, turn).master == s.master || MovesUp(s.master, Step(s, turn).master)
  }

  lemma MovesMoveUp(rest: seq<VendorStatus>, m: Move, n: Move)
    requires IsMove(m) && IsMove(n)
    ensures var a, d1, d2, d := Before(rest, m, n), OnlyFirst(rest, m, n), OnlySecond(rest, m, n), Both(rest, m, n);
            && (a == d1 || MovesUp(a, d1)) && (a == d2 || MovesUp(a, d2))
            && (d1 == d || MovesUp(d1, d)) && (d2 == d || MovesUp(d2, d))
  {
    hide DeriveMasterOrderStatus, MovesUp, AllowedTargets;
    ChildStepMovesUp(rest + [m.from, n.from], m.from, m.to, rest + [m.to, n.from]);
    ChildStepMovesUp(rest + [m.from, n.from], n.from, n.to, rest + [m.from, n.to]);
    ChildStepMovesUp(rest + [m.to, n.from], n.from, n.to, rest + [m.to, n.to]);
    ChildStepMovesUp(rest + [m.from, n.to], m.from, m.to, rest + [m.to, n.to]);
  }

  /** A step changes the master from what was derived before to a transaction's own status, or from there on. */
  lemma MasterChanges(s: Scene, turn: Turn, rest: seq<VendorStatus>, m: Move, n: Move)
    requires SceneOk(s, rest, m, n) && Step(s, turn).master != s.master
    ensures var a, d1, d2, d := Before(rest, m, n), OnlyFirst(rest, m, n), OnlySecond(rest, m, n), Both(rest, m, n);
            (s.master, Step(s, turn).master) in {(a, d1), (a, d2), (d1, d), (d2, d), (d1, d2), (d2, d1)}
  {
    hide DeriveMasterOrderStatus;
  }

  /** Exactly when the master status never moves down or sideways: both moves, each alone, derive the same. */
  lemma AlwaysMovesUpIff(rest: seq<VendorStatus>, m: Move, n: Move)
    requires IsMove(m) && IsMove(n)
    ensures AlwaysMovesUp(rest, m, n) <==> OnlyFirst(rest, m, n) == OnlySecond(rest, m, n)
  {
    hide DeriveMasterOrderStatus, Run, Step, Start, Before, OnlyFirst, OnlySecond, Both;
    LateWriterWins(rest, m, n);
    LateWriterWinsMirrored(rest, m, n);
    MovesMoveUp(rest, m, n);
    if OnlyFirst(rest, m, n) == OnlySecond(rest, m, n) {
      forall turns, turn
        ensures var s := Run(Start(rest, m, n), turns);
                Step(s, turn).master == s.master || MovesUp(s.master, Step(s, turn).master)
      {
        var s := Run(Start(rest, m, n), turns);
        StartIsOk(rest, m, n);
        RunKeepsScene(Start(rest, m, n), turns, rest, m, n);
        if Step(s, turn).master != s.master {
          MasterChanges(s, turn, rest, m, n);
        }
      }
    }
  }

  lemma StartIsOk(rest: seq<VendorStatus>, m: Move, n: Move)
    ensures SceneOk(Start(rest, m, n), rest, m, n)
  {
    hide DeriveMasterOrderStatus;
  }

  // ------------------------------------------------------------------------------------------
  // Neither sees anything of the other

  /** Both transactions have read siblings and master before either commits. */
  function Blind(rest: seq<VendorStatus>, m: Move, n: Move): Scene {
    Scene(rest, Before(rest, m, n),
          Transaction(m, AfterReading(OnlyFirst(rest, m, n), Before(rest, m, n)), 0),
          Transaction(n, AfterReading(OnlySecond(rest, m, n), Before(rest, m, n)), 0))
  }

  function AfterReading(derived: OrderStatus, master: OrderStatus): Phase {
    if master == derived then Commit(None) else WriteMaster(derived, master)
  }

  /**
   * If one of them finds nothing to write, the other has the last word with what it alone derives. If both want to
   * write, the row lock makes the second one fail its condition, and its retry sees both moves.
   */
  function BlindEnd(rest: seq<VendorStatus>, m: Move, n: Move): OrderStatus {
    if OnlyFirst(rest, m, n) == Before(rest, m, n) then OnlySecond(rest, m, n)
    else if OnlySecond(rest, m, n) == Before(rest, m, n) then OnlyFirst(rest, m, n)
    else Both(rest, m, n)
  }

  predicate BlindTransactionOk(me: Transaction, otherDone: bool, master: OrderStatus, before: OrderStatus,
                               mine: OrderStatus, theirs: OrderStatus, both: OrderStatus)
  {
    match me.phase
    case ReadSiblings => otherDone && me.round == 1 && mine != before && theirs != before
    case ReadMaster(x) => otherDone && mine != before && theirs != before && x == both
    case WriteMaster(x, seen) =>
      && mine != before && x != seen
      && ((x == mine && seen == before && me.round == 0)
          || (x == both && seen == master && otherDone && theirs != before))
    case Commit(None) => mine == before || (otherDone && theirs != before && master == both)
    case Commit(Some(x)) =>
      && mine != before
      && ((x == mine && (otherDone ==> theirs == before)) || (x == both && otherDone && theirs != before))
    case Committed => true
    case Thrown => false
  }

  predicate BlindSceneOk(s: Scene, rest: seq<VendorStatus>, m: Move, n: Move) {
    var a, d1, d2, d := Before(rest, m, n), OnlyFirst(rest, m, n), OnlySecond(rest, m, n), Both(rest, m, n);
    && s.rest == rest && s.first.move == m && s.second.move == n
    && BlindTransactionOk(s.first, s.second.phase.Committed?, s.master, a, d1, d2, d)
    && BlindTransactionOk(s.second, s.first.phase.Committed?, s.master, a, d2, d1, d)
    && !(HoldsMaster(s.first) && HoldsMaster(s.second))
    && (match (s.first.phase.Committed?, s.second.phase.Committed?)
        case (false, false) => s.master == a
        case (true, false) => s.master == d1
        case (false, true) => s.master == d2
        case (true, true) => s.master == BlindEnd(rest, m, n))
  }

  lemma StepKeepsBlindScene(s: Scene, turn: Turn, rest: seq<VendorStatus>, m: Move, n: Move)
    requires BlindSceneOk(s, rest, m, n)
    ensures BlindSceneOk(Step(s, turn), rest, m, n)
  {
    hide DeriveMasterOrderStatus;
  }

  /** Whatever happens after two blind reads, both transactions commit at that status. */
  lemma {:induction false} BlindRunEnds(s: Scene, turns: seq<Turn>, rest: seq<VendorStatus>, m: Move, n: Move)
    requires BlindSceneOk(s, rest, m, n)
    ensures Finished(Run(s, turns)) ==> Run(s, turns).master == BlindEnd(rest, m, n)
    decreases |turns|
  {
    if turns != [] {
      hide BlindSceneOk, Step;
      StepKeepsBlindScene(s, turns[0], rest, m, n);
      BlindRunEnds(Step(s, turns[0]), turns[1..], rest, m, n);
    }
  }

  lemma BlindIsReached(rest: seq<VendorStatus>, m: Move, n: Move)
    ensures Run(Start(rest, m, n), [First, First, Second, Second]) == Blind(rest, m, n)
    ensures BlindSceneOk(Blind(rest, m, n), rest, m, n)
  {
    hide DeriveMasterOrderStatus;
    var s := Start(rest, m, n);
    assert [First, First, Second, Second] == [First] + ([First] + [Second, Second]);
    RunCons(s, First, [First] + [Second, Second]);
    RunCons(Step(s, First), First, [Second, Second]);
    s := Step(Step(s, First), First);
    RunCons(s, Second, [Second]);
    RunCons(Step(s, Second), Second, []);
    assert [Second] + [] == [Second] && [Second] + [Second] == [Second, Second];
  }

  lemma BlindCanFinish(rest: seq<VendorStatus>, m: Move, n: Move)
    ensures Finished(Run(Blind(rest, m, n), [First, First] + ([Second, Second, Second, Second] + [Second])))
  {
    hide DeriveMasterOrderStatus;
    var s, rest' := Blind(rest, m, n), [Second, Second, Second, Second] + [Second];
    assert [First, First] + rest' == [First] + ([First] + rest');
    RunCons(s, First, [First] + rest');
    RunCons(Step(s, First), First, rest');
    s := Step(Step(s, First), First);
    assert s.first.phase.Committed?;
    RunFour(s, Second, [Second]);
    s := Step(Step(Step(Step(s, Second), Second), Second), Second);
    RunCons(s, Second, []);
    assert [Second] + [] == [Second];
  }

  /** The two moves that neither transaction reports: each leaves the status to the other. */
  predicate Collides(rest: seq<VendorStatus>, m: Move, n: Move) {
    if Delivered in rest then !SomeOutstanding(rest) && !SomeOutstanding([m.to, n.to])
    else if m.from == n.from == Pending then Pending !in rest
    else if m.from == n.from == Confirmed then Pending !in rest && Confirmed !in rest
    else
      && Pending !in rest && Confirmed !in rest
      && ((m == Move(Pending, Cancelled) && n.from == Confirmed)
          || (n == Move(Pending, Cancelled) && m.from == Confirmed))
  }

  lemma CollidesIff(rest: seq<VendorStatus>, m: Move, n: Move)
    requires IsMove(m) && IsMove(n)
    ensures BlindEnd(rest, m, n) != Both(rest, m, n) <==> Collides(rest, m, n)
  {
    DerivedStatusMeaning(rest + [m.from, n.from]);
    DerivedStatusMeaning(rest + [m.to, n.from]);
    DerivedStatusMeaning(rest + [m.from, n.to]);
    DerivedStatusMeaning(rest + [m.to, n.to]);
    hide DeriveMasterOrderStatus;
  }

  /** Exactly when two updates that read before either commits still leave the derived status. */
  lemma BlindEndsRightIff(rest: seq<VendorStatus>, m: Move, n: Move)
    requires IsMove(m) && IsMove(n)
    ensures AlwaysEndsAt(Blind(rest, m, n), Both(rest, m, n)) <==> !Collides(rest, m, n)
  {
    hide DeriveMasterOrderStatus, Run, Blind, BlindEnd, Both, Collides, BlindSceneOk;
    CollidesIff(rest, m, n);
    BlindIsReached(rest, m, n);
    BlindCanFinish(rest, m, n);
    forall turns | Finished(Run(Blind(rest, m, n), turns))
      ensures Run(Blind(rest, m, n), turns).master == BlindEnd(rest, m, n)
    {
      BlindRunEnds(Blind(rest, m, n), turns, rest, m, n);
    }
  }

  // ------------------------------------------------------------------------------------------
  // On the tables

  /** What two allowed transitions of different children of one master order mean on the tables. */
  ghost predicate Overlap(orders: seq<MasterOrder>, vendorOrders: seq<VendorOrder>, v: nat, w: nat, m: Move, n: Move) {
    && StatusesOk(orders, vendorOrders)
    && v < w < |vendorOrders| && vendorOrders[v].master == vendorOrders[w].master
    && vendorOrders[v].status == m.from && vendorOrders[w].status == n.from && IsMove(m) && IsMove(n)
  }

  function WithoutTwo<T>(rows: seq<T>, v: nat, w: nat): seq<T>
    requires v < w < |rows|
  {
    rows[..v] + rows[v + 1..w] + rows[w + 1..]
  }

  lemma WithoutTwoRows<T>(rows: seq<T>, v: nat, w: nat, k: nat)
    requires v < w < |rows|
    ensures k < |rows| && k != v && k != w ==> rows[k] in WithoutTwo(rows, v, w)
    ensures k < |rows| - 2 ==>
              WithoutTwo(rows, v, w)[k] == rows[if k < v then k else if k < w - 1 then k + 1 else k + 2]
  {
    var others := WithoutTwo(rows, v, w);
    if k < |rows| && k != v && k != w {
      assert others[if k < v then k else if k < w then k - 1 else k - 2] == rows[k];
    }
  }

  function Rest(vendorOrders: seq<VendorOrder>, v: nat, w: nat): seq<VendorStatus>
    requires v < w < |vendorOrders|
  {
    ChildStatuses(WithoutTwo(vendorOrders, v, w), vendorOrders[v].master)
  }

  lemma {:induction false} RestOccurrences(vendorOrders: seq<VendorOrder>, v: nat, w: nat, s: VendorStatus)
    requires v < w < |vendorOrders|
    ensures s in Rest(vendorOrders, v, w) <==>
              exists k :: 0 <= k < |vendorOrders| && k != v && k != w
                          && vendorOrders[k].master == vendorOrders[v].master && vendorOrders[k].status == s
  {
    hide ChildStatuses;
    var others := WithoutTwo(vendorOrders, v, w);
    if s in Rest(vendorOrders, v, w) {
      var k :| 0 <= k < |others| && others[k].master == vendorOrders[v].master && others[k].status == s;
      hide WithoutTwo;
      WithoutTwoRows(vendorOrders, v, w, k);
    }
    if k :| 0 <= k < |vendorOrders| && k != v && k != w
            && vendorOrders[k].master == vendorOrders[v].master && vendorOrders[k].status == s
    {
      hide WithoutTwo;
      WithoutTwoRows(vendorOrders, v, w, k);
    }
  }

  /** The children of a master order are two of them and the rest. */
  lemma {:induction false} ChildrenAreRestAndTwo(vendorOrders: seq<VendorOrder>, v: nat, w: nat)
    requires v < w < |vendorOrders| && vendorOrders[v].master == vendorOrders[w].master
    ensures DeriveMasterOrderStatus(ChildStatuses(vendorOrders, vendorOrders[v].master)) ==
            DeriveMasterOrderStatus(Rest(vendorOrders, v, w) + [vendorOrders[v].status, vendorOrders[w].status])
  {
    hide DeriveMasterOrderStatus, ChildStatuses, Rest;
    var a := ChildStatuses(vendorOrders, vendorOrders[v].master);
    var b := Rest(vendorOrders, v, w) + [vendorOrders[v].status, vendorOrders[w].status];
    forall s ensures s in a <==> s in b {
      RestOccurrences(vendorOrders, v, w, s);
    }
    DependsOnOccurrencesOnly(a, b);
  }

  lemma RestIgnoresTheTwo(vendorOrders: seq<VendorOrder>, v: nat, w: nat, x: VendorOrder, y: VendorOrder)
    requires v < w < |vendorOrders| && x.master == vendorOrders[v].master
    ensures Rest(vendorOrders[v := x][w := y], v, w) == Rest(vendorOrders, v, w)
  {
    assert WithoutTwo(vendorOrders[v := x][w := y], v, w) == WithoutTwo(vendorOrders, v, w);
  }

  /** The scene's four statuses are those of the tables: before, with either transition, and with both. */
  lemma SceneOfTables(orders: seq<MasterOrder>, vendorOrders: seq<VendorOrder>, v: nat, w: nat, m: Move, n: Move,
                      actor: nat)
    requires Overlap(orders, vendorOrders, v, w, m, n)
    ensures var master, rest := vendorOrders[v].master, Rest(vendorOrders, v, w);
            var x, y := Transitioned(vendorOrders[v], m.to, actor), Transitioned(vendorOrders[w], n.to, actor);
            && orders[master].status == Before(rest, m, n)
            && DeriveMasterOrderStatus(ChildStatuses(vendorOrders[v := x], master)) == OnlyFirst(rest, m, n)
            && DeriveMasterOrderStatus(ChildStatuses(vendorOrders[w := y], master)) == OnlySecond(rest, m, n)
            && DeriveMasterOrderStatus(ChildStatuses(vendorOrders[v := x][w := y], master)) == Both(rest, m, n)
  {
    hide DeriveMasterOrderStatus, ChildStatuses, Rest;
    var x, y := Transitioned(vendorOrders[v], m.to, actor), Transitioned(vendorOrders[w], n.to, actor);
    ChildrenAreRestAndTwo(vendorOrders, v, w);
    ChildrenAreRestAndTwo(vendorOrders[v := x], v, w);
    ChildrenAreRestAndTwo(vendorOrders[w := y], v, w);
    ChildrenAreRestAndTwo(vendorOrders[v := x][w := y], v, w);
    RestIgnoresTheTwo(vendorOrders, v, w, x, vendorOrders[w]);
    RestIgnoresTheTwo(vendorOrders, v, w, vendorOrders[v], y);
    RestIgnoresTheTwo(vendorOrders, v, w, x, y);
    assert vendorOrders[v := x][w := vendorOrders[w]] == vendorOrders[v := x];
    assert vendorOrders[v := vendorOrders[v]][w := y] == vendorOrders[w := y];
  }

  /**
   * Atomicity matters, exactly here: some interleaving of two transitions leaves a master order whose status is not
   * derived from its children if and only if one of the moves is decisive beside the outcome of the other.
   */
  lemma OverlappingUpdatesLeaveMasterStale(orders: seq<MasterOrder>, vendorOrders: seq<VendorOrder>, v: nat, w: nat,
                                           m: Move, n: Move, actor: nat)
    requires Overlap(orders, vendorOrders, v, w, m, n)
    ensures var master, rest := vendorOrders[v].master, Rest(vendorOrders, v, w);
            var x, y := Transitioned(vendorOrders[v], m.to, actor), Transitioned(vendorOrders[w], n.to, actor);
            !AlwaysEndsAt(Begin(rest, orders[master].status, m, n),
                          DeriveMasterOrderStatus(ChildStatuses(vendorOrders[v := x][w := y], master)))
            <==> Decisive(rest + [m.to], n) || Decisive(rest + [n.to], m)
  {
    hide DeriveMasterOrderStatus, ChildStatuses, Rest, Decisive, Before, Both, AlwaysEndsAt;
    SceneOfTables(orders, vendorOrders, v, w, m, n, actor);
    AlwaysEndsRightIff(Rest(vendorOrders, v, w), m, n);
  }

  /** The same question for updates that both read before either commits, with its own exact condition. */
  lemma BlindUpdatesLeaveMasterStale(orders: seq<MasterOrder>, vendorOrders: seq<VendorOrder>, v: nat, w: nat,
                                     m: Move, n: Move, actor: nat)
    requires Overlap(orders, vendorOrders, v, w, m, n)
    ensures var master, rest := vendorOrders[v].master, Rest(vendorOrders, v, w);
            var x, y := Transitioned(vendorOrders[v], m.to, actor), Transitioned(vendorOrders[w], n.to, actor);
            !AlwaysEndsAt(Blind(rest, m, n),
                          DeriveMasterOrderStatus(ChildStatuses(vendorOrders[v := x][w := y], master)))
            <==> Collides(rest, m, n)
  {
    hide DeriveMasterOrderStatus, ChildStatuses, Rest, Collides, Blind, Both, AlwaysEndsAt;
    SceneOfTables(orders, vendorOrders, v, w, m, n, actor);
    BlindEndsRightIff(Rest(vendorOrders, v, w), m, n);
  }

  /** Three collisions: a delivered and a cancelled order that never say so, and a status written one stage too low. */
  lemma CollisionInstances()
    ensures var m := Move(Shipped, Delivered);
            && BlindEnd([Delivered], m, m) == PartiallyFulfilled && Both([Delivered], m, m) == Fulfilled
    ensures var m := Move(Pending, Cancelled);
            BlindEnd([], m, m) == OrderPending && Both([], m, m) == OrderCancelled
    ensures var m, n := Move(Pending, Cancelled), Move(Confirmed, Processing);
            BlindEnd([], m, n) == OrderConfirmed && Both([], m, n) == OrderProcessing
  {
    hide Before, OnlyFirst, OnlySecond, Both;
    var p, q, r := Move(Shipped, Delivered), Move(Pending, Cancelled), Move(Confirmed, Processing);
    DerivationMeanings([Delivered], p, p);
    DerivationMeanings([], q, q);
    DerivationMeanings([], q, r);
  }

  /** A late writer puts the master back from CONFIRMED to PENDING, although both children have moved up. */
  lemma MasterCanMoveDown()
    ensures var m, n := Move(Pending, Confirmed), Move(Confirmed, Processing);
            var s := Run(Start([], m, n), LATE_WRITER);
            s.master == OrderConfirmed && Finished(Step(s, Second)) && Step(s, Second).master == OrderPending
  {
    var m, n := Move(Pending, Confirmed), Move(Confirmed, Processing);
    LateWriterWins([], m, n);
    DerivationMeanings([], m, n);
    hide Run, Step, OnlyFirst, OnlySecond;
  }

  /** What a list of children derives, by the statuses that occur in it. */
  function Meaning(ss: seq<VendorStatus>): OrderStatus {
    if Delivered in ss then if SomeOutstanding(ss) then PartiallyFulfilled else Fulfilled
    else if Pending in ss then OrderPending
    else if Confirmed in ss then OrderConfirmed
    else if SomeUnderway(ss) then OrderProcessing
    else OrderCancelled
  }

  lemma DerivationMeanings(rest: seq<VendorStatus>, m: Move, n: Move)
    ensures Before(rest, m, n) == Meaning(rest + [m.from, n.from])
    ensures OnlyFirst(rest, m, n) == Meaning(rest + [m.to, n.from])
    ensures OnlySecond(rest, m, n) == Meaning(rest + [m.from, n.to])
    ensures Both(rest, m, n) == Meaning(rest + [m.to, n.to])
  {
    DerivedStatusMeaning(rest + [m.from, n.from]);
    DerivedStatusMeaning(rest + [m.to, n.from]);
    DerivedStatusMeaning(rest + [m.from, n.to]);
    DerivedStatusMeaning(rest + [m.to, n.to]);
    hide DeriveMasterOrderStatus;
  }

  // ------------------------------------------------------------------------------------------
  // How long a stale master stays stale

  /** No child of the master order has an allowed transition. */
  ghost predicate NoTransitionLeft(vendorOrders: seq<VendorOrder>, master: nat) {
    forall w :: 0 <= w < |vendorOrders| && vendorOrders[w].master == master ==>
      AllowedTargets(vendorOrders[w].status) == {}
  }

  /** When the last two transitions of a master order overlap, some interleaving leaves it stale. */
  lemma FinalOverlapIsUnsafe(rest: seq<VendorStatus>, m: Move, n: Move)
    requires IsMove(m) && IsMove(n)
    requires forall s :: s in rest + [m.to, n.to] ==> AllowedTargets(s) == {}
    ensures !AlwaysEndsAt(Start(rest, m, n), Both(rest, m, n))
  {
    assert m.to in rest + [m.to, n.to] && n.to in rest + [m.to, n.to];
    assert forall s :: s in rest + [m.to] ==> s in rest + [m.to, n.to];
    assert Decisive(rest + [m.to], n);
    hide AlwaysEndsAt, Start, Both, Decisive;
    AlwaysEndsRightIff(rest, m, n);
  }

  ghost predicate MastersExist(t: Tables) {
    forall w :: 0 <= w < |t.vendorOrders| ==> t.vendorOrders[w].master < |t.orders|
  }

  ghost predicate Stale(t: Tables, m: nat) {
    m < |t.orders| && t.orders[m].status != DeriveMasterOrderStatus(ChildStatuses(t.vendorOrders, m))
  }

  /** The next transition of any child, however stale its read, brings the master in line again. */
  lemma NextTransitionHeals(t: Tables, vendorOrder: nat, from: VendorStatus, to: VendorStatus, actor: nat)
    requires CommitStatusSpec(t, vendorOrder, from, to, actor).1 == Done
    ensures !Stale(CommitStatusSpec(t, vendorOrder, from, to, actor).0, t.vendorOrders[vendorOrder].master)
  {
    hide DeriveMasterOrderStatus, ChildStatuses;
  }

  /** The children of a master order, as far as its status depends on them, and the order itself are as they were. */
  ghost predicate SameOrder(t: Tables, u: Tables, m: nat) {
    && m < |t.orders| <= |u.orders| && u.orders[m] == t.orders[m]
    && ChildStatuses(u.vendorOrders, m) == ChildStatuses(t.vendorOrders, m)
    && NoTransitionLeft(u.vendorOrders, m)
  }

  lemma {:induction false} OtherChildrenAppended(before: seq<VendorOrder>, placed: seq<VendorOrder>, m: nat)
    requires forall k :: 0 <= k < |placed| ==> placed[k].master != m
    ensures ChildStatuses(before + placed, m) == ChildStatuses(before, m)
  {
    if placed == [] {
      assert before + placed == before;
    } else {
      var last := |placed| - 1;
      assert (before + placed)[..|before + placed| - 1] == before + placed[..last];
      OtherChildrenAppended(before, placed[..last], m);
    }
  }

  lemma {:induction false} OtherChildUpdated(before: seq<VendorOrder>, w: nat, x: VendorOrder, m: nat)
    requires w < |before| && before[w].master == x.master != m
    ensures ChildStatuses(before[w := x], m) == ChildStatuses(before, m)
  {
    var last := |before| - 1;
    if w == last {
      assert before[w := x][..last] == before[..last];
    } else {
      assert before[w := x][..last] == before[..last][w := x];
      OtherChildUpdated(before[..last], w, x, m);
    }
  }

  lemma WriteKeepsSettled(t: Tables, a: Shop.Write, m: nat)
    requires Shop.Admitted(a) && MastersExist(t) && m < |t.orders| && NoTransitionLeft(t.vendorOrders, m)
    ensures SameOrder(t, Shop.Effect(t, a), m) && MastersExist(Shop.Effect(t, a))
  {
    hide DeriveMasterOrderStatus, ChildStatuses;
    if a.WriteStatus? {
      var w := a.vendorOrder;
      if CommitStatusSpec(t, w, a.from, a.to, a.actor).1 == Done {
        assert t.vendorOrders[w].master != m;
        OtherChildUpdated(t.vendorOrders, w, Transitioned(t.vendorOrders[w], a.to, a.actor), m);
      }
    }
  }

  lemma CheckoutKeepsSettled(t: Tables, r: Checkout.Request, collision: Option<nat>, m: nat)
    requires MastersExist(t) && m < |t.orders| && NoTransitionLeft(t.vendorOrders, m)
    ensures var u := Checkout.CommitSpec(t, r, collision).0; SameOrder(t, u, m) && MastersExist(u)
  {
    hide DeriveMasterOrderStatus, ChildStatuses, Checkout.Reserve, Checkout.Groups, Checkout.PlacedItems;
    OtherChildrenAppended(t.vendorOrders, Checkout.PlacedOrders(Checkout.Groups(r.lines), |t.orders|, r.user), m);
  }

  lemma StepKeepsSettled(w: Shop.World, s: Shop.Step, m: nat)
    requires Shop.Allowed(w, s) && MastersExist(w.t) && m < |w.t.orders| && NoTransitionLeft(w.t.vendorOrders, m)
    ensures SameOrder(w.t, Shop.Next(w, s).t, m) && MastersExist(Shop.Next(w, s).t)
  {
    hide Shop.Effect, Checkout.CommitSpec, ChildStatuses;
    match s
    case Do(a) => WriteKeepsSettled(w.t, a, m);
    case BeginCheckout(_) =>
    case CommitCheckout(r, collision) => CheckoutKeepsSettled(w.t, r, collision, m);
  }

  lemma {:induction false} RunKeepsSettled(w: Shop.World, steps: seq<Shop.Step>, m: nat)
    requires Shop.AllowedRun(w, steps) && MastersExist(w.t)
    requires m < |w.t.orders| && NoTransitionLeft(w.t.vendorOrders, m)
    ensures SameOrder(w.t, Shop.Run(w, steps).t, m)
    decreases |steps|
  {
    hide Shop.Next, Shop.Allowed, ChildStatuses;
    if steps != [] {
      StepKeepsSettled(w, steps[0], m);
      RunKeepsSettled(Shop.Next(w, steps[0]), steps[1..], m);
    }
  }

  ghost predicate StaysStale(w: Shop.World, m: nat) {
    forall steps :: Shop.AllowedRun(w, steps) ==> Stale(Shop.Run(w, steps).t, m)
  }

  /** A stale master status is stale for good, through every later run of the shop, exactly when no child can move. */
  lemma StaleForGoodIff(w: Shop.World, m: nat)
    requires MastersExist(w.t) && Stale(w.t, m)
    ensures StaysStale(w, m) <==> NoTransitionLeft(w.t.vendorOrders, m)
  {
    hide DeriveMasterOrderStatus, ChildStatuses;
    if NoTransitionLeft(w.t.vendorOrders, m) {
      forall steps | Shop.AllowedRun(w, steps) ensures Stale(Shop.Run(w, steps).t, m) {
        RunKeepsSettled(w, steps, m);
      }
    } else {
      var v :| 0 <= v < |w.t.vendorOrders| && w.t.vendorOrders[v].master == m
               && AllowedTargets(w.t.vendorOrders[v].status) != {};
      var to :| to in AllowedTargets(w.t.vendorOrders[v].status);
      var s := Shop.Do(Shop.WriteStatus(v, w.t.vendorOrders[v].status, to, 0));
      NextTransitionHeals(w.t, v, w.t.vendorOrders[v].status, to, 0);
      assert [s][1..] == [] && Shop.AllowedRun(Shop.Next(w, s), []);
      assert Shop.AllowedRun(w, [s]) && Shop.Run(w, [s]) == Shop.Next(w, s);
      assert !Stale(Shop.Next(w, s).t, m);
    }
  }
}
