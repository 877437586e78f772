/** The files the monitors write and the rows of the controller's catalogue. */
module FilesAndRows {
  import opened CatalogueRows
  import opened Controller
  import opened Following
  import opened Ipc
  import opened Tables
  import opened TwoDaemons

  /** What is in flight, and what the monitors have begun, was sent. */
  ghost predicate FromSent(y: System)
    requires ValidSystem(y)
  {
    forall i :: 0 <= i < |y.queues| ==>
      && (forall c :: c in y.queues[i] ==> c in y.controller.cards[i].sent)
      && (forall file :: file in y.monitors[i].begun ==> AvRecordStart(file) in y.controller.cards[i].sent)
  }

  lemma MoveFromSent(y: System, move: Move, w: World)
    requires ValidSystem(y) && CanMove(y, move) && ShortPaths(w) && FromSent(y)
    ensures FromSent(MoveSystem(y, move, w))
  {
    hide Step;
    match move
    case Act(ev) => StepSentGrows(y.controller, ev, w);
    case Take(i, o) => assert y.queues[i][0] in y.queues[i];
  }

  lemma {:induction false} RunFromSent(y: System, moves: seq<Move>, w: World)
    requires ValidSystem(y) && ShortPaths(w) && FromSent(y) && InOrder(y.controller, w) && ValidMoves(y, moves, w)
    ensures var r := RunSystem(y, moves, w); FromSent(r) && InOrder(r.controller, w) && |r.queues| == |y.queues|
    decreases |moves|
  {
    if moves == [] {
    } else {
      MoveFromSent(y, moves[0], w);
      if moves[0].Act? {
        StepInOrder(y.controller, moves[0].event, w);
      }
      RunFromSent(MoveSystem(y, moves[0], w), moves[1..], w);
    }
  }

  /** In every interleaving of controller and monitors, whichever sends fail: every file a monitor has begun to record
      has a row in the catalogue, under the name behind the directory. */
  lemma EveryFileHasARow(n: nat, moves: seq<Move>, w: World, i: nat, file: string)
    requires i < n && ShortPaths(w) && WritesSucceed(w) && ValidMoves(Begin(n, w), moves, w)
    requires var y := RunSystem(Begin(n, w), moves, w); i < |y.monitors| && file in y.monitors[i].begun
    ensures var y, name := RunSystem(Begin(n, w), moves, w), NameOf(w.recordPath, file);
            file == w.recordPath + "/" + name && Get(y.controller.playback, name).Some?
  {
    var y0 := Begin(n, w);
    EmptyInOrder(n, w);
    StartupInOrder(Empty(n), w);
    RunFromSent(y0, moves, w);
    var y := RunSystem(y0, moves, w);
    var sent := y.controller.cards[i].sent;
    var k :| 0 <= k < |sent| && sent[k] == AvRecordStart(file);
    assert HasRow(sent[k], y.controller.playback, y.controller.log, w);
  }

  /** There are worlds in which everything succeeds; the runs the theorems speak of exist. */
  lemma WorldsExist()
    ensures exists w :: SendsSucceed(w) && WritesSucceed(w)
  {
    var stamp := "1970-01-01 00:00:00";
    var w := World(_ => true, _ => true, _ => true, _ => stamp, _ => "", _ => stamp, _ => 0.0, _ => "", "", "", 0);
    assert SendsSucceed(w) && WritesSucceed(w);
  }
}
