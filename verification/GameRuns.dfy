/**
  Runs of one game as interleaved steps. The game thread repeats the body of Game::update, one call per step and one
  step per buffered action; the network thread shoots and queues actions at any moment between those steps.
 */
module GameRuns {
  import opened Collections
  import opened GameState
  import opened Contacts

  /** Where the game thread stands; Acting carries the loop index and the end that the loop fixed when it began. */
  datatype Phase = Waiting | Acting(next: nat, end: nat) | Firing | Advancing | Colliding | Spawning | Reporting

  datatype Event =
    | BeginActions
    | RunAction
    | EndActions
    | MoveBullets(due: bool)
    | MoveEnemies(due: bool)
    | Collide
    | Wave(waveDue: bool, ys: seq<real>)
    | Report(reportDue: bool)
    | NetShoot(shooter: int)
    | NetAct(actor: int, code: int)

  /** What has happened so far, for stating properties of whole runs; no step reads it. */
  datatype History = History(
    bulletEnemy: set<(int, int)>,
    bulletBoss: set<(int, int)>,
    playerEnemy: set<(int, int)>,
    playerBoss: set<(int, int)>,
    waves: nat,
    bulletMoves: nat,
    enemyMoves: nat,
    bulletBorn: map<int, nat>,
    enemyBorn: map<int, nat>,
    bossBorn: map<int, nat>,
    added: seq<(int, int)>,
    executed: seq<(int, int)>
  )

  datatype System = System(w: World, phase: Phase, h: History)

  const NO_HISTORY: History := History({}, {}, {}, {}, 0, 0, 0, map[], map[], map[], [], [])

  function Start(n: nat): System {
    System(InitializePlayers(NEW_GAME, n), Waiting, NO_HISTORY)
  }

  predicate Enabled(s: System, ev: Event) {
    match ev
    case BeginActions => s.phase.Waiting?
    case RunAction =>
      s.phase.Acting? && s.phase.next < s.phase.end && s.phase.next < |s.w.actions| &&
      !Throws(s.w, s.w.actions[s.phase.next])
    case EndActions => s.phase.Acting? && s.phase.next >= s.phase.end
    case MoveBullets(_) => s.phase.Firing?
    case MoveEnemies(_) => s.phase.Advancing?
    case Collide => s.phase.Colliding?
    case Wave(due, ys) => s.phase.Spawning? && (due ==> |ys| == WaveSize(s.w))
    case Report(_) => s.phase.Reporting?
    case NetShoot(_) => true
    case NetAct(_, _) => true
  }

  /** The world after an enabled event. */
  function Apply(s: System, ev: Event): World
    requires Enabled(s, ev)
  {
    match ev
    case BeginActions => s.w
    case RunAction => Mark(Execute(s.w, s.w.actions[s.phase.next]), s.phase.next)
    case EndActions => s.w.(actions := Filter(Unprocessed, s.w.actions))
    case MoveBullets(due) => UpdateBullets(s.w, due)
    case MoveEnemies(due) => UpdateEnemies(s.w, due)
    case Collide => CheckCollisions(s.w)
    case Wave(due, ys) => if due then NextWave(s.w, ys) else s.w
    case Report(due) => UpdateUI(s.w, due)
    case NetShoot(id) => SpawnBullet(s.w, id)
    case NetAct(id, code) => AddAction(s.w, id, code)
  }

  function Follow(s: System, ev: Event): Phase
    requires Enabled(s, ev)
  {
    match ev
    case BeginActions => Acting(0, |s.w.actions|)
    case RunAction => Acting(s.phase.next + 1, s.phase.end)
    case EndActions => Firing
    case MoveBullets(_) => Advancing
    case MoveEnemies(_) => Colliding
    case Collide => Spawning
    case Wave(_, _) => Reporting
    case Report(_) => Waiting
    case NetShoot(_) => s.phase
    case NetAct(_, _) => s.phase
  }

  /** Birth times of the entities present: kept if known, otherwise now. */
  function Births(born: map<int, nat>, present: set<int>, now: nat): map<int, nat> {
    map id | id in present :: if id in born then born[id] else now
  }

  function WithBirths(h: History, v: World): History {
    h.(bulletBorn := Births(h.bulletBorn, v.bullets.Keys, h.bulletMoves),
       enemyBorn := Births(h.enemyBorn, v.enemies.Keys, h.enemyMoves),
       bossBorn := Births(h.bossBorn, v.bosses.Keys, h.enemyMoves))
  }

  /** What the event itself adds to a history. */
  function Note(s: System, ev: Event, h: History): History
    requires Enabled(s, ev)
  {
    match ev
    case RunAction =>
      var a := s.w.actions[s.phase.next];
      if IsHandled(a.code) then h.(executed := h.executed + [(a.player, a.code)]) else h
    case MoveBullets(due) => if due then h.(bulletMoves := h.bulletMoves + 1) else h
    case MoveEnemies(due) => if due then h.(enemyMoves := h.enemyMoves + 1) else h
    case Collide =>
      h.(bulletEnemy := h.bulletEnemy + Pairs(s.w.bullets, s.w.enemies),
         bulletBoss := h.bulletBoss + Pairs(s.w.bullets, s.w.bosses),
         playerEnemy := h.playerEnemy + Pairs(Positions(s.w.players), s.w.enemies),
         playerBoss := h.playerBoss + Pairs(Positions(s.w.players), s.w.bosses))
    case Wave(due, _) => if due then h.(waves := h.waves + 1) else h
    case NetAct(id, code) => h.(added := h.added + [(id, code)])
    case _ => h
  }

  function Record(s: System, ev: Event): History
    requires Enabled(s, ev)
  {
    Note(s, ev, WithBirths(s.h, Apply(s, ev)))
  }

  /** An event that is not enabled does not happen. */
  function Step(s: System, ev: Event): System {
    if Enabled(s, ev) then System(Apply(s, ev), Follow(s, ev), Record(s, ev)) else s
  }

  function Run(s: System, events: seq<Event>): System {
    if events == [] then s else Step(Run(s, events[..|events| - 1]), events[|events| - 1])
  }

  lemma {:induction false} RunConcat(s: System, a: seq<Event>, b: seq<Event>)
    ensures Run(s, a + b) == Run(Run(s, a), b)
  {
    if b == [] {
      assert a + b == a;
    } else {
      assert (a + b)[..|a + b| - 1] == a + b[..|b| - 1];
      RunConcat(s, a, b[..|b| - 1]);
    }
  }
}
