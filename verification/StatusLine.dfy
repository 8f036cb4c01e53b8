/**
  The status line. UI_UPDATE packets carry an id that the client does not look at: each one overwrites the client's
  health and score, so that after a report it shows those of the player reported last, who has the greatest id.
 */
module StatusLine {
  import opened Collections
  import opened Protocol
  import opened GameState
  import opened GameRuns
  import opened Replica
  import opened EndToEnd
  import opened PrintedSprites

  ghost predicate Greatest(ids: set<int>, id: int) {
    id in ids && forall i | i in ids :: i <= id
  }

  lemma {:induction false} ReportEndsWithGreatest(players: map<int, Player>, left: set<int>, id: int)
    requires left <= players.Keys && Greatest(left, id)
    ensures var ui := UiMessages(players, left); ui != [] && ui[|ui| - 1] == UiMessage(id, players[id])
    decreases |left|
  {
    var first := Least(left);
    if first == id {
      assert left == {id};
      assert left - {first} == {};
    } else {
      ReportEndsWithGreatest(players, left - {first}, id);
    }
  }

  /** One packet for each of these players in ascending order, with health, score and no velocity. */
  ghost predicate ReportsEach(ui: seq<Message>, players: map<int, Player>, left: set<int>) {
    && |ui| == |left|
    && (forall i | 0 <= i < |ui| ::
          && ui[i].id in left && ui[i].id in players
          && ui[i] == Message(UI_UPDATE, ui[i].id, players[ui[i].id].hp as real, players[ui[i].id].score as real,
                              0.0, 0.0))
    && (forall i, j | 0 <= i < j < |ui| :: ui[i].id < ui[j].id)
  }

  lemma ReportsFirst(m: Message, rest: seq<Message>, players: map<int, Player>, left: set<int>)
    requires left != {} && ReportsEach(rest, players, left - {Least(left)})
    requires Least(left) in players && m == UiMessage(Least(left), players[Least(left)])
    ensures ReportsEach([m] + rest, players, left)
  {
    var ui := [m] + rest;
    forall i | 1 <= i < |ui| ensures ui[i] == rest[i - 1] && ui[i].id in left - {m.id} {
    }
  }

  /** A due report has exactly one packet for every player, in ascending order. */
  lemma {:induction false} ReportListsEveryone(players: map<int, Player>, left: set<int>)
    requires left <= players.Keys
    ensures ReportsEach(UiMessages(players, left), players, left)
    decreases |left|
  {
    if left != {} {
      var id := Least(left);
      ReportListsEveryone(players, left - {id});
      ReportsFirst(UiMessage(id, players[id]), UiMessages(players, left - {id}), players, left);
    }
  }

  /** The last packet says hp and score. */
  ghost predicate EndsWithStatus(log: seq<Message>, p: Player) {
    && log != []
    && log[|log| - 1].kind == UI_UPDATE
    && log[|log| - 1].x == p.hp as real
    && log[|log| - 1].y == p.score as real
  }

  lemma StatusIsShown(log: seq<Message>, p: Player)
    requires EndsWithStatus(log, p)
    ensures Replay(log).health == p.hp && Replay(log).score == p.score
  {
  }

  lemma ReportEndsWithStatus(w: World, id: int)
    requires Greatest(w.players.Keys, id)
    ensures EndsWithStatus(UpdateUI(w, true).log, w.players[id])
  {
    ReportEndsWithGreatest(w.players, w.players.Keys, id);
  }

  /** What is shown is the health and the score, in that order, of the player with the greatest id. */
  lemma ReportShowsGreatest(w: World, id: int)
    requires Greatest(w.players.Keys, id)
    ensures var c := Replay(UpdateUI(w, true).log);
      c.health == w.players[id].hp && c.score == w.players[id].score
  {
    ReportEndsWithStatus(w, id);
    StatusIsShown(UpdateUI(w, true).log, w.players[id]);
  }

  /** With nobody left, a report changes nothing. */
  lemma EmptyReportShowsNothing(w: World)
    requires w.players == map[]
    ensures UpdateUI(w, true) == w
  {
  }

  lemma NearStatus(log: seq<Message>, seen: seq<Message>, p: Player)
    requires EndsWithStatus(log, p) && NearLog(log, seen)
    ensures EndsWithStatus(seen, p)
  {
    assert NearMessage(log[|log| - 1], seen[|log| - 1]);
  }

  lemma PrintedStatus(log: seq<Message>, numbers: seq<int>, p: Player)
    requires EndsWithStatus(log, p) && AllInRange(log, numbers)
    ensures ShownScene(log, numbers).health == p.hp && ShownScene(log, numbers).score == p.score
  {
    PrintedLogIsNear(log, numbers);
    ReadAllReplays(log, AllPrinted(log), numbers);
    NearStatus(log, AllSeen(log, AllPrinted(log)), p);
    StatusIsShown(AllSeen(log, AllPrinted(log)), p);
  }

  /** A client that reads the text of the log up to a due report shows the same, whatever the numbers on the packets. */
  lemma PrintedReportShowsGreatest(w: World, id: int, numbers: seq<int>)
    requires Greatest(w.players.Keys, id) && AllInRange(UpdateUI(w, true).log, numbers)
    ensures var c := ShownScene(UpdateUI(w, true).log, numbers);
      c.health == w.players[id].hp && c.score == w.players[id].score
  {
    ReportEndsWithStatus(w, id);
    PrintedStatus(UpdateUI(w, true).log, numbers, w.players[id]);
  }

  /** The same at the step of a run at which a report is due. */
  lemma RunsShowGreatest(n: nat, events: seq<Event>, id: int)
    requires Run(Start(n), events).phase.Reporting? && Greatest(Run(Start(n), events).w.players.Keys, id)
    ensures var w := Run(Start(n), events + [Report(true)]).w; var c := Replay(w.log);
      id in w.players && c.health == w.players[id].hp && c.score == w.players[id].score
  {
    var s := Run(Start(n), events);
    assert (events + [Report(true)])[..|events|] == events;
    ReportShowsGreatest(s.w, id);
  }

  /** The client's cast of a float drops its fraction, toward zero. */
  lemma TruncatesTowardZero(x: real)
    ensures var t := Truncate(x) as real;
      if x >= 0.0 then 0.0 <= t <= x < t + 1.0 else t - 1.0 < x <= t <= 0.0
  {
  }
}
