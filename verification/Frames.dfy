/**
  What the client draws when packets and frames interleave in any way: bullets, enemies and bosses are off from where
  the server has them by exactly the moves that the client has not drawn yet, or has drawn too many.
 */
module Frames {
  import opened Protocol
  import opened GameState
  import opened GameRuns
  import opened Replica
  import opened Sprites
  import opened DeadReckoning

  datatype Input = Gets(m: Message) | Draws

  function Show(inputs: seq<Input>): Scene {
    if inputs == [] then EMPTY_SCENE
    else
      var c := Show(inputs[..|inputs| - 1]);
      match inputs[|inputs| - 1]
      case Gets(m) => Receive(c, m)
      case Draws => Frame(c)
  }

  function Received(inputs: seq<Input>): seq<Message> {
    if inputs == [] then []
    else
      var before := Received(inputs[..|inputs| - 1]);
      match inputs[|inputs| - 1]
      case Gets(m) => before + [m]
      case Draws => before
  }

  /** The frames since the packet that created this sprite. */
  function FramesSince(inputs: seq<Input>, f: Family, id: int): nat {
    if inputs == [] then 0
    else
      var before := FramesSince(inputs[..|inputs| - 1], f, id);
      match inputs[|inputs| - 1]
      case Gets(m) => if m.kind == CreateKind(f) && m.id == id then 0 else before
      case Draws => before + 1
  }

  /** A sprite that has glided for k frames. */
  function After(s: Sprite, k: nat): Sprite {
    s.(at := Pos(s.at.x + s.vx * k as real, s.at.y + s.vy * k as real))
  }

  lemma AfterNone(s: Sprite)
    ensures After(s, 0) == s
  {
  }

  lemma OnceMore(v: real, k: nat)
    ensures v * (k + 1) as real == v * k as real + v
  {
  }

  lemma AfterOneMore(s: Sprite, k: nat)
    ensures After(s, k + 1) == var t := After(s, k); t.(at := Pos(t.at.x + t.vx, t.at.y + t.vy))
  {
    OnceMore(s.vx, k);
    OnceMore(s.vy, k);
  }

  /** The sprites are those that the packets alone leave, each moved on for its own number of frames. */
  ghost predicate Glides(drawn: map<int, Sprite>, sent: map<int, Sprite>, inputs: seq<Input>, f: Family) {
    && drawn.Keys == sent.Keys
    && forall id | id in sent :: drawn[id] == After(sent[id], FramesSince(inputs, f, id))
  }

  lemma PacketKeepsGliding(drawn: map<int, Sprite>, sent: map<int, Sprite>, inputs: seq<Input>, m: Message, f: Family)
    requires inputs != [] && inputs[|inputs| - 1] == Gets(m)
    requires Glides(drawn, sent, inputs[..|inputs| - 1], f)
    ensures Glides(DrawnAfter(drawn, m, f), DrawnAfter(sent, m, f), inputs, f)
  {
    AfterNone(SpriteOf(m));
  }

  lemma FrameKeepsGliding(drawn: map<int, Sprite>, sent: map<int, Sprite>, inputs: seq<Input>, f: Family)
    requires inputs != [] && inputs[|inputs| - 1] == Draws
    requires Glides(drawn, sent, inputs[..|inputs| - 1], f)
    ensures Glides(Glided(drawn), sent, inputs, f)
  {
    forall id | id in sent ensures Glided(drawn)[id] == After(sent[id], FramesSince(inputs, f, id)) {
      AfterOneMore(sent[id], FramesSince(inputs[..|inputs| - 1], f, id));
    }
  }

  lemma FrameGlides(c: Scene, f: Family)
    requires f != PLAYERS
    ensures Drawn(Frame(c), f) == Glided(Drawn(c, f))
  {
  }

  lemma {:induction false} SpritesGlide(inputs: seq<Input>, f: Family)
    requires f != PLAYERS
    ensures Glides(Drawn(Show(inputs), f), DrawnFrom(Received(inputs), f), inputs, f)
  {
    if inputs != [] {
      var init := inputs[..|inputs| - 1];
      SpritesGlide(init, f);
      match inputs[|inputs| - 1]
      case Gets(m) =>
        ReceiveDraws(Show(init), m, f);
        DrawnAppend(Received(init), m, f);
        PacketKeepsGliding(Drawn(Show(init), f), DrawnFrom(Received(init), f), inputs, m, f);
      case Draws =>
        FrameGlides(Show(init), f);
        FrameKeepsGliding(Drawn(Show(init), f), DrawnFrom(Received(init), f), inputs, f);
    }
  }

  /** How far a sprite is ahead of the entity, when this many frames and moves have passed since it appeared. */
  function Ahead(f: Family, frames: nat, age: int): real {
    Speed(f) * (frames - age) as real
  }

  lemma OneIsAhead(s: Sprite, p: Pos, f: Family, frames: nat, age: int)
    requires s == Sprite(Pos(p.x - Travelled(f, age), p.y), Speed(f), 0.0)
    ensures After(s, frames).at == Pos(p.x + Ahead(f, frames, age), p.y)
  {
    assert 0.0 * frames as real == 0.0;
  }

  lemma ReckonedSpritesAreAhead(drawn: map<int, Sprite>, sent: map<int, Sprite>, inputs: seq<Input>, at: map<int, Pos>,
                                born: map<int, nat>, now: nat, f: Family, id: int)
    requires Glides(drawn, sent, inputs, f) && Reckoned(sent, at, born, now, f) && id in at
    ensures id in drawn && id in born
    ensures drawn[id].at == Pos(at[id].x + Ahead(f, FramesSince(inputs, f, id), now - born[id]), at[id].y)
  {
    OneIsAhead(sent[id], at[id], f, FramesSince(inputs, f, id), now - born[id]);
  }

  /**
    In every reachable state, on a client that has received the whole log and drawn frames at any points in between: a
    live bullet, enemy or boss is drawn at its height, and ahead of it by its velocity times the frames drawn since it
    was created less the moves made since then; so that it is in place exactly if these are equal.
   */
  lemma SpritesAreAhead(n: nat, events: seq<Event>, inputs: seq<Input>, f: Family, id: int)
    requires f != PLAYERS && Received(inputs) == Run(Start(n), events).w.log
    requires id in Places(Run(Start(n), events).w, f)
    ensures var s := Run(Start(n), events); var drawn := Drawn(Show(inputs), f);
      && id in drawn && id in Born(s.h, f)
      && var p, age := Places(s.w, f)[id], Now(s.h, f) - Born(s.h, f)[id];
         var frames := FramesSince(inputs, f, id);
         && drawn[id].at == Pos(p.x + Speed(f) * (frames - age) as real, p.y)
         && (drawn[id].at == p <==> frames == age)
  {
    var s := Run(Start(n), events);
    RunsStayOnCourse(n, events, f);
    SpritesGlide(inputs, f);
    ReckonedSpritesAreAhead(Drawn(Show(inputs), f), DrawnFrom(Received(inputs), f), inputs, Places(s.w, f),
                            Born(s.h, f), Now(s.h, f), f, id);
    InPlaceIff(f, FramesSince(inputs, f, id), Now(s.h, f) - Born(s.h, f)[id]);
  }

  lemma InPlaceIff(f: Family, frames: nat, age: int)
    requires f != PLAYERS
    ensures Ahead(f, frames, age) == 0.0 <==> frames == age
  {
  }
}
