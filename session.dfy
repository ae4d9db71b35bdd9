/** `main`: the loop that shows the title menu until a game is started,
    plays the game frame by frame, and goes back to the menu when the game
    asks for it. */
module Session {
  import opened Options
  import opened Input
  import opened Randomness
  import opened Players
  import opened Games
  import opened Menus

  /** What one pass of the loop sees: the events taken from the queue and the
      arrow keys held down while the game updates. */
  datatype Frame = Frame(events: seq<Event>, held: Held)

  /** The variables of `main`: the menu, the game while one is played
      (`state == 'game'` exactly when there is one), `running`, and the
      position of the process-wide generator. */
  datatype SessionData = SessionData(menu: MenuData, game: Option<GameData>, running: bool, cursor: nat)

  /** Before the first pass: a new menu, no game, running. */
  function NewSession(): SessionData {
    SessionData(NewMenu(), None, true, 0)
  }

  /** The menu is well formed, and a game being played is on a level and
      draws from the session's generator. */
  predicate SessionOk(s: SessionData) {
    && MenuOk(s.menu)
    && (s.game.Some? ==> s.game.value.levelNum >= 1 && s.game.value.cursor == s.cursor)
  }

  /** One pass of `while running`. On the menu: 'quit' stops the loop and
      'start' creates a game with the chosen character. In a game: the
      events are handled, then the game is dropped if it asked for the
      menu, and otherwise updated once. */
  function Looped(s: SessionData, f: Frame, stream: seq<int>): (r: SessionData)
    requires SessionOk(s)
    ensures SessionOk(r)
  {
    match s.game
    case None =>
      var h := MenuHandled(s.menu, f.events);
      MenuHandledOk(s.menu, f.events);
      if h.1 == QuitGame then s.(menu := h.0, running := false)
      else if h.1 == StartGame then
        var g := NewGame(h.0.character, stream, s.cursor);
        s.(menu := h.0, game := Some(g), cursor := g.cursor)
      else s.(menu := h.0)
    case Some(g) =>
      var r := GameLooped(g, f, stream);
      s.(game := if r.1 then Some(r.0) else None, running := r.2, cursor := r.0.cursor)
  }

  /** A pass in game mode: the game after its events and, unless it asked for
      the menu, its update; whether the game is kept; and `running`. */
  function GameLooped(g: GameData, f: Frame, stream: seq<int>): (r: (GameData, bool, bool))
    requires g.levelNum >= 1
    ensures r.0.levelNum >= 1
  {
    var h := Handled(g, f.events, stream);
    if h.0.returnToMenu then (h.0, false, h.1)
    else
      TickKeepsLevel(h.0, f.held);
      (Tick(h.0, f.held), true, h.1)
  }

  /** The loop over a run's frames: it stops when the frames run out or
      once `running` is false. */
  function Played(s: SessionData, frames: seq<Frame>, stream: seq<int>): (r: SessionData)
    requires SessionOk(s)
    ensures SessionOk(r)
    ensures frames == [] || !s.running ==> r == s
    decreases |frames|
  {
    if frames == [] || !s.running then s
    else Played(Looped(s, frames[0], stream), frames[1..], stream)
  }

  /** A game is only created from the menu's 'Start Game' item, and it is a
      new game on level 1 with the character the menu has selected. */
  lemma GameStart(s: SessionData, f: Frame, stream: seq<int>)
    requires SessionOk(s) && s.game.None?
    ensures var r := Looped(s, f, stream);
      r.game.Some? ==>
        && MenuHandled(s.menu, f.events).1 == StartGame
        && !r.menu.characterSelect && r.menu.selected == START_ITEM
        && r.game.value == NewGame(r.menu.character, stream, s.cursor)
        && r.game.value.levelNum == 1 && r.game.value.character == r.menu.character
  {
    StartFromFirstItem(s.menu, f.events);
  }

  /** While a game is played the menu does not change, and the game is
      dropped exactly when it asked to return to the menu. */
  lemma MenuWaitsForGame(s: SessionData, f: Frame, stream: seq<int>)
    requires SessionOk(s) && s.game.Some?
    ensures var r := Looped(s, f, stream);
      && r.menu == s.menu
      && (r.game.None? <==> Handled(s.game.value, f.events, stream).0.returnToMenu)
  {
  }

  /** The loop stops only when the window is closed, or when 'Quit' is
      chosen on the menu. */
  lemma Stopping(s: SessionData, f: Frame, stream: seq<int>)
    requires SessionOk(s) && s.running
    ensures var r := Looped(s, f, stream);
      !r.running <==>
        || (s.game.Some? && Quit in f.events)
        || (s.game.None? && MenuHandled(s.menu, f.events).1 == QuitGame)
    ensures var r := Looped(s, f, stream);
      !r.running && s.game.None? && Quit !in f.events ==>
        !r.menu.characterSelect && r.menu.selected == QUIT_ITEM
  {
    if s.game.Some? {
      HandledRunning(s.game.value, f.events, stream);
    } else {
      QuitFromMenu(s.menu, f.events);
    }
  }

  /** `main`, over a finite run of frames; `stream` stands for the generator. */
  method Run(stream: seq<int>, frames: seq<Frame>) returns (s: SessionData)
    ensures s == Played(NewSession(), frames, stream)
  {
    var rng := new Random(stream);
    var menu := new MainMenu();
    var game: Game? := null;
    var running := true;
    var i := 0;
    while i < |frames| && running
      invariant 0 <= i <= |frames|
      invariant fresh(rng) && fresh(menu) && rng.stream == stream && MenuOk(menu.Data())
      invariant game != null ==> && fresh(game) && fresh(game.player) && fresh(game.camera)
                                  && fresh(game.level) && fresh(game.level.enemies)
                                  && game.rng == rng && game.Valid()
      invariant Played(Snapshot(menu, game, running, rng), frames[i..], stream) == Played(NewSession(), frames, stream)
      decreases |frames| - i
    {
      ghost var s0 := Snapshot(menu, game, running, rng);
      if game == null {
        game, running := MenuFrame(menu, rng, frames[i]);
      } else {
        var keep;
        running, keep := GameFrame(game, frames[i]);
        if !keep {
          game := null;
        }
      }
      assert Snapshot(menu, game, running, rng) == Looped(s0, frames[i], stream);
      PlayedStep(s0, frames, i, stream);
      i := i + 1;
    }
    s := Snapshot(menu, game, running, rng);
  }

  /** One more pass of the loop over the remaining frames. */
  lemma PlayedStep(s: SessionData, frames: seq<Frame>, i: nat, stream: seq<int>)
    requires SessionOk(s) && s.running && i < |frames|
    ensures Played(s, frames[i..], stream) == Played(Looped(s, frames[i], stream), frames[i + 1..], stream)
  {
    assert frames[i..][1..] == frames[i + 1..];
  }

  /** The variables of `main` as a value. */
  function Snapshot(menu: MainMenu, game: Game?, running: bool, rng: Random): SessionData
    reads menu, rng, game
    reads if game == null then {} else {game.player, game.camera, game.level, game.rng}
    reads if game == null then [] else game.level.enemies
  {
    SessionData(menu.Data(), if game == null then None else Some(game.Data()), running, rng.cursor)
  }

  /** A pass on the menu: its events, then quitting or starting a game. */
  method MenuFrame(menu: MainMenu, rng: Random, f: Frame) returns (game: Game?, running: bool)
    requires MenuOk(menu.Data())
    modifies menu, rng
    ensures MenuOk(menu.Data())
    ensures game != null ==> && fresh(game) && fresh(game.player) && fresh(game.camera)
                              && fresh(game.level) && fresh(game.level.enemies)
                              && game.rng == rng && game.Valid()
    ensures Snapshot(menu, game, running, rng)
      == Looped(SessionData(old(menu.Data()), None, true, old(rng.cursor)), f, rng.stream)
  {
    ghost var m0 := menu.Data();
    var outcome := menu.HandleEvents(f.events);
    MenuHandledOk(m0, f.events);
    game, running := null, true;
    if outcome == QuitGame {
      running := false;
    } else if outcome == StartGame {
      game := Start(menu.character, rng);
    }
  }

  /** A pass in game mode: the events, then leaving for the menu or updating. */
  method GameFrame(game: Game, f: Frame) returns (running: bool, keep: bool)
    requires game.Valid()
    modifies game, game.player, game.camera, game.level, game.level.enemies, game.rng
    ensures game.Valid()
    ensures game.player == old(game.player) || fresh(game.player)
    ensures game.camera == old(game.camera) || fresh(game.camera)
    ensures game.level == old(game.level) || fresh(game.level)
    ensures forall i :: 0 <= i < |game.level.enemies| ==>
      game.level.enemies[i] in old(game.level.enemies) || fresh(game.level.enemies[i])
    ensures (game.Data(), keep, running) == GameLooped(old(game.Data()), f, game.rng.stream)
  {
    running := game.HandleEvents(f.events);
    ghost var mid := game.level.enemies;
    if game.level == old(game.level) {
      assert mid == old(game.level.enemies);
    }
    keep := !game.returnToMenu;
    if keep {
      game.Update(f.held);
    }
    assert forall i :: 0 <= i < |game.level.enemies| ==> game.level.enemies[i] in mid;
  }
}
