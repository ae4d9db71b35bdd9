/** The title menu: three items, and a character-select screen choosing
    between the two playable characters. */
module Menus {
  import opened Input

  /** 'Start Game', 'Select Character', 'Quit'. */
  const MENU_ITEMS: int := 3
  const START_ITEM: int := 0
  const SELECT_ITEM: int := 1
  const QUIT_ITEM: int := 2

  /** The highlighted item, whether the character-select screen is shown,
      and the chosen character (1 or 2). */
  datatype MenuData = MenuData(selected: int, characterSelect: bool, character: int)

  /** What `MainMenu.handle_events` answers: nothing, 'start' or 'quit'. */
  datatype Outcome = Stay | StartGame | QuitGame

  /** `MainMenu()`: the first item highlighted, character 1. */
  function NewMenu(): (m: MenuData)
    ensures MenuOk(m) && m.selected == START_ITEM && !m.characterSelect
  {
    MenuData(START_ITEM, false, 1)
  }

  /** The highlighted item is one of the three and the character is 1 or 2. */
  predicate MenuOk(m: MenuData) {
    0 <= m.selected < MENU_ITEMS && (m.character == 1 || m.character == 2)
  }

  /** One key going down. On the character-select screen Left and Right pick
      a character and Return or Escape go back; on the item list Up and Down
      move the highlight round the three items (Python's `%` with a positive
      modulus, which Dafny's `%` agrees with) and Return activates it. */
  function MenuKey(m: MenuData, k: Key): (MenuData, Outcome) {
    if m.characterSelect then
      match k
      case Left => (m.(character := 1), Stay)
      case Right => (m.(character := 2), Stay)
      case Return => (m.(characterSelect := false), Stay)
      case Escape => (m.(characterSelect := false), Stay)
      case _ => (m, Stay)
    else
      match k
      case Up => (m.(selected := (m.selected - 1) % MENU_ITEMS), Stay)
      case Down => (m.(selected := (m.selected + 1) % MENU_ITEMS), Stay)
      case Return =>
        if m.selected == START_ITEM then (m, StartGame)
        else if m.selected == SELECT_ITEM then (m.(characterSelect := true), Stay)
        else if m.selected == QUIT_ITEM then (m, QuitGame)
        else (m, Stay)
      case _ => (m, Stay)
  }

  /** `MainMenu.handle_events`: the events in order, up to the first that
      closes the window or that starts or quits from the menu. */
  function MenuHandled(m: MenuData, events: seq<Event>): (MenuData, Outcome)
    decreases |events|
  {
    if events == [] then (m, Stay)
    else match events[0]
      case Quit => (m, QuitGame)
      case KeyDown(k) =>
        var r := MenuKey(m, k);
        if r.1 != Stay then r else MenuHandled(r.0, events[1..])
      case OtherEvent => MenuHandled(m, events[1..])
  }

  /** Every key keeps the highlight on one of the three items and the
      character at 1 or 2. */
  lemma MenuKeyOk(m: MenuData, k: Key)
    requires MenuOk(m)
    ensures MenuOk(MenuKey(m, k).0)
  {
  }

  lemma {:induction false} MenuHandledOk(m: MenuData, events: seq<Event>)
    requires MenuOk(m)
    ensures MenuOk(MenuHandled(m, events).0)
    decreases |events|
  {
    if events != [] {
      match events[0]
      case Quit =>
      case KeyDown(k) =>
        MenuKeyOk(m, k);
        MenuHandledOk(MenuKey(m, k).0, events[1..]);
      case OtherEvent =>
        MenuHandledOk(m, events[1..]);
    }
  }

  /** Down undoes Up and Up undoes Down on the item list. */
  lemma UpDownInverse(m: MenuData)
    requires MenuOk(m) && !m.characterSelect
    ensures MenuKey(MenuKey(m, Up).0, Down).0 == m
    ensures MenuKey(MenuKey(m, Down).0, Up).0 == m
  {
  }

  /** Three presses of Down come back to the same item. */
  lemma DownCycles(m: MenuData)
    requires MenuOk(m) && !m.characterSelect
    ensures MenuKey(MenuKey(MenuKey(m, Down).0, Down).0, Down).0 == m
  {
  }

  /** On the item list Down moves to the next item and wraps from 'Quit' to
      'Start Game', Up moves back and wraps the other way, and Return on
      'Select Character' opens the character screen; on that screen Return
      and Escape close it and keep the character. */
  lemma MenuNavigation(m: MenuData)
    requires MenuOk(m)
    ensures !m.characterSelect ==>
      MenuKey(m, Down) == (m.(selected := if m.selected == QUIT_ITEM then START_ITEM else m.selected + 1), Stay)
    ensures !m.characterSelect ==>
      MenuKey(m, Up) == (m.(selected := if m.selected == START_ITEM then QUIT_ITEM else m.selected - 1), Stay)
    ensures !m.characterSelect && m.selected == SELECT_ITEM ==>
      MenuKey(m, Return) == (m.(characterSelect := true), Stay)
    ensures m.characterSelect ==> MenuKey(m, Return) == (m.(characterSelect := false), Stay)
    ensures m.characterSelect ==> MenuKey(m, Escape) == (m.(characterSelect := false), Stay)
  {
  }

  /** A key starts the game exactly when it is Return on 'Start Game', and
      quits exactly when it is Return on 'Quit'; neither changes the menu. */
  lemma MenuKeyOutcome(m: MenuData, k: Key)
    requires MenuOk(m)
    ensures MenuKey(m, k).1 == StartGame <==> !m.characterSelect && k == Return && m.selected == START_ITEM
    ensures MenuKey(m, k).1 == QuitGame <==> !m.characterSelect && k == Return && m.selected == QUIT_ITEM
    ensures MenuKey(m, k).1 != Stay ==> MenuKey(m, k).0 == m
  {
  }

  /** The character can only change on the character-select screen, and
      only to the one Left or Right names. */
  lemma CharacterChoice(m: MenuData, k: Key)
    ensures var r := MenuKey(m, k).0;
      r.character != m.character ==> m.characterSelect && (k == Left || k == Right)
    ensures m.characterSelect && k == Left ==> MenuKey(m, k).0.character == 1
    ensures m.characterSelect && k == Right ==> MenuKey(m, k).0.character == 2
  {
  }

  /** A game is only ever started from 'Start Game' on the item list, with
      the character chosen so far. */
  lemma {:induction false} StartFromFirstItem(m: MenuData, events: seq<Event>)
    requires MenuOk(m)
    ensures var r := MenuHandled(m, events);
      r.1 == StartGame ==> !r.0.characterSelect && r.0.selected == START_ITEM && MenuOk(r.0)
    decreases |events|
  {
    if events != [] {
      match events[0]
      case Quit =>
      case KeyDown(k) =>
        MenuKeyOutcome(m, k);
        MenuKeyOk(m, k);
        StartFromFirstItem(MenuKey(m, k).0, events[1..]);
      case OtherEvent =>
        StartFromFirstItem(m, events[1..]);
    }
  }

  /** The menu answers 'quit' only when the window is closed or when Return
      is pressed with 'Quit' highlighted on the item list. */
  lemma {:induction false} QuitFromMenu(m: MenuData, events: seq<Event>)
    requires MenuOk(m)
    ensures var r := MenuHandled(m, events);
      r.1 == QuitGame ==> Quit in events || (KeyDown(Return) in events && !r.0.characterSelect && r.0.selected == QUIT_ITEM)
    decreases |events|
  {
    if events != [] {
      assert events == [events[0]] + events[1..];
      match events[0]
      case Quit =>
      case KeyDown(k) =>
        MenuKeyOutcome(m, k);
        MenuKeyOk(m, k);
        QuitFromMenu(MenuKey(m, k).0, events[1..]);
      case OtherEvent =>
        QuitFromMenu(m, events[1..]);
    }
  }

  class MainMenu {
    var selected: int
    var characterSelect: bool
    var character: int

    function Data(): MenuData
      reads this
    {
      MenuData(selected, characterSelect, character)
    }

    constructor ()
      ensures Data() == NewMenu()
    {
      selected := START_ITEM;
      characterSelect := false;
      character := 1;
    }

    /** One `KEYDOWN` event of `MainMenu.handle_events`. */
    method Press(k: Key) returns (outcome: Outcome)
      modifies this
      ensures (Data(), outcome) == MenuKey(old(Data()), k)
    {
      outcome := Stay;
      if characterSelect {
        match k {
          case Left => character := 1;
          case Right => character := 2;
          case Return => characterSelect := false;
          case Escape => characterSelect := false;
          case _ =>
        }
      } else {
        match k {
          case Up => selected := (selected - 1) % MENU_ITEMS;
          case Down => selected := (selected + 1) % MENU_ITEMS;
          case Return =>
            if selected == START_ITEM {
              outcome := StartGame;
            } else if selected == SELECT_ITEM {
              characterSelect := true;
            } else if selected == QUIT_ITEM {
              outcome := QuitGame;
            }
          case _ =>
        }
      }
    }

    /** `MainMenu.handle_events`. */
    method HandleEvents(events: seq<Event>) returns (outcome: Outcome)
      modifies this
      ensures (Data(), outcome) == MenuHandled(old(Data()), events)
    {
      var i := 0;
      while i < |events|
        invariant 0 <= i <= |events|
        invariant MenuHandled(Data(), events[i..]) == MenuHandled(old(Data()), events)
      {
        assert events[i..][1..] == events[i + 1..];
        match events[i] {
          case Quit => return QuitGame;
          case KeyDown(k) =>
            outcome := Press(k);
            if outcome != Stay {
              return;
            }
          case OtherEvent =>
        }
        i := i + 1;
      }
      return Stay;
    }
  }
}
