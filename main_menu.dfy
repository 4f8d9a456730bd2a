/** The main menu's selection and dispatch (src/views/main_menu.rs). */
module MainMenu {
  import Input
  import Phi
  import Shared

  /** The menu entries; each stands for the boxed closure the entry runs. */
  datatype MenuAction = NewGame | QuitGame

  /** Running an entry: "New Game" opens a game over the carried
      backgrounds, "Quit" quits. */
  function Perform(a: MenuAction, bg: Shared.BgSet): (r: Phi.ViewAction<Shared.NextView>)
    ensures r.ChangeView? <==> a == NewGame
    ensures r.ChangeView? ==> r.view == Shared.GameWith(bg)
    ensures r == Phi.Quit <==> a == QuitGame
  {
    match a
    case NewGame => Phi.ChangeView(Shared.GameWith(bg))
    case QuitGame => Phi.Quit
  }

  /** The selection after the Up edge (decrement, wrapping below 0 to the
      last entry) and then the Down edge (increment, wrapping at `len` to
      0). A valid index stays valid, so the lookup of the chosen entry is
      always in bounds. */
  function Navigate(selected: int, len: int, up: bool, down: bool): (r: int)
    ensures 0 <= selected < len ==> 0 <= r < len
  {
    var afterUp := if up then (if selected - 1 < 0 then len - 1 else selected - 1) else selected;
    if down then (if afterUp + 1 >= len then 0 else afterUp + 1) else afterUp
  }

  /** `i8` holds the selection, so a menu has at most 127 entries. */
  const MaxEntries: nat := 127

  class MainMenuView {
    var actions: seq<MenuAction>
    var selected: int
    var bg: Shared.BgSet

    ghost predicate Valid()
      reads this
    {
      1 <= |actions| <= MaxEntries && 0 <= selected < |actions|
    }

    /** `MainMenuView::with_backgrounds`: two entries, the top one selected. */
    constructor WithBackgrounds(bg: Shared.BgSet)
      ensures actions == [NewGame, QuitGame] && selected == 0 && this.bg == bg
      ensures Valid()
    {
      actions := [NewGame, QuitGame];
      selected := 0;
      this.bg := bg;
    }

    /** The logic of `MainMenuView::render`, with its early returns. */
    method Render(now: Input.Immediate) returns (action: Phi.ViewAction<Shared.NextView>)
      modifies this
      requires Valid()
      ensures Valid() && actions == old(actions) && bg == old(bg)
      ensures now.quit || now.Pressed(Input.Escape) ==>
        action == Phi.Quit && selected == old(selected)
      ensures !(now.quit || now.Pressed(Input.Escape)) && (now.Pressed(Input.Space) || now.Pressed(Input.Enter)) ==>
        action == Perform(actions[old(selected)], bg) && selected == old(selected)
      ensures !(now.quit || now.Pressed(Input.Escape)) && !(now.Pressed(Input.Space) || now.Pressed(Input.Enter)) ==>
        action == Phi.None
        && selected == Navigate(old(selected), |actions|, now.Pressed(Input.Up), now.Pressed(Input.Down))
    {
      if now.quit || now.Pressed(Input.Escape) {
        return Phi.Quit;
      }
      if now.Pressed(Input.Space) || now.Pressed(Input.Enter) {
        return Perform(actions[selected], bg);
      }
      if now.Pressed(Input.Up) {
        selected := selected - 1;
        if selected < 0 {
          selected := |actions| - 1;
        }
      }
      if now.Pressed(Input.Down) {
        selected := selected + 1;
        if selected >= |actions| {
          selected := 0;
        }
      }
      action := Phi.None;
    }
  }

  // ---------------------------------------------------------------------

  /** Up and Down is modular stepping through the entries. */
  lemma NavigateIsModular(selected: int, len: int)
    requires 0 <= selected < len
    ensures Navigate(selected, len, true, false) == (selected - 1) % len
    ensures Navigate(selected, len, false, true) == (selected + 1) % len
  {
    if selected == 0 {
      assert (selected - 1) % len == len - 1 by {
        assert -1 == (-1) * len + (len - 1);
      }
    }
    if selected + 1 == len {
      assert (selected + 1) % len == 0;
    }
  }

  /** Up and Down in the same pump cancel out. */
  lemma UpDownCancel(selected: int, len: int)
    requires 0 <= selected < len
    ensures Navigate(selected, len, true, true) == selected
  {
  }

  /** Neither edge leaves the selection alone. */
  lemma NavigateIdle(selected: int, len: int)
    ensures Navigate(selected, len, false, false) == selected
  {
  }

  /** The starting menu: "New Game" is selected, entry 0 opens a game over
      the carried backgrounds and entry 1 quits. */
  lemma InitialMenu(bg: Shared.BgSet)
    ensures Perform([NewGame, QuitGame][0], bg) == Phi.ChangeView(Shared.GameWith(bg))
    ensures Perform([NewGame, QuitGame][1], bg) == Phi.Quit
    ensures Navigate(0, 2, true, false) == 1 && Navigate(1, 2, false, true) == 0
  {
  }
}
