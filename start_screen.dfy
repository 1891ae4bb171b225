/**
 * The player-colour setup screen (src/StartScreen.tsx): a list of colours
 * and an error message, changed by the screen's handlers, and the check that
 * lets the game start.
 */
module StartScreen {
  import opened Options

  const DuplicateColorsError: string := "All players must have different colors"
  const TooFewPlayersError: string := "Minimum 2 players required"
  const NewPlayerColor: string := "#000000"

  /** No colour occurs twice. */
  predicate Distinct(colors: seq<string>) {
    forall i, j :: 0 <= i < j < |colors| ==> colors[i] != colors[j]
  }

  /** `new Set(colors)`. */
  function ColorSet(colors: seq<string>): set<string> {
    set i | 0 <= i < |colors| :: colors[i]
  }

  /**
   * `new Set(colors).size !== colors.length`: the test the screen uses for
   * duplicates, which holds exactly when two players share a colour.
   */
  predicate HasDuplicates(colors: seq<string>)
    ensures HasDuplicates(colors) <==> !Distinct(colors)
  {
    ColorSetSize(colors);
    |ColorSet(colors)| != |colors|
  }

  /** The set of a list is its prefix's set plus its last element. */
  lemma ColorSetSnoc(colors: seq<string>)
    requires colors != []
    ensures ColorSet(colors) == ColorSet(colors[..|colors| - 1]) + {colors[|colors| - 1]}
  {
  }

  /** A list has at least as many entries as distinct colours, with equality exactly when none repeats. */
  lemma {:induction false} ColorSetSize(colors: seq<string>)
    ensures |ColorSet(colors)| <= |colors|
    ensures |ColorSet(colors)| == |colors| <==> Distinct(colors)
  {
    if colors != [] {
      var init, last := colors[..|colors| - 1], colors[|colors| - 1];
      ColorSetSize(init);
      ColorSetSnoc(colors);
      if last in ColorSet(init) {
        var i :| 0 <= i < |init| && init[i] == last;
        assert colors[i] == colors[|colors| - 1];
        assert !Distinct(colors);
      } else {
        if Distinct(init) {
          forall i, j | 0 <= i < j < |colors|
            ensures colors[i] != colors[j]
          {
            if j == |colors| - 1 {
              assert init[i] in ColorSet(init);
            } else {
              assert init[i] != init[j];
            }
          }
        } else {
          var i, j :| 0 <= i < j < |init| && init[i] == init[j];
          assert colors[i] == colors[j];
        }
      }
    }
  }

  /** `validateColors`: the error text the screen shows for a list of colours. */
  function ValidationError(colors: seq<string>): (error: string)
    ensures error == DuplicateColorsError <==> !Distinct(colors)
    ensures error == "" <==> Distinct(colors)
  {
    if HasDuplicates(colors) then DuplicateColorsError else ""
  }

  /** The screen's state: the players' colours and the error message under them. */
  class ColorSetup {
    var colors: seq<string>
    var error: string

    /** There are never fewer than two players. */
    predicate Valid()
      reads this
    {
      |colors| >= 2
    }

    /** The screen opens with red and blue and no error. */
    constructor ()
      ensures Valid() && Distinct(colors)
      ensures colors == ["#ff0000", "#0000ff"] && error == ""
    {
      colors := ["#ff0000", "#0000ff"];
      error := "";
    }

    /**
     * `handleColorChange`: only the entry at `index` changes, and the error is
     * revalidated against the new list.
     */
    method ChangeColor(index: nat, color: string)
      requires Valid()
      requires index < |colors|
      modifies this
      ensures Valid()
      ensures |colors| == |old(colors)|
      ensures colors[index] == color
      ensures forall i :: 0 <= i < |colors| && i != index ==> colors[i] == old(colors)[i]
      ensures error == ValidationError(colors)
    {
      var newColors := colors;
      newColors := newColors[index := color];
      colors := newColors;
      error := ValidationError(newColors);
    }

    /** `handleAddPlayer`: a black player joins at the end; the error is left as it was. */
    method AddPlayer()
      requires Valid()
      modifies this
      ensures Valid()
      ensures colors == old(colors) + [NewPlayerColor]
      ensures error == old(error)
    {
      colors := colors + [NewPlayerColor];
    }

    /**
     * `handleRemovePlayer`: refused with an error at two players or fewer;
     * otherwise the entry at `index` leaves (nothing does when `index` is out of
     * range, as with `filter`), the others keep their order, and the error is
     * revalidated.
     */
    method RemovePlayer(index: int)
      requires Valid()
      modifies this
      ensures Valid()
      ensures |old(colors)| <= 2 ==> colors == old(colors) && error == TooFewPlayersError
      ensures |old(colors)| > 2 ==>
        && colors == (if 0 <= index < |old(colors)| then old(colors)[..index] + old(colors)[index + 1..] else old(colors))
        && error == ValidationError(colors)
    {
      if |colors| <= 2 {
        error := TooFewPlayersError;
        return;
      }
      // colors.filter((_, i) => i !== index)
      var newColors: seq<string> := [];
      for i := 0 to |colors|
        invariant newColors == (if 0 <= index < i then colors[..index] + colors[index + 1..i] else colors[..i])
      {
        if i != index {
          if 0 <= index < i {
            assert colors[index + 1..i + 1] == colors[index + 1..i] + [colors[i]];
          } else {
            assert colors[..i + 1] == colors[..i] + [colors[i]];
          }
          newColors := newColors + [colors[i]];
        } else {
          assert colors[index + 1..i + 1] == [];
        }
      }
      assert colors[..|colors|] == colors;
      colors := newColors;
      error := ValidationError(newColors);
    }

    /**
     * `handleStart`: the game starts with the current colours (the result is
     * what `onStart` receives) only when there are at least two players and no
     * colour repeats; otherwise the matching error is shown. The colours never
     * change.
     */
    method Start() returns (started: Option<seq<string>>)
      modifies this
      ensures colors == old(colors)
      ensures started.Some? <==> |colors| >= 2 && Distinct(colors)
      ensures started.Some? ==> started.value == colors && error == old(error)
      ensures |colors| < 2 ==> error == TooFewPlayersError
      ensures |colors| >= 2 && !Distinct(colors) ==> error == DuplicateColorsError
    {
      if |colors| < 2 {
        error := TooFewPlayersError;
        return None;
      }
        if HasDuplicates(colors) {
        error := DuplicateColorsError;
        return None;
      }
      started := Some(colors);
    }
  }
}
