/**
 * The rules the creative layout adds to the shared helpers: the name printed as a first
 * word and the rest, and the alternating tilt of the link tiles.
 */
module CreativeLayout {
  import opened Strings

  /** `name.split(" ")[0]`. */
  function FirstName(name: string): (first: string)
    ensures ' ' !in first
  {
    SplitPartsLackSeparator(name, ' ');
    Split(name, ' ')[0]
  }

  /** `name.split(" ").slice(1).join(" ")`. */
  function RestName(name: string): string
  {
    Join(Split(name, ' ')[1..], ' ')
  }

  /** The two lines give the name back: with a space, first word, one space and the rest
      are the whole name; without one, the first line is the whole name and the second is
      empty. */
  lemma {:induction false} NameRejoins(name: string)
    ensures ' ' in name ==> FirstName(name) + " " + RestName(name) == name
    ensures ' ' !in name ==> FirstName(name) == name && RestName(name) == ""
  {
    var parts := Split(name, ' ');
    JoinSplit(name, ' ');
    SplitManyIffSeparator(name, ' ');
    if ' ' in name {
      assert Join(parts, ' ') == parts[0] + [' '] + Join(parts[1..], ' ');
    } else {
      SplitWithoutSeparator(name, ' ');
      assert parts[1..] == [];
    }
  }

  /** The tilt of the tile at `index`, in degrees: `((index % 4) - 1.5) * 5`. */
  function TileTilt(index: nat): real
  {
    ((index % 4) as real - 1.5) * 5.0
  }

  /** The tilt cycles through -7.5, -2.5, 2.5 and 7.5 with period 4. */
  lemma TiltCycles(index: nat)
    ensures TileTilt(index) == [-7.5, -2.5, 2.5, 7.5][index % 4]
    ensures TileTilt(index + 4) == TileTilt(index)
  {
    assert (index + 4) % 4 == index % 4;
  }

  /** Four consecutive tiles take each tilt once, so the tilts cancel out. */
  lemma {:induction false} TiltsBalance(index: nat)
    ensures TileTilt(index) + TileTilt(index + 1) + TileTilt(index + 2) + TileTilt(index + 3) == 0.0
  {
    TiltCycles(index);
    TiltCycles(index + 1);
    TiltCycles(index + 2);
    TiltCycles(index + 3);
    var m := index % 4;
    assert (index + 1) % 4 == (m + 1) % 4;
    assert (index + 2) % 4 == (m + 2) % 4;
    assert (index + 3) % 4 == (m + 3) % 4;
  }
}
