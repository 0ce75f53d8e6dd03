/**
 * The QR code component: what it draws for a value, and the 25 × 25 fallback pattern it
 * paints module by module when the generated image cannot be had.
 *
 * The canvas is a grid of modules, `true` for dark; module `(i, j)` is the square at
 * column `i`, row `j`. Fetching the image from the QR service is the parameter `remote`.
 */
module QrCode {
  const Modules := 25

  /** The screen square of module `(i, j)` on a canvas `size` wide: modules are `size/25`
      wide and tile the canvas. */
  datatype Square = Square(x: real, y: real, side: real)

  function ModuleSquare(size: real, i: nat, j: nat): (s: Square)
    ensures s.side * Modules as real == size
    ensures s.x == i as real * s.side && s.y == j as real * s.side
  {
    var moduleSize := size / Modules as real;
    Square(i as real * moduleSize, j as real * moduleSize, moduleSize)
  }

  /** Adjacent modules meet, and the last one ends at the canvas edge. */
  lemma ModulesTile(size: real, i: nat, j: nat)
    ensures ModuleSquare(size, i + 1, j).x == ModuleSquare(size, i, j).x + ModuleSquare(size, i, j).side
    ensures ModuleSquare(size, 24, j).x + ModuleSquare(size, 24, j).side == size
  {
  }

  predicate Border(i: int, j: int)
  {
    i == 0 || i == 24 || j == 0 || j == 24
  }

  /** The diagonal stripes: every module whose coordinates sum to a multiple of 3. */
  predicate Stripe(i: int, j: int)
  {
    (i + j) % 3 == 0
  }

  /** The centre mark: the edge of the 5 × 5 block around (12, 12), and its middle. */
  predicate CentreMark(i: int, j: int)
  {
    10 <= i <= 14 && 10 <= j <= 14 && (i == 10 || i == 14 || j == 10 || j == 14 || (i == 12 && j == 12))
  }

  /** Whether module `(i, j)` of the fallback pattern is dark. */
  predicate FallbackModule(i: int, j: int)
  {
    Border(i, j) || Stripe(i, j) || CentreMark(i, j)
  }

  /** Inside the border, a module off the stripes and off the centre mark stays light: the
      white inner square is painted before any dark module. */
  lemma SomeModulesLight()
    ensures !FallbackModule(1, 1) && !FallbackModule(11, 12) && !FallbackModule(23, 23)
    ensures FallbackModule(12, 12) && FallbackModule(10, 11) && FallbackModule(0, 7)
  {
  }

  predicate Is25(grid: array2<bool>)
  {
    grid.Length0 == Modules && grid.Length1 == Modules
  }

  /** `fillRect` over whole modules: modules `x0 <= i < x1`, `y0 <= j < y1` take the fill
      colour, every other module keeps its own. */
  method FillModules(grid: array2<bool>, x0: nat, y0: nat, x1: nat, y1: nat, dark: bool)
    requires Is25(grid) && x0 <= x1 <= 25 && y0 <= y1 <= 25
    modifies grid
    ensures forall i, j :: 0 <= i < 25 && 0 <= j < 25 ==>
      grid[i, j] == if x0 <= i < x1 && y0 <= j < y1 then dark else old(grid[i, j])
  {
    for i := x0 to x1
      invariant forall a, b :: 0 <= a < 25 && 0 <= b < 25 ==>
        grid[a, b] == if x0 <= a < i && y0 <= b < y1 then dark else old(grid[a, b])
    {
      for j := y0 to y1
        invariant forall a, b :: 0 <= a < 25 && 0 <= b < 25 ==>
          grid[a, b] == if (x0 <= a < i && y0 <= b < y1) || (a == i && y0 <= b < j) then dark else old(grid[a, b])
      {
        grid[i, j] := dark;
      }
    }
  }

  /** The dark square over the whole canvas, then the white inner square over modules 1 to
      23: only the border is left dark. */
  method PaintFrame(grid: array2<bool>)
    requires Is25(grid)
    modifies grid
    ensures forall i, j :: 0 <= i < 25 && 0 <= j < 25 ==> grid[i, j] == Border(i, j)
  {
    FillModules(grid, 0, 0, 25, 25, true);
    FillModules(grid, 1, 1, 24, 24, false);
  }

  /** The stripe loop: it darkens each module on a stripe or on the border and leaves the
      others as they are. */
  method PaintStripes(grid: array2<bool>)
    requires Is25(grid)
    requires forall i, j :: 0 <= i < 25 && 0 <= j < 25 ==> grid[i, j] == Border(i, j)
    modifies grid
    ensures forall i, j :: 0 <= i < 25 && 0 <= j < 25 ==> grid[i, j] == (Border(i, j) || Stripe(i, j))
  {
    for i := 0 to 25
      invariant forall a, b :: 0 <= a < i && 0 <= b < 25 ==> grid[a, b] == (Border(a, b) || Stripe(a, b))
      invariant forall a, b :: i <= a < 25 && 0 <= b < 25 ==> grid[a, b] == Border(a, b)
    {
      for j := 0 to 25
        invariant forall a, b :: 0 <= a < i && 0 <= b < 25 ==> grid[a, b] == (Border(a, b) || Stripe(a, b))
        invariant forall a, b :: i < a < 25 && 0 <= b < 25 ==> grid[a, b] == Border(a, b)
        invariant forall b :: 0 <= b < j ==> grid[i, b] == (Border(i, b) || Stripe(i, b))
        invariant forall b :: j <= b < 25 ==> grid[i, b] == Border(i, b)
      {
        if (i + j) % 3 == 0 || i == 0 || i == 24 || j == 0 || j == 24 {
          grid[i, j] := true;
        }
      }
    }
  }

  /** The centre loop over the 5 × 5 block around (12, 12): it darkens the block's edge and
      its middle. */
  method PaintCentre(grid: array2<bool>)
    requires Is25(grid)
    requires forall i, j :: 0 <= i < 25 && 0 <= j < 25 ==> grid[i, j] == (Border(i, j) || Stripe(i, j))
    modifies grid
    ensures forall i, j :: 0 <= i < 25 && 0 <= j < 25 ==> grid[i, j] == FallbackModule(i, j)
  {
    var center := 25 / 2;
    for i := center - 2 to center + 3
      invariant forall a, b :: 0 <= a < 25 && 0 <= b < 25 ==>
        grid[a, b] == (Border(a, b) || Stripe(a, b) || (a < i && CentreMark(a, b)))
    {
      for j := center - 2 to center + 3
        invariant forall a, b :: 0 <= a < 25 && 0 <= b < 25 ==>
          grid[a, b] == (Border(a, b) || Stripe(a, b) || ((a < i || (a == i && b < j)) && CentreMark(a, b)))
      {
        if i == center - 2 || i == center + 2 || j == center - 2 || j == center + 2 || (i == center && j == center) {
          grid[i, j] := true;
        }
      }
    }
  }

  /** `drawFallbackQR`: the same pattern whatever the value. */
  method DrawFallback(grid: array2<bool>)
    requires Is25(grid)
    modifies grid
    ensures forall i, j :: 0 <= i < 25 && 0 <= j < 25 ==> grid[i, j] == FallbackModule(i, j)
  {
    PaintFrame(grid);
    PaintStripes(grid);
    PaintCentre(grid);
  }

  /** How the request for the generated image ends. */
  datatype Remote = Loaded | LoadFailed | Threw

  datatype Drawn = NothingDrawn | RemoteImage | FallbackPattern

  /** What the canvas shows: nothing for an empty value or without a canvas and context;
      otherwise the generated image, or the fallback when loading it fails or throws. */
  function Outcome(value: string, hasContext: bool, remote: Remote): (d: Drawn)
    ensures value == "" || !hasContext ==> d == NothingDrawn
    ensures d == RemoteImage <==> value != "" && hasContext && remote == Loaded
    ensures d == FallbackPattern <==> value != "" && hasContext && remote != Loaded
  {
    if value == "" || !hasContext then NothingDrawn
    else if remote == Loaded then RemoteImage
    else FallbackPattern
  }

  /** The component's effect: the grid holds the fallback pattern when the fallback is
      drawn; a loaded image first clears the whole canvas (`clearRect`), so no module of an
      earlier pattern stays dark; with nothing drawn the grid is untouched. */
  method Render(value: string, hasContext: bool, remote: Remote, grid: array2<bool>) returns (d: Drawn)
    requires Is25(grid)
    modifies grid
    ensures d == Outcome(value, hasContext, remote)
    ensures d == FallbackPattern ==> forall i, j :: 0 <= i < 25 && 0 <= j < 25 ==> grid[i, j] == FallbackModule(i, j)
    ensures d == RemoteImage ==> forall i, j :: 0 <= i < 25 && 0 <= j < 25 ==> !grid[i, j]
    ensures d == NothingDrawn ==> unchanged(grid)
  {
    if value == "" || !hasContext {
      return NothingDrawn;
    }
    if remote == Loaded {
      FillModules(grid, 0, 0, 25, 25, false);
      return RemoteImage;
    }
    DrawFallback(grid);
    d := FallbackPattern;
  }
}
