/**
  The whole-life calendar view: one row per year of the life expectancy, one
  cell per week, each cell filled according to how its year compares with the
  current age. The cell geometry is not modelled; a drawing is a grid of fills.
 */
module LifeGrid {
  import LifeData
  import LifeCalendar

  /**
    What a cell is filled with: the colour of the age group of a given age
    (the colour mapping itself is outside this model), the system fill colour,
    or nothing at all.
   */
  datatype Fill = AgeGroupColor(age: int) | SystemFill | NoFill

  /** The fill of the cell of year `yearIndex` and week `weekIndex`. */
  function CellFill(life: LifeData.Life, yearIndex: int, weekIndex: int): (f: Fill)
    ensures f == AgeGroupColor(yearIndex + 1) <==> yearIndex + 1 < life.age
    ensures f == SystemFill <==> yearIndex + 1 > life.age
    ensures f == NoFill <==> yearIndex + 1 == life.age
  {
    var currentYear := yearIndex + 1;
    if currentYear < life.age then AgeGroupColor(currentYear)
    else if currentYear > life.age then SystemFill
    else NoFill
  }

  /** All cells of a row share one fill: the week never matters. */
  lemma RowUniform(life: LifeData.Life, yearIndex: int, w1: int, w2: int)
    ensures CellFill(life, yearIndex, w1) == CellFill(life, yearIndex, w2)
  {
  }

  /** At most one row is left unfilled. */
  lemma AtMostOneUnfilledRow(life: LifeData.Life, y1: int, y2: int)
    requires CellFill(life, y1, 0) == NoFill && CellFill(life, y2, 0) == NoFill
    ensures y1 == y2
  {
  }

  /**
    Draws the life calendar on a blank canvas: visits every week of every year
    of the life expectancy once, and fills those cells whose fill is not
    `NoFill`. `fillCalls` counts the fill operations issued.
   */
  method DrawLifeCalendar(life: LifeData.Life) returns (canvas: array2<Fill>, fillCalls: nat)
    requires life.lifeExpectancy >= 0
    ensures fresh(canvas)
    ensures canvas.Length0 == life.lifeExpectancy && canvas.Length1 == LifeData.TotalWeeksInAYear
    ensures forall y, w :: 0 <= y < canvas.Length0 && 0 <= w < canvas.Length1 ==>
              canvas[y, w] == CellFill(life, y, w)
    ensures fillCalls == LifeData.TotalWeeksInAYear * (life.lifeExpectancy - CountRows(life, life.lifeExpectancy, Unfilled))
  {
    var rows, weeks := life.lifeExpectancy, LifeData.TotalWeeksInAYear;
    canvas := new Fill[rows, weeks]((y, w) => NoFill);
    fillCalls := 0;
    var yearIndex := 0;
    while yearIndex < rows
      invariant 0 <= yearIndex <= rows
      invariant forall y, w :: 0 <= y < yearIndex && 0 <= w < weeks ==> canvas[y, w] == CellFill(life, y, w)
      invariant forall y, w :: yearIndex <= y < rows && 0 <= w < weeks ==> canvas[y, w] == NoFill
      invariant fillCalls == weeks * (yearIndex - CountRows(life, yearIndex, Unfilled))
    {
      var weekIndex := 0;
      while weekIndex < weeks
        invariant 0 <= weekIndex <= weeks
        invariant forall y, w :: 0 <= y < yearIndex && 0 <= w < weeks ==> canvas[y, w] == CellFill(life, y, w)
        invariant forall w :: 0 <= w < weekIndex ==> canvas[yearIndex, w] == CellFill(life, yearIndex, w)
        invariant forall y, w :: yearIndex <= y < rows && 0 <= w < weeks && (y != yearIndex || w >= weekIndex) ==>
                    canvas[y, w] == NoFill
        invariant fillCalls == weeks * (yearIndex - CountRows(life, yearIndex, Unfilled))
                               + (if yearIndex + 1 == life.age then 0 else weekIndex)
      {
        var currentYear := yearIndex + 1;
        if currentYear < life.age {
          canvas[yearIndex, weekIndex] := AgeGroupColor(currentYear);
          fillCalls := fillCalls + 1;
        } else if currentYear > life.age {
          canvas[yearIndex, weekIndex] := SystemFill;
          fillCalls := fillCalls + 1;
        }
        weekIndex := weekIndex + 1;
      }
      yearIndex := yearIndex + 1;
    }
  }

  /** The three outcomes a row can have. */
  datatype RowKind = AgeColored | Background | Unfilled

  function KindOf(f: Fill): RowKind
  {
    match f
    case AgeGroupColor(_) => AgeColored
    case SystemFill => Background
    case NoFill => Unfilled
  }

  /** The number of rows among the first `n` whose cells are of kind `k`. */
  function CountRows(life: LifeData.Life, n: nat, k: RowKind): (c: nat)
    ensures c <= n
  {
    if n == 0 then 0
    else CountRows(life, n - 1, k) + (if KindOf(CellFill(life, n - 1, 0)) == k then 1 else 0)
  }

  function Min(a: int, b: int): int { if a <= b then a else b }

  function Max(a: int, b: int): int { if a <= b then b else a }

  /** The rows before the current age are age-coloured: `min(max(age - 1, 0), n)` of them. */
  lemma {:induction false} AgeColoredRowCount(life: LifeData.Life, n: nat)
    ensures CountRows(life, n, AgeColored) == Min(Max(life.age - 1, 0), n)
  {
    if n > 0 {
      AgeColoredRowCount(life, n - 1);
    }
  }

  /** The rows after the current age get the background fill: `n - min(max(age, 0), n)` of them. */
  lemma {:induction false} BackgroundRowCount(life: LifeData.Life, n: nat)
    ensures CountRows(life, n, Background) == n - Min(Max(life.age, 0), n)
  {
    if n > 0 {
      BackgroundRowCount(life, n - 1);
    }
  }

  /** Exactly the row of the current age is unfilled, when it lies within the first `n` rows. */
  lemma {:induction false} UnfilledRowCount(life: LifeData.Life, n: nat)
    ensures CountRows(life, n, Unfilled) == if 1 <= life.age <= n then 1 else 0
  {
    if n > 0 {
      UnfilledRowCount(life, n - 1);
    }
  }

  /** Every row of the calendar has exactly one of the three outcomes. */
  lemma RowsPartition(life: LifeData.Life)
    requires life.lifeExpectancy >= 0
    ensures var n := life.lifeExpectancy;
            CountRows(life, n, AgeColored) + CountRows(life, n, Background) + CountRows(life, n, Unfilled) == n
  {
    AgeColoredRowCount(life, life.lifeExpectancy);
    BackgroundRowCount(life, life.lifeExpectancy);
    UnfilledRowCount(life, life.lifeExpectancy);
  }

  /** The canvas is shown in life mode and hidden in current-year mode. */
  function Opacity(t: LifeCalendar.CalendarType): (o: int)
    ensures o == 1 <==> t.Life?
    ensures o == 0 <==> t.CurrentYear?
  {
    if t.Life? then 1 else 0
  }

  /** An ease-in-out animation, its duration and its delay in milliseconds. */
  datatype Animation = EaseInOut(durationMs: nat, delayMs: nat)

  const AnimationDurationMs: nat := 400

  /** The animation of a mode change: delayed, so that the other mode fades out first, unless entering life mode. */
  function CalendarAnimation(t: LifeCalendar.CalendarType): (a: Animation)
    ensures a.durationMs == AnimationDurationMs
    ensures a.delayMs != 0 <==> !t.Life?
    ensures a.delayMs != 0 ==> a.delayMs == AnimationDurationMs
  {
    var animation := EaseInOut(AnimationDurationMs, 0);
    if !t.Life? then animation.(delayMs := AnimationDurationMs) else animation
  }
}
