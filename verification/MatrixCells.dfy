/** The cells of a benchmark matrix: scenario by model by thinking level by repetition, numbered in mixed radix. */
module MatrixCells {
  import opened Base
  import opened Keys

  datatype ModelRef = ModelRef(modelId: string, provider: int)

  datatype Config = Config(scenarioIds: seq<string>, skillIds: seq<string>, models: seq<ModelRef>,
                           thinkingLevels: Option<seq<string>>, repetitions: int, concurrency: Option<int>)

  datatype Cell = Cell(cellId: string, scenarioId: string, skillIds: seq<string>, modelId: string, provider: int,
                       thinkingLevel: Option<string>, repetitionIndex: nat)

  function Repetitions(c: Config): nat {
    if c.repetitions < 1 then 1 else c.repetitions
  }

  function Levels(c: Config): (levels: seq<Option<string>>)
    ensures |levels| >= 1
  {
    if c.thinkingLevels.Some? && |c.thinkingLevels.value| > 0
    then seq(|c.thinkingLevels.value|, i requires 0 <= i < |c.thinkingLevels.value| => Some(c.thinkingLevels.value[i]))
    else [None]
  }

  datatype Coordinates = Coordinates(scenario: nat, model: nat, level: nat, repetition: nat)

  /** The lengths of the four axes. */
  datatype Axes = Axes(scenarios: nat, models: nat, levels: nat, repetitions: nat)

  function AxesOf(c: Config): Axes {
    Axes(|c.scenarioIds|, |c.models|, |Levels(c)|, Repetitions(c))
  }

  predicate Inside(p: Coordinates, x: Axes) {
    p.scenario < x.scenarios && p.model < x.models && p.level < x.levels && p.repetition < x.repetitions
  }

  function Size(x: Axes): nat {
    x.scenarios * x.models * x.levels * x.repetitions
  }

  function Index(p: Coordinates, x: Axes): nat {
    ((p.scenario * x.models + p.model) * x.levels + p.level) * x.repetitions + p.repetition
  }

  function At(i: nat, x: Axes): Coordinates
    requires x.models > 0 && x.levels > 0 && x.repetitions > 0
  {
    var q := i / x.repetitions;
    var r := q / x.levels;
    Coordinates(r / x.models, r % x.models, q % x.levels, i % x.repetitions)
  }

  lemma DivModOf(q: nat, d: nat, r: nat)
    requires r < d
    ensures (q * d + r) / d == q && (q * d + r) % d == r
  {
    assert (q * d + r) - q * d == r;
    if (q * d + r) / d < q {
      MulMonotone((q * d + r) / d + 1, q, d);
    } else if (q * d + r) / d > q {
      MulMonotone(q + 1, (q * d + r) / d, d);
    }
  }

  lemma MulMonotone(a: nat, b: nat, d: nat)
    requires a <= b
    ensures a * d <= b * d
  {
  }

  lemma DigitBound(q: nat, limit: nat, d: nat, r: nat)
    requires q < limit && r < d
    ensures q * d + r < limit * d
  {
    MulMonotone(q + 1, limit, d);
    assert (q + 1) * d == q * d + d;
  }

  /** Cell numbers and coordinates are in bijection: decoding undoes encoding ... */
  lemma AtIndex(p: Coordinates, x: Axes)
    requires Inside(p, x)
    ensures Index(p, x) < Size(x) && At(Index(p, x), x) == p
  {
    var r := p.scenario * x.models + p.model;
    var q := r * x.levels + p.level;
    DivModOf(p.scenario, x.models, p.model);
    DivModOf(r, x.levels, p.level);
    DivModOf(q, x.repetitions, p.repetition);
    DigitBound(p.scenario, x.scenarios, x.models, p.model);
    DigitBound(r, x.scenarios * x.models, x.levels, p.level);
    DigitBound(q, x.scenarios * x.models * x.levels, x.repetitions, p.repetition);
  }

  lemma QuotientBound(i: nat, limit: nat, d: nat)
    requires d > 0 && i < limit * d
    ensures i / d < limit && i == (i / d) * d + i % d && i % d < d
  {
    if i / d >= limit {
      MulMonotone(limit, i / d, d);
    }
  }

  /** ... and encoding undoes decoding. */
  lemma IndexAt(i: nat, x: Axes)
    requires x.models > 0 && x.levels > 0 && x.repetitions > 0 && i < Size(x)
    ensures Inside(At(i, x), x) && Index(At(i, x), x) == i
  {
    var q := i / x.repetitions;
    var r := q / x.levels;
    QuotientBound(i, x.scenarios * x.models * x.levels, x.repetitions);
    QuotientBound(q, x.scenarios * x.models, x.levels);
    QuotientBound(r, x.scenarios, x.models);
  }

  /** What the runner does with one combination. */
  function CellFor(c: Config, p: Coordinates): Cell
    requires Inside(p, AxesOf(c))
  {
    var scenarioId, model, level := c.scenarioIds[p.scenario], c.models[p.model], Levels(c)[p.level];
    var suffix := if level.Some? then "-th_" + level.value else "";
    Cell(scenarioId + "-" + model.modelId + suffix + "-r" + Decimal(p.repetition),
         scenarioId, c.skillIds, model.modelId, model.provider, level, p.repetition)
  }

  /** The first cells are those of the coordinates they encode. */
  ghost predicate Numbered(c: Config, cells: seq<Cell>) {
    forall p :: Inside(p, AxesOf(c)) && Index(p, AxesOf(c)) < |cells| ==> cells[Index(p, AxesOf(c))] == CellFor(c, p)
  }

  lemma PushNumbered(c: Config, cells: seq<Cell>, p: Coordinates)
    requires Numbered(c, cells) && Inside(p, AxesOf(c)) && |cells| == Index(p, AxesOf(c))
    ensures Numbered(c, cells + [CellFor(c, p)])
  {
    var x := AxesOf(c);
    forall o | Inside(o, x) && Index(o, x) < |cells| + 1
      ensures (cells + [CellFor(c, p)])[Index(o, x)] == CellFor(c, o)
    {
      if Index(o, x) == |cells| {
        AtIndex(o, x);
        AtIndex(p, x);
      }
    }
  }

  lemma NextDigit(q: nat, d: nat)
    ensures q * d + d == (q + 1) * d + 0
  {
  }

  /** `generateMatrixPermutations`: the four nested loops put every combination at its mixed-radix number. */
  method GenerateMatrixPermutations(c: Config) returns (cells: seq<Cell>)
    ensures |cells| == Size(AxesOf(c))
    ensures Numbered(c, cells)
  {
    cells := [];
    var repetitions := Repetitions(c);
    var levels := Levels(c);
    var x := AxesOf(c);
    for s := 0 to |c.scenarioIds|
      invariant |cells| == s * x.models * x.levels * x.repetitions && Numbered(c, cells)
    {
      for m := 0 to |c.models|
        invariant |cells| == (s * x.models + m) * x.levels * x.repetitions && Numbered(c, cells)
      {
        for l := 0 to |levels|
          invariant |cells| == ((s * x.models + m) * x.levels + l) * x.repetitions && Numbered(c, cells)
        {
          for rep := 0 to repetitions
            invariant |cells| == ((s * x.models + m) * x.levels + l) * x.repetitions + rep && Numbered(c, cells)
          {
            var p := Coordinates(s, m, l, rep);
            PushNumbered(c, cells, p);
            cells := cells + [CellFor(c, p)];
          }
          NextDigit((s * x.models + m) * x.levels + l, x.repetitions);
        }
        NextDigit(s * x.models + m, x.levels);
      }
      NextDigit(s, x.models);
    }
  }

  // ----- what the matrix holds

  /** The level at a place of the list; without a list there is one place, of no level. */
  predicate LevelAt(c: Config, l: nat, level: Option<string>) {
    if c.thinkingLevels == None || c.thinkingLevels == Some([]) then l == 0 && level == None
    else l < |c.thinkingLevels.value| && level == Some(c.thinkingLevels.value[l])
  }

  function LevelCount(c: Config): nat {
    if c.thinkingLevels.None? then 1 else Max(1, |c.thinkingLevels.value|)
  }

  /** The cell runs this scenario with this model, level and repetition, and its name tells them. */
  predicate Runs(cell: Cell, c: Config, scenarioId: string, model: ModelRef, level: Option<string>, repetition: nat) {
    && cell.scenarioId == scenarioId && cell.modelId == model.modelId && cell.provider == model.provider
    && cell.skillIds == c.skillIds && cell.thinkingLevel == level && cell.repetitionIndex == repetition
    && cell.cellId == scenarioId + "-" + model.modelId +
                      (if level == None then "" else "-th_" + level.value) + "-r" + Decimal(repetition)
  }

  /**
   * The generated cells are one for each combination of a listed scenario, model, level and repetition, scenarios
   * outermost and repetitions innermost; an empty level list counts as none, and less than one repetition as one.
   */
  lemma EveryCombination(c: Config, cells: seq<Cell>, s: nat, m: nat, l: nat, level: Option<string>, r: nat)
    returns (n: nat)
    requires |cells| == Size(AxesOf(c)) && Numbered(c, cells)
    requires s < |c.scenarioIds| && m < |c.models| && LevelAt(c, l, level) && r < Max(1, c.repetitions)
    ensures |cells| == |c.scenarioIds| * |c.models| * LevelCount(c) * Max(1, c.repetitions)
    ensures n == ((s * |c.models| + m) * LevelCount(c) + l) * Max(1, c.repetitions) + r
    ensures n < |cells| && Runs(cells[n], c, c.scenarioIds[s], c.models[m], level, r)
  {
    var p, x := Coordinates(s, m, l, r), AxesOf(c);
    assert x == Axes(|c.scenarioIds|, |c.models|, LevelCount(c), Max(1, c.repetitions));
    AtIndex(p, x);
    n := Index(p, x);
    CellRuns(c, p);
  }

  lemma CellRuns(c: Config, p: Coordinates)
    requires Inside(p, AxesOf(c))
    ensures LevelAt(c, p.level, Levels(c)[p.level])
    ensures Runs(CellFor(c, p), c, c.scenarioIds[p.scenario], c.models[p.model], Levels(c)[p.level], p.repetition)
  {}
}
