// The chart-data adapter of the analysis page: six categories of line charts
// (depth, eval, node, speed, tb, time), each a collection of labels and of
// point series written by move number. JavaScript's sparse arrays are maps
// from index to value; numbers are reals, move counters and statistics ints.

module Graph {
  import Moves

  const MAX_EVAL: real := 10.0

  // ----------------------------------------------------------------- values

  /** An evaluation as it reaches the chart: a number, a text JavaScript does
      not read as a number (a mate score such as "M5" or "-M3"), or undefined. */
  datatype Value = Num(n: real) | Word(s: string) | Undefined

  /** clamp_eval: numbers are clamped to [-MAX_EVAL, MAX_EVAL]; a text is a mate
      score, losing when it starts with '-'; undefined plots as 0. */
  function ClampEval(v: Value): (r: real)
    ensures -MAX_EVAL <= r <= MAX_EVAL
    ensures v.Num? && -MAX_EVAL <= v.n <= MAX_EVAL ==> r == v.n
    ensures v.Num? && v.n > MAX_EVAL ==> r == MAX_EVAL
    ensures v.Num? && v.n < -MAX_EVAL ==> r == -MAX_EVAL
    ensures v.Word? ==> r == if v.s != [] && v.s[0] == '-' then -MAX_EVAL else MAX_EVAL
    ensures v.Undefined? ==> r == 0.0
  {
    match v
    case Num(n) => if n < -MAX_EVAL then -MAX_EVAL else if n > MAX_EVAL then MAX_EVAL else n
    case Word(s) => if s != [] && s[0] == '-' then -MAX_EVAL else MAX_EVAL
    case Undefined => 0.0
  }

  /** Clamping keeps the order of numbers, and a clamped value clamps to itself. */
  lemma ClampEvalOrdered(a: real, b: real)
    requires a <= b
    ensures ClampEval(Num(a)) <= ClampEval(Num(b))
    ensures ClampEval(Num(ClampEval(Num(a)))) == ClampEval(Num(a))
  {
  }

  /** Math.round of mt / 1000: the nearest whole number of seconds, halves up. */
  function Seconds(mt: int): (r: int)
    ensures r * 1000 - 500 <= mt < r * 1000 + 500
  {
    (mt + 500) / 1000
  }

  // ------------------------------------------------------------- categories

  datatype Category = Depth | Eval | Node | Speed | Tb | Time

  /** The key of a category in chart_data and in charts. */
  function NameOf(c: Category): string
  {
    match c
    case Depth => "depth"
    case Eval => "eval"
    case Node => "node"
    case Speed => "speed"
    case Tb => "tb"
    case Time => "time"
  }

  /** chart_data[name]: the category a chart id names, if any. */
  function CategoryOf(name: string): (r: Moves.Option<Category>)
    ensures r.Some? ==> NameOf(r.value) == name
  {
    if name == "depth" then Moves.Some(Depth)
    else if name == "eval" then Moves.Some(Eval)
    else if name == "node" then Moves.Some(Node)
    else if name == "speed" then Moves.Some(Speed)
    else if name == "tb" then Moves.Some(Tb)
    else if name == "time" then Moves.Some(Time)
    else Moves.None
  }

  /** Every category is found under its own name. */
  lemma CategoryOfName(c: Category)
    ensures CategoryOf(NameOf(c)) == Moves.Some(c)
  {
  }

  /** The number of series create_chart_data gives a category: white and black
      depth and selective depth; the four engines of the eval chart; white and
      black for the others. */
  function SeriesCount(c: Category): nat
  {
    match c
    case Depth => 4
    case Eval => 4
    case Node => 2
    case Speed => 2
    case Tb => 2
    case Time => 2
  }

  // ------------------------------------------------------------------- data

  /** A move record as the adapter reads it. */
  datatype Move = Move(ply: int, eval: Value, wv: Value, d: int, sd: int, n: int, s: int,
                       tb: int, mt: int, book: bool)

  /** A point: move number, ply, plotted value, and the raw values the tooltips
      show (undefined when the category has none). */
  datatype Point = Point(x: int, ply: int, y: real, eval: Value, nodes: Value)

  /** One category's labels and series, each a sparse array by move index. */
  datatype Collection = Collection(labels: map<int, int>, series: seq<map<int, Point>>)

  /** A collection as create_chart_data builds it: no labels, empty series. */
  function NewCollection(c: Category): (r: Collection)
    ensures r.labels == map[] && |r.series| == SeriesCount(c)
    ensures forall s | 0 <= s < |r.series| :: r.series[s] == map[]
  {
    Collection(map[], seq(SeriesCount(c), _ => map[]))
  }

  /** chart_data after create_chart_data. */
  function InitialData(): (d: map<Category, Collection>)
    ensures d.Keys == {Depth, Eval, Node, Speed, Tb, Time}
    ensures forall c | c in d :: d[c] == NewCollection(c)
  {
    map[Depth := NewCollection(Depth), Eval := NewCollection(Eval), Node := NewCollection(Node),
        Speed := NewCollection(Speed), Tb := NewCollection(Tb), Time := NewCollection(Time)]
  }

  /** reset_chart on a collection: the labels and every series truncated. */
  function Cleared(col: Collection): (r: Collection)
    ensures r.labels == map[] && |r.series| == |col.series|
    ensures forall s | 0 <= s < |r.series| :: r.series[s] == map[]
  {
    Collection(map[], seq(|col.series|, _ => map[]))
  }

  /** A collection has its category's number of series. */
  predicate Shaped(d: map<Category, Collection>)
  {
    forall c | c in d :: |d[c].series| == SeriesCount(c)
  }

  // ----------------------------------------------------------------- labels

  /** A label slot JavaScript counts as set: present and not 0. */
  predicate Labelled(labels: map<int, int>, i: int)
  {
    i in labels && labels[i] != 0
  }

  /** The first slot at or below i the back-fill stops at: a set one, or -1. */
  function StopBelow(labels: map<int, int>, i: int): (k: int)
    ensures k <= i && (k < 0 || Labelled(labels, k))
    ensures forall j | k < j <= i :: !Labelled(labels, j)
    ensures i < 0 ==> k == i
    ensures i >= 0 ==> k >= -1
    decreases i + 1
  {
    if i < 0 || Labelled(labels, i) then i else StopBelow(labels, i - 1)
  }

  /** The back-fill loop: labels[i] = i + 1 from num downwards, up to the first
      set slot or index 0. */
  function BackFilled(labels: map<int, int>, i: int): map<int, int>
    decreases i + 1
  {
    if i < 0 || Labelled(labels, i) then labels else BackFilled(labels[i := i + 1], i - 1)
  }

  lemma {:induction false} StopBelowIgnoresAbove(labels: map<int, int>, i: int, j: int, v: int)
    requires i < j
    ensures StopBelow(labels[j := v], i) == StopBelow(labels, i)
    decreases i + 1
  {
    if !(i < 0 || Labelled(labels, i)) {
      StopBelowIgnoresAbove(labels, i - 1, j, v);
    }
  }

  /** The back-fill writes exactly the slots above the stop, each with its
      index plus one, and leaves every other slot as it was. */
  lemma {:induction false} BackFilledWrites(labels: map<int, int>, i: int)
    ensures var r := BackFilled(labels, i); var k := StopBelow(labels, i);
      (forall j :: j in r <==> j in labels || k < j <= i) &&
      (forall j | j in r :: r[j] == if k < j <= i then j + 1 else labels[j])
    decreases i + 1
  {
    if !(i < 0 || Labelled(labels, i)) {
      BackFilledWrites(labels[i := i + 1], i - 1);
      StopBelowIgnoresAbove(labels, i - 1, i, i + 1);
    }
  }

  /** The slots 0..n-1 hold their index plus one. */
  predicate FilledUpTo(labels: map<int, int>, n: int)
  {
    forall j | 0 <= j < n :: j in labels && labels[j] == j + 1
  }

  /** The labels form a filled prefix: every set slot is at 0 or above and has
      all slots up to it filled with their index plus one. */
  predicate Prefix(labels: map<int, int>)
  {
    forall k | k in labels && labels[k] != 0 :: k >= 0 && FilledUpTo(labels, k + 1)
  }

  /** On a filled prefix the back-fill fills 0..num and keeps the prefix. */
  lemma BackFilledPrefix(labels: map<int, int>, num: int)
    requires Prefix(labels)
    ensures FilledUpTo(BackFilled(labels, num), num + 1)
    ensures Prefix(BackFilled(labels, num))
  {
    var r := BackFilled(labels, num);
    var k := StopBelow(labels, num);
    BackFilledWrites(labels, num);
    if k >= 0 {
      assert FilledUpTo(labels, k + 1);
    }
    assert FilledUpTo(r, num + 1) by {
      forall j | 0 <= j < num + 1
        ensures j in r && r[j] == j + 1
      {
        if j <= k {
          assert FilledUpTo(labels, k + 1);
        }
      }
    }
    forall j | j in r && r[j] != 0
      ensures j >= 0 && FilledUpTo(r, j + 1)
    {
      if j > num {
        assert Labelled(labels, j) && FilledUpTo(labels, j + 1);
        assert k == num by {
          if num >= 0 {
            assert num in labels && labels[num] == num + 1;
          }
        }
        forall x | 0 <= x < j + 1
          ensures x in r && r[x] == x + 1
        {
        }
      } else if k < j {
        assert FilledUpTo(r, num + 1);
        forall x | 0 <= x < j + 1
          ensures x in r && r[x] == x + 1
        {
        }
      } else {
        assert Labelled(labels, j) && FilledUpTo(labels, j + 1);
        forall x | 0 <= x < j + 1
          ensures x in r && r[x] == x + 1
        {
        }
      }
    }
  }

  // ----------------------------------------------------------------- points

  /** update_live_chart's point: the raw evaluation and its clamped value. */
  function LivePoint(m: Move): Point
  {
    var ply := m.ply - 1;
    Point(ply / 2 + 1, ply, ClampEval(m.eval), m.eval, Undefined)
  }

  /** update_player_chart's point for a category, at ply p. */
  function PrimaryPoint(c: Category, m: Move, p: int): (pt: Point)
    ensures pt.x == p / 2 + 1 && pt.ply == p
    ensures c == Eval ==> pt.y == ClampEval(m.wv) && pt.eval == m.wv
    ensures c == Node ==> pt.y == m.n as real && pt.nodes == Num(m.n as real)
    ensures c == Speed ==> pt.y == m.s as real && pt.nodes == Num(m.n as real)
    ensures c == Depth ==> pt.y == m.d as real
    ensures c == Tb ==> pt.y == m.tb as real
    ensures c == Time ==> pt.y == Seconds(m.mt) as real
  {
    var x := p / 2 + 1;
    match c
    case Depth => Point(x, p, m.d as real, Undefined, Undefined)
    case Eval => Point(x, p, ClampEval(m.wv), m.wv, Undefined)
    case Node => Point(x, p, m.n as real, Undefined, Num(m.n as real))
    case Speed => Point(x, p, m.s as real, Undefined, Num(m.n as real))
    case Tb => Point(x, p, m.tb as real, Undefined, Undefined)
    case Time => Point(x, p, Seconds(m.mt) as real, Undefined, Undefined)
  }

  /** The depth chart's selective-depth point at ply p. */
  function SelPoint(m: Move, p: int): Point
  {
    Point(p / 2 + 1, p, m.sd as real, Undefined, Undefined)
  }

  /** A batch entry that writes points: a move that is present and not from book. */
  predicate Plotted(mv: Moves.Option<Move>)
  {
    mv.Some? && !mv.value.book
  }

  /** Whether the entry at ply p writes series s at slot k. */
  predicate Touches(c: Category, mv: Moves.Option<Move>, p: int, s: int, k: int)
  {
    Plotted(mv) && k == p / 2 && (s == p % 2 || (c == Depth && s == p % 2 + 2))
  }

  // ---------------------------------------------------------- chart updates

  /** update_live_chart on the eval collection. An id naming no series leaves
      `dataset` undefined: the labels are back-filled, then reading `dataset.data`
      throws a TypeError before any point is written. */
  function LiveChart(col: Collection, m: Move, id: int): (r: Collection)
    requires m.ply >= 1
  {
    var num := (m.ply - 1) / 2;
    var labels := BackFilled(col.labels, num);
    if 0 <= id < |col.series| then Collection(labels, col.series[id := col.series[id][num := LivePoint(m)]])
    else Collection(labels, col.series)
  }

  /** With an id naming no series, only the labels change, and they are back-filled
      as for any other id. */
  lemma LiveChartThrows(col: Collection, m: Move, id: int)
    requires m.ply >= 1 && !(0 <= id < |col.series|)
    ensures var r := LiveChart(col, m, id);
      r.series == col.series && r.labels == BackFilled(col.labels, (m.ply - 1) / 2)
    ensures Prefix(col.labels) ==>
      FilledUpTo(LiveChart(col, m, id).labels, (m.ply - 1) / 2 + 1) && Prefix(LiveChart(col, m, id).labels)
  {
    if Prefix(col.labels) {
      BackFilledPrefix(col.labels, (m.ply - 1) / 2);
    }
  }

  /** A live update writes its point at (id, floor((ply-1)/2)) and nothing else in
      the series; on a filled prefix of labels, 0..num are filled afterwards. */
  lemma LiveChartWrites(col: Collection, m: Move, id: int)
    requires m.ply >= 1 && 0 <= id < |col.series|
    ensures var r := LiveChart(col, m, id); var num := (m.ply - 1) / 2;
      |r.series| == |col.series| &&
      r.series[id][num] == Point(num + 1, m.ply - 1, ClampEval(m.eval), m.eval, Undefined) &&
      (forall s | 0 <= s < |r.series| && s != id :: r.series[s] == col.series[s]) &&
      (forall k | k != num :: (k in r.series[id] <==> k in col.series[id]) &&
        (k in col.series[id] ==> r.series[id][k] == col.series[id][k]))
    ensures Prefix(col.labels) ==>
      FilledUpTo(LiveChart(col, m, id).labels, (m.ply - 1) / 2 + 1) && Prefix(LiveChart(col, m, id).labels)
  {
    if Prefix(col.labels) {
      BackFilledPrefix(col.labels, (m.ply - 1) / 2);
    }
  }

  /** One entry of update_player_chart's loop, at ply p. */
  function PlayerStep(col: Collection, c: Category, mv: Moves.Option<Move>, p: nat): (r: Collection)
    requires |col.series| >= SeriesCount(c)
    ensures |r.series| == |col.series|
  {
    var num := p / 2;
    var labels := col.labels[num := num + 1];
    if !Plotted(mv) then col.(labels := labels)
    else
      var series := if c == Depth then col.series[p % 2 + 2 := col.series[p % 2 + 2][num := SelPoint(mv.value, p)]]
                    else col.series;
      Collection(labels, series[p % 2 := series[p % 2][num := PrimaryPoint(c, mv.value, p)]])
  }

  /** The first n entries of a batch starting at ply `start`. */
  function PlayerBatch(col: Collection, c: Category, moves: seq<Moves.Option<Move>>, start: nat, n: nat): (r: Collection)
    requires n <= |moves| && |col.series| >= SeriesCount(c)
    ensures |r.series| == |col.series|
    decreases n
  {
    if n == 0 then col
    else PlayerStep(PlayerBatch(col, c, moves, start, n - 1), c, moves[n - 1], start + n - 1)
  }

  /** update_player_chart on a collection: the labels back-filled from
      floor(start / 2), then every entry of the batch. */
  function PlayerChart(col: Collection, c: Category, moves: seq<Moves.Option<Move>>, start: nat): Collection
    requires |col.series| >= SeriesCount(c)
  {
    PlayerBatch(col.(labels := BackFilled(col.labels, start / 2)), c, moves, start, |moves|)
  }

  /** Every entry labels its move: labels[floor((start+i)/2)] is that plus one. */
  lemma {:induction false} PlayerBatchLabels(col: Collection, c: Category, moves: seq<Moves.Option<Move>>,
                                             start: nat, n: nat, i: nat)
    requires n <= |moves| && |col.series| >= SeriesCount(c) && i < n
    ensures var r := PlayerBatch(col, c, moves, start, n); var k := (start + i) / 2;
      k in r.labels && r.labels[k] == k + 1
    decreases n
  {
    if i < n - 1 {
      PlayerBatchLabels(col, c, moves, start, n - 1, i);
    }
  }

  /** The label slot of the i-th entry of a batch starting at ply `start`. */
  function EntrySlot(start: int, i: int): int
  {
    (start + i) / 2
  }

  /** A label slot no entry of the batch names keeps its old value. */
  lemma {:induction false} PlayerBatchKeepsLabel(col: Collection, c: Category, moves: seq<Moves.Option<Move>>,
                                                 start: nat, n: nat, k: int)
    requires n <= |moves| && |col.series| >= SeriesCount(c)
    requires forall i | 0 <= i < n :: EntrySlot(start, i) != k
    ensures var r := PlayerBatch(col, c, moves, start, n);
      (k in r.labels <==> k in col.labels) && (k in col.labels ==> r.labels[k] == col.labels[k])
    decreases n
  {
    if n > 0 {
      PlayerBatchKeepsLabel(col, c, moves, start, n - 1, k);
      assert EntrySlot(start, n - 1) != k;
    }
  }

  /** Two plies with the same parity and the same move number are equal. */
  lemma SameSlot(p: int, q: int)
    requires p % 2 == q % 2 && p / 2 == q / 2
    ensures p == q
  {
    assert p == 2 * (p / 2) + p % 2;
    assert q == 2 * (q / 2) + q % 2;
  }

  /** A plotted entry's point is at series ply % 2, slot floor(ply / 2), and for the
      depth chart its selective depth is at series ply % 2 + 2; later entries of
      the batch do not overwrite either. */
  lemma {:induction false} PlayerBatchPoints(col: Collection, c: Category, moves: seq<Moves.Option<Move>>,
                                             start: nat, n: nat, i: nat)
    requires n <= |moves| && |col.series| >= SeriesCount(c) && i < n && Plotted(moves[i])
    ensures var r := PlayerBatch(col, c, moves, start, n); var p := start + i;
      p / 2 in r.series[p % 2] && r.series[p % 2][p / 2] == PrimaryPoint(c, moves[i].value, p) &&
      (c == Depth ==> p / 2 in r.series[p % 2 + 2] && r.series[p % 2 + 2][p / 2] == SelPoint(moves[i].value, p))
    decreases n
  {
    if i < n - 1 {
      PlayerBatchPoints(col, c, moves, start, n - 1, i);
      var p, q := start + i, start + n - 1;
      if p % 2 == q % 2 && p / 2 == q / 2 {
        SameSlot(p, q);
      }
    }
  }

  /** A slot of a series that no plotted entry touches keeps its old point:
      in particular missing and book moves write no point at all. */
  lemma {:induction false} PlayerBatchKeepsPoint(col: Collection, c: Category, moves: seq<Moves.Option<Move>>,
                                                 start: nat, n: nat, s: int, k: int)
    requires n <= |moves| && |col.series| >= SeriesCount(c) && 0 <= s < |col.series|
    requires forall i | 0 <= i < n :: !Touches(c, moves[i], start + i, s, k)
    ensures var r := PlayerBatch(col, c, moves, start, n);
      (k in r.series[s] <==> k in col.series[s]) && (k in col.series[s] ==> r.series[s][k] == col.series[s][k])
    decreases n
  {
    if n > 0 {
      PlayerBatchKeepsPoint(col, c, moves, start, n - 1, s, k);
      assert !Touches(c, moves[n - 1], start + n - 1, s, k);
    }
  }

  /** The labels written by the batch keep a filled prefix when the slots below
      its first move number are filled. */
  lemma {:induction false} PlayerBatchPrefix(col: Collection, c: Category, moves: seq<Moves.Option<Move>>,
                                             start: nat, n: nat)
    requires n <= |moves| && |col.series| >= SeriesCount(c)
    requires Prefix(col.labels) && FilledUpTo(col.labels, start / 2 + 1)
    ensures var r := PlayerBatch(col, c, moves, start, n);
      Prefix(r.labels) && FilledUpTo(r.labels, (start + n) / 2)
    decreases n
  {
    if n > 0 {
      PlayerBatchPrefix(col, c, moves, start, n - 1);
      var prev := PlayerBatch(col, c, moves, start, n - 1);
      var num := (start + n - 1) / 2;
      var labels := prev.labels[num := num + 1];
      assert PlayerBatch(col, c, moves, start, n).labels == labels;
      assert FilledUpTo(prev.labels, num) by {
        if n == 1 {
          assert FilledUpTo(col.labels, start / 2 + 1);
        }
      }
      assert FilledUpTo(labels, num + 1);
      forall k | k in labels && labels[k] != 0
        ensures k >= 0 && FilledUpTo(labels, k + 1)
      {
        if k != num {
          assert Labelled(prev.labels, k) && FilledUpTo(prev.labels, k + 1);
          if k > num {
            assert prev.labels[num] == num + 1;
          }
        }
      }
    }
  }

  /** update_player_chart on a filled prefix of labels: every label from 0 to
      the batch's last move number is set, and the prefix is kept. */
  lemma PlayerChartPrefix(col: Collection, c: Category, moves: seq<Moves.Option<Move>>, start: nat)
    requires |col.series| >= SeriesCount(c) && Prefix(col.labels)
    ensures var r := PlayerChart(col, c, moves, start);
      Prefix(r.labels) && FilledUpTo(r.labels, start / 2 + 1) && FilledUpTo(r.labels, (start + |moves|) / 2)
  {
    var col1 := col.(labels := BackFilled(col.labels, start / 2));
    BackFilledPrefix(col.labels, start / 2);
    PlayerBatchPrefix(col1, c, moves, start, |moves|);
    var r := PlayerChart(col, c, moves, start);
    forall j | 0 <= j < start / 2 + 1
      ensures j in r.labels && r.labels[j] == j + 1
    {
      assert Labelled(r.labels, j) || j in r.labels;
      if |moves| > 0 {
        PlayerBatchLabels(col1, c, moves, start, |moves|, 0);
        assert Labelled(r.labels, start / 2);
      } else {
        assert r == col1;
      }
    }
  }

  // ---------------------------------------------------------------- adapter

  /**
   * The adapter's globals: chart_data (a collection per created category),
   * charts (the categories with a chart view bound to their collection) and
   * chart_id, the selected category's name.
   */
  class ChartAdapter {
    var chartId: string
    var data: map<Category, Collection>
    var views: set<Category>

    ghost predicate Valid()
      reads this
    {
      Shaped(data) && views <= data.Keys
    }

    constructor()
      ensures Valid() && chartId == "eval" && data == map[] && views == {}
    {
      chartId := "eval";
      data := map[];
      views := {};
    }

    /** create_chart_data: every category gets a fresh collection. */
    method CreateChartData()
      requires Valid()
      modifies this`data
      ensures Valid() && data == InitialData()
    {
      data := InitialData();
    }

    /** create_charts: a view for every category that has none yet. */
    method CreateCharts()
      requires Valid() && data.Keys == InitialData().Keys
      modifies this`views
      ensures Valid() && views == {Depth, Eval, Node, Speed, Tb, Time}
    {
      views := {Depth, Eval, Node, Speed, Tb, Time};
    }

    /** reset_chart: the chart's labels and each series truncated in turn; nothing
        for a category without a view. */
    method ResetChart(c: Category)
      requires Valid()
      modifies this`data
      ensures Valid()
      ensures data == if c in views then old(data)[c := Cleared(old(data)[c])] else old(data)
    {
      if c !in views {
        return;
      }
      var col := data[c];
      data := data[c := col.(labels := map[])];
      for j := 0 to |col.series|
        invariant c in data && data == old(data)[c := data[c]]
        invariant data[c].labels == map[] && |data[c].series| == |col.series|
        invariant forall s | 0 <= s < j :: data[c].series[s] == map[]
        invariant forall s | j <= s < |col.series| :: data[c].series[s] == col.series[s]
      {
        var d := data[c];
        data := data[c := d.(series := d.series[j := map[]])];
      }
      assert data[c] == Cleared(col);
    }

    /** reset_charts: reset_chart for every chart with a view. */
    method ResetCharts()
      requires Valid()
      modifies this`data
      ensures Valid() && data.Keys == old(data).Keys
      ensures forall c | c in views :: data[c] == Cleared(old(data)[c])
      ensures forall c | c in data && c !in views :: data[c] == old(data)[c]
    {
      var todo := views;
      while todo != {}
        invariant Valid() && todo <= views && data.Keys == old(data).Keys
        invariant forall c | c in views - todo :: data[c] == Cleared(old(data)[c])
        invariant forall c | c in data && c !in views - todo :: data[c] == old(data)[c]
        decreases todo
      {
        var c :| c in todo;
        ResetChart(c);
        todo := todo - {c};
      }
    }

    /** The back-fill loop on a category's labels. */
    method FillLabels(c: Category, num: int)
      requires Valid() && c in data
      modifies this`data
      ensures Valid()
      ensures data == old(data)[c := old(data)[c].(labels := BackFilled(old(data)[c].labels, num))]
    {
      var i := num;
      while i >= 0 && !Labelled(data[c].labels, i)
        invariant c in data && data == old(data)[c := data[c]] && data[c].series == old(data)[c].series
        invariant BackFilled(data[c].labels, i) == BackFilled(old(data)[c].labels, num)
        decreases i + 1
      {
        var d := data[c];
        data := data[c := d.(labels := d.labels[i := i + 1])];
        i := i - 1;
      }
    }

    /** update_live_chart(move, id): nothing before the eval collection exists. */
    method UpdateLiveChart(move: Move, id: int) returns (thrown: bool)
      requires Valid() && move.ply >= 1
      modifies this`data
      ensures Valid()
      ensures data == if Eval in old(data) then old(data)[Eval := LiveChart(old(data)[Eval], move, id)] else old(data)
      ensures thrown <==> Eval in old(data) && !(0 <= id < SeriesCount(Eval))
    {
      thrown := false;
      if Eval !in data {
        return;
      }
      var ply := move.ply - 1;
      var num := ply / 2;
      FillLabels(Eval, num);
      var d := data[Eval];
      if !(0 <= id < |d.series|) {
        thrown := true;
        return;
      }
      data := data[Eval := d.(series := d.series[id := d.series[id][num := LivePoint(move)]])];
    }

    /** update_player_chart(name, moves, start): a non-empty name selects the
        chart; nothing happens when the selected name is no category. */
    method UpdatePlayerChart(name: string, moves: seq<Moves.Option<Move>>, start: nat)
      requires Valid()
      modifies this`chartId, this`data
      ensures Valid()
      ensures chartId == if name != "" then name else old(chartId)
      ensures var c := CategoryOf(chartId);
        data == if c.Some? && c.value in old(data) then old(data)[c.value := PlayerChart(old(data)[c.value], c.value, moves, start)]
                else old(data)
    {
      if name != "" {
        chartId := name;
      }
      var cat := CategoryOf(chartId);
      if cat.None? || cat.value !in data {
        return;
      }
      var c := cat.value;
      FillLabels(c, start / 2);
      ghost var col0 := data[c];
      for i := 0 to |moves|
        invariant c in data && data == old(data)[c := data[c]]
        invariant Valid() && data[c] == PlayerBatch(col0, c, moves, start, i)
        invariant chartId == if name != "" then name else old(chartId)
      {
        PlotEntry(c, moves[i], start + i);
      }
    }

    /** One entry of update_player_chart's loop. */
    method PlotEntry(c: Category, mv: Moves.Option<Move>, p: nat)
      requires Valid() && c in data
      modifies this`data
      ensures Valid()
      ensures data == old(data)[c := PlayerStep(old(data)[c], c, mv, p)]
    {
      var num := p / 2;
      var d := data[c];
      d := d.(labels := d.labels[num := num + 1]);
      if !Plotted(mv) {
        data := data[c := d];
        return;
      }
      var move := mv.value;
      if c == Depth {
        d := d.(series := d.series[p % 2 + 2 := d.series[p % 2 + 2][num := SelPoint(move, p)]]);
      }
      d := d.(series := d.series[p % 2 := d.series[p % 2][num := PrimaryPoint(c, move, p)]]);
      data := data[c := d];
    }
  }
}
