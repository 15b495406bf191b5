/**
 * The configuration file as the editor sees it once parsed: a map from keys to
 * JSON values. What placing labels from such a map yields, and what an export
 * assembles.
 */
module Config {
  import opened Wrappers
  import opened Grid
  import opened Labels

  /** A parsed JSON value, reduced to what the editor distinguishes. */
  datatype Value =
    | Pair(x: int, y: int)  // a two-element array of integers
    | Bool(b: bool)
    | Number(n: real)
    | Text(s: string)
    | Null
    | Compound              // any other array, or an object

  /** JavaScript truthiness of a parsed value (every array and object is truthy). */
  predicate Truthy(v: Value) {
    match v
    case Pair(_, _) => true
    case Bool(b) => b
    case Number(n) => n != 0.0
    case Text(s) => s != ""
    case Null => false
    case Compound => true
  }

  /**
   * Every label key that is present with a truthy value holds an `[x, y]`
   * pair, so destructuring it cannot fail.
   */
  predicate Placeable(m: map<string, Value>) {
    forall l: LabelId :: Key(l) in m && Truthy(m[Key(l)]) ==> m[Key(l)].Pair?
  }

  /** Where placing from m puts label l: the pair under its key when truthy, else its default. */
  function PlacedAt(m: map<string, Value>, l: LabelId): Point
    requires Placeable(m)
  {
    var key := Key(l);
    if key in m && Truthy(m[key]) then Point(m[key].x, m[key].y) else Default(l)
  }

  /** The grid position of every label after placing from m. */
  function Placement(m: map<string, Value>): (grid: map<LabelId, Point>)
    requires Placeable(m)
    ensures forall l :: l in grid
  {
    map l: LabelId :: PlacedAt(m, l)
  }

  /** Every label at its built-in position: a layout that lies on the grid. */
  function Defaults(): (grid: map<LabelId, Point>)
    ensures forall l :: l in grid && 0 <= grid[l].x < GRID_WIDTH && 0 <= grid[l].y < GRID_HEIGHT
  {
    map l: LabelId :: Default(l)
  }

  /** The shadow flag after placing from m: set from `$showShadow` when defined, otherwise kept. */
  function ShadowAfter(m: map<string, Value>, current: bool): bool {
    if SHADOW_KEY in m then Truthy(m[SHADOW_KEY]) else current
  }

  /** The first entries of the `defaultPositions` object: each listed label's built-in position under its bare id. */
  function Bare(ids: seq<LabelId>): map<string, Value>
    decreases |ids|
  {
    if ids == [] then map[]
    else
      var last := ids[|ids| - 1];
      Bare(ids[..|ids| - 1])[Name(last) := Pair(Default(last).x, Default(last).y)]
  }

  /** No key of the `defaultPositions` object starts with `$`. */
  lemma {:induction false} BareKeys(ids: seq<LabelId>)
    ensures forall key | key in Bare(ids) :: |key| > 0 && key[0] != '$'
    decreases |ids|
  {
    if ids != [] {
      BareKeys(ids[..|ids| - 1]);
      NameShape(ids[|ids| - 1]);
    }
  }

  /** The `defaultPositions` object. */
  function DefaultInput(): map<string, Value> {
    Bare(TABLE_ORDER)
  }

  /** `defaultPositions` has bare ids where placement looks for `$`-prefixed keys. */
  lemma DefaultInputHasNoKey(l: LabelId)
    ensures Key(l) !in DefaultInput()
    ensures SHADOW_KEY !in DefaultInput()
  {
    BareKeys(TABLE_ORDER);
    assert Key(l)[0] == '$';
    assert SHADOW_KEY[0] == '$';
  }

  /**
   * So placing from `defaultPositions` puts every label at its default and
   * keeps the flag.
   */
  lemma DefaultInputResets(current: bool)
    ensures Placeable(DefaultInput())
    ensures Placement(DefaultInput()) == Defaults()
    ensures ShadowAfter(DefaultInput(), current) == current
  {
    forall l: LabelId
      ensures Key(l) !in DefaultInput()
    {
      DefaultInputHasNoKey(l);
    }
    DefaultInputHasNoKey(Yaw);
  }

  /**
   * A file holding only `$facing_offset` moves `yaw` there and sends every
   * other label back to its default, whatever it showed before.
   */
  lemma FacingOnlyImport(l: LabelId)
    ensures Placeable(map["$facing_offset" := Pair(100, 200)])
    ensures PlacedAt(map["$facing_offset" := Pair(100, 200)], l)
         == if l == Yaw then Point(100, 200) else Default(l)
  {
    if l != Yaw && Key(l) == Key(Yaw) {
      KeysDistinct(l, Yaw);
    }
  }

  /** The `config` object after the export loop has visited ids, in order. */
  function Entries(ids: seq<LabelId>, grid: map<LabelId, Point>): map<string, Value>
    requires forall l | l in ids :: l in grid
    decreases |ids|
  {
    if ids == [] then map[]
    else
      var last := ids[|ids| - 1];
      Entries(ids[..|ids| - 1], grid)[Key(last) := Pair(grid[last].x, grid[last].y)]
  }

  /** The export loop writes exactly one key per visited label. */
  lemma {:induction false} EntriesKeys(ids: seq<LabelId>, grid: map<LabelId, Point>)
    requires forall l | l in ids :: l in grid
    ensures Entries(ids, grid).Keys == set l | l in ids :: Key(l)
    decreases |ids|
  {
    if ids != [] {
      var front := ids[..|ids| - 1];
      EntriesKeys(front, grid);
      assert forall l :: l in ids <==> l in front || l == ids[|ids| - 1];
    }
  }

  /** Under its key, each visited label's entry is its own grid position. */
  lemma {:induction false} EntriesAt(ids: seq<LabelId>, grid: map<LabelId, Point>, l: LabelId)
    requires forall l' | l' in ids :: l' in grid
    requires l in ids
    ensures Key(l) in Entries(ids, grid)
    ensures Entries(ids, grid)[Key(l)] == Pair(grid[l].x, grid[l].y)
    decreases |ids|
  {
    var front, last := ids[..|ids| - 1], ids[|ids| - 1];
    if l != last {
      assert l in front;
      EntriesAt(front, grid, l);
      if Key(l) == Key(last) {
        KeysDistinct(l, last);
      }
    }
  }

  /** The exported configuration: one `[x, y]` entry per label, then `$showShadow`. */
  function ExportConfig(ids: seq<LabelId>, grid: map<LabelId, Point>, shadow: bool): map<string, Value>
    requires forall l | l in ids :: l in grid
  {
    Entries(ids, grid)[SHADOW_KEY := Bool(shadow)]
  }

  /** An export holds each listed label's position under its key, the flag, and nothing else. */
  lemma ExportShape(ids: seq<LabelId>, grid: map<LabelId, Point>, shadow: bool)
    requires forall l | l in ids :: l in grid
    ensures ExportConfig(ids, grid, shadow).Keys == (set l | l in ids :: Key(l)) + {SHADOW_KEY}
    ensures forall l | l in ids ::
      ExportConfig(ids, grid, shadow)[Key(l)] == Pair(grid[l].x, grid[l].y)
    ensures ExportConfig(ids, grid, shadow)[SHADOW_KEY] == Bool(shadow)
  {
    EntriesKeys(ids, grid);
    forall l | l in ids
      ensures ExportConfig(ids, grid, shadow)[Key(l)] == Pair(grid[l].x, grid[l].y)
    {
      EntriesAt(ids, grid, l);
      KeyRenamesName(l);
      ShadowKeyIsNoLabelKey(Name(l));
    }
  }

  /** An export that lists every label holds an `[x, y]` pair under each label's key. */
  lemma ExportEntry(ids: seq<LabelId>, grid: map<LabelId, Point>, shadow: bool, l: LabelId)
    requires forall l' :: l' in ids && l' in grid
    ensures Key(l) in ExportConfig(ids, grid, shadow)
    ensures ExportConfig(ids, grid, shadow)[Key(l)] == Pair(grid[l].x, grid[l].y)
  {
    ExportShape(ids, grid, shadow);
  }

  /**
   * Placing from an export that lists every label puts each label back where
   * it was exported from and restores the flag.
   */
  lemma ImportOfExport(ids: seq<LabelId>, grid: map<LabelId, Point>, shadow: bool, current: bool)
    requires forall l :: l in ids && l in grid
    ensures Placeable(ExportConfig(ids, grid, shadow))
    ensures Placement(ExportConfig(ids, grid, shadow)) == grid
    ensures ShadowAfter(ExportConfig(ids, grid, shadow), current) == shadow
  {
    var cfg := ExportConfig(ids, grid, shadow);
    forall l: LabelId
      ensures Key(l) in cfg && cfg[Key(l)] == Pair(grid[l].x, grid[l].y)
    {
      ExportEntry(ids, grid, shadow, l);
    }
    assert Placeable(cfg);
    forall l: LabelId
      ensures PlacedAt(cfg, l) == grid[l]
    {
    }
  }
}
