/** `EnviromentSpawner`: lays out a grid of environments at start-up and
    numbers them. */
module EnviromentSpawners {
  import opened Common
  import opened EnviromentsOld

  /** The spawner's serialized settings. */
  datatype Config = Config(rows: int, columns: int, distance: real, visualizeOneEnvironment: bool)

  const DefaultConfig: Config := Config(4, 8, 30.0, true)

  /** Which of the two looked-up components the environment prefab has. */
  datatype PrefabShape = PrefabShape(hasVisibilityController: bool, hasEnvController: bool)

  /** One instantiated environment: its position, the visibility it was
      given (none when it has no visibility controller, which only logs a
      warning), and the id its `FootballEnvController` was given (none when
      it has no controller). */
  datatype Spawned = Spawned(position: Vec3, visibility: Option<bool>, id: Option<int>)

  /** A loop bound: a `for` loop up to a negative bound runs zero times. */
  function Count(n: int): nat
  {
    if n < 0 then 0 else n
  }

  function Offset(row: int, col: int, distance: real): Vec3
  {
    Vec3(col as real * distance, 0.0, row as real * distance)
  }

  /** The environment the spawner creates at a grid cell. */
  function SpawnedAt(cfg: Config, origin: Vec3, shape: PrefabShape, row: int, col: int): (s: Spawned)
    ensures s.position == Add(origin, Offset(row, col, cfg.distance))
    ensures s.visibility == Some(true) <==> shape.hasVisibilityController && cfg.visualizeOneEnvironment && row == 0 && col == 0
    ensures s.visibility.None? <==> !shape.hasVisibilityController
    ensures s.id.Some? <==> shape.hasEnvController
    ensures s.id.Some? ==> s.id.value == row * cfg.columns + col
  {
    Spawned(Add(origin, Offset(row, col, cfg.distance)),
            if shape.hasVisibilityController then Some(cfg.visualizeOneEnvironment && row == 0 && col == 0) else None,
            if shape.hasEnvController then Some(row * cfg.columns + col) else None)
  }

  /** One row of the grid, left to right. */
  function Row(cfg: Config, origin: Vec3, shape: PrefabShape, row: int): (r: seq<Spawned>)
    ensures |r| == Count(cfg.columns)
    ensures forall col :: 0 <= col < |r| ==> r[col] == SpawnedAt(cfg, origin, shape, row, col)
  {
    seq(Count(cfg.columns), col => SpawnedAt(cfg, origin, shape, row, col))
  }

  /** The first `r` rows, row after row. */
  function GridPrefix(cfg: Config, origin: Vec3, shape: PrefabShape, r: nat): seq<Spawned>
    decreases r
  {
    if r == 0 then [] else GridPrefix(cfg, origin, shape, r - 1) + Row(cfg, origin, shape, r - 1)
  }

  /** Everything the spawner creates, in creation order. */
  function Grid(cfg: Config, origin: Vec3, shape: PrefabShape): seq<Spawned>
  {
    GridPrefix(cfg, origin, shape, Count(cfg.rows))
  }

  /** The grid has one environment per cell. */
  lemma {:induction false} GridLength(cfg: Config, origin: Vec3, shape: PrefabShape, r: nat)
    ensures |GridPrefix(cfg, origin, shape, r)| == r * Count(cfg.columns)
    decreases r
  {
    if r > 0 {
      GridLength(cfg, origin, shape, r - 1);
      var c := Count(cfg.columns);
      assert r * c == (r - 1) * c + c;
    }
  }

  /** The cell (row, col) is created at index `row * columns + col`. */
  lemma {:induction false} GridCell(cfg: Config, origin: Vec3, shape: PrefabShape, r: nat, row: nat, col: nat)
    requires row < r && col < Count(cfg.columns)
    ensures row * Count(cfg.columns) + col < |GridPrefix(cfg, origin, shape, r)|
    ensures GridPrefix(cfg, origin, shape, r)[row * Count(cfg.columns) + col] == SpawnedAt(cfg, origin, shape, row, col)
    decreases r
  {
    var c := Count(cfg.columns);
    var prev: seq<Spawned> := GridPrefix(cfg, origin, shape, r - 1);
    var row': seq<Spawned> := Row(cfg, origin, shape, r - 1);
    assert GridPrefix(cfg, origin, shape, r) == prev + row';
    GridLength(cfg, origin, shape, r - 1);
    if row == r - 1 {
      assert row * c + col == |prev| + col;
      assert (prev + row')[|prev| + col] == row'[col];
    } else {
      GridCell(cfg, origin, shape, r - 1, row, col);
    }
  }

  /** Environment ids are their creation indices: distinct, and covering
      0 .. rows * columns - 1 exactly (when the prefab has a controller). */
  lemma {:induction false} GridIds(cfg: Config, origin: Vec3, shape: PrefabShape, r: nat)
    requires cfg.columns >= 0
    ensures forall k :: 0 <= k < |GridPrefix(cfg, origin, shape, r)| ==>
              GridPrefix(cfg, origin, shape, r)[k].id == if shape.hasEnvController then Some(k) else None
    decreases r
  {
    if r > 0 {
      GridIds(cfg, origin, shape, r - 1);
      GridLength(cfg, origin, shape, r - 1);
      var c := cfg.columns;
      var prev: seq<Spawned> := GridPrefix(cfg, origin, shape, r - 1);
      var row': seq<Spawned> := Row(cfg, origin, shape, r - 1);
      forall k | 0 <= k < |prev + row'|
        ensures (prev + row')[k].id == if shape.hasEnvController then Some(k) else None
      {
        if k >= |prev| {
          assert (prev + row')[k] == row'[k - (r - 1) * c];
        }
      }
    }
  }

  /** At most one environment is made visible: the first one. */
  lemma {:induction false} OnlyFirstVisible(cfg: Config, origin: Vec3, shape: PrefabShape, r: nat)
    ensures forall k :: 0 <= k < |GridPrefix(cfg, origin, shape, r)| && GridPrefix(cfg, origin, shape, r)[k].visibility == Some(true)
              ==> k == 0
    decreases r
  {
    if r > 0 {
      OnlyFirstVisible(cfg, origin, shape, r - 1);
      GridLength(cfg, origin, shape, r - 1);
      var c := Count(cfg.columns);
      var prev: seq<Spawned> := GridPrefix(cfg, origin, shape, r - 1);
      var row': seq<Spawned> := Row(cfg, origin, shape, r - 1);
      forall k | 0 <= k < |prev + row'| && (prev + row')[k].visibility == Some(true)
        ensures k == 0
      {
        if k >= |prev| {
          assert (prev + row')[k] == row'[k - (r - 1) * c];
          assert r - 1 == 0;
        }
      }
    }
  }

  /** Distinct cells get distinct ids. */
  lemma CellIdsInjective(columns: int, row1: int, col1: int, row2: int, col2: int)
    requires 0 <= col1 < columns && 0 <= col2 < columns
    requires row1 * columns + col1 == row2 * columns + col2
    ensures row1 == row2 && col1 == col2
  {
    if row1 < row2 {
      assert row1 * columns + col1 < (row1 + 1) * columns;
      MulMonotone(row1 + 1, row2, columns);
    } else if row2 < row1 {
      assert row2 * columns + col2 < (row2 + 1) * columns;
      MulMonotone(row2 + 1, row1, columns);
    }
  }

  lemma {:induction false} MulMonotone(a: int, b: int, c: int)
    requires a <= b && c >= 0
    ensures a * c <= b * c
    decreases b - a
  {
    if a < b {
      MulMonotone(a + 1, b, c);
      assert (a + 1) * c == a * c + c;
    }
  }

  /** The nested loop of `Awake`: creates the grid row by row. */
  method SpawnGrid(cfg: Config, origin: Vec3, prefab: PrefabShape) returns (envs: seq<Spawned>)
    ensures envs == Grid(cfg, origin, prefab)
  {
    envs := [];
    var row := 0;
    while row < cfg.rows
      invariant 0 <= row <= Count(cfg.rows)
      invariant envs == GridPrefix(cfg, origin, prefab, row)
    {
      envs := SpawnRow(cfg, origin, prefab, row, envs);
      row := row + 1;
    }
  }

  /** The inner loop of `Awake`: creates one row, left to right, after the
      environments created so far. */
  method SpawnRow(cfg: Config, origin: Vec3, prefab: PrefabShape, row: int, before: seq<Spawned>)
    returns (envs: seq<Spawned>)
    ensures envs == before + Row(cfg, origin, prefab, row)
  {
    envs := before;
    var col := 0;
    while col < cfg.columns
      invariant 0 <= col <= Count(cfg.columns)
      invariant envs == before + Row(cfg, origin, prefab, row)[..col]
    {
      var offset := Vec3(col as real * cfg.distance, 0.0, row as real * cfg.distance);
      var visibility: Option<bool> := None;
      if prefab.hasVisibilityController {
        var shouldBeVisible := row == 0 && col == 0;
        visibility := Some(cfg.visualizeOneEnvironment && shouldBeVisible);
      }
      var id: Option<int> := None;
      if prefab.hasEnvController {
        id := Some(row * cfg.columns + col);
      }
      var env := Spawned(Add(origin, offset), visibility, id);
      assert env == SpawnedAt(cfg, origin, prefab, row, col);
      assert Row(cfg, origin, prefab, row)[..col + 1] == Row(cfg, origin, prefab, row)[..col] + [env];
      envs := envs + [env];
      col := col + 1;
    }
    assert Row(cfg, origin, prefab, row)[..col] == Row(cfg, origin, prefab, row);
  }

  /** The old environments among the spawner's children. */
  function OldEnvs(children: seq<Option<EnviromentOld>>): set<EnviromentOld>
  {
    set i | 0 <= i < |children| && children[i].Some? :: children[i].value
  }

  /** `Awake`: every existing child carrying an `Enviroment_Old` is asked
      to destroy itself (the snapshot of the children is the given
      sequence); then, if the prefab is missing, an error is logged and
      nothing is created; otherwise the grid is created. */
  method Awake(children: seq<Option<EnviromentOld>>, cfg: Config, origin: Vec3, prefab: Option<PrefabShape>)
    returns (spawned: seq<Spawned>)
    modifies OldEnvs(children)`destroyRequested
    ensures forall e :: e in OldEnvs(children) ==> e.destroyRequested
    ensures prefab.None? ==> spawned == []
    ensures prefab.Some? ==> spawned == Grid(cfg, origin, prefab.value)
  {
    var i := 0;
    while i < |children|
      invariant 0 <= i <= |children|
      invariant forall j :: 0 <= j < i && children[j].Some? ==> children[j].value.destroyRequested
    {
      if children[i].Some? {
        children[i].value.DestroyEnviroment();
      }
      i := i + 1;
    }
    if prefab.None? {
      return [];
    }
    spawned := SpawnGrid(cfg, origin, prefab.value);
  }
}
