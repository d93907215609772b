/** The blocked form of Floyd-Warshall: every block is updated in place against a
    snapshot of all blocks, and the reassembled result is that of the plain form. */
module BlockedFloydWarshall {
  import opened Common
  import opened FloydWarshall

  datatype Block = Block(id: nat, perDim: nat, rowOffset: nat, colOffset: nat, size: nat, data: Matrix)

  type Grid = seq<seq<Block>>

  // ----- index arithmetic ------------------------------------------------------

  /** Which part of length `size` the index falls in, and where in that part. */
  function Part(x: nat, size: nat): nat requires size > 0 { x / size }
  function Local(x: nat, size: nat): nat requires size > 0 { x % size }

  /** Row-major position. */
  function Join(size: nat, part: nat, local: nat): nat { size * part + local }

  lemma SplitJoin(size: nat, part: nat, local: nat)
    requires local < size
    ensures Part(Join(size, part, local), size) == part && Local(Join(size, part, local), size) == local
  {
    DivModUnique(size, Join(size, part, local), part, local);
  }

  lemma PartFits(size: nat, d: nat, b: nat)
    requires b < d
    ensures Join(size, b, size) <= size * d
    ensures Join(size, b, size) == Join(size, b, 0) + size
  {
    LaterMultiple(size, b, d);
  }

  lemma SplitIndex(size: nat, d: nat, x: nat)
    requires size > 0 && x < size * d
    ensures Part(x, size) < d && Local(x, size) < size && x == Join(size, Part(x, size), 0) + Local(x, size)
  {
    if x / size >= d {
      if x / size > d {
        LaterMultiple(size, d, x / size);
      }
      assert false;
    }
  }

  // ----- blocks of a matrix ------------------------------------------------------

  /** `data` is the `size` by `size` part of `m` that starts at (row, col). */
  ghost predicate Window(m: Matrix, n: nat, row: nat, col: nat, size: nat, data: Matrix) {
    && Square(m, n) && Square(data, size) && row + size <= n && col + size <= n
    && forall i, j :: 0 <= i < size && 0 <= j < size ==> data[i][j] == m[row + i][col + j]
  }

  /** `blk` is the block of `m` at position (bi, bj) of `d` by `d` blocks. */
  ghost predicate IsBlockOf(m: Matrix, n: nat, size: nat, d: nat, blk: Block, bi: nat, bj: nat) {
    && blk.id == Join(d, bi, bj) && blk.perDim == d && bi < d && bj < d
    && blk.rowOffset == Join(size, bi, 0) && blk.colOffset == Join(size, bj, 0) && blk.size == size
    && Window(m, n, blk.rowOffset, blk.colOffset, size, blk.data)
  }

  ghost predicate RowTiles(m: Matrix, n: nat, size: nat, d: nat, row: seq<Block>, bi: nat) {
    |row| == d && forall bj :: 0 <= bj < d ==> IsBlockOf(m, n, size, d, row[bj], bi, bj)
  }

  /** The grid holds the blocks of `m`, each in its place. */
  ghost predicate Tiles(m: Matrix, n: nat, size: nat, d: nat, g: Grid) {
    && size > 0 && n == size * d && Square(m, n)
    && |g| == d && forall bi :: 0 <= bi < d ==> RowTiles(m, n, size, d, g[bi], bi)
  }

  method CopyWindow(m: Matrix, ghost n: nat, row: nat, col: nat, size: nat) returns (data: Matrix)
    requires Square(m, n) && row + size <= n && col + size <= n
    ensures Window(m, n, row, col, size, data)
  {
    data := [];
    for i := 0 to size
      invariant |data| == i && forall x :: 0 <= x < i ==> |data[x]| == size
      invariant forall x, y :: 0 <= x < i && 0 <= y < size ==> data[x][y] == m[row + x][col + y]
    {
      var line: seq<Weight> := [];
      for j := 0 to size
        invariant |line| == j && forall y :: 0 <= y < j ==> line[y] == m[row + i][col + y]
      {
        line := line + [m[row + i][col + j]];
      }
      data := data + [line];
    }
  }

  /** The block with the given id. The size need not divide the matrix; rows and columns
      beyond the last whole block belong to none. */
  method GetBlock(m: Matrix, id: nat, size: nat, ghost n: nat, ghost bi: nat, ghost bj: nat) returns (blk: Block)
    requires size > 0 && Square(m, n) && bi < n / size && bj < n / size && id == Join(n / size, bi, bj)
    ensures IsBlockOf(m, n, size, n / size, blk, bi, bj)
  {
    hide Window, Join, Part, Local;
    var perDim := |m| / size;
    SplitJoin(perDim, bi, bj);
    WholeBlocksFit(n, size);
    PartFits(size, perDim, bi);
    PartFits(size, perDim, bj);
    var startRow, startCol := Join(size, Part(id, perDim), 0), Join(size, Local(id, perDim), 0);
    var data := CopyWindow(m, n, startRow, startCol, size);
    blk := Block(id, perDim, startRow, startCol, size, data);
  }

  lemma WholeBlocksFit(n: nat, size: nat)
    requires size > 0
    ensures size * (n / size) <= n
  {
  }

  /** The position computed from a block's id is its place in the grid. */
  lemma BlockPosition(m: Matrix, n: nat, size: nat, d: nat, blk: Block, bi: nat, bj: nat)
    requires IsBlockOf(m, n, size, d, blk, bi, bj)
    ensures Part(blk.id, blk.perDim) == bi && Local(blk.id, blk.perDim) == bj
  {
    SplitJoin(d, bi, bj);
  }

  method BreakIntoBlocks(m: Matrix, size: nat, ghost d: nat) returns (g: Grid)
    requires size > 0 && Square(m, size * d)
    ensures Tiles(m, size * d, size, d, g)
  {
    hide IsBlockOf, Join;
    var perDim := |m| / size;
    ghost var n := size * d;
    DivModUnique(size, |m|, d, 0);
    g := [];
    for i := 0 to perDim
      invariant |g| == i && forall bi :: 0 <= bi < i ==> RowTiles(m, n, size, d, g[bi], bi)
    {
      var row: seq<Block> := [];
      for j := 0 to perDim
        invariant |row| == j && forall bj :: 0 <= bj < j ==> IsBlockOf(m, n, size, d, row[bj], i, bj)
      {
        var blk := GetBlock(m, Join(perDim, i, j), size, n, i, j);
        row := row + [blk];
      }
      g := g + [row];
    }
  }

  lemma TiledBlock(m: Matrix, n: nat, size: nat, d: nat, g: Grid, bi: nat, bj: nat)
    requires Tiles(m, n, size, d, g) && bi < d && bj < d
    ensures |g| == d && |g[bi]| == d && IsBlockOf(m, n, size, d, g[bi][bj], bi, bj)
  {
    assert RowTiles(m, n, size, d, g[bi], bi);
  }

  lemma BlockEntry(m: Matrix, n: nat, size: nat, d: nat, blk: Block, bi: nat, bj: nat, i: nat, j: nat)
    requires IsBlockOf(m, n, size, d, blk, bi, bj) && i < size && j < size
    ensures Square(m, n) && Join(size, bi, 0) + i < n && Join(size, bj, 0) + j < n && Square(blk.data, size)
    ensures blk.data[i][j] == m[Join(size, bi, 0) + i][Join(size, bj, 0) + j]
  {
    hide Join;
  }

  /** Each entry of the matrix is found in the block that the indices select. */
  lemma TiledEntry(m: Matrix, n: nat, size: nat, d: nat, g: Grid, x: nat, y: nat)
    requires size > 0 && n == size * d && Tiles(m, n, size, d, g) && x < n && y < n
    ensures Square(m, n) && |g| == d && Part(x, size) < d && Part(y, size) < |g[Part(x, size)]| == d
    ensures Local(x, size) < size && Local(y, size) < size
    ensures Square(g[Part(x, size)][Part(y, size)].data, size)
    ensures g[Part(x, size)][Part(y, size)].data[Local(x, size)][Local(y, size)] == m[x][y]
  {
    hide Join, Part, Local, Tiles, IsBlockOf;
    SplitIndex(size, d, x);
    SplitIndex(size, d, y);
    var bi, bj := Part(x, size), Part(y, size);
    TiledBlock(m, n, size, d, g, bi, bj);
    BlockEntry(m, n, size, d, g[bi][bj], bi, bj, Local(x, size), Local(y, size));
  }

  method AssembleRow(g: Grid, blockSize: nat, total: nat, i: nat, ghost m: Matrix, ghost d: nat)
      returns (row: seq<Weight>)
    requires blockSize > 0 && total == blockSize * d && Square(m, total)
    requires Tiles(m, total, blockSize, d, g) && i < total
    ensures row == m[i]
  {
    hide Tiles, Part, Local;
    row := [];
    for j := 0 to total
      invariant |row| == j && forall y :: 0 <= y < j ==> row[y] == m[i][y]
    {
      TiledEntry(m, total, blockSize, d, g, i, j);
      row := row + [g[Part(i, blockSize)][Part(j, blockSize)].data[Local(i, blockSize)][Local(j, blockSize)]];
    }
  }

  /** Reassembly gives back the matrix that the grid tiles. */
  method AssembleFromBlocks(g: Grid, ghost m: Matrix, ghost n: nat, ghost size: nat, ghost d: nat) returns (r: Matrix)
    requires size > 0 && n == size * d && Square(m, n) && Tiles(m, n, size, d, g) && d > 0
    ensures r == m
  {
    hide Tiles, Join, Window;
    TiledBlock(m, n, size, d, g, 0, 0);
    var blockSize := g[0][0].size;
    var total := blockSize * |g|;
    r := [];
    for i := 0 to total
      invariant |r| == i && forall x :: 0 <= x < i ==> r[x] == m[x]
    {
      var row := AssembleRow(g, blockSize, total, i, m, d);
      r := r + [row];
    }
  }

  /** Breaking a matrix into blocks and reassembling is the identity. */
  method BlockingRoundTrip(m: Matrix, size: nat, ghost d: nat) returns (r: Matrix)
    requires size > 0 && d > 0 && Square(m, size * d)
    ensures r == m
  {
    hide Tiles;
    var g := BreakIntoBlocks(m, size, d);
    r := AssembleFromBlocks(g, m, size * d, size, d);
  }

  // ----- one block, in place ---------------------------------------------------------

  /** The lookup function finds a block by its id. */
  predicate CanLookUp(snapshot: Grid, id: nat, size: nat) {
    && |snapshot| > 0 && Part(id, |snapshot|) < |snapshot|
    && Local(id, |snapshot|) < |snapshot[Part(id, |snapshot|)]|
    && Square(snapshot[Part(id, |snapshot|)][Local(id, |snapshot|)].data, size)
  }

  /** The entry at a global position: from the block itself, or from the snapshot of
      the block that holds it. */
  function ElementAt(own: array2<Weight>, blk: Block, snapshot: Grid, row: nat, col: nat): Weight
    requires blk.size > 0 && own.Length0 == blk.size && own.Length1 == blk.size
    requires CanLookUp(snapshot, Join(blk.perDim, Part(row, blk.size), Part(col, blk.size)), blk.size)
    reads own
  {
    var destination := Join(blk.perDim, Part(row, blk.size), Part(col, blk.size));
    var localRow, localCol := Local(row, blk.size), Local(col, blk.size);
    if destination == blk.id then own[localRow, localCol]
    else snapshot[Part(destination, |snapshot|)][Local(destination, |snapshot|)].data[localRow][localCol]
  }

  /** Entries of the block before (i, j) are relaxed, the others are as in `m`. */
  ghost predicate BlockProgress(own: array2<Weight>, m: Matrix, n: nat, k: nat, row: nat, col: nat, i: nat, j: nat)
    reads own
  {
    && Square(m, n) && k < n && row + own.Length0 <= n && col + own.Length1 <= n
    && forall x, y :: 0 <= x < own.Length0 && 0 <= y < own.Length1 ==>
      own[x, y] == if x < i || (x == i && y < j) then Relaxed(m, n, k, row + x, col + y) else m[row + x][col + y]
  }

  /** Even half-updated, a block shows the entries of row and column `k` as they were. */
  lemma OwnPivot(own: array2<Weight>, m: Matrix, n: nat, k: nat, row: nat, col: nat, i: nat, j: nat, x: nat, y: nat)
    requires BlockProgress(own, m, n, k, row, col, i, j)
    requires x < own.Length0 && y < own.Length1 && (row + x == k || col + y == k)
    ensures own[x, y] == m[row + x][col + y]
  {
    PivotUnchanged(m, n, k, row + x);
    PivotUnchanged(m, n, k, col + y);
  }

  lemma PivotRead(own: array2<Weight>, blk: Block, m: Matrix, n: nat, size: nat, d: nat, g: Grid, k: nat,
                  bi: nat, bj: nat, i: nat, j: nat, x: nat, y: nat)
    requires size > 0 && n == size * d && Tiles(m, n, size, d, g) && IsBlockOf(m, n, size, d, blk, bi, bj)
    requires own.Length0 == size && own.Length1 == size
    requires x < n && y < n && (x == k || y == k)
    requires BlockProgress(own, m, n, k, blk.rowOffset, blk.colOffset, i, j)
    ensures blk.size == size && Square(m, n)
    ensures CanLookUp(g, Join(blk.perDim, Part(x, size), Part(y, size)), size)
    ensures ElementAt(own, blk, g, x, y) == m[x][y]
  {
    hide Tiles, BlockProgress, Window, Join, Part, Local;
    TiledEntry(m, n, size, d, g, x, y);
    SplitJoin(d, Part(x, size), Part(y, size));
    if Join(d, Part(x, size), Part(y, size)) == blk.id {
      BlockPosition(m, n, size, d, blk, bi, bj);
      SplitIndex(size, d, x);
      SplitIndex(size, d, y);
      OwnPivot(own, m, n, k, blk.rowOffset, blk.colOffset, i, j, Local(x, size), Local(y, size));
    }
  }

  lemma StartProgress(own: array2<Weight>, m: Matrix, n: nat, k: nat, row: nat, col: nat)
    requires own.Length0 == own.Length1 && k < n && Window(m, n, row, col, own.Length0, Contents(own))
    ensures BlockProgress(own, m, n, k, row, col, 0, 0)
  {
    var c := Contents(own);
    forall x, y | 0 <= x < own.Length0 && 0 <= y < own.Length1
      ensures own[x, y] == m[row + x][col + y]
    {
      assert c[x][y] == own[x, y];
    }
  }

  lemma EndProgress(own: array2<Weight>, m: Matrix, n: nat, k: nat, row: nat, col: nat)
    requires own.Length0 == own.Length1 && BlockProgress(own, m, n, k, row, col, own.Length0, 0)
    ensures Window(Relax(m, n, k), n, row, col, own.Length0, Contents(own))
  {
    var c := Contents(own);
    forall x, y | 0 <= x < own.Length0 && 0 <= y < own.Length1
      ensures c[x][y] == Relax(m, n, k)[row + x][col + y]
    {
      assert c[x][y] == own[x, y];
    }
  }

  lemma NextLine(own: array2<Weight>, m: Matrix, n: nat, k: nat, row: nat, col: nat, i: nat)
    requires BlockProgress(own, m, n, k, row, col, i, own.Length1)
    ensures BlockProgress(own, m, n, k, row, col, i + 1, 0)
  {
  }

  /** One step of the inner loop. */
  method RelaxEntry(own: array2<Weight>, blk: Block, snapshot: Grid, k: nat, i: nat, j: nat,
                    ghost m: Matrix, ghost n: nat, ghost d: nat, ghost bi: nat, ghost bj: nat)
    requires own.Length0 == own.Length1 == blk.size > 0 && n == blk.size * d && k < n && i < blk.size && j < blk.size
    requires Tiles(m, n, blk.size, d, snapshot) && IsBlockOf(m, n, blk.size, d, blk, bi, bj)
    requires BlockProgress(own, m, n, k, blk.rowOffset, blk.colOffset, i, j)
    modifies own
    ensures BlockProgress(own, m, n, k, blk.rowOffset, blk.colOffset, i, j + 1)
  {
    hide Tiles, Join, Part, Local, ElementAt, IsBlockOf, CanLookUp;
    var globalI, globalJ := blk.rowOffset + i, blk.colOffset + j;
    PivotRead(own, blk, m, n, blk.size, d, snapshot, k, bi, bj, i, j, globalI, k);
    PivotRead(own, blk, m, n, blk.size, d, snapshot, k, bi, bj, i, j, k, globalJ);
    var dist1 := ElementAt(own, blk, snapshot, globalI, k);
    var dist2 := ElementAt(own, blk, snapshot, k, globalJ);
    var newValue := Add(dist1, dist2);
    if !Leq(own[i, j], newValue) {
      own[i, j] := newValue;
    }
  }

  /** The in-place pass over one block relaxes its part of the whole matrix. */
  method ComputeInner(own: array2<Weight>, blk: Block, snapshot: Grid, k: nat,
                      ghost m: Matrix, ghost n: nat, ghost d: nat, ghost bi: nat, ghost bj: nat)
    requires own.Length0 == own.Length1 == blk.size > 0 && n == blk.size * d && k < n && Square(m, n)
    requires Tiles(m, n, blk.size, d, snapshot) && IsBlockOf(m, n, blk.size, d, blk, bi, bj)
    requires Contents(own) == blk.data
    modifies own
    ensures Window(Relax(m, n, k), n, blk.rowOffset, blk.colOffset, blk.size, Contents(own))
  {
    hide Tiles, Join, Window, BlockProgress;
    StartProgress(own, m, n, k, blk.rowOffset, blk.colOffset);
    for i := 0 to blk.size
      invariant BlockProgress(own, m, n, k, blk.rowOffset, blk.colOffset, i, 0)
    {
      for j := 0 to blk.size
        invariant BlockProgress(own, m, n, k, blk.rowOffset, blk.colOffset, i, j)
      {
        RelaxEntry(own, blk, snapshot, k, i, j, m, n, d, bi, bj);
      }
      NextLine(own, m, n, k, blk.rowOffset, blk.colOffset, i);
    }
    EndProgress(own, m, n, k, blk.rowOffset, blk.colOffset);
  }

  // ----- all blocks, all passes ------------------------------------------------------

  /** One pass over one block of the grid, on an array of its own. */
  method PassOverBlock(blk: Block, snapshot: Grid, k: nat,
                       ghost m: Matrix, ghost n: nat, ghost d: nat, ghost bi: nat, ghost bj: nat) returns (r: Block)
    requires blk.size > 0 && n == blk.size * d && k < n && Square(m, n)
    requires Tiles(m, n, blk.size, d, snapshot) && IsBlockOf(m, n, blk.size, d, blk, bi, bj)
    ensures IsBlockOf(Relax(m, n, k), n, blk.size, d, r, bi, bj)
  {
    hide Tiles, Join;
    var own := new Weight[blk.size, blk.size]((i, j) requires 0 <= i < |blk.data| &&
      0 <= j < |blk.data[i]| => blk.data[i][j]);
    ghost var before := Contents(own);
    assert forall i :: 0 <= i < blk.size ==> before[i] == blk.data[i];
    assert before == blk.data;
    ComputeInner(own, blk, snapshot, k, m, n, d, bi, bj);
    var data := Frozen(own);
    hide Window;
    r := blk.(data := data);
  }

  method Frozen(a: array2<Weight>) returns (m: Matrix)
    ensures m == Contents(a)
  {
    m := [];
    for i := 0 to a.Length0
      invariant |m| == i && forall x :: 0 <= x < i ==> m[x] == Contents(a)[x]
    {
      var row: seq<Weight> := [];
      for j := 0 to a.Length1
        invariant |row| == j && forall y :: 0 <= y < j ==> row[y] == a[i, y]
      {
        row := row + [a[i, j]];
      }
      m := m + [row];
    }
  }

  method PassOverRow(snapshot: Grid, size: nat, k: nat, ghost m: Matrix, ghost n: nat, ghost d: nat, bi: nat)
      returns (row: seq<Block>)
    requires size > 0 && n == size * d && k < n && Square(m, n) && Tiles(m, n, size, d, snapshot) && bi < |snapshot|
    ensures RowTiles(Relax(m, n, k), n, size, d, row, bi)
  {
    hide Join, Window;
    row := [];
    assert RowTiles(m, n, size, d, snapshot[bi], bi);
    for bj := 0 to |snapshot[bi]|
      invariant |row| == bj && forall y :: 0 <= y < bj ==> IsBlockOf(Relax(m, n, k), n, size, d, row[y], bi, y)
    {
      assert IsBlockOf(m, n, size, d, snapshot[bi][bj], bi, bj);
      var blk := PassOverBlock(snapshot[bi][bj], snapshot, k, m, n, d, bi, bj);
      row := row + [blk];
    }
  }

  method Pass(snapshot: Grid, size: nat, k: nat, ghost m: Matrix, ghost n: nat, ghost d: nat) returns (g: Grid)
    requires size > 0 && n == size * d && k < n && Square(m, n) && Tiles(m, n, size, d, snapshot)
    ensures Tiles(Relax(m, n, k), n, size, d, g)
  {
    hide RowTiles;
    g := [];
    for bi := 0 to |snapshot|
      invariant |g| == bi && forall x :: 0 <= x < bi ==> RowTiles(Relax(m, n, k), n, size, d, g[x], x)
    {
      var row := PassOverRow(snapshot, size, k, m, n, d, bi);
      g := g + [row];
    }
  }

  /** Running every block against the snapshot of each pass and reassembling gives
      the result of the plain in-place loops. */
  method BlockedFloydWarshall(m: Matrix, size: nat, ghost d: nat) returns (r: Matrix)
    requires size > 0 && d > 0 && Square(m, size * d)
    ensures r == Admit(m, size * d, size * d)
    ensures forall i, j :: 0 <= i < size * d && 0 <= j < size * d ==> IsDistance(m, size * d, i, j, r[i][j])
  {
    hide Tiles, IsDistance;
    ghost var n := size * d;
    var g := BreakIntoBlocks(m, size, d);
    for k := 0 to |m|
      invariant Tiles(Admit(m, n, k), n, size, d, g)
    {
      g := Pass(g, size, k, Admit(m, n, k), n, d);
    }
    r := AssembleFromBlocks(g, Admit(m, n, n), n, size, d);
    forall i, j | 0 <= i < n && 0 <= j < n
      ensures IsDistance(m, n, i, j, r[i][j])
    {
      AdmitAllIsDistance(m, n, i, j);
    }
  }
}
