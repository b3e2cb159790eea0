/** A terrain chunk: a 16 x 16 grid of cells whose heights come from five
    octaves of simplex noise sampled on the global grid, meshed as two
    triangles per cell and coloured by height band. The noise function is a
    parameter; vertex normals are left out. */
module Chunks {
  import opened VkTypes
  import opened VertexBuffers
  import opened IndexBuffers

  /** Chunk::s_ChunkLength and Chunk::s_ChunkWidth. */
  const ChunkLength: nat := 16
  const ChunkWidth: nat := 16

  /** Cells per chunk. */
  const CellCount: nat := ChunkLength * ChunkWidth

  /** sizeof(VertexP3C3N3): three vec3 of 32-bit floats. */
  const VertexSize: nat := 36

  const U16Modulus: nat := 0x1_0000

  /** A chunk's position on the chunk grid (glm::ivec2; its y is the z axis). */
  datatype ChunkPosition = ChunkPosition(x: int, z: int)

  datatype Vec3 = Vec3(x: real, y: real, z: real)

  // ---------------------------------------------------------------------
  // Noise map
  // ---------------------------------------------------------------------

  /** glm::simplex keeps its value within [-1, 1]. */
  ghost predicate SimplexBounded(simplex: (real, real) -> real) {
    forall a, b :: -1.0 <= simplex(a, b) <= 1.0
  }

  /** The index on the global sample grid of local sample `local` of the
      chunk at grid coordinate `chunk`. */
  function GlobalIndex(chunk: int, local: nat, extent: nat): (g: int)
    ensures g - local == chunk * extent
  {
    chunk * extent + local
  }

  /** The global index scaled so that 16 chunks span one unit, centred on 0. */
  function NormalisedCoordinate(globalIndex: int, extent: nat): real
    requires extent > 0
  {
    globalIndex as real / (16.0 * extent as real) - 0.5
  }

  /** One octave: simplex noise at the scaled point, remapped from [-1, 1]
      to [0, 1]. */
  function NormalisedSimplex(simplex: (real, real) -> real, scale: real, nx: real, nz: real): real {
    (simplex(scale * nx, scale * nz) + 1.0) / 2.0
  }

  /** Five octaves of doubling frequency and halving weight. */
  function OctaveSum(simplex: (real, real) -> real, nx: real, nz: real): real {
    NormalisedSimplex(simplex, 1.0, nx, nz)
    + 0.5 * NormalisedSimplex(simplex, 2.0, nx, nz)
    + 0.25 * NormalisedSimplex(simplex, 4.0, nx, nz)
    + 0.125 * NormalisedSimplex(simplex, 8.0, nx, nz)
    + 0.0625 * NormalisedSimplex(simplex, 16.0, nx, nz)
  }

  /** The terrain height at a point of the global sample grid: the octave
      sum squared and scaled by 48. */
  function SampleHeight(simplex: (real, real) -> real, gx: int, gz: int): real {
    var s := OctaveSum(simplex, NormalisedCoordinate(gx, ChunkLength), NormalisedCoordinate(gz, ChunkWidth));
    s * s * 48.0
  }

  /** Entry [x][z] of a chunk's noise map. */
  function NoiseSample(simplex: (real, real) -> real, position: ChunkPosition, x: nat, z: nat): real {
    SampleHeight(simplex, GlobalIndex(position.x, x, ChunkLength), GlobalIndex(position.z, z, ChunkWidth))
  }

  /** The (L + 1) x (W + 1) noise map of a chunk: one sample per cell corner. */
  function NoiseMap(simplex: (real, real) -> real, position: ChunkPosition): (m: seq<seq<real>>)
    ensures WellShaped(m)
  {
    seq(ChunkLength + 1, x requires 0 <= x <= ChunkLength =>
      seq(ChunkWidth + 1, z requires 0 <= z <= ChunkWidth => NoiseSample(simplex, position, x, z)))
  }

  predicate WellShaped(m: seq<seq<real>>) {
    |m| == ChunkLength + 1 && forall x :: 0 <= x < |m| ==> |m[x]| == ChunkWidth + 1
  }

  /** Fills the noise map in place, row by row. */
  method CreateNoiseMap(simplex: (real, real) -> real, position: ChunkPosition) returns (noiseMap: seq<seq<real>>)
    ensures WellShaped(noiseMap)
    ensures forall x, z :: 0 <= x <= ChunkLength && 0 <= z <= ChunkWidth ==>
              noiseMap[x][z] == SampleHeight(simplex, position.x * ChunkLength + x, position.z * ChunkWidth + z)
    ensures noiseMap == NoiseMap(simplex, position)
  {
    noiseMap := seq(ChunkLength + 1, _ => seq(ChunkWidth + 1, _ => 0.0));
    var x := 0;
    while x < |noiseMap|
      invariant 0 <= x <= ChunkLength + 1
      invariant WellShaped(noiseMap)
      invariant forall i, j :: 0 <= i < x && 0 <= j <= ChunkWidth ==> noiseMap[i][j] == NoiseSample(simplex, position, i, j)
    {
      var z := 0;
      while z < |noiseMap[0]|
        invariant 0 <= z <= ChunkWidth + 1
        invariant WellShaped(noiseMap)
        invariant forall i, j :: 0 <= i < x && 0 <= j <= ChunkWidth ==> noiseMap[i][j] == NoiseSample(simplex, position, i, j)
        invariant forall j :: 0 <= j < z ==> noiseMap[x][j] == NoiseSample(simplex, position, x, j)
      {
        noiseMap := noiseMap[x := noiseMap[x][z := NoiseSample(simplex, position, x, z)]];
        z := z + 1;
      }
      x := x + 1;
    }
    NoiseMapByEntries(noiseMap, simplex, position);
  }

  /** A well-shaped map with the right entries is the noise map. */
  lemma NoiseMapByEntries(m: seq<seq<real>>, simplex: (real, real) -> real, position: ChunkPosition)
    requires WellShaped(m)
    requires forall x, z :: 0 <= x <= ChunkLength && 0 <= z <= ChunkWidth ==> m[x][z] == NoiseSample(simplex, position, x, z)
    ensures m == NoiseMap(simplex, position)
  {
    var expected := NoiseMap(simplex, position);
    forall x | 0 <= x <= ChunkLength
      ensures m[x] == expected[x]
    {
    }
  }

  /** Adjacent chunks agree on their shared edge: the last column of a chunk
      is the first column of its neighbour along x, and the same along z. */
  lemma NeighboursShareEdges(simplex: (real, real) -> real, position: ChunkPosition, i: nat)
    requires i <= ChunkWidth
    ensures NoiseMap(simplex, position)[ChunkLength][i]
            == NoiseMap(simplex, ChunkPosition(position.x + 1, position.z))[0][i]
    ensures NoiseMap(simplex, position)[i][ChunkWidth]
            == NoiseMap(simplex, ChunkPosition(position.x, position.z + 1))[i][0]
  {
    assert GlobalIndex(position.x, ChunkLength, ChunkLength) == GlobalIndex(position.x + 1, 0, ChunkLength);
    assert GlobalIndex(position.z, ChunkWidth, ChunkWidth) == GlobalIndex(position.z + 1, 0, ChunkWidth);
  }

  /** A sample depends on nothing but its global grid index: any two chunk
      samples at the same global index are equal. */
  lemma SampleDependsOnGlobalIndex(simplex: (real, real) -> real, p: ChunkPosition, x: nat, z: nat, q: ChunkPosition, x': nat, z': nat)
    requires x <= ChunkLength && z <= ChunkWidth && x' <= ChunkLength && z' <= ChunkWidth
    requires GlobalIndex(p.x, x, ChunkLength) == GlobalIndex(q.x, x', ChunkLength)
    requires GlobalIndex(p.z, z, ChunkWidth) == GlobalIndex(q.z, z', ChunkWidth)
    ensures NoiseMap(simplex, p)[x][z] == NoiseMap(simplex, q)[x'][z']
  {
  }

  lemma SquareMonotone(a: real, b: real)
    requires 0.0 <= a <= b
    ensures a * a <= b * b
  {
    assert a * a <= a * b;
  }

  /** With simplex noise in [-1, 1] every octave lies in [0, 1], so the
      octave sum lies in [0, 1.9375] and every height in [0, 48 * 1.9375^2]. */
  lemma HeightBounds(simplex: (real, real) -> real, gx: int, gz: int)
    requires SimplexBounded(simplex)
    ensures 0.0 <= SampleHeight(simplex, gx, gz) <= 48.0 * 1.9375 * 1.9375
  {
    var nx := NormalisedCoordinate(gx, ChunkLength);
    var nz := NormalisedCoordinate(gz, ChunkWidth);
    var s := OctaveSum(simplex, nx, nz);
    assert -1.0 <= simplex(nx, nz) <= 1.0;
    assert -1.0 <= simplex(2.0 * nx, 2.0 * nz) <= 1.0;
    assert -1.0 <= simplex(4.0 * nx, 4.0 * nz) <= 1.0;
    assert -1.0 <= simplex(8.0 * nx, 8.0 * nz) <= 1.0;
    assert -1.0 <= simplex(16.0 * nx, 16.0 * nz) <= 1.0;
    assert 0.0 <= s <= 1.9375;
    SquareMonotone(s, 1.9375);
  }

  // ---------------------------------------------------------------------
  // Biome colours
  // ---------------------------------------------------------------------

  /** The height bands GetBiomeColour distinguishes, lowest first. */
  datatype Biome =
    | DeepWater | Water | Sand | Grass | HighlandsGrass | MountainousGrass
    | MountainGrassConnection | Mountain | HighMountain | VeryHighMountain | SnowCap

  /** The lower bounds of the bands above the first. */
  const BiomeThresholds: seq<real> := [8.0, 16.0, 20.0, 32.0, 36.0, 48.0, 56.0, 72.0, 88.0, 96.0]

  /** The position of a band in the order above. */
  function BandIndex(b: Biome): (i: nat)
    ensures i <= |BiomeThresholds|
  {
    match b
    case DeepWater => 0
    case Water => 1
    case Sand => 2
    case Grass => 3
    case HighlandsGrass => 4
    case MountainousGrass => 5
    case MountainGrassConnection => 6
    case Mountain => 7
    case HighMountain => 8
    case VeryHighMountain => 9
    case SnowCap => 10
  }

  /** The band of a height: its index is the number of thresholds the height
      reaches. */
  function GetBiome(height: real): (b: Biome)
    ensures forall i :: 0 <= i < |BiomeThresholds| ==> (BiomeThresholds[i] <= height <==> i < BandIndex(b))
  {
    if height < 8.0 then DeepWater
    else if height < 16.0 then Water
    else if height < 20.0 then Sand
    else if height < 32.0 then Grass
    else if height < 36.0 then HighlandsGrass
    else if height < 48.0 then MountainousGrass
    else if height < 56.0 then MountainGrassConnection
    else if height < 72.0 then Mountain
    else if height < 88.0 then HighMountain
    else if height < 96.0 then VeryHighMountain
    else SnowCap
  }

  /** Higher ground never falls into a lower band. */
  lemma BiomeMonotone(low: real, high: real)
    requires low <= high
    ensures BandIndex(GetBiome(low)) <= BandIndex(GetBiome(high))
  {
    var l := BandIndex(GetBiome(low));
    if l > 0 {
      assert BiomeThresholds[l - 1] <= low;
    }
  }

  /** Every band is reached, by the height at its lower bound. */
  lemma EveryBiomeReached(b: Biome)
    ensures BandIndex(b) == 0 ==> GetBiome(0.0) == b
    ensures BandIndex(b) > 0 ==> GetBiome(BiomeThresholds[BandIndex(b) - 1]) == b
  {
  }

  datatype Colour = Colour(r: real, g: real, b: real)

  function BiomeColour(b: Biome): Colour {
    match b
    case DeepWater => Colour(0.0, 0.2, 0.8)
    case Water => Colour(0.0, 0.5, 1.0)
    case Sand => Colour(1.0, 1.0, 0.5)
    case Grass => Colour(0.2, 0.8, 0.1)
    case HighlandsGrass => Colour(0.2, 0.6, 0.1)
    case MountainousGrass => Colour(0.2, 0.5, 0.1)
    case MountainGrassConnection => Colour(0.3, 0.3, 0.1)
    case Mountain => Colour(0.4, 0.2, 0.1)
    case HighMountain => Colour(0.6, 0.4, 0.3)
    case VeryHighMountain => Colour(1.0, 0.8, 0.7)
    case SnowCap => Colour(1.0, 1.0, 1.0)
  }

  /** The colour of a height's band: it is the colour of exactly one band,
      the height's own, so two heights share a colour iff they share a band. */
  function GetBiomeColour(height: real): (c: Colour)
    ensures forall b :: c == BiomeColour(b) <==> b == GetBiome(height)
  {
    BiomeColour(GetBiome(height))
  }

  /** Each band has its own colour, so a colour tells the band back. */
  lemma BiomeColoursDistinct(a: Biome, b: Biome)
    ensures BiomeColour(a) == BiomeColour(b) <==> a == b
  {
  }

  // ---------------------------------------------------------------------
  // Mesh
  // ---------------------------------------------------------------------

  /** A mesh vertex: position and colour (the normal is left out). */
  datatype ChunkVertex = ChunkVertex(position: Vec3, colour: Colour)

  /** The grid corner (x, z) at its noise-map height, in chunk space. */
  function Corner(m: seq<seq<real>>, x: nat, z: nat): Vec3
    requires WellShaped(m) && x <= ChunkLength && z <= ChunkWidth
  {
    Vec3(x as real, m[x][z], z as real)
  }

  /** The four vertices cell (x, z) emits. */
  function CellVertices(m: seq<seq<real>>, x: nat, z: nat): (r: seq<ChunkVertex>)
    requires WellShaped(m) && x < ChunkLength && z < ChunkWidth
    ensures |r| == 4
  {
    var colour := GetBiomeColour(m[x][z]);
    [ChunkVertex(Corner(m, x, z), colour), ChunkVertex(Corner(m, x + 1, z), colour),
     ChunkVertex(Corner(m, x, z + 1), colour), ChunkVertex(Corner(m, x + 1, z + 1), colour)]
  }

  /** The two triangles of a cell, relative to its first vertex. */
  const CellPattern: seq<nat> := [0, 1, 2, 2, 1, 3]

  /** The six indices cell k emits. */
  function CellIndices(k: nat): (r: seq<nat>)
    ensures |r| == 6
    ensures forall j :: 0 <= j < 6 ==> r[j] == 4 * k + CellPattern[j]
  {
    [4 * k, 4 * k + 1, 4 * k + 2, 4 * k + 2, 4 * k + 1, 4 * k + 3]
  }

  /** The vertices of the first z cells of row x. */
  function RowVertices(m: seq<seq<real>>, x: nat, z: nat): (r: seq<ChunkVertex>)
    requires WellShaped(m) && x < ChunkLength && z <= ChunkWidth
    ensures |r| == 4 * z
  {
    if z == 0 then [] else RowVertices(m, x, z - 1) + CellVertices(m, x, z - 1)
  }

  /** The vertices of the first `rows` rows of cells. */
  function MeshVertices(m: seq<seq<real>>, rows: nat): (r: seq<ChunkVertex>)
    requires WellShaped(m) && rows <= ChunkLength
    ensures |r| == 4 * ChunkWidth * rows
  {
    if rows == 0 then [] else MeshVertices(m, rows - 1) + RowVertices(m, rows - 1, ChunkWidth)
  }

  /** The indices of the first n cells; every one names a vertex those cells
      emit. */
  function MeshIndices(n: nat): (r: seq<nat>)
    ensures |r| == 6 * n
    ensures forall i :: 0 <= i < |r| ==> r[i] < 4 * n
  {
    if n == 0 then [] else MeshIndices(n - 1) + CellIndices(n - 1)
  }

  /** Index 6k + j of the mesh is 4k + CellPattern[j]: each cell's triangles
      use that cell's own four vertices. */
  lemma {:induction false} MeshIndexPattern(n: nat, k: nat, j: nat)
    requires k < n && j < 6
    ensures MeshIndices(n)[6 * k + j] == 4 * k + CellPattern[j]
  {
    if k < n - 1 {
      MeshIndexPattern(n - 1, k, j);
      assert MeshIndices(n) == MeshIndices(n - 1) + CellIndices(n - 1);
    } else {
      assert MeshIndices(n)[6 * k + j] == CellIndices(k)[j];
    }
  }

  /** Vertices 4z .. 4z + 3 of a row are cell z's. */
  lemma {:induction false} RowVertexCell(m: seq<seq<real>>, x: nat, n: nat, z: nat)
    requires WellShaped(m) && x < ChunkLength && n <= ChunkWidth && z < n
    ensures RowVertices(m, x, n)[4 * z .. 4 * z + 4] == CellVertices(m, x, z)
  {
    if z < n - 1 {
      RowVertexCell(m, x, n - 1, z);
      assert RowVertices(m, x, n)[..4 * (n - 1)] == RowVertices(m, x, n - 1);
    }
  }

  /** Vertices 4Wx .. 4W(x + 1) - 1 of the mesh are row x's. */
  lemma {:induction false} MeshVertexRow(m: seq<seq<real>>, rows: nat, x: nat)
    requires WellShaped(m) && rows <= ChunkLength && x < rows
    ensures MeshVertices(m, rows)[4 * ChunkWidth * x .. 4 * ChunkWidth * (x + 1)] == RowVertices(m, x, ChunkWidth)
  {
    var prev := MeshVertices(m, rows - 1);
    var last := RowVertices(m, rows - 1, ChunkWidth);
    assert MeshVertices(m, rows) == prev + last;
    if x < rows - 1 {
      MeshVertexRow(m, rows - 1, x);
      SliceOfFront(prev, last, 4 * ChunkWidth * x, 4 * ChunkWidth * (x + 1));
    } else {
      assert (prev + last)[|prev|..] == last;
    }
  }

  /** A slice within the front part of a concatenation is a slice of that
      part. */
  lemma SliceOfFront<T>(front: seq<T>, back: seq<T>, i: nat, j: nat)
    requires i <= j <= |front|
    ensures (front + back)[i..j] == front[i..j]
  {
  }

  /** Cell (x, z) is cell x * W + z of the mesh; its vertices lie at the
      corners (x, z), (x + 1, z), (x, z + 1), (x + 1, z + 1) in that order,
      and all four take the colour of corner (x, z). */
  lemma CellCorners(m: seq<seq<real>>, x: nat, z: nat)
    requires WellShaped(m) && x < ChunkLength && z < ChunkWidth
    ensures var k := x * ChunkWidth + z;
            var v := MeshVertices(m, ChunkLength);
            && k < CellCount
            && v[4 * k].position == Corner(m, x, z)
            && v[4 * k + 1].position == Corner(m, x + 1, z)
            && v[4 * k + 2].position == Corner(m, x, z + 1)
            && v[4 * k + 3].position == Corner(m, x + 1, z + 1)
            && forall vertex :: vertex in v[4 * k .. 4 * k + 4] ==> vertex.colour == GetBiomeColour(m[x][z])
  {
    var k := x * ChunkWidth + z;
    var v := MeshVertices(m, ChunkLength);
    var cell := CellVertices(m, x, z);
    MeshCellSlice(m, x, z);
    assert v[4 * k] == cell[0] && v[4 * k + 1] == cell[1] && v[4 * k + 2] == cell[2] && v[4 * k + 3] == cell[3];
  }

  /** Vertices 4k .. 4k + 3 of the mesh, k = x * W + z, are cell (x, z)'s. */
  lemma MeshCellSlice(m: seq<seq<real>>, x: nat, z: nat)
    requires WellShaped(m) && x < ChunkLength && z < ChunkWidth
    ensures x * ChunkWidth + z < CellCount
    ensures var k := x * ChunkWidth + z;
            MeshVertices(m, ChunkLength)[4 * k .. 4 * k + 4] == CellVertices(m, x, z)
  {
    MeshCellSliceUpTo(m, ChunkLength, x, z);
    assert |MeshVertices(m, ChunkLength)| == 4 * CellCount;
  }

  /** The same within the first `rows` rows. */
  lemma MeshCellSliceUpTo(m: seq<seq<real>>, rows: nat, x: nat, z: nat)
    requires WellShaped(m) && rows <= ChunkLength && x < rows && z < ChunkWidth
    ensures var k := x * ChunkWidth + z;
            4 * k + 4 <= |MeshVertices(m, rows)| && MeshVertices(m, rows)[4 * k .. 4 * k + 4] == CellVertices(m, x, z)
  {
    var v := MeshVertices(m, rows);
    var start := 4 * ChunkWidth * x;
    assert 4 * (x * ChunkWidth + z) == start + 4 * z;
    MeshVertexRow(m, rows, x);
    RowVertexCell(m, x, ChunkWidth, z);
    SliceOfSlice(v, start, start + 4 * ChunkWidth, 4 * z, 4 * z + 4);
  }

  /** A slice of a slice is a slice of the whole. */
  lemma SliceOfSlice<T>(s: seq<T>, a: nat, b: nat, i: nat, j: nat)
    requires a <= b <= |s| && i <= j <= b - a
    ensures s[a..b][i..j] == s[a + i..a + j]
  {
    var outer := s[a..b];
    forall k | 0 <= k < j - i
      ensures outer[i..j][k] == s[a + i..a + j][k]
    {
      assert outer[i..j][k] == outer[i + k] == s[a + i + k];
    }
  }

  /** A uint16_t conversion. */
  function WrapU16(v: nat): (r: nat)
    ensures r < U16Modulus
    ensures v < U16Modulus ==> r == v
  {
    v % U16Modulus
  }

  /** The body of the mesh loop for cell (x, z): its four corner vertices
      in the colour of corner (x, z), and its two triangles as 16-bit
      indices offset by the vertices emitted before it. */
  method EmitCell(m: seq<seq<real>>, x: nat, z: nat, indexCount: nat) returns (cellVertices: seq<ChunkVertex>, cellIndices: seq<nat>)
    requires WellShaped(m) && x < ChunkLength && z < ChunkWidth
    requires indexCount == 4 * (x * ChunkWidth + z)
    ensures cellVertices == CellVertices(m, x, z)
    ensures cellIndices == CellIndices(x * ChunkWidth + z)
  {
    var colour := GetBiomeColour(m[x][z]);
    cellVertices := [
      ChunkVertex(Vec3(x as real, m[x][z], z as real), colour),
      ChunkVertex(Vec3(1.0 + x as real, m[x + 1][z], z as real), colour),
      ChunkVertex(Vec3(x as real, m[x][z + 1], 1.0 + z as real), colour),
      ChunkVertex(Vec3(1.0 + x as real, m[x + 1][z + 1], 1.0 + z as real), colour)];
    assert indexCount + 3 < U16Modulus;
    cellIndices := [
      WrapU16(indexCount + 0), WrapU16(indexCount + 1), WrapU16(indexCount + 2),
      WrapU16(indexCount + 2), WrapU16(indexCount + 1), WrapU16(indexCount + 3)];
  }

  /** The inner loop of the mesh builder: appends the cells of row x, one
      after the other, to the mesh of the rows before it. */
  method EmitRow(m: seq<seq<real>>, x: nat, indexCount: nat) returns (rowVertices: seq<ChunkVertex>, rowIndices: seq<nat>, indexCount': nat)
    requires WellShaped(m) && x < ChunkLength
    requires indexCount == 4 * (x * ChunkWidth)
    ensures rowVertices == RowVertices(m, x, ChunkWidth)
    ensures MeshIndices(x * ChunkWidth) + rowIndices == MeshIndices((x + 1) * ChunkWidth)
    ensures indexCount' == 4 * ((x + 1) * ChunkWidth)
  {
    rowVertices, rowIndices, indexCount' := [], [], indexCount;
    var z := 0;
    while z < ChunkWidth
      invariant 0 <= z <= ChunkWidth
      invariant indexCount' == 4 * (x * ChunkWidth + z)
      invariant rowVertices == RowVertices(m, x, z)
      invariant MeshIndices(x * ChunkWidth) + rowIndices == MeshIndices(x * ChunkWidth + z)
    {
      var cellVertices, cellIndices := EmitCell(m, x, z, indexCount');
      rowVertices := rowVertices + cellVertices;
      assert MeshIndices(x * ChunkWidth + z + 1) == MeshIndices(x * ChunkWidth + z) + cellIndices;
      rowIndices := rowIndices + cellIndices;
      indexCount' := indexCount' + 4;
      z := z + 1;
    }
  }

  /** Emits the vertices and the 16-bit indices of every cell, row by row,
      with a running count of the vertices emitted so far. */
  method BuildMesh(m: seq<seq<real>>) returns (vertices: seq<ChunkVertex>, indices: seq<nat>)
    requires WellShaped(m)
    ensures vertices == MeshVertices(m, ChunkLength)
    ensures indices == MeshIndices(CellCount)
  {
    vertices := [];
    indices := [];
    var indexCount: nat := 0;
    var x := 0;
    while x < ChunkLength
      invariant 0 <= x <= ChunkLength
      invariant indexCount == 4 * (x * ChunkWidth)
      invariant vertices == MeshVertices(m, x) && indices == MeshIndices(x * ChunkWidth)
    {
      var rowVertices, rowIndices;
      rowVertices, rowIndices, indexCount := EmitRow(m, x, indexCount);
      vertices := vertices + rowVertices;
      indices := indices + rowIndices;
      x := x + 1;
    }
  }

  /** A chunk's mesh: 4LW vertices and 6LW indices, each index naming one
      of the vertices and fitting in 16 bits. */
  lemma MeshSize(m: seq<seq<real>>)
    requires WellShaped(m)
    ensures |MeshVertices(m, ChunkLength)| == 1024
    ensures |MeshIndices(CellCount)| == 1536
    ensures forall i :: 0 <= i < 1536 ==> MeshIndices(CellCount)[i] < 1024 < U16Modulus
  {
  }

  // ---------------------------------------------------------------------
  // The chunk
  // ---------------------------------------------------------------------

  /** The model matrix's translation: the chunk's grid position times the
      chunk size, on the ground plane. */
  function ModelTranslation(position: ChunkPosition): (t: Vec3)
    ensures t.y == 0.0
    ensures t.x == (position.x * ChunkLength) as real && t.z == (position.z * ChunkWidth) as real
  {
    Vec3((position.x * ChunkLength) as real, 0.0, (position.z * ChunkWidth) as real)
  }

  /** A corner of a chunk in world space. */
  function WorldCorner(simplex: (real, real) -> real, position: ChunkPosition, x: nat, z: nat): Vec3
    requires x <= ChunkLength && z <= ChunkWidth
  {
    var local := Corner(NoiseMap(simplex, position), x, z);
    var t := ModelTranslation(position);
    Vec3(t.x + local.x, t.y + local.y, t.z + local.z)
  }

  /** Neighbouring chunks meet without a crack: the far edge of a chunk and
      the near edge of the next one are the same points in world space. */
  lemma NeighboursMeetSeamlessly(simplex: (real, real) -> real, position: ChunkPosition, i: nat)
    requires i <= ChunkWidth
    ensures WorldCorner(simplex, position, ChunkLength, i)
            == WorldCorner(simplex, ChunkPosition(position.x + 1, position.z), 0, i)
    ensures WorldCorner(simplex, position, i, ChunkWidth)
            == WorldCorner(simplex, ChunkPosition(position.x, position.z + 1), i, 0)
  {
    NeighboursShareEdges(simplex, position, i);
  }

  class Chunk {
    var position: ChunkPosition
    var translation: Vec3
    var vertexBuffer: VertexBuffer
    var indexBuffer: IndexBuffer
    /** What the two buffers hold on the device. */
    ghost var uploadedVertices: seq<ChunkVertex>
    ghost var uploadedIndices: seq<nat>

    /** The draw call covers every uploaded index and every index names an
        uploaded vertex. */
    ghost predicate Valid()
      reads this, vertexBuffer, indexBuffer
    {
      && vertexBuffer.vertexCount == |uploadedVertices|
      && indexBuffer.indexCount == |uploadedIndices|
      && indexBuffer.indexType == IndexTypeUint16
      && forall i :: 0 <= i < |uploadedIndices| ==> uploadedIndices[i] < |uploadedVertices|
    }

    /** Places the chunk and builds and uploads its mesh; the buffers the
        allocator returns are parameters. */
    constructor(position: ChunkPosition, simplex: (real, real) -> real, vertexBufferHandle: Handle, indexBufferHandle: Handle)
      ensures Valid()
      ensures this.position == position && translation == ModelTranslation(position)
      ensures uploadedVertices == MeshVertices(NoiseMap(simplex, position), ChunkLength)
      ensures uploadedIndices == MeshIndices(CellCount)
      ensures vertexBuffer.bufferHandle == vertexBufferHandle && indexBuffer.bufferHandle == indexBufferHandle
    {
      this.position := position;
      translation := ModelTranslation(position);
      vertexBuffer := new VertexBuffer();
      indexBuffer := new IndexBuffer();
      new;
      InitialiseVertices(simplex, vertexBufferHandle, indexBufferHandle);
    }

    /** Builds the mesh from the noise map and uploads the vertices and the
        16-bit indices. */
    method InitialiseVertices(simplex: (real, real) -> real, vertexBufferHandle: Handle, indexBufferHandle: Handle)
      modifies this`uploadedVertices, this`uploadedIndices, vertexBuffer, indexBuffer
      ensures Valid()
      ensures uploadedVertices == MeshVertices(NoiseMap(simplex, position), ChunkLength)
      ensures uploadedIndices == MeshIndices(CellCount)
      ensures vertexBuffer.uploadedSize == VertexSize * |uploadedVertices|
      ensures indexBuffer.uploadedSize == 2 * |uploadedIndices|
      ensures vertexBuffer.bufferHandle == vertexBufferHandle && indexBuffer.bufferHandle == indexBufferHandle
    {
      var noiseMap := CreateNoiseMap(simplex, position);
      var vertices, indices := BuildMesh(noiseMap);
      MeshSize(noiseMap);
      vertexBuffer.Initialise(VertexSize, |vertices|, vertexBufferHandle);
      indexBuffer.Initialise(U16, |indices|, indexBufferHandle);
      uploadedVertices := vertices;
      uploadedIndices := indices;
    }

    /** The translation pushed as the model matrix and the index count of
        the draw call. */
    method Render() returns (modelTranslation: Vec3, drawIndexCount: nat)
      requires Valid()
      ensures modelTranslation == translation
      ensures drawIndexCount == |uploadedIndices|
      ensures forall i :: 0 <= i < drawIndexCount ==> uploadedIndices[i] < vertexBuffer.vertexCount
    {
      modelTranslation := translation;
      drawIndexCount := indexBuffer.indexCount;
    }
  }
}
