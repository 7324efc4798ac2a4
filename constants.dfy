/** Static configuration (src/constants.ts): sizes and the block catalog. */
module Constants {
  import opened Types

  const BLOCK_SIZE: int := 1
  const CHUNK_SIZE: int := 32
  const WORLD_HEIGHT: int := 128

  /** The block catalog, keyed by block id. */
  const BLOCKS: map<int, BlockDef> := map[
    1 := BlockDef(1, "Dirt", "#5D4037", false, Solid),
    2 := BlockDef(2, "Grass", "#7CB342", false, Solid),
    3 := BlockDef(3, "Stone", "#9E9E9E", false, Solid),
    4 := BlockDef(4, "Wood", "#795548", false, Solid),
    5 := BlockDef(5, "Leaves", "#2E7D32", false, Solid),
    31 := BlockDef(31, "Neon Blue", "#00D1FF", true, Light),
    32 := BlockDef(32, "Lava", "#FF5722", true, Light),
    33 := BlockDef(33, "Gold", "#FFD700", true, Solid),
    34 := BlockDef(34, "Diamond", "#00E5FF", true, Solid),
    35 := BlockDef(35, "TNT", "#D50000", true, Solid)
  ]

  /** The ids of the free starter blocks. */
  const BASE_IDS: set<int> := {1, 2, 3, 4, 5}
  /** The ids of the premium blocks. */
  const PREMIUM_IDS: set<int> := {31, 32, 33, 34, 35}

  lemma SizesAgree()
    ensures CHUNK_SIZE == 32 && WORLD_HEIGHT == 128 && BLOCK_SIZE == 1
  {
  }

  /** The catalog holds exactly the base and the premium ids, and each entry carries its own key. */
  lemma CatalogKeys()
    ensures BLOCKS.Keys == BASE_IDS + PREMIUM_IDS
    ensures BASE_IDS !! PREMIUM_IDS
    ensures forall id :: id in BLOCKS ==> BLOCKS[id].id == id
  {
  }

  /** Ids 1 to 5 are free solid blocks, ids 31 to 35 are premium. */
  lemma CatalogPremium()
    ensures forall id :: id in BLOCKS ==> (BLOCKS[id].isPremium <==> id in PREMIUM_IDS)
    ensures forall id :: id in BASE_IDS ==> BLOCKS[id].kind == Solid
  {
  }

  /** Only Neon Blue (31) and Lava (32) render as light; no block renders as fluid. */
  lemma CatalogLights()
    ensures forall id :: id in BLOCKS ==> (BLOCKS[id].kind == Light <==> id == 31 || id == 32)
    ensures forall id :: id in BLOCKS ==> BLOCKS[id].kind != Fluid
  {
  }
}
