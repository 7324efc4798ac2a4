/**
 * The records shared by the client and the server (src/types.ts).
 * Numbers are modelled as unbounded integers.
 */
module Types {
  import opened Wrappers

  /** A player's profile. `tgId` is absent when the server stores a profile for an unknown user. */
  datatype UserData = UserData(
    tgId: Option<int>,
    username: Option<string>,
    coins: int,
    premium: bool,
    inventory: seq<int>,
    clanId: Option<string>,
    streak: int,
    lastDaily: int)

  /** How a block type is rendered. */
  datatype RenderKind = Solid | Fluid | Light

  /** A catalog entry (the `Block` interface). */
  datatype BlockDef = BlockDef(id: int, name: string, color: string, isPremium: bool, kind: RenderKind)

  /** One entry of a chunk's block list: a coordinate and a block type id. */
  datatype PlacedBlock = PlacedBlock(x: int, y: int, z: int, blockType: int)

  /** A chunk as the client holds it: its x/z and its block list, in insertion order. */
  datatype ChunkData = ChunkData(x: int, z: int, blocks: seq<PlacedBlock>)

  /** The screens of the client. */
  datatype GameState = Loading | Menu | PlotBuilder | WorldExplorer | Gallery | Admin | Clan | Map
}
