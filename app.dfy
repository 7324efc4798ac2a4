/**
 * The client's game state (src/App.tsx): the chunk list with its place and
 * remove edits, the start of a game, and the screen transitions. Each React
 * state update is a pure transformer over AppState.
 */
module App {
  import opened Wrappers
  import opened Types
  import Constants

  /** The component state the handlers touch. */
  datatype AppState = AppState(gameState: GameState, user: Option<UserData>, chunks: seq<ChunkData>)

  /** Before login: the loading screen, no user, no chunks. */
  const Initial: AppState := AppState(Loading, None, [])

  /** The chunk list every game starts from: one chunk at (0,0) with two grass blocks. */
  const SeedChunks: seq<ChunkData> :=
    [ChunkData(0, 0, [PlacedBlock(0, 0, 0, 2), PlacedBlock(1, 0, 0, 2)])]

  /**
   * The profile the demo login installs; `now` is the clock reading it stores.
   * Its inventory holds every catalog block, premium ones included, although
   * the profile itself is not premium.
   */
  function MockUser(now: int): (u: UserData)
    ensures u.tgId == Some(12345) && u.coins == 100 && !u.premium && u.streak == 1 && u.lastDaily == now
    ensures u.username.None? && u.clanId.None?
    ensures forall id :: id in u.inventory <==> id in Constants.BASE_IDS + Constants.PREMIUM_IDS
  {
    UserData(Some(12345), None, 100, false, [1, 2, 3, 4, 5, 31, 32, 33, 34, 35], None, 1, now)
  }

  /** The demo inventory is the whole catalog, premium blocks included. */
  lemma MockInventoryIsCatalog(now: int)
    ensures forall id :: id in MockUser(now).inventory <==> id in Constants.BLOCKS
    ensures exists id :: id in MockUser(now).inventory && Constants.BLOCKS[id].isPremium
  {
  }

  // ---------------------------------------------------------------------------
  // Chunk edits

  /** The block list of every chunk, concatenated in chunk order. */
  function AllBlocks(chunks: seq<ChunkData>): seq<PlacedBlock>
  {
    if chunks == [] then [] else chunks[0].blocks + AllBlocks(chunks[1..])
  }

  predicate At(b: PlacedBlock, x: int, y: int, z: int)
  {
    b.x == x && b.y == y && b.z == z
  }

  /** The block list with every entry at (x, y, z) filtered out, whatever its type. */
  function WithoutCoordinate(blocks: seq<PlacedBlock>, x: int, y: int, z: int): (r: seq<PlacedBlock>)
    ensures |r| <= |blocks|
    ensures forall b :: b in r <==> b in blocks && !At(b, x, y, z)
  {
    if blocks == [] then []
    else (if At(blocks[0], x, y, z) then [] else [blocks[0]]) + WithoutCoordinate(blocks[1..], x, y, z)
  }

  /** The placement reward: one coin to a present user; an absent user stays absent. */
  function Reward(u: Option<UserData>): (r: Option<UserData>)
    ensures r.Some? <==> u.Some?
    ensures u.Some? ==> r.value.coins == u.value.coins + 1
    ensures u.Some? ==> r.value.(coins := u.value.coins) == u.value
  {
    match u
    case None => None
    case Some(d) => Some(d.(coins := d.coins + 1))
  }

  /**
   * handlePlaceBlock: appends {x, y, z, type} to chunk 0's block list, creating
   * chunk (0,0) first when the list is empty, and credits one coin. There is no
   * occupancy, height or catalog check, and x/z do not choose the chunk.
   */
  function PlaceBlock(s: AppState, x: int, y: int, z: int, t: int): (r: AppState)
    ensures r.gameState == s.gameState && r.user == Reward(s.user)
    ensures |r.chunks| == if s.chunks == [] then 1 else |s.chunks|
    ensures s.chunks == [] ==> r.chunks == [ChunkData(0, 0, [PlacedBlock(x, y, z, t)])]
    ensures s.chunks != [] ==>
      && r.chunks[0] == s.chunks[0].(blocks := s.chunks[0].blocks + [PlacedBlock(x, y, z, t)])
      && r.chunks[1..] == s.chunks[1..]
  {
    var chunks := if s.chunks == [] then [ChunkData(0, 0, [])] else s.chunks;
    var first := chunks[0].(blocks := chunks[0].blocks + [PlacedBlock(x, y, z, t)]);
    assert s.chunks == [] ==> chunks[1..] == [] && first.blocks == [PlacedBlock(x, y, z, t)];
    s.(chunks := [first] + chunks[1..], user := Reward(s.user))
  }

  /**
   * handleRemoveBlock: filters (x, y, z) out of every chunk's block list.
   * The chunk count, each chunk's x/z, the screen and the user stay as they were.
   */
  function RemoveBlock(s: AppState, x: int, y: int, z: int): (r: AppState)
    ensures r.gameState == s.gameState && r.user == s.user
    ensures |r.chunks| == |s.chunks|
    ensures forall i :: 0 <= i < |s.chunks| ==>
      && r.chunks[i].x == s.chunks[i].x && r.chunks[i].z == s.chunks[i].z
      && r.chunks[i].blocks == WithoutCoordinate(s.chunks[i].blocks, x, y, z)
    ensures forall i, b :: 0 <= i < |s.chunks| && b in r.chunks[i].blocks ==> !At(b, x, y, z)
  {
    s.(chunks := seq(|s.chunks|, i requires 0 <= i < |s.chunks| =>
      s.chunks[i].(blocks := WithoutCoordinate(s.chunks[i].blocks, x, y, z))))
  }

  /** startGame: 'plot' opens the plot builder, every other mode the world explorer; the chunks are reset. */
  function StartGame(s: AppState, mode: string): (r: AppState)
    ensures r.gameState == PlotBuilder <==> mode == "plot"
    ensures r.gameState in {PlotBuilder, WorldExplorer}
    ensures r.chunks == SeedChunks && r.user == s.user
  {
    AppState(if mode == "plot" then PlotBuilder else WorldExplorer, s.user, SeedChunks)
  }

  /** Filtering distributes over concatenation: what is kept keeps its order. */
  lemma {:induction false} WithoutCoordinateAppend(a: seq<PlacedBlock>, b: seq<PlacedBlock>, x: int, y: int, z: int)
    ensures WithoutCoordinate(a + b, x, y, z) == WithoutCoordinate(a, x, y, z) + WithoutCoordinate(b, x, y, z)
  {
    if a == [] {
      assert a + b == b;
    } else {
      assert (a + b)[1..] == a[1..] + b;
      WithoutCoordinateAppend(a[1..], b, x, y, z);
    }
  }

  /** Each block at (x, y, z) loses all its entries, every other block keeps its count. */
  lemma {:induction false} WithoutCoordinateCounts(blocks: seq<PlacedBlock>, x: int, y: int, z: int, b: PlacedBlock)
    ensures multiset(WithoutCoordinate(blocks, x, y, z))[b] == if At(b, x, y, z) then 0 else multiset(blocks)[b]
  {
    if blocks != [] {
      WithoutCoordinateCounts(blocks[1..], x, y, z, b);
      assert blocks == [blocks[0]] + blocks[1..];
    }
  }

  /** A list holding nothing at (x, y, z) is left as it is. */
  lemma {:induction false} WithoutCoordinateAbsent(blocks: seq<PlacedBlock>, x: int, y: int, z: int)
    requires forall b :: b in blocks ==> !At(b, x, y, z)
    ensures WithoutCoordinate(blocks, x, y, z) == blocks
  {
    if blocks != [] {
      WithoutCoordinateAbsent(blocks[1..], x, y, z);
    }
  }

  /** Removing twice equals removing once, and removal never changes the user's coins. */
  lemma RemoveIdempotent(s: AppState, x: int, y: int, z: int)
    ensures RemoveBlock(RemoveBlock(s, x, y, z), x, y, z) == RemoveBlock(s, x, y, z)
    ensures RemoveBlock(s, x, y, z).user == s.user
  {
    var once := RemoveBlock(s, x, y, z);
    forall i | 0 <= i < |s.chunks|
      ensures WithoutCoordinate(once.chunks[i].blocks, x, y, z) == once.chunks[i].blocks
    {
      WithoutCoordinateAbsent(once.chunks[i].blocks, x, y, z);
    }
  }

  /** Removing at a coordinate no chunk holds changes nothing. */
  lemma RemoveAbsentIsNoop(s: AppState, x: int, y: int, z: int)
    requires forall b :: b in AllBlocks(s.chunks) ==> !At(b, x, y, z)
    ensures RemoveBlock(s, x, y, z) == s
  {
    forall i | 0 <= i < |s.chunks|
      ensures WithoutCoordinate(s.chunks[i].blocks, x, y, z) == s.chunks[i].blocks
    {
      BlocksOfChunkInAll(s.chunks, i);
      WithoutCoordinateAbsent(s.chunks[i].blocks, x, y, z);
    }
  }

  lemma {:induction false} BlocksOfChunkInAll(chunks: seq<ChunkData>, i: int)
    requires 0 <= i < |chunks|
    ensures forall b :: b in chunks[i].blocks ==> b in AllBlocks(chunks)
  {
    if i > 0 {
      BlocksOfChunkInAll(chunks[1..], i - 1);
    }
  }

  /** A placement adds exactly one entry {x, y, z, type} to the world and nothing else. */
  lemma PlaceAddsOneEntry(s: AppState, x: int, y: int, z: int, t: int)
    ensures multiset(AllBlocks(PlaceBlock(s, x, y, z, t).chunks))
         == multiset(AllBlocks(s.chunks)) + multiset{PlacedBlock(x, y, z, t)}
  {
  }

  /** Placing the same block twice leaves two entries for it at the end of chunk 0. */
  lemma PlaceTwiceKeepsBoth(s: AppState, x: int, y: int, z: int, t: int)
    ensures var once := PlaceBlock(s, x, y, z, t);
            var twice := PlaceBlock(once, x, y, z, t);
            && twice.chunks[0].blocks
               == (if s.chunks == [] then [] else s.chunks[0].blocks) + [PlacedBlock(x, y, z, t), PlacedBlock(x, y, z, t)]
            && (s.user.Some? ==> twice.user.value.coins == s.user.value.coins + 2)
  {
  }

  /**
   * Every block goes into chunk 0, whatever its x/z: right after a game starts,
   * a block at (100, 0, 100) lands in chunk (0,0), though 100 lies past
   * CHUNK_SIZE.
   */
  lemma PlaceIgnoresChunkCoordinates(mode: string)
    ensures var r := PlaceBlock(StartGame(Initial, mode), 100, 0, 100, 2);
            && |r.chunks| == 1 && r.chunks[0].x == 0 && r.chunks[0].z == 0
            && PlacedBlock(100, 0, 100, 2) in r.chunks[0].blocks
            && 100 >= Constants.CHUNK_SIZE
  {
  }

  /**
   * Removing at the coordinate just placed takes back the block (and any older
   * entries there) but not the coin: the chunks equal a removal on the state
   * before the placement.
   */
  lemma RemoveAfterPlace(s: AppState, x: int, y: int, z: int, t: int)
    requires s.chunks != []
    ensures RemoveBlock(PlaceBlock(s, x, y, z, t), x, y, z).chunks == RemoveBlock(s, x, y, z).chunks
    ensures RemoveBlock(PlaceBlock(s, x, y, z, t), x, y, z).user == Reward(s.user)
  {
    var p := PlaceBlock(s, x, y, z, t);
    var b := PlacedBlock(x, y, z, t);
    WithoutCoordinateAppend(s.chunks[0].blocks, [b], x, y, z);
    assert WithoutCoordinate([b], x, y, z) == [];
    var lhs := RemoveBlock(p, x, y, z).chunks;
    var rhs := RemoveBlock(s, x, y, z).chunks;
    assert |lhs| == |rhs|;
    forall i | 0 <= i < |lhs| ensures lhs[i] == rhs[i] {
      if i > 0 {
        assert p.chunks[i] == p.chunks[1..][i - 1] == s.chunks[1..][i - 1] == s.chunks[i];
      }
    }
  }

  // ---------------------------------------------------------------------------
  // Screens

  /** The user actions (and the login timer) that drive the screens. */
  datatype Event =
    | LoginDone(now: int)                          // the demo login timer fires
    | StartMode(mode: string)                      // a main-menu button
    | OpenAdmin                                    // the hidden corner of the menu
    | Back                                         // HUD, admin or coming-soon back button
    | Place(x: int, y: int, z: int, blockType: int)  // the scene's place callback
    | Remove(x: int, y: int, z: int)               // the scene's remove callback

  predicate InScene(g: GameState)
  {
    g == PlotBuilder || g == WorldExplorer
  }

  predicate ComingSoon(g: GameState)
  {
    g == Gallery || g == Clan || g == Map
  }

  /**
   * Whether the control that raises the event is on screen in state s. Seen
   * per screen: the loading screen only waits for the login timer; the menu
   * offers its mode buttons (once a user is loaded) and the admin corner; the
   * game screens offer Back, place and remove; the admin and coming-soon
   * screens offer only Back.
   */
  predicate Enabled(s: AppState, e: Event)
    ensures Enabled(s, e) && s.gameState == Loading ==> e.LoginDone?
    ensures Enabled(s, e) && s.gameState == Menu ==> (e.StartMode? && s.user.Some?) || e.OpenAdmin?
    ensures Enabled(s, e) && InScene(s.gameState) ==> e.Back? || e.Place? || e.Remove?
    ensures Enabled(s, e) && (s.gameState == Admin || ComingSoon(s.gameState)) ==> e.Back?
  {
    match e
    case LoginDone(_) => s.gameState == Loading
    case StartMode(_) => s.gameState == Menu && s.user.Some?
    case OpenAdmin => s.gameState == Menu
    case Back => s.gameState in {PlotBuilder, WorldExplorer, Admin, Gallery, Clan, Map}
    case Place(_, _, _, _) => InScene(s.gameState)
    case Remove(_, _, _) => InScene(s.gameState)
  }

  /** One transition; an event whose control is not on screen changes nothing. */
  function Step(s: AppState, e: Event): (r: AppState)
    ensures !Enabled(s, e) ==> r == s
    ensures ComingSoon(r.gameState) ==> r == s
    ensures e.Back? && Enabled(s, e) ==> r.gameState == Menu && r.user == s.user && r.chunks == s.chunks
    ensures e.LoginDone? && Enabled(s, e) ==> r.gameState == Menu && r.user.Some?
  {
    if !Enabled(s, e) then s
    else match e
      case LoginDone(now) => s.(gameState := Menu, user := Some(MockUser(now)))
      case StartMode(mode) => StartGame(s, mode)
      case OpenAdmin => s.(gameState := Admin)
      case Back => s.(gameState := Menu)
      case Place(x, y, z, t) => PlaceBlock(s, x, y, z, t)
      case Remove(x, y, z) => RemoveBlock(s, x, y, z)
  }

  /** The state after a sequence of events. */
  function Run(s: AppState, events: seq<Event>): AppState
    decreases |events|
  {
    if events == [] then s else Run(Step(s, events[0]), events[1..])
  }

  /** What every state reachable from Initial satisfies. */
  ghost predicate Reachable(s: AppState)
  {
    && !ComingSoon(s.gameState)
    && (s.gameState == Loading <==> s.user.None?)
    && (s.gameState == Loading ==> s.chunks == [])
    && (InScene(s.gameState) ==> s.chunks != [])
  }

  lemma {:induction false} RunKeepsReachable(s: AppState, events: seq<Event>)
    requires Reachable(s)
    ensures Reachable(Run(s, events))
    decreases |events|
  {
    if events != [] {
      var e := events[0];
      var n := Step(s, e);
      assert Reachable(n) by {
        if Enabled(s, e) && (e.Place? || e.Remove?) {
          assert n.user.Some? <==> s.user.Some?;
        }
      }
      RunKeepsReachable(n, events[1..]);
    }
  }

  /**
   * No sequence of events ever opens the Gallery, Clan or Map screen, every
   * screen after the loading one has a user, and a game screen always has a
   * chunk, so the place handler's create-chunk branch is never taken from the UI.
   */
  lemma ComingSoonUnreachable(events: seq<Event>)
    ensures !ComingSoon(Run(Initial, events).gameState)
    ensures Run(Initial, events).gameState != Loading ==> Run(Initial, events).user.Some?
    ensures InScene(Run(Initial, events).gameState) ==> Run(Initial, events).chunks != []
  {
    RunKeepsReachable(Initial, events);
  }

  /** Every other screen is reachable: login opens the menu, which opens both game modes and the admin panel. */
  lemma OtherScreensReachable(now: int)
    ensures Run(Initial, [LoginDone(now)]).gameState == Menu
    ensures Run(Initial, [LoginDone(now), StartMode("plot")]).gameState == PlotBuilder
    ensures Run(Initial, [LoginDone(now), StartMode("world")]).gameState == WorldExplorer
    ensures Run(Initial, [LoginDone(now), OpenAdmin]).gameState == Admin
    ensures Run(Initial, [LoginDone(now), OpenAdmin, Back]).gameState == Menu
  {
    var m := Step(Initial, LoginDone(now));
    assert m.gameState == Menu && m.user.Some?;
    var a := Step(m, OpenAdmin);
    assert Run(Initial, [LoginDone(now)]) == Run(m, []);
    assert Run(Initial, [LoginDone(now), StartMode("plot")]) == Run(m, [StartMode("plot")]);
    assert Run(m, [StartMode("plot")]) == Run(Step(m, StartMode("plot")), []);
    assert Run(Initial, [LoginDone(now), StartMode("world")]) == Run(m, [StartMode("world")]);
    assert Run(m, [StartMode("world")]) == Run(Step(m, StartMode("world")), []);
    assert Run(Initial, [LoginDone(now), OpenAdmin]) == Run(m, [OpenAdmin]);
    assert Run(m, [OpenAdmin]) == Run(a, []);
    assert Run(Initial, [LoginDone(now), OpenAdmin, Back]) == Run(m, [OpenAdmin, Back]);
    assert Run(m, [OpenAdmin, Back]) == Run(a, [Back]);
    assert Run(a, [Back]) == Run(Step(a, Back), []);
  }

  /** The menu's gallery, clan and map buttons open the world explorer, with the seed chunks. */
  lemma MenuModesOpenWorld(s: AppState, mode: string)
    requires mode in {"world", "gallery", "clan", "map"}
    ensures StartGame(s, mode).gameState == WorldExplorer
    ensures StartGame(s, mode).chunks == SeedChunks
  {
  }
}
