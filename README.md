# MagicOne voxel game: a Dafny model of its client state and request handler

MagicOne is a Telegram Mini-App voxel-building game. The browser client keeps
a list of chunks, each with a flat list of placed blocks, and moves between a
few screens (loading, menu, plot builder, world explorer, admin, and three
"coming soon" screens). A serverless handler on top of a key-value store
serves user profiles, acknowledges block placements, and lets an admin log in
and generate promo QR codes. A static catalog of ten block types and three
size constants complete the core.

The project models these parts:

- `constants.dfy` (module `Constants`): `BLOCK_SIZE`, `CHUNK_SIZE`,
  `WORLD_HEIGHT` and the `BLOCKS` catalog, with lemmas about which ids exist,
  which are premium and which render as light.
- `types.dfy` (module `Types`): the records the client and server share:
  `UserData`, `ChunkData`, `PlacedBlock`, `BlockDef`, `GameState`.
- `app.dfy` (module `App`): the client component's state handlers, written as
  pure transformers over `AppState { gameState, user, chunks }`. These are
  `PlaceBlock`, `RemoveBlock`, `StartGame` and the screen transition function
  `Step`. It also has the proof that the Gallery, Clan and Map screens can
  never be reached.
- `api.dfy` (module `Api`): the request handler. `Handled` is the handler as a
  function of the store's contents. `Handler` is the same handler written step
  by step against a `KvStore` object. It uses the methods `UserMe`, which does
  a get-or-create, and `GenerateQr`, which holds the code-generation loop. Each
  method is proved equal to its specification function.
- `wrappers.dfy` (module `Wrappers`): `Option`. It marks an absent user,
  a missing store entry, a missing request body and a missing body field:
  the places where the code treats `null` and `undefined` alike. The admin
  password, which is compared with `===`, instead has three values
  (`Api.Field`: missing, `null` or a string).

The model follows the code, including where it departs from what a
conventional voxel store would do. Placing a block does not replace an existing block at the same
coordinate: it appends a duplicate. Every block goes into chunk 0, whatever
its x/z. There is no height bound, catalog check or premium-entitlement check.
`world/place` never reads or writes chunk data. Authentication only tests
whether `BOT_TOKEN` is set; there is no HMAC check. Nothing serialises or
compresses a chunk. Two of these behaviours look unintended, but they are
modelled as written: every placement goes into chunk 0
(`App.PlaceIgnoresChunkCoordinates`), and the admin checks pass when both the
request's password and `ADMIN_PASSWORD` are absent
(`Api.AdminOpenWhenPasswordUnset`).

Inputs that stand in for the environment: the user id that the auth payload
would yield, `BOT_TOKEN` and `ADMIN_PASSWORD` (each may be unset), the codes
`crypto.randomUUID` would return (a function `uuid: nat -> string`, giving the
i-th code), and the clock reading the demo login stores.

## Model

| member | source | states |
|---|---|---|
| `Constants.SizesAgree` | src/constants.ts:3-5 | BLOCK_SIZE is 1, CHUNK_SIZE is 32 (the literal the server divides by), WORLD_HEIGHT is 128 |
| `Constants.CatalogKeys` | src/constants.ts:7-18 | the catalog keys are exactly {1..5} and {31..35}, two disjoint groups, and every entry's id equals its key |
| `Constants.CatalogPremium` | src/constants.ts:8-17 | an entry is premium exactly when its id is 31..35; ids 1..5 are solid |
| `Constants.CatalogLights` | src/constants.ts:13-17 | only ids 31 and 32 render as light; no entry is a fluid |
| `App.MockUser` | src/App.tsx:28-35 | the demo profile is tgId 12345, no username or clan, 100 coins, not premium, streak 1, lastDaily the login time, and an inventory holding exactly the base ids and the premium ids |
| `App.MockInventoryIsCatalog` | src/App.tsx:32 | the demo inventory holds exactly the catalog's keys, so it includes premium blocks although the profile is not premium |
| `App.WithoutCoordinate` | src/App.tsx:60 | the filter keeps a block exactly when it is in the list and not at (x, y, z), whatever its type; it never lengthens the list |
| `App.Reward` | src/App.tsx:54 | a present user gains exactly one coin and nothing else in the record changes; a null user stays null |
| `App.PlaceBlock` | src/App.tsx:49-55 | appends {x,y,z,type} at the end of chunk 0's list; on an empty list the result is the single chunk (0,0) holding that block; other chunks, the screen and all but the coins stay unchanged |
| `App.RemoveBlock` | src/App.tsx:57-63 | every chunk keeps its x/z and loses exactly its entries at (x, y, z); the chunk count, the screen and the user are unchanged; no entry at (x, y, z) remains |
| `App.StartGame` | src/App.tsx:42-47 | 'plot' opens the plot builder and every other mode the world explorer; the chunks become the seed chunk (0,0) with two grass blocks at (0,0,0) and (1,0,0) |
| `App.WithoutCoordinateAppend` | src/App.tsx:60 | filtering distributes over concatenation, so the kept blocks stay in their original order |
| `App.WithoutCoordinateCounts` | src/App.tsx:60 | every entry at (x, y, z) is dropped; every other block keeps its multiplicity |
| `App.WithoutCoordinateAbsent` | src/App.tsx:60 | a list with nothing at (x, y, z) is returned unchanged |
| `App.RemoveIdempotent` | src/App.tsx:57-63 | removing twice equals removing once, and removal never changes the user (coins included) |
| `App.RemoveAbsentIsNoop` | src/App.tsx:57-63 | removing a coordinate that no chunk holds leaves the whole state unchanged |
| `App.PlaceAddsOneEntry` | src/App.tsx:49-53 | the world's blocks, as a multiset, grow by exactly the one placed entry |
| `App.PlaceTwiceKeepsBoth` | src/App.tsx:49-54 | placing the same block twice leaves two identical entries at the end of chunk 0 (no occupancy check) and credits two coins |
| `App.PlaceIgnoresChunkCoordinates` | src/App.tsx:49-53 | after a game starts, a block at x = z = 100 (past CHUNK_SIZE) still lands in chunk (0,0) |
| `App.RemoveAfterPlace` | src/App.tsx:49-63 | on a state that already has a chunk (as every game screen has), removing the coordinate just placed gives the chunks that removal alone would give, but the placement coin stays |
| `App.Enabled` | src/App.tsx:67-111 | per screen, which controls exist: loading has only the login timer; the menu has the mode buttons, but only once a user is loaded (src/components/UI.tsx:26), and the admin corner; the game screens have Back, place and remove; admin and coming-soon have only Back |
| `App.Step` | src/App.tsx:36-108 | an event whose control is off screen changes nothing; no transition enters Gallery, Clan or Map; Back (HUD, admin, coming-soon) returns to the menu with the chunks and user kept; login reaches the menu with a user |
| `App.RunKeepsReachable` | src/App.tsx:8-108 | any sequence of events keeps the invariant: never a coming-soon screen, a user exactly when past the loading screen, no chunks while loading, at least one chunk on a game screen |
| `App.ComingSoonUnreachable` | src/App.tsx:8-108 | from the initial loading state no event sequence reaches Gallery, Clan or Map, every later screen has a user, and a game screen always has a chunk, so the place handler's create-chunk branch is unreachable from the UI |
| `App.OtherScreensReachable` | src/App.tsx:36-98 | login reaches the menu; from there 'plot', 'world' and the admin corner reach their screens, and admin's Back returns to the menu |
| `App.MenuModesOpenWorld` | src/components/UI.tsx:36-40 | the menu's 'world', 'gallery', 'clan' and 'map' buttons all open the world explorer with the seed chunks |
| `Api.KvStore.Get` | api/index.ts:52 | returns the stored value, or None for a missing key |
| `Api.KvStore.Set` | api/index.ts:62 | writes one key and leaves every other key unchanged |
| `Api.VerifyTelegramAuth` | api/index.ts:9-16 | false exactly when BOT_TOKEN is unset or empty, whatever the auth payload |
| `Api.ChunkCoord` | api/index.ts:69-70 | the chunk coordinate c satisfies 32c <= v < 32(c+1) (floor, not truncation) |
| `Api.ChunkCoordUnique` | api/index.ts:69-70 | that c is the only integer with this property |
| `Api.ChunkCoordExamples` | api/index.ts:69-70 | -1 is in chunk -1, 31 in chunk 0, 32 in chunk 1, -32 in chunk -1 and -33 in chunk -2 |
| `Api.PlaceChunkKey` | api/index.ts:67-71 | a key exists exactly when x and z are given (None stands for the NaN key that the source builds from a missing coordinate); its local offsets x - 32cx and z - 32cz lie in [0, 32) |
| `Api.DefaultProfile` | api/index.ts:54-61 | the created profile is {tgId: id, coins 50, not premium, inventory [1..5], streak 0, lastDaily 0} |
| `Api.DefaultInventoryIsFreeBlocks` | api/index.ts:58 | the starter inventory holds exactly the catalog's non-premium ids |
| `Api.WriteQrCodes` | api/index.ts:90-94 | after the writes the key set is the old one plus qr:{code} for each code; each holds {type, used: false}; every other key keeps its value |
| `Api.UserMeOutcome` | api/index.ts:51-64 | user/me always answers 200 with exactly the record stored under user:{id} afterwards; an existing record is returned and nothing is written; on a miss the default profile is stored there and nothing else changes |
| `Api.UserMeIdempotent` | api/index.ts:51-64 | a second user/me returns the same response and leaves the store as the first one left it |
| `Api.Handled` | api/index.ts:29-104 | the status is one of 200, 401, 403, 404 and 500; no key is ever deleted; no existing non-qr entry ever changes; the only keys ever created are user:{id} and qr: keys, so no chunk key is ever written |
| `Api.OptionsBeforeAuth` | api/index.ts:37-40 | OPTIONS answers 200 with no body before the auth gate, even without BOT_TOKEN, and changes nothing |
| `Api.AuthGate` | api/index.ts:42-44 | without BOT_TOKEN every other request gets 403 and the store is untouched |
| `Api.PlaceTouchesNoChunk` | api/index.ts:66-79 | world/place validates nothing, always answers {success: true} and writes no modelled key |
| `Api.AdminLoginIff` | api/index.ts:81-85 | admin/login answers 200 {success: true} exactly when the password equals ADMIN_PASSWORD, and otherwise 401 {success: false}; nothing is written |
| `Api.PasswordMatches` | api/index.ts:82-88 | the strict comparison with ADMIN_PASSWORD: when it is set, only that exact string passes; when it is unset, only a missing password passes; a null password never passes |
| `Api.NullPasswordRejected` | api/index.ts:81-88 | a password sent as null gets 401 on admin/login and admin/generate-qr and writes nothing, even with ADMIN_PASSWORD unset |
| `Api.AdminOpenWhenPasswordUnset` | api/index.ts:82-88 | with ADMIN_PASSWORD unset, a body with no password field passes the admin check (undefined === undefined) |
| `Api.Rounds` | api/index.ts:90 | a round i runs exactly when the loop guard i < count holds, so there are none when count is absent or not positive |
| `Api.GenerateQrOutcome` | api/index.ts:87-95 | a wrong password answers 401 {} with the store unchanged; the right one answers 200 with Rounds(count) codes, the i-th being the i-th generated uuid, and the store gains their qr: records |
| `Api.GenerateQrRejected` | api/index.ts:88 | a wrong password on admin/generate-qr answers 401 {} and writes no key |
| `Api.GenerateQrFresh` | api/index.ts:87-95 | given distinct codes not yet stored, it returns exactly those codes in generation order, adds one {type, used: false} record per code, and leaves every existing key as it was |
| `Api.UnknownEndpoint` | api/index.ts:97-98 | any other endpoint answers 404 and changes nothing, including admin/reset-leaderboard and admin/force-meteor |
| `Api.MissingBodyIs500` | api/index.ts:100-102 | world/place, admin/login and admin/generate-qr on a request without a body throw, so the answer is 500 and nothing is written |
| `Api.UserMe` | api/index.ts:52-64 | the get-or-create, as kv.get and then kv.set, ends in exactly the response and store of UserMeOutcome |
| `Api.GenerateQr` | api/index.ts:87-95 | the loop writes one key per round and collects the codes; the result is exactly GenerateQrOutcome |
| `Api.Handler` | api/index.ts:29-104 | the step-by-step handler produces exactly the response and the store that Handled describes |

## Left out

- src/game/SceneManager.tsx is not part of this model. It holds the Babylon engine, camera, meshes and render loop. Its pick and ghost resolution rounds floating-point hit points, so the client's place and remove handlers take integer coordinates as given.
- src/components/UI.tsx, src/components/Admin.tsx and src/index.tsx are not part of this model. They hold React markup, DOM access, alerts and QR image rendering. Only the mode strings that the menu passes to `startGame` are used.
- src/services/api.ts (a `fetch` wrapper) and `API_BASE` are network I/O and are not modelled.
- The Telegram WebApp calls, the one-second timer and `Date.now()` in the demo login are not modelled. The login is the `LoginDone(now)` event. It is enabled only on the loading screen, because the timer fires once and nothing else can leave that screen first.
- `React.StrictMode` (src/index.tsx:13) runs the mount effect twice in development builds. Two timers then fire, and the second one installs a fresh demo user again while the menu is showing. The model has a single login and treats a second one as a no-op.
- The selected block and the hotbar (`selectedBlock`, `setSelectedBlock`) are not part of `AppState`. A placement's type is an argument instead.
- App.PlaceBlock: `push` onto chunk 0's shared `blocks` array (src/App.tsx:52) also changes the previous state's chunk 0. The model works on values and does not capture this aliasing. It also does not capture stale closures. The scene's effect depends only on the mode and the selected block (src/game/SceneManager.tsx:194), so while a scene is mounted its place and remove callbacks are the handlers from the mount render, which see that render's `chunks`. In the running app, a block removed after the mount therefore comes back at the next placement, because the stale place handler pushes onto the original, unfiltered array. In the model it stays gone: `Run` gives the edit semantics as if every handler saw the current chunks. React's asynchronous `setState` is not modelled either.
- Api.Handled: the `kv.rpush` to `activity:log` and the `kv.json.arrappend` on the user's `$.coins` (api/index.ts:75-77) are foreign-store operations. They are not modelled, and neither is whether they throw. So world/place leaves the modelled store unchanged and always answers success.
- Api.Handled: the only thrown error modelled is a missing request body. A store call that fails or throws would also produce 500, but store failures are not modelled.
- Only the admin password distinguishes JSON `null` from a missing field. For `x`, `y`, `z`, `type` and `count` the two behave alike in the handler (no chunk is written, and `i < null` is false like `i < undefined`). A `type` of `null` would be stored as `null` rather than left out of the qr record; the model stores both as an absent type.
- The CORS headers set on every response are not modelled.
- `getUserFromAuth` (`URLSearchParams`, `JSON.parse`) and `crypto.randomUUID` are library calls. The user id and the generated codes are inputs.
- The commented-out HMAC check and the unused `pako` import are not modelled. The code has no chunk serialisation.
- JavaScript number semantics are not modelled: non-integer, NaN or non-numeric body fields, and precision loss past 2^53. For example, a count of 2.5 would run three rounds, and a string count would be coerced. A query `endpoint` that is missing or an array behaves like any unknown string, which is how the model treats it.

