# Valve server query types, modelled in Dafny

This project models the data model and the response mapper of the Valve
Source-engine server query client of rust-gamedig
(`src/protocols/valve/types.rs`). The client asks a game server three
questions, A2S_INFO, A2S_PLAYERS and A2S_RULES, and collects the answers in a
`Response`: the server info, which is always there, and the player and rule
lists, which are there only when they were gathered. The `game` sub-module
flattens such a response into a game-agnostic `game::Response`.

The file is pure Rust: records, enums and two functions. It is modelled the
same way, with datatypes, functions and lemmas, in three modules:

- `Wrappers` (`wrappers.dfy`): Rust's `Option`, and `Outcome`, the result
  of evaluating an expression that may panic, with `Unwrap` for
  `Option::unwrap`.
- `ValveTypes` (`valve_types.dfy`): `Server`, `Environment`, `ServerInfo`,
  `ServerPlayer`, `ServerRule`, `TheShip`, `ExtraData`, `Response`,
  `GatheringSettings`, the `Request` opcode table and the `App` id table.
  Rust's `u8`, `u16`, `u32` and `u64` are the newtypes `uint8` … `uint64`;
  the player's `f32` duration is `Float32`, its raw 32 bits, because the
  code only copies it. The Rust field `map` is `mapName` here (`map` is a
  Dafny keyword) and `appid` is `appId`; the other fields are the Rust names
  in camel case. The `Request` variants `INFO`, `PLAYERS` and `RULES` are
  `Info`, `Players` and `Rules`.
- `ValveGame` (`valve_game.dfy`): `game::Player`, `game::Response`,
  `Player::from_valve_response` and `Response::new_from_valve_response`.

The mapper is paired with its inverse. `DroppedBy` collects what the
flattening leaves behind (folder, app id, environment, The Ship data, whether
extra data was present, the game id, and each player's deaths and money), and
`Restore` rebuilds a Valve response from a game response and that part. The two
round-trip lemmas show that the mapper loses exactly those fields and nothing
else, and that the game response has no slot for any of them. Every dropped
value is free, with one exception: extra data must have been present, and the
game id may be present only then, whenever one of the flattened extra-data
fields of the game response is present (`Fits`).

The `unwrap()` calls on the player and rule lists are the preconditions of
`NewFromValveResponse`. `NewFromValveResponseOrPanic` states the panic
itself: it panics exactly when either list is absent and never yields an
empty list in its place.

`new_from_valve_response` returns no error value: it panics through
`unwrap()` (types.rs:216, 228). It copies `protocol` (types.rs:211) and passes
the `Vec<ServerRule>` through unchanged (types.rs:228).

## Model

| member | source | states |
|---|---|---|
| `Wrappers.Unwrap` | src/protocols/valve/types.rs:216 | `Option::unwrap` panics exactly on `None` and otherwise returns the wrapped value |
| `ValveTypes.RequestByte` | src/protocols/valve/types.rs:113-120 | every request's opcode lies in 0x54..0x56 |
| `ValveTypes.RequestFromByte` | src/protocols/valve/types.rs:111-120 | decoding a byte yields a request only if that request's opcode is the byte, and yields nothing only if no request has that opcode |
| `ValveTypes.RequestByteInjective` | src/protocols/valve/types.rs:113-120 | two requests share an opcode if and only if they are the same request |
| `ValveTypes.RequestByteRoundTrip` | src/protocols/valve/types.rs:113-120 | decoding the opcode of any request gives that request back |
| `ValveTypes.RequestBytes` | src/protocols/valve/types.rs:113-120 | INFO is 0x54, PLAYERS 0x55, RULES 0x56, and exactly the bytes 0x54..0x56 decode to a request |
| `ValveTypes.AppId` | src/protocols/valve/types.rs:124-153 | every known application id lies between 240 and 581320 |
| `ValveTypes.AppFromId` | src/protocols/valve/types.rs:122-153 | looking up an id yields an application only if that application has the id, and nothing only if no known application has it |
| `ValveTypes.AppIdInjective` | src/protocols/valve/types.rs:124-153 | the application ids are pairwise distinct |
| `ValveTypes.AppIdRoundTrip` | src/protocols/valve/types.rs:124-153 | looking up the id of any application gives that application back |
| `ValveTypes.TheShipId` | src/protocols/valve/types.rs:141-142 | The Ship has id 2400, id 2400 is The Ship, and no other application has that id |
| `ValveGame.PlayerFromValveResponse` | src/protocols/valve/types.rs:171-178 | the game player keeps the Valve player's name, score and duration |
| `ValveGame.MapPlayers` | src/protocols/valve/types.rs:216 | the mapped player list has the input's length, and its i-th player has the name, score and duration of the i-th input player |
| `ValveGame.MapPlayersAppend` | src/protocols/valve/types.rs:216 | mapping a concatenation is the concatenation of the mapped parts, so the mapping keeps order |
| `ValveGame.NewFromValveResponse` | src/protocols/valve/types.rs:204-230 | with players and rules present: protocol, name, map, game, player count, max players, bots, server type, password flag, VAC flag and version are copied from the info; player details are the input players mapped element-wise in order; rules are the input rules unchanged; port, Steam id, SourceTV port and name and keywords are all absent without extra data and equal the extra data's fields with it |
| `ValveGame.FlattenedExtra` | src/protocols/valve/types.rs:205-208 | without extra data the port, Steam id, SourceTV port, SourceTV name and keywords are all absent; with it they are the extra data's own five fields, and the game id is not among them; any present field implies extra data was sent |
| `ValveGame.NewFromValveResponseOrPanic` | src/protocols/valve/types.rs:216-228 | the mapping panics if and only if the player list or the rule list is absent, and otherwise returns the flattened response |
| `ValveGame.DroppedBy` | src/protocols/valve/types.rs:182-201 | the left-behind part has one deaths/money entry per player and records whether extra data was present |
| `ValveGame.Restore` | src/protocols/valve/types.rs:20-24 | rebuilding from a game response yields a Valve response with players and rules present and one player per player detail |
| `ValveGame.RestoreAfterMapping` | src/protocols/valve/types.rs:204-230 | a Valve response with players and rules is rebuilt exactly from its game response and its left-behind part: nothing else is lost |
| `ValveGame.MappingAfterRestore` | src/protocols/valve/types.rs:182-201 | every game response, with any fitting left-behind part, is the mapping of a Valve response, and that response's left-behind part is the given one |
| `ValveGame.DroppedFieldsDoNotMatter` | src/protocols/valve/types.rs:182-228 | two Valve responses with both lists present map to the same game response if and only if they agree on every kept field (the copied info fields, the flattened extra data, each player's name, score and duration, the rules); folder, app id, environment, The Ship data, game id, presence of extra data and per-player deaths and money cannot change the result |
| `ValveGame.PlayerCountCopiedIndependently` | src/protocols/valve/types.rs:215-216 | the reported player count is copied on its own: replacing it by any byte changes only the game response's count |
| `ValveGame.PlayerCountMayDisagree` | src/protocols/valve/types.rs:215-216 | a reported count of one with an empty player list maps to a game response whose count differs from its number of player details |

## Left out

- The A2S wire parser, the split-packet reassembler with its decompression and CRC32 check, the challenge handshake, the UDP transport with its timeouts and retries, and the query orchestrator that fills a `Response` according to `GatheringSettings`: that code is not part of this model, so `GatheringSettings`, `Server` and `Environment` are declared as datatypes only.
- `ValveTypes.RequestFromByte` and `ValveTypes.AppFromId` have no Rust counterpart: the enums are only tagged with their values (`#[repr(u8)]`, explicit discriminants). They are the inverses the tables imply, stated so that distinctness and round trips can be proved.
- `f32` player durations: modelled as an uninterpreted 32-bit pattern that is only copied; no floating-point behaviour.
- `#[derive(Debug)]`, `#[derive(PartialEq, Clone)]`: formatting and cloning are not modelled; datatype equality stands for `PartialEq`.
- Ownership and moves (`new_from_valve_response` consumes its argument, `from_valve_response` clones the name): values are immutable here, so a move and a clone are both a copy.
- `crates/lib/src/games/eco/protocol.rs` (an HTTP/JSON client), `crates/lib/src/protocols/mod.rs` (module declarations only) and `examples/tf2.rs` (a live query that prints its result): network I/O and wiring, no logic to model.
