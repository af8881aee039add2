/**
 * The data model of the Valve Source-engine server query (A2S) client:
 * what an A2S_INFO, A2S_PLAYERS and A2S_RULES exchange yields, the wire
 * opcodes of the three requests and the Steam application ids the client
 * knows by name.
 */
module ValveTypes {
  import opened Wrappers

  // Rust's fixed-width unsigned integers.
  newtype uint8 = x: int | 0 <= x < 0x100
  newtype uint16 = x: int | 0 <= x < 0x1_0000
  newtype uint32 = x: int | 0 <= x < 0x1_0000_0000
  newtype uint64 = x: int | 0 <= x < 0x1_0000_0000_0000_0000

  /**
   * A 32-bit float, kept as its raw bit pattern. The client only ever
   * copies it, so no floating-point arithmetic is modelled.
   */
  datatype Float32 = Float32Bits(bits: uint32)

  /** The type of the server. */
  datatype Server = Dedicated | NonDedicated | SourceTV

  /** The operating system the server runs on. */
  datatype Environment = Linux | Windows | Mac

  /** The reply to A2S_INFO. */
  datatype ServerInfo = ServerInfo(
    protocol: uint8,
    name: string,
    mapName: string,
    folder: string,
    game: string,
    appId: uint32,
    players: uint8,      // as reported by the server; never checked against maxPlayers
    maxPlayers: uint8,
    bots: uint8,
    serverType: Server,
    environmentType: Environment,
    hasPassword: bool,
    vacSecured: bool,
    theShip: Option<TheShip>,
    version: string,
    extraData: Option<ExtraData>
  )

  /** One record of the reply to A2S_PLAYERS. */
  datatype ServerPlayer = ServerPlayer(
    name: string,
    score: uint32,
    duration: Float32,
    deaths: Option<uint32>,  // The Ship only
    money: Option<uint32>    // The Ship only
  )

  /** One name/value pair of the reply to A2S_RULES. */
  datatype ServerRule = ServerRule(name: string, value: string)

  /** The fields A2S_INFO carries only for The Ship. */
  datatype TheShip = TheShip(mode: uint8, witnesses: uint8, duration: uint8)

  /** The optional trailing fields of A2S_INFO, each present on its own. */
  datatype ExtraData = ExtraData(
    port: Option<uint16>,
    steamId: Option<uint64>,
    tvPort: Option<uint16>,
    tvName: Option<string>,
    keywords: Option<string>,
    gameId: Option<uint64>
  )

  /**
   * A whole query: the info is always there, players and rules only when
   * they were asked for.
   */
  datatype Response = Response(
    info: ServerInfo,
    players: Option<seq<ServerPlayer>>,
    rules: Option<seq<ServerRule>>
  )

  /** Which optional queries to run besides A2S_INFO. */
  datatype GatheringSettings = GatheringSettings(players: bool, rules: bool)

  /** The three request kinds. */
  datatype Request = Info | Players | Rules

  /** The opcode byte each request carries on the wire. */
  function RequestByte(r: Request): (b: uint8)
    ensures 0x54 <= b <= 0x56
  {
    match r
    case Info => 0x54
    case Players => 0x55
    case Rules => 0x56
  }

  /** The request an opcode byte stands for, if any. */
  function RequestFromByte(b: uint8): (r: Option<Request>)
    ensures r.Some? ==> RequestByte(r.value) == b
    ensures r.None? ==> forall q :: RequestByte(q) != b
  {
    if b == 0x54 then Some(Info)
    else if b == 0x55 then Some(Players)
    else if b == 0x56 then Some(Rules)
    else None
  }

  /** Distinct requests have distinct opcodes. */
  lemma RequestByteInjective(q: Request, r: Request)
    ensures RequestByte(q) == RequestByte(r) <==> q == r
  {
  }

  /** Decoding the opcode of a request gives that request back. */
  lemma RequestByteRoundTrip(q: Request)
    ensures RequestFromByte(RequestByte(q)) == Some(q)
  {
  }

  /** The opcodes are exactly 0x54, 0x55 and 0x56. */
  lemma RequestBytes()
    ensures RequestByte(Info) == 0x54 && RequestByte(Players) == 0x55 && RequestByte(Rules) == 0x56
    ensures forall b: uint8 :: RequestFromByte(b).Some? <==> 0x54 <= b <= 0x56
  {
  }

  /** The Steam applications the client knows by name. */
  datatype App =
    | CSS     // Counter-Strike: Source
    | DODS    // Day of Defeat: Source
    | HL2DM   // Half-Life 2 Deathmatch
    | TF2     // Team Fortress 2
    | L4D     // Left 4 Dead
    | L4D2    // Left 4 Dead 2
    | ALIENS  // Alien Swarm
    | CSGO    // Counter-Strike: Global Offensive
    | TS      // The Ship
    | GM      // Garry's Mod
    | INSMIC  // Insurgency: Modern Infantry Combat
    | INS     // Insurgency
    | INSS    // Insurgency: Sandstorm
    | ASRD    // Alien Swarm: Reactive Drop

  /** The Steam application id of each known application. */
  function AppId(a: App): (id: uint32)
    ensures 240 <= id <= 581320
  {
    match a
    case CSS => 240
    case DODS => 300
    case HL2DM => 320
    case TF2 => 440
    case L4D => 500
    case L4D2 => 550
    case ALIENS => 630
    case CSGO => 730
    case TS => 2400
    case GM => 4000
    case INSMIC => 17700
    case INS => 222880
    case INSS => 581320
    case ASRD => 563560
  }

  /** The known application a Steam id belongs to, if any. */
  function AppFromId(id: uint32): (r: Option<App>)
    ensures r.Some? ==> AppId(r.value) == id
    ensures r.None? ==> forall a :: AppId(a) != id
  {
    match id
    case 240 => Some(CSS)
    case 300 => Some(DODS)
    case 320 => Some(HL2DM)
    case 440 => Some(TF2)
    case 500 => Some(L4D)
    case 550 => Some(L4D2)
    case 630 => Some(ALIENS)
    case 730 => Some(CSGO)
    case 2400 => Some(TS)
    case 4000 => Some(GM)
    case 17700 => Some(INSMIC)
    case 222880 => Some(INS)
    case 581320 => Some(INSS)
    case 563560 => Some(ASRD)
    case _ => None
  }

  /** Distinct applications have distinct ids. */
  lemma AppIdInjective(a: App, b: App)
    ensures AppId(a) == AppId(b) <==> a == b
  {
  }

  /** Looking up the id of an application gives that application back. */
  lemma AppIdRoundTrip(a: App)
    ensures AppFromId(AppId(a)) == Some(a)
  {
  }

  /** The Ship, whose replies carry extra fields, has id 2400 and no other app does. */
  lemma TheShipId()
    ensures AppId(TS) == 2400
    ensures AppFromId(2400) == Some(TS)
    ensures forall a :: AppId(a) == 2400 ==> a == TS
  {
  }
}
