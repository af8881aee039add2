/**
 * The game-agnostic view of a Valve query: a player without the
 * The Ship counters, and a response whose optional extra data is flattened
 * to the top level and whose player and rule lists must be present.
 */
module ValveGame {
  import opened Wrappers
  import opened ValveTypes

  /** A player as every protocol reports one. */
  datatype Player = Player(name: string, score: uint32, duration: Float32)

  /** A response as every protocol reports one. */
  datatype Response = Response(
    protocol: uint8,
    name: string,
    mapName: string,
    game: string,
    players: uint8,
    playersDetails: seq<Player>,
    maxPlayers: uint8,
    bots: uint8,
    serverType: Server,
    hasPassword: bool,
    vacSecured: bool,
    version: string,
    port: Option<uint16>,
    steamId: Option<uint64>,
    tvPort: Option<uint16>,
    tvName: Option<string>,
    keywords: Option<string>,
    rules: seq<ServerRule>
  )

  /** A Valve player reduced to name, score and duration. */
  function PlayerFromValveResponse(player: ServerPlayer): (p: Player)
    ensures p.name == player.name && p.score == player.score && p.duration == player.duration
  {
    Player(player.name, player.score, player.duration)
  }

  /** Every player of a list, mapped one by one and kept in order. */
  function MapPlayers(players: seq<ServerPlayer>): (r: seq<Player>)
    ensures |r| == |players|
    ensures forall i :: 0 <= i < |players| ==>
      r[i].name == players[i].name && r[i].score == players[i].score && r[i].duration == players[i].duration
  {
    if players == [] then []
    else [PlayerFromValveResponse(players[0])] + MapPlayers(players[1..])
  }

  /** Mapping a list split in two maps each part in place. */
  lemma MapPlayersAppend(a: seq<ServerPlayer>, b: seq<ServerPlayer>)
    ensures MapPlayers(a + b) == MapPlayers(a) + MapPlayers(b)
  {
  }

  /**
   * The flattening of a Valve response. The player and rule lists are
   * unwrapped, so both must be present.
   */
  function NewFromValveResponse(response: ValveTypes.Response): (r: Response)
    requires response.players.Some? && response.rules.Some?
    // Copied unchanged from the info reply.
    ensures r.protocol == response.info.protocol
    ensures r.name == response.info.name
    ensures r.mapName == response.info.mapName
    ensures r.game == response.info.game
    ensures r.players == response.info.players
    ensures r.maxPlayers == response.info.maxPlayers
    ensures r.bots == response.info.bots
    ensures r.serverType == response.info.serverType
    ensures r.hasPassword == response.info.hasPassword
    ensures r.vacSecured == response.info.vacSecured
    ensures r.version == response.info.version
    // One player per input player, in the same order, with its name, score and duration.
    ensures |r.playersDetails| == |response.players.value|
    ensures forall i :: 0 <= i < |r.playersDetails| ==>
      r.playersDetails[i] == PlayerFromValveResponse(response.players.value[i])
    // The rules exactly as received.
    ensures r.rules == response.rules.value
    // Without extra data every flattened field is absent; with it, each is the extra data's.
    ensures response.info.extraData.None? ==>
      r.port.None? && r.steamId.None? && r.tvPort.None? && r.tvName.None? && r.keywords.None?
    ensures response.info.extraData.Some? ==>
      var ed := response.info.extraData.value;
      r.port == ed.port && r.steamId == ed.steamId && r.tvPort == ed.tvPort
      && r.tvName == ed.tvName && r.keywords == ed.keywords
  {
    var info := response.info;
    var (port, steamId, tvPort, tvName, keywords) := FlattenedExtra(info.extraData);
    Response.Response(
      info.protocol, info.name, info.mapName, info.game, info.players,
      MapPlayers(response.players.value),
      info.maxPlayers, info.bots, info.serverType, info.hasPassword, info.vacSecured, info.version,
      port, steamId, tvPort, tvName, keywords,
      response.rules.value)
  }

  /**
   * The same flattening, with the two `unwrap`s evaluated: it panics
   * exactly when the players or the rules were never gathered.
   */
  function NewFromValveResponseOrPanic(response: ValveTypes.Response): (r: Outcome<Response>)
    ensures r.Panicked? <==> response.players.None? || response.rules.None?
    ensures r.Returned? ==> r.value == NewFromValveResponse(response)
  {
    match Unwrap(response.players)
    case Panicked => Panicked
    case Returned(_) =>
      match Unwrap(response.rules)
      case Panicked => Panicked
      case Returned(_) => Returned(NewFromValveResponse(response))
  }

  /** What a Valve player has that the game-agnostic player has no slot for. */
  datatype PlayerExtra = PlayerExtra(deaths: Option<uint32>, money: Option<uint32>)

  /** What a Valve response has that the game-agnostic response has no slot for. */
  datatype Dropped = Dropped(
    folder: string,
    appId: uint32,
    environmentType: Environment,
    theShip: Option<TheShip>,
    hasExtraData: bool,
    gameId: Option<uint64>,
    playerExtras: seq<PlayerExtra>
  )

  /** The fields of a Valve response that the flattening leaves behind. */
  function DroppedBy(response: ValveTypes.Response): (d: Dropped)
    requires response.players.Some?
    ensures |d.playerExtras| == |response.players.value|
    ensures d.hasExtraData <==> response.info.extraData.Some?
  {
    var info := response.info;
    var players := response.players.value;
    Dropped(
      info.folder, info.appId, info.environmentType, info.theShip,
      info.extraData.Some?,
      if info.extraData.Some? then info.extraData.value.gameId else None,
      seq(|players|, i requires 0 <= i < |players| => PlayerExtra(players[i].deaths, players[i].money)))
  }

  /**
   * A dropped part fits a game response when it has one entry per player
   * and, if it says there was no extra data, the flattened fields are all absent.
   */
  predicate Fits(g: Response, d: Dropped)
  {
    && |d.playerExtras| == |g.playersDetails|
    && (!d.hasExtraData ==>
          g.port.None? && g.steamId.None? && g.tvPort.None? && g.tvName.None? && g.keywords.None?
          && d.gameId.None?)
  }

  /** The Valve response a game response and its dropped part came from. */
  function Restore(g: Response, d: Dropped): (response: ValveTypes.Response)
    requires |d.playerExtras| == |g.playersDetails|
    ensures response.players.Some? && response.rules.Some?
    ensures |response.players.value| == |g.playersDetails|
  {
    var ps := g.playersDetails;
    var info := ServerInfo(
      g.protocol, g.name, g.mapName, d.folder, g.game, d.appId, g.players, g.maxPlayers, g.bots,
      g.serverType, d.environmentType, g.hasPassword, g.vacSecured, d.theShip, g.version,
      if d.hasExtraData then Some(ExtraData(g.port, g.steamId, g.tvPort, g.tvName, g.keywords, d.gameId))
      else None);
    ValveTypes.Response.Response(
      info,
      Some(seq(|ps|, i requires 0 <= i < |ps| =>
        ServerPlayer(ps[i].name, ps[i].score, ps[i].duration, d.playerExtras[i].deaths, d.playerExtras[i].money))),
      Some(g.rules))
  }

  /**
   * The flattening loses exactly the dropped part: a response is rebuilt
   * from its game response and what was dropped.
   */
  lemma RestoreAfterMapping(response: ValveTypes.Response)
    requires response.players.Some? && response.rules.Some?
    ensures Fits(NewFromValveResponse(response), DroppedBy(response))
    ensures Restore(NewFromValveResponse(response), DroppedBy(response)) == response
  {
    var g := NewFromValveResponse(response);
    var rebuilt := Restore(g, DroppedBy(response));
    assert rebuilt.players.value == response.players.value;
    assert rebuilt.info == response.info;
  }

  /**
   * Every game response arises from some Valve response: mapping what
   * Restore builds gives the game response back, with the same dropped part.
   */
  lemma MappingAfterRestore(g: Response, d: Dropped)
    requires Fits(g, d)
    ensures NewFromValveResponse(Restore(g, d)) == g
    ensures DroppedBy(Restore(g, d)) == d
  {
  }

  /**
   * The five extra-data fields the game response keeps, all absent without
   * extra data; the game id is not among them.
   */
  function FlattenedExtra(extra: Option<ExtraData>):
    (r: (Option<uint16>, Option<uint64>, Option<uint16>, Option<string>, Option<string>))
    ensures extra.None? ==> r == (None, None, None, None, None)
    ensures extra.Some? ==>
      r == (extra.value.port, extra.value.steamId, extra.value.tvPort, extra.value.tvName, extra.value.keywords)
    // A present flattened field means the server sent extra data.
    ensures r.0.Some? || r.1.Some? || r.2.Some? || r.3.Some? || r.4.Some? ==> extra.Some?
  {
    match extra
    case None => (None, None, None, None, None)
    case Some(ed) => (ed.port, ed.steamId, ed.tvPort, ed.tvName, ed.keywords)
  }

  /**
   * Two Valve responses agree on everything the game response has a slot
   * for: the info fields it copies, the flattened extra data, each player's
   * name, score and duration, and the rules. Folder, app id, environment,
   * The Ship data, game id, whether extra data was present at all, and each
   * player's deaths and money are left free.
   */
  predicate AgreeOnKeptFields(a: ValveTypes.Response, b: ValveTypes.Response)
    requires a.players.Some? && b.players.Some?
  {
    var (x, y) := (a.info, b.info);
    && x.protocol == y.protocol && x.name == y.name && x.mapName == y.mapName && x.game == y.game
    && x.players == y.players && x.maxPlayers == y.maxPlayers && x.bots == y.bots
    && x.serverType == y.serverType && x.hasPassword == y.hasPassword && x.vacSecured == y.vacSecured
    && x.version == y.version
    && FlattenedExtra(x.extraData) == FlattenedExtra(y.extraData)
    && |a.players.value| == |b.players.value|
    && (forall i :: 0 <= i < |a.players.value| ==>
          && a.players.value[i].name == b.players.value[i].name
          && a.players.value[i].score == b.players.value[i].score
          && a.players.value[i].duration == b.players.value[i].duration)
    && a.rules == b.rules
  }

  /**
   * Two responses map to the same game response exactly when they agree on
   * the kept fields: the dropped fields cannot influence the result, and
   * every kept field does.
   */
  lemma DroppedFieldsDoNotMatter(a: ValveTypes.Response, b: ValveTypes.Response)
    requires a.players.Some? && a.rules.Some? && b.players.Some? && b.rules.Some?
    ensures NewFromValveResponse(a) == NewFromValveResponse(b) <==> AgreeOnKeptFields(a, b)
  {
  }

  /**
   * The reported player count is copied on its own: setting it to any byte
   * changes nothing else, so it need not equal the number of player details.
   */
  lemma PlayerCountCopiedIndependently(response: ValveTypes.Response, count: uint8)
    requires response.players.Some? && response.rules.Some?
    ensures var g := NewFromValveResponse(response.(info := response.info.(players := count)));
      g.players == count && g == NewFromValveResponse(response).(players := count)
  {
  }

  /** An empty player list with a reported count of one maps to exactly that. */
  lemma PlayerCountMayDisagree(info: ServerInfo)
    requires info.players == 1
    ensures var g := NewFromValveResponse(ValveTypes.Response.Response(info, Some([]), Some([])));
      g.players as int != |g.playersDetails|
  {
  }
}
