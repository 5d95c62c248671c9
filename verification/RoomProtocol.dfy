/** socket/gameSocket.js as a transition system: any number of replicas, each with a
    disposable room cache and any number of suspended handlers, over one database.

    A handler refreshes its room, suspends, and later runs one transaction with whatever
    room object it still holds. Reads and writes are separate steps, so every interleaving
    of other replicas fits between them. The per-room promise chain is not used here: the
    database has to be safe without it. */
module RoomProtocol {
  import opened Basics
  import opened GameTables
  import Elo

  type SocketId = nat
  type ReplicaId = nat
  type StoreId = nat

  /** `owner`: the authenticated user of each socket. `store`: the vote store a replica
      talks to (one shared store in redis mode, one per replica in local mode). */
  datatype Env = Env(
    rules: Rules,
    curve: Elo.Curve,
    owner: SocketId -> UserId,
    store: ReplicaId -> StoreId
  ) {
    ghost predicate Valid() { rules.Valid() && curve.Valid() }
  }

  datatype Player = Player(socket: Option<SocketId>, color: Color, user: UserId)
  datatype RoomStatus = Waiting | Playing | Ended

  /** A room object; `room.turn` is the turn of `fen`. */
  datatype Room = Room(
    id: RoomId,
    gameId: GameId,
    players: seq<Player>,
    fen: Fen,
    status: RoomStatus,
    moves: seq<MoveRow>,
    result: Option<Result>,
    winner: Option<Color>
  )

  /** `held`: every room object a suspended handler of this replica may still refer to. */
  datatype Replica = Replica(cache: map<RoomId, Room>, held: set<Room>)

  /** One rated settlement: both users, their ratings before it and the changes. */
  datatype Entry = Entry(
    game: GameId, white: UserId, black: UserId, oldWhite: int, oldBlack: int, dWhite: int, dBlack: int)

  /** History variables: no step reads them.
      `lineage`: the games that held a room, in order; `home`: where a game stands in it;
      `voted`: users whose rematch vote on a game was ever counted; `ledger`: settlements;
      `base`: the rating each user registered with. */
  datatype History = History(
    lineage: map<RoomId, seq<GameId>>,
    home: map<GameId, (RoomId, nat)>,
    voted: map<GameId, set<UserId>>,
    ledger: seq<Entry>,
    base: map<UserId, int>
  )

  /** `quorum`: games for which some handler has read a vote count of at least two. */
  datatype State = State(
    db: Tables,
    replicas: map<ReplicaId, Replica>,
    votes: map<(StoreId, GameId), set<UserId>>,
    quorum: set<GameId>,
    hist: History
  )

  const REMATCH_QUORUM := 2

  /** The default of users.elo_rating. */
  const REGISTERED := 1200

  function Rep(s: State, r: ReplicaId): Replica {
    if r in s.replicas then s.replicas[r] else Replica(map[], {})
  }

  predicate Knows(rep: Replica, room: Room) {
    room in rep.held || room in rep.cache.Values
  }

  function VotesFor(s: State, k: (StoreId, GameId)): set<UserId> {
    if k in s.votes then s.votes[k] else {}
  }

  function Voted(h: History, g: GameId): set<UserId> {
    if g in h.voted then h.voted[g] else {}
  }

  // ---- room objects ----

  /** Replays persisted moves from the initial position; None on an illegal one. */
  function Replay(rules: Rules, rows: seq<MoveRow>): Option<Fen> {
    if rows == [] then Some(rules.start)
    else
      match Replay(rules, rows[..|rows| - 1])
      case None => None
      case Some(fen) =>
        match rules.play(fen, rows[|rows| - 1].move)
        case None => None
        case Some(played) => Some(played.fen)
  }

  /** The position buildRoomFromSnapshot starts from: the board checkpoint, else the last
      move's, else a replay of all moves. None when the row cannot be recovered. */
  function SnapshotFen(rules: Rules, row: GameRow, rows: seq<MoveRow>): Option<Fen> {
    var checkpoint := if row.fen != "" then row.fen
                      else if rows != [] then rows[|rows| - 1].fenAfter else "";
    if checkpoint != "" then if rules.loads(checkpoint) then Some(checkpoint) else None
    else Replay(rules, rows)
  }

  function SnapshotPlayers(row: GameRow): seq<Player> {
    [Player(None, White, row.white)]
    + (if row.black.Some? then [Player(None, Black, row.black.value)] else [])
  }

  function BuildRoom(rules: Rules, id: RoomId, g: GameId, row: GameRow, rows: seq<MoveRow>): Option<Room> {
    match SnapshotFen(rules, row, rows)
    case None => None
    case Some(fen) =>
      var players := SnapshotPlayers(row);
      var status := if row.status == Finished then Ended else if |players| == 2 then Playing else Waiting;
      Some(Room(id, g, players, fen, status, rows, row.result, row.winner))
  }

  /** The socket `players` has for a user (the last one wins, as in a JavaScript Map). */
  function SocketOf(players: seq<Player>, user: UserId): Option<SocketId> {
    if players == [] then None
    else
      var last := players[|players| - 1];
      if last.user == user then last.socket else SocketOf(players[..|players| - 1], user)
  }

  function Reattach(room: Room, current: Room): Room {
    room.(players := seq(|room.players|, i requires 0 <= i < |room.players| =>
      room.players[i].(socket := SocketOf(current.players, room.players[i].user))))
  }

  function SeatedUser(room: Room, c: Color): Option<UserId> {
    if |room.players| > 0 && room.players[0].color == c then Some(room.players[0].user)
    else if |room.players| > 1 && room.players[1].color == c then Some(room.players[1].user)
    else None
  }

  function Swapped(players: seq<Player>): seq<Player> {
    seq(|players|, i requires 0 <= i < |players| => players[i].(color := Flip(players[i].color)))
  }

  predicate Attached(room: Room, i: nat, socket: SocketId) {
    i < |room.players| && room.players[i].socket == Some(socket)
  }

  // ---- steps ----

  datatype Step =
    | Register(user: UserId)
    | CreateRoom(replica: ReplicaId, socket: SocketId, id: RoomId)
    | Hydrate(replica: ReplicaId, id: RoomId, game: GameId)
    | Refresh(replica: ReplicaId, room: Room, game: GameId)
    | Reconnect(replica: ReplicaId, room: Room, socket: SocketId, seat: nat)
    | Join(replica: ReplicaId, room: Room, socket: SocketId)
    | Move(replica: ReplicaId, room: Room, socket: SocketId, seat: nat, request: MoveText)
    | AutoFinalize(replica: ReplicaId, room: Room)
    | GameOver(replica: ReplicaId, room: Room, socket: SocketId, seat: nat)
    | ResignOrLeave(replica: ReplicaId, room: Room, socket: SocketId, seat: nat)
    | Detach(replica: ReplicaId, room: Room, seat: nat)
    | AddVote(replica: ReplicaId, room: Room, socket: SocketId, seat: nat)
    | CountVotes(replica: ReplicaId, room: Room)
    | DropVotes
    | StartRematch(replica: ReplicaId, room: Room)
    | Evict(replica: ReplicaId, id: RoomId)
    | Crash(replica: ReplicaId)

  /** The room object a handler works on changed from `room` to `room'`; the cache may or
      may not refer to the same object. */
  predicate Rewrites(rep: Replica, rep': Replica, room': Room) {
    && rep'.held == rep.held + {room'}
    && (rep'.cache == rep.cache || rep'.cache == rep.cache[room'.id := room'])
  }

  /** A newly built room object always replaces the cache entry of its room. */
  predicate Installs(rep: Replica, rep': Replica, room': Room) {
    rep' == Replica(rep.cache[room'.id := room'], rep.held + {room'})
  }

  predicate OnlyReplica(s: State, s': State, r: ReplicaId, rep': Replica) {
    s' == s.(replicas := s.replicas[r := rep'])
  }

  /** A new users row, with the default rating. */
  predicate RegisterStep(s: State, s': State, user: UserId) {
    && user !in s.db.ratings
    && s' == s.(db := s.db.(ratings := s.db.ratings[user := REGISTERED]),
                hist := s.hist.(base := s.hist.base[user := REGISTERED]))
  }

  predicate CreateRoomStep(env: Env, s: State, s': State, r: ReplicaId, socket: SocketId, id: RoomId) {
    && id !in Rep(s, r).cache
    && match Create(env.rules, s.db, id, env.owner(socket))
       case Rollback => s' == s
       case Commit(db, g) =>
         && var players := [Player(Some(socket), White, env.owner(socket))];
         && var room := Room(id, g, players, env.rules.start, Waiting, [], None, None);
         && var hist := s.hist.(lineage := s.hist.lineage[id := [g]], home := s.hist.home[g := (id, 0)]);
         && r in s'.replicas && Installs(Rep(s, r), s'.replicas[r], room)
         && s' == s.(db := db, hist := hist, replicas := s.replicas[r := s'.replicas[r]])
  }

  /** Cache miss: materialize an in-progress or finished game, or abandon a corrupt one. */
  predicate HydrateStep(env: Env, s: State, s': State, r: ReplicaId, id: RoomId, g: GameId) {
    && Holds(s.db, g, id) && g in s.db.moves && s.db.games[g].status != Abandoned
    && match BuildRoom(env.rules, id, g, s.db.games[g], s.db.moves[g])
       case None => s' == s.(db := Abandon(s.db, g))
       case Some(room) =>
         r in s'.replicas && Installs(Rep(s, r), s'.replicas[r], room) && OnlyReplica(s, s', r, s'.replicas[r])
  }

  /** Rebuild from the database, keeping the sockets of the live cache entry. */
  predicate RefreshStep(env: Env, s: State, s': State, r: ReplicaId, room: Room, g: GameId) {
    && Knows(Rep(s, r), room)
    && Holds(s.db, g, room.id) && g in s.db.moves && s.db.games[g].status != Abandoned
    && var current := if room.id in Rep(s, r).cache then Rep(s, r).cache[room.id] else room;
    && match BuildRoom(env.rules, room.id, g, s.db.games[g], s.db.moves[g])
       case None => s' == s.(db := Abandon(s.db, g))
       case Some(rebuilt) =>
         && r in s'.replicas && Installs(Rep(s, r), s'.replicas[r], Reattach(rebuilt, current))
         && OnlyReplica(s, s', r, s'.replicas[r])
  }

  predicate ReconnectStep(env: Env, s: State, s': State, r: ReplicaId, room: Room, socket: SocketId, i: nat) {
    && Knows(Rep(s, r), room) && i < |room.players|
    && room.players[i].user == env.owner(socket) && room.players[i].socket.None?
    && var room' := room.(players := room.players[i := room.players[i].(socket := Some(socket))]);
    && r in s'.replicas && Rewrites(Rep(s, r), s'.replicas[r], room') && OnlyReplica(s, s', r, s'.replicas[r])
  }

  predicate JoinStep(env: Env, s: State, s': State, r: ReplicaId, room: Room, socket: SocketId) {
    && Knows(Rep(s, r), room)
    && (forall p <- room.players :: p.user != env.owner(socket))
    && |room.players| < 2 && room.status == Waiting
    && match ClaimBlack(s.db, room.gameId, env.owner(socket))
       case Rollback => s' == s
       case Commit(_, None) => s' == s
       case Commit(db, Some(_)) =>
         && var seat := Player(Some(socket), Black, env.owner(socket));
         && var room' := room.(players := room.players + [seat], status := Playing);
         && r in s'.replicas && Rewrites(Rep(s, r), s'.replicas[r], room')
         && s' == s.(db := db, replicas := s.replicas[r := s'.replicas[r]])
  }

  predicate MoveStep(env: Env, s: State, s': State, r: ReplicaId, room: Room, socket: SocketId, i: nat, request: MoveText) {
    && Knows(Rep(s, r), room) && room.status == Playing && Attached(room, i, socket)
    && room.players[i].color == env.rules.turn(room.fen)
    && match PersistMove(env.rules, s.db, room.gameId, room.players[i].color, env.owner(socket), request)
       case Rollback => s' == s
       case Commit(_, None) => s' == s
       case Commit(db, Some(row)) =>
         && var room' := room.(fen := row.fenAfter, moves := room.moves + [row]);
         && r in s'.replicas && Rewrites(Rep(s, r), s'.replicas[r], room')
         && s' == s.(db := db, replicas := s.replicas[r := s'.replicas[r]])
  }

  /** What a settlement adds to the ledger: one entry if it was rated. */
  function Posting(g: GameId, white: Option<UserId>, black: Option<UserId>, settlement: Settlement): seq<Entry> {
    if settlement.Settled? && white.Some? && black.Some? then
      [Entry(g, white.value, black.value, settlement.oldWhite, settlement.oldBlack,
             settlement.newWhite - settlement.oldWhite, settlement.newBlack - settlement.oldBlack)]
    else []
  }

  /** Every way a game ends runs finalizeGameAtomic with the seats, the move count and the
      game id of the handler's room object. */
  predicate Settles(env: Env, s: State, s': State, r: ReplicaId, room: Room, result: Result, winner: Option<Color>) {
    var white, black := SeatedUser(room, White), SeatedUser(room, Black);
    match Finalize(env.curve, s.db, room.gameId, white, black, |room.moves|, result, winner)
    case Rollback => s' == s
    case Commit(db, settlement) =>
      if settlement.NotSettled? then s' == s
      else
        && var room' := room.(status := Ended, result := Some(result), winner := winner);
        && var hist := s.hist.(ledger := s.hist.ledger + Posting(room.gameId, white, black, settlement));
        && r in s'.replicas && Rewrites(Rep(s, r), s'.replicas[r], room')
        && s' == s.(db := db, hist := hist, replicas := s.replicas[r := s'.replicas[r]])
  }

  function OverResult(rules: Rules, fen: Fen): Result {
    if rules.mate(fen) then Checkmate else Draw
  }

  function OverWinner(rules: Rules, fen: Fen): Option<Color> {
    if rules.mate(fen) then Some(Flip(rules.turn(fen))) else None
  }

  predicate AutoFinalizeStep(env: Env, s: State, s': State, r: ReplicaId, room: Room) {
    && Knows(Rep(s, r), room) && env.rules.over(room.fen)
    && Settles(env, s, s', r, room, OverResult(env.rules, room.fen), OverWinner(env.rules, room.fen))
  }

  predicate GameOverStep(env: Env, s: State, s': State, r: ReplicaId, room: Room, socket: SocketId, i: nat) {
    && Knows(Rep(s, r), room) && Attached(room, i, socket) && env.rules.over(room.fen) && room.status != Ended
    && Settles(env, s, s', r, room, OverResult(env.rules, room.fen), OverWinner(env.rules, room.fen))
  }

  predicate ResignOrLeaveStep(env: Env, s: State, s': State, r: ReplicaId, room: Room, socket: SocketId, i: nat) {
    && Knows(Rep(s, r), room) && room.status == Playing && Attached(room, i, socket)
    && var other := Flip(room.players[i].color);
    && Settles(env, s, s', r, room, Resign, if SeatedUser(room, other).Some? then Some(other) else None)
  }

  predicate DetachStep(env: Env, s: State, s': State, r: ReplicaId, room: Room, i: nat) {
    && Knows(Rep(s, r), room) && i < |room.players|
    && var room' := room.(players := room.players[i := room.players[i].(socket := None)]);
    && r in s'.replicas && Rewrites(Rep(s, r), s'.replicas[r], room') && OnlyReplica(s, s', r, s'.replicas[r])
  }

  predicate AddVoteStep(env: Env, s: State, s': State, r: ReplicaId, room: Room, socket: SocketId, i: nat) {
    && Knows(Rep(s, r), room) && room.status == Ended && Attached(room, i, socket)
    && var k, user := (env.store(r), room.gameId), room.players[i].user;
    && s' == s.(votes := s.votes[k := VotesFor(s, k) + {user}],
                hist := s.hist.(voted := s.hist.voted[room.gameId := Voted(s.hist, room.gameId) + {user}]))
  }

  /** The count is read by its own command, after the vote was added. */
  predicate CountVotesStep(env: Env, s: State, s': State, r: ReplicaId, room: Room) {
    && Knows(Rep(s, r), room)
    && |VotesFor(s, (env.store(r), room.gameId))| >= REMATCH_QUORUM
    && s' == s.(quorum := s.quorum + {room.gameId})
  }

  /** Departures, clearing after a rematch, and expiry only remove votes. */
  predicate DropVotesStep(s: State, s': State) {
    && s' == s.(votes := s'.votes)
    && forall k <- s'.votes :: k in s.votes && s'.votes[k] <= s.votes[k]
  }

  predicate StartRematchStep(env: Env, s: State, s': State, r: ReplicaId, room: Room) {
    && Knows(Rep(s, r), room) && room.status == Ended && room.gameId in s.quorum
    && var switched := Swapped(room.players);
    && var white, black := SeatedUser(room.(players := switched), White), SeatedUser(room.(players := switched), Black);
    && white.Some? && black.Some?
    && match Rematch(env.rules, s.db, room.gameId, room.id, white.value, black.value)
       case Rollback => s' == s
       case Commit(db, g) =>
         && var room' := Room(room.id, g, switched, env.rules.start, Playing, [], None, None);
         && var line := if room.id in s.hist.lineage then s.hist.lineage[room.id] else [];
         && var hist := s.hist.(lineage := s.hist.lineage[room.id := line + [g]],
                                home := s.hist.home[g := (room.id, |line|)]);
         && r in s'.replicas && Rewrites(Rep(s, r), s'.replicas[r], room')
         && s' == s.(db := db, hist := hist, replicas := s.replicas[r := s'.replicas[r]])
  }

  predicate EvictStep(s: State, s': State, r: ReplicaId, id: RoomId) {
    OnlyReplica(s, s', r, Rep(s, r).(cache := Rep(s, r).cache - {id}))
  }

  /** Losing a process loses its cache and its handlers, nothing else. */
  predicate CrashStep(s: State, s': State, r: ReplicaId) {
    OnlyReplica(s, s', r, Replica(map[], {}))
  }

  predicate NextStep(env: Env, s: State, s': State, step: Step) {
    match step
    case Register(user) => RegisterStep(s, s', user)
    case CreateRoom(r, socket, id) => CreateRoomStep(env, s, s', r, socket, id)
    case Hydrate(r, id, g) => HydrateStep(env, s, s', r, id, g)
    case Refresh(r, room, g) => RefreshStep(env, s, s', r, room, g)
    case Reconnect(r, room, socket, i) => ReconnectStep(env, s, s', r, room, socket, i)
    case Join(r, room, socket) => JoinStep(env, s, s', r, room, socket)
    case Move(r, room, socket, i, request) => MoveStep(env, s, s', r, room, socket, i, request)
    case AutoFinalize(r, room) => AutoFinalizeStep(env, s, s', r, room)
    case GameOver(r, room, socket, i) => GameOverStep(env, s, s', r, room, socket, i)
    case ResignOrLeave(r, room, socket, i) => ResignOrLeaveStep(env, s, s', r, room, socket, i)
    case Detach(r, room, i) => DetachStep(env, s, s', r, room, i)
    case AddVote(r, room, socket, i) => AddVoteStep(env, s, s', r, room, socket, i)
    case CountVotes(r, room) => CountVotesStep(env, s, s', r, room)
    case DropVotes => DropVotesStep(s, s')
    case StartRematch(r, room) => StartRematchStep(env, s, s', r, room)
    case Evict(r, id) => EvictStep(s, s', r, id)
    case Crash(r) => CrashStep(s, s', r)
  }

  predicate Init(s: State) {
    && s.db.games == map[] && s.db.moves == map[] && s.db.scores == map[]
    && s.db.badges == {} && s.db.ratings == map[]
    && s.replicas == map[] && s.votes == map[] && s.quorum == {}
    && s.hist == History(map[], map[], map[], [], map[])
  }

  ghost predicate Next(env: Env, s: State, s': State) {
    exists step :: NextStep(env, s, s', step)
  }

  /** A run: any finite sequence of steps from an empty database. */
  ghost predicate Run(env: Env, run: seq<State>) {
    && |run| > 0 && Init(run[0])
    && forall i :: 0 <= i < |run| - 1 ==> Next(env, run[i], run[i + 1])
  }
}
