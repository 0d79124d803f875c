/**
 * Waiting for a reader change: the request, wake-up and stop messages of one
 * connection over its two FIFOs, with the control thread as an asynchronous
 * third party (crates/fibby/src/server.rs).
 */
module WakeUp {
  import opened Base

  // --- the write half of a connection -------------------------------------------

  datatype Message = ReaderStates(events: nat) | WakeUp8 | CommandReply

  /** What has been written towards the client and not yet read, and the registration. */
  datatype Sink = Sink(down: seq<Message>, armed: bool)

  function Woken(sink: Sink): Sink {
    if sink.armed then Sink(sink.down + [WakeUp8], false) else sink
  }

  function Registered(sink: Sink, events: nat): Sink { Sink(sink.down + [ReaderStates(events)], true) }

  class ConnSink {
    var stream: seq<Message>
    var armed: bool

    function State(): Sink
      reads this
    {
      Sink(stream, armed)
    }

    constructor ()
      ensures State() == Sink([], false)
    {
      stream, armed := [], false;
    }

    /** The array goes out and the registration is set under one lock. */
    method WaitReaderState(events: nat)
      modifies this
      ensures State() == Registered(old(State()), events)
    {
      stream := stream + [ReaderStates(events)];
      armed := true;
    }

    /** A reply only if no notification has taken its place. */
    method StopWaiting()
      modifies this
      ensures State() == Woken(old(State()))
    {
      if armed {
        stream := stream + [WakeUp8];
        armed := false;
      }
    }
  }

  /** Which connections are registered. */
  ghost function ArmedFlags(live: seq<ConnSink>): (flags: seq<bool>)
    reads live
    ensures |flags| == |live| && forall i :: 0 <= i < |live| ==> flags[i] == live[i].armed
  {
    seq(|live|, i requires 0 <= i < |live| reads live => live[i].armed)
  }

  /** The indices below `k` at which the flag is set. */
  ghost function SetAmong(flags: seq<bool>, k: nat): set<int>
    requires k <= |flags|
  {
    set i | 0 <= i < k && flags[i]
  }

  lemma NoneAmong(flags: seq<bool>)
    ensures |SetAmong(flags, 0)| == 0
  {
  }

  lemma OneMoreAmong(flags: seq<bool>, k: nat)
    requires k < |flags|
    ensures |SetAmong(flags, k + 1)| == |SetAmong(flags, k)| + if flags[k] then 1 else 0
  {
    assert SetAmong(flags, k + 1) == SetAmong(flags, k) + (if flags[k] then {k as int} else {});
  }

  /** Wake every registered connection once. */
  method NotifyWaiters(live: seq<ConnSink>) returns (woke: nat)
    requires forall i, j :: 0 <= i < j < |live| ==> live[i] != live[j]
    modifies live
    ensures forall i :: 0 <= i < |live| ==> live[i].State() == Woken(old(live[i].State()))
    ensures woke == |SetAmong(old(ArmedFlags(live)), |live|)|
  {
    hide SetAmong;
    NoneAmong(ArmedFlags(live));
    woke := 0;
    ghost var flags := ArmedFlags(live);
    for k := 0 to |live|
      invariant forall i :: 0 <= i < k ==> live[i].State() == Woken(old(live[i].State()))
      invariant forall i :: k <= i < |live| ==> live[i].State() == old(live[i].State())
      invariant woke == |SetAmong(flags, k)|
    {
      OneMoreAmong(flags, k);
      if live[k].armed {
        live[k].stream := live[k].stream + [WakeUp8];
        live[k].armed := false;
        woke := woke + 1;
      }
    }
  }

  // --- the protocol ---------------------------------------------------------------

  datatype Request = WaitForChange | StopWaiting | OtherCommand

  /** Where the client is; a client that reads a message it does not expect is `Desynced`. */
  datatype Client = Idle | SentWait | Blocked(seen: nat) | SentStop | SentCommand | Desynced

  /**
   * One connection: the client, both FIFOs and the registration; the reader-state array being
   * built, if any; the reader events so far; notifications the control thread still owes.
   * `armedAt` and `read`, the messages the client has read, are history.
   */
  datatype Link = Link(
    client: Client, up: seq<Request>, sink: Sink, building: Option<nat>, events: nat, due: nat,
    armedAt: nat, read: seq<Message>)

  const NEW_LINK: Link := Link(Idle, [], Sink([], false), None, 0, 0, 0, [])

  datatype Move = ClientWaits | ClientStops | ClientCommands | ClientReads | ServerMoves | Toggle | Notify

  predicate Possible(l: Link, move: Move) {
    match move
    case ClientWaits => l.client == Idle
    case ClientCommands => l.client == Idle
    case ClientStops => l.client.Blocked?
    case ClientReads => l.sink.down != []
    case ServerMoves => l.up != []
    case Toggle => true
    case Notify => l.due > 0
  }

  /** The client reads one message in the state it is in. */
  function Reads(client: Client, message: Message): Client {
    match (client, message)
    case (SentWait, ReaderStates(events)) => Blocked(events)
    case (Blocked(_), WakeUp8) => Idle
    case (SentStop, WakeUp8) => Idle
    case (SentCommand, CommandReply) => Idle
    case _ => Desynced
  }

  /** The connection thread: build the array with no lock held, then send it and register under the lock. */
  function Serve(l: Link): Link
    requires l.up != []
  {
    match l.up[0]
    case WaitForChange =>
      if l.building.None? then l.(building := Some(l.events))
      else l.(up := l.up[1..], sink := Registered(l.sink, l.building.value), building := None,
              armedAt := l.events)
    case StopWaiting => l.(up := l.up[1..], sink := Woken(l.sink))
    case OtherCommand => l.(up := l.up[1..], sink := l.sink.(down := l.sink.down + [CommandReply]))
  }

  function Next(l: Link, move: Move): Link {
    if !Possible(l, move) then l
    else match move
      case ClientWaits => l.(client := SentWait, up := l.up + [WaitForChange])
      case ClientStops => l.(client := SentStop, up := l.up + [StopWaiting])
      case ClientCommands => l.(client := SentCommand, up := l.up + [OtherCommand])
      case ClientReads =>
        l.(client := Reads(l.client, l.sink.down[0]), read := l.read + [l.sink.down[0]],
           sink := l.sink.(down := l.sink.down[1..]))
      case ServerMoves => Serve(l)
      case Toggle => l.(events := l.events + 1, due := l.due + 1)
      case Notify => l.(sink := Woken(l.sink), due := l.due - 1)
  }

  function Run(moves: seq<Move>): Link {
    if moves == [] then NEW_LINK else Next(Run(moves[..|moves| - 1]), moves[|moves| - 1])
  }

  // --- what every interleaving keeps ---------------------------------------------------

  /** Stop requests that a notification has already answered. */
  predicate Stale(up: seq<Request>) { forall i :: 0 <= i < |up| ==> up[i] == StopWaiting }

  /** Stale stops, then one `last` the server has not answered. */
  predicate Awaiting(l: Link, last: Request) {
    && l.up != [] && l.up[|l.up| - 1] == last && Stale(l.up[..|l.up| - 1])
    && l.sink == Sink([], false)
  }

  predicate InStep(l: Link) {
    match l.client
    case Idle => Stale(l.up) && l.sink == Sink([], false) && l.building.None?
    case SentCommand =>
      l.building.None? && (Awaiting(l, OtherCommand) || (l.up == [] && l.sink == Sink([CommandReply], false)))
    case SentWait =>
      || (Awaiting(l, WaitForChange) && (l.building.Some? ==> l.up == [WaitForChange] && l.building.value <= l.events))
      || (l.up == [] && l.building.None? && l.sink.down != [] && l.sink.down[0].ReaderStates?
          && l.sink.down[0].events <= l.armedAt
          && (l.sink == Sink([l.sink.down[0]], true) || l.sink == Sink([l.sink.down[0], WakeUp8], false)))
    case Blocked(seen) =>
      l.up == [] && l.building.None? && seen <= l.armedAt && (l.sink == Sink([], true) || l.sink == Sink([WakeUp8], false))
    case SentStop =>
      l.building.None? &&
      ((l.up == [StopWaiting] && l.sink == Sink([], true)) || (Stale(l.up) && l.sink == Sink([WakeUp8], false)))
    case Desynced => false
  }

  /** Everything ever written towards the client, in order. */
  function Written(l: Link): seq<Message> { l.read + l.sink.down }

  /**
   * A stream of command replies and of reader-state arrays, each array followed by its one
   * wake-up message; the last array may still be owed its wake-up, and then `owed` says so.
   */
  predicate Framed(stream: seq<Message>, owed: bool) {
    if stream == [] then !owed
    else
      var before := stream[..|stream| - 1];
      match stream[|stream| - 1]
      case ReaderStates(_) => owed && Framed(before, false)
      case WakeUp8 => !owed && Framed(before, true)
      case CommandReply => !owed && Framed(before, false)
  }

  predicate Kept(l: Link) {
    && Framed(Written(l), l.sink.armed)
    && l.armedAt <= l.events
    && (l.sink.armed ==> l.events <= l.armedAt + l.due)
  }

  lemma OneMoreWritten(l: Link, l': Link, message: Message)
    requires l'.read == l.read && l'.sink.down == l.sink.down + [message]
    ensures Written(l')[..|Written(l')| - 1] == Written(l) && Written(l')[|Written(l')| - 1] == message
  {
  }

  lemma ReadingWritesNothing(l: Link)
    requires Possible(l, ClientReads)
    ensures Written(Next(l, ClientReads)) == Written(l)
  {
  }

  /** Serving one request while others wait behind it, or the last one. */
  lemma ServingBeforeTheLast(l: Link, last: Request)
    requires Awaiting(l, last) && |l.up| > 1 && !l.sink.armed
    ensures Awaiting(Serve(l), last) && Serve(l) == l.(up := l.up[1..])
  {
    var front := l.up[..|l.up| - 1];
    assert l.up[0] == front[0] && l.up[1..][..|l.up| - 2] == front[1..];
  }

  lemma ServingStaleStops(l: Link)
    requires Stale(l.up) && l.up != [] && !l.sink.armed
    ensures Serve(l) == l.(up := l.up[1..]) && Stale(l.up[1..])
  {
  }

  /** Serving a request writes at most one message. */
  lemma ServingWrites(l: Link)
    requires l.up != []
    ensures var w, w' := Written(l), Written(Serve(l));
            if Serve(l).sink.down == l.sink.down then w' == w
            else w' != [] && w'[..|w'| - 1] == w && w'[|w'| - 1] == Serve(l).sink.down[|Serve(l).sink.down| - 1]
  {
    var l' := Serve(l);
    if l'.sink.down != l.sink.down { OneMoreWritten(l, l', l'.sink.down[|l'.sink.down| - 1]); }
  }

  /** What is served next, by where the client is. */
  lemma ServedNext(l: Link)
    requires InStep(l) && l.up != []
    ensures l.up[0] != StopWaiting ==> !l.sink.armed
  {
  }

  lemma ServingKeepsFrames(l: Link)
    requires Framed(Written(l), l.sink.armed) && l.up != [] && (l.up[0] != StopWaiting ==> !l.sink.armed)
    ensures Framed(Written(Serve(l)), Serve(l).sink.armed)
  {
    hide Written;
    ServingWrites(l);
  }

  lemma ServingKeepsStep(l: Link)
    requires InStep(l) && Kept(l) && l.up != []
    ensures InStep(Serve(l)) && Kept(Serve(l)) && Serve(l).client == l.client
  {
    hide Framed, Written;
    ServedNext(l);
    ServingKeepsFrames(l);
    match l.client
    case Idle => ServingStaleStops(l);
    case SentStop => if !l.sink.armed { ServingStaleStops(l); }
    case SentCommand => if |l.up| > 1 { ServingBeforeTheLast(l, OtherCommand); }
    case SentWait => if |l.up| > 1 { ServingBeforeTheLast(l, WaitForChange); }
    case Blocked(_) =>
  }

  lemma MoveKeepsFrames(l: Link, move: Move)
    requires Framed(Written(l), l.sink.armed) && Possible(l, move) && move != ServerMoves
    ensures Framed(Written(Next(l, move)), Next(l, move).sink.armed)
  {
    hide Framed, Written;
    if move == ClientReads {
      ReadingWritesNothing(l);
    } else if move == Notify {
      NotifyKeepsFrames(l);
    } else {
      SameStream(l, Next(l, move));
    }
  }

  lemma SameStream(l: Link, l': Link)
    requires l'.read == l.read && l'.sink == l.sink
    ensures Written(l') == Written(l)
  {
  }

  lemma NotifyKeepsFrames(l: Link)
    requires Framed(Written(l), l.sink.armed) && Possible(l, Notify)
    ensures Framed(Written(Next(l, Notify)), Next(l, Notify).sink.armed)
  {
    hide Written;
    if l.sink.armed { OneMoreWritten(l, Next(l, Notify), WakeUp8); } else { SameStream(l, Next(l, Notify)); }
  }

  lemma ReadingKeepsStep(l: Link)
    requires InStep(l) && Kept(l) && l.sink.down != []
    ensures InStep(Next(l, ClientReads)) && Kept(Next(l, ClientReads))
  {
    hide Framed, Written;
    MoveKeepsFrames(l, ClientReads);
  }

  lemma AskingKeepsStep(l: Link, move: Move)
    requires InStep(l) && Kept(l) && Possible(l, move) && move in {ClientWaits, ClientStops, ClientCommands}
    ensures InStep(Next(l, move)) && Kept(Next(l, move))
  {
    hide Framed, Written;
    MoveKeepsFrames(l, move);
    assert Next(l, move).up[..|l.up|] == l.up;
  }

  lemma EventsKeepStep(l: Link, move: Move)
    requires InStep(l) && Kept(l) && Possible(l, move) && move in {Toggle, Notify}
    ensures InStep(Next(l, move)) && Kept(Next(l, move))
  {
    hide Framed, Written;
    MoveKeepsFrames(l, move);
  }

  lemma MoveKeepsStep(l: Link, move: Move)
    requires InStep(l) && Kept(l)
    ensures InStep(Next(l, move)) && Kept(Next(l, move))
  {
    hide InStep, Kept;
    if Possible(l, move) {
      match move
      case ServerMoves => ServingKeepsStep(l);
      case ClientReads => ReadingKeepsStep(l);
      case Toggle => EventsKeepStep(l, move);
      case Notify => EventsKeepStep(l, move);
      case _ => AskingKeepsStep(l, move);
    }
  }

  lemma {:induction false} AlwaysInStep(moves: seq<Move>)
    ensures InStep(Run(moves)) && Kept(Run(moves))
  {
    if moves != [] {
      AlwaysInStep(moves[..|moves| - 1]);
      MoveKeepsStep(Run(moves[..|moves| - 1]), moves[|moves| - 1]);
    }
  }

  /** The message a client in this state reads next. */
  predicate Expects(client: Client, message: Message) {
    match client
    case SentWait => message.ReaderStates?
    case Blocked(_) => message == WakeUp8
    case SentStop => message == WakeUp8
    case SentCommand => message == CommandReply
    case _ => false
  }

  /**
   * Whatever the interleaving, the client only ever reads the kind of message it expects, and
   * in the whole stream written to it each registration's array is followed, with nothing in
   * between, by exactly one 8-byte message, from the notifier or the stop.
   */
  lemma FramingHolds(moves: seq<Move>)
    ensures var l := Run(moves);
            && l.client != Desynced
            && (l.sink.down != [] ==> Expects(l.client, l.sink.down[0]))
            && Framed(Written(l), l.sink.armed)
  {
    AlwaysInStep(moves);
  }

  /** The connection after its thread has answered everything in the request FIFO. */
  function Drained(l: Link): Link
    decreases |l.up|, l.building.None?
  {
    if l.up == [] then l else Drained(Serve(l))
  }

  /**
   * No client is left waiting for a reply that will not come: once the server has worked off
   * the requests, the answer a stop, a wait or a command is owed is there to be read.
   */
  lemma {:induction false} RepliesCome(l: Link)
    requires InStep(l) && Kept(l)
    ensures var d := Drained(l);
            && d.client == l.client && InStep(d) && d.up == []
            && (l.client == SentStop ==> d.sink == Sink([WakeUp8], false))
            && (l.client == SentWait ==> d.sink.down != [] && d.sink.down[0].ReaderStates?)
            && (l.client == SentCommand ==> d.sink == Sink([CommandReply], false))
    decreases |l.up|, l.building.None?
  {
    if l.up != [] {
      ServingKeepsStep(l);
      RepliesCome(Serve(l));
    }
  }

  lemma RepliesComeInEveryRun(moves: seq<Move>)
    ensures var l, d := Run(moves), Drained(Run(moves));
            && d.client == l.client && d.up == []
            && (l.client == SentStop ==> d.sink == Sink([WakeUp8], false))
            && (l.client == SentWait ==> d.sink.down != [] && d.sink.down[0].ReaderStates?)
            && (l.client == SentCommand ==> d.sink == Sink([CommandReply], false))
  {
    AlwaysInStep(moves);
    RepliesCome(Run(moves));
  }

  // --- what the client sees and misses ---------------------------------------------------

  /** Reader events so far, counted in the moves. */
  function Toggles(moves: seq<Move>): nat {
    if moves == [] then 0 else Toggles(moves[..|moves| - 1]) + (if moves[|moves| - 1] == Toggle then 1 else 0)
  }

  /** In state `l` the connection thread turns to a wait request: the array is built now. */
  predicate Builds(l: Link) { l.up != [] && l.up[0] == WaitForChange && l.building.None? }

  /** In state `l` the array built before goes out, and the connection is registered. */
  predicate Registers(l: Link) { l.up != [] && l.up[0] == WaitForChange && l.building.Some? }

  /** Reader events before the array was last built. */
  function ToggledAtBuild(moves: seq<Move>): nat {
    if moves == [] then 0
    else
      var before := moves[..|moves| - 1];
      if moves[|moves| - 1] == ServerMoves && Builds(Run(before)) then Toggles(before) else ToggledAtBuild(before)
  }

  /** Reader events before the connection was last registered. */
  function ToggledAtRegistration(moves: seq<Move>): nat {
    if moves == [] then 0
    else
      var before := moves[..|moves| - 1];
      if moves[|moves| - 1] == ServerMoves && Registers(Run(before)) then Toggles(before) else ToggledAtRegistration(before)
  }

  /** The array being built, on its way or already read holds the events of the moment it was built. */
  predicate Snapshot(l: Link, built: nat) {
    && (l.building.Some? ==> l.building.value == built)
    && (forall i :: 0 <= i < |l.sink.down| && l.sink.down[i].ReaderStates? ==> l.building.None? && l.sink.down[i].events == built)
    && (l.client.Blocked? ==> l.building.None? && l.client.seen == built)
  }

  lemma ServingKeepsSnapshot(l: Link, built: nat)
    requires InStep(l) && Snapshot(l, built) && l.up != []
    ensures Snapshot(Serve(l), if Builds(l) then l.events else built)
    ensures Serve(l).armedAt == (if Registers(l) then l.events else l.armedAt) && Serve(l).events == l.events
  {
  }

  lemma MoveKeepsSnapshot(l: Link, move: Move, built: nat)
    requires InStep(l) && Snapshot(l, built)
    ensures Snapshot(Next(l, move), if move == ServerMoves && Builds(l) then l.events else built)
    ensures Next(l, move).armedAt == (if move == ServerMoves && Registers(l) then l.events else l.armedAt)
    ensures Next(l, move).events == l.events + (if move == Toggle then 1 else 0)
  {
    if Possible(l, move) && move == ServerMoves { ServingKeepsSnapshot(l, built); }
  }

  /** After every run: the events are the toggles, and arrays and registration are those of their moments. */
  lemma {:induction false} EventsAreToggles(moves: seq<Move>)
    ensures var l := Run(moves);
            && l.events == Toggles(moves) && l.armedAt == ToggledAtRegistration(moves) && Snapshot(l, ToggledAtBuild(moves))
  {
    if moves != [] {
      var before := moves[..|moves| - 1];
      hide InStep, Kept, Snapshot, Next, Builds, Registers;
      AlwaysInStep(before);
      EventsAreToggles(before);
      MoveKeepsSnapshot(Run(before), moves[|moves| - 1], ToggledAtBuild(before));
    } else {
      assert Snapshot(NEW_LINK, 0);
    }
  }

  /** What a client reads as reader states is exactly the events up to the moment its array was built. */
  lemma ClientSeesTheSnapshot(moves: seq<Move>)
    ensures var l := Run(moves);
            && (l.client.Blocked? ==> l.client.seen == ToggledAtBuild(moves))
            && (l.sink.down != [] && l.sink.down[0].ReaderStates? ==> l.sink.down[0].events == ToggledAtBuild(moves))
  {
    EventsAreToggles(moves);
  }

  /**
   * A client left blocked, with every notification delivered, has missed exactly the toggles
   * between the building of its array and its registration.
   */
  lemma BlockedClientMissesOnlyTheGap(moves: seq<Move>)
    requires var l := Run(moves); l.client.Blocked? && l.sink.down == [] && l.due == 0
    ensures Toggles(moves) == ToggledAtRegistration(moves)
    ensures Run(moves).client.seen == ToggledAtBuild(moves) <= ToggledAtRegistration(moves)
    ensures Toggles(moves) - Run(moves).client.seen == ToggledAtRegistration(moves) - ToggledAtBuild(moves)
  {
    AlwaysInStep(moves);
    EventsAreToggles(moves);
  }

  /** The array is built before the registration, so a toggle in between is neither seen nor signalled. */
  lemma ToggleCanBeMissed()
    ensures var l := Run([ClientWaits, ServerMoves, Toggle, Notify, ServerMoves, ClientReads]);
            l.client == Blocked(0) && l.events == 1 && l.sink == Sink([], true) && l.due == 0
  {
    hide Next;
    var moves := [ClientWaits, ServerMoves, Toggle, Notify, ServerMoves, ClientReads];
    forall k | 0 < k <= 6 ensures moves[..k][..k - 1] == moves[..k - 1] {}
    assert moves[..6] == moves && moves[..0] == [];
    RunOf(moves, 1); RunOf(moves, 2); RunOf(moves, 3); RunOf(moves, 4); RunOf(moves, 5); RunOf(moves, 6);
    MissedToggle();
  }

  lemma RunOf(moves: seq<Move>, k: nat)
    requires 0 < k <= |moves|
    ensures Run(moves[..k]) == Next(Run(moves[..k - 1]), moves[k - 1])
  {
    assert moves[..k][..k - 1] == moves[..k - 1];
  }

  lemma MissedToggle()
    ensures var built := Next(Next(NEW_LINK, ClientWaits), ServerMoves);
            Next(Next(Next(Next(built, Toggle), Notify), ServerMoves), ClientReads)
              == Link(Blocked(0), [], Sink([], true), None, 1, 0, 1, [ReaderStates(0)])
  {
  }
}
