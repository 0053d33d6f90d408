/** Commands wrapped in feature gates, and how a request passes through them. */
module CommandGates {
  import opened Options

  datatype Meta = Meta(name: string, arity: int, write: bool)

  /**
   A command of its own, whose initial check and effect are its business, or a gate around another
   command. A closed gate rejects before routing or at the initial check.
   */
  datatype Cmd =
    | Plain(id: nat, own: Meta, passesInitial: bool)
    | Gated(inner: Cmd, allowed: bool, beforeRouting: bool, disabledError: string)

  function MetaOf(cmd: Cmd): Meta {
    match cmd
    case Plain(_, own, _) => own
    case Gated(inner, _, _, _) => MetaOf(inner)
  }

  predicate CheckArg(cmd: Cmd, argc: nat) {
    var arity := MetaOf(cmd).arity;
    if arity > 0 then argc == arity else argc >= -arity
  }

  datatype Reply =
    | WrongArity
    | Disabled(message: string)
    | NotLeader(address: Option<string>)
    | ReadFailed(message: string)

  /** The client: the reply set by the dispatcher or a gate, and which commands were really entered. */
  class Client {
    const argc: nat
    var reply: Option<Reply>
    var initials: seq<nat>
    var executed: seq<nat>

    constructor (argc: nat)
      ensures this.argc == argc && reply == None && initials == [] && executed == []
    {
      this.argc := argc;
      reply, initials, executed := None, [], [];
    }
  }

  method CheckPreRoute(cmd: Cmd, client: Client) returns (ok: bool)
    modifies client
    ensures client.initials == old(client.initials) && client.executed == old(client.executed)
    ensures ok <==> FirstClosed(Gates(cmd), true) == None
    ensures client.reply == if ok then old(client.reply) else Some(Disabled(FirstClosed(Gates(cmd), true).value))
    decreases cmd
  {
    match cmd
    case Plain(_, _, _) => return true;
    case Gated(inner, allowed, beforeRouting, disabledError) =>
      Outermost(cmd, true);
      if beforeRouting && !allowed {
        client.reply := Some(Disabled(disabledError));
        return false;
      }
      ok := CheckPreRoute(inner, client);
  }

  method DoInitial(cmd: Cmd, client: Client) returns (ok: bool)
    modifies client
    ensures client.executed == old(client.executed)
    ensures var closed := FirstClosed(Gates(cmd), false);
            if closed.Some? then
              !ok && client.reply == Some(Disabled(closed.value)) && client.initials == old(client.initials)
            else
              && ok == Core(cmd).passesInitial && client.reply == old(client.reply)
              && client.initials == old(client.initials) + [Core(cmd).id]
    decreases cmd
  {
    match cmd
    case Plain(id, _, passesInitial) =>
      client.initials := client.initials + [id];
      return passesInitial;
    case Gated(inner, allowed, beforeRouting, disabledError) =>
      Outermost(cmd, false);
      if !beforeRouting && !allowed {
        client.reply := Some(Disabled(disabledError));
        return false;
      }
      ok := DoInitial(inner, client);
  }

  method DoCmd(cmd: Cmd, client: Client)
    modifies client
    ensures client.reply == old(client.reply) && client.initials == old(client.initials)
    ensures client.executed == old(client.executed) + [Core(cmd).id]
    decreases cmd
  {
    match cmd
    case Plain(id, _, _) => client.executed := client.executed + [id];
    case Gated(inner, _, _, _) => DoCmd(inner, client);
  }

  method Execute(cmd: Cmd, client: Client)
    modifies client
    ensures if !CheckArg(cmd, client.argc) then
              && client.reply == Some(WrongArity)
              && client.initials == old(client.initials) && client.executed == old(client.executed)
            else
              var closed := FirstClosed(Gates(cmd), false);
              if closed.Some? then
                && client.reply == Some(Disabled(closed.value))
                && client.initials == old(client.initials) && client.executed == old(client.executed)
              else
                && client.reply == old(client.reply)
                && client.initials == old(client.initials) + [Core(cmd).id]
                && client.executed == old(client.executed) + (if Core(cmd).passesInitial then [Core(cmd).id] else [])
  {
    if !CheckArg(cmd, client.argc) {
      client.reply := Some(WrongArity);
      return;
    }
    var ok := DoInitial(cmd, client);
    if ok { DoCmd(cmd, client); }
  }

  // ---------------------------------------------------------------------------------------------
  // Chains of gates
  // ---------------------------------------------------------------------------------------------

  datatype Gate = Gate(allowed: bool, beforeRouting: bool, error: string)

  /** The gates around a command, outermost first. */
  function Gates(cmd: Cmd): seq<Gate> {
    match cmd
    case Plain(_, _, _) => []
    case Gated(inner, allowed, beforeRouting, error) => [Gate(allowed, beforeRouting, error)] + Gates(inner)
  }

  function Core(cmd: Cmd): (core: Cmd)
    ensures core.Plain? && MetaOf(core) == MetaOf(cmd)
  {
    match cmd
    case Plain(_, _, _) => cmd
    case Gated(inner, _, _, _) => Core(inner)
  }

  /** The error of the outermost closed gate of the given kind. */
  function FirstClosed(gates: seq<Gate>, beforeRouting: bool): (r: Option<string>)
    ensures match r
            case None => forall i :: 0 <= i < |gates| && gates[i].beforeRouting == beforeRouting ==> gates[i].allowed
            case Some(e) => exists i :: IsOutermost(gates, beforeRouting, i) && gates[i].error == e
  {
    if gates == [] then None
    else if gates[0].beforeRouting == beforeRouting && !gates[0].allowed then
      assert IsOutermost(gates, beforeRouting, 0);
      Some(gates[0].error)
    else
      var r := FirstClosed(gates[1..], beforeRouting);
      assert r.Some? ==> exists i :: IsOutermost(gates, beforeRouting, i) && gates[i].error == r.value by {
        if r.Some? {
          var i :| IsOutermost(gates[1..], beforeRouting, i) && gates[1..][i].error == r.value;
          assert forall j :: 0 < j <= i ==> gates[j] == gates[1..][j - 1];
          assert IsOutermost(gates, beforeRouting, i + 1);
        }
      }
      r
  }

  predicate IsOutermost(gates: seq<Gate>, beforeRouting: bool, i: int) {
    && 0 <= i < |gates|
    && gates[i].beforeRouting == beforeRouting && !gates[i].allowed
    && forall j :: 0 <= j < i && gates[j].beforeRouting == beforeRouting ==> gates[j].allowed
  }

  lemma Outermost(cmd: Cmd, beforeRouting: bool)
    requires cmd.Gated?
    ensures FirstClosed(Gates(cmd), beforeRouting) ==
            if cmd.beforeRouting == beforeRouting && !cmd.allowed then Some(cmd.disabledError)
            else FirstClosed(Gates(cmd.inner), beforeRouting)
  {
    assert Gates(cmd)[1..] == Gates(cmd.inner);
  }

  predicate AllOpen(cmd: Cmd) {
    forall i :: 0 <= i < |Gates(cmd)| ==> Gates(cmd)[i].allowed
  }

  lemma OpenMeansNoneClosed(cmd: Cmd)
    ensures AllOpen(cmd) <==> FirstClosed(Gates(cmd), true) == None && FirstClosed(Gates(cmd), false) == None
  {
    var gates := Gates(cmd);
    if !AllOpen(cmd) {
      var i :| 0 <= i < |gates| && !gates[i].allowed;
      assert FirstClosed(gates, gates[i].beforeRouting) != None;
    }
  }

  const VECTOR_READS := {"vsim", "vcard", "vdim", "vemb", "vismember", "vinfo"}

  /**
   What a cluster node knows about its leadership: when the check for writes looks, and when the one
   for vector reads does; the leader's address; and why a linearizable read failed, if it did.
   */
  datatype Leadership = Leadership(atWrite: bool, atRead: bool, address: Option<string>, readError: Option<string>)

  /** The reply that turns a command away in the cluster, if there is one. */
  function TurnedAway(meta: Meta, cluster: Option<Leadership>): Option<Reply> {
    if cluster.None? then None
    else if meta.write && !cluster.value.atWrite then Some(NotLeader(cluster.value.address))
    else if meta.name !in VECTOR_READS then None
    else if !cluster.value.atRead then Some(NotLeader(cluster.value.address))
    else if cluster.value.readError.Some? then Some(ReadFailed(cluster.value.readError.value))
    else None
  }

  /** The leadership checks of the dispatcher. */
  method CheckLeadership(meta: Meta, cluster: Option<Leadership>, client: Client) returns (ok: bool)
    modifies client
    ensures client.initials == old(client.initials) && client.executed == old(client.executed)
    ensures ok <==> TurnedAway(meta, cluster) == None
    ensures client.reply == if ok then old(client.reply) else TurnedAway(meta, cluster)
  {
    if cluster.Some? && meta.write && !cluster.value.atWrite {
      client.reply := Some(NotLeader(cluster.value.address));
      return false;
    }
    if cluster.Some? && meta.name in VECTOR_READS {
      if !cluster.value.atRead {
        client.reply := Some(NotLeader(cluster.value.address));
        return false;
      }
      if cluster.value.readError.Some? {
        client.reply := Some(ReadFailed(cluster.value.readError.value));
        return false;
      }
    }
    return true;
  }

  /** Nothing stands between the request and the wrapped command. */
  predicate Admitted(cmd: Cmd, argc: nat, cluster: Option<Leadership>) {
    CheckArg(cmd, argc) && AllOpen(cmd) && TurnedAway(MetaOf(cmd), cluster) == None
  }

  /**
   The network dispatcher: arity, the pre-route check, leadership and the initial check, then the
   command executes in the storage runtime, which checks arity and initial conditions again. The
   wrapped command is entered if and only if all of them let it pass. Otherwise the reply is that of
   the outermost closed pre-route gate, failing that of the leadership check, and failing that of
   the outermost closed initial gate, whatever the order in which gates of the two kinds are nested.
   */
  method Dispatch(cmd: Cmd, cluster: Option<Leadership>, client: Client)
    requires client.reply == None && client.initials == [] && client.executed == []
    modifies client
    ensures client.initials != [] <==> Admitted(cmd, client.argc, cluster)
    ensures forall i :: 0 <= i < |client.initials| ==> client.initials[i] == Core(cmd).id
    ensures client.executed ==
            if Admitted(cmd, client.argc, cluster) && Core(cmd).passesInitial then [Core(cmd).id] else []
    ensures client.reply ==
            if !CheckArg(cmd, client.argc) then Some(WrongArity)
            else if FirstClosed(Gates(cmd), true).Some? then Some(Disabled(FirstClosed(Gates(cmd), true).value))
            else if TurnedAway(MetaOf(cmd), cluster).Some? then TurnedAway(MetaOf(cmd), cluster)
            else if FirstClosed(Gates(cmd), false).Some? then Some(Disabled(FirstClosed(Gates(cmd), false).value))
            else None
  {
    OpenMeansNoneClosed(cmd);
    if !CheckArg(cmd, client.argc) {
      client.reply := Some(WrongArity);
      return;
    }
    var routed := CheckPreRoute(cmd, client);
    if !routed { return; }
    var leads := CheckLeadership(MetaOf(cmd), cluster, client);
    if !leads { return; }
    var ready := DoInitial(cmd, client);
    if ready { Execute(cmd, client); }
  }

  // ---------------------------------------------------------------------------------------------
  // The command table
  // ---------------------------------------------------------------------------------------------

  type CmdTable = map<string, Cmd>

  function NameOf(cmd: Cmd): string {
    MetaOf(cmd).name
  }

  function Names(cmds: seq<Cmd>): set<string> {
    if cmds == [] then {} else Names(cmds[..|cmds| - 1]) + {NameOf(cmds[|cmds| - 1])}
  }

  /** No later command in the list takes the name of command `i`. */
  predicate Wins(cmds: seq<Cmd>, i: int) {
    0 <= i < |cmds| && forall j :: i < j < |cmds| ==> NameOf(cmds[j]) != NameOf(cmds[i])
  }

  datatype Gating = Gating(allowed: bool, beforeRouting: bool, error: Meta -> string)

  function Wrapped(cmd: Cmd, g: Gating): Cmd {
    Gated(cmd, g.allowed, g.beforeRouting, g.error(MetaOf(cmd)))
  }

  method WrapGatedCmds(cmds: seq<Cmd>, g: Gating) returns (wrapped: seq<Cmd>)
    ensures |wrapped| == |cmds| && forall i :: 0 <= i < |cmds| ==> wrapped[i] == Wrapped(cmds[i], g)
  {
    wrapped := [];
    for i := 0 to |cmds|
      invariant |wrapped| == i && forall j :: 0 <= j < i ==> wrapped[j] == Wrapped(cmds[j], g)
    {
      wrapped := wrapped + [Gated(cmds[i], g.allowed, g.beforeRouting, g.error(MetaOf(cmds[i])))];
    }
  }

  function Registered(table: CmdTable, cmds: seq<Cmd>, g: Gating): CmdTable {
    if cmds == [] then table
    else
      var last := cmds[|cmds| - 1];
      Registered(table, cmds[..|cmds| - 1], g)[NameOf(last) := Wrapped(last, g)]
  }

  /** Every name ends up with the gate around the last command of that name. */
  lemma {:induction false} LastOfANameWins(table: CmdTable, cmds: seq<Cmd>, g: Gating, i: int)
    requires Wins(cmds, i)
    ensures NameOf(cmds[i]) in Registered(table, cmds, g)
    ensures Registered(table, cmds, g)[NameOf(cmds[i])] == Wrapped(cmds[i], g)
  {
    if i == |cmds| - 1 {
    } else {
      LastOfANameWins(table, cmds[..|cmds| - 1], g, i);
    }
  }

  /** Other entries stay, and no others appear. */
  lemma {:induction false} OthersStay(table: CmdTable, cmds: seq<Cmd>, g: Gating)
    ensures Registered(table, cmds, g).Keys == table.Keys + Names(cmds)
    ensures forall name :: name in table && name !in Names(cmds) ==> Registered(table, cmds, g)[name] == table[name]
  {
    if cmds == [] {
    } else {
      OthersStay(table, cmds[..|cmds| - 1], g);
    }
  }

  method RegisterGatedCmds(table: CmdTable, cmds: seq<Cmd>, g: Gating) returns (r: CmdTable)
    ensures r == Registered(table, cmds, g)
  {
    r := table;
    for n := 0 to |cmds|
      invariant r == Registered(table, cmds[..n], g)
    {
      assert cmds[..n + 1][..n] == cmds[..n];
      var meta := MetaOf(cmds[n]);
      r := r[meta.name := Gated(cmds[n], g.allowed, g.beforeRouting, g.error(meta))];
    }
    assert cmds[..|cmds|] == cmds;
  }

  const CLUSTER_ERROR := "ERR vector commands are not supported in cluster mode yet"
  const VECTOR_ERROR := "ERR vector support is disabled (vector-enabled=false)"

  /** What the table promises for a vector command, whose cluster gate is inside and feature gate outside. */
  predicate VectorEntry(entry: Cmd, cmd: Cmd, enabled: bool, clusterAllowed: bool) {
    && Core(entry) == Core(cmd)
    && (AllOpen(cmd) ==> (AllOpen(entry) <==> enabled && clusterAllowed))
    && (AllOpen(cmd) ==> FirstClosed(Gates(entry), true) == if clusterAllowed then None else Some(CLUSTER_ERROR))
    && (AllOpen(cmd) ==> FirstClosed(Gates(entry), false) == if enabled then None else Some(VECTOR_ERROR))
  }

  method RegisterVectorCmds(table: CmdTable, cmds: seq<Cmd>, enabled: bool, clusterAllowed: bool) returns (r: CmdTable)
    ensures forall i :: Wins(cmds, i) ==>
              NameOf(cmds[i]) in r && VectorEntry(r[NameOf(cmds[i])], cmds[i], enabled, clusterAllowed)
    ensures r.Keys == table.Keys + Names(cmds)
    ensures forall name :: name in table && name !in Names(cmds) ==> r[name] == table[name]
  {
    var wrapped := WrapGatedCmds(cmds, Gating(clusterAllowed, true, _ => CLUSTER_ERROR));
    var outer := Gating(enabled, false, _ => VECTOR_ERROR);
    r := RegisterGatedCmds(table, wrapped, outer);
    SameNames(cmds, wrapped);
    OthersStay(table, wrapped, outer);
    forall i | Wins(cmds, i)
      ensures NameOf(cmds[i]) in r && VectorEntry(r[NameOf(cmds[i])], cmds[i], enabled, clusterAllowed)
    {
      LastOfANameWins(table, wrapped, outer, i);
      TwoLayers(cmds[i], enabled, clusterAllowed);
    }
  }

  lemma {:induction false} SameNames(a: seq<Cmd>, b: seq<Cmd>)
    requires |a| == |b| && forall i :: 0 <= i < |a| ==> NameOf(a[i]) == NameOf(b[i])
    ensures Names(a) == Names(b) && forall i :: Wins(a, i) ==> Wins(b, i)
  {
    if a == [] {
    } else {
      SameNames(a[..|a| - 1], b[..|b| - 1]);
    }
  }

  lemma TwoLayers(cmd: Cmd, enabled: bool, clusterAllowed: bool)
    ensures var inside := Gated(cmd, clusterAllowed, true, CLUSTER_ERROR);
            VectorEntry(Gated(inside, enabled, false, VECTOR_ERROR), cmd, enabled, clusterAllowed)
  {
    var inside := Gated(cmd, clusterAllowed, true, CLUSTER_ERROR);
    var gated := Gated(inside, enabled, false, VECTOR_ERROR);
    Outermost(gated, true);
    Outermost(gated, false);
    Outermost(inside, true);
    Outermost(inside, false);
    OpenMeansNoneClosed(cmd);
    OpenMeansNoneClosed(gated);
    assert Core(gated) == Core(inside) == Core(cmd);
  }

  // ---------------------------------------------------------------------------------------------
  // Arity and leadership, from the caller's side
  // ---------------------------------------------------------------------------------------------

  /** A positive arity asks for exactly so many arguments, any other for at least as many as its absolute value. */
  lemma ArityExactly(cmd: Cmd, argc: nat, n: nat)
    ensures n > 0 && Core(cmd).own.arity == n ==> (CheckArg(cmd, argc) <==> argc == n)
    ensures Core(cmd).own.arity + n == 0 ==> (CheckArg(cmd, argc) <==> argc >= n)
  {
    assert MetaOf(Core(cmd)) == MetaOf(cmd);
  }

  /**
   A single node turns nothing away. In a cluster a node that leads turns away no command for want of
   leadership, and only vector reads for a read that fails; one that does not lead turns away exactly
   the writes and the six vector reads, and names the leader.
   */
  lemma TurnedAwayExactly(meta: Meta, c: Leadership)
    ensures TurnedAway(meta, None) == None
    ensures c.atWrite && c.atRead ==>
              TurnedAway(meta, Some(c)) ==
              if meta.name in ["vsim", "vcard", "vdim", "vemb", "vismember", "vinfo"] && c.readError.Some?
              then Some(ReadFailed(c.readError.value)) else None
    ensures !c.atWrite && !c.atRead ==>
              TurnedAway(meta, Some(c)) ==
              if meta.write || meta.name in ["vsim", "vcard", "vdim", "vemb", "vismember", "vinfo"]
              then Some(NotLeader(c.address)) else None
  {
  }
}
