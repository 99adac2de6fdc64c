/**
 * The side-effect-free decisions of command assembly: whether a write concern may
 * be sent, the slaveOK and $readPreference rules of the Server Selection
 * specification for mongos and for mongod, whether a write may carry a transaction
 * number and be retried, which cluster time to send, and which commands may be
 * compressed.
 */
module CmdDeciders {
  import opened Wrappers
  import opened Bson
  import opened Ascii
  import opened CmdTypes

  /** Whether `mongoc_cmd_parts_set_write_concern` keeps the write concern it is given. */
  function WriteConcernAllowed(isWriteCommand: bool, commandName: string, maxWireVersion: int): (r: bool)
    ensures isWriteCommand ==> r
    ensures maxWireVersion >= WireVersionCmdWriteConcern ==> r
    ensures maxWireVersion < WireVersionFamWriteConcern ==> (r <==> isWriteCommand)
    ensures !isWriteCommand && WireVersionFamWriteConcern <= maxWireVersion < WireVersionCmdWriteConcern ==>
              (r <==> EqualsIgnoreCase(commandName, "findandmodify"))
  {
    var isFam := EqualsIgnoreCase(commandName, "findandmodify");
    isWriteCommand
    || (isFam && maxWireVersion >= WireVersionFamWriteConcern)
    || (!isFam && maxWireVersion >= WireVersionCmdWriteConcern)
  }

  /** A server with a newer wire version accepts every write concern an older one does. */
  lemma WriteConcernAllowedMonotone(isWriteCommand: bool, commandName: string, w: int, w': int)
    requires w <= w'
    ensures WriteConcernAllowed(isWriteCommand, commandName, w) ==> WriteConcernAllowed(isWriteCommand, commandName, w')
  {
  }

  /** How a read is routed through mongos: the slaveOK flag, and whether $readPreference is sent. */
  datatype MongosRouting = MongosRouting(slaveOk: bool, addReadPrefs: bool)

  /**
   * The switch over the read mode in `_mongoc_cmd_parts_assemble_mongos`, stated as the
   * Server Selection specification's rule for each mode.
   */
  function MongosRoute(prefs: Option<ReadPrefs>): (r: MongosRouting)
    ensures ModeOf(prefs) == Primary ==> !r.slaveOk && !r.addReadPrefs
    ensures ModeOf(prefs) == Secondary ==> r.slaveOk && r.addReadPrefs
    ensures ModeOf(prefs) == PrimaryPreferred ==> r.slaveOk && r.addReadPrefs
    ensures ModeOf(prefs) == SecondaryPreferred ==> r.slaveOk && (r.addReadPrefs <==> prefs.value.tags != [])
    ensures ModeOf(prefs) == Nearest ==> r.slaveOk && r.addReadPrefs
  {
    var tags := if prefs.Some? then prefs.value.tags else [];
    match ModeOf(prefs)
    case Primary => MongosRouting(false, false)
    case SecondaryPreferred => MongosRouting(true, tags != [])
    case _ => MongosRouting(true, true)
  }

  /** Through mongos, slaveOK is set exactly for non-primary reads, and $readPreference only with it. */
  lemma MongosSlaveOkIffNotPrimary(prefs: Option<ReadPrefs>)
    ensures MongosRoute(prefs).slaveOk <==> ModeOf(prefs) != Primary
    ensures MongosRoute(prefs).addReadPrefs ==> MongosRoute(prefs).slaveOk && prefs.Some?
  {
  }

  /** The topologies `_mongoc_cmd_parts_assemble_mongod` accepts for a read. */
  predicate MongodReadTopology(t: TopologyType)
  {
    t.TopologySingle? || t.TopologyRsNoPrimary? || t.TopologyRsWithPrimary?
  }

  /**
   * Whether `_mongoc_cmd_parts_assemble_mongod` sets slaveOK: always for reads on a single
   * server, for replica-set reads exactly when a non-primary read preference is given,
   * never for write commands. A read on a sharded or unknown topology is an assertion failure.
   */
  function MongodSlaveOk(isWriteCommand: bool, topology: TopologyType, prefs: Option<ReadPrefs>): (r: bool)
    requires !isWriteCommand ==> MongodReadTopology(topology)
    ensures isWriteCommand ==> !r
    ensures !isWriteCommand && topology.TopologySingle? ==> r
    ensures !isWriteCommand && !topology.TopologySingle? ==> (r <==> prefs.Some? && prefs.value.mode != Primary)
  {
    if isWriteCommand then false
    else match topology
      case TopologySingle => true
      case TopologyRsNoPrimary => prefs.Some? && prefs.value.mode != Primary
      case TopologyRsWithPrimary => prefs.Some? && prefs.value.mode != Primary
  }

  /** On mongod, a read with a primary read preference gets slaveOK only on a single server. */
  lemma MongodPrimaryReadSlaveOkOnlyOnSingle(topology: TopologyType, prefs: Option<ReadPrefs>)
    requires MongodReadTopology(topology) && IsPrefPrimary(prefs)
    ensures MongodSlaveOk(false, topology, prefs) <==> topology.TopologySingle?
  {
  }

  /**
   * `_allow_txn_number`, called only while the answer is undecided: an acknowledged
   * findAndModify on a server that supports retryable writes. The basic write commands
   * are deliberately left to the bulk API to decide.
   */
  function AllowTxnNumberFor(allow: AllowTxnNumber, isWriteCommand: bool, maxWireVersion: int,
                             isAcknowledged: bool, commandName: string): (r: bool)
    requires allow == AllowUnknown
    ensures r <==> isWriteCommand && maxWireVersion >= WireVersionRetryWrites && isAcknowledged &&
                   EqualsIgnoreCase(commandName, "findandmodify")
  {
    if !isWriteCommand then false
    else if maxWireVersion < WireVersionRetryWrites then false
    else if !isAcknowledged then false
    else if EqualsIgnoreCase(commandName, "findandmodify") then true
    else false
  }

  /** Insert, update and delete are never given a transaction number by this decider. */
  lemma BasicWritesGetNoTxnNumber(maxWireVersion: int, isAcknowledged: bool)
    ensures !AllowTxnNumberFor(AllowUnknown, true, maxWireVersion, isAcknowledged, "insert")
    ensures !AllowTxnNumberFor(AllowUnknown, true, maxWireVersion, isAcknowledged, "update")
    ensures !AllowTxnNumberFor(AllowUnknown, true, maxWireVersion, isAcknowledged, "delete")
    ensures maxWireVersion >= WireVersionRetryWrites && isAcknowledged ==>
              AllowTxnNumberFor(AllowUnknown, true, maxWireVersion, isAcknowledged, "findAndModify")
  {
    assert LowerString("insert")[0] != LowerString("findandmodify")[0];
    assert LowerString("update")[0] != LowerString("findandmodify")[0];
    assert LowerString("delete")[0] != LowerString("findandmodify")[0];
    EqualsIgnoreCaseAt("findAndModify", "findandmodify");
  }

  /** `_is_retryable_write`. */
  function IsRetryableWrite(session: Option<Session>, isWriteCommand: bool, allow: AllowTxnNumber,
                            maxWireVersion: int, serverType: ServerType, retryWrites: bool): (r: bool)
    ensures r <==> session.Some? && isWriteCommand && allow == AllowYes &&
                   maxWireVersion >= WireVersionRetryWrites && serverType != Standalone &&
                   !InTxn(session) && retryWrites
  {
    if session.None? then false
    else if !isWriteCommand then false
    else if allow != AllowYes then false
    else if maxWireVersion < WireVersionRetryWrites then false
    else if serverType == Standalone then false
    else if InTxn(session) then false
    else if !retryWrites then false
    else true
  }

  /**
   * When assembly decides `allow_txn_number` itself (it was undecided), a write is
   * retryable only if it is an acknowledged findAndModify sent with a session outside a
   * transaction to a non-standalone server, with retryWrites enabled.
   */
  lemma RetryableWhenUndecidedIsFindAndModify(session: Option<Session>, maxWireVersion: int, isAcknowledged: bool,
                                                commandName: string, serverType: ServerType, retryWrites: bool)
    requires IsRetryableWrite(session, true,
                              if AllowTxnNumberFor(AllowUnknown, true, maxWireVersion, isAcknowledged, commandName)
                              then AllowYes else AllowNo,
                              maxWireVersion, serverType, retryWrites)
    ensures EqualsIgnoreCase(commandName, "findandmodify") && isAcknowledged
    ensures session.Some? && !session.value.inTxn && serverType != Standalone && retryWrites
  {
  }

  /** `_largest_cluster_time`: the present one of the two, or the greater by `greater` when both are present. */
  function LargestClusterTime(a: Option<Doc>, b: Option<Doc>, greater: (Doc, Doc) -> bool): (r: Option<Doc>)
    ensures r == a || r == b
    ensures r.None? <==> a.None? && b.None?
    ensures a.Some? && b.Some? ==> (r == a <==> greater(a.value, b.value) || a == b)
  {
    if a.None? then b
    else if b.None? then a
    else if greater(a.value, b.value) then a
    else b
  }

  /** With an asymmetric comparator, neither input is greater than the cluster time chosen. */
  lemma LargestClusterTimeIsMaximal(a: Option<Doc>, b: Option<Doc>, greater: (Doc, Doc) -> bool)
    requires forall x, y :: greater(x, y) ==> !greater(y, x)
    ensures var r := LargestClusterTime(a, b, greater);
            (a.Some? ==> r.Some? && !greater(a.value, r.value)) && (b.Some? ==> r.Some? && !greater(b.value, r.value))
  {
  }

  /** The commands `mongoc_cmd_is_compressible` refuses, compared case-insensitively. */
  const UncompressibleCommands: set<string> := {
    "ismaster", "authenticate", "getnonce", "saslstart", "saslcontinue",
    "createuser", "updateuser", "copydb", "copydbsaslstart", "copydbgetnonce"
  }

  /** `mongoc_cmd_is_compressible`. */
  function IsCompressible(commandName: string): (r: bool)
    ensures !r <==> exists k :: k in UncompressibleCommands && EqualsIgnoreCase(commandName, k)
  {
    !EqualsIgnoreCase(commandName, "ismaster") &&
    !EqualsIgnoreCase(commandName, "authenticate") &&
    !EqualsIgnoreCase(commandName, "getnonce") &&
    !EqualsIgnoreCase(commandName, "saslstart") &&
    !EqualsIgnoreCase(commandName, "saslcontinue") &&
    !EqualsIgnoreCase(commandName, "createuser") &&
    !EqualsIgnoreCase(commandName, "updateuser") &&
    !EqualsIgnoreCase(commandName, "copydb") &&
    !EqualsIgnoreCase(commandName, "copydbsaslstart") &&
    !EqualsIgnoreCase(commandName, "copydbgetnonce")
  }

  /** Compressibility depends on the command name only up to case. */
  lemma IsCompressibleIgnoresCase(a: string, b: string)
    requires EqualsIgnoreCase(a, b)
    ensures IsCompressible(a) == IsCompressible(b)
  {
  }

  /** The handshake and authentication commands as drivers spell them are never compressed; ordinary commands are. */
  lemma CompressibleExamples()
    ensures !IsCompressible("isMaster") && !IsCompressible("saslStart") && !IsCompressible("copydbSaslStart")
    ensures IsCompressible("find") && IsCompressible("insert")
  {
    EqualsIgnoreCaseAt("isMaster", "ismaster");
    EqualsIgnoreCaseAt("saslStart", "saslstart");
    EqualsIgnoreCaseAt("copydbSaslStart", "copydbsaslstart");
    forall k | k in UncompressibleCommands ensures !EqualsIgnoreCase("find", k) && !EqualsIgnoreCase("insert", k) {
      EqualsIgnoreCaseAt("find", k);
      EqualsIgnoreCaseAt("insert", k);
      assert Lower("insert"[0]) != Lower("copydb"[0]);
    }
  }
}
