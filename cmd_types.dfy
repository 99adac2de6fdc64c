/**
 * The vocabulary of command assembly: wire-version gates, query flags, read
 * preferences, topology and server types, and the collaborators (client session,
 * read and write concern, server stream) reduced to the values the assembly reads.
 */
module CmdTypes {
  import opened Wrappers
  import opened Bson

  /** Maximum wire versions at which server features appear. */
  const WireVersionFamWriteConcern: int := 4
  const WireVersionReadConcern: int := 4
  const WireVersionCollation: int := 5
  const WireVersionCmdWriteConcern: int := 5
  const WireVersionOpMsg: int := 6
  const WireVersionRetryWrites: int := 6

  /** The bits of `mongoc_query_flags_t`; a flag word is the set of its bits. */
  datatype QueryFlag = TailableCursor | SlaveOk | OplogReplay | NoCursorTimeout | AwaitData | Exhaust | Partial

  type QueryFlags = set<QueryFlag>

  const QueryNone: QueryFlags := {}

  /** `flags |= MONGOC_QUERY_SLAVE_OK`: sets the slaveOK bit and keeps every other flag. */
  function WithSlaveOk(flags: QueryFlags): (r: QueryFlags)
    ensures SlaveOk in r
    ensures forall f :: f != SlaveOk ==> (f in r <==> f in flags)
  {
    flags + {SlaveOk}
  }

  datatype ReadMode = Primary | Secondary | PrimaryPreferred | SecondaryPreferred | Nearest

  /** `MONGOC_NO_MAX_STALENESS`. */
  const NoMaxStaleness: int := -1

  datatype ReadPrefs = ReadPrefs(mode: ReadMode, tags: Doc, maxStalenessSeconds: int)

  datatype TopologyType = TopologyUnknown | TopologySharded | TopologyRsNoPrimary | TopologyRsWithPrimary | TopologySingle

  datatype ServerType =
    | ServerUnknown | Standalone | Mongos | PossiblePrimary
    | RsPrimary | RsSecondary | RsArbiter | RsOther | RsGhost

  /** `allow_txn_number`: not yet decided, or decided either way. */
  datatype AllowTxnNumber = AllowUnknown | AllowYes | AllowNo

  /**
   * A client session as the assembly sees it: whether a transaction is starting or in
   * progress (`_mongoc_client_session_in_txn`), whether it is in progress
   * (`_mongoc_client_session_txn_in_progress`), the transaction's read preference, the
   * session id document and the session's cluster time.
   */
  datatype Session = Session(id: nat, inTxn: bool, txnInProgress: bool, txnReadPrefs: Option<ReadPrefs>,
                             lsid: Doc, clusterTime: Option<Doc>)

  datatype ReadConcern = ReadConcern(isDefault: bool, doc: Doc)

  datatype WriteConcern = WriteConcern(isAcknowledged: bool, doc: Doc)

  /** The selected server: topology and server type, maximum wire version, gossiped cluster time. */
  datatype ServerStream = ServerStream(topologyType: TopologyType, serverType: ServerType,
                                       maxWireVersion: int, clusterTime: Doc)

  /** What `mongoc_read_write_opts_t` carries into `append_read_write`. */
  datatype ReadWriteOpts = ReadWriteOpts(collation: Doc, writeConcern: Option<WriteConcern>, readConcern: Doc,
                                         clientSession: Option<Session>, extra: Doc)

  /** The name of a command: the first key of its document, none for an empty document. */
  function CommandName(body: Doc): (r: Option<string>)
    ensures r.None? <==> body == []
    ensures r.Some? ==> HasKey(body, r.value) && r.value == body[0].0
  {
    if body == [] then None else Some(body[0].0)
  }

  /** `_mongoc_client_session_in_txn`, false for no session. */
  predicate InTxn(cs: Option<Session>)
  {
    cs.Some? && cs.value.inTxn
  }

  /** `_mongoc_client_session_txn_in_progress`, false for no session. */
  predicate TxnInProgress(cs: Option<Session>)
  {
    cs.Some? && cs.value.txnInProgress
  }

  /** `mongoc_read_prefs_get_mode`: no read preference reads as primary. */
  function ModeOf(prefs: Option<ReadPrefs>): ReadMode
  {
    if prefs.None? then Primary else prefs.value.mode
  }

  /** `IS_PREF_PRIMARY`. */
  predicate IsPrefPrimary(prefs: Option<ReadPrefs>)
  {
    ModeOf(prefs) == Primary
  }

  function ModeName(mode: ReadMode): string
  {
    match mode
    case Primary => "primary"
    case Secondary => "secondary"
    case PrimaryPreferred => "primaryPreferred"
    case SecondaryPreferred => "secondaryPreferred"
    case Nearest => "nearest"
  }

  /** The `$readPreference` entry: the mode, the tags when there are any, the staleness when set. */
  function ReadPrefsEntry(prefs: ReadPrefs): (e: (string, Value))
    ensures e.0 == "$readPreference" && e.1.Document? && |e.1.fields| > 0 && e.1.fields[0] == ("mode", Utf8(ModeName(prefs.mode)))
    ensures HasKey(e.1.fields, "tags") <==> prefs.tags != []
    ensures HasKey(e.1.fields, "maxStalenessSeconds") <==> prefs.maxStalenessSeconds != NoMaxStaleness
  {
    var tags := if prefs.tags != [] then [("tags", Array(prefs.tags))] else [];
    var stale := if prefs.maxStalenessSeconds != NoMaxStaleness
      then [("maxStalenessSeconds", Int64(prefs.maxStalenessSeconds))] else [];
    var fields := [("mode", Utf8(ModeName(prefs.mode)))] + tags + stale;
    assert HasKey(fields, "tags") ==> prefs.tags != [] by {
      if HasKey(fields, "tags") {
        var i :| 0 <= i < |fields| && fields[i].0 == "tags";
        assert i != 0 && !(i > |tags| + 0 && stale != [] && fields[i].0 == "maxStalenessSeconds");
      }
    }
    assert HasKey(fields, "maxStalenessSeconds") ==> prefs.maxStalenessSeconds != NoMaxStaleness by {
      if HasKey(fields, "maxStalenessSeconds") {
        var i :| 0 <= i < |fields| && fields[i].0 == "maxStalenessSeconds";
        assert i != 0;
      }
    }
    assert prefs.tags != [] ==> fields[1].0 == "tags";
    assert prefs.maxStalenessSeconds != NoMaxStaleness ==> fields[|fields| - 1].0 == "maxStalenessSeconds";
    ("$readPreference", Document(fields))
  }
}
