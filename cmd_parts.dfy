/**
 * `mongoc_cmd_parts_t`: a command body and the options gathered for it, assembled
 * exactly once into the command sent to the selected server.
 */
module CmdParts {
  import opened Wrappers
  import opened Bson
  import opened CmdTypes
  import opened CmdDeciders
  import opened CmdOpts
  import opened CmdAssembly
  import opened CmdOpMsg

  /** `_iter_concat` asserts that a `$query` field, when the body has one, holds a document. */
  predicate DollarQueryIsDocument(body: Doc)
  {
    Find(body, "$query").Some? ==> Find(body, "$query").value.Document?
  }

  /**
   * The "sessionId" entries `append_opts` may meet without tripping its assertion. This is
   * the caller's obligation over the whole options document; the source only trips when the
   * loop reaches such an entry, which an earlier refused entry can prevent.
   */
  predicate SessionIdsAllowed(opts: Doc, session: Option<Session>)
  {
    (session.Some? ==> forall i :: 0 <= i < |opts| ==> opts[i].0 != "sessionId")
    && forall i, j :: 0 <= i < j < |opts| && opts[i].0 == "sessionId" ==> opts[j].0 != "sessionId"
  }

  class Parts {
    var body: Doc
    var userQueryFlags: QueryFlags
    var readPrefs: Option<ReadPrefs>
    var isReadCommand: bool
    var isWriteCommand: bool
    var prohibitLsid: bool
    var allowTxnNumber: AllowTxnNumber
    var isRetryableWrite: bool
    var hasTempSession: bool
    var readConcernDocument: Doc
    var writeConcernDocument: Doc
    var extra: Doc
    var assembledBody: Doc

    // the fields of `parts->assembled`
    var dbName: string
    var command: CommandRef
    var commandName: Option<string>
    var queryFlags: QueryFlags
    var serverStream: Option<ServerStream>
    var session: Option<Session>
    var isAcknowledged: bool
    var isTxnFinish: bool

    function AssemblyState(): Assembly
      reads this`command, this`assembledBody
    {
      Assembly(command, assembledBody)
    }

    /** The document `assembled.command` designates. */
    function Command(): Doc
      reads this`command, this`assembledBody, this`body
    {
      CommandDoc(AssemblyState(), body)
    }

    function OptsView(): OptsState
      reads this`extra, this`readConcernDocument, this`writeConcernDocument, this`isAcknowledged, this`session
    {
      OptsState(extra, readConcernDocument, writeConcernDocument, isAcknowledged, session)
    }

    /** The fields the OP_MSG branch of assembly reads and leaves as they are. */
    function OpMsgContextOf(): OpMsgContext
      reads this`body, this`dbName, this`commandName, this`readPrefs, this`isReadCommand, this`isWriteCommand,
            this`prohibitLsid, this`isAcknowledged, this`isTxnFinish, this`readConcernDocument,
            this`writeConcernDocument
      requires commandName.Some?
    {
      OpMsgContext(body, dbName, commandName.value, readPrefs, isReadCommand, isWriteCommand, prohibitLsid,
                   isAcknowledged, isTxnFinish, readConcernDocument, writeConcernDocument)
    }

    /** The fields the OP_MSG branch of assembly changes. */
    function OpMsgView(): OpMsgState
      reads this`extra, this`session, this`hasTempSession, this`allowTxnNumber, this`isRetryableWrite,
            this`command, this`assembledBody
    {
      OpMsgState(extra, session, hasTempSession, allowTxnNumber, isRetryableWrite, AssemblyState())
    }

    /** `mongoc_cmd_parts_init`. */
    constructor (dbName: string, userQueryFlags: QueryFlags, body: Doc)
      ensures this.body == body && this.userQueryFlags == userQueryFlags && this.dbName == dbName
      ensures readPrefs == None && !isReadCommand && !isWriteCommand && !prohibitLsid
      ensures allowTxnNumber == AllowUnknown && !isRetryableWrite && !hasTempSession
      ensures readConcernDocument == [] && writeConcernDocument == [] && extra == [] && assembledBody == []
      ensures command == Unassembled && queryFlags == QueryNone && session == None
      ensures isAcknowledged && !isTxnFinish
    {
      this.body := body;
      this.userQueryFlags := userQueryFlags;
      readPrefs := None;
      isReadCommand := false;
      isWriteCommand := false;
      prohibitLsid := false;
      allowTxnNumber := AllowUnknown;
      isRetryableWrite := false;
      hasTempSession := false;
      readConcernDocument := [];
      writeConcernDocument := [];
      extra := [];
      assembledBody := [];
      this.dbName := dbName;
      command := Unassembled;
      commandName := None;
      queryFlags := QueryNone;
      serverStream := None;
      session := None;
      isAcknowledged := true;
      isTxnFinish := false;
    }

    /** `mongoc_cmd_parts_set_session`: only before assembly, and only once. */
    method SetSession(cs: Session)
      requires command == Unassembled && session == None
      modifies this`session
      ensures session == Some(cs)
    {
      session := Some(cs);
    }

    /**
     * `mongoc_cmd_parts_set_write_concern`: no write concern is accepted as is; an empty
     * command is an error; otherwise the write concern is kept only where allowed.
     */
    method SetWriteConcern(wc: Option<WriteConcern>, maxWireVersion: int) returns (ok: bool)
      modifies this`isAcknowledged, this`writeConcernDocument
      ensures ok <==> wc.None? || CommandName(body).Some?
      ensures var kept := wc.Some? && CommandName(body).Some? &&
                          WriteConcernAllowed(isWriteCommand, CommandName(body).value, maxWireVersion);
              isAcknowledged == (if kept then wc.value.isAcknowledged else old(isAcknowledged)) &&
              writeConcernDocument == (if kept then wc.value.doc else old(writeConcernDocument))
    {
      if wc.None? {
        return true;
      }
      var name := CommandName(body);
      if name.None? {
        return false;
      }
      if WriteConcernAllowed(isWriteCommand, name.value, maxWireVersion) {
        isAcknowledged := wc.value.isAcknowledged;
        writeConcernDocument := wc.value.doc;
      }
      return true;
    }

    /**
     * `mongoc_cmd_parts_set_read_concern`: ignored in a transaction; an empty command is an
     * error; a default read concern is ignored; an old server is an error; otherwise kept.
     */
    method SetReadConcern(rc: ReadConcern, maxWireVersion: int) returns (ok: bool)
      modifies this`readConcernDocument
      ensures ok <==> InTxn(session) || (CommandName(body).Some? && (rc.isDefault || maxWireVersion >= WireVersionReadConcern))
      ensures readConcernDocument ==
                if !InTxn(session) && CommandName(body).Some? && !rc.isDefault && maxWireVersion >= WireVersionReadConcern
                then rc.doc else old(readConcernDocument)
    {
      if InTxn(session) {
        return true;
      }
      if CommandName(body).None? {
        return false;
      }
      if rc.isDefault {
        return true;
      }
      if maxWireVersion < WireVersionReadConcern {
        return false;
      }
      readConcernDocument := rc.doc;
      return true;
    }

    /** `mongoc_cmd_parts_append_opts`: the options loop, which may stop part way with an error. */
    method AppendOpts(opts: Doc, maxWireVersion: int,
                      parseWriteConcern: Value -> Option<WriteConcern>, sessionFromValue: Value -> Option<Session>)
      returns (ok: bool)
      requires command == Unassembled
      requires SessionIdsAllowed(opts, session)
      modifies this`extra, this`readConcernDocument, this`writeConcernDocument, this`isAcknowledged, this`session
      ensures OptsOutcome(ok, OptsView()) ==
                ApplyOpts(old(OptsView()), opts,
                          OptsContext(maxWireVersion, CommandName(body), isWriteCommand, parseWriteConcern, sessionFromValue))
    {
      var ctx := OptsContext(maxWireVersion, CommandName(body), isWriteCommand, parseWriteConcern, sessionFromValue);
      var i := 0;
      while i < |opts|
        invariant 0 <= i <= |opts|
        invariant ApplyOpts(old(OptsView()), opts, ctx) == ApplyOpts(OptsView(), opts[i..], ctx)
        invariant session.Some? ==> forall j :: i <= j < |opts| ==> opts[j].0 != "sessionId"
      {
        assert opts[i..][0] == opts[i] && opts[i..][1..] == opts[i + 1..];
        ok := AppendOpt(opts[i].0, opts[i].1, ctx);
        if !ok {
          return;
        }
        i := i + 1;
      }
      return true;
    }

    /** One turn of the loop in `mongoc_cmd_parts_append_opts`. */
    method AppendOpt(key: string, v: Value, ctx: OptsContext) returns (ok: bool)
      requires ctx.commandName == CommandName(body) && ctx.isWriteCommand == isWriteCommand
      requires key == "sessionId" ==> session.None?
      modifies this`extra, this`readConcernDocument, this`writeConcernDocument, this`isAcknowledged, this`session
      ensures (if ok then Some(OptsView()) else None) == ApplyOpt(old(OptsView()), key, v, ctx)
      ensures !ok ==> OptsView() == old(OptsView())
      ensures key != "sessionId" ==> session == old(session)
    {
      if key == "collation" {
        if ctx.maxWireVersion < WireVersionCollation {
          return false;
        }
        extra := extra + [(key, v)];
      } else if key == "writeConcern" {
        var wc := ctx.parseWriteConcern(v);
        if wc.None? {
          return false;
        }
        ok := SetWriteConcern(wc, ctx.maxWireVersion);
        return;
      } else if key == "readConcern" {
        if ctx.maxWireVersion < WireVersionReadConcern {
          return false;
        }
        if !v.Document? {
          return false;
        }
        readConcernDocument := v.fields;
      } else if key == "sessionId" {
        var cs := ctx.sessionFromValue(v);
        if cs.None? {
          return false;
        }
        session := cs;
      } else if key == "serverId" || key == "maxAwaitTimeMS" {
      } else {
        extra := extra + [(key, v)];
      }
      return true;
    }

    /**
     * `mongoc_cmd_parts_append_read_write`: collation into `extra` if supported, the write
     * concern, the read concern if supported, the session, then every extra option.
     */
    method AppendReadWrite(rw: ReadWriteOpts, maxWireVersion: int) returns (ok: bool)
      requires command == Unassembled
      requires (rw.clientSession.Some? && (rw.collation == [] || maxWireVersion >= WireVersionCollation) &&
                (rw.writeConcern.None? || CommandName(body).Some?) &&
                (rw.readConcern == [] || maxWireVersion >= WireVersionReadConcern)) ==> session.None?
      modifies this`extra, this`readConcernDocument, this`writeConcernDocument, this`isAcknowledged, this`session
      ensures var collationOk := rw.collation == [] || maxWireVersion >= WireVersionCollation;
              var wcOk := rw.writeConcern.None? || CommandName(body).Some?;
              var rcOk := rw.readConcern == [] || maxWireVersion >= WireVersionReadConcern;
              var kept := collationOk && rw.writeConcern.Some? && CommandName(body).Some? &&
                          WriteConcernAllowed(isWriteCommand, CommandName(body).value, maxWireVersion);
              var collation := if rw.collation == [] then [] else [("collation", Document(rw.collation))];
              && (ok <==> collationOk && wcOk && rcOk)
              && isAcknowledged == (if kept then rw.writeConcern.value.isAcknowledged else old(isAcknowledged))
              && writeConcernDocument == (if kept then rw.writeConcern.value.doc else old(writeConcernDocument))
              && readConcernDocument ==
                   (if collationOk && wcOk && rcOk && rw.readConcern != [] then rw.readConcern else old(readConcernDocument))
              && session == (if ok && rw.clientSession.Some? then rw.clientSession else old(session))
              && extra == (if ok then old(extra) + collation + rw.extra
                           else if collationOk then old(extra) + collation else old(extra))
    {
      if rw.collation != [] {
        if maxWireVersion < WireVersionCollation {
          return false;
        }
        extra := extra + [("collation", Document(rw.collation))];
      }
      ok := SetWriteConcern(rw.writeConcern, maxWireVersion);
      if !ok {
        return;
      }
      if rw.readConcern != [] {
        if maxWireVersion < WireVersionReadConcern {
          return false;
        }
        readConcernDocument := rw.readConcern;
      }
      if rw.clientSession.Some? {
        session := rw.clientSession;
      }
      extra := extra + rw.extra;
      return true;
    }

    /** `_mongoc_cmd_parts_ensure_copied`. */
    method EnsureCopied()
      modifies this`command, this`assembledBody
      ensures AssemblyState() == Copied(old(AssemblyState()), body, extra)
    {
      if command == AtBody {
        assembledBody := assembledBody + body + extra;
        command := AtAssembledBody;
      }
    }

    /** Copy if need be, then append to `assembled_body`. */
    method AppendToCommand(entries: Doc)
      modifies this`command, this`assembledBody
      ensures AssemblyState() == Appended(old(AssemblyState()), body, extra, entries)
    {
      EnsureCopied();
      assembledBody := assembledBody + entries;
    }

    /** `_mongoc_cmd_parts_add_write_concern`. */
    method AddWriteConcern()
      modifies this`command, this`assembledBody
      ensures AssemblyState() == WithWriteConcern(old(AssemblyState()), body, extra, writeConcernDocument)
    {
      if writeConcernDocument != [] {
        AppendToCommand(WriteConcernEntry(writeConcernDocument));
      }
    }

    /**
     * The last branch of `_mongoc_cmd_parts_assemble_mongos`, for a body without `$query`
     * and no read preference to send: the read concern (copying first), then the write concern.
     */
    method AppendLegacyConcerns()
      requires command == AtBody && assembledBody == [] && commandName.Some?
      modifies this`command, this`assembledBody
      ensures var rcEntry := LegacyReadConcern(readConcernDocument, commandName.value);
              var wcEntry := WriteConcernEntry(writeConcernDocument);
              (command == AtAssembledBody && assembledBody == body + extra + rcEntry + wcEntry)
              || (command == AtBody && assembledBody == [] && rcEntry == [] && wcEntry == [])
    {
      ghost var rcEntry := LegacyReadConcern(readConcernDocument, commandName.value);
      if readConcernDocument != [] && commandName.value != "getMore" {
        AppendToCommand(ReadConcernEntry(readConcernDocument));
        assert command == AtAssembledBody && assembledBody == body + extra + rcEntry;
      }
      assert (command == AtAssembledBody && assembledBody == body + extra + rcEntry)
          || (command == AtBody && assembledBody == [] && rcEntry == []);
      AddWriteConcern();
    }

    /** The read mode switch of `_mongoc_cmd_parts_assemble_mongos`: slaveOK, and whether to send $readPreference. */
    method SetMongosSlaveOk() returns (route: MongosRouting)
      modifies this`queryFlags
      ensures route == MongosRoute(readPrefs)
      ensures queryFlags == if route.slaveOk then WithSlaveOk(old(queryFlags)) else old(queryFlags)
    {
      route := MongosRoute(readPrefs);
      if route.slaveOk {
        queryFlags := WithSlaveOk(queryFlags);
      }
    }

    /** `_mongoc_cmd_parts_assemble_mongos`: slaveOK and $readPreference by the read mode. */
    method AssembleMongos()
      requires command == AtBody && assembledBody == [] && commandName.Some?
      requires DollarQueryIsDocument(body)
      modifies this`queryFlags, this`command, this`assembledBody
      ensures queryFlags == if MongosRoute(readPrefs).slaveOk then WithSlaveOk(old(queryFlags)) else old(queryFlags)
      ensures Command() ==
                MongosCommand(body, extra, readConcernDocument, writeConcernDocument, commandName.value,
                              if MongosRoute(readPrefs).addReadPrefs then Some(ReadPrefsEntry(readPrefs.value)) else None)
      ensures command != Unassembled
    {
      var route := SetMongosSlaveOk();
      MongosSlaveOkIffNotPrimary(readPrefs);
      BuildMongosCommand(route);
    }

    /** The command `_mongoc_cmd_parts_assemble_mongos` builds, given the routing its read mode chose. */
    method BuildMongosCommand(route: MongosRouting)
      requires command == AtBody && assembledBody == [] && commandName.Some?
      requires route.addReadPrefs ==> readPrefs.Some?
      modifies this`command, this`assembledBody
      ensures Command() ==
                MongosCommand(body, extra, readConcernDocument, writeConcernDocument, commandName.value,
                              if route.addReadPrefs then Some(ReadPrefsEntry(readPrefs.value)) else None)
      ensures command != Unassembled
    {
      var sent := if route.addReadPrefs then Some(ReadPrefsEntry(readPrefs.value)) else None;
      if sent.Some? || HasKey(body, "$query") {
        BuildWrappedQuery(sent);
      } else {
        BuildPlainCommand();
      }
    }

    /** A command to mongos with a read preference to send, or with the caller's own `$query`. */
    method BuildWrappedQuery(sent: Option<(string, Value)>)
      requires command == AtBody && assembledBody == [] && commandName.Some?
      requires sent.Some? || HasKey(body, "$query")
      modifies this`command, this`assembledBody
      ensures command == AtAssembledBody
      ensures Command() == MongosCommand(body, extra, readConcernDocument, writeConcernDocument, commandName.value, sent)
    {
      WrapQuery(sent);
      assert [WrappedQuery(body, extra, readConcernDocument, writeConcernDocument, commandName.value)] +
             (if sent.Some? then [sent.value] else []) + Unwrapped(body) ==
             MongosCommand(body, extra, readConcernDocument, writeConcernDocument, commandName.value, sent);
    }

    /** Any other command to mongos: the body, `extra` and the concerns. */
    method BuildPlainCommand()
      requires command == AtBody && assembledBody == [] && commandName.Some?
      requires !HasKey(body, "$query")
      modifies this`command, this`assembledBody
      ensures command != Unassembled
      ensures Command() == MongosCommand(body, extra, readConcernDocument, writeConcernDocument, commandName.value, None)
    {
      ghost var rcEntry := LegacyReadConcern(readConcernDocument, commandName.value);
      ghost var wcEntry := WriteConcernEntry(writeConcernDocument);
      ghost var expected := body + extra + rcEntry + wcEntry;
      assert expected == MongosCommand(body, extra, readConcernDocument, writeConcernDocument, commandName.value, None);
      AppendLegacyConcerns();
      if command == AtAssembledBody {
        EnsureCopied();
        assert Command() == expected;
      } else {
        assert rcEntry == [] && wcEntry == [];
        assert expected == body + extra;
        if extra != [] {
          EnsureCopied();
          assert assembledBody == [] + body + extra;
        } else {
          assert body + extra == body;
        }
      }
    }

    /**
     * The first two branches of `_mongoc_cmd_parts_assemble_mongos`: `{$query: {...}}`, then
     * the read preference if one is sent, then the body's fields outside its own `$query`.
     */
    method WrapQuery(readPrefsEntry: Option<(string, Value)>)
      requires command == AtBody && assembledBody == [] && commandName.Some?
      modifies this`command, this`assembledBody
      ensures command == AtAssembledBody
      ensures assembledBody ==
                [WrappedQuery(body, extra, readConcernDocument, writeConcernDocument, commandName.value)] +
                (if readPrefsEntry.Some? then [readPrefsEntry.value] else []) + Unwrapped(body)
    {
      var query := WrappedQuery(body, extra, readConcernDocument, writeConcernDocument, commandName.value);
      if readPrefsEntry.Some? {
        assembledBody := assembledBody + [query] + [readPrefsEntry.value] + Unwrapped(body);
      } else {
        assembledBody := assembledBody + [query] + Unwrapped(body);
      }
      command := AtAssembledBody;
    }

    /** The read flags `_mongoc_cmd_parts_assemble_mongod` sets, by topology type. */
    method SetMongodSlaveOk(stream: ServerStream)
      requires !isWriteCommand ==> MongodReadTopology(stream.topologyType)
      modifies this`queryFlags
      ensures queryFlags ==
                if MongodSlaveOk(isWriteCommand, stream.topologyType, readPrefs)
                then WithSlaveOk(old(queryFlags)) else old(queryFlags)
    {
      if !isWriteCommand {
        match stream.topologyType
        case TopologySingle =>
          queryFlags := WithSlaveOk(queryFlags);
        case TopologyRsNoPrimary | TopologyRsWithPrimary =>
          if readPrefs.Some? && readPrefs.value.mode != Primary {
            queryFlags := WithSlaveOk(queryFlags);
          }
        case TopologySharded | TopologyUnknown =>
          assert false;
      }
    }

    /** `_mongoc_cmd_parts_assemble_mongod`: slaveOK by topology, then extra and the concerns. */
    method AssembleMongod(stream: ServerStream)
      requires command == AtBody && assembledBody == [] && commandName.Some?
      requires !isWriteCommand ==> MongodReadTopology(stream.topologyType)
      modifies this`queryFlags, this`command, this`assembledBody
      ensures queryFlags ==
                if MongodSlaveOk(isWriteCommand, stream.topologyType, readPrefs)
                then WithSlaveOk(old(queryFlags)) else old(queryFlags)
      ensures Command() == MongodCommand(body, extra, readConcernDocument, writeConcernDocument, commandName.value)
      ensures command != Unassembled
    {
      SetMongodSlaveOk(stream);
      if extra != [] {
        EnsureCopied();
      }
      assert Merged(AssemblyState(), extra) && Command() == body + extra;
      var rcEntry := LegacyReadConcern(readConcernDocument, commandName.value);
      if readConcernDocument != [] && commandName.value != "getMore" {
        AppendedExtendsCommand(AssemblyState(), body, extra, rcEntry);
        AppendToCommand(rcEntry);
      }
      assert Merged(AssemblyState(), extra) && Command() == body + extra + rcEntry;
      WithWriteConcernAppends(AssemblyState(), body, extra, writeConcernDocument);
      AddWriteConcern();
    }

    /** OP_MSG: `$db` and the read preference into `extra`; a read in a transaction must use primary. */
    method AddDbAndReadPrefs(cs0: Option<Session>, prefs: Option<ReadPrefs>) returns (ok: bool)
      requires commandName.Some?
      modifies this`extra
      ensures ok <==> DbAndReadPrefsStep(OpMsgContextOf(), old(OpMsgView()), cs0, prefs).Some?
      ensures ok ==> OpMsgView() == DbAndReadPrefsStep(OpMsgContextOf(), old(OpMsgView()), cs0, prefs).value
    {
      if !HasKey(body, "$db") {
        extra := extra + [("$db", Utf8(dbName))];
      }
      if InTxn(cs0) {
        if !IsPrefPrimary(cs0.value.txnReadPrefs) && !isWriteCommand {
          return false;
        }
      } else if !IsPrefPrimary(prefs) {
        extra := extra + [ReadPrefsEntry(prefs.value)];
      }
      return true;
    }

    /** OP_MSG: copy the body when `extra` has fields to merge. */
    method MergeExtra()
      requires commandName.Some?
      modifies this`command, this`assembledBody
      ensures OpMsgView() == MergeStep(OpMsgContextOf(), old(OpMsgView()))
    {
      if extra != [] {
        EnsureCopied();
      }
    }

    /** OP_MSG: an acknowledged command without a session gets the implicit one, if one was started. */
    method AdoptImplicitSession(cs0: Option<Session>, started: Option<Session>) returns (cs: Option<Session>)
      requires commandName.Some?
      modifies this`session, this`hasTempSession
      ensures cs == SessionUsed(cs0, prohibitLsid, isAcknowledged, started)
      ensures OpMsgView() == AdoptSession(old(OpMsgView()), cs0, cs)
      ensures OpMsgContextOf() == old(OpMsgContextOf())
    {
      cs := cs0;
      if cs.None? && !prohibitLsid && isAcknowledged {
        cs := started;
        if cs.Some? {
          session := cs;
          hasTempSession := true;
        }
      }
    }

    /** OP_MSG: "lsid" for the session; an unacknowledged command cannot carry one. */
    method AppendLsid(cs: Option<Session>) returns (ok: bool)
      requires commandName.Some?
      modifies this`command, this`assembledBody
      ensures ok <==> LsidStep(OpMsgContextOf(), old(OpMsgView()), cs).Some?
      ensures ok ==> OpMsgView() == LsidStep(OpMsgContextOf(), old(OpMsgView()), cs).value
      ensures OpMsgContextOf() == old(OpMsgContextOf())
    {
      if cs.Some? {
        if !isAcknowledged {
          return false;
        }
        AppendToCommand(LsidEntry(cs));
      }
      ok := true;
    }

    /** OP_MSG: the session, then "lsid". */
    method AddSession(cs0: Option<Session>, started: Option<Session>) returns (cs: Option<Session>, ok: bool)
      requires commandName.Some?
      modifies this`session, this`hasTempSession, this`command, this`assembledBody
      ensures cs == SessionUsed(cs0, prohibitLsid, isAcknowledged, started)
      ensures ok <==> SessionStep(OpMsgContextOf(), old(OpMsgView()), cs0, started).Some?
      ensures ok ==> OpMsgView() == SessionStep(OpMsgContextOf(), old(OpMsgView()), cs0, started).value
      ensures OpMsgContextOf() == old(OpMsgContextOf())
    {
      cs := AdoptImplicitSession(cs0, started);
      ok := AppendLsid(cs);
    }

    /** OP_MSG: settle `allow_txn_number`, then "txnNumber" for a retryable write. */
    method AddTxnNumber(cs: Option<Session>, stream: ServerStream, retryWrites: bool)
      requires commandName.Some?
      modifies this`allowTxnNumber, this`isRetryableWrite, this`command, this`assembledBody
      ensures OpMsgView() == TxnNumberStep(OpMsgContextOf(), old(OpMsgView()), cs, stream, retryWrites)
    {
      if !TxnInProgress(cs) && isWriteCommand && allowTxnNumber == AllowUnknown {
        allowTxnNumber :=
          if AllowTxnNumberFor(allowTxnNumber, isWriteCommand, stream.maxWireVersion, isAcknowledged, commandName.value)
          then AllowYes else AllowNo;
      }
      if IsRetryableWrite(session, isWriteCommand, allowTxnNumber, stream.maxWireVersion, stream.serverType, retryWrites) {
        AppendToCommand(TxnNumberEntry(true));
        isRetryableWrite := true;
      }
    }

    /** OP_MSG: "$clusterTime", the larger of the server's and the session's, except to a standalone. */
    method AddClusterTime(cs: Option<Session>, stream: ServerStream, greater: (Doc, Doc) -> bool)
      requires commandName.Some?
      modifies this`command, this`assembledBody
      ensures OpMsgView() == ClusterTimeStep(OpMsgContextOf(), old(OpMsgView()), cs, stream, greater)
    {
      var clusterTime := ClusterTimeSent(stream.clusterTime, cs, greater);
      if clusterTime.Some? && stream.serverType != Standalone {
        AppendToCommand(ClusterTimeEntry(clusterTime, stream.serverType));
      }
    }

    /**
     * OP_MSG: the read concern, except for getMore (the session's, appended to `assembled_body`
     * as it is, or the command's own), then the write concern unless inside a transaction that
     * this command does not end.
     */
    method AddConcerns(cs: Option<Session>, inputs: AssembleInputs)
      requires commandName.Some?
      modifies this`command, this`assembledBody
      ensures OpMsgView() == ConcernsStep(OpMsgContextOf(), old(OpMsgView()), cs, inputs)
    {
      if commandName.value != "getMore" {
        if cs.Some? {
          assembledBody := assembledBody + inputs.sessionReadConcern(readConcernDocument, isReadCommand);
        } else if readConcernDocument != [] {
          AppendToCommand(ReadConcernEntry(readConcernDocument));
        }
      }
      if isTxnFinish || !InTxn(cs) {
        AddWriteConcern();
      }
    }

    /** OP_MSG: the session's transaction fields; failing to produce them is an error. */
    method AddTxnFields(cs: Option<Session>, inputs: AssembleInputs) returns (ok: bool)
      modifies this`assembledBody
      ensures ok <==> TxnFieldsStep(old(OpMsgView()), cs, inputs).Some?
      ensures ok ==> OpMsgView() == TxnFieldsStep(old(OpMsgView()), cs, inputs).value
    {
      if cs.Some? {
        if inputs.sessionTxnFields.None? {
          return false;
        }
        assembledBody := assembledBody + inputs.sessionTxnFields.value;
      }
      return true;
    }

    /** `$db` and the read preference, then the merge of `extra` into the command. */
    method AddDbAndMerge(cs0: Option<Session>, prefs: Option<ReadPrefs>) returns (ok: bool)
      requires commandName.Some?
      modifies this`extra, this`command, this`assembledBody
      ensures ok <==> DbAndReadPrefsStep(OpMsgContextOf(), old(OpMsgView()), cs0, prefs).Some?
      ensures ok ==>
                OpMsgView() == MergeStep(OpMsgContextOf(), DbAndReadPrefsStep(OpMsgContextOf(), old(OpMsgView()), cs0, prefs).value)
      ensures OpMsgContextOf() == old(OpMsgContextOf())
    {
      ok := AddDbAndReadPrefs(cs0, prefs);
      if ok {
        MergeExtra();
      }
    }

    /** The first half of the OP_MSG branch; `cs` is the session the command carries. */
    method OpMsgBegin(stream: ServerStream, inputs: AssembleInputs) returns (cs: Option<Session>, ok: bool)
      requires commandName.Some?
      modifies this`extra, this`session, this`hasTempSession, this`command, this`assembledBody
      ensures cs == CommandSession(OpMsgContextOf(), old(OpMsgView()), inputs)
      ensures ok <==> OpMsgPrelude(OpMsgContextOf(), old(OpMsgView()), stream, inputs).Some?
      ensures ok ==> OpMsgView() == OpMsgPrelude(OpMsgContextOf(), old(OpMsgView()), stream, inputs).value
      ensures OpMsgContextOf() == old(OpMsgContextOf())
    {
      var cs0 := if prohibitLsid then None else session;
      ok := AddDbAndMerge(cs0, PrefsFor(isWriteCommand, readPrefs, stream));
      if !ok {
        cs := SessionUsed(cs0, prohibitLsid, isAcknowledged, inputs.implicitSession);
        return;
      }
      cs, ok := AddSession(cs0, inputs.implicitSession);
    }

    /** "txnNumber" and "$clusterTime". */
    method AddTxnNumberAndClusterTime(cs: Option<Session>, stream: ServerStream, inputs: AssembleInputs)
      requires commandName.Some?
      modifies this`command, this`assembledBody, this`allowTxnNumber, this`isRetryableWrite
      ensures OpMsgView() ==
                ClusterTimeStep(OpMsgContextOf(), TxnNumberStep(OpMsgContextOf(), old(OpMsgView()), cs, stream, inputs.retryWrites),
                                cs, stream, inputs.clusterTimeGreater)
      ensures OpMsgContextOf() == old(OpMsgContextOf())
    {
      AddTxnNumber(cs, stream, inputs.retryWrites);
      AddClusterTime(cs, stream, inputs.clusterTimeGreater);
    }

    /** The concerns and the transaction fields. */
    method AddConcernsAndTxnFields(cs: Option<Session>, inputs: AssembleInputs) returns (ok: bool)
      requires commandName.Some?
      modifies this`command, this`assembledBody
      ensures ok <==> TxnFieldsStep(ConcernsStep(OpMsgContextOf(), old(OpMsgView()), cs, inputs), cs, inputs).Some?
      ensures ok ==> OpMsgView() == TxnFieldsStep(ConcernsStep(OpMsgContextOf(), old(OpMsgView()), cs, inputs), cs, inputs).value
      ensures OpMsgContextOf() == old(OpMsgContextOf())
    {
      AddConcerns(cs, inputs);
      ok := AddTxnFields(cs, inputs);
    }

    /** The second half of the OP_MSG branch. */
    method OpMsgEnd(cs: Option<Session>, stream: ServerStream, inputs: AssembleInputs) returns (ok: bool)
      requires commandName.Some?
      modifies this`command, this`assembledBody, this`allowTxnNumber, this`isRetryableWrite
      ensures ok <==> OpMsgFinish(OpMsgContextOf(), old(OpMsgView()), cs, stream, inputs).Some?
      ensures ok ==> OpMsgView() == OpMsgFinish(OpMsgContextOf(), old(OpMsgView()), cs, stream, inputs).value
      ensures OpMsgContextOf() == old(OpMsgContextOf())
    {
      AddTxnNumberAndClusterTime(cs, stream, inputs);
      ok := AddConcernsAndTxnFields(cs, inputs);
    }

    /** The OP_MSG branch of `mongoc_cmd_parts_assemble`. */
    method AssembleOpMsg(stream: ServerStream, inputs: AssembleInputs) returns (ok: bool)
      requires commandName.Some?
      modifies this`extra, this`session, this`hasTempSession, this`command, this`assembledBody,
               this`allowTxnNumber, this`isRetryableWrite
      ensures ok <==> OpMsgAssemble(OpMsgContextOf(), old(OpMsgView()), stream, inputs).Some?
      ensures ok ==> OpMsgView() == OpMsgAssemble(OpMsgContextOf(), old(OpMsgView()), stream, inputs).value
    {
      var cs;
      cs, ok := OpMsgBegin(stream, inputs);
      if ok {
        ok := OpMsgEnd(cs, stream, inputs);
      }
    }

    /**
     * The start of `mongoc_cmd_parts_assemble`: the command is the body, the flags are the
     * caller's, and the name, when there is one, says whether this ends a transaction.
     */
    method BeginAssembly(stream: ServerStream)
      modifies this`command, this`queryFlags, this`serverStream, this`commandName, this`isTxnFinish
      ensures command == AtBody && queryFlags == userQueryFlags && serverStream == Some(stream)
      ensures commandName == CommandName(body)
      ensures commandName.Some? ==>
                isTxnFinish == (commandName.value == "commitTransaction" || commandName.value == "abortTransaction")
    {
      command := AtBody;
      queryFlags := userQueryFlags;
      serverStream := Some(stream);
      commandName := CommandName(body);
      if commandName.Some? {
        var name := commandName.value;
        isTxnFinish := name == "commitTransaction" || name == "abortTransaction";
      }
    }

    /**
     * `mongoc_cmd_parts_assemble`: an empty command is an error; with OP_MSG the body is
     * followed by `extra` and the session-related fields; older servers get the mongos or
     * mongod legacy shape. After an error the parts must not be used.
     */
    method Assemble(stream: ServerStream, inputs: AssembleInputs) returns (ok: bool)
      requires command == Unassembled && assembledBody == []
      requires (CommandName(body).Some? && stream.maxWireVersion < WireVersionOpMsg && stream.serverType == Mongos) ==>
                 DollarQueryIsDocument(body)
      requires (CommandName(body).Some? && stream.maxWireVersion < WireVersionOpMsg && stream.serverType != Mongos &&
                !isWriteCommand) ==> MongodReadTopology(stream.topologyType)
      modifies this`command, this`queryFlags, this`serverStream, this`commandName, this`isTxnFinish, this`extra,
               this`assembledBody, this`session, this`hasTempSession, this`allowTxnNumber, this`isRetryableWrite
      ensures serverStream == Some(stream) && commandName == CommandName(body)
      ensures commandName.None? ==> !ok && command == AtBody
      ensures commandName.Some? ==>
                isTxnFinish == (commandName.value == "commitTransaction" || commandName.value == "abortTransaction")
      ensures commandName.Some? && stream.maxWireVersion < WireVersionOpMsg && stream.serverType == Mongos ==>
                && ok
                && queryFlags == (if MongosRoute(readPrefs).slaveOk then WithSlaveOk(userQueryFlags) else userQueryFlags)
                && Command() ==
                     MongosCommand(body, extra, readConcernDocument, writeConcernDocument, commandName.value,
                                   if MongosRoute(readPrefs).addReadPrefs then Some(ReadPrefsEntry(readPrefs.value)) else None)
      ensures commandName.Some? && stream.maxWireVersion < WireVersionOpMsg && stream.serverType != Mongos ==>
                && ok
                && queryFlags ==
                     (if MongodSlaveOk(isWriteCommand, stream.topologyType, readPrefs)
                      then WithSlaveOk(userQueryFlags) else userQueryFlags)
                && Command() == MongodCommand(body, extra, readConcernDocument, writeConcernDocument, commandName.value)
      ensures commandName.None? || stream.maxWireVersion < WireVersionOpMsg ==>
                && extra == old(extra) && session == old(session) && hasTempSession == old(hasTempSession)
                && allowTxnNumber == old(allowTxnNumber) && isRetryableWrite == old(isRetryableWrite)
      ensures commandName.Some? && stream.maxWireVersion >= WireVersionOpMsg ==>
                var r := OpMsgAssemble(OpMsgContextOf(), old(OpMsgView()).(assembly := Assembly(AtBody, [])), stream, inputs);
                && queryFlags == userQueryFlags
                && (ok <==> r.Some?)
                && (ok ==> OpMsgView() == r.value)
    {
      ghost var entry := OpMsgView().(assembly := Assembly(AtBody, []));
      BeginAssembly(stream);
      if commandName.None? {
        return false;
      }
      if stream.maxWireVersion >= WireVersionOpMsg {
        assert OpMsgView() == entry;
        ok := AssembleOpMsg(stream, inputs);
      } else if stream.serverType == Mongos {
        AssembleMongos();
        ok := true;
      } else {
        AssembleMongod(stream);
        ok := true;
      }
    }
  }
}
