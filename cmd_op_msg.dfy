/**
 * The OP_MSG branch of `mongoc_cmd_parts_assemble`, on values: what goes into `extra`,
 * which session the command carries, and the fields appended after the body and `extra`.
 */
module CmdOpMsg {
  import opened Wrappers
  import opened Bson
  import opened CmdTypes
  import opened CmdDeciders
  import opened CmdAssembly

  /** `$db` names the database, unless the body already does. */
  function DbEntry(body: Doc, dbName: string): (r: Doc)
    ensures HasKey(body + r, "$db")
    ensures HasKey(body, "$db") <==> r == []
    ensures !HasKey(body, "$db") ==> r == [("$db", Utf8(dbName))]
  {
    if HasKey(body, "$db") then
      assert body + [] == body;
      []
    else
      assert (body + [("$db", Utf8(dbName))])[|body|].0 == "$db";
      [("$db", Utf8(dbName))]
  }

  /** A read preference other than primary travels in `extra`, except inside a transaction. */
  function ReadPrefsPart(cs: Option<Session>, prefs: Option<ReadPrefs>): (r: Doc)
    ensures r != [] <==> !InTxn(cs) && !IsPrefPrimary(prefs)
    ensures r != [] ==> r == [ReadPrefsEntry(prefs.value)]
  {
    if !InTxn(cs) && !IsPrefPrimary(prefs) then [ReadPrefsEntry(prefs.value)] else []
  }

  /** Inside a transaction, a read must use a primary read preference. */
  predicate TxnReadPrefsRefused(cs: Option<Session>, isWriteCommand: bool)
  {
    InTxn(cs) && !IsPrefPrimary(cs.value.txnReadPrefs) && !isWriteCommand
  }

  /**
   * The session the command carries: the explicit one, or else an implicit session when
   * one may be started (lsid allowed, acknowledged command) and starting it succeeds.
   */
  function SessionUsed(cs: Option<Session>, prohibitLsid: bool, isAcknowledged: bool,
                       started: Option<Session>): (r: Option<Session>)
    ensures cs.Some? ==> r == cs
    ensures r.Some? && cs.None? ==> !prohibitLsid && isAcknowledged && r == started
    ensures prohibitLsid ==> r == cs
    ensures cs.None? && !prohibitLsid && isAcknowledged ==> r == started
  {
    if cs.None? && !prohibitLsid && isAcknowledged then started else cs
  }

  /** `allow_txn_number` once assembly has settled it for a write outside a running transaction. */
  function AllowTxnNumberAfter(allow: AllowTxnNumber, cs: Option<Session>, isWriteCommand: bool,
                               maxWireVersion: int, isAcknowledged: bool, commandName: string): (r: AllowTxnNumber)
    ensures allow != AllowUnknown ==> r == allow
    ensures r == AllowUnknown <==> allow == AllowUnknown && (TxnInProgress(cs) || !isWriteCommand)
    ensures allow == AllowUnknown && !TxnInProgress(cs) && isWriteCommand ==>
              (r == AllowYes <==> AllowTxnNumberFor(AllowUnknown, isWriteCommand, maxWireVersion, isAcknowledged, commandName))
  {
    if !TxnInProgress(cs) && isWriteCommand && allow == AllowUnknown then
      if AllowTxnNumberFor(allow, isWriteCommand, maxWireVersion, isAcknowledged, commandName) then AllowYes else AllowNo
    else allow
  }

  /** The cluster time to gossip: the larger of the server's (when it has one) and the session's. */
  function ClusterTimeSent(serverClusterTime: Doc, cs: Option<Session>, greater: (Doc, Doc) -> bool): (r: Option<Doc>)
    ensures r.None? <==> serverClusterTime == [] && (cs.None? || cs.value.clusterTime.None?)
    ensures serverClusterTime == [] ==> r == (if cs.Some? then cs.value.clusterTime else None)
    ensures r.Some? ==> r.value == serverClusterTime || (cs.Some? && cs.value.clusterTime == r)
    ensures serverClusterTime != [] ==>
              r == LargestClusterTime(Some(serverClusterTime), if cs.Some? then cs.value.clusterTime else None, greater)
  {
    var fromSession := if cs.Some? then cs.value.clusterTime else None;
    if serverClusterTime != [] then LargestClusterTime(Some(serverClusterTime), fromSession, greater)
    else fromSession
  }

  function LsidEntry(cs: Option<Session>): Doc
  {
    if cs.Some? then [("lsid", Document(cs.value.lsid))] else []
  }

  function TxnNumberEntry(retryable: bool): Doc
  {
    if retryable then [("txnNumber", Int64(0))] else []
  }

  /** `$clusterTime` is sent to every server type but a standalone. */
  function ClusterTimeEntry(clusterTime: Option<Doc>, serverType: ServerType): Doc
  {
    if clusterTime.Some? && serverType != Standalone then [("$clusterTime", Document(clusterTime.value))] else []
  }

  /**
   * getMore takes no read concern; with a session the session decides what to append,
   * without one the command's own read concern is sent.
   */
  function ReadConcernPart(commandName: string, cs: Option<Session>, readConcern: Doc, fromSession: Doc): Doc
  {
    if commandName == "getMore" then []
    else if cs.Some? then fromSession
    else ReadConcernEntry(readConcern)
  }

  /** Inside a transaction only commitTransaction and abortTransaction carry a write concern. */
  function WriteConcernPart(isTxnFinish: bool, cs: Option<Session>, writeConcern: Doc): Doc
  {
    if isTxnFinish || !InTxn(cs) then WriteConcernEntry(writeConcern) else []
  }

  /** The OP_MSG command: the body, `extra`, then the session-related fields in the order appended. */
  function OpMsgCommand(body: Doc, extra: Doc, cs: Option<Session>, retryable: bool, clusterTime: Doc,
                        readConcern: Doc, writeConcern: Doc, txnFields: Doc): Doc
  {
    body + extra + LsidEntry(cs) + TxnNumberEntry(retryable) + clusterTime + readConcern + writeConcern + txnFields
  }

  /** The command keeps the body's name, since everything is appended after the body. */
  lemma OpMsgKeepsCommandName(body: Doc, extra: Doc, cs: Option<Session>, retryable: bool, clusterTime: Doc,
                              readConcern: Doc, writeConcern: Doc, txnFields: Doc)
    requires body != []
    ensures CommandName(OpMsgCommand(body, extra, cs, retryable, clusterTime, readConcern, writeConcern, txnFields)) == CommandName(body)
  {
    var c := OpMsgCommand(body, extra, cs, retryable, clusterTime, readConcern, writeConcern, txnFields);
    assert c == body + (extra + LsidEntry(cs) + TxnNumberEntry(retryable) + clusterTime + readConcern + writeConcern + txnFields);
    assert c[0] == body[0];
  }

  /**
   * The command carries an "lsid" exactly when it carries a session, provided nothing
   * else it is made of carries one.
   */
  lemma OpMsgLsidIffSession(body: Doc, extra: Doc, cs: Option<Session>, retryable: bool, clusterTime: Doc,
                            readConcern: Doc, writeConcern: Doc, txnFields: Doc)
    requires !HasKey(body, "lsid") && !HasKey(extra, "lsid") && !HasKey(clusterTime, "lsid")
    requires !HasKey(readConcern, "lsid") && !HasKey(writeConcern, "lsid") && !HasKey(txnFields, "lsid")
    ensures HasKey(OpMsgCommand(body, extra, cs, retryable, clusterTime, readConcern, writeConcern, txnFields), "lsid")
            <==> cs.Some?
  {
    var k := "lsid";
    var lsid := LsidEntry(cs);
    var txn := TxnNumberEntry(retryable);
    assert HasKey(lsid, k) <==> cs.Some? by {
      if cs.Some? { assert lsid[0].0 == k; }
    }
    assert !HasKey(txn, k);
    HasKeyConcat(body, extra, k);
    HasKeyConcat(body + extra, lsid, k);
    HasKeyConcat(body + extra + lsid, txn, k);
    HasKeyConcat(body + extra + lsid + txn, clusterTime, k);
    HasKeyConcat(body + extra + lsid + txn + clusterTime, readConcern, k);
    HasKeyConcat(body + extra + lsid + txn + clusterTime + readConcern, writeConcern, k);
    HasKeyConcat(body + extra + lsid + txn + clusterTime + readConcern + writeConcern, txnFields, k);
  }
  /** The collaborators `mongoc_cmd_parts_assemble` consults, as the values they produce. */
  datatype AssembleInputs = AssembleInputs(
    /** the client URI's retryWrites option, false when absent */
    retryWrites: bool,
    /** what `mongoc_client_start_session` returns; none when it fails */
    implicitSession: Option<Session>,
    /** `_mongoc_cluster_time_greater` */
    clusterTimeGreater: (Doc, Doc) -> bool,
    /** the fields `_mongoc_client_session_append_read_concern` appends, from the read concern and `is_read_command` */
    sessionReadConcern: (Doc, bool) -> Doc,
    /** the fields `_mongoc_client_session_append_txn` appends; none when it fails */
    sessionTxnFields: Option<Doc>)

  /** Reads sent to a single non-mongos server with a primary preference go out as primaryPreferred. */
  function PrefsFor(isWriteCommand: bool, readPrefs: Option<ReadPrefs>, stream: ServerStream): (p: Option<ReadPrefs>)
    ensures p != readPrefs ==> p == Some(ReadPrefs(PrimaryPreferred, [], NoMaxStaleness)) && IsPrefPrimary(readPrefs)
    ensures p != readPrefs <==>
              !isWriteCommand && IsPrefPrimary(readPrefs) && stream.topologyType == TopologySingle &&
              stream.serverType != Mongos
  {
    if !isWriteCommand && IsPrefPrimary(readPrefs) && stream.topologyType == TopologySingle &&
       stream.serverType != Mongos
    then Some(ReadPrefs(PrimaryPreferred, [], NoMaxStaleness))
    else readPrefs
  }

  /** The fields of the parts that the OP_MSG branch reads and leaves as they are. */
  datatype OpMsgContext = OpMsgContext(
    body: Doc, dbName: string, commandName: string, readPrefs: Option<ReadPrefs>,
    isReadCommand: bool, isWriteCommand: bool, prohibitLsid: bool, isAcknowledged: bool, isTxnFinish: bool,
    readConcern: Doc, writeConcern: Doc)

  /** The fields of the parts that the OP_MSG branch changes. */
  datatype OpMsgState = OpMsgState(
    extra: Doc, session: Option<Session>, hasTempSession: bool, allowTxnNumber: AllowTxnNumber,
    isRetryableWrite: bool, assembly: Assembly)

  /** `$db` into `extra`; then a read in a transaction must use primary, and other reads send their preference. */
  function DbAndReadPrefsStep(c: OpMsgContext, s: OpMsgState, cs0: Option<Session>,
                              prefs: Option<ReadPrefs>): Option<OpMsgState>
  {
    if TxnReadPrefsRefused(cs0, c.isWriteCommand) then None
    else Some(s.(extra := s.extra + DbEntry(c.body, c.dbName) + ReadPrefsPart(cs0, prefs)))
  }

  /** A non-empty `extra` makes the command a copy of the body followed by `extra`. */
  function MergeStep(c: OpMsgContext, s: OpMsgState): OpMsgState
  {
    if s.extra != [] then s.(assembly := Copied(s.assembly, c.body, s.extra)) else s
  }

  /** The implicit session, when one was started for the command, becomes the parts' own session. */
  function AdoptSession(s: OpMsgState, cs0: Option<Session>, cs: Option<Session>): OpMsgState
  {
    if cs0.None? && cs.Some? then s.(session := cs, hasTempSession := true) else s
  }

  /** The session's "lsid" is appended; a session with an unacknowledged command is an error. */
  function LsidStep(c: OpMsgContext, s: OpMsgState, cs: Option<Session>): Option<OpMsgState>
  {
    if cs.None? then Some(s)
    else if !c.isAcknowledged then None
    else Some(s.(assembly := Appended(s.assembly, c.body, s.extra, LsidEntry(cs))))
  }

  /** The session the command carries is adopted, then its "lsid" appended. */
  function SessionStep(c: OpMsgContext, s: OpMsgState, cs0: Option<Session>, started: Option<Session>): Option<OpMsgState>
  {
    var cs := SessionUsed(cs0, c.prohibitLsid, c.isAcknowledged, started);
    LsidStep(c, AdoptSession(s, cs0, cs), cs)
  }

  /** `allow_txn_number` is settled, and a retryable write gets "txnNumber" and is marked so. */
  function TxnNumberStep(c: OpMsgContext, s: OpMsgState, cs: Option<Session>, stream: ServerStream,
                         retryWrites: bool): OpMsgState
  {
    var allow := AllowTxnNumberAfter(s.allowTxnNumber, cs, c.isWriteCommand, stream.maxWireVersion,
                                     c.isAcknowledged, c.commandName);
    if IsRetryableWrite(s.session, c.isWriteCommand, allow, stream.maxWireVersion, stream.serverType, retryWrites)
    then s.(allowTxnNumber := allow, isRetryableWrite := true,
            assembly := Appended(s.assembly, c.body, s.extra, TxnNumberEntry(true)))
    else s.(allowTxnNumber := allow)
  }

  /** "$clusterTime", when there is one to send. */
  function ClusterTimeStep(c: OpMsgContext, s: OpMsgState, cs: Option<Session>, stream: ServerStream,
                           greater: (Doc, Doc) -> bool): OpMsgState
  {
    var entry := ClusterTimeEntry(ClusterTimeSent(stream.clusterTime, cs, greater), stream.serverType);
    if entry != [] then s.(assembly := Appended(s.assembly, c.body, s.extra, entry)) else s
  }

  /**
   * The read concern (the session's fields are appended to `assembled_body` as they are;
   * without a session the intended copy-then-append is used), then the write concern.
   */
  function ConcernsStep(c: OpMsgContext, s: OpMsgState, cs: Option<Session>, inputs: AssembleInputs): OpMsgState
  {
    var a := s.assembly;
    var a1 := if c.commandName == "getMore" then a
              else if cs.Some? then a.(assembledBody := a.assembledBody + inputs.sessionReadConcern(c.readConcern, c.isReadCommand))
              else WithReadConcern(a, c.body, s.extra, c.readConcern);
    var a2 := if c.isTxnFinish || !InTxn(cs) then WithWriteConcern(a1, c.body, s.extra, c.writeConcern) else a1;
    s.(assembly := a2)
  }

  /** With a session, its transaction fields are appended; failing to produce them is an error. */
  function TxnFieldsStep(s: OpMsgState, cs: Option<Session>, inputs: AssembleInputs): Option<OpMsgState>
  {
    if cs.None? then Some(s)
    else if inputs.sessionTxnFields.None? then None
    else Some(s.(assembly := s.assembly.(assembledBody := s.assembly.assembledBody + inputs.sessionTxnFields.value)))
  }

  /** The session the OP_MSG branch starts from: the parts' own, unless lsid is prohibited. */
  function ExplicitSession(c: OpMsgContext, s: OpMsgState): Option<Session>
  {
    if c.prohibitLsid then None else s.session
  }

  /** The session the command carries. */
  function CommandSession(c: OpMsgContext, s: OpMsgState, inputs: AssembleInputs): Option<Session>
  {
    SessionUsed(ExplicitSession(c, s), c.prohibitLsid, c.isAcknowledged, inputs.implicitSession)
  }

  /** The first half of the OP_MSG branch: `$db`, the read preference, the merge and the session. */
  function OpMsgPrelude(c: OpMsgContext, s: OpMsgState, stream: ServerStream, inputs: AssembleInputs): Option<OpMsgState>
  {
    var cs0 := ExplicitSession(c, s);
    match DbAndReadPrefsStep(c, s, cs0, PrefsFor(c.isWriteCommand, c.readPrefs, stream))
    case None => None
    case Some(s1) => SessionStep(c, MergeStep(c, s1), cs0, inputs.implicitSession)
  }

  /** The second half of the OP_MSG branch, for the session `cs` the command carries. */
  function OpMsgFinish(c: OpMsgContext, s2: OpMsgState, cs: Option<Session>, stream: ServerStream,
                       inputs: AssembleInputs): Option<OpMsgState>
  {
    var s3 := TxnNumberStep(c, s2, cs, stream, inputs.retryWrites);
    var s4 := ClusterTimeStep(c, s3, cs, stream, inputs.clusterTimeGreater);
    TxnFieldsStep(ConcernsStep(c, s4, cs, inputs), cs, inputs)
  }

  /** The OP_MSG branch of `mongoc_cmd_parts_assemble`, step by step; none when it fails. */
  function OpMsgAssemble(c: OpMsgContext, s: OpMsgState, stream: ServerStream, inputs: AssembleInputs): Option<OpMsgState>
  {
    match OpMsgPrelude(c, s, stream, inputs)
    case None => None
    case Some(s2) => OpMsgFinish(c, s2, CommandSession(c, s, inputs), stream, inputs)
  }

  /** Merging a non-empty `extra` into a fresh command gives the body followed by `extra`. */
  lemma MergeStepMerges(c: OpMsgContext, s: OpMsgState)
    requires s.assembly == Assembly(AtBody, [])
    ensures var r := MergeStep(c, s);
            && Merged(r.assembly, r.extra) && CommandDoc(r.assembly, c.body) == c.body + s.extra
            && r.(assembly := s.assembly) == s
  {
    if s.extra == [] {
      assert c.body + s.extra == c.body;
    }
  }

  /**
   * The session step appends "lsid" exactly when the command carries a session, leaving the
   * command in `assembled_body`, and fails only for a session with an unacknowledged command.
   */
  lemma SessionStepAppendsLsid(c: OpMsgContext, s: OpMsgState, cs0: Option<Session>, started: Option<Session>)
    requires Merged(s.assembly, s.extra)
    ensures var cs := SessionUsed(cs0, c.prohibitLsid, c.isAcknowledged, started);
            var r := SessionStep(c, s, cs0, started);
            && (r.None? <==> cs.Some? && !c.isAcknowledged)
            && (r.Some? ==>
                  && Merged(r.value.assembly, r.value.extra) && r.value.extra == s.extra
                  && CommandDoc(r.value.assembly, c.body) == CommandDoc(s.assembly, c.body) + LsidEntry(cs)
                  && (cs.Some? ==> r.value.assembly.command == AtAssembledBody))
  {
    var cs := SessionUsed(cs0, c.prohibitLsid, c.isAcknowledged, started);
    if cs.Some? {
      AppendedExtendsCommand(s.assembly, c.body, s.extra, LsidEntry(cs));
    } else {
      assert CommandDoc(s.assembly, c.body) + LsidEntry(cs) == CommandDoc(s.assembly, c.body);
    }
  }

  /** "txnNumber" is appended exactly for a retryable write, and only the transaction fields change. */
  lemma TxnNumberStepAppends(c: OpMsgContext, s: OpMsgState, cs: Option<Session>, stream: ServerStream, retryWrites: bool)
    requires Merged(s.assembly, s.extra)
    ensures var r := TxnNumberStep(c, s, cs, stream, retryWrites);
            var retryable := IsRetryableWrite(s.session, c.isWriteCommand, r.allowTxnNumber, stream.maxWireVersion,
                                              stream.serverType, retryWrites);
            && r.allowTxnNumber == AllowTxnNumberAfter(s.allowTxnNumber, cs, c.isWriteCommand, stream.maxWireVersion,
                                                       c.isAcknowledged, c.commandName)
            && r.isRetryableWrite == (s.isRetryableWrite || retryable)
            && r.extra == s.extra && r.session == s.session && r.hasTempSession == s.hasTempSession
            && Merged(r.assembly, r.extra)
            && CommandDoc(r.assembly, c.body) == CommandDoc(s.assembly, c.body) + TxnNumberEntry(retryable)
            && (s.assembly.command == AtAssembledBody ==> r.assembly.command == AtAssembledBody)
  {
    var r := TxnNumberStep(c, s, cs, stream, retryWrites);
    if IsRetryableWrite(s.session, c.isWriteCommand, r.allowTxnNumber, stream.maxWireVersion, stream.serverType,
                        retryWrites) {
      AppendedExtendsCommand(s.assembly, c.body, s.extra, TxnNumberEntry(true));
    } else {
      assert CommandDoc(s.assembly, c.body) + [] == CommandDoc(s.assembly, c.body);
    }
  }

  /** "$clusterTime" is appended when there is one to send, and nothing else changes. */
  lemma ClusterTimeStepAppends(c: OpMsgContext, s: OpMsgState, cs: Option<Session>, stream: ServerStream,
                               greater: (Doc, Doc) -> bool)
    requires Merged(s.assembly, s.extra)
    ensures var r := ClusterTimeStep(c, s, cs, stream, greater);
            && r.(assembly := s.assembly) == s
            && Merged(r.assembly, r.extra)
            && CommandDoc(r.assembly, c.body) ==
               CommandDoc(s.assembly, c.body) + ClusterTimeEntry(ClusterTimeSent(stream.clusterTime, cs, greater), stream.serverType)
            && (s.assembly.command == AtAssembledBody ==> r.assembly.command == AtAssembledBody)
  {
    var entry := ClusterTimeEntry(ClusterTimeSent(stream.clusterTime, cs, greater), stream.serverType);
    if entry != [] {
      AppendedExtendsCommand(s.assembly, c.body, s.extra, entry);
    } else {
      assert CommandDoc(s.assembly, c.body) + entry == CommandDoc(s.assembly, c.body);
    }
  }

  /**
   * The concerns step appends the read concern part and then the write concern part. With a
   * session the command must already be in `assembled_body`, since the session's read
   * concern is appended there directly.
   */
  lemma ConcernsStepAppends(c: OpMsgContext, s: OpMsgState, cs: Option<Session>, inputs: AssembleInputs)
    requires Merged(s.assembly, s.extra)
    requires cs.Some? ==> s.assembly.command == AtAssembledBody
    ensures var r := ConcernsStep(c, s, cs, inputs);
            && r.(assembly := s.assembly) == s
            && Merged(r.assembly, r.extra)
            && CommandDoc(r.assembly, c.body) ==
               CommandDoc(s.assembly, c.body)
               + ReadConcernPart(c.commandName, cs, c.readConcern, inputs.sessionReadConcern(c.readConcern, c.isReadCommand))
               + WriteConcernPart(c.isTxnFinish, cs, c.writeConcern)
            && (s.assembly.command == AtAssembledBody ==> r.assembly.command == AtAssembledBody)
  {
    var a := s.assembly;
    var rcPart := ReadConcernPart(c.commandName, cs, c.readConcern, inputs.sessionReadConcern(c.readConcern, c.isReadCommand));
    var a1 := if c.commandName == "getMore" then a
              else if cs.Some? then a.(assembledBody := a.assembledBody + inputs.sessionReadConcern(c.readConcern, c.isReadCommand))
              else WithReadConcern(a, c.body, s.extra, c.readConcern);
    if c.commandName == "getMore" {
      assert CommandDoc(a, c.body) + rcPart == CommandDoc(a, c.body);
    } else if cs.Some? {
    } else {
      WithReadConcernAppends(a, c.body, s.extra, c.readConcern);
    }
    assert Merged(a1, s.extra) && CommandDoc(a1, c.body) == CommandDoc(a, c.body) + rcPart;
    if c.isTxnFinish || !InTxn(cs) {
      WithWriteConcernAppends(a1, c.body, s.extra, c.writeConcern);
    } else {
      assert CommandDoc(a1, c.body) + [] == CommandDoc(a1, c.body);
    }
  }

  /** With a session its transaction fields end the command; without one nothing is appended. */
  lemma TxnFieldsStepAppends(s: OpMsgState, cs: Option<Session>, inputs: AssembleInputs, body: Doc)
    requires Merged(s.assembly, s.extra)
    requires cs.Some? ==> s.assembly.command == AtAssembledBody
    ensures var r := TxnFieldsStep(s, cs, inputs);
            && (r.None? <==> cs.Some? && inputs.sessionTxnFields.None?)
            && (r.Some? ==>
                  && r.value.(assembly := s.assembly) == s
                  && r.value.assembly.command == s.assembly.command
                  && CommandDoc(r.value.assembly, body) ==
                     CommandDoc(s.assembly, body) + (if cs.Some? then inputs.sessionTxnFields.value else []))
  {
    if cs.None? {
      assert CommandDoc(s.assembly, body) + [] == CommandDoc(s.assembly, body);
    }
  }

  /**
   * OP_MSG assembly fails exactly for a read in a transaction without a primary read
   * preference, for a session with an unacknowledged command, and when the session's
   * transaction fields cannot be produced.
   */
  lemma OpMsgAssembleFailsExactly(c: OpMsgContext, s: OpMsgState, stream: ServerStream, inputs: AssembleInputs)
    ensures var cs := CommandSession(c, s, inputs);
            OpMsgAssemble(c, s, stream, inputs).None? <==>
              || TxnReadPrefsRefused(ExplicitSession(c, s), c.isWriteCommand)
              || (cs.Some? && !c.isAcknowledged)
              || (cs.Some? && inputs.sessionTxnFields.None?)
  {
    var cs0 := ExplicitSession(c, s);
    var cs := CommandSession(c, s, inputs);
    var s1 := DbAndReadPrefsStep(c, s, cs0, PrefsFor(c.isWriteCommand, c.readPrefs, stream));
    if s1.Some? {
      var s2 := SessionStep(c, MergeStep(c, s1.value), cs0, inputs.implicitSession);
      assert s2.None? <==> cs.Some? && !c.isAcknowledged;
    }
  }

  /**
   * After OP_MSG assembly the parts hold the session the command carries (an implicit one
   * started for it is recorded as temporary), and `extra` holds `$db` and the read
   * preference sent.
   */
  lemma OpMsgAssembleSession(c: OpMsgContext, s: OpMsgState, stream: ServerStream, inputs: AssembleInputs)
    ensures var cs0 := ExplicitSession(c, s);
            var cs := CommandSession(c, s, inputs);
            var r := OpMsgAssemble(c, s, stream, inputs);
            r.Some? ==>
              && r.value.session == (if cs0.None? && cs.Some? then cs else s.session)
              && r.value.hasTempSession == (s.hasTempSession || (cs0.None? && cs.Some?))
              && r.value.extra == s.extra + DbEntry(c.body, c.dbName) + ReadPrefsPart(cs0, PrefsFor(c.isWriteCommand, c.readPrefs, stream))
  {
    var cs := CommandSession(c, s, inputs);
    var p := OpMsgPrelude(c, s, stream, inputs);
    if p.Some? {
      OpMsgPreludeFields(c, s, stream, inputs);
      OpMsgFinishKeeps(c, p.value, cs, stream, inputs);
      TxnNumberStepKeepsSession(c, p.value, cs, stream, inputs.retryWrites);
    }
  }

  /** After OP_MSG assembly `allow_txn_number` and `is_retryable_write` are settled for the command's session. */
  lemma OpMsgAssembleTxnNumber(c: OpMsgContext, s: OpMsgState, stream: ServerStream, inputs: AssembleInputs)
    ensures var cs := CommandSession(c, s, inputs);
            var r := OpMsgAssemble(c, s, stream, inputs);
            r.Some? ==>
              && r.value.allowTxnNumber == AllowTxnNumberAfter(s.allowTxnNumber, cs, c.isWriteCommand,
                                                               stream.maxWireVersion, c.isAcknowledged, c.commandName)
              && r.value.isRetryableWrite ==
                 (s.isRetryableWrite || IsRetryableWrite(r.value.session, c.isWriteCommand, r.value.allowTxnNumber,
                                                         stream.maxWireVersion, stream.serverType, inputs.retryWrites))
  {
    var cs := CommandSession(c, s, inputs);
    var p := OpMsgPrelude(c, s, stream, inputs);
    if p.Some? {
      OpMsgPreludeFields(c, s, stream, inputs);
      OpMsgFinishKeeps(c, p.value, cs, stream, inputs);
      TxnNumberStepKeepsSession(c, p.value, cs, stream, inputs.retryWrites);
    }
  }

  /** What the first half of the OP_MSG branch does to the fields other than the command. */
  lemma OpMsgPreludeFields(c: OpMsgContext, s: OpMsgState, stream: ServerStream, inputs: AssembleInputs)
    ensures var cs0 := ExplicitSession(c, s);
            var cs := CommandSession(c, s, inputs);
            var r := OpMsgPrelude(c, s, stream, inputs);
            r.Some? ==>
              && r.value.session == (if cs0.None? && cs.Some? then cs else s.session)
              && r.value.hasTempSession == (s.hasTempSession || (cs0.None? && cs.Some?))
              && r.value.extra == s.extra + DbEntry(c.body, c.dbName) + ReadPrefsPart(cs0, PrefsFor(c.isWriteCommand, c.readPrefs, stream))
              && r.value.allowTxnNumber == s.allowTxnNumber
              && r.value.isRetryableWrite == s.isRetryableWrite
  {
    var cs0 := ExplicitSession(c, s);
    var s1 := DbAndReadPrefsStep(c, s, cs0, PrefsFor(c.isWriteCommand, c.readPrefs, stream));
    if s1.Some? {
      var m := MergeStep(c, s1.value);
      assert m.(assembly := s1.value.assembly) == s1.value;
    }
  }

  /** The second half of the OP_MSG branch changes only the command and what the "txnNumber" step settles. */
  lemma OpMsgFinishKeeps(c: OpMsgContext, s2: OpMsgState, cs: Option<Session>, stream: ServerStream,
                         inputs: AssembleInputs)
    ensures var s3 := TxnNumberStep(c, s2, cs, stream, inputs.retryWrites);
            var r := OpMsgFinish(c, s2, cs, stream, inputs);
            r.Some? ==> r.value.(assembly := s3.assembly) == s3
  {
    LastStepsChangeOnlyAssembly(c, TxnNumberStep(c, s2, cs, stream, inputs.retryWrites), cs, stream, inputs);
  }

  /** The "txnNumber" step leaves the session and `extra` alone. */
  lemma TxnNumberStepKeepsSession(c: OpMsgContext, s: OpMsgState, cs: Option<Session>, stream: ServerStream,
                                  retryWrites: bool)
    ensures var r := TxnNumberStep(c, s, cs, stream, retryWrites);
            r.session == s.session && r.hasTempSession == s.hasTempSession && r.extra == s.extra
  {
  }

  /** The steps after "txnNumber" change nothing but the command. */
  lemma LastStepsChangeOnlyAssembly(c: OpMsgContext, s: OpMsgState, cs: Option<Session>, stream: ServerStream,
                                    inputs: AssembleInputs)
    ensures var s4 := ClusterTimeStep(c, s, cs, stream, inputs.clusterTimeGreater);
            var s5 := ConcernsStep(c, s4, cs, inputs);
            var r := TxnFieldsStep(s5, cs, inputs);
            && s4.(assembly := s.assembly) == s
            && s5.(assembly := s.assembly) == s
            && (r.Some? ==> r.value.(assembly := s.assembly) == s)
  {
    var entry := ClusterTimeEntry(ClusterTimeSent(stream.clusterTime, cs, inputs.clusterTimeGreater), stream.serverType);
    var s4 := ClusterTimeStep(c, s, cs, stream, inputs.clusterTimeGreater);
    assert s4 == s.(assembly := s4.assembly);
  }

  /**
   * The OP_MSG command, from a fresh assembly: the body, `extra`, "lsid" when there is a
   * session, "txnNumber" for a retryable write, "$clusterTime", the read and write concern
   * parts, then the session's transaction fields.
   */
  lemma OpMsgAssembleCommand(c: OpMsgContext, s: OpMsgState, stream: ServerStream, inputs: AssembleInputs)
    requires s.assembly == Assembly(AtBody, [])
    ensures var cs := CommandSession(c, s, inputs);
            var r := OpMsgAssemble(c, s, stream, inputs);
            r.Some? ==>
              && r.value.assembly.command != Unassembled
              && CommandDoc(r.value.assembly, c.body) ==
                 OpMsgCommand(c.body, r.value.extra, cs,
                              IsRetryableWrite(r.value.session, c.isWriteCommand, r.value.allowTxnNumber,
                                               stream.maxWireVersion, stream.serverType, inputs.retryWrites),
                              ClusterTimeEntry(ClusterTimeSent(stream.clusterTime, cs, inputs.clusterTimeGreater),
                                               stream.serverType),
                              ReadConcernPart(c.commandName, cs, c.readConcern,
                                              inputs.sessionReadConcern(c.readConcern, c.isReadCommand)),
                              WriteConcernPart(c.isTxnFinish, cs, c.writeConcern),
                              if cs.Some? then inputs.sessionTxnFields.value else [])
  {
    var cs0 := ExplicitSession(c, s);
    var cs := CommandSession(c, s, inputs);
    var s1 := DbAndReadPrefsStep(c, s, cs0, PrefsFor(c.isWriteCommand, c.readPrefs, stream));
    if s1.None? {
      return;
    }
    var m := MergeStep(c, s1.value);
    MergeStepMerges(c, s1.value);
    var s2 := SessionStep(c, m, cs0, inputs.implicitSession);
    SessionStepAppendsLsid(c, m, cs0, inputs.implicitSession);
    if s2.None? {
      return;
    }
    var s3 := TxnNumberStep(c, s2.value, cs, stream, inputs.retryWrites);
    TxnNumberStepAppends(c, s2.value, cs, stream, inputs.retryWrites);
    var s4 := ClusterTimeStep(c, s3, cs, stream, inputs.clusterTimeGreater);
    ClusterTimeStepAppends(c, s3, cs, stream, inputs.clusterTimeGreater);
    var s5 := ConcernsStep(c, s4, cs, inputs);
    ConcernsStepAppends(c, s4, cs, inputs);
    TxnFieldsStepAppends(s5, cs, inputs, c.body);
  }
}
