# mongo-c-driver: command assembly and the future-function generator

This project models two parts of the MongoDB C driver in Dafny and proves properties of them.

**Command assembly.** `mongoc_cmd_parts_t` gathers a command body together with:
- the options a caller supplies (collation, read and write concern, client session, extra fields);
- the server the command goes to: its wire version, its server type and the topology type.

`mongoc_cmd_parts_assemble` turns this into the command actually sent:
- For a server that speaks OP_MSG, the result is the body, then `extra` (`$db` and `$readPreference`), then "lsid", "txnNumber", "$clusterTime", the concerns and the transaction fields.
- For an older mongos, the result is the legacy `$query`/`$readPreference` wrapping.
- For an older mongod, the result is the body, `extra` and the concerns, with the slaveOK flag set as the Server Selection specification requires.

The command is the caller's body until the first field must be added. From then on it is a copy in `assembled_body`.

**Future-function generator.** The mock-server test generator declares two tables:
- the value kinds a future can carry;
- the blocking operations it wraps.

Before rendering any template it checks that every parameter of every operation names a registered kind.

The modules follow the structure of the source:
- `Wrappers` (Option), `Ascii` (`strcasecmp` in the C locale) and `Bson` (documents as ordered key/value sequences) are shared foundations.
- `CmdTypes` holds constants, enumerations and the collaborators reduced to the values assembly reads.
- `CmdDeciders` holds the side-effect-free decisions.
- `CmdOpts` is the `append_opts` loop on values.
- `CmdAssembly` is the algebra of where `assembled.command` points and how appending changes it.
- `CmdOpMsg` is the OP_MSG branch as a chain of step functions.
- `CmdParts` is the class `Parts`, whose methods change its fields as the C functions change the struct. Each method is proved against the functions above.
- `FutureFunctions` holds the generator's tables and validation.

## Model

| member | source | states |
|---|---|---|
| FutureFunctions.Names | build/generate-future-functions.py:69 | the name list has one entry per typedef, position by position |
| FutureFunctions.TypeListIsRegisteredNames | build/generate-future-functions.py:49-69 | `type_list` is exactly the fifteen registered names, in table order |
| FutureFunctions.TypeListDistinct | build/generate-future-functions.py:49-67 | no value kind is registered twice |
| FutureFunctions.CheckFutureFunctions | build/generate-future-functions.py:111-114 | the two nested loops return what the validation function specifies: success, or the first unregistered parameter kind with its descriptor |
| FutureFunctions.FirstBadParamNoneIff | build/generate-future-functions.py:112-114 | the inner loop finds nothing exactly when every parameter kind is registered |
| FutureFunctions.FirstBadParamIsFirst | build/generate-future-functions.py:112-114 | the inner loop reports the first unregistered parameter, not a later one |
| FutureFunctions.FirstBadParamSound | build/generate-future-functions.py:112-114 | a reported parameter belongs to the descriptor and its kind is unregistered |
| FutureFunctions.AllRegistered | build/generate-future-functions.py:111-114 | no contract; the condition under which the loops raise nothing, stated by ValidateOkIff and Generate |
| FutureFunctions.FirstBadParam | build/generate-future-functions.py:112-114 | no contract; the inner loop, stated by FirstBadParamNoneIff, FirstBadParamIsFirst and FirstBadParamSound |
| FutureFunctions.Validate | build/generate-future-functions.py:111-114 | no contract; the two loops on values, stated by ValidateOkIff, ValidateReportsFirst, ValidateErrorSound and ValidateIgnoresReturnKind, and refined by CheckFutureFunctions |
| FutureFunctions.ValidateOkIff | build/generate-future-functions.py:111-114 | validation passes if and only if every parameter of every descriptor names a registered kind |
| FutureFunctions.ValidateReportsFirst | build/generate-future-functions.py:111-114 | the raised error names the first offending kind in descriptor order, then parameter order, with its descriptor |
| FutureFunctions.ValidateErrorSound | build/generate-future-functions.py:111-114 | a raised kind is unregistered, and some parameter of the reported descriptor uses it |
| FutureFunctions.ValidateIgnoresReturnKind | build/generate-future-functions.py:111-114 | changing a descriptor's return kind never changes whether validation passes |
| FutureFunctions.Generate | build/generate-future-functions.py:111-138 | every output file is written if and only if all parameter kinds are registered; otherwise the run raises the first bad kind and writes nothing |
| FutureFunctions.ShippedParamKindsRegistered | build/generate-future-functions.py:78-114 | every parameter kind of the five shipped descriptors is registered |
| FutureFunctions.ShippedReturnKindsRegistered | build/generate-future-functions.py:78-108 | every shipped return kind is registered too |
| FutureFunctions.ShippedTablesPass | build/generate-future-functions.py:78-138 | the shipped tables pass validation, and generation emits all six files |
| FutureFunctions.UnregisteredReturnKindPasses | build/generate-future-functions.py:111-114 | a descriptor whose only unknown kind is its return kind still passes |
| FutureFunctions.UnregisteredParamKindRaises | build/generate-future-functions.py:111-114 | adding a descriptor with an unknown parameter kind makes the run raise with that kind and descriptor |
| Ascii.EqualsIgnoreCaseAt | src/libmongoc/src/mongoc/mongoc-cmd.c:276 | `strcasecmp` equality holds if and only if the lengths agree and each character pair agrees after folding A-Z |
| Ascii.EqualsIgnoreCase | src/libmongoc/src/mongoc/mongoc-cmd.c:276 | no contract; `strcasecmp(a, b) == 0`, stated by Ascii.EqualsIgnoreCaseAt |
| Bson.Find | src/libmongoc/src/mongoc/mongoc-cmd.c:502 | the lookup finds nothing exactly when the key is absent, and otherwise returns the value of the first entry with that key |
| Bson.HasKey | src/libmongoc/src/mongoc/mongoc-cmd.c:810 | no contract; `bson_has_field`, used by Find's and Excluding's contracts |
| Bson.Excluding | src/libmongoc/src/mongoc/mongoc-cmd.c:527-528 | the copy keeps exactly the entries whose key differs from the excluded one; it is never longer, and returns a document without that key unchanged |
| Bson.ExcludingConcat | src/libmongoc/src/mongoc/mongoc-cmd.c:527-528 | the copy works entry by entry, so the entries it keeps stay in their order |
| CmdTypes.WithSlaveOk | src/libmongoc/src/mongoc/mongoc-cmd.c:482 | `\|= MONGOC_QUERY_SLAVE_OK` sets slaveOK and keeps every other flag |
| CmdTypes.CommandName | src/libmongoc/src/mongoc/mongoc-cmd.c:783-786 | an empty command has no name; otherwise the name is the first key of the body |
| CmdTypes.ReadPrefsEntry | src/libmongoc/src/mongoc/mongoc-cmd.c:395-419 | `$readPreference` holds the mode first; it has "tags" if and only if tags are set, and "maxStalenessSeconds" if and only if a staleness is set |
| CmdTypes.InTxn | src/libmongoc/src/mongoc/mongoc-cmd.c:814 | no contract; `_mongoc_client_session_in_txn`, false without a session |
| CmdTypes.TxnInProgress | src/libmongoc/src/mongoc/mongoc-cmd.c:870 | no contract; `_mongoc_client_session_txn_in_progress`, false without a session |
| CmdTypes.ModeOf | src/libmongoc/src/mongoc/mongoc-cmd.c:451 | no contract; `mongoc_read_prefs_get_mode`, primary when there is no read preference |
| CmdTypes.IsPrefPrimary | src/libmongoc/src/mongoc/mongoc-cmd.c:800 | no contract; `IS_PREF_PRIMARY`, used by MongosRoute, ReadPrefsPart and PrefsFor |
| CmdTypes.ModeName | src/libmongoc/src/mongoc/mongoc-cmd.c:403 | no contract; `_mongoc_read_mode_as_str`, the mode string ReadPrefsEntry puts first |
| CmdDeciders.WriteConcernAllowed | src/libmongoc/src/mongoc/mongoc-cmd.c:276-281 | write commands always keep a write concern; from wire version 5 every command does; before 4 only write commands do; between those only findAndModify does, in any case |
| CmdDeciders.WriteConcernAllowedMonotone | src/libmongoc/src/mongoc/mongoc-cmd.c:276-281 | a newer server accepts every write concern an older one accepts |
| CmdDeciders.MongosRoute | src/libmongoc/src/mongoc/mongoc-cmd.c:475-490 | the Server Selection rule per read mode: primary sets nothing; secondaryPreferred sets slaveOK and sends the preference only with tags; every other mode sets both |
| CmdDeciders.MongosSlaveOkIffNotPrimary | src/libmongoc/src/mongoc/mongoc-cmd.c:475-490 | through mongos, slaveOK is set if and only if the mode is not primary, and `$readPreference` only comes with it |
| CmdDeciders.MongodSlaveOk | src/libmongoc/src/mongoc/mongoc-cmd.c:580-612 | writes never get slaveOK; reads on a single server always do; replica-set reads get it if and only if a non-primary preference is given |
| CmdDeciders.MongodPrimaryReadSlaveOkOnlyOnSingle | src/libmongoc/src/mongoc/mongoc-cmd.c:580-612 | a primary read gets slaveOK from mongod assembly exactly on a single-server topology |
| CmdDeciders.MongodReadTopology | src/libmongoc/src/mongoc/mongoc-cmd.c:605-610 | no contract; the topologies a mongod read may be assembled for, the requires of MongodSlaveOk and Parts.Assemble that stands for `BSON_ASSERT (false)` |
| CmdDeciders.AllowTxnNumberFor | src/libmongoc/src/mongoc/mongoc-cmd.c:666-691 | a transaction number is allowed if and only if the command is an acknowledged write, the server supports retryable writes, and the command is findAndModify in any case |
| CmdDeciders.BasicWritesGetNoTxnNumber | src/libmongoc/src/mongoc/mongoc-cmd.c:652-691 | insert, update and delete are never allowed one by this decider, while findAndModify is |
| CmdDeciders.IsRetryableWrite | src/libmongoc/src/mongoc/mongoc-cmd.c:695-729 | retryable if and only if: a session, a write command, the number allowed, wire version at least 6, not a standalone, not in a transaction, and retryWrites on |
| CmdDeciders.RetryableWhenUndecidedIsFindAndModify | src/libmongoc/src/mongoc/mongoc-cmd.c:869-885 | when assembly settles the allowance itself, only an acknowledged findAndModify with a session outside a transaction is retried |
| CmdDeciders.LargestClusterTime | src/libmongoc/src/mongoc/mongoc-cmd.c:633-649 | the result is one of the inputs, absent only when both are, and the first exactly when it is greater or both are equal |
| CmdDeciders.LargestClusterTimeIsMaximal | src/libmongoc/src/mongoc/mongoc-cmd.c:633-649 | with an asymmetric comparator, neither input is greater than the chosen cluster time |
| CmdDeciders.IsCompressible | src/libmongoc/src/mongoc/mongoc-cmd.c:964-980 | a command is not compressible if and only if its name equals one of the ten listed names, ignoring case |
| CmdDeciders.IsCompressibleIgnoresCase | src/libmongoc/src/mongoc/mongoc-cmd.c:964-980 | compressibility depends on the name only up to case |
| CmdDeciders.CompressibleExamples | src/libmongoc/src/mongoc/mongoc-cmd.c:964-980 | isMaster, saslStart and copydbSaslStart are never compressed; find and insert are |
| CmdOpts.Routed | src/libmongoc/src/mongoc/mongoc-cmd.c:181-188 | an entry is copied into `extra` exactly when its key is none of those the loop consumes or drops |
| CmdOpts.Consumed | src/libmongoc/src/mongoc/mongoc-cmd.c:134-184 | no contract; the keys the loop handles itself (writeConcern, readConcern, sessionId, serverId, maxAwaitTimeMS), stated by Routed |
| CmdOpts.SetWriteConcernStep | src/libmongoc/src/mongoc/mongoc-cmd.c:254-293 | no contract; `set_write_concern` inside the loop, stated by ApplyOptRefused and Parts.SetWriteConcern |
| CmdOpts.ApplyOpt | src/libmongoc/src/mongoc/mongoc-cmd.c:124-188 | no contract; one turn of the loop, stated by ApplyOptRefused and refined by Parts.AppendOpt |
| CmdOpts.ApplyOpts | src/libmongoc/src/mongoc/mongoc-cmd.c:124-191 | no contract; the whole loop, stated by ApplyOptsOkIff, ApplyOptsExtra and ApplyOptsReadConcern, and refined by Parts.AppendOpts |
| CmdOpts.Refused | src/libmongoc/src/mongoc/mongoc-cmd.c:124-180 | no contract; the error exits of one turn, stated by ApplyOptRefused and ApplyOptsOkIff |
| CmdOpts.LastReadConcern | src/libmongoc/src/mongoc/mongoc-cmd.c:148-170 | no contract; the read concern of the last readConcern entry, stated by ApplyOptsReadConcern |
| CmdOpts.RoutedKeepsOthers | src/libmongoc/src/mongoc/mongoc-cmd.c:181-188 | routing never adds entries, and copies options with no consumed key unchanged, in order |
| CmdOpts.RoutedConcat | src/libmongoc/src/mongoc/mongoc-cmd.c:124-188 | routing works entry by entry: the routed entries of two option runs are those of each, in iteration order |
| CmdOpts.ApplyOptRefused | src/libmongoc/src/mongoc/mongoc-cmd.c:124-188 | one turn fails if and only if the entry is refused, and an accepted turn grows `extra` by exactly its routed entry |
| CmdOpts.ApplyOptsOkIff | src/libmongoc/src/mongoc/mongoc-cmd.c:124-191 | the options apply if and only if no entry is refused: an old server for collation or readConcern, a bad write concern or empty command, a non-document readConcern, an unparsable sessionId |
| CmdOpts.ApplyOptsAccepted | src/libmongoc/src/mongoc/mongoc-cmd.c:124-189 | an accepted first entry passes its new state on to the rest of the loop |
| CmdOpts.ApplyOptsExtra | src/libmongoc/src/mongoc/mongoc-cmd.c:124-191 | `extra` grows by exactly the routed entries before the first refused one (all of them on success), in order |
| CmdOpts.ApplyOptsReadConcern | src/libmongoc/src/mongoc/mongoc-cmd.c:148-170 | on success the read concern is that of the last "readConcern" entry, or unchanged if there is none |
| CmdOpts.RoutingExamples | src/libmongoc/src/mongoc/mongoc-cmd.c:125-133 | serverId and maxAwaitTimeMS change nothing; collation is refused before wire version 5 and copied from it on |
| CmdAssembly.Copied | src/libmongoc/src/mongoc/mongoc-cmd.c:369-377 | a command still at the body moves to `assembled_body`, which then holds body and `extra`; a command already copied is left alone |
| CmdAssembly.CopiedIdempotent | src/libmongoc/src/mongoc/mongoc-cmd.c:369-377 | copying twice is the same as copying once |
| CmdAssembly.CopiedKeepsBodyFirst | src/libmongoc/src/mongoc/mongoc-cmd.c:369-377 | copying a fresh command gives the body followed by `extra`, and `extra` counts as merged |
| CmdAssembly.Appended | src/libmongoc/src/mongoc/mongoc-cmd.c:859-863 | after "ensure copied, then append", the command is in `assembled_body` |
| CmdAssembly.AppendedExtendsCommand | src/libmongoc/src/mongoc/mongoc-cmd.c:859-863 | once `extra` is merged, copying and appending adds exactly the new entries at the end of the command |
| CmdAssembly.WithWriteConcern | src/libmongoc/src/mongoc/mongoc-cmd.c:380-390 | an empty write concern changes nothing |
| CmdAssembly.WithWriteConcernAppends | src/libmongoc/src/mongoc/mongoc-cmd.c:380-390 | once `extra` is merged, the write concern entry, if there is one, ends the command |
| CmdAssembly.WithReadConcernAsWritten | src/libmongoc/src/mongoc/mongoc-cmd.c:905-910 | as written, the read concern step never moves the command |
| CmdAssembly.ReadConcernAsWrittenMisplaced | src/libmongoc/src/mongoc/mongoc-cmd.c:905-916 | a concrete body whose read concern is lost as written, or put before the body when a write concern follows |
| CmdAssembly.WithReadConcern | src/libmongoc/src/mongoc/mongoc-cmd.c:905-910 | the corrected step changes nothing for an empty read concern |
| CmdAssembly.WithReadConcernAppends | src/libmongoc/src/mongoc/mongoc-cmd.c:905-910 | the corrected step appends the read concern entry at the end of the command |
| CmdAssembly.MongosReadPreferenceIffSent | src/libmongoc/src/mongoc/mongoc-cmd.c:498-531 | a legacy mongos command carries a top-level `$readPreference` if and only if one is sent |
| CmdAssembly.CommandDoc | src/libmongoc/src/mongoc/mongoc-cmd.c:779 | no contract; the document `assembled.command` points at |
| CmdAssembly.Merged | src/libmongoc/src/mongoc/mongoc-cmd.c:369-377 | no contract; `extra` has been merged into the command, the premise of AppendedExtendsCommand and the concern lemmas |
| CmdAssembly.WriteConcernEntry | src/libmongoc/src/mongoc/mongoc-cmd.c:380-390 | no contract; the writeConcern entry, none for an empty write concern |
| CmdAssembly.ReadConcernEntry | src/libmongoc/src/mongoc/mongoc-cmd.c:905-910 | no contract; the readConcern entry, none for an empty read concern |
| CmdAssembly.LegacyReadConcern | src/libmongoc/src/mongoc/mongoc-cmd.c:492-494 | no contract; a legacy command carries the read concern unless it is getMore (also 618-619) |
| CmdAssembly.LegacyConcerns | src/libmongoc/src/mongoc/mongoc-cmd.c:511-519 | no contract; the read then write concern entries inside a wrapped `$query` |
| CmdAssembly.MongodCommand | src/libmongoc/src/mongoc/mongoc-cmd.c:614-627 | no contract; body, `extra`, read concern, write concern, stated by Parts.AssembleMongod |
| CmdAssembly.QueryOf | src/libmongoc/src/mongoc/mongoc-cmd.c:502-508 | no contract; the user's `$query` document, or the body when there is none |
| CmdAssembly.MongosCommand | src/libmongoc/src/mongoc/mongoc-cmd.c:498-568 | no contract; the three legacy mongos shapes, stated by MongosReadPreferenceIffSent and Parts.AssembleMongos |
| CmdAssembly.WrappedQuery | src/libmongoc/src/mongoc/mongoc-cmd.c:500-521 | no contract; the `$query` field: the user's query, `extra` and the concerns |
| CmdAssembly.Unwrapped | src/libmongoc/src/mongoc/mongoc-cmd.c:525-528 | no contract; the body's fields outside a user `$query`, copied beside it |
| CmdOpMsg.DbEntry | src/libmongoc/src/mongoc/mongoc-cmd.c:810-812 | afterwards the command names its database; the entry is added if and only if the body lacks `$db`, and then it is `$db` holding the parts' database name |
| CmdOpMsg.ReadPrefsPart | src/libmongoc/src/mongoc/mongoc-cmd.c:814-825 | `$readPreference` goes into `extra` if and only if there is no transaction and the preference is not primary |
| CmdOpMsg.SessionUsed | src/libmongoc/src/mongoc/mongoc-cmd.c:831-840 | an explicit session is kept; an implicit one is used only for an acknowledged command with lsid allowed, and then the started session (if any) is used |
| CmdOpMsg.AllowTxnNumberAfter | src/libmongoc/src/mongoc/mongoc-cmd.c:869-877 | a decided allowance is kept; an undecided one stays undecided exactly for non-writes or a running transaction; otherwise it becomes yes if and only if `_allow_txn_number` holds |
| CmdOpMsg.ClusterTimeSent | src/libmongoc/src/mongoc/mongoc-cmd.c:866-890 | the cluster time sent is absent if and only if neither the server nor the session has one; it is one of theirs; when the server has one, it is the larger of the server's and the session's |
| CmdOpMsg.PrefsFor | src/libmongoc/src/mongoc/mongoc-cmd.c:800-807 | the read preference is replaced if and only if a read with a primary preference goes to a single non-mongos server, and then by primaryPreferred |
| CmdOpMsg.OpMsgKeepsCommandName | src/libmongoc/src/mongoc/mongoc-cmd.c:809-921 | everything is appended after the body, so the command keeps its name |
| CmdOpMsg.OpMsgLsidIffSession | src/libmongoc/src/mongoc/mongoc-cmd.c:849-867 | the command carries "lsid" if and only if it carries a session |
| CmdOpMsg.TxnReadPrefsRefused | src/libmongoc/src/mongoc/mongoc-cmd.c:814-822 | no contract; the read-preference error in a transaction, stated by OpMsgAssembleFailsExactly |
| CmdOpMsg.LsidEntry | src/libmongoc/src/mongoc/mongoc-cmd.c:859-863 | no contract; the lsid entry of the session, stated by OpMsgLsidIffSession |
| CmdOpMsg.TxnNumberEntry | src/libmongoc/src/mongoc/mongoc-cmd.c:882-883 | no contract; `txnNumber: 0` for a retryable write |
| CmdOpMsg.ClusterTimeEntry | src/libmongoc/src/mongoc/mongoc-cmd.c:892-896 | no contract; `$clusterTime` for any server but a standalone |
| CmdOpMsg.ReadConcernPart | src/libmongoc/src/mongoc/mongoc-cmd.c:898-911 | no contract; none for getMore, the session's fields with a session, else the readConcern entry |
| CmdOpMsg.WriteConcernPart | src/libmongoc/src/mongoc/mongoc-cmd.c:913-916 | no contract; the write concern unless a transaction is running that this command does not end |
| CmdOpMsg.OpMsgCommand | src/libmongoc/src/mongoc/mongoc-cmd.c:809-921 | no contract; the order of the OP_MSG command, stated by OpMsgAssembleCommand and OpMsgKeepsCommandName |
| CmdOpMsg.DbAndReadPrefsStep | src/libmongoc/src/mongoc/mongoc-cmd.c:810-825 | no contract; stated by OpMsgAssembleFailsExactly and OpMsgPreludeFields |
| CmdOpMsg.MergeStep | src/libmongoc/src/mongoc/mongoc-cmd.c:827-829 | no contract; stated by MergeStepMerges |
| CmdOpMsg.AdoptSession | src/libmongoc/src/mongoc/mongoc-cmd.c:836-839 | no contract; a started implicit session becomes the parts' temporary session, stated by SessionStepAppendsLsid |
| CmdOpMsg.LsidStep | src/libmongoc/src/mongoc/mongoc-cmd.c:849-863 | no contract; stated by SessionStepAppendsLsid |
| CmdOpMsg.SessionStep | src/libmongoc/src/mongoc/mongoc-cmd.c:831-867 | no contract; stated by SessionStepAppendsLsid |
| CmdOpMsg.TxnNumberStep | src/libmongoc/src/mongoc/mongoc-cmd.c:869-885 | no contract; stated by TxnNumberStepAppends |
| CmdOpMsg.ClusterTimeStep | src/libmongoc/src/mongoc/mongoc-cmd.c:887-896 | no contract; stated by ClusterTimeStepAppends |
| CmdOpMsg.ConcernsStep | src/libmongoc/src/mongoc/mongoc-cmd.c:898-916 | no contract; stated by ConcernsStepAppends (with the corrected read concern step of the Findings table) |
| CmdOpMsg.TxnFieldsStep | src/libmongoc/src/mongoc/mongoc-cmd.c:918-921 | no contract; stated by TxnFieldsStepAppends |
| CmdOpMsg.ExplicitSession | src/libmongoc/src/mongoc/mongoc-cmd.c:772 | no contract; the parts' session unless lsid is prohibited |
| CmdOpMsg.CommandSession | src/libmongoc/src/mongoc/mongoc-cmd.c:772-840 | no contract; the session the command carries, through SessionUsed |
| CmdOpMsg.OpMsgPrelude | src/libmongoc/src/mongoc/mongoc-cmd.c:810-867 | no contract; the first half of the branch, stated by OpMsgPreludeFields and refined by Parts.OpMsgBegin |
| CmdOpMsg.OpMsgFinish | src/libmongoc/src/mongoc/mongoc-cmd.c:869-923 | no contract; the second half, stated by OpMsgFinishKeeps and refined by Parts.OpMsgEnd |
| CmdOpMsg.OpMsgAssemble | src/libmongoc/src/mongoc/mongoc-cmd.c:809-923 | no contract; the whole branch, stated by OpMsgAssembleFailsExactly, OpMsgAssembleSession, OpMsgAssembleTxnNumber and OpMsgAssembleCommand, and refined by Parts.AssembleOpMsg |
| CmdOpMsg.MergeStepMerges | src/libmongoc/src/mongoc/mongoc-cmd.c:827-829 | after the merge the command is the body followed by `extra`, and nothing else changed |
| CmdOpMsg.SessionStepAppendsLsid | src/libmongoc/src/mongoc/mongoc-cmd.c:831-863 | the session step fails if and only if there is a session with an unacknowledged command; otherwise it appends exactly the "lsid" |
| CmdOpMsg.TxnNumberStepAppends | src/libmongoc/src/mongoc/mongoc-cmd.c:869-885 | settles the allowance; appends "txnNumber" and marks the command retryable exactly for a retryable write; keeps the session and `extra` |
| CmdOpMsg.ClusterTimeStepAppends | src/libmongoc/src/mongoc/mongoc-cmd.c:887-896 | appends the "$clusterTime" entry for anything but a standalone, and changes nothing else |
| CmdOpMsg.ConcernsStepAppends | src/libmongoc/src/mongoc/mongoc-cmd.c:898-916 | appends the read concern part (none for getMore, the session's with a session), then the write concern unless inside a transaction it does not end; without a session it uses the corrected read concern step of the Findings table |
| CmdOpMsg.TxnFieldsStepAppends | src/libmongoc/src/mongoc/mongoc-cmd.c:918-921 | fails if and only if the session's transaction fields cannot be produced; otherwise they end the command |
| CmdOpMsg.OpMsgAssembleFailsExactly | src/libmongoc/src/mongoc/mongoc-cmd.c:809-923 | OP_MSG assembly fails if and only if: a read in a transaction without a primary preference, a session on an unacknowledged command, or failed transaction fields |
| CmdOpMsg.OpMsgAssembleSession | src/libmongoc/src/mongoc/mongoc-cmd.c:809-867 | after assembly the parts hold the command's session, with an implicit one marked temporary, and `extra` holds `$db` and the preference sent |
| CmdOpMsg.OpMsgAssembleTxnNumber | src/libmongoc/src/mongoc/mongoc-cmd.c:869-885 | after assembly the allowance is settled, and the retryable mark is set exactly for a retryable write |
| CmdOpMsg.OpMsgPreludeFields | src/libmongoc/src/mongoc/mongoc-cmd.c:810-863 | the first half sets the session, the temporary mark and `extra`, and leaves the transaction-number fields |
| CmdOpMsg.OpMsgFinishKeeps | src/libmongoc/src/mongoc/mongoc-cmd.c:869-921 | the second half changes only the command and what the "txnNumber" step settles |
| CmdOpMsg.LastStepsChangeOnlyAssembly | src/libmongoc/src/mongoc/mongoc-cmd.c:887-921 | the cluster time, concern and transaction steps change nothing but the command |
| CmdOpMsg.OpMsgAssembleCommand | src/libmongoc/src/mongoc/mongoc-cmd.c:809-921 | the command is body, `extra`, lsid, txnNumber, $clusterTime, read concern part, write concern part, transaction fields, in that order (with the corrected read concern step of the Findings table) |
| CmdParts.DollarQueryIsDocument | src/libmongoc/src/mongoc/mongoc-cmd.c:421-430 | no contract; `_iter_concat` asserts a `$query` field holds a document; a requires of Parts.Assemble |
| CmdParts.SessionIdsAllowed | src/libmongoc/src/mongoc/mongoc-cmd.c:171-180 | no contract; `append_opts` asserts no session is set when it meets a sessionId; a requires of Parts.AppendOpts |
| CmdParts.Parts.constructor | src/libmongoc/src/mongoc/mongoc-cmd.c:28-58 | the initial state: unassembled, no session, acknowledged, undecided transaction number, every document empty |
| CmdParts.Parts.SetSession | src/libmongoc/src/mongoc/mongoc-cmd.c:75-84 | before assembly, and only once, the session is recorded |
| CmdParts.Parts.SetWriteConcern | src/libmongoc/src/mongoc/mongoc-cmd.c:254-293 | fails only for an empty command given a write concern; keeps the write concern and its acknowledgement only where allowed |
| CmdParts.Parts.SetReadConcern | src/libmongoc/src/mongoc/mongoc-cmd.c:204-249 | succeeds without effect in a transaction; otherwise fails for an empty command, succeeds without effect for the default concern, fails before wire version 4, and otherwise keeps the concern |
| CmdParts.Parts.AppendOpts | src/libmongoc/src/mongoc/mongoc-cmd.c:107-192 | the loop's result and new state are those of the options function, itself proved by the CmdOpts lemmas |
| CmdParts.Parts.AppendOpt | src/libmongoc/src/mongoc/mongoc-cmd.c:124-188 | one turn does what one step of the options function does; a refused turn changes nothing |
| CmdParts.Parts.AppendReadWrite | src/libmongoc/src/mongoc/mongoc-cmd.c:315-365 | fails if and only if collation or read concern needs a newer server, or a write concern comes with an empty command; states every field changed, including after a failure part way |
| CmdParts.Parts.EnsureCopied | src/libmongoc/src/mongoc/mongoc-cmd.c:369-377 | the new command state is the copy of the old |
| CmdParts.Parts.AppendToCommand | src/libmongoc/src/mongoc/mongoc-cmd.c:859-863 | the new command state is the old one, copied if need be, with the entries appended |
| CmdParts.Parts.AddWriteConcern | src/libmongoc/src/mongoc/mongoc-cmd.c:380-390 | the new command state is the old one with the write concern added |
| CmdParts.Parts.AppendLegacyConcerns | src/libmongoc/src/mongoc/mongoc-cmd.c:553-563 | a copy of body, `extra` and both concerns, or the untouched body when there are no concerns |
| CmdParts.Parts.SetMongosSlaveOk | src/libmongoc/src/mongoc/mongoc-cmd.c:475-490 | returns the routing for the read mode, and sets slaveOK exactly when that routing says so |
| CmdParts.Parts.AssembleMongos | src/libmongoc/src/mongoc/mongoc-cmd.c:436-571 | the flags and the command are those of the mongos rule and the legacy mongos shape |
| CmdParts.Parts.BuildMongosCommand | src/libmongoc/src/mongoc/mongoc-cmd.c:498-568 | the command is the legacy mongos shape for the chosen routing |
| CmdParts.Parts.BuildWrappedQuery | src/libmongoc/src/mongoc/mongoc-cmd.c:498-552 | with a preference to send or the caller's own `$query`, the command is the wrapped form in `assembled_body` |
| CmdParts.Parts.BuildPlainCommand | src/libmongoc/src/mongoc/mongoc-cmd.c:553-568 | otherwise the command is the body, `extra` and the concerns |
| CmdParts.Parts.WrapQuery | src/libmongoc/src/mongoc/mongoc-cmd.c:498-552 | `assembled_body` is `$query`, then the preference if sent, then the body's fields outside its own `$query` |
| CmdParts.Parts.SetMongodSlaveOk | src/libmongoc/src/mongoc/mongoc-cmd.c:580-612 | sets slaveOK exactly as the mongod rule says |
| CmdParts.Parts.AssembleMongod | src/libmongoc/src/mongoc/mongoc-cmd.c:574-630 | the flags follow the mongod rule; the command is body, `extra`, the read concern (none for getMore), then the write concern |
| CmdParts.Parts.AddDbAndReadPrefs | src/libmongoc/src/mongoc/mongoc-cmd.c:810-825 | succeeds if and only if the `$db`/read-preference step does, leaving the state it gives |
| CmdParts.Parts.MergeExtra | src/libmongoc/src/mongoc/mongoc-cmd.c:827-829 | the new state is the merge step's |
| CmdParts.Parts.AdoptImplicitSession | src/libmongoc/src/mongoc/mongoc-cmd.c:831-840 | returns the session the command carries and records an implicit one as temporary |
| CmdParts.Parts.AppendLsid | src/libmongoc/src/mongoc/mongoc-cmd.c:849-863 | fails if and only if a session meets an unacknowledged command; otherwise appends "lsid" |
| CmdParts.Parts.AddSession | src/libmongoc/src/mongoc/mongoc-cmd.c:831-863 | succeeds if and only if the session step does, leaving its state, and returns the session used |
| CmdParts.Parts.AddTxnNumber | src/libmongoc/src/mongoc/mongoc-cmd.c:869-885 | the new state is the "txnNumber" step's |
| CmdParts.Parts.AddClusterTime | src/libmongoc/src/mongoc/mongoc-cmd.c:887-896 | the new state is the "$clusterTime" step's |
| CmdParts.Parts.AddConcerns | src/libmongoc/src/mongoc/mongoc-cmd.c:898-916 | the new state is the concerns step's, with the corrected read concern step of the Findings table |
| CmdParts.Parts.AddTxnFields | src/libmongoc/src/mongoc/mongoc-cmd.c:918-921 | succeeds if and only if the transaction fields can be produced, and appends them |
| CmdParts.Parts.AddDbAndMerge | src/libmongoc/src/mongoc/mongoc-cmd.c:810-829 | the `$db`/read-preference step followed by the merge |
| CmdParts.Parts.OpMsgBegin | src/libmongoc/src/mongoc/mongoc-cmd.c:810-867 | succeeds if and only if the first half of the OP_MSG branch does, leaving its state, and returns the command's session |
| CmdParts.Parts.AddTxnNumberAndClusterTime | src/libmongoc/src/mongoc/mongoc-cmd.c:869-896 | the "txnNumber" step followed by the "$clusterTime" step |
| CmdParts.Parts.AddConcernsAndTxnFields | src/libmongoc/src/mongoc/mongoc-cmd.c:898-921 | the concerns step followed by the transaction-fields step |
| CmdParts.Parts.OpMsgEnd | src/libmongoc/src/mongoc/mongoc-cmd.c:869-923 | succeeds if and only if the second half of the OP_MSG branch does, leaving its state |
| CmdParts.Parts.AssembleOpMsg | src/libmongoc/src/mongoc/mongoc-cmd.c:809-923 | succeeds if and only if OP_MSG assembly does, leaving the state it specifies; the CmdOpMsg lemmas describe that state |
| CmdParts.Parts.BeginAssembly | src/libmongoc/src/mongoc/mongoc-cmd.c:771-798 | the command starts as the body with the user's flags, the server stream and the command name; commitTransaction and abortTransaction are marked as transaction ends |
| CmdParts.Parts.Assemble | src/libmongoc/src/mongoc/mongoc-cmd.c:752-935 | an empty command fails; OP_MSG servers get the OP_MSG state; older mongos and mongod get the legacy command and flags, and succeed; an empty command and the legacy paths leave `extra`, the session and the transaction-number fields as they were |

## Left out

- Rendering the generator's Jinja templates and writing the files (generate-future-functions.py:117-138) is I/O. `Generate` models only which files a run writes.
- The C spellings in the typedef table are kept as data. The headers and the `future_t` machinery generated from them are not part of this model.
- `mongoc_cmd_parts_cleanup` (mongoc-cmd.c:951-962) frees memory and ends a temporary session. Memory management is not modelled; the model only records `has_temp_session`.
- The temporary read preference allocated and destroyed by assembly (mongoc-cmd.c:803, 933) is modelled as a plain value.
- Error codes and messages are not modelled. A failure is a `false` result.
- Tracing (`ENTRY`, `TRACE`, `RETURN`) is left out.
- A BSON append that fails because the document is too large (mongoc-cmd.c:186-188, 332-335, 360-362) is not modelled; appends always succeed.
- `_mongoc_get_command_name` is taken as "the first key, or none for an empty document". Its unwrapping of `$query` and `query` lives in mongoc-util.c, which is not part of this model.
- The collaborators are inputs, reduced to the values they produce. A session is a record of its flags, lsid, transaction read preference and cluster time. The other inputs are:
  - write concern parsing and the session lookup by id;
  - `mongoc_client_start_session`;
  - the cluster-time comparison;
  - the retryWrites URI option;
  - the fields `_mongoc_client_session_append_read_concern` and `_mongoc_client_session_append_txn` append.
- The session's `last_used_usec` update (mongoc-cmd.c:865) reads the monotonic clock and is left out.
- The client pointer and the payload fields of `assembled` are not modelled.
- Query flags are the set of their bits. Only slaveOK is ever added; the other bits are carried through unchanged.
- The wire-version constants and `MONGOC_QUERY_SLAVE_OK` are defined in headers that are not part of this model. The values used are those of the driver's client header of that era: 4 for findAndModify write concern and read concern, 5 for collation and command write concern, 6 for OP_MSG and retryable writes.
- CmdOpMsg.ConcernsStep, CmdOpMsg.ConcernsStepAppends, CmdOpMsg.OpMsgAssembleCommand, CmdParts.Parts.AddConcerns and CmdParts.Parts.Assemble: without a session they use the corrected read concern step (`CmdAssembly.WithReadConcern`, copy then append), not mongoc-cmd.c:905-910 as written, which appends to `assembled_body` without copying the body. The code as written is modelled separately by `CmdAssembly.WithReadConcernAsWritten` (see Findings). So when nothing earlier copied the body, the OP_MSG model does not reproduce the lost or misplaced read concern the source would send.
- CmdParts.Parts.Assemble: after a failed OP_MSG assembly the state of the parts is left unspecified, because the source says the parts must not be used after an error. After a success, and on every path of a pre-OP_MSG server, the flags, the command and the fields assembly changes are stated.
- CmdParts.Parts.constructor: `assembled.command_name` and `assembled.server_stream` are left unset by `mongoc_cmd_parts_init`. The model starts them as none; assembly sets both before reading them.
- The descriptions of the generator say the validation also checks return kinds and rejects duplicate kind names. The code does neither, and the model follows the code; `ValidateIgnoresReturnKind` states the first point. The duplicate-name check is replaced by a proof that the shipped table has no duplicates (`TypeListDistinct`).
- Concurrency (the generated futures run on background threads) is outside the modelled code.

## Findings

| source | as written | input that shows it | evidently intended | confidence | as-written member | corrected member |
|---|---|---|---|---|---|---|
| src/libmongoc/src/mongoc/mongoc-cmd.c:905-910 | without a session, OP_MSG assembly appends the read concern to `assembled_body` without calling `_mongoc_cmd_parts_ensure_copied` | body `{find: "coll", $db: "db"}` with a primary read preference, sent to the primary of a replica set (not a single server, where the preference becomes primaryPreferred and copies the body), no explicit session and none that can be started implicitly (for example, the deployment reports no logical session timeout, so mongoc-cmd.c:833-840 start none), no retryable write, neither the server nor a session holding a cluster time, read concern `{level: "majority"}`: without a write concern the command sent is `{find, $db}`, the read concern lost; with write concern `{w: 1}` it is `{readConcern, find, $db, writeConcern}`, named "readConcern" | copy the body first, as the mongod path does at mongoc-cmd.c:618-624, so the read concern follows the body | not executed | CmdAssembly.ReadConcernAsWrittenMisplaced | CmdAssembly.WithReadConcernAppends |
