/**
 * What `mongoc_cmd_parts_append_opts` does with an options document, one entry
 * at a time: which keys it consumes, which it drops, which it copies into
 * `extra`, and which entries make it stop with an error.
 */
module CmdOpts {
  import opened Wrappers
  import opened Bson
  import opened CmdTypes
  import opened CmdDeciders

  /** The fields of `mongoc_cmd_parts_t` that applying options may change. */
  datatype OptsState = OptsState(extra: Doc, readConcern: Doc, writeConcern: Doc, isAcknowledged: bool,
                                 session: Option<Session>)

  /**
   * What the entries are read against: the server's wire version, the command's name and
   * kind, and the two parsers the loop calls (`_mongoc_write_concern_new_from_iter` and
   * `_mongoc_client_session_from_iter`), which may refuse a value.
   */
  datatype OptsContext = OptsContext(maxWireVersion: int, commandName: Option<string>, isWriteCommand: bool,
                                     parseWriteConcern: Value -> Option<WriteConcern>,
                                     sessionFromValue: Value -> Option<Session>)

  datatype OptsOutcome = OptsOutcome(ok: bool, state: OptsState)

  /** Keys the loop handles itself and never copies into `extra`. */
  predicate Consumed(key: string)
  {
    key == "writeConcern" || key == "readConcern" || key == "sessionId" || key == "serverId" || key == "maxAwaitTimeMS"
  }

  /** `mongoc_cmd_parts_set_write_concern` with a write concern present. */
  function SetWriteConcernStep(st: OptsState, wc: WriteConcern, ctx: OptsContext): Option<OptsState>
  {
    if ctx.commandName.None? then None
    else if WriteConcernAllowed(ctx.isWriteCommand, ctx.commandName.value, ctx.maxWireVersion)
    then Some(st.(isAcknowledged := wc.isAcknowledged, writeConcern := wc.doc))
    else Some(st)
  }

  /** One turn of the loop; none means it returned false. */
  function ApplyOpt(st: OptsState, key: string, v: Value, ctx: OptsContext): Option<OptsState>
  {
    if key == "collation" then
      if ctx.maxWireVersion < WireVersionCollation then None else Some(st.(extra := st.extra + [(key, v)]))
    else if key == "writeConcern" then
      match ctx.parseWriteConcern(v)
      case None => None
      case Some(wc) => SetWriteConcernStep(st, wc, ctx)
    else if key == "readConcern" then
      if ctx.maxWireVersion < WireVersionReadConcern then None
      else if !v.Document? then None
      else Some(st.(readConcern := v.fields))
    else if key == "sessionId" then
      match ctx.sessionFromValue(v)
      case None => None
      case Some(cs) => Some(st.(session := Some(cs)))
    else if key == "serverId" || key == "maxAwaitTimeMS" then Some(st)
    else Some(st.(extra := st.extra + [(key, v)]))
  }

  /** The whole loop: stop at the first refused entry, keeping what the earlier entries did. */
  function ApplyOpts(st: OptsState, opts: Doc, ctx: OptsContext): OptsOutcome
    decreases |opts|
  {
    if opts == [] then OptsOutcome(true, st)
    else match ApplyOpt(st, opts[0].0, opts[0].1, ctx)
      case None => OptsOutcome(false, st)
      case Some(st') => ApplyOpts(st', opts[1..], ctx)
  }

  /** Whether an entry is refused: this does not depend on what earlier entries did. */
  predicate Refused(key: string, v: Value, ctx: OptsContext)
  {
    (key == "collation" && ctx.maxWireVersion < WireVersionCollation)
    || (key == "writeConcern" && (ctx.parseWriteConcern(v).None? || ctx.commandName.None?))
    || (key == "readConcern" && (ctx.maxWireVersion < WireVersionReadConcern || !v.Document?))
    || (key == "sessionId" && ctx.sessionFromValue(v).None?)
  }

  /** The entries the loop copies into `extra`, in iteration order. */
  function Routed(opts: Doc): (r: Doc)
    ensures forall e :: e in r <==> e in opts && !Consumed(e.0)
  {
    if opts == [] then []
    else if Consumed(opts[0].0) then Routed(opts[1..])
    else [opts[0]] + Routed(opts[1..])
  }

  lemma ApplyOptRefused(st: OptsState, key: string, v: Value, ctx: OptsContext)
    ensures ApplyOpt(st, key, v, ctx).None? <==> Refused(key, v, ctx)
    ensures ApplyOpt(st, key, v, ctx).Some? ==>
              ApplyOpt(st, key, v, ctx).value.extra == st.extra + Routed([(key, v)])
  {
    assert Routed([(key, v)]) == if Consumed(key) then [] else [(key, v)] by {
      assert [(key, v)][1..] == [];
    }
  }

  /** The options are applied exactly when no entry is refused. */
  lemma {:induction false} ApplyOptsOkIff(st: OptsState, opts: Doc, ctx: OptsContext)
    ensures ApplyOpts(st, opts, ctx).ok <==> forall i :: 0 <= i < |opts| ==> !Refused(opts[i].0, opts[i].1, ctx)
    decreases |opts|
  {
    if opts != [] {
      ApplyOptRefused(st, opts[0].0, opts[0].1, ctx);
      match ApplyOpt(st, opts[0].0, opts[0].1, ctx)
      case None =>
      case Some(st') =>
        ApplyOptsOkIff(st', opts[1..], ctx);
        assert forall i :: 1 <= i < |opts| ==> opts[i] == opts[1..][i - 1];
    }
  }

  /** A turn the loop accepts hands the rest of the options the new state, with its routed entry in `extra`. */
  lemma ApplyOptsAccepted(st: OptsState, opts: Doc, ctx: OptsContext)
    requires opts != [] && !Refused(opts[0].0, opts[0].1, ctx)
    ensures ApplyOpt(st, opts[0].0, opts[0].1, ctx).Some?
    ensures var st' := ApplyOpt(st, opts[0].0, opts[0].1, ctx).value;
            ApplyOpts(st, opts, ctx) == ApplyOpts(st', opts[1..], ctx) && st'.extra == st.extra + Routed([opts[0]])
  {
    ApplyOptRefused(st, opts[0].0, opts[0].1, ctx);
  }

  /** The routed entries of a non-empty prefix: those of its head, then those of the rest. */
  lemma RoutedPrefix(opts: Doc, n: nat)
    requires 0 < n <= |opts|
    ensures Routed(opts[..n]) == Routed([opts[0]]) + Routed(opts[1..][..n - 1])
  {
    assert opts[..n] == [opts[0]] + opts[1..][..n - 1];
    RoutedConcat([opts[0]], opts[1..][..n - 1]);
  }

  /**
   * `extra` grows by exactly the routed entries: on success those of all the options,
   * after a refusal those before the first refused entry.
   */
  lemma {:induction false} ApplyOptsExtra(st: OptsState, opts: Doc, ctx: OptsContext, n: nat)
    requires n <= |opts|
    requires forall i :: 0 <= i < n ==> !Refused(opts[i].0, opts[i].1, ctx)
    requires n == |opts| || Refused(opts[n].0, opts[n].1, ctx)
    ensures ApplyOpts(st, opts, ctx).state.extra == st.extra + Routed(opts[..n])
    decreases |opts|
  {
    if n == 0 {
      assert opts[..n] == [];
      if opts != [] {
        ApplyOptRefused(st, opts[0].0, opts[0].1, ctx);
      }
    } else {
      ApplyOptsAccepted(st, opts, ctx);
      var st' := ApplyOpt(st, opts[0].0, opts[0].1, ctx).value;
      assert forall i :: 0 <= i < n - 1 ==> opts[1..][i] == opts[i + 1];
      ApplyOptsExtra(st', opts[1..], ctx, n - 1);
      RoutedPrefix(opts, n);
      var head, tail := Routed([opts[0]]), Routed(opts[1..][..n - 1]);
      assert (st.extra + head) + tail == st.extra + (head + tail);
    }
  }

  /** Routing drops only consumed entries: it never grows, and keeps a document with none of them as it is. */
  lemma {:induction false} RoutedKeepsOthers(opts: Doc)
    ensures |Routed(opts)| <= |opts|
    ensures (forall i :: 0 <= i < |opts| ==> !Consumed(opts[i].0)) ==> Routed(opts) == opts
  {
    if opts != [] {
      RoutedKeepsOthers(opts[1..]);
      assert (forall i :: 0 <= i < |opts| ==> !Consumed(opts[i].0)) ==>
               (forall i :: 0 <= i < |opts[1..]| ==> !Consumed(opts[1..][i].0)) by {
        forall i | 0 <= i < |opts[1..]| ensures opts[1..][i] == opts[i + 1] { }
      }
      assert [opts[0]] + opts[1..] == opts;
    }
  }

  lemma {:induction false} RoutedConcat(a: Doc, b: Doc)
    ensures Routed(a + b) == Routed(a) + Routed(b)
  {
    if a == [] {
      assert a + b == b;
    } else {
      assert (a + b)[0] == a[0];
      assert (a + b)[1..] == a[1..] + b;
      RoutedConcat(a[1..], b);
    }
  }

  /**
   * The read concern left behind is the document of the last "readConcern" entry, if the
   * options are applied; with no such entry it is unchanged.
   */
  function LastReadConcern(opts: Doc, default: Doc): Doc
  {
    if opts == [] then default
    else if opts[0].0 == "readConcern" && opts[0].1.Document? then LastReadConcern(opts[1..], opts[0].1.fields)
    else LastReadConcern(opts[1..], default)
  }

  lemma {:induction false} ApplyOptsReadConcern(st: OptsState, opts: Doc, ctx: OptsContext)
    requires ApplyOpts(st, opts, ctx).ok
    ensures ApplyOpts(st, opts, ctx).state.readConcern == LastReadConcern(opts, st.readConcern)
    decreases |opts|
  {
    if opts != [] {
      var st' := ApplyOpt(st, opts[0].0, opts[0].1, ctx).value;
      ApplyOptsReadConcern(st', opts[1..], ctx);
    }
  }

  /** The dropped keys change nothing, and "collation" is kept once the server supports it. */
  lemma RoutingExamples(st: OptsState, ctx: OptsContext, v: Value)
    ensures ApplyOpt(st, "serverId", v, ctx) == Some(st)
    ensures ApplyOpt(st, "maxAwaitTimeMS", v, ctx) == Some(st)
    ensures ctx.maxWireVersion >= WireVersionCollation ==>
              ApplyOpt(st, "collation", v, ctx) == Some(st.(extra := st.extra + [("collation", v)]))
    ensures ctx.maxWireVersion < WireVersionCollation ==> ApplyOpt(st, "collation", v, ctx).None?
  {
  }
}
