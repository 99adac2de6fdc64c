/**
 * What `assembled.command` designates while a command is assembled, and how the
 * steps of assembly change it. The command starts out as the caller's body; the
 * first step that must add a field copies body and `extra` into `assembled_body`
 * and points the command there, and later steps append to `assembled_body`.
 */
module CmdAssembly {
  import opened Wrappers
  import opened Bson

  /** Where `assembled.command` points: nowhere yet, at `body`, or at `assembled_body`. */
  datatype CommandRef = Unassembled | AtBody | AtAssembledBody

  datatype Assembly = Assembly(command: CommandRef, assembledBody: Doc)

  /** The document `assembled.command` designates (none before assembly begins). */
  function CommandDoc(a: Assembly, body: Doc): Doc
  {
    match a.command
    case Unassembled => []
    case AtBody => body
    case AtAssembledBody => a.assembledBody
  }

  /**
   * Extra has been merged: assembly has begun, and either the command still is the body
   * with nothing pending, or it is `assembled_body`.
   */
  predicate Merged(a: Assembly, extra: Doc)
  {
    a.command != Unassembled && (a.command == AtBody ==> a.assembledBody == [] && extra == [])
  }

  /** `_mongoc_cmd_parts_ensure_copied`. */
  function Copied(a: Assembly, body: Doc, extra: Doc): (r: Assembly)
    ensures r.command != AtBody
    ensures a.command == AtBody ==> r.command == AtAssembledBody && CommandDoc(r, body) == a.assembledBody + body + extra
    ensures a.command != AtBody ==> r == a
  {
    if a.command == AtBody then Assembly(AtAssembledBody, a.assembledBody + body + extra) else a
  }

  /** A second copy changes nothing. */
  lemma CopiedIdempotent(a: Assembly, body: Doc, extra: Doc)
    ensures Copied(Copied(a, body, extra), body, extra) == Copied(a, body, extra)
  {
  }

  /** Copying a fresh command yields the body followed by `extra`, so the command name is kept. */
  lemma CopiedKeepsBodyFirst(a: Assembly, body: Doc, extra: Doc)
    requires a.command == AtBody && a.assembledBody == []
    ensures CommandDoc(Copied(a, body, extra), body) == body + extra
    ensures Merged(Copied(a, body, extra), extra)
  {
  }

  /** The pattern "ensure copied, then append to `assembled_body`". */
  function Appended(a: Assembly, body: Doc, extra: Doc, entries: Doc): (r: Assembly)
    ensures r.command == AtAssembledBody || (a.command == Unassembled && r.command == Unassembled)
  {
    var c := Copied(a, body, extra);
    c.(assembledBody := c.assembledBody + entries)
  }

  /** Once extra is merged, appending after a copy adds exactly the entries to the command. */
  lemma AppendedExtendsCommand(a: Assembly, body: Doc, extra: Doc, entries: Doc)
    requires Merged(a, extra)
    ensures CommandDoc(Appended(a, body, extra, entries), body) == CommandDoc(a, body) + entries
    ensures Merged(Appended(a, body, extra, entries), extra)
  {
    if a.command == AtBody {
      assert CommandDoc(a, body) + extra == body;
    }
  }

  function WriteConcernEntry(wc: Doc): Doc
  {
    if wc == [] then [] else [("writeConcern", Document(wc))]
  }

  function ReadConcernEntry(rc: Doc): Doc
  {
    if rc == [] then [] else [("readConcern", Document(rc))]
  }

  /** `_mongoc_cmd_parts_add_write_concern`. */
  function WithWriteConcern(a: Assembly, body: Doc, extra: Doc, wc: Doc): (r: Assembly)
    ensures wc == [] ==> r == a
  {
    if wc == [] then a else Appended(a, body, extra, WriteConcernEntry(wc))
  }

  /** Once extra is merged, adding the write concern appends it to the command, if there is one. */
  lemma WithWriteConcernAppends(a: Assembly, body: Doc, extra: Doc, wc: Doc)
    requires Merged(a, extra)
    ensures CommandDoc(WithWriteConcern(a, body, extra, wc), body) == CommandDoc(a, body) + WriteConcernEntry(wc)
    ensures Merged(WithWriteConcern(a, body, extra, wc), extra)
  {
    if wc != [] {
      AppendedExtendsCommand(a, body, extra, WriteConcernEntry(wc));
    }
  }

  /**
   * The read concern step of OP_MSG assembly without a session, as written: the entry is
   * appended to `assembled_body` whether or not the command points there yet.
   */
  function WithReadConcernAsWritten(a: Assembly, rc: Doc): (r: Assembly)
    ensures r.command == a.command
  {
    a.(assembledBody := a.assembledBody + ReadConcernEntry(rc))
  }

  /**
   * As written, a command whose body is still uncopied loses its read concern; if a write
   * concern follows, the read concern ends up first, so the server would see a command
   * named "readConcern".
   */
  lemma ReadConcernAsWrittenMisplaced()
    ensures var body := [("find", Utf8("coll")), ("$db", Utf8("db"))];
            var rc := [("level", Utf8("majority"))];
            var wc := [("w", Int64(1))];
            var a := Assembly(AtBody, []);
            Merged(a, [])
            && CommandDoc(WithReadConcernAsWritten(a, rc), body) == body
            && CommandDoc(WithWriteConcern(WithReadConcernAsWritten(a, rc), body, [], wc), body)
               == ReadConcernEntry(rc) + body + WriteConcernEntry(wc)
            && CommandDoc(WithWriteConcern(WithReadConcernAsWritten(a, rc), body, [], wc), body)[0].0 == "readConcern"
  {
  }

  /** The read concern step as intended: copy first, then append. */
  function WithReadConcern(a: Assembly, body: Doc, extra: Doc, rc: Doc): (r: Assembly)
    ensures rc == [] ==> r == a
  {
    if rc == [] then a else Appended(a, body, extra, ReadConcernEntry(rc))
  }

  /** Once extra is merged, the corrected step appends the read concern to the command, if there is one. */
  lemma WithReadConcernAppends(a: Assembly, body: Doc, extra: Doc, rc: Doc)
    requires Merged(a, extra)
    ensures CommandDoc(WithReadConcern(a, body, extra, rc), body) == CommandDoc(a, body) + ReadConcernEntry(rc)
    ensures Merged(WithReadConcern(a, body, extra, rc), extra)
  {
    if rc != [] {
      AppendedExtendsCommand(a, body, extra, ReadConcernEntry(rc));
    }
  }

  /** The read concern entry of a legacy (pre-OP_MSG) command; getMore takes none. */
  function LegacyReadConcern(rc: Doc, commandName: string): Doc
  {
    if commandName != "getMore" then ReadConcernEntry(rc) else []
  }

  /** The read and write concern entries of a legacy command. */
  function LegacyConcerns(rc: Doc, wc: Doc, commandName: string): Doc
  {
    LegacyReadConcern(rc, commandName) + WriteConcernEntry(wc)
  }

  /** The command `_mongoc_cmd_parts_assemble_mongod` produces. */
  function MongodCommand(body: Doc, extra: Doc, rc: Doc, wc: Doc, commandName: string): Doc
  {
    body + extra + LegacyReadConcern(rc, commandName) + WriteConcernEntry(wc)
  }

  /** The user's `$query` document, when the body wraps one, else the body. */
  function QueryOf(body: Doc): Doc
  {
    match Find(body, "$query")
    case Some(Document(fields)) => fields
    case _ => body
  }

  /**
   * The command `_mongoc_cmd_parts_assemble_mongos` produces: with a read preference to send,
   * `{$query: {...}, $readPreference: {...}}` plus the body's other fields when it wrapped a
   * `$query`; with a wrapped `$query` and no read preference, the same without
   * `$readPreference`; otherwise the body followed by extra and the concerns.
   */
  function MongosCommand(body: Doc, extra: Doc, rc: Doc, wc: Doc, commandName: string,
                         readPrefs: Option<(string, Value)>): Doc
  {
    var query := WrappedQuery(body, extra, rc, wc, commandName);
    if readPrefs.Some? then [query, readPrefs.value] + Unwrapped(body)
    else if HasKey(body, "$query") then [query] + Unwrapped(body)
    else body + extra + LegacyReadConcern(rc, commandName) + WriteConcernEntry(wc)
  }

  /** The `$query` field sent to mongos: the user's query, extra and the concerns. */
  function WrappedQuery(body: Doc, extra: Doc, rc: Doc, wc: Doc, commandName: string): (string, Value)
  {
    ("$query", Document(QueryOf(body) + extra + LegacyConcerns(rc, wc, commandName)))
  }

  /** The body's fields outside a user-supplied `$query`, which travel beside the wrapped query. */
  function Unwrapped(body: Doc): Doc
  {
    if HasKey(body, "$query") then Excluding(body, "$query") else []
  }

  /**
   * Through mongos the command carries a top-level `$readPreference` exactly when one is
   * sent, provided neither the body nor the other options already carry one.
   */
  lemma MongosReadPreferenceIffSent(body: Doc, extra: Doc, rc: Doc, wc: Doc, commandName: string,
                                    readPrefs: Option<(string, Value)>)
    requires !HasKey(body, "$readPreference") && !HasKey(extra, "$readPreference")
    requires readPrefs.Some? ==> readPrefs.value.0 == "$readPreference"
    ensures HasKey(MongosCommand(body, extra, rc, wc, commandName, readPrefs), "$readPreference") <==> readPrefs.Some?
  {
    var k := "$readPreference";
    var query := WrappedQuery(body, extra, rc, wc, commandName);
    var rest := Unwrapped(body);
    assert !HasKey(rest, k);
    var concerns := LegacyConcerns(rc, wc, commandName);
    HasKeyConcat(LegacyReadConcern(rc, commandName), WriteConcernEntry(wc), k);
    if readPrefs.Some? {
      assert MongosCommand(body, extra, rc, wc, commandName, readPrefs)[1].0 == k;
    } else if HasKey(body, "$query") {
      HasKeyConcat([query], rest, k);
    } else {
      HasKeyConcat(body, extra, k);
      HasKeyConcat(body + extra, concerns, k);
    }
  }
}
