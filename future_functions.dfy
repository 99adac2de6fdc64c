/**
 * The descriptor tables of the future-function generator and the check it runs
 * before rendering any template: every parameter of every future function must
 * name a registered value kind.
 */
module FutureFunctions {
  import opened Wrappers

  /** A registered value kind: its name and, for derived types, the C type it abbreviates. */
  datatype Typedef = Typedef(name: string, cType: Option<string>)

  datatype Param = Param(typeName: string, name: string)

  /** One wrapped blocking operation: its return kind, its name and its ordered parameters. */
  datatype FutureFunction = FutureFunction(retType: string, name: string, params: seq<Param>)

  /** The outcome of the check: success, or the first bad type and the descriptor that used it. */
  datatype Validation = Ok | BadType(typeName: string, fn: FutureFunction)

  /** What one run of the generator does: raise before writing anything, or write every output file. */
  datatype Generation = Raised(typeName: string, fn: FutureFunction) | Emitted(files: seq<string>)

  const TypedefList: seq<Typedef> := [
    Typedef("bool", None),
    Typedef("bson_error_ptr", Some("bson_error_t *")),
    Typedef("bson_ptr", Some("bson_t *")),
    Typedef("char_ptr", Some("char *")),
    Typedef("char_ptr_ptr", Some("char **")),

    Typedef("const_char_ptr", Some("const char *")),
    Typedef("const_bson_ptr", Some("const bson_t *")),
    Typedef("const_bson_ptr_ptr", Some("const bson_t **")),
    Typedef("const_mongoc_read_prefs_ptr", Some("const mongoc_read_prefs_t *")),

    Typedef("mongoc_bulk_operation_ptr", Some("mongoc_bulk_operation_t *")),
    Typedef("mongoc_client_ptr", Some("mongoc_client_t *")),
    Typedef("mongoc_cursor_ptr", Some("mongoc_cursor_t *")),
    Typedef("mongoc_database_ptr", Some("mongoc_database_t *")),
    Typedef("mongoc_query_flags_t", None),
    Typedef("uint32_t", None)
  ]

  /** `[T.name for T in ts]`. */
  function Names(ts: seq<Typedef>): (r: seq<string>)
    ensures |r| == |ts|
    ensures forall i :: 0 <= i < |ts| ==> r[i] == ts[i].name
  {
    seq(|ts|, i requires 0 <= i < |ts| => ts[i].name)
  }

  const TypeList: seq<string> := Names(TypedefList)

  const FutureFunctionList: seq<FutureFunction> := [
    FutureFunction("uint32_t",
                   "bulk_operation_execute",
                   [Param("mongoc_bulk_operation_ptr", "bulk"),
                    Param("bson_ptr", "reply"),
                    Param("bson_error_ptr", "error")]),

    FutureFunction("bool",
                   "client_command_simple",
                   [Param("mongoc_client_ptr", "client"),
                    Param("const_char_ptr", "db_name"),
                    Param("const_bson_ptr", "command"),
                    Param("const_mongoc_read_prefs_ptr", "read_prefs"),
                    Param("bson_ptr", "reply"),
                    Param("bson_error_ptr", "error")]),

    FutureFunction("bool",
                   "cursor_next",
                   [Param("mongoc_cursor_ptr", "cursor"),
                    Param("const_bson_ptr_ptr", "doc")]),

    FutureFunction("char_ptr_ptr",
                   "client_get_database_names",
                   [Param("mongoc_client_ptr", "client"),
                    Param("bson_error_ptr", "error")]),

    FutureFunction("char_ptr_ptr",
                   "database_get_collection_names",
                   [Param("mongoc_database_ptr", "database"),
                    Param("bson_error_ptr", "error")])
  ]

  const OutputFiles: seq<string> := [
    "future.h", "future.c", "future-value.h", "future-value.c", "future-functions.h", "future-functions.c"
  ]

  /** Every parameter kind of every descriptor is registered (return kinds are not looked at). */
  predicate AllRegistered(fns: seq<FutureFunction>, types: seq<string>)
  {
    forall i, j :: 0 <= i < |fns| && 0 <= j < |fns[i].params| ==> fns[i].params[j].typeName in types
  }

  /** The inner loop: the first parameter whose kind is not in `types`. */
  function FirstBadParam(ps: seq<Param>, types: seq<string>): Option<Param>
  {
    if ps == [] then None
    else if ps[0].typeName !in types then Some(ps[0])
    else FirstBadParam(ps[1..], types)
  }

  /** The outer loop: stop at the first descriptor that has a bad parameter. */
  function Validate(fns: seq<FutureFunction>, types: seq<string>): Validation
  {
    if fns == [] then Ok
    else match FirstBadParam(fns[0].params, types)
      case Some(p) => BadType(p.typeName, fns[0])
      case None => Validate(fns[1..], types)
  }

  /** The two nested loops, exiting at the first parameter whose kind is unregistered. */
  method CheckFutureFunctions(fns: seq<FutureFunction>, types: seq<string>) returns (r: Validation)
    ensures r == Validate(fns, types)
  {
    var k := 0;
    while k < |fns|
      invariant 0 <= k <= |fns|
      invariant Validate(fns, types) == Validate(fns[k..], types)
    {
      var fn := fns[k];
      var m := 0;
      while m < |fn.params|
        invariant 0 <= m <= |fn.params|
        invariant FirstBadParam(fn.params, types) == FirstBadParam(fn.params[m..], types)
      {
        var p := fn.params[m];
        if p.typeName !in types {
          return BadType(p.typeName, fn);
        }
        assert fn.params[m..][1..] == fn.params[m + 1..];
        m := m + 1;
      }
      assert fns[k..][1..] == fns[k + 1..];
      k := k + 1;
    }
    return Ok;
  }

  /** Generation raises before the emission loop, so either nothing is written or every file is. */
  function Generate(fns: seq<FutureFunction>, types: seq<string>): (g: Generation)
    ensures g.Emitted? <==> AllRegistered(fns, types)
    ensures g.Emitted? ==> g.files == OutputFiles
    ensures g.Raised? ==> Validate(fns, types) == BadType(g.typeName, g.fn)
  {
    ValidateOkIff(fns, types);
    match Validate(fns, types)
    case Ok => Emitted(OutputFiles)
    case BadType(t, fn) => Raised(t, fn)
  }

  lemma {:induction false} FirstBadParamNoneIff(ps: seq<Param>, types: seq<string>)
    ensures FirstBadParam(ps, types).None? <==> forall j :: 0 <= j < |ps| ==> ps[j].typeName in types
  {
    if ps != [] {
      FirstBadParamNoneIff(ps[1..], types);
      assert forall j :: 1 <= j < |ps| ==> ps[j] == ps[1..][j - 1];
    }
  }

  lemma {:induction false} FirstBadParamIsFirst(ps: seq<Param>, types: seq<string>, j: nat)
    requires j < |ps| && ps[j].typeName !in types
    requires forall j' :: 0 <= j' < j ==> ps[j'].typeName in types
    ensures FirstBadParam(ps, types) == Some(ps[j])
  {
    if j > 0 {
      assert forall j' :: 0 <= j' < j - 1 ==> ps[1..][j'] == ps[j' + 1];
      FirstBadParamIsFirst(ps[1..], types, j - 1);
    }
  }

  lemma {:induction false} FirstBadParamSound(ps: seq<Param>, types: seq<string>)
    ensures FirstBadParam(ps, types).Some? ==>
              FirstBadParam(ps, types).value in ps && FirstBadParam(ps, types).value.typeName !in types
  {
    if ps != [] && ps[0].typeName in types {
      FirstBadParamSound(ps[1..], types);
    }
  }

  /** Validation succeeds exactly when every parameter of every descriptor has a registered kind. */
  lemma {:induction false} ValidateOkIff(fns: seq<FutureFunction>, types: seq<string>)
    ensures Validate(fns, types) == Ok <==> AllRegistered(fns, types)
  {
    if fns != [] {
      FirstBadParamNoneIff(fns[0].params, types);
      ValidateOkIff(fns[1..], types);
      assert forall i :: 1 <= i < |fns| ==> fns[i] == fns[1..][i - 1];
    }
  }

  /**
   * The error names the first offending parameter in descriptor order, then parameter
   * order: its kind and the descriptor that declared it.
   */
  lemma {:induction false} ValidateReportsFirst(fns: seq<FutureFunction>, types: seq<string>, i: nat, j: nat)
    requires i < |fns| && j < |fns[i].params|
    requires fns[i].params[j].typeName !in types
    requires forall i' :: 0 <= i' < i ==> forall j' :: 0 <= j' < |fns[i'].params| ==> fns[i'].params[j'].typeName in types
    requires forall j' :: 0 <= j' < j ==> fns[i].params[j'].typeName in types
    ensures Validate(fns, types) == BadType(fns[i].params[j].typeName, fns[i])
  {
    if i == 0 {
      FirstBadParamIsFirst(fns[0].params, types, j);
    } else {
      FirstBadParamNoneIff(fns[0].params, types);
      assert forall i' :: 0 <= i' < i - 1 ==> fns[1..][i'] == fns[i' + 1];
      ValidateReportsFirst(fns[1..], types, i - 1, j);
    }
  }

  /** A reported error is real: the kind is unregistered and a parameter of that descriptor uses it. */
  lemma {:induction false} ValidateErrorSound(fns: seq<FutureFunction>, types: seq<string>)
    ensures Validate(fns, types).BadType? ==>
              var v := Validate(fns, types);
              v.typeName !in types && v.fn in fns && exists p :: p in v.fn.params && p.typeName == v.typeName
  {
    if fns != [] {
      FirstBadParamSound(fns[0].params, types);
      if FirstBadParam(fns[0].params, types).None? {
        ValidateErrorSound(fns[1..], types);
      }
    }
  }

  /** Return kinds are never inspected: changing one never changes whether validation passes. */
  lemma ValidateIgnoresReturnKind(fns: seq<FutureFunction>, types: seq<string>, i: nat, ret: string)
    requires i < |fns|
    ensures Validate(fns[i := fns[i].(retType := ret)], types).Ok? == Validate(fns, types).Ok?
  {
    var fns' := fns[i := fns[i].(retType := ret)];
    ValidateOkIff(fns, types);
    ValidateOkIff(fns', types);
    assert forall k :: 0 <= k < |fns| ==> fns'[k].params == fns[k].params;
  }

  /** The registered names as a literal, for the lemmas about the shipped tables. */
  const RegisteredNames: seq<string> := [
    "bool", "bson_error_ptr", "bson_ptr", "char_ptr", "char_ptr_ptr",
    "const_char_ptr", "const_bson_ptr", "const_bson_ptr_ptr", "const_mongoc_read_prefs_ptr",
    "mongoc_bulk_operation_ptr", "mongoc_client_ptr", "mongoc_cursor_ptr", "mongoc_database_ptr",
    "mongoc_query_flags_t", "uint32_t"
  ]

  /** `type_list` is exactly the `name` fields of `typedef_list`, in the same order. */
  lemma TypeListIsRegisteredNames()
    ensures TypeList == RegisteredNames
  {
    forall i | 0 <= i < |TypedefList| ensures TypeList[i] == RegisteredNames[i] {
      assert TypeList[i] == TypedefList[i].name;
    }
  }

  /** No name is registered twice. */
  lemma TypeListDistinct()
    ensures forall i, j :: 0 <= i < j < |TypeList| ==> TypeList[i] != TypeList[j]
  {
    TypeListIsRegisteredNames();
  }

  /** The kinds of the parameters of one descriptor, as a literal. */
  function ParamKinds(f: FutureFunction): (r: seq<string>)
    ensures |r| == |f.params| && forall j :: 0 <= j < |r| ==> r[j] == f.params[j].typeName
  {
    seq(|f.params|, j requires 0 <= j < |f.params| => f.params[j].typeName)
  }

  lemma ShippedParamKindsRegistered()
    ensures AllRegistered(FutureFunctionList, TypeList)
  {
    TypeListIsRegisteredNames();
    var T := RegisteredNames;
    assert ParamKinds(FutureFunctionList[0]) == [T[9], T[2], T[1]];
    assert ParamKinds(FutureFunctionList[1]) == [T[10], T[5], T[6], T[8], T[2], T[1]];
    assert ParamKinds(FutureFunctionList[2]) == [T[11], T[7]];
    assert ParamKinds(FutureFunctionList[3]) == [T[10], T[1]];
    assert ParamKinds(FutureFunctionList[4]) == [T[12], T[1]];
    forall i, j | 0 <= i < |FutureFunctionList| && 0 <= j < |FutureFunctionList[i].params|
      ensures FutureFunctionList[i].params[j].typeName in TypeList
    {
      assert FutureFunctionList[i].params[j].typeName == ParamKinds(FutureFunctionList[i])[j];
    }
  }

  /** Every return kind of the shipped list (`uint32_t`, `bool`, `char_ptr_ptr`) is registered too. */
  lemma ShippedReturnKindsRegistered()
    ensures forall i :: 0 <= i < |FutureFunctionList| ==> FutureFunctionList[i].retType in TypeList
  {
    TypeListIsRegisteredNames();
    var T := RegisteredNames;
    var R := seq(|FutureFunctionList|, i requires 0 <= i < |FutureFunctionList| => FutureFunctionList[i].retType);
    assert R == [T[14], T[0], T[0], T[4], T[4]];
    forall i | 0 <= i < |FutureFunctionList| ensures FutureFunctionList[i].retType in TypeList {
      assert FutureFunctionList[i].retType == R[i];
    }
  }

  /** The shipped descriptor list passes, so generation writes every output file. */
  lemma ShippedTablesPass()
    ensures Validate(FutureFunctionList, TypeList) == Ok
    ensures Generate(FutureFunctionList, TypeList) == Emitted(OutputFiles)
  {
    ShippedParamKindsRegistered();
    ValidateOkIff(FutureFunctionList, TypeList);
  }

  /** A descriptor whose only unregistered kind is its return kind still passes. */
  lemma UnregisteredReturnKindPasses()
    ensures "frobnicator_ptr" !in TypeList
    ensures Validate([FutureFunction("frobnicator_ptr", "ping", [Param("const_char_ptr", "msg")])], TypeList) == Ok
  {
    TypeListIsRegisteredNames();
    var fns := [FutureFunction("frobnicator_ptr", "ping", [Param("const_char_ptr", "msg")])];
    assert fns[0].params[0].typeName == TypeList[5];
    ValidateOkIff(fns, TypeList);
  }

  /** An unregistered parameter kind is reported with its descriptor, and nothing is written. */
  lemma UnregisteredParamKindRaises()
    ensures var fn := FutureFunction("bool", "ping", [Param("frobnicator_ptr", "msg")]);
            Generate(FutureFunctionList + [fn], TypeList) == Raised("frobnicator_ptr", fn)
  {
    var fn := FutureFunction("bool", "ping", [Param("frobnicator_ptr", "msg")]);
    var fns := FutureFunctionList + [fn];
    TypeListIsRegisteredNames();
    assert "frobnicator_ptr" !in TypeList;
    ShippedParamKindsRegistered();
    assert forall i' :: 0 <= i' < |FutureFunctionList| ==> fns[i'] == FutureFunctionList[i'];
    ValidateReportsFirst(fns, TypeList, |FutureFunctionList|, 0);
    assert Validate(fns, TypeList) == BadType("frobnicator_ptr", fn);
  }
}
