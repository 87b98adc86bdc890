/**
 * The node configuration panel: fills the form from the selected node's data, and on submit
 * overlays the submitted fields for the node's type onto the data it keeps.
 * `JSON.parse`, `JSON.stringify` and `parseInt` are parameters: `parse` returns `None` where
 * `JSON.parse` throws. The submitted form is the value it holds for each field name, undefined
 * for a field it does not have.
 */
module NodeConfig {
  import opened Wrappers
  import opened Values
  import opened Graph


  /** The node types the panel has fields for; every other type name is `Unknown`. */
  datatype NodeKind = JwtGenerate | JwtVerify | Logic | ApiStart | Response | Parameters | Database | Loop | Condition | Unknown

  /** The kind a type name names. */
  function KindOf(t: string): (k: NodeKind)
    ensures k == JwtGenerate <==> t == "jwtGenerate"
    ensures k == JwtVerify <==> t == "jwtVerify"
    ensures k == Logic <==> t == "logic"
    ensures k == ApiStart <==> t == "apiStart"
    ensures k == Response <==> t == "response"
    ensures k == Parameters <==> t == "parameters"
    ensures k == Database <==> t == "database"
    ensures k == Loop <==> t == "loop"
    ensures k == Condition <==> t == "condition"
  {
    match t
    case "jwtGenerate" => JwtGenerate
    case "jwtVerify" => JwtVerify
    case "logic" => Logic
    case "apiStart" => ApiStart
    case "response" => Response
    case "parameters" => Parameters
    case "database" => Database
    case "loop" => Loop
    case "condition" => Condition
    case _ => Unknown
  }

  /** The kind of the submitted `type` field; a missing or non-text type is `Unknown`. */
  function SubmittedKind(form: string -> Value): NodeKind {
    match form("type")
    case VStr(t) => KindOf(t)
    case _ => Unknown
  }

  /** The entries of a record (or of nothing) whose value is defined. */
  function DefinedEntries(m: Record): Record {
    if |m| == 0 then []
    else
      var rest := DefinedEntries(m[1..]);
      if m[0].value != VUndefined then [m[0]] + rest else rest
  }

  /** The filter keeps exactly the entries whose value is defined. */
  lemma {:induction false} DefinedEntriesKeeps(m: Record)
    ensures |DefinedEntries(m)| <= |m|
    ensures forall i :: 0 <= i < |DefinedEntries(m)| ==> DefinedEntries(m)[i] in m && DefinedEntries(m)[i].value != VUndefined
    ensures forall i :: 0 <= i < |m| && m[i].value != VUndefined ==> m[i] in DefinedEntries(m)
    decreases |m|
  {
    if |m| > 0 {
      var tail := m[1..];
      DefinedEntriesKeeps(tail);
      var r, rest := DefinedEntries(m), DefinedEntries(tail);
      forall i | 0 <= i < |r| ensures r[i] in m && r[i].value != VUndefined {
        if m[0].value == VUndefined || i > 0 {
          var j := if m[0].value == VUndefined then i else i - 1;
          assert r[i] == rest[j];
          assert rest[j] in tail;
        }
      }
      forall i | 0 <= i < |m| && m[i].value != VUndefined ensures m[i] in r {
        if i > 0 {
          assert m[i] == tail[i - 1];
        }
      }
    }
  }

  /** An object's entries as `Object.entries` lists them, without the undefined ones, collected
      into a new object; anything but an object gives the empty object. */
  function Defined(v: Value): Value {
    VObj(PutAll([], DefinedEntries(OwnEntries(if v.VObj? then v.fields else []))))
  }

  /** Dropping entries keeps the keys distinct. */
  lemma {:induction false} DefinedEntriesDistinct(m: Record)
    requires DistinctKeys(m)
    ensures DistinctKeys(DefinedEntries(m))
    decreases |m|
  {
    if |m| > 0 {
      var tail := m[1..];
      assert DistinctKeys(tail) by {
        forall i, j | 0 <= i < j < |tail| ensures tail[i].key != tail[j].key {
          assert tail[i] == m[i + 1] && tail[j] == m[j + 1];
        }
      }
      DefinedEntriesDistinct(tail);
      DefinedEntriesKeeps(tail);
      var rest := DefinedEntries(tail);
      if m[0].value != VUndefined {
        var r := DefinedEntries(m);
        assert r == [m[0]] + rest;
        forall i | 0 <= i < |rest| ensures rest[i].key != m[0].key {
          var j :| 0 <= j < |tail| && tail[j] == rest[i];
          assert m[j + 1] == rest[i];
        }
        forall i, j | 0 <= i < j < |r| ensures r[i].key != r[j].key {
          if i > 0 {
            assert r[i] == rest[i - 1];
          }
          assert r[j] == rest[j - 1];
        }
      }
    }
  }

  /** A key reads as before unless its value was undefined, in which case it is absent. */
  lemma {:induction false} DefinedEntriesGet(m: Record, k: string)
    requires DistinctKeys(m)
    ensures Get(DefinedEntries(m), k) == if Get(m, k) == Some(VUndefined) then None else Get(m, k)
    decreases |m|
  {
    if |m| > 0 {
      var tail := m[1..];
      assert DistinctKeys(tail) by {
        forall i, j | 0 <= i < j < |tail| ensures tail[i].key != tail[j].key {
          assert tail[i] == m[i + 1] && tail[j] == m[j + 1];
        }
      }
      DefinedEntriesGet(tail, k);
      if m[0].key == k {
        assert k !in Keys(tail) by {
          forall j | 0 <= j < |tail| ensures Keys(tail)[j] != k {
            assert tail[j] == m[j + 1];
          }
        }
      }
    }
  }

  /**
   * Dropping undefined values keeps every defined entry and removes exactly the undefined ones:
   * a key reads as before unless it was undefined, in which case it is absent.
   */
  lemma DefinedReads(m: Record, k: string)
    requires DistinctKeys(m)
    ensures Defined(VObj(m)).fields == DefinedEntries(OwnEntries(m))
    ensures Get(Defined(VObj(m)).fields, k) == if Get(m, k) == Some(VUndefined) then None else Get(m, k)
  {
    var es := OwnEntries(m);
    OwnEntriesDistinct(m);
    OwnEntriesGet(m, k);
    DefinedEntriesDistinct(es);
    DefinedEntriesGet(es, k);
    assert [] + DefinedEntries(es) == DefinedEntries(es);
    PutAllFresh([], DefinedEntries(es));
  }

  /** A database node's fields: the provider, collection and operation, and the defined entries of query and data. */
  function DatabaseOverlay(nodeId: string, form: string -> Value): Record {
    [Entry("id", VStr(nodeId)), Entry("provider", form("provider")), Entry("collection", form("collection")),
     Entry("operation", form("operation")), Entry("query", Defined(form("query"))), Entry("data", Defined(form("data")))]
  }

  lemma DatabaseOverlayKeys(nodeId: string, form: string -> Value)
    ensures DistinctKeys(DatabaseOverlay(nodeId, form))
  {
    SixKeys(VStr(nodeId), form("provider"), form("collection"), form("operation"),
            Defined(form("query")), Defined(form("data")));
  }

  lemma SixKeys(id: Value, provider: Value, collection: Value, operation: Value, query: Value, data: Value)
    ensures DistinctKeys([Entry("id", id), Entry("provider", provider), Entry("collection", collection),
                          Entry("operation", operation), Entry("query", query), Entry("data", data)])
  {
  }

  /** The fields a submit writes for a node type, in order; `None` for an unknown type or a payload `JSON.parse` rejects. */
  function Overlay(nodeId: string, form: string -> Value, parse: string -> Option<Value>, parseInt: string -> Value): (r: Option<Record>)
    ensures r.Some? <==>
      SubmittedKind(form) != Unknown && (SubmittedKind(form) == JwtGenerate ==> parse(Stringify(form("payload"))).Some?)
    ensures r.Some? && SubmittedKind(form) == ApiStart ==>
      r.value == [Entry("method", form("method")), Entry("path", form("path"))]
  {
    OverlayFor(SubmittedKind(form), nodeId, form, parse, parseInt)
  }

  /** The fields a submit writes for a kind of node. */
  function OverlayFor(kind: NodeKind, nodeId: string, form: string -> Value, parse: string -> Option<Value>,
                      parseInt: string -> Value): Option<Record>
  {
    var id := Entry("id", VStr(nodeId));
    match kind
    case JwtGenerate =>
      (match parse(Stringify(form("payload")))
       case None => None
       case Some(payload) =>
         Some([id, Entry("type", form("secretType")), Entry("expiresIn", form("expiresIn")),
               Entry("payload", payload)]))
    case JwtVerify => Some([id, Entry("type", form("secretType"))])
    case Logic => Some([id, Entry("code", form("code"))])
    case ApiStart => Some([Entry("method", form("method")), Entry("path", form("path"))])
    case Response => Some([id, Entry("status", parseInt(Stringify(form("status"))))])
    case Parameters => Some([id, Entry("sources", form("sources"))])
    case Database => Some(DatabaseOverlay(nodeId, form))
    case Loop => Some([id, Entry("items", form("items"))])
    case Condition => Some([id, Entry("condition", form("condition"))])
    case Unknown => None
  }

  /** Keys read off a list of distinct names are distinct. */
  lemma KeysNamed(r: Record, names: seq<string>)
    requires |r| == |names| && forall i :: 0 <= i < |r| ==> r[i].key == names[i]
    requires forall i, j :: 0 <= i < j < |names| ==> names[i] != names[j]
    ensures DistinctKeys(r) && Keys(r) == names
  {
  }

  /** Every type except the entry point's writes the node's id. */
  lemma OverlayWritesId(nodeId: string, form: string -> Value, parse: string -> Option<Value>, parseInt: string -> Value)
    requires Overlay(nodeId, form, parse, parseInt).Some? && SubmittedKind(form) != ApiStart
    ensures Get(Overlay(nodeId, form, parse, parseInt).value, "id") == Some(VStr(nodeId))
  {
    assert Overlay(nodeId, form, parse, parseInt).value[0] == Entry("id", VStr(nodeId));
  }

  /** Every overlay names each key once. */
  lemma OverlayKeys(nodeId: string, form: string -> Value, parse: string -> Option<Value>, parseInt: string -> Value)
    requires Overlay(nodeId, form, parse, parseInt).Some?
    ensures DistinctKeys(Overlay(nodeId, form, parse, parseInt).value)
  {
    var r := Overlay(nodeId, form, parse, parseInt).value;
    match SubmittedKind(form)
    case JwtGenerate => KeysNamed(r, ["id", "type", "expiresIn", "payload"]);
    case JwtVerify => KeysNamed(r, ["id", "type"]);
    case Logic => KeysNamed(r, ["id", "code"]);
    case ApiStart => KeysNamed(r, ["method", "path"]);
    case Response => KeysNamed(r, ["id", "status"]);
    case Parameters => KeysNamed(r, ["id", "sources"]);
    case Database => DatabaseOverlayKeys(nodeId, form);
    case Loop => KeysNamed(r, ["id", "items"]);
    case Condition => KeysNamed(r, ["id", "condition"]);
  }

  /** The data a submit dispatches: the panel's data with the type's fields spread over it. */
  function SubmittedData(formData: Record, nodeId: string, form: string -> Value, parse: string -> Option<Value>,
                         parseInt: string -> Value): Option<Record>
  {
    match Overlay(nodeId, form, parse, parseInt)
    case None => None
    case Some(fields) => Some(PutAll(formData, fields))
  }

  /** A submit changes exactly the fields its type names: every other key reads as in the panel's data. */
  lemma SubmitOverlays(formData: Record, nodeId: string, form: string -> Value, parse: string -> Option<Value>,
                       parseInt: string -> Value, k: string)
    requires SubmittedData(formData, nodeId, form, parse, parseInt).Some?
    ensures var fields := Overlay(nodeId, form, parse, parseInt).value;
      Get(SubmittedData(formData, nodeId, form, parse, parseInt).value, k) ==
        if k in Keys(fields) then Get(fields, k) else Get(formData, k)
  {
    OverlayKeys(nodeId, form, parse, parseInt);
    PutAllGet(formData, Overlay(nodeId, form, parse, parseInt).value, k);
  }

  /** A response node's status is stored as the number `parseInt` reads from the submitted text. */
  lemma ResponseStatusParsed(formData: Record, nodeId: string, form: string -> Value, parse: string -> Option<Value>,
                             parseInt: string -> Value)
    requires form("type") == VStr("response")
    ensures var r := SubmittedData(formData, nodeId, form, parse, parseInt);
      r.Some? && Get(r.value, "status") == Some(parseInt(Stringify(form("status")))) &&
      Get(r.value, "id") == Some(VStr(nodeId))
  {
    var fields := Overlay(nodeId, form, parse, parseInt).value;
    OverlayKeys(nodeId, form, parse, parseInt);
    assert Keys(fields) == ["id", "status"];
    PutAllGet(formData, fields, "status");
    PutAllGet(formData, fields, "id");
  }

  /** A JWT generator's data `type` becomes the chosen secret type; its payload is the parsed text. */
  lemma JwtGenerateFields(formData: Record, nodeId: string, form: string -> Value, parse: string -> Option<Value>,
                          parseInt: string -> Value)
    requires form("type") == VStr("jwtGenerate") && parse(Stringify(form("payload"))).Some?
    ensures var r := SubmittedData(formData, nodeId, form, parse, parseInt);
      r.Some? && Get(r.value, "type") == Some(form("secretType")) &&
      Get(r.value, "expiresIn") == Some(form("expiresIn")) &&
      Get(r.value, "payload") == Some(parse(Stringify(form("payload"))).value)
  {
    var fields := Overlay(nodeId, form, parse, parseInt).value;
    OverlayKeys(nodeId, form, parse, parseInt);
    assert Keys(fields) == ["id", "type", "expiresIn", "payload"];
    PutAllGet(formData, fields, "type");
    PutAllGet(formData, fields, "expiresIn");
    PutAllGet(formData, fields, "payload");
  }

  /** A JWT verifier's data `type` becomes the chosen secret type, and `id` the node id. */
  lemma JwtVerifyFields(formData: Record, nodeId: string, form: string -> Value, parse: string -> Option<Value>,
                        parseInt: string -> Value)
    requires form("type") == VStr("jwtVerify")
    ensures var r := SubmittedData(formData, nodeId, form, parse, parseInt);
      r.Some? && Get(r.value, "type") == Some(form("secretType")) && Get(r.value, "id") == Some(VStr(nodeId))
  {
    var fields := Overlay(nodeId, form, parse, parseInt).value;
    OverlayKeys(nodeId, form, parse, parseInt);
    assert Keys(fields) == ["id", "type"];
    PutAllGet(formData, fields, "type");
    PutAllGet(formData, fields, "id");
  }

  /** `x || d` for a string default. */
  function OrStr(v: Value, d: string): Value {
    Or(v, VStr(d))
  }

  /**
   * The form fields the population effect sets for a node, in the order it sets them: the type
   * when there is one, then the type's own fields with their defaults.
   */
  function Population(n: Node, stringify: Value -> string): (r: Record)
    ensures n.nodeType != "" ==> |r| > 0 && r[0] == Entry("type", VStr(n.nodeType))
    ensures n.nodeType == "" ==> r == []
  {
    var head := if n.nodeType != "" then [Entry("type", VStr(n.nodeType))] else [];
    head + KindFields(KindOf(n.nodeType), n.data, stringify)
  }

  /** The fields the population effect sets for a kind of node, after the type. */
  function KindFields(kind: NodeKind, d: Record, stringify: Value -> string): (r: Record)
    ensures Keys(r) == KindKeys(kind)
  {
    match kind
    case JwtGenerate =>
      [Entry("secretType", OrStr(Lookup(d, "type"), "")),
       Entry("payload", VStr(stringify(Or(Lookup(d, "payload"), VObj([]))))),
       Entry("expiresIn", OrStr(Lookup(d, "expiresIn"), ""))]
    case JwtVerify => [Entry("secretType", OrStr(Lookup(d, "type"), ""))]
    case Logic => [Entry("code", OrStr(Lookup(d, "code"), ""))]
    case Response => [Entry("status", VStr(Stringify(OrStr(Lookup(d, "status"), ""))))]
    case Parameters => [Entry("sources", Or(Lookup(d, "sources"), VList([])))]
    case ApiStart => [Entry("method", OrStr(Lookup(d, "method"), "GET")), Entry("path", OrStr(Lookup(d, "path"), ""))]
    case Database => DatabaseNodeFields(d)
    case Condition => [Entry("condition", OrStr(Lookup(d, "condition"), ""))]
    case Loop => [Entry("items", OrStr(Lookup(d, "items"), ""))]
    case Unknown => []
  }

  /** A database node's fields: the connection, and the query and data without their undefined entries. */
  function DatabaseNodeFields(d: Record): (r: Record)
    ensures Keys(r) == KindKeys(Database)
  {
    var query := Defined(Lookup(d, "query"));
    var data := Defined(Lookup(d, "data"));
    DatabaseKeys(OrStr(Lookup(d, "provider"), ""), OrStr(Lookup(d, "collection"), ""), OrStr(Lookup(d, "operation"), ""), query, data);
    [Entry("provider", OrStr(Lookup(d, "provider"), "")), Entry("collection", OrStr(Lookup(d, "collection"), "")),
     Entry("operation", OrStr(Lookup(d, "operation"), "")),
     Entry("query", query), Entry("data", data)]
  }

  lemma DatabaseKeys(provider: Value, collection: Value, operation: Value, query: Value, data: Value)
    ensures Keys([Entry("provider", provider), Entry("collection", collection), Entry("operation", operation),
                  Entry("query", query), Entry("data", data)]) == KindKeys(Database)
  {
  }

  /** The keys of a kind's fields, in the order the population sets them. */
  function KindKeys(kind: NodeKind): seq<string> {
    match kind
    case JwtGenerate => ["secretType", "payload", "expiresIn"]
    case JwtVerify => ["secretType"]
    case Logic => ["code"]
    case Response => ["status"]
    case Parameters => ["sources"]
    case ApiStart => ["method", "path"]
    case Database => ["provider", "collection", "operation", "query", "data"]
    case Condition => ["condition"]
    case Loop => ["items"]
    case Unknown => []
  }

  /** An API entry node without a method or path shows GET and an empty path. */
  lemma ApiStartDefaults(n: Node, stringify: Value -> string)
    requires n.nodeType == "apiStart" && !Truthy(Lookup(n.data, "method")) && !Truthy(Lookup(n.data, "path"))
    ensures Population(n, stringify) ==
      [Entry("type", VStr("apiStart")), Entry("method", VStr("GET")), Entry("path", VStr(""))]
  {
  }

  /** The population sets each field once. */
  lemma PopulationDistinct(n: Node, stringify: Value -> string)
    ensures DistinctKeys(Population(n, stringify))
  {
    var fields := KindFields(KindOf(n.nodeType), n.data, stringify);
    KindFieldsKeys(KindOf(n.nodeType), n.data, stringify);
    if n.nodeType != "" {
      var r := Population(n, stringify);
      assert r == [Entry("type", VStr(n.nodeType))] + fields;
      forall i, j | 0 <= i < j < |r| ensures r[i].key != r[j].key {
        assert r[j] == fields[j - 1];
        if i > 0 {
          assert r[i] == fields[i - 1];
        }
      }
    } else {
      assert Population(n, stringify) == fields;
    }
  }

  /** Each kind's fields have distinct keys, none of them `type`. */
  lemma KindFieldsKeys(kind: NodeKind, d: Record, stringify: Value -> string)
    ensures DistinctKeys(KindFields(kind, d, stringify))
    ensures "type" !in Keys(KindFields(kind, d, stringify))
  {
    KindKeysDistinct(kind);
    KeysDistinct(KindFields(kind, d, stringify), KindKeys(kind));
  }

  /** No kind lists a key twice, and none lists `type`. */
  lemma KindKeysDistinct(kind: NodeKind)
    ensures forall i, j :: 0 <= i < j < |KindKeys(kind)| ==> KindKeys(kind)[i] != KindKeys(kind)[j]
    ensures "type" !in KindKeys(kind)
  {
  }

  /** A record whose keys are a list without repetitions has distinct keys. */
  lemma KeysDistinct(r: Record, ks: seq<string>)
    requires Keys(r) == ks && forall i, j :: 0 <= i < j < |ks| ==> ks[i] != ks[j]
    ensures DistinctKeys(r)
  {
    forall i, j | 0 <= i < j < |r| ensures r[i].key != r[j].key {
      assert r[i].key == ks[i] && r[j].key == ks[j];
    }
  }

  lemma TwoFields(ka: string, kb: string, a: Value, b: Value)
    requires ka != kb
    ensures Keys([Entry(ka, a), Entry(kb, b)]) == [ka, kb]
    ensures DistinctKeys([Entry(ka, a), Entry(kb, b)])
  {
  }

  lemma ThreeFields(ka: string, kb: string, kc: string, a: Value, b: Value, c: Value)
    requires ka != kb && ka != kc && kb != kc
    ensures Keys([Entry(ka, a), Entry(kb, b), Entry(kc, c)]) == [ka, kb, kc]
    ensures DistinctKeys([Entry(ka, a), Entry(kb, b), Entry(kc, c)])
  {
  }

  /** After the population effect, every field it set reads as populated. */
  lemma PopulatedValues(values: Record, n: Node, stringify: Value -> string)
    ensures var fields := Population(n, stringify);
      forall i :: 0 <= i < |fields| ==> Lookup(PutAll(values, fields), fields[i].key) == fields[i].value
  {
    var fields := Population(n, stringify);
    PopulationDistinct(n, stringify);
    forall i | 0 <= i < |fields| ensures Lookup(PutAll(values, fields), fields[i].key) == fields[i].value {
      PutAllGet(values, fields, fields[i].key);
      assert Keys(fields)[i] == fields[i].key;
      assert Get(fields, fields[i].key) == Some(fields[i].value) by {
        GetDistinct(fields, i);
      }
    }
  }

  /** In a record with distinct keys, every entry is the one its key reads. */
  lemma GetDistinct(m: Record, i: nat)
    requires DistinctKeys(m) && i < |m|
    ensures Get(m, m[i].key) == Some(m[i].value)
  {
    var r := Get(m, m[i].key);
    assert m[i].key in Keys(m) by {
      assert Keys(m)[i] == m[i].key;
    }
    var j :| 0 <= j < |m| && m[j] == Entry(m[i].key, r.value);
    assert j == i;
  }

  /** The node-data keys a type's form edits (the JWT forms show the data's `type` as `secretType`). */
  function EditedKeys(kind: NodeKind): seq<string> {
    match kind
    case JwtGenerate => ["type", "expiresIn", "payload"]
    case JwtVerify => ["type"]
    case Logic => ["code"]
    case ApiStart => ["method", "path"]
    case Response => ["status"]
    case Parameters => ["sources"]
    case Database => ["provider", "collection", "operation", "query", "data"]
    case Loop => ["items"]
    case Condition => ["condition"]
    case Unknown => []
  }

  /** The form still shows every field the population set for `n`. */
  predicate ShowsPopulation(form: string -> Value, n: Node, stringify: Value -> string) {
    var fields := Population(n, stringify);
    forall i :: 0 <= i < |fields| ==> form(fields[i].key) == fields[i].value
  }

  /**
   * Submitting a form as populated writes the node's own data back: for every type but the
   * database's, when the fields the type edits are set and the payload and status survive being
   * rendered and parsed again, every key but `id` reads as in the node's data, and `id` becomes
   * the node's id (the entry point writes no id).
   */
  lemma UneditedSubmit(n: Node, stringify: Value -> string, form: string -> Value, nodeId: string,
                       parse: string -> Option<Value>, parseInt: string -> Value)
    requires KindOf(n.nodeType) != Database && KindOf(n.nodeType) != Unknown
    requires ShowsPopulation(form, n, stringify)
    requires forall i :: 0 <= i < |EditedKeys(KindOf(n.nodeType))| ==> Truthy(Lookup(n.data, EditedKeys(KindOf(n.nodeType))[i]))
    requires KindOf(n.nodeType) == JwtGenerate ==>
      parse(stringify(Lookup(n.data, "payload"))) == Some(Lookup(n.data, "payload"))
    requires KindOf(n.nodeType) == Response ==> parseInt(Stringify(Lookup(n.data, "status"))) == Lookup(n.data, "status")
    ensures SubmittedData(n.data, nodeId, form, parse, parseInt).Some?
    ensures forall k :: k != "id" ==> Get(SubmittedData(n.data, nodeId, form, parse, parseInt).value, k) == Get(n.data, k)
    ensures Get(SubmittedData(n.data, nodeId, form, parse, parseInt).value, "id") ==
      if KindOf(n.nodeType) == ApiStart then Get(n.data, "id") else Some(VStr(nodeId))
  {
    var d := n.data;
    var kind := KindOf(n.nodeType);
    var pop := Population(n, stringify);
    var kf := KindFields(kind, d, stringify);
    assert pop == [Entry("type", VStr(n.nodeType))] + kf;
    assert form("type") == VStr(n.nodeType) by {
      assert pop[0] == Entry("type", VStr(n.nodeType));
    }
    assert SubmittedKind(form) == kind;
    forall i | 0 <= i < |kf| ensures form(kf[i].key) == kf[i].value {
      assert pop[i + 1] == kf[i];
    }
    OverlayRestores(kind, d, stringify, form, nodeId, parse, parseInt);
    var fields := Overlay(nodeId, form, parse, parseInt).value;
    forall k ensures Get(SubmittedData(d, nodeId, form, parse, parseInt).value, k) ==
        if k in Keys(fields) then Get(fields, k) else Get(d, k) {
      SubmitOverlays(d, nodeId, form, parse, parseInt, k);
    }
    if kind != ApiStart {
      OverlayWritesId(nodeId, form, parse, parseInt);
    }
  }

  /** The overlay of a form that shows a kind's populated fields holds the data's own value under
      every key but `id`. */
  lemma OverlayRestores(kind: NodeKind, d: Record, stringify: Value -> string, form: string -> Value, nodeId: string,
                        parse: string -> Option<Value>, parseInt: string -> Value)
    requires kind != Database && kind != Unknown
    requires forall i :: 0 <= i < |KindFields(kind, d, stringify)| ==>
      form(KindFields(kind, d, stringify)[i].key) == KindFields(kind, d, stringify)[i].value
    requires forall i :: 0 <= i < |EditedKeys(kind)| ==> Truthy(Lookup(d, EditedKeys(kind)[i]))
    requires kind == JwtGenerate ==> parse(stringify(Lookup(d, "payload"))) == Some(Lookup(d, "payload"))
    requires kind == Response ==> parseInt(Stringify(Lookup(d, "status"))) == Lookup(d, "status")
    ensures OverlayFor(kind, nodeId, form, parse, parseInt).Some?
    ensures forall k :: k != "id" && k in Keys(OverlayFor(kind, nodeId, form, parse, parseInt).value) ==>
      Get(OverlayFor(kind, nodeId, form, parse, parseInt).value, k) == Get(d, k)
    ensures "id" in Keys(OverlayFor(kind, nodeId, form, parse, parseInt).value) <==> kind != ApiStart
  {
    var kf := KindFields(kind, d, stringify);
    var keys := EditedKeys(kind);
    var id := VStr(nodeId);
    match kind
    case JwtGenerate =>
      TruthyGet(d, keys, 0); TruthyGet(d, keys, 1); TruthyGet(d, keys, 2);
      var t, e, p := Lookup(d, "type"), Lookup(d, "expiresIn"), Lookup(d, "payload");
      assert form("secretType") == t && form("payload") == VStr(stringify(p)) && form("expiresIn") == e by {
        assert form(kf[0].key) == kf[0].value && form(kf[1].key) == kf[1].value && form(kf[2].key) == kf[2].value;
      }
      JwtGenerateRestores(d, form, nodeId, parse, parseInt, p);
    case JwtVerify =>
      TruthyGet(d, keys, 0);
      assert form(kf[0].key) == kf[0].value;
      IdOne(id, "type", Lookup(d, "type"), d);
    case Logic =>
      TruthyGet(d, keys, 0);
      assert form(kf[0].key) == kf[0].value;
      IdOne(id, "code", Lookup(d, "code"), d);
    case Response =>
      TruthyGet(d, keys, 0);
      assert form(kf[0].key) == kf[0].value;
      IdOne(id, "status", Lookup(d, "status"), d);
    case Parameters =>
      TruthyGet(d, keys, 0);
      assert form(kf[0].key) == kf[0].value;
      IdOne(id, "sources", Lookup(d, "sources"), d);
    case ApiStart =>
      TruthyGet(d, keys, 0); TruthyGet(d, keys, 1);
      assert form(kf[0].key) == kf[0].value && form(kf[1].key) == kf[1].value;
      NoIdTwo("method", "path", Lookup(d, "method"), Lookup(d, "path"), d);
    case Condition =>
      TruthyGet(d, keys, 0);
      assert form(kf[0].key) == kf[0].value;
      IdOne(id, "condition", Lookup(d, "condition"), d);
    case Loop =>
      TruthyGet(d, keys, 0);
      assert form(kf[0].key) == kf[0].value;
      IdOne(id, "items", Lookup(d, "items"), d);
  }

  /** The JWT generator's case of `OverlayRestores`, once the form's fields are read off `d`. */
  lemma JwtGenerateRestores(d: Record, form: string -> Value, nodeId: string, parse: string -> Option<Value>,
                            parseInt: string -> Value, p: Value)
    requires Get(d, "type") == Some(form("secretType")) && Get(d, "expiresIn") == Some(form("expiresIn"))
    requires Get(d, "payload") == Some(p) && parse(Stringify(form("payload"))) == Some(p)
    ensures OverlayFor(JwtGenerate, nodeId, form, parse, parseInt).Some?
    ensures forall k :: k != "id" && k in Keys(OverlayFor(JwtGenerate, nodeId, form, parse, parseInt).value) ==>
      Get(OverlayFor(JwtGenerate, nodeId, form, parse, parseInt).value, k) == Get(d, k)
    ensures "id" in Keys(OverlayFor(JwtGenerate, nodeId, form, parse, parseInt).value)
  {
    var id := VStr(nodeId);
    assert OverlayFor(JwtGenerate, nodeId, form, parse, parseInt) ==
      Some([Entry("id", id), Entry("type", form("secretType")), Entry("expiresIn", form("expiresIn")), Entry("payload", p)]);
    IdThree(id, "type", "expiresIn", "payload", form("secretType"), form("expiresIn"), p, d);
  }

  /** An edited key that is set reads as its value. */
  lemma TruthyGet(d: Record, keys: seq<string>, i: nat)
    requires i < |keys| && Truthy(Lookup(d, keys[i]))
    ensures Get(d, keys[i]) == Some(Lookup(d, keys[i]))
  {
  }

  /** An overlay of the id and one field read as in `d`. */
  lemma IdOne(id: Value, k: string, v: Value, d: Record)
    requires k != "id" && Get(d, k) == Some(v)
    ensures "id" in Keys([Entry("id", id), Entry(k, v)])
    ensures forall k' :: k' != "id" && k' in Keys([Entry("id", id), Entry(k, v)]) ==>
      Get([Entry("id", id), Entry(k, v)], k') == Get(d, k')
  {
    var r := [Entry("id", id), Entry(k, v)];
    TwoFields("id", k, id, v);
    forall j | 0 <= j < |r| && r[j].key != "id" ensures Get(d, r[j].key) == Some(r[j].value) {
      assert j == 1;
    }
    OverlayMatches(r, d);
  }

  /** An overlay of two fields and no id read as in `d`. */
  lemma NoIdTwo(ka: string, kb: string, a: Value, b: Value, d: Record)
    requires ka != "id" && kb != "id" && ka != kb && Get(d, ka) == Some(a) && Get(d, kb) == Some(b)
    ensures "id" !in Keys([Entry(ka, a), Entry(kb, b)])
    ensures forall k' :: k' != "id" && k' in Keys([Entry(ka, a), Entry(kb, b)]) ==>
      Get([Entry(ka, a), Entry(kb, b)], k') == Get(d, k')
  {
    var r := [Entry(ka, a), Entry(kb, b)];
    TwoFields(ka, kb, a, b);
    forall j | 0 <= j < |r| ensures Get(d, r[j].key) == Some(r[j].value) {
    }
    OverlayMatches(r, d);
  }

  /** An overlay of the id and three fields read as in `d`. */
  lemma IdThree(id: Value, ka: string, kb: string, kc: string, a: Value, b: Value, c: Value, d: Record)
    requires ka != "id" && kb != "id" && kc != "id" && ka != kb && ka != kc && kb != kc
    requires Get(d, ka) == Some(a) && Get(d, kb) == Some(b) && Get(d, kc) == Some(c)
    ensures "id" in Keys([Entry("id", id), Entry(ka, a), Entry(kb, b), Entry(kc, c)])
    ensures forall k' :: k' != "id" && k' in Keys([Entry("id", id), Entry(ka, a), Entry(kb, b), Entry(kc, c)]) ==>
      Get([Entry("id", id), Entry(ka, a), Entry(kb, b), Entry(kc, c)], k') == Get(d, k')
  {
    var r := [Entry("id", id), Entry(ka, a), Entry(kb, b), Entry(kc, c)];
    FourFields("id", ka, kb, kc, id, a, b, c);
    forall j | 0 <= j < |r| && r[j].key != "id" ensures Get(d, r[j].key) == Some(r[j].value) {
      assert j == 1 || j == 2 || j == 3;
    }
    OverlayMatches(r, d);
  }

  lemma FourFields(ka: string, kb: string, kc: string, kd: string, a: Value, b: Value, c: Value, d: Value)
    requires ka != kb && ka != kc && ka != kd && kb != kc && kb != kd && kc != kd
    ensures Keys([Entry(ka, a), Entry(kb, b), Entry(kc, c), Entry(kd, d)]) == [ka, kb, kc, kd]
    ensures DistinctKeys([Entry(ka, a), Entry(kb, b), Entry(kc, c), Entry(kd, d)])
  {
  }

  /** A record with distinct keys whose every entry but `id` is also in `d` reads as `d` does. */
  lemma OverlayMatches(r: Record, d: Record)
    requires DistinctKeys(r)
    requires forall j :: 0 <= j < |r| && r[j].key != "id" ==> Get(d, r[j].key) == Some(r[j].value)
    ensures forall k :: k != "id" && k in Keys(r) ==> Get(r, k) == Get(d, k)
  {
    forall k | k != "id" && k in Keys(r) ensures Get(r, k) == Get(d, k) {
      var j :| 0 <= j < |r| && Keys(r)[j] == k;
      GetDistinct(r, j);
    }
  }

  /** The panel: its copy of the node's data, and the form's values. */
  class ConfigPanel {
    var formData: Record
    var values: Record

    constructor (n: Node)
      ensures formData == n.data && values == []
    {
      formData := n.data;
      values := [];
    }

    /** The population effect: sets each field of `Population` in turn. */
    method Populate(n: Node, stringify: Value -> string)
      modifies this
      ensures values == PutAll(old(values), Population(n, stringify)) && formData == old(formData)
    {
      var fields := Population(n, stringify);
      var i := 0;
      while i < |fields|
        invariant 0 <= i <= |fields|
        invariant PutAll(values, fields[i..]) == PutAll(old(values), fields)
        invariant formData == old(formData)
      {
        assert fields[i..][1..] == fields[i + 1..];
        values := Put(values, fields[i].key, fields[i].value);
        i := i + 1;
      }
      assert fields[i..] == [];
    }

    /** A new node's data replaces the panel's copy. */
    method SyncFormData(n: Node)
      modifies this
      ensures formData == n.data && values == old(values)
    {
      formData := n.data;
    }

    /**
     * Submit through the form's schema gate: a form the schema rejects (`valid` false) runs no
     * callback; otherwise, for a known type, keeps and dispatches the data with the type's fields
     * spread over it, and for any other type, or a payload that does not parse, changes and
     * dispatches nothing.
     */
    method HandleSubmit(valid: bool, nodeId: string, form: string -> Value, parse: string -> Option<Value>, parseInt: string -> Value)
      returns (dispatched: Option<Record>)
      modifies this
      ensures !valid ==> dispatched == None
      ensures valid ==> dispatched == SubmittedData(old(formData), nodeId, form, parse, parseInt)
      ensures formData == if dispatched.Some? then dispatched.value else old(formData)
      ensures values == old(values)
    {
      if !valid {
        return None;
      }
      dispatched := SubmittedData(formData, nodeId, form, parse, parseInt);
      if dispatched.Some? {
        formData := dispatched.value;
      }
    }
  }
}
