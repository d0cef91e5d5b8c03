/** The load profile parser: validation and extraction over a YAML node tree
    (parser.go). */
module Parser {
  import opened Wrappers
  import opened Enumerations

  /** A YAML node as the go-gypsy library hands it over; `Nil` is the nil
      interface value (a key whose value is empty). */
  datatype Node = Nil | Scalar(text: string) | List(items: seq<Node>) | Map(entries: map<string, Node>)

  /** The standard-library scalar parsers, which the model does not
      re-implement: `strconv.Atoi`, `strconv.ParseFloat(_, 64)` and
      `time.ParseDuration` (a duration in nanoseconds). `None` is a rejection. */
  datatype Scalars = Scalars(
    atoi: string -> Option<int>,
    parseFloat: string -> Option<real>,
    parseDuration: string -> Option<int>)

  /** The optional and required keys of one client's map, in the order the
      parser looks at them. */
  datatype Field = Distribution | Parameters | MaxNrReq | MaxDuration | WaitFor {
    function Key(): string {
      match this
      case Distribution => "distribution"
      case Parameters => "parameters"
      case MaxNrReq => "max-number-of-request"
      case MaxDuration => "max-duration"
      case WaitFor => "wait-for"
    }

    function Rank(): nat {
      match this
      case Distribution => 0
      case Parameters => 1
      case MaxNrReq => 2
      case MaxDuration => 3
      case WaitFor => 4
    }
  }

  /** Every error the parser reports, one constructor per message. */
  datatype ParseError =
    | DurationNotScalar
    | IntNotScalar
    | StringNotScalar
    | Rejected(text: string)                 // the library parser's own error
    | ElementNotScalar(index: nat)
    | ElementNotFloat(index: nat)
    | NotList
    | FieldError(client: string, field: Field, cause: ParseError)
    | NoDistribution(client: string)
    | ClientNotMap(client: string)
    | NotString(key: string)
    | CannotFind(key: string)
    | ProfileNotMap
    | NoClient

  /** One client population. `parameters` is `None` for Go's nil slice. */
  datatype ClientProfile = ClientProfile(
    name: string,
    distribution: string,
    parameters: Option<seq<real>>,
    maxNrReq: int,
    maxDuration: int,
    firstWait: int)

  datatype Profile = Profile(url: string, requestMethod: string, template: string, clients: seq<ClientProfile>)

  /** The top-level keys that are not client names. */
  const Reserved: set<string> := {"url", "method", "template"}

  /* ---------------------------------------------------------------------
     Scalars
     --------------------------------------------------------------------- */

  /** A duration must be a scalar (nil included is rejected) and is then
      exactly what the library makes of its text. */
  function ParseDuration(lib: Scalars, node: Node): (r: Result<int, ParseError>)
    ensures !node.Scalar? ==> r == Failure(DurationNotScalar)
    ensures node.Scalar? ==> (r.Success? <==> lib.parseDuration(node.text).Some?)
    ensures r.Success? ==> node.Scalar? && lib.parseDuration(node.text) == Some(r.value)
    ensures r.Failure? && node.Scalar? ==> r.error == Rejected(node.text)
  {
    match node
    case Scalar(s) =>
      (match lib.parseDuration(s)
       case Some(d) => Success(d)
       case None => Failure(Rejected(s)))
    case _ => Failure(DurationNotScalar)
  }

  /** An integer must be a scalar (nil included is rejected) and is then
      exactly what `strconv.Atoi` makes of its text. */
  function ParseInt(lib: Scalars, node: Node): (r: Result<int, ParseError>)
    ensures !node.Scalar? ==> r == Failure(IntNotScalar)
    ensures node.Scalar? ==> (r.Success? <==> lib.atoi(node.text).Some?)
    ensures r.Success? ==> node.Scalar? && lib.atoi(node.text) == Some(r.value)
    ensures r.Failure? && node.Scalar? ==> r.error == Rejected(node.text)
  {
    match node
    case Scalar(s) =>
      (match lib.atoi(s)
       case Some(n) => Success(n)
       case None => Failure(Rejected(s)))
    case _ => Failure(IntNotScalar)
  }

  /** A string is a scalar's text; a nil node reads as the empty string; a
      list or a map is an error. */
  function ParseString(node: Node): (r: Result<string, ParseError>)
    ensures r.Success? <==> (node.Nil? || node.Scalar?)
    ensures r.Success? ==> r.value == (if node.Nil? then "" else node.text)
    ensures r.Failure? ==> r.error == StringNotScalar
  {
    match node
    case Nil => Success("")
    case Scalar(s) => Success(s)
    case _ => Failure(StringNotScalar)
  }

  /* ---------------------------------------------------------------------
     Float lists
     --------------------------------------------------------------------- */

  /** The float one list element denotes, if any: its string reading
      (nil reads as "") parsed by `strconv.ParseFloat`. */
  function ElementFloat(lib: Scalars, n: Node): Option<real> {
    match ParseString(n)
    case Success(s) => lib.parseFloat(s)
    case Failure(_) => None
  }

  /** The error for a rejected element at index `k`. */
  function ElementError(n: Node, k: nat): ParseError {
    if ParseString(n).Failure? then ElementNotScalar(k) else ElementNotFloat(k)
  }

  /** `k` is the first index at or after `from` whose element is rejected. */
  ghost predicate FirstRejected(lib: Scalars, items: seq<Node>, from: nat, k: nat) {
    && from <= k < |items|
    && ElementFloat(lib, items[k]).None?
    && (forall j :: from <= j < k ==> ElementFloat(lib, items[j]).Some?)
  }

  /** The loop over the elements from index `i` on, stopping at the first
      rejected one. */
  function ParseFloatsFrom(lib: Scalars, items: seq<Node>, i: nat): (r: Result<seq<real>, ParseError>)
    requires i <= |items|
    decreases |items| - i
    ensures r.Success? <==> forall j :: i <= j < |items| ==> ElementFloat(lib, items[j]).Some?
    ensures r.Success? ==> |r.value| == |items| - i
    ensures r.Success? ==> forall j :: i <= j < |items| ==> ElementFloat(lib, items[j]) == Some(r.value[j - i])
  {
    if i == |items| then Success([])
    else
      match ElementFloat(lib, items[i])
      case None => Failure(ElementError(items[i], i))
      case Some(f) =>
        var rest := ParseFloatsFrom(lib, items, i + 1);
        if rest.Failure? then rest else Success([f] + rest.value)
  }

  /** A failing element loop reports the first rejected element from `i`
      on; the index is returned as the witness. */
  lemma {:induction false} FirstRejectedReported(lib: Scalars, items: seq<Node>, i: nat) returns (k: nat)
    requires i <= |items| && ParseFloatsFrom(lib, items, i).Failure?
    ensures FirstRejected(lib, items, i, k)
    ensures ParseFloatsFrom(lib, items, i).error == ElementError(items[k], k)
    decreases |items| - i
  {
    if ElementFloat(lib, items[i]).None? {
      k := i;
    } else {
      k := FirstRejectedReported(lib, items, i + 1);
    }
  }

  /** A float list: nil gives a nil list, a list gives its elements parsed in
      order, anything else is an error. */
  function ParseFloatList(lib: Scalars, node: Node): (r: Result<Option<seq<real>>, ParseError>)
    ensures node.Nil? ==> r == Success(None)
    ensures (node.Scalar? || node.Map?) ==> r == Failure(NotList)
    ensures node.List? ==> (r.Success? <==> forall j :: 0 <= j < |node.items| ==> ElementFloat(lib, node.items[j]).Some?)
    ensures node.List? && r.Success? ==>
      && r.value.Some?
      && |r.value.value| == |node.items|
      && forall j :: 0 <= j < |node.items| ==> ElementFloat(lib, node.items[j]) == Some(r.value.value[j])
    ensures node.List? && r.Failure? ==>
      exists k: nat :: FirstRejected(lib, node.items, 0, k) && r.error == ElementError(node.items[k], k)
  {
    match node
    case Nil => Success(None)
    case List(items) =>
      var r := ParseFloatsFrom(lib, items, 0);
      if r.Failure? then
        assert exists k: nat :: FirstRejected(lib, items, 0, k) && r.error == ElementError(items[k], k) by {
          var k := FirstRejectedReported(lib, items, 0);
        }
        Failure(r.error)
      else Success(Some(r.value))
    case _ => Failure(NotList)
  }

  /* ---------------------------------------------------------------------
     Client profiles
     --------------------------------------------------------------------- */

  /** Wraps a field's error with the client name and the field. */
  function InField<T>(name: string, f: Field, r: Result<T, ParseError>): Result<T, ParseError> {
    match r
    case Success(v) => Success(v)
    case Failure(e) => Failure(FieldError(name, f, e))
  }

  /** The field-specific parse of a present key, forgetting the value. */
  function FieldCheck(lib: Scalars, f: Field, n: Node): Result<(), ParseError> {
    match f
    case Distribution => if ParseString(n).Success? then Success(()) else Failure(ParseString(n).error)
    case Parameters => if ParseFloatList(lib, n).Success? then Success(()) else Failure(ParseFloatList(lib, n).error)
    case MaxNrReq => if ParseInt(lib, n).Success? then Success(()) else Failure(ParseInt(lib, n).error)
    case MaxDuration => if ParseDuration(lib, n).Success? then Success(()) else Failure(ParseDuration(lib, n).error)
    case WaitFor => if ParseDuration(lib, n).Success? then Success(()) else Failure(ParseDuration(lib, n).error)
  }

  /** A field is acceptable when it is absent or its value parses. */
  predicate FieldOk(lib: Scalars, kv: map<string, Node>, f: Field) {
    f.Key() in kv ==> FieldCheck(lib, f, kv[f.Key()]).Success?
  }

  /** One client's map. The name is used only in error messages and is never
      stored: the profile's `name` stays empty. */
  function ParseClientProfile(lib: Scalars, clientName: string, node: Node): (r: Result<ClientProfile, ParseError>)
    ensures !node.Map? ==> r == Failure(ClientNotMap(clientName))
    ensures node.Map? && "distribution" !in node.entries ==> r == Failure(NoDistribution(clientName))
    ensures r.Success? ==> node.Map? && r.value.name == ""
  {
    if !node.Map? then Failure(ClientNotMap(clientName))
    else
      var kv := node.entries;
      if "distribution" !in kv then Failure(NoDistribution(clientName))
      else
        var dist :- InField(clientName, Distribution, ParseString(kv["distribution"]));
        var params :- InField(clientName, Parameters,
          if "parameters" in kv then ParseFloatList(lib, kv["parameters"]) else Success(None));
        var maxNrReq :- InField(clientName, MaxNrReq,
          if "max-number-of-request" in kv then ParseInt(lib, kv["max-number-of-request"]) else Success(0));
        var maxDuration :- InField(clientName, MaxDuration,
          if "max-duration" in kv then ParseDuration(lib, kv["max-duration"]) else Success(0));
        var firstWait :- InField(clientName, WaitFor,
          if "wait-for" in kv then ParseDuration(lib, kv["wait-for"]) else Success(0));
        Success(ClientProfile("", dist, params, maxNrReq, maxDuration, firstWait))
  }

  /** `f` is the first field, in the parser's order, whose value is rejected. */
  ghost predicate FirstBadField(lib: Scalars, kv: map<string, Node>, f: Field) {
    && !FieldOk(lib, kv, f)
    && forall g: Field :: g.Rank() < f.Rank() ==> FieldOk(lib, kv, g)
  }

  /** A client map with a distribution parses exactly when every field is
      acceptable, and otherwise reports the first rejected field, wrapped with
      the client's name. */
  lemma ClientProfileOutcome(lib: Scalars, clientName: string, node: Node)
    requires node.Map? && "distribution" in node.entries
    ensures var r := ParseClientProfile(lib, clientName, node);
      r.Success? <==> forall f: Field :: FieldOk(lib, node.entries, f)
    ensures var r := ParseClientProfile(lib, clientName, node);
      r.Failure? ==> exists f: Field ::
        && FirstBadField(lib, node.entries, f)
        && r.error == FieldError(clientName, f, FieldCheck(lib, f, node.entries[f.Key()]).error)
  {
    var kv := node.entries;
    var r := ParseClientProfile(lib, clientName, node);
    if !FieldOk(lib, kv, Distribution) {
      assert FirstBadField(lib, kv, Distribution);
    } else if !FieldOk(lib, kv, Parameters) {
      assert FirstBadField(lib, kv, Parameters);
    } else if !FieldOk(lib, kv, MaxNrReq) {
      assert FirstBadField(lib, kv, MaxNrReq);
    } else if !FieldOk(lib, kv, MaxDuration) {
      assert FirstBadField(lib, kv, MaxDuration);
    } else if !FieldOk(lib, kv, WaitFor) {
      assert FirstBadField(lib, kv, WaitFor);
    } else {
      assert r.Success?;
      forall f: Field
        ensures FieldOk(lib, kv, f)
      {
        match f
        case Distribution =>
        case Parameters =>
        case MaxNrReq =>
        case MaxDuration =>
        case WaitFor =>
      }
    }
  }

  /** A successfully parsed client holds no name, the distribution string,
      and each optional field either its parsed value or, when the key is
      absent, nil / zero. */
  lemma ClientProfileFields(lib: Scalars, clientName: string, node: Node)
    ensures var r := ParseClientProfile(lib, clientName, node);
      r.Success? ==> node.Map? && ClientFieldsFrom(lib, node.entries, r.value)
  {
  }

  /** What a successfully parsed profile holds: no name, the distribution
      string, and each optional field either its parsed value or, when the key
      is absent, nil / zero. */
  ghost predicate ClientFieldsFrom(lib: Scalars, kv: map<string, Node>, c: ClientProfile) {
    && c.name == ""
    && "distribution" in kv && ParseString(kv["distribution"]) == Success(c.distribution)
    && ("parameters" !in kv ==> c.parameters == None)
    && ("parameters" in kv ==> ParseFloatList(lib, kv["parameters"]) == Success(c.parameters))
    && ("max-number-of-request" !in kv ==> c.maxNrReq == 0)
    && ("max-number-of-request" in kv ==> ParseInt(lib, kv["max-number-of-request"]) == Success(c.maxNrReq))
    && ("max-duration" !in kv ==> c.maxDuration == 0)
    && ("max-duration" in kv ==> ParseDuration(lib, kv["max-duration"]) == Success(c.maxDuration))
    && ("wait-for" !in kv ==> c.firstWait == 0)
    && ("wait-for" in kv ==> ParseDuration(lib, kv["wait-for"]) == Success(c.firstWait))
  }

  /* ---------------------------------------------------------------------
     Profiles
     --------------------------------------------------------------------- */

  /** A string under `key`: a missing key and a non-string value are two
      different errors; a present nil value reads as "". */
  function ParseStringFromMap(kv: map<string, Node>, key: string): (r: Result<string, ParseError>)
    ensures key !in kv ==> r == Failure(CannotFind(key))
    ensures key in kv ==> (r.Success? <==> (kv[key].Nil? || kv[key].Scalar?))
    ensures key in kv && r.Failure? ==> r.error == NotString(key)
    ensures r.Success? ==> key in kv && ParseString(kv[key]) == Success(r.value)
  {
    if key in kv then
      match ParseString(kv[key])
      case Success(s) => Success(s)
      case Failure(_) => Failure(NotString(key))
    else Failure(CannotFind(key))
  }

  /** The keys of `keys` that name clients, in the same order. */
  function ClientKeys(keys: seq<string>): (ks: seq<string>)
    ensures forall k :: k in ks <==> k in keys && k !in Reserved
  {
    if keys == [] then []
    else if keys[0] in Reserved then ClientKeys(keys[1..])
    else [keys[0]] + ClientKeys(keys[1..])
  }

  /** A parser for one client: its key and its node to its profile. */
  type ClientParser = (string, Node) -> Result<ClientProfile, ParseError>

  /** `ParseClientProfile` with the library parsers fixed. */
  function ClientParserOf(lib: Scalars): ClientParser {
    (k, n) => ParseClientProfile(lib, k, n)
  }

  /** Whether the client under key `k` parses. */
  predicate ClientOk(parse: ClientParser, kv: map<string, Node>, k: string)
    requires k in kv
  {
    parse(k, kv[k]).Success?
  }

  /** The loop over the client keys `ks`, in iteration order (the reserved
      keys have already been skipped, see `ClientKeys`): each key is parsed as
      a client and the first failing client aborts the loop. */
  function ParseClients(parse: ClientParser, kv: map<string, Node>, ks: seq<string>): (r: Result<seq<ClientProfile>, ParseError>)
    requires forall k :: k in ks ==> k in kv
    ensures r.Success? ==> |r.value| == |ks|
  {
    if ks == [] then Success([])
    else
      var c :- parse(ks[0], kv[ks[0]]);
      var rest :- ParseClients(parse, kv, ks[1..]);
      Success([c] + rest)
  }

  /** The client loop succeeds exactly when every client key parses, and then
      yields those clients in iteration order. */
  lemma {:induction false} ParseClientsSuccess(parse: ClientParser, kv: map<string, Node>, ks: seq<string>)
    requires forall k :: k in ks ==> k in kv
    ensures var r := ParseClients(parse, kv, ks);
      r.Success? <==> forall j :: 0 <= j < |ks| ==> ClientOk(parse, kv, ks[j])
    ensures var r := ParseClients(parse, kv, ks);
      r.Success? ==> forall j :: 0 <= j < |ks| ==> parse(ks[j], kv[ks[j]]) == Success(r.value[j])
    decreases |ks|
  {
    if ks != [] {
      var tail := ks[1..];
      assert forall k :: k in tail ==> k in ks;
      ParseClientsSuccess(parse, kv, tail);
      var r, r' := ParseClients(parse, kv, ks), ParseClients(parse, kv, tail);
      var c := parse(ks[0], kv[ks[0]]);
      if c.Success? && r'.Success? {
        assert r.value == [c.value] + r'.value;
        assert forall j :: 1 <= j < |ks| ==> ks[j] == tail[j - 1];
      }
      if r.Success? {
        assert c.Success? && r'.Success?;
      } else if c.Success? {
        assert r'.Failure?;
        assert forall j :: 1 <= j < |ks| ==> ks[j] == tail[j - 1];
      }
    }
  }

  /** A failing client loop reports the error of the first client key, in
      iteration order, that does not parse. */
  lemma {:induction false} ParseClientsFailure(parse: ClientParser, kv: map<string, Node>, ks: seq<string>)
    requires forall k :: k in ks ==> k in kv
    ensures var r := ParseClients(parse, kv, ks);
      r.Failure? ==> exists j :: FirstBadClient(parse, kv, ks, j) && parse(ks[j], kv[ks[j]]) == Failure(r.error)
    decreases |ks|
  {
    if ks != [] {
      var tail := ks[1..];
      assert forall k :: k in tail ==> k in ks;
      ParseClientsFailure(parse, kv, tail);
      var r' := ParseClients(parse, kv, tail);
      var c := parse(ks[0], kv[ks[0]]);
      if c.Failure? {
        assert FirstBadClient(parse, kv, ks, 0);
      } else if r'.Failure? {
        var j :| FirstBadClient(parse, kv, tail, j) && parse(tail[j], kv[tail[j]]) == Failure(r'.error);
        assert tail[j] == ks[j + 1];
        assert forall i :: 1 <= i <= j ==> ks[i] == tail[i - 1];
        assert FirstBadClient(parse, kv, ks, j + 1);
      }
    }
  }

  /** `j` is the first client key, in iteration order, that does not parse. */
  ghost predicate FirstBadClient(parse: ClientParser, kv: map<string, Node>, ks: seq<string>, j: int)
    requires forall k :: k in ks ==> k in kv
  {
    && 0 <= j < |ks|
    && !ClientOk(parse, kv, ks[j])
    && forall i :: 0 <= i < j ==> ClientOk(parse, kv, ks[i])
  }

  /** The whole profile. `order` is the order in which Go happens to range
      over the root map, which the language leaves unspecified. */
  function ParseProfile(lib: Scalars, node: Node, order: seq<string>): (r: Result<Profile, ParseError>)
    requires node.Map? ==> IsEnumeration(order, node.entries.Keys)
    ensures !node.Map? ==> r == Failure(ProfileNotMap)
    ensures node.Map? && "url" !in node.entries ==> r == Failure(CannotFind("url"))
    ensures node.Map? && "url" in node.entries && ParseString(node.entries["url"]).Failure? ==>
      r == Failure(NotString("url"))
    ensures r.Success? ==> node.Map? && ParseStringFromMap(node.entries, "url") == Success(r.value.url)
    ensures r.Success? ==> r.value.requestMethod == StringOr(node.entries, "method", "GET")
    ensures r.Success? ==> r.value.template == StringOr(node.entries, "template", "")
    ensures r.Success? ==> |r.value.clients| >= 1
  {
    if !node.Map? then Failure(ProfileNotMap)
    else
      var kv := node.entries;
      var url :- ParseStringFromMap(kv, "url");
      var requestMethod := match ParseStringFromMap(kv, "method")
        case Success(m) => m
        case Failure(_) => "GET";
      var template := match ParseStringFromMap(kv, "template")
        case Success(t) => t
        case Failure(_) => "";
      var clients :- ParseClients(ClientParserOf(lib), kv, ClientKeys(order));
      if |clients| == 0 then Failure(NoClient)
      else Success(Profile(url, requestMethod, template, clients))
  }

  /** Reference reading of an optional top-level string: the value when the
      key holds a scalar, "" when it holds nil, and the fallback when it is
      missing or holds a list or a map. */
  function StringOr(kv: map<string, Node>, key: string, fallback: string): string {
    if key !in kv then fallback
    else match kv[key]
      case Nil => ""
      case Scalar(s) => s
      case _ => fallback
  }

  /** Filtering out the reserved keys turns an enumeration of the map's keys
      into an enumeration of its client keys. */
  lemma {:induction false} ClientKeysEnumerate(keys: seq<string>, all: set<string>)
    requires IsEnumeration(keys, all)
    ensures IsEnumeration(ClientKeys(keys), all - Reserved)
    decreases |keys|
  {
    if keys != [] {
      var tail := keys[1..];
      assert IsEnumeration(tail, all - {keys[0]}) by {
        forall i, j | 0 <= i < j < |tail|
          ensures tail[i] != tail[j]
        {
          assert tail[i] == keys[i + 1] && tail[j] == keys[j + 1];
        }
        forall x | x in tail
          ensures x != keys[0]
        {
          var i :| 0 <= i < |tail| && tail[i] == x;
          assert keys[i + 1] == x;
        }
      }
      ClientKeysEnumerate(tail, all - {keys[0]});
      var ks' := ClientKeys(tail);
      if keys[0] !in Reserved {
        assert ClientKeys(keys) == [keys[0]] + ks';
        assert keys[0] !in ks';
      }
    }
  }

  /** A successful profile has exactly one client per non-reserved key: the
      clients are the parses of the client keys, in iteration order
      (`ClientKeysEnumerate`: those keys are each non-reserved key once). */
  lemma ProfileClients(lib: Scalars, node: Node, order: seq<string>)
    requires node.Map? ==> IsEnumeration(order, node.entries.Keys)
    ensures var r := ParseProfile(lib, node, order); var ks := ClientKeys(order);
      r.Success? ==>
        && IsEnumeration(ks, node.entries.Keys - Reserved)
        && |r.value.clients| == |ks|
        && forall j :: 0 <= j < |ks| ==>
             ks[j] in node.entries && ParseClientProfile(lib, ks[j], node.entries[ks[j]]) == Success(r.value.clients[j])
  {
    var r := ParseProfile(lib, node, order);
    if r.Success? {
      var kv := node.entries;
      var parse := ClientParserOf(lib);
      var ks := ClientKeys(order);
      var cs := ParseClients(parse, kv, ks);
      ClientLoopValues(parse, kv, order);
      assert r.value.clients == cs.value;
    }
  }

  /** `Name` is never assigned: no client of a successful profile has one. */
  lemma ProfileClientsUnnamed(lib: Scalars, node: Node, order: seq<string>)
    requires node.Map? ==> IsEnumeration(order, node.entries.Keys)
    ensures var r := ParseProfile(lib, node, order);
      r.Success? ==> forall c :: c in r.value.clients ==> c.name == ""
  {
    var r := ParseProfile(lib, node, order);
    if r.Success? {
      ProfileClients(lib, node, order);
      var ks := ClientKeys(order);
      forall c | c in r.value.clients
        ensures c.name == ""
      {
        var j :| 0 <= j < |r.value.clients| && r.value.clients[j] == c;
        assert ParseClientProfile(lib, ks[j], node.entries[ks[j]]) == Success(c);
      }
    }
  }

  /** A successful client loop over an enumeration of the map's keys yields
      one client per client key, in the order of the enumerated client keys. */
  lemma ClientLoopValues(parse: ClientParser, kv: map<string, Node>, order: seq<string>)
    requires IsEnumeration(order, kv.Keys)
    ensures var ks := ClientKeys(order); var cs := ParseClients(parse, kv, ks);
      cs.Success? ==>
        && IsEnumeration(ks, kv.Keys - Reserved)
        && |cs.value| == |ks|
        && forall j :: 0 <= j < |ks| ==> parse(ks[j], kv[ks[j]]) == Success(cs.value[j])
  {
    var ks := ClientKeys(order);
    ClientKeysEnumerate(order, kv.Keys);
    ParseClientsSuccess(parse, kv, ks);
  }

  /** The profile parses exactly when the root is a map, `url` holds a string,
      there is at least one client key, and every client parses. */
  lemma ProfileSuccessIff(lib: Scalars, node: Node, order: seq<string>)
    requires node.Map? ==> IsEnumeration(order, node.entries.Keys)
    ensures ParseProfile(lib, node, order).Success? <==>
      && node.Map?
      && ParseStringFromMap(node.entries, "url").Success?
      && node.entries.Keys - Reserved != {}
      && forall k :: k in node.entries && k !in Reserved ==> ParseClientProfile(lib, k, node.entries[k]).Success?
  {
    if node.Map? && ParseStringFromMap(node.entries, "url").Success? {
      var kv := node.entries;
      var parse := ClientParserOf(lib);
      ClientLoopSuccess(parse, kv, order);
      assert (forall k :: k in kv && k !in Reserved ==> ClientOk(parse, kv, k)) <==>
             (forall k :: k in kv && k !in Reserved ==> ParseClientProfile(lib, k, kv[k]).Success?);
    }
  }

  /** The client loop yields a non-empty list exactly when there is a client
      key and every client key parses. */
  lemma ClientLoopSuccess(parse: ClientParser, kv: map<string, Node>, order: seq<string>)
    requires IsEnumeration(order, kv.Keys)
    ensures var cs := ParseClients(parse, kv, ClientKeys(order));
      (cs.Success? && |cs.value| != 0) <==>
      (kv.Keys - Reserved != {} && forall k :: k in kv && k !in Reserved ==> ClientOk(parse, kv, k))
  {
    var cs := ParseClients(parse, kv, ClientKeys(order));
    ClientKeysEnumerate(order, kv.Keys);
    var ks := ClientKeys(order);
    var keys := kv.Keys - Reserved;
    EnumerationSize(ks, keys);
    assert keys != {} <==> |ks| != 0;
    if cs.Success? {
      ParseClientsSuccess(parse, kv, ClientKeys(order));
      AllClientsOk(parse, kv, ks, keys);
    } else {
      ParseClientsFailure(parse, kv, ClientKeys(order));
      var j :| FirstBadClient(parse, kv, ks, j) && parse(ks[j], kv[ks[j]]) == Failure(cs.error);
      assert ks[j] in kv && ks[j] !in Reserved && !ClientOk(parse, kv, ks[j]);
    }
  }

  /** Every key of an enumeration parses iff every key of the set does. */
  lemma AllClientsOk(parse: ClientParser, kv: map<string, Node>, ks: seq<string>, keys: set<string>)
    requires IsEnumeration(ks, keys) && keys <= kv.Keys
    ensures (forall j :: 0 <= j < |ks| ==> ClientOk(parse, kv, ks[j])) <==>
            (forall k :: k in keys ==> ClientOk(parse, kv, k))
  {
    if forall j :: 0 <= j < |ks| ==> ClientOk(parse, kv, ks[j]) {
      forall k | k in keys
        ensures ClientOk(parse, kv, k)
      {
        var j :| 0 <= j < |ks| && ks[j] == k;
      }
    }
  }

  /** With a valid `url` and no key other than the reserved ones, the result
      is the "no client" error. */
  lemma NoClientError(lib: Scalars, node: Node, order: seq<string>)
    requires node.Map? && IsEnumeration(order, node.entries.Keys)
    requires ParseStringFromMap(node.entries, "url").Success?
    requires node.entries.Keys <= Reserved
    ensures ParseProfile(lib, node, order) == Failure(NoClient)
  {
    var parse := ClientParserOf(lib);
    ParseClientsSuccess(parse, node.entries, ClientKeys(order));
    ClientKeysEnumerate(order, node.entries.Keys);
    EnumerationSize(ClientKeys(order), node.entries.Keys - Reserved);
    assert node.entries.Keys - Reserved == {};
  }

  /** Once `url` is valid, a failure is either "no client" (and there is no
      client key) or the error of some client key whose profile fails. */
  lemma ReportedClientError(lib: Scalars, node: Node, order: seq<string>)
    requires node.Map? && IsEnumeration(order, node.entries.Keys)
    requires ParseStringFromMap(node.entries, "url").Success?
    ensures var r := ParseProfile(lib, node, order);
      r.Failure? ==>
        || (r.error == NoClient && node.entries.Keys <= Reserved)
        || exists k :: k in node.entries && k !in Reserved && ParseClientProfile(lib, k, node.entries[k]) == Failure(r.error)
  {
    var kv := node.entries;
    var parse := ClientParserOf(lib);
    var r := ParseProfile(lib, node, order);
    var cs := ParseClients(parse, kv, ClientKeys(order));
    ClientKeysEnumerate(order, kv.Keys);
    var ks := ClientKeys(order);
    EnumerationSize(ks, kv.Keys - Reserved);
    if cs.Failure? {
      ParseClientsFailure(parse, kv, ClientKeys(order));
      var j :| FirstBadClient(parse, kv, ks, j) && parse(ks[j], kv[ks[j]]) == Failure(cs.error);
      assert ks[j] in kv && ks[j] !in Reserved;
      assert ParseClientProfile(lib, ks[j], kv[ks[j]]) == Failure(r.error);
    } else if r.Failure? {
      ParseClientsSuccess(parse, kv, ClientKeys(order));
      assert |ks| == 0;
      assert kv.Keys - Reserved == {};
    }
  }

  /** Which failing client is reported depends only on the iteration order:
      with a valid `url`, every failing client is the one reported under some
      order of the map's keys. */
  lemma AnyFailingClientMayBeReported(lib: Scalars, node: Node, k: string)
    requires node.Map? && k in node.entries && k !in Reserved
    requires ParseStringFromMap(node.entries, "url").Success?
    requires ParseClientProfile(lib, k, node.entries[k]).Failure?
    ensures exists order ::
      && IsEnumeration(order, node.entries.Keys)
      && ParseProfile(lib, node, order) == Failure(ParseClientProfile(lib, k, node.entries[k]).error)
  {
    var rest := Enumerate(node.entries.Keys - {k});
    ConsEnumeration(k, rest, node.entries.Keys);
    FirstKeyReported(lib, node, [k] + rest);
  }

  /** When the iteration starts at a failing client key, that client's
      error is the profile's error. */
  lemma FirstKeyReported(lib: Scalars, node: Node, order: seq<string>)
    requires node.Map? && IsEnumeration(order, node.entries.Keys)
    requires ParseStringFromMap(node.entries, "url").Success?
    requires order != [] && order[0] !in Reserved
    requires ParseClientProfile(lib, order[0], node.entries[order[0]]).Failure?
    ensures ParseProfile(lib, node, order) == Failure(ParseClientProfile(lib, order[0], node.entries[order[0]]).error)
  {
    var ks := ClientKeys(order);
    assert ks == [order[0]] + ClientKeys(order[1..]);
  }

  /* ---------------------------------------------------------------------
     The profile parser as written
     --------------------------------------------------------------------- */

  /** The outcome of a Go call that may panic. */
  datatype Run<T> = Panicked | Returned(result: T)

  /** `ParseProfile` exactly as written: before anything else it makes the
      client slice with capacity `len(kv)-1`, and Go's runtime panics on a
      negative capacity, so an empty root map crashes the parser instead of
      being reported as a missing `url`. */
  function ParseProfileAsWritten(lib: Scalars, node: Node, order: seq<string>): (r: Run<Result<Profile, ParseError>>)
    requires node.Map? ==> IsEnumeration(order, node.entries.Keys)
    ensures r.Panicked? <==> node.Map? && node.entries == map[]
    ensures r.Returned? ==> r.result == ParseProfile(lib, node, order)
  {
    if node.Map? && |node.entries| - 1 < 0 then Panicked
    else Returned(ParseProfile(lib, node, order))
  }

  /** The empty root map: the code as written panics, while the corrected
      parser reports the missing `url`. */
  lemma EmptyRootMap(lib: Scalars)
    ensures ParseProfileAsWritten(lib, Map(map[]), []) == Panicked
    ensures ParseProfile(lib, Map(map[]), []) == Failure(CannotFind("url"))
  {
  }
}
