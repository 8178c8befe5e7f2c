/** The public request methods of both clients. Each one builds the query
    parameters of one action step by step and hands them to `Send`, which
    performs the HTTP GET and decodes the reply with `Decoder.Response`.
    The HTTP GET and the JSON parser are parameters of the client. */
module Requests {
  import opened Wrappers
  import opened Decoder

  /** An argument as a caller may pass it; `VNone` is Python's `None`,
      the default of every optional argument. */
  datatype Value = VNone | VBool(b: bool) | VInt(i: int) | VStr(s: string)

  /** Python truthiness: `None`, `False`, `0` and `""` are false, every
      other value is true. */
  function Truthy(v: Value): (r: bool)
    ensures r <==> v !in {VNone, VBool(false), VInt(0), VStr("")}
  {
    match v
    case VNone => false
    case VBool(b) => b
    case VInt(i) => i != 0
    case VStr(s) => s != ""
  }

  /** The query parameter names the clients ever send. */
  datatype Param =
    | ApiKey | Action | Service | Forward | FreePrice | MaxPrice | PhoneException
    | Operator | Ref | Country | Verification | MultiService | Id | Status | Time
    | Url | RentTime | ActivationId | Date

  /** The name a parameter goes out under. */
  function Name(p: Param): string
  {
    match p
    case ApiKey => "api_key"
    case Action => "action"
    case Service => "service"
    case Forward => "forward"
    case FreePrice => "freePrice"
    case MaxPrice => "maxPrice"
    case PhoneException => "phoneException"
    case Operator => "operator"
    case Ref => "ref"
    case Country => "country"
    case Verification => "verification"
    case MultiService => "multiService"
    case Id => "id"
    case Status => "status"
    case Time => "time"
    case Url => "url"
    case RentTime => "rent_time"
    case ActivationId => "activationId"
    case Date => "date"
  }

  /** Distinct parameters go out under distinct names. */
  lemma NameInjective(p: Param, q: Param)
    ensures Name(p) == Name(q) ==> p == q
  {
  }

  /** The query parameters of one request. */
  type Payload = map<Param, Value>

  /** How a request method decides whether to send an argument. */
  datatype Inclusion =
    | WhenTruthy   // `if arg:`
    | WhenNotNone  // `if arg is not None:`
    | Always       // written unconditionally

  /** Whether an argument is sent. No guard ever sends `None`; `is not None`
      sends the falsy values `False`, `0` and `""` that truthiness drops. */
  function Included(v: Value, rule: Inclusion): (r: bool)
    ensures rule == Always ==> r
    ensures rule != Always && r ==> v != VNone
    ensures rule == WhenNotNone ==> (r <==> v != VNone)
    ensures rule == WhenTruthy ==> (r <==> v !in {VNone, VBool(false), VInt(0), VStr("")})
  {
    match rule
    case WhenTruthy => Truthy(v)
    case WhenNotNone => v != VNone
    case Always => true
  }

  /** One guarded insertion `if arg: params[key] = arg` of a request method. */
  datatype Arg = Arg(key: Param, value: Value, rule: Inclusion)

  /** The payload after one guarded insertion. */
  function Step(p: Payload, a: Arg): Payload
  {
    if Included(a.value, a.rule) then p[a.key := a.value] else p
  }

  /** The payload after the guarded insertions `args`, in order, onto `start`. */
  function Build(start: Payload, args: seq<Arg>): Payload
    decreases |args|
  {
    if args == [] then start else Build(Step(start, args[0]), args[1..])
  }

  /** The keys of the arguments whose rule admits their value. */
  function Admitted(args: seq<Arg>): set<Param>
    decreases |args|
  {
    if args == [] then {}
    else (if Included(args[0].value, args[0].rule) then {args[0].key} else {}) + Admitted(args[1..])
  }

  /** `key` is in the payload exactly when `rule` admits `v`, and then holds `v`. */
  predicate Field(p: Payload, key: Param, v: Value, rule: Inclusion)
  {
    (key in p <==> Included(v, rule)) && (key in p ==> p[key] == v)
  }

  /** No key is written twice, and none of them is already in `start`. */
  predicate FreshKeys(start: Payload, args: seq<Arg>)
  {
    (forall i :: 0 <= i < |args| ==> args[i].key !in start) &&
    (forall i, j :: 0 <= i < j < |args| ==> args[i].key != args[j].key)
  }

  /** A key no argument writes keeps its state from `start`. */
  lemma {:induction false} BuildKeeps(start: Payload, args: seq<Arg>, k: Param)
    requires forall i :: 0 <= i < |args| ==> args[i].key != k
    ensures k in Build(start, args) <==> k in start
    ensures k in start ==> Build(start, args)[k] == start[k]
    decreases |args|
  {
    if args != [] {
      BuildKeeps(Step(start, args[0]), args[1..], k);
    }
  }

  /** The keys of the built payload are those of `start` and the keys of
      the admitted arguments: nothing else is ever sent. */
  lemma {:induction false} BuildKeys(start: Payload, args: seq<Arg>)
    ensures Build(start, args).Keys == start.Keys + Admitted(args)
    decreases |args|
  {
    if args != [] {
      BuildKeys(Step(start, args[0]), args[1..]);
    }
  }

  /** Each argument of a fresh argument list is in the payload exactly when
      its rule admits its value, and then holds that value. */
  lemma {:induction false} BuildField(start: Payload, args: seq<Arg>, i: int)
    requires FreshKeys(start, args) && 0 <= i < |args|
    ensures Field(Build(start, args), args[i].key, args[i].value, args[i].rule)
    decreases |args|
  {
    var next := Step(start, args[0]);
    if i == 0 {
      BuildKeeps(next, args[1..], args[0].key);
    } else {
      assert FreshKeys(next, args[1..]);
      BuildField(next, args[1..], i - 1);
    }
  }

  /** Writing `k` first or last gives the same payload when no argument writes `k`. */
  lemma {:induction false} BuildAfterInsert(start: Payload, args: seq<Arg>, k: Param, v: Value)
    requires forall i :: 0 <= i < |args| ==> args[i].key != k
    ensures Build(start[k := v], args) == Build(start, args)[k := v]
    decreases |args|
  {
    if args != [] {
      assert Step(start[k := v], args[0]) == Step(start, args[0])[k := v];
      BuildAfterInsert(Step(start, args[0]), args[1..], k, v);
    }
  }

  /** `country=0` is sent, while `id=0` is dropped. */
  lemma ZeroIsKeptOnlyWhenNotNone(p: Payload)
    ensures Step(p, Arg(Country, VInt(0), WhenNotNone)) == p[Country := VInt(0)]
    ensures Step(p, Arg(Id, VInt(0), WhenTruthy)) == p
  {
  }

  /** The two clients send the same query for the same call: the blocking
      client's payload already holds the key, the asynchronous client's
      payload gets it inserted just before sending. */
  lemma VariantsSendTheSameQuery(b: Client, a: Client, action: string, args: seq<Arg>)
    requires b.variant == Blocking && a.variant == Async && a.apiKey == b.apiKey
    requires forall i :: 0 <= i < |args| ==> args[i].key != ApiKey
    ensures Build(b.Start(action), args) == Build(a.Start(action), args)[ApiKey := VStr(b.apiKey)]
  {
    assert b.Start(action) == a.Start(action)[ApiKey := VStr(b.apiKey)];
    BuildAfterInsert(a.Start(action), args, ApiKey, VStr(b.apiKey));
  }

  /** The blocking client starts every payload with the key; the asynchronous
      one starts without it and inserts it just before sending. */
  datatype Variant = Blocking | Async

  class Client {
    const apiKey: string
    const variant: Variant
    /** The HTTP GET to the fixed endpoint: the body text for a query. */
    const transport: Payload -> string
    /** `json.loads`, `None` where it raises. */
    const parseJson: string -> Option<Json>

    constructor (apiKey: string, variant: Variant, transport: Payload -> string,
                 parseJson: string -> Option<Json>)
      ensures this.apiKey == apiKey && this.variant == variant
      ensures this.transport == transport && this.parseJson == parseJson
    {
      this.apiKey := apiKey;
      this.variant := variant;
      this.transport := transport;
      this.parseJson := parseJson;
    }

    /** The key as this client's builders leave it: present in the blocking
        client's payloads, absent from the asynchronous client's. */
    predicate Keyed(p: Payload)
    {
      if variant == Blocking then Field(p, ApiKey, VStr(apiKey), Always)
      else ApiKey !in p
    }

    /** The payload literal each request method starts from. */
    function Start(action: string): (p: Payload)
      ensures Field(p, Action, VStr(action), Always) && Keyed(p)
      ensures p.Keys == if variant == Blocking then {ApiKey, Action} else {Action}
    {
      if variant == Blocking then map[ApiKey := VStr(apiKey), Action := VStr(action)]
      else map[Action := VStr(action)]
    }

    /** The arguments of a request method touch neither the key nor the
        action, so the payload it builds names the action and is keyed as
        this client's payloads are. */
    lemma BuiltAddressed(action: string, args: seq<Arg>)
      requires forall i :: 0 <= i < |args| ==> args[i].key != ApiKey && args[i].key != Action
      ensures Field(Build(Start(action), args), Action, VStr(action), Always)
      ensures Keyed(Build(Start(action), args))
    {
      BuildKeeps(Start(action), args, Action);
      BuildKeeps(Start(action), args, ApiKey);
    }

    /** Every argument of a request method lands as its rule says. */
    lemma BuiltFields(action: string, args: seq<Arg>)
      requires FreshKeys(Start(action), args)
      ensures forall i :: 0 <= i < |args| ==>
                Field(Build(Start(action), args), args[i].key, args[i].value, args[i].rule)
    {
      forall i | 0 <= i < |args|
        ensures Field(Build(Start(action), args), args[i].key, args[i].value, args[i].rule)
      {
        BuildField(Start(action), args, i);
      }
    }

    /** The arguments of `getNumber`: `country` is sent whenever it is not
        `None`, every other argument only when it is truthy. */
    lemma GetNumberFields(service: Value, forward: Value, freePrice: Value, maxPrice: Value,
                          phoneException: Value, operator: Value, ref: Value, country: Value,
                          verification: Value, args: seq<Arg>)
      requires args == [Arg(Service, service, WhenTruthy), Arg(Forward, forward, WhenTruthy),
                        Arg(FreePrice, freePrice, WhenTruthy), Arg(MaxPrice, maxPrice, WhenTruthy),
                        Arg(PhoneException, phoneException, WhenTruthy),
                        Arg(Operator, operator, WhenTruthy), Arg(Ref, ref, WhenTruthy),
                        Arg(Country, country, WhenNotNone), Arg(Verification, verification, WhenTruthy)]
      ensures var p := Build(Start("getNumber"), args);
        Field(p, Service, service, WhenTruthy) && Field(p, Forward, forward, WhenTruthy) &&
        Field(p, FreePrice, freePrice, WhenTruthy) && Field(p, MaxPrice, maxPrice, WhenTruthy) &&
        Field(p, PhoneException, phoneException, WhenTruthy) && Field(p, Operator, operator, WhenTruthy) &&
        Field(p, Ref, ref, WhenTruthy) && Field(p, Country, country, WhenNotNone) &&
        Field(p, Verification, verification, WhenTruthy)
    {
      BuiltFields("getNumber", args);
      var p := Build(Start("getNumber"), args);
      assert Field(p, args[0].key, args[0].value, args[0].rule) && Field(p, args[1].key, args[1].value, args[1].rule);
      assert Field(p, args[2].key, args[2].value, args[2].rule) && Field(p, args[3].key, args[3].value, args[3].rule);
      assert Field(p, args[4].key, args[4].value, args[4].rule) && Field(p, args[5].key, args[5].value, args[5].rule);
      assert Field(p, args[6].key, args[6].value, args[6].rule) && Field(p, args[7].key, args[7].value, args[7].rule);
      assert Field(p, args[8].key, args[8].value, args[8].rule);
    }

    /** One guarded insertion `if arg: params[key] = arg` (or its
        `is not None` and unconditional forms), in place on `params`: the
        first of the insertions `rest` a request method still has to make. */
    static method Put(params: Payload, key: Param, v: Value, rule: Inclusion,
                      ghost rest: seq<Arg>)
      returns (out: Payload)
      requires rest != [] && rest[0] == Arg(key, v, rule)
      ensures Build(out, rest[1..]) == Build(params, rest)
    {
      out := params;
      if Included(v, rule) {
        out := out[key := v];
      }
    }

    /** The shared tail of every request method: the asynchronous client writes
        its key into the parameters, the blocking one sends them as built;
        either way the parameters of a builder go out with the key added and
        nothing else changed, and the body is decoded for the action the
        parameters name. */
    method Send(action: string, params: Payload) returns (query: Payload, reply: Outcome)
      requires Field(params, Action, VStr(action), Always)
      ensures variant == Blocking ==> query == params
      ensures variant == Async ==> query == params[ApiKey := VStr(apiKey)]
      ensures Keyed(params) ==> query == params[ApiKey := VStr(apiKey)]
      ensures reply == Response(action, transport(query), parseJson)
    {
      query := params;
      if variant == Async {
        query := query[ApiKey := VStr(apiKey)];
      } else if Keyed(params) {
        assert query == params[ApiKey := VStr(apiKey)];
      }
      var body := transport(query);
      reply := Response(action, body, parseJson);
    }

    method GetBalance() returns (params: Payload)
      ensures params == Build(Start("getBalance"), [])
    {
      params := Start("getBalance");
    }

    method GetBalanceAndCashBack() returns (params: Payload)
      ensures params == Build(Start("getBalanceAndCashBack"), [])
    {
      params := Start("getBalanceAndCashBack");
    }

    method GetNumbersStatus(country: Value, operator: Value) returns (params: Payload)
      ensures params == Build(Start("getNumbersStatus"), [Arg(Country, country, WhenNotNone), Arg(Operator, operator, WhenTruthy)])
    {
      params := Start("getNumbersStatus");
      ghost var rest := [Arg(Country, country, WhenNotNone), Arg(Operator, operator, WhenTruthy)];
      params := Put(params, Country, country, WhenNotNone, rest); rest := rest[1..];
      params := Put(params, Operator, operator, WhenTruthy, rest);
    }

    method GetNumber(service: Value, forward: Value, freePrice: Value, maxPrice: Value,
                     phoneException: Value, operator: Value, ref: Value, country: Value,
                     verification: Value)
      returns (params: Payload)
      ensures params == Build(Start("getNumber"), [
          Arg(Service, service, WhenTruthy),
          Arg(Forward, forward, WhenTruthy),
          Arg(FreePrice, freePrice, WhenTruthy),
          Arg(MaxPrice, maxPrice, WhenTruthy),
          Arg(PhoneException, phoneException, WhenTruthy),
          Arg(Operator, operator, WhenTruthy),
          Arg(Ref, ref, WhenTruthy),
          Arg(Country, country, WhenNotNone),
          Arg(Verification, verification, WhenTruthy)
        ])
    {
      params := Start("getNumber");
      ghost var rest := [
        Arg(Service, service, WhenTruthy),
        Arg(Forward, forward, WhenTruthy),
        Arg(FreePrice, freePrice, WhenTruthy),
        Arg(MaxPrice, maxPrice, WhenTruthy),
        Arg(PhoneException, phoneException, WhenTruthy),
        Arg(Operator, operator, WhenTruthy),
        Arg(Ref, ref, WhenTruthy),
        Arg(Country, country, WhenNotNone),
        Arg(Verification, verification, WhenTruthy)
      ];
      params := Put(params, Service, service, WhenTruthy, rest); rest := rest[1..];
      params := Put(params, Forward, forward, WhenTruthy, rest); rest := rest[1..];
      params := Put(params, FreePrice, freePrice, WhenTruthy, rest); rest := rest[1..];
      params := Put(params, MaxPrice, maxPrice, WhenTruthy, rest); rest := rest[1..];
      params := Put(params, PhoneException, phoneException, WhenTruthy, rest); rest := rest[1..];
      params := Put(params, Operator, operator, WhenTruthy, rest); rest := rest[1..];
      params := Put(params, Ref, ref, WhenTruthy, rest); rest := rest[1..];
      params := Put(params, Country, country, WhenNotNone, rest); rest := rest[1..];
      params := Put(params, Verification, verification, WhenTruthy, rest);
    }

    method GetNumberV2(service: Value, forward: Value, freePrice: Value, maxPrice: Value,
                       phoneException: Value, operator: Value, ref: Value, country: Value,
                       verification: Value)
      returns (params: Payload)
      ensures params == Build(Start("getNumberV2"), [
          Arg(Service, service, WhenTruthy),
          Arg(Forward, forward, WhenTruthy),
          Arg(FreePrice, freePrice, WhenTruthy),
          Arg(MaxPrice, maxPrice, WhenTruthy),
          Arg(PhoneException, phoneException, WhenTruthy),
          Arg(Operator, operator, WhenTruthy),
          Arg(Ref, ref, WhenTruthy),
          Arg(Country, country, WhenNotNone),
          Arg(Verification, verification, WhenTruthy)
        ])
    {
      params := Start("getNumberV2");
      ghost var rest := [
        Arg(Service, service, WhenTruthy),
        Arg(Forward, forward, WhenTruthy),
        Arg(FreePrice, freePrice, WhenTruthy),
        Arg(MaxPrice, maxPrice, WhenTruthy),
        Arg(PhoneException, phoneException, WhenTruthy),
        Arg(Operator, operator, WhenTruthy),
        Arg(Ref, ref, WhenTruthy),
        Arg(Country, country, WhenNotNone),
        Arg(Verification, verification, WhenTruthy)
      ];
      params := Put(params, Service, service, WhenTruthy, rest); rest := rest[1..];
      params := Put(params, Forward, forward, WhenTruthy, rest); rest := rest[1..];
      params := Put(params, FreePrice, freePrice, WhenTruthy, rest); rest := rest[1..];
      params := Put(params, MaxPrice, maxPrice, WhenTruthy, rest); rest := rest[1..];
      params := Put(params, PhoneException, phoneException, WhenTruthy, rest); rest := rest[1..];
      params := Put(params, Operator, operator, WhenTruthy, rest); rest := rest[1..];
      params := Put(params, Ref, ref, WhenTruthy, rest); rest := rest[1..];
      params := Put(params, Country, country, WhenNotNone, rest); rest := rest[1..];
      params := Put(params, Verification, verification, WhenTruthy, rest);
    }

    /** The `service` argument travels as `multiService`. */
    method GetMultiServiceNumber(service: Value, forward: Value, operator: Value, ref: Value,
                                 country: Value)
      returns (params: Payload)
      ensures params == Build(Start("getMultiServiceNumber"), [
          Arg(MultiService, service, WhenTruthy),
          Arg(Forward, forward, WhenTruthy),
          Arg(Operator, operator, WhenTruthy),
          Arg(Ref, ref, WhenTruthy),
          Arg(Country, country, WhenNotNone)
        ])
    {
      params := Start("getMultiServiceNumber");
      ghost var rest := [
        Arg(MultiService, service, WhenTruthy),
        Arg(Forward, forward, WhenTruthy),
        Arg(Operator, operator, WhenTruthy),
        Arg(Ref, ref, WhenTruthy),
        Arg(Country, country, WhenNotNone)
      ];
      params := Put(params, MultiService, service, WhenTruthy, rest); rest := rest[1..];
      params := Put(params, Forward, forward, WhenTruthy, rest); rest := rest[1..];
      params := Put(params, Operator, operator, WhenTruthy, rest); rest := rest[1..];
      params := Put(params, Ref, ref, WhenTruthy, rest); rest := rest[1..];
      params := Put(params, Country, country, WhenNotNone, rest);
    }

    method SetStatus(id: Value, forward: Value, status: Value) returns (params: Payload)
      ensures params == Build(Start("setStatus"), [
          Arg(Id, id, WhenTruthy),
          Arg(Forward, forward, WhenTruthy),
          Arg(Status, status, WhenTruthy)
        ])
    {
      params := Start("setStatus");
      ghost var rest := [
        Arg(Id, id, WhenTruthy),
        Arg(Forward, forward, WhenTruthy),
        Arg(Status, status, WhenTruthy)
      ];
      params := Put(params, Id, id, WhenTruthy, rest); rest := rest[1..];
      params := Put(params, Forward, forward, WhenTruthy, rest); rest := rest[1..];
      params := Put(params, Status, status, WhenTruthy, rest);
    }

    method GetStatus(id: Value) returns (params: Payload)
      ensures params == Build(Start("getStatus"), [Arg(Id, id, WhenTruthy)])
    {
      params := Start("getStatus");
      ghost var rest := [Arg(Id, id, WhenTruthy)];
      params := Put(params, Id, id, WhenTruthy, rest);
    }

    method GetFullSms(id: Value) returns (params: Payload)
      ensures params == Build(Start("getFullSms"), [Arg(Id, id, WhenTruthy)])
    {
      params := Start("getFullSms");
      ghost var rest := [Arg(Id, id, WhenTruthy)];
      params := Put(params, Id, id, WhenTruthy, rest);
    }

    method GetPrices(service: Value, country: Value) returns (params: Payload)
      ensures params == Build(Start("getPrices"), [Arg(Service, service, WhenTruthy), Arg(Country, country, WhenNotNone)])
    {
      params := Start("getPrices");
      ghost var rest := [Arg(Service, service, WhenTruthy), Arg(Country, country, WhenNotNone)];
      params := Put(params, Service, service, WhenTruthy, rest); rest := rest[1..];
      params := Put(params, Country, country, WhenNotNone, rest);
    }

    method GetCountries() returns (params: Payload)
      ensures params == Build(Start("getCountries"), [])
    {
      params := Start("getCountries");
    }

    /** The later of the blocking client's two definitions, the one Python keeps;
        the earlier one tests `service` before `id` and builds the same map. */
    method GetAdditionalService(id: Value, service: Value) returns (params: Payload)
      ensures params == Build(Start("getAdditionalService"), [Arg(Id, id, WhenTruthy), Arg(Service, service, WhenTruthy)])
    {
      params := Start("getAdditionalService");
      ghost var rest := [Arg(Id, id, WhenTruthy), Arg(Service, service, WhenTruthy)];
      params := Put(params, Id, id, WhenTruthy, rest); rest := rest[1..];
      params := Put(params, Service, service, WhenTruthy, rest);
    }

    method GetQiwiRequisites() returns (params: Payload)
      ensures params == Build(Start("getQiwiRequisites"), [])
    {
      params := Start("getQiwiRequisites");
    }

    method GetRentServicesAndCountries(time: Value, operator: Value, country: Value) returns (params: Payload)
      ensures params == Build(Start("getRentServicesAndCountries"), [
          Arg(Time, time, WhenTruthy),
          Arg(Operator, operator, WhenTruthy),
          Arg(Country, country, WhenNotNone)
        ])
    {
      params := Start("getRentServicesAndCountries");
      ghost var rest := [
        Arg(Time, time, WhenTruthy),
        Arg(Operator, operator, WhenTruthy),
        Arg(Country, country, WhenNotNone)
      ];
      params := Put(params, Time, time, WhenTruthy, rest); rest := rest[1..];
      params := Put(params, Operator, operator, WhenTruthy, rest); rest := rest[1..];
      params := Put(params, Country, country, WhenNotNone, rest);
    }

    method GetRentNumber(service: Value, time: Value, operator: Value, country: Value,
                         url: Value)
      returns (params: Payload)
      ensures params == Build(Start("getRentNumber"), [
          Arg(Service, service, WhenTruthy),
          Arg(Time, time, WhenTruthy),
          Arg(Operator, operator, WhenTruthy),
          Arg(Country, country, WhenNotNone),
          Arg(Url, url, WhenTruthy)
        ])
    {
      params := Start("getRentNumber");
      ghost var rest := [
        Arg(Service, service, WhenTruthy),
        Arg(Time, time, WhenTruthy),
        Arg(Operator, operator, WhenTruthy),
        Arg(Country, country, WhenNotNone),
        Arg(Url, url, WhenTruthy)
      ];
      params := Put(params, Service, service, WhenTruthy, rest); rest := rest[1..];
      params := Put(params, Time, time, WhenTruthy, rest); rest := rest[1..];
      params := Put(params, Operator, operator, WhenTruthy, rest); rest := rest[1..];
      params := Put(params, Country, country, WhenNotNone, rest); rest := rest[1..];
      params := Put(params, Url, url, WhenTruthy, rest);
    }

    method GetRentStatus(id: Value) returns (params: Payload)
      ensures params == Build(Start("getRentStatus"), [Arg(Id, id, WhenTruthy)])
    {
      params := Start("getRentStatus");
      ghost var rest := [Arg(Id, id, WhenTruthy)];
      params := Put(params, Id, id, WhenTruthy, rest);
    }

    method SetRentStatus(id: Value, status: Value) returns (params: Payload)
      ensures params == Build(Start("setRentStatus"), [Arg(Id, id, WhenTruthy), Arg(Status, status, WhenTruthy)])
    {
      params := Start("setRentStatus");
      ghost var rest := [Arg(Id, id, WhenTruthy), Arg(Status, status, WhenTruthy)];
      params := Put(params, Id, id, WhenTruthy, rest); rest := rest[1..];
      params := Put(params, Status, status, WhenTruthy, rest);
    }

    method GetRentList() returns (params: Payload)
      ensures params == Build(Start("getRentList"), [])
    {
      params := Start("getRentList");
    }

    /** The `time` argument travels as `rent_time`. */
    method ContinueRentNumber(id: Value, time: Value) returns (params: Payload)
      ensures params == Build(Start("continueRentNumber"), [Arg(Id, id, WhenTruthy), Arg(RentTime, time, WhenTruthy)])
    {
      params := Start("continueRentNumber");
      ghost var rest := [Arg(Id, id, WhenTruthy), Arg(RentTime, time, WhenTruthy)];
      params := Put(params, Id, id, WhenTruthy, rest); rest := rest[1..];
      params := Put(params, RentTime, time, WhenTruthy, rest);
    }

    method GetContinueRentPriceNumber(id: Value) returns (params: Payload)
      ensures params == Build(Start("getContinueRentPriceNumber"), [Arg(Id, id, WhenTruthy)])
    {
      params := Start("getContinueRentPriceNumber");
      ghost var rest := [Arg(Id, id, WhenTruthy)];
      params := Put(params, Id, id, WhenTruthy, rest);
    }

    method GetTopCountriesByService(service: Value, freePrice: Value) returns (params: Payload)
      ensures params == Build(Start("getTopCountriesByService"), [Arg(Service, service, WhenTruthy), Arg(FreePrice, freePrice, WhenTruthy)])
    {
      params := Start("getTopCountriesByService");
      ghost var rest := [Arg(Service, service, WhenTruthy), Arg(FreePrice, freePrice, WhenTruthy)];
      params := Put(params, Service, service, WhenTruthy, rest); rest := rest[1..];
      params := Put(params, FreePrice, freePrice, WhenTruthy, rest);
    }

    /** The `id` argument travels as `activationId`. */
    method GetIncomingCallStatus(id: Value) returns (params: Payload)
      ensures params == Build(Start("getIncomingCallStatus"), [Arg(ActivationId, id, WhenTruthy)])
    {
      params := Start("getIncomingCallStatus");
      ghost var rest := [Arg(ActivationId, id, WhenTruthy)];
      params := Put(params, ActivationId, id, WhenTruthy, rest);
    }

    method GetOperators(country: Value) returns (params: Payload)
      ensures params == Build(Start("getOperators"), [Arg(Country, country, WhenNotNone)])
    {
      params := Start("getOperators");
      ghost var rest := [Arg(Country, country, WhenNotNone)];
      params := Put(params, Country, country, WhenNotNone, rest);
    }

    method GetActiveActivations() returns (params: Payload)
      ensures params == Build(Start("getActiveActivations"), [])
    {
      params := Start("getActiveActivations");
    }

    /** The activation id is a required argument and is always sent, whatever its value. */
    method CreateTaskForCall(activationId: Value) returns (params: Payload)
      ensures params == Build(Start("createTaskForCall"), [Arg(ActivationId, activationId, Always)])
    {
      params := Start("createTaskForCall");
      ghost var rest := [Arg(ActivationId, activationId, Always)];
      params := Put(params, ActivationId, activationId, Always, rest);
    }

    method GetOutgoingCalls(activationId: Value, date: Value) returns (params: Payload)
      ensures params == Build(Start("getOutgoingCalls"), [Arg(ActivationId, activationId, WhenNotNone), Arg(Date, date, WhenNotNone)])
    {
      params := Start("getOutgoingCalls");
      ghost var rest := [Arg(ActivationId, activationId, WhenNotNone), Arg(Date, date, WhenNotNone)];
      params := Put(params, ActivationId, activationId, WhenNotNone, rest); rest := rest[1..];
      params := Put(params, Date, date, WhenNotNone, rest);
    }
  }
}
