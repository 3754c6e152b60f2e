/**
  The PullString conversation client: how `start` and `converse` (and the
  five wrappers over `converse`) turn their optional arguments into a JSON
  parameter map and an HTTP request, and how a completion turns the raw
  response into `(json?, error?)`.

  The network itself is not modelled: each operation returns the request it
  would hand to the session, and `Completion` is what runs when the session
  answers.
 */
module Conversation {
  import opened Json

  const BaseURL: string := "https://conversation.pullstring.ai/v1"

  /** The `Event` pair: an event name and its parameters. */
  datatype Event = Event(name: string, parameters: JsonObject)

  datatype Header = Header(field: string, value: string)

  /** A `URLRequest` as far as this client sets it up. `body == None` means
      `httpBody` was never set. */
  datatype Request = Request(url: string, httpMethod: string, headers: seq<Header>, body: Option<JsonObject>)

  /** What building a request comes to: the request, or the Objective-C
      exception `JSONSerialization.data(withJSONObject:)` raises on a
      parameter map that is not JSON. `try?` catches only Swift errors, so
      the exception is uncaught: the app ends and no request is made. */
  datatype Outcome = Made(request: Request) | Raised(exception: string)

  const InvalidArgumentException: string := "NSInvalidArgumentException"

  /** The arguments of `start`. */
  datatype StartArgs = StartArgs(
    project: string,
    timeZoneOffset: Option<int>,
    participant: Option<string>,
    buildType: Option<string>)

  /** The arguments of `converse` other than the conversation id. */
  datatype TurnArgs = TurnArgs(
    text: Option<string>,
    activity: Option<string>,
    event: Option<Event>,
    setEntities: Option<JsonObject>,
    getEntities: Option<seq<string>>,
    language: Option<string>,
    locale: Option<string>,
    restartIfModified: Option<bool>)

  /** The three headers every request carries; the first is the bearer
      credential of section 2.1 of RFC 6750. */
  function StandardHeaders(webAPIKey: string): seq<Header>
  {
    [ Header("Authorization", "Bearer " + webAPIKey),
      Header("Content-Type", "application/json"),
      Header("Accept", "application/json") ]
  }

  function KeyIf<T>(arg: Option<T>, key: string): set<string>
  {
    if arg.Some? then {key} else {}
  }

  /** The keys a `start` body must hold: `project`, and each optional field
      that was supplied. */
  function StartKeys(args: StartArgs): set<string>
  {
    {"project"}
    + KeyIf(args.timeZoneOffset, "time_zone_offset")
    + KeyIf(args.participant, "participant")
    + KeyIf(args.buildType, "build_type")
  }

  /** The keys a `converse` body must hold: one per supplied optional. */
  function TurnKeys(args: TurnArgs): set<string>
  {
    KeyIf(args.text, "text")
    + KeyIf(args.activity, "activity")
    + KeyIf(args.event, "event")
    + KeyIf(args.setEntities, "set_entities")
    + KeyIf(args.getEntities, "get_entities")
    + KeyIf(args.language, "language")
    + KeyIf(args.locale, "locale")
    + KeyIf(args.restartIfModified, "restartIfModified")
  }

  // ---------------------------------------------------------------------
  // Reading a body back, as the service would: each field under its fixed
  // name and with the JSON type the client stores it with.

  /** An `Int` boxed as `AnyObject` becomes a JSON number with no fraction. */
  function IntField(m: JsonObject, key: string): Option<int>
  {
    if key in m && m[key].Num? && m[key].n.Floor as real == m[key].n then Some(m[key].n.Floor) else None
  }

  function BoolField(m: JsonObject, key: string): Option<bool>
  {
    if key in m && m[key].Bool? then Some(m[key].b) else None
  }

  function EventField(m: JsonObject, key: string): Option<Event>
  {
    if key in m && m[key].Boxed? then Some(Event(m[key].name, m[key].payload)) else None
  }

  /** A `[String]` becomes a JSON array of strings. */
  function StringArrayField(m: JsonObject, key: string): (r: Option<seq<string>>)
    ensures r.Some? ==> key in m && m[key].Arr? && |r.value| == |m[key].items|
                        && forall i | 0 <= i < |r.value| :: m[key].items[i] == Str(r.value[i])
  {
    if key in m && m[key].Arr? && forall i | 0 <= i < |m[key].items| :: m[key].items[i].Str?
    then
      var items := m[key].items;
      Some(seq(|items|, i requires 0 <= i < |items| && items[i].Str? => items[i].s))
    else None
  }

  function ReadStartArgs(m: JsonObject): Option<StartArgs>
  {
    match StringField(m, "project")
    case None => None
    case Some(project) =>
      Some(StartArgs(project, IntField(m, "time_zone_offset"), StringField(m, "participant"), StringField(m, "build_type")))
  }

  function ReadTurnArgs(m: JsonObject): TurnArgs
  {
    TurnArgs(
      StringField(m, "text"),
      StringField(m, "activity"),
      EventField(m, "event"),
      ObjectField(m, "set_entities"),
      StringArrayField(m, "get_entities"),
      StringField(m, "language"),
      StringField(m, "locale"),
      BoolField(m, "restartIfModified"))
  }

  /** Whether the `converse` body built from `args` can be serialised: an
      event is a boxed tuple, which is not a JSON value. */
  predicate TurnArgsSerializable(args: TurnArgs)
  {
    args.event.None? && (args.setEntities.Some? ==> SerializableObject(args.setEntities.value))
  }

  // ---------------------------------------------------------------------
  // What a request of each kind is.

  /** A `start` body: exactly the keys of the supplied fields, and it reads
      back as the arguments. */
  ghost predicate IsStartBody(m: JsonObject, args: StartArgs)
  {
    m.Keys == StartKeys(args) && ReadStartArgs(m) == Some(args)
  }

  /** A `converse` body: exactly the keys of the supplied optionals, and it
      reads back as the arguments. */
  ghost predicate IsTurnBody(m: JsonObject, args: TurnArgs)
  {
    m.Keys == TurnKeys(args) && ReadTurnArgs(m) == args
  }

  const StartEndpoint: string := "conversation"

  function TurnEndpoint(uuid: string): string
  {
    "conversation/" + uuid
  }

  ghost predicate IsStartRequest(r: Request, webAPIKey: string, args: StartArgs)
  {
    && r.url == BaseURL + "/" + StartEndpoint
    && r.httpMethod == "POST"
    && r.headers == StandardHeaders(webAPIKey)
    && r.body.Some?
    && IsStartBody(r.body.value, args)
  }

  ghost predicate IsTurnRequest(r: Request, webAPIKey: string, uuid: string, args: TurnArgs)
  {
    && r.url == BaseURL + "/" + TurnEndpoint(uuid)
    && r.httpMethod == "POST"
    && r.headers == StandardHeaders(webAPIKey)
    && r.body.Some?
    && IsTurnBody(r.body.value, args)
  }

  /** What `converse` comes to: the exception when the body is not JSON,
      and otherwise a request meeting `IsTurnRequest`. */
  ghost predicate IsTurnOutcome(o: Outcome, webAPIKey: string, uuid: string, args: TurnArgs)
  {
    && (o.Raised? <==> !TurnArgsSerializable(args))
    && (o.Raised? ==> o.exception == InvalidArgumentException)
    && (o.Made? ==> IsTurnRequest(o.request, webAPIKey, uuid, args))
  }

  /** A body satisfying `IsTurnBody` is unique: the arguments pin every
      entry. */
  lemma TurnBodyDetermined(m1: JsonObject, m2: JsonObject, args: TurnArgs)
    requires IsTurnBody(m1, args) && IsTurnBody(m2, args)
    ensures m1 == m2
  {
    TurnBodyValues(m1, args);
    TurnBodyValues(m2, args);
    forall k | k in m1
      ensures m1[k] == m2[k]
    {
      assert k in TurnKeys(args);
      if k in KeyIf(args.text, "text") || k in KeyIf(args.activity, "activity") {
      } else if k in KeyIf(args.event, "event") || k in KeyIf(args.setEntities, "set_entities") {
      } else if k in KeyIf(args.getEntities, "get_entities") || k in KeyIf(args.language, "language") {
      } else if k in KeyIf(args.locale, "locale") {
      } else {
        assert k in KeyIf(args.restartIfModified, "restartIfModified");
      }
    }
  }

  /** `IsTurnRequest` pins the request: two requests built for the same key,
      conversation and arguments are equal. */
  lemma TurnRequestDetermined(r1: Request, r2: Request, webAPIKey: string, uuid: string, args: TurnArgs)
    requires IsTurnRequest(r1, webAPIKey, uuid, args) && IsTurnRequest(r2, webAPIKey, uuid, args)
    ensures r1 == r2
  {
    TurnBodyDetermined(r1.body.value, r2.body.value, args);
  }

  /** Likewise `IsStartRequest` pins the request. */
  lemma StartRequestDetermined(r1: Request, r2: Request, webAPIKey: string, args: StartArgs)
    requires IsStartRequest(r1, webAPIKey, args) && IsStartRequest(r2, webAPIKey, args)
    ensures r1 == r2
  {
    var m1, m2 := r1.body.value, r2.body.value;
    forall k | k in m1
      ensures m1[k] == m2[k]
    {
      if k == "time_zone_offset" {
        var n1, n2 := m1[k].n, m2[k].n;
        assert n1 == n1.Floor as real && n2 == n2.Floor as real;
      }
    }
    assert m1 == m2;
  }

  // ---------------------------------------------------------------------
  // The operations.

  /** `dataRequest(withEndpoint:method:parameters:)`: the URL is the base URL,
      a slash and the endpoint, with the given method and the three headers;
      the parameters, when given, become the body, and parameters that are
      not JSON raise the exception instead. */
  method DataRequest(webAPIKey: string, endpoint: string, httpMethod: string, parameters: Option<JsonObject>)
    returns (outcome: Outcome)
    ensures outcome.Raised? <==> parameters.Some? && !SerializableObject(parameters.value)
    ensures outcome.Raised? ==> outcome.exception == InvalidArgumentException
    ensures outcome.Made? ==> && outcome.request.url == BaseURL + "/" + endpoint
                              && outcome.request.httpMethod == httpMethod
                              && outcome.request.headers == StandardHeaders(webAPIKey)
                              && outcome.request.body == parameters
  {
    var urlString := BaseURL + "/" + endpoint;
    var request := Request(urlString, "GET", [], None);
    request := request.(httpMethod := httpMethod);
    request := request.(headers := request.headers + [Header("Authorization", "Bearer " + webAPIKey)]);
    request := request.(headers := request.headers + [Header("Content-Type", "application/json")]);
    request := request.(headers := request.headers + [Header("Accept", "application/json")]);
    if parameters.Some? {
      if !SerializableObject(parameters.value) {
        return Raised(InvalidArgumentException);
      }
      request := request.(body := parameters);
    }
    outcome := Made(request);
  }

  /** The parameter map of `start`: `project`, then each optional field only
      when it was supplied. */
  method StartParameters(project: string, timeZoneOffset: Option<int>, participant: Option<string>, buildType: Option<string>)
    returns (parameters: JsonObject)
    ensures IsStartBody(parameters, StartArgs(project, timeZoneOffset, participant, buildType))
    ensures SerializableObject(parameters)
  {
    parameters := map["project" := Str(project)];
    if timeZoneOffset.Some? {
      parameters := parameters["time_zone_offset" := Num(timeZoneOffset.value as real)];
    }
    if participant.Some? {
      parameters := parameters["participant" := Str(participant.value)];
    }
    if buildType.Some? {
      parameters := parameters["build_type" := Str(buildType.value)];
    }
  }

  /** `start`: a POST to `conversation` whose body holds exactly the supplied
      fields. */
  method Start(webAPIKey: string, project: string, timeZoneOffset: Option<int>, participant: Option<string>, buildType: Option<string>)
    returns (request: Request)
    ensures IsStartRequest(request, webAPIKey, StartArgs(project, timeZoneOffset, participant, buildType))
    ensures request.body.Some? && request.body.value.Keys <= {"project", "time_zone_offset", "participant", "build_type"}
    ensures "project" in request.body.value && request.body.value["project"] == Str(project)
    ensures "time_zone_offset" in request.body.value <==> timeZoneOffset.Some?
    ensures "participant" in request.body.value <==> participant.Some?
    ensures "build_type" in request.body.value <==> buildType.Some?
  {
    var parameters := StartParameters(project, timeZoneOffset, participant, buildType);
    var outcome := DataRequest(webAPIKey, StartEndpoint, "POST", Some(parameters));
    request := outcome.request;
  }

  /** A map with the keys of `args` that reads back as `args` stores each
      supplied optional as the JSON value `converse` gives it, and it
      serialises exactly when `args` has no event and serialisable entities. */
  lemma TurnBodyValues(m: JsonObject, args: TurnArgs)
    requires IsTurnBody(m, args)
    ensures args.text.Some? ==> m["text"] == Str(args.text.value)
    ensures args.activity.Some? ==> m["activity"] == Str(args.activity.value)
    ensures args.event.Some? ==> m["event"] == Boxed(args.event.value.name, args.event.value.parameters)
    ensures args.setEntities.Some? ==> m["set_entities"] == Obj(args.setEntities.value)
    ensures args.getEntities.Some? ==> m["get_entities"] == Arr(StrItems(args.getEntities.value))
    ensures args.language.Some? ==> m["language"] == Str(args.language.value)
    ensures args.locale.Some? ==> m["locale"] == Str(args.locale.value)
    ensures args.restartIfModified.Some? ==> m["restartIfModified"] == Bool(args.restartIfModified.value)
  {
    if args.getEntities.Some? {
      assert m["get_entities"].items == StrItems(args.getEntities.value);
    }
  }

  lemma TurnBodySerializable(m: JsonObject, args: TurnArgs)
    requires IsTurnBody(m, args)
    ensures SerializableObject(m) <==> TurnArgsSerializable(args)
  {
    TurnBodyValues(m, args);
    if args.event.Some? {
      assert !Serializable(m["event"]);
    } else if args.setEntities.Some? && !SerializableObject(args.setEntities.value) {
      assert !Serializable(m["set_entities"]);
    } else {
      forall k | k in m
        ensures Serializable(m[k])
      {
        assert k in TurnKeys(args);
        if k in KeyIf(args.getEntities, "get_entities") {
          assert Serializable(m["get_entities"]);
        }
      }
    }
  }

  /** A `[String]` as the array of JSON strings it bridges to. */
  function StrItems(names: seq<string>): (items: seq<Value>)
    ensures |items| == |names| && forall i | 0 <= i < |names| :: items[i] == Str(names[i])
  {
    seq(|names|, i requires 0 <= i < |names| => Str(names[i]))
  }

  lemma StrItemsReadBack(m: JsonObject, key: string, names: seq<string>)
    requires key in m && m[key] == Arr(StrItems(names))
    ensures StringArrayField(m, key) == Some(names)
  {
    var items := m[key].items;
    assert forall i | 0 <= i < |items| :: items[i].Str?;
    assert StringArrayField(m, key).Some?;
    assert StringArrayField(m, key).value == names;
  }

  /** The arguments with only the first `n` optionals of `converse` kept, in
      the order `converse` adds them. */
  ghost function Upto(args: TurnArgs, n: nat): TurnArgs
  {
    TurnArgs(
      if n >= 1 then args.text else None,
      if n >= 2 then args.activity else None,
      if n >= 3 then args.event else None,
      if n >= 4 then args.setEntities else None,
      if n >= 5 then args.getEntities else None,
      if n >= 6 then args.language else None,
      if n >= 7 then args.locale else None,
      if n >= 8 then args.restartIfModified else None)
  }

  /** `parameters` holds exactly the first `n` supplied optionals. */
  ghost predicate Built(parameters: JsonObject, args: TurnArgs, n: nat)
  {
    IsTurnBody(parameters, Upto(args, n))
  }

  /** The entry `converse` adds for its `n`-th optional, when supplied. */
  function Entry(args: TurnArgs, n: nat): Option<(string, Value)>
    requires n < 8
  {
    if n == 0 then (if args.text.Some? then Some(("text", Str(args.text.value))) else None)
    else if n == 1 then (if args.activity.Some? then Some(("activity", Str(args.activity.value))) else None)
    else if n == 2 then
      (if args.event.Some? then Some(("event", Boxed(args.event.value.name, args.event.value.parameters))) else None)
    else if n == 3 then (if args.setEntities.Some? then Some(("set_entities", Obj(args.setEntities.value))) else None)
    else if n == 4 then (if args.getEntities.Some? then Some(("get_entities", Arr(StrItems(args.getEntities.value)))) else None)
    else if n == 5 then (if args.language.Some? then Some(("language", Str(args.language.value))) else None)
    else if n == 6 then (if args.locale.Some? then Some(("locale", Str(args.locale.value))) else None)
    else (if args.restartIfModified.Some? then Some(("restartIfModified", Bool(args.restartIfModified.value))) else None)
  }

  /** Adding the `n`-th entry to a map holding the first `n` supplied
      optionals gives a map holding the first `n + 1`; one lemma per step
      keeps each proof small. */
  lemma BuiltWithText(before: JsonObject, after: JsonObject, args: TurnArgs)
    requires Built(before, args, 0)
    requires after == match Entry(args, 0) case None => before case Some(e) => before[e.0 := e.1]
    ensures Built(after, args, 1)
  {}

  lemma BuiltWithActivity(before: JsonObject, after: JsonObject, args: TurnArgs)
    requires Built(before, args, 1)
    requires after == match Entry(args, 1) case None => before case Some(e) => before[e.0 := e.1]
    ensures Built(after, args, 2)
  {}

  lemma BuiltWithEvent(before: JsonObject, after: JsonObject, args: TurnArgs)
    requires Built(before, args, 2)
    requires after == match Entry(args, 2) case None => before case Some(e) => before[e.0 := e.1]
    ensures Built(after, args, 3)
  {}

  lemma BuiltWithSetEntities(before: JsonObject, after: JsonObject, args: TurnArgs)
    requires Built(before, args, 3)
    requires after == match Entry(args, 3) case None => before case Some(e) => before[e.0 := e.1]
    ensures Built(after, args, 4)
  {}

  lemma BuiltWithGetEntities(before: JsonObject, after: JsonObject, args: TurnArgs)
    requires Built(before, args, 4)
    requires after == match Entry(args, 4) case None => before case Some(e) => before[e.0 := e.1]
    ensures Built(after, args, 5)
  {
    if args.getEntities.Some? {
      StrItemsReadBack(after, "get_entities", args.getEntities.value);
    }
  }

  lemma BuiltWithLanguage(before: JsonObject, after: JsonObject, args: TurnArgs)
    requires Built(before, args, 5)
    requires after == match Entry(args, 5) case None => before case Some(e) => before[e.0 := e.1]
    ensures Built(after, args, 6)
  {}

  lemma BuiltWithLocale(before: JsonObject, after: JsonObject, args: TurnArgs)
    requires Built(before, args, 6)
    requires after == match Entry(args, 6) case None => before case Some(e) => before[e.0 := e.1]
    ensures Built(after, args, 7)
  {}

  lemma BuiltWithRestartIfModified(before: JsonObject, after: JsonObject, args: TurnArgs)
    requires Built(before, args, 7)
    requires after == match Entry(args, 7) case None => before case Some(e) => before[e.0 := e.1]
    ensures Built(after, args, 8)
  {}

  /** The parameter map of `converse`: one entry per supplied optional, under
      its fixed name, and nothing else. */
  method ConverseParameters(args: TurnArgs) returns (parameters: JsonObject)
    ensures IsTurnBody(parameters, args)
    ensures SerializableObject(parameters) <==> TurnArgsSerializable(args)
  {
    parameters := map[];
    ghost var before := parameters;
    if args.text.Some? {
      parameters := parameters["text" := Str(args.text.value)];
    }
    BuiltWithText(before, parameters, args);
    before := parameters;
    if args.activity.Some? {
      parameters := parameters["activity" := Str(args.activity.value)];
    }
    BuiltWithActivity(before, parameters, args);
    before := parameters;
    if args.event.Some? {
      parameters := parameters["event" := Boxed(args.event.value.name, args.event.value.parameters)];
    }
    BuiltWithEvent(before, parameters, args);
    before := parameters;
    if args.setEntities.Some? {
      parameters := parameters["set_entities" := Obj(args.setEntities.value)];
    }
    BuiltWithSetEntities(before, parameters, args);
    before := parameters;
    if args.getEntities.Some? {
      parameters := parameters["get_entities" := Arr(StrItems(args.getEntities.value))];
    }
    BuiltWithGetEntities(before, parameters, args);
    before := parameters;
    if args.language.Some? {
      parameters := parameters["language" := Str(args.language.value)];
    }
    BuiltWithLanguage(before, parameters, args);
    before := parameters;
    if args.locale.Some? {
      parameters := parameters["locale" := Str(args.locale.value)];
    }
    BuiltWithLocale(before, parameters, args);
    before := parameters;
    if args.restartIfModified.Some? {
      parameters := parameters["restartIfModified" := Bool(args.restartIfModified.value)];
    }
    BuiltWithRestartIfModified(before, parameters, args);
    TurnBodySerializable(parameters, args);
  }

  /** `converse`: a POST to `conversation/{uuid}` whose body holds exactly the
      supplied fields, or the exception when they are not JSON. */
  method Converse(webAPIKey: string, uuid: string, text: Option<string>, activity: Option<string>, event: Option<Event>,
                  setEntities: Option<JsonObject>, getEntities: Option<seq<string>>, language: Option<string>,
                  locale: Option<string>, restartIfModified: Option<bool>)
    returns (outcome: Outcome)
    ensures IsTurnOutcome(outcome, webAPIKey, uuid,
                          TurnArgs(text, activity, event, setEntities, getEntities, language, locale, restartIfModified))
  {
    var parameters := ConverseParameters(TurnArgs(text, activity, event, setEntities, getEntities, language, locale, restartIfModified));
    outcome := DataRequest(webAPIKey, TurnEndpoint(uuid), "POST", Some(parameters));
  }

  /** The arguments `say` passes on to `converse`. */
  function SayArgs(text: Option<string>, language: Option<string>, locale: Option<string>, restartIfModified: Option<bool>): TurnArgs
  {
    TurnArgs(text, None, None, None, None, language, locale, restartIfModified)
  }

  method Say(webAPIKey: string, text: Option<string>, uuid: string, language: Option<string>, locale: Option<string>,
             restartIfModified: Option<bool>)
    returns (request: Request)
    ensures IsTurnRequest(request, webAPIKey, uuid, SayArgs(text, language, locale, restartIfModified))
    ensures request.body.Some?
    ensures request.body.value.Keys <= {"text", "language", "locale", "restartIfModified"}
    ensures text.None? && language.None? && locale.None? && restartIfModified.None? ==> request.body == Some(map[])
  {
    var outcome := Converse(webAPIKey, uuid, text, None, None, None, None, language, locale, restartIfModified);
    request := outcome.request;
  }

  method Change(webAPIKey: string, activity: string, uuid: string) returns (request: Request)
    ensures IsTurnRequest(request, webAPIKey, uuid, TurnArgs(None, Some(activity), None, None, None, None, None, None))
    ensures request.body == Some(map["activity" := Str(activity)])
  {
    var outcome := Converse(webAPIKey, uuid, None, Some(activity), None, None, None, None, None, None);
    request := outcome.request;
    OnlyKey(request.body.value, "activity", Str(activity));
  }

  /** `fire`: the event pair is boxed, not a JSON value, so serialising the
      parameters raises the exception and no request is made. */
  method Fire(webAPIKey: string, event: Event, uuid: string) returns (outcome: Outcome)
    ensures IsTurnOutcome(outcome, webAPIKey, uuid, TurnArgs(None, None, Some(event), None, None, None, None, None))
    ensures outcome == Raised(InvalidArgumentException)
  {
    outcome := Converse(webAPIKey, uuid, None, None, Some(event), None, None, None, None, None);
  }

  method Get(webAPIKey: string, entities: seq<string>, uuid: string) returns (request: Request)
    ensures IsTurnRequest(request, webAPIKey, uuid, TurnArgs(None, None, None, None, Some(entities), None, None, None))
    ensures request.body.Some? && request.body.value.Keys == {"get_entities"}
    ensures request.body.value["get_entities"].Arr?
    ensures |request.body.value["get_entities"].items| == |entities|
    ensures forall i | 0 <= i < |entities| :: request.body.value["get_entities"].items[i] == Str(entities[i])
  {
    var outcome := Converse(webAPIKey, uuid, None, None, None, None, Some(entities), None, None, None);
    request := outcome.request;
  }

  /** `set`: entities that are not all JSON values raise the exception. */
  method Set(webAPIKey: string, entities: JsonObject, uuid: string) returns (outcome: Outcome)
    ensures IsTurnOutcome(outcome, webAPIKey, uuid, TurnArgs(None, None, None, Some(entities), None, None, None, None))
    ensures outcome.Made? <==> SerializableObject(entities)
    ensures outcome.Raised? ==> outcome.exception == InvalidArgumentException
    ensures outcome.Made? ==> outcome.request.body == Some(map["set_entities" := Obj(entities)])
  {
    outcome := Converse(webAPIKey, uuid, None, None, None, Some(entities), None, None, None, None);
    if outcome.Made? {
      OnlyKey(outcome.request.body.value, "set_entities", Obj(entities));
    }
  }

  lemma OnlyKey(m: JsonObject, key: string, v: Value)
    requires m.Keys == {key} && m[key] == v
    ensures m == map[key := v]
  {
  }

  /** The request `start` builds when only the project is given: its body
      holds the project alone. */
  function StartRequest(webAPIKey: string, project: string): Request
  {
    Request(BaseURL + "/" + StartEndpoint, "POST", StandardHeaders(webAPIKey), Some(map["project" := Str(project)]))
  }

  /** `StartRequest` is the one request `IsStartRequest` allows for a bare
      project. */
  lemma StartRequestOnly(r: Request, webAPIKey: string, project: string)
    ensures IsStartRequest(r, webAPIKey, StartArgs(project, None, None, None)) <==> r == StartRequest(webAPIKey, project)
  {
    var args := StartArgs(project, None, None, None);
    var m := map["project" := Str(project)];
    assert ReadStartArgs(m) == Some(args);
    assert IsStartRequest(StartRequest(webAPIKey, project), webAPIKey, args);
    if IsStartRequest(r, webAPIKey, args) {
      StartRequestDetermined(r, StartRequest(webAPIKey, project), webAPIKey, args);
    }
  }

  /** The request `say` builds when no language, locale or restart flag is
      given: its body holds the text, or nothing. */
  function SayRequest(webAPIKey: string, uuid: string, text: Option<string>): Request
  {
    Request(BaseURL + "/" + TurnEndpoint(uuid), "POST", StandardHeaders(webAPIKey),
            Some(if text.Some? then map["text" := Str(text.value)] else map[]))
  }

  /** `SayRequest` is the one request `IsTurnRequest` allows for `say` with
      only a text. */
  lemma SayRequestOnly(r: Request, webAPIKey: string, uuid: string, text: Option<string>)
    ensures IsTurnRequest(r, webAPIKey, uuid, SayArgs(text, None, None, None)) <==> r == SayRequest(webAPIKey, uuid, text)
  {
    var args := SayArgs(text, None, None, None);
    var m: JsonObject := if text.Some? then map["text" := Str(text.value)] else map[];
    assert ReadTurnArgs(m) == args;
    assert IsTurnRequest(SayRequest(webAPIKey, uuid, text), webAPIKey, uuid, args);
    if IsTurnRequest(r, webAPIKey, uuid, args) {
      TurnRequestDetermined(r, SayRequest(webAPIKey, uuid, text), webAPIKey, uuid, args);
    }
  }

  /** The completion shared by `start` and `converse`: the transport error is
      passed on unchanged, and the json is present only when there is data
      and it decodes to a dictionary. `decode` stands for
      `JSONSerialization.jsonObject(with:)`. */
  method Completion(data: Option<seq<bv8>>, error: Option<Error>, decode: seq<bv8> -> Option<Value>)
    returns (json: Option<JsonObject>, err: Option<Error>)
    ensures err == error
    ensures json.Some? <==> data.Some? && decode(data.value).Some? && decode(data.value).value.Obj?
    ensures json.Some? ==> decode(data.value) == Some(Obj(json.value))
  {
    json := None;
    if data.Some? {
      var decoded := decode(data.value);
      if decoded.Some? && decoded.value.Obj? {
        json := Some(decoded.value.fields);
      }
    }
    err := error;
  }
}
