/** The Lex V2 model-building service as the bot scripts see it: the listings its list calls
    return, the requests the scripts issue, and the effect of each request on those listings.
    Every request is issued against the DRAFT version of a bot. Status polls (describe_bot,
    describe_bot_locale, describe_import) are not logged; their number is carried by the
    verdict of the polling loop (see module Polling). */
module LexModels {
  import opened Basics

  datatype BotSummary = BotSummary(botName: string, botId: string)

  function BotNameOf(b: BotSummary): string
  {
    b.botName
  }

  /** What the list calls return: the bots, the locale ids of each bot, the intent names of each
      (bot id, locale id). A key that is absent lists nothing. */
  datatype LexState = LexState(
    bots: seq<BotSummary>,
    locales: map<string, seq<string>>,
    intents: map<(string, string), seq<string>>)

  function LocalesOf(s: LexState, botId: string): seq<string>
  {
    if botId in s.locales then s.locales[botId] else []
  }

  function IntentsOf(s: LexState, botId: string, localeId: string): seq<string>
  {
    if (botId, localeId) in s.intents then s.intents[(botId, localeId)] else []
  }

  /** The resource specification a bot import carries. */
  datatype ImportSpec = ImportSpec(botName: string, roleArn: string, childDirected: bool)

  /** A request a script issues, with the parameters the model keeps. The locale's NLU
      confidence threshold (a float constant) is left out. */
  datatype Request =
    | ListBots
    | CreateBot(botName: string, roleArn: string, childDirected: bool, idleSessionTtlInSeconds: nat)
    | ListBotLocales(botId: string)
    | CreateBotLocale(botId: string, localeId: string, description: string)
    | ListIntents(botId: string, localeId: string)
    | CreateIntent(botId: string, localeId: string, intentName: string, sampleUtterances: seq<string>)
    | BuildBotLocale(botId: string, localeId: string)
    | CreateUploadUrl
    | UploadArtifact(uploadUrl: string, fileName: string)
    | StartImport(importId: string, spec: ImportSpec, mergeStrategy: string)
  {
    /** A request that creates a remote resource. */
    predicate IsCreate()
    {
      CreateBot? || CreateBotLocale? || CreateIntent?
    }
  }

  /** The effect of one request on the listings; `assignedId` is the id the service gives a bot it creates. */
  function Effect(s: LexState, r: Request, assignedId: string): LexState
  {
    match r
    case CreateBot(name, _, _, _) => s.(bots := s.bots + [BotSummary(name, assignedId)])
    case CreateBotLocale(b, l, _) => s.(locales := s.locales[b := LocalesOf(s, b) + [l]])
    case CreateIntent(b, l, n, _) => s.(intents := s.intents[(b, l) := IntentsOf(s, b, l) + [n]])
    case _ => s
  }

  /** The effect of a sequence of requests, in order. */
  function Apply(s: LexState, rs: seq<Request>, assignedId: string): LexState
  {
    if rs == [] then s else Effect(Apply(s, rs[..|rs| - 1], assignedId), rs[|rs| - 1], assignedId)
  }

  lemma {:induction false} ApplyConcat(s: LexState, a: seq<Request>, b: seq<Request>, assignedId: string)
    ensures Apply(s, a + b, assignedId) == Apply(Apply(s, a, assignedId), b, assignedId)
  {
    if b == [] {
      assert a + b == a;
    } else {
      var b' := b[..|b| - 1];
      assert (a + b)[..|a + b| - 1] == a + b';
      ApplyConcat(s, a, b', assignedId);
    }
  }

  lemma ApplyOne(s: LexState, r: Request, assignedId: string)
    ensures Apply(s, [r], assignedId) == Effect(s, r, assignedId)
  {
    assert [r][..0] == [];
  }

  /** A request that creates nothing leaves the listings as they are. */
  lemma ApplyAfterRead(s: LexState, r: Request, rest: seq<Request>, assignedId: string)
    requires !r.IsCreate()
    ensures Apply(s, [r] + rest, assignedId) == Apply(s, rest, assignedId)
  {
    ApplyConcat(s, [r], rest, assignedId);
    ApplyOne(s, r, assignedId);
  }

  /** Requests appended to a log in two batches, or as one. */
  lemma LogAppend(log: seq<Request>, a: seq<Request>, b: seq<Request>)
    ensures log + a + b == log + (a + b)
  {
  }

  /** The creating requests of `rs`, in order. */
  function Creations(rs: seq<Request>): seq<Request>
  {
    if rs == [] then [] else (if rs[0].IsCreate() then [rs[0]] else []) + Creations(rs[1..])
  }

  lemma {:induction false} CreationsConcat(a: seq<Request>, b: seq<Request>)
    ensures Creations(a + b) == Creations(a) + Creations(b)
  {
    if a == [] {
      assert a + b == b;
    } else {
      assert (a + b)[1..] == a[1..] + b;
      CreationsConcat(a[1..], b);
    }
  }

  lemma CreationsAfterRead(r: Request, rest: seq<Request>)
    requires !r.IsCreate()
    ensures Creations([r] + rest) == Creations(rest)
  {
    assert ([r] + rest)[1..] == rest;
  }

  lemma CreationsOne(r: Request)
    ensures Creations([r]) == if r.IsCreate() then [r] else []
  {
    assert [r][1..] == [];
  }

  /** One environment's entry of a Lex config file: its string-valued keys, and the boolean
      `child_directed` when present. */
  datatype EnvConfig = EnvConfig(text: map<string, string>, childDirected: Option<bool>)

  /** A Lex config file: environment name to entry. */
  type ConfigFile = map<string, EnvConfig>

  /** `config.get(env)` followed by `if not env_config`: an absent entry and an empty one
      (a falsy dict) both abort. */
  function EnvEntry(config: ConfigFile, env: string): (r: Option<EnvConfig>)
    ensures r.Some? <==> env in config && (config[env].text != map[] || config[env].childDirected.Some?)
    ensures r.Some? ==> r.value == config[env]
  {
    if env in config && (config[env].text != map[] || config[env].childDirected.Some?) then Some(config[env]) else None
  }

  /** Why a run stops with a non-zero exit status. */
  datatype Exit =
    | MissingConfigFile
    | MissingEnvConfig
    | MissingKey(key: string)
    | BotFailed
    | LocaleFailed
    | BuildFailed
    | NoZipDirectory
    | NoZipFiles
    | CreateScriptFailed
    | UploadRejected(statusCode: int)
    | ImportFailed
    | ImportTimedOut

  /** How a run ends: exit status 0, a non-zero exit, or still polling when the supplied
      status answers run out. */
  datatype Outcome = Succeeded | Exited(reason: Exit) | Stalled

  /** The remote service: its listings, and the log of every request issued to it except
      status polls. Each request method takes the part of the service's answer the model cannot
      compute (a new bot's id, an upload target) as a parameter. */
  class LexService {
    var bots: seq<BotSummary>
    var locales: map<string, seq<string>>
    var intents: map<(string, string), seq<string>>
    var log: seq<Request>

    function State(): LexState
      reads this
    {
      LexState(bots, locales, intents)
    }

    constructor (initial: LexState)
      ensures State() == initial && log == []
    {
      bots, locales, intents := initial.bots, initial.locales, initial.intents;
      log := [];
    }

    method ListBots() returns (summaries: seq<BotSummary>)
      modifies this`log
      ensures summaries == bots && log == old(log) + [Request.ListBots]
    {
      summaries := bots;
      log := log + [Request.ListBots];
    }

    method CreateBot(botName: string, roleArn: string, childDirected: bool, idleSessionTtlInSeconds: nat, assignedId: string)
      returns (botId: string)
      modifies this`bots, this`log
      ensures botId == assignedId
      ensures log == old(log) + [Request.CreateBot(botName, roleArn, childDirected, idleSessionTtlInSeconds)]
      ensures bots == old(bots) + [BotSummary(botName, assignedId)]
    {
      bots := bots + [BotSummary(botName, assignedId)];
      log := log + [Request.CreateBot(botName, roleArn, childDirected, idleSessionTtlInSeconds)];
      botId := assignedId;
    }

    method ListBotLocales(botId: string) returns (localeIds: seq<string>)
      modifies this`log
      ensures localeIds == LocalesOf(State(), botId) && log == old(log) + [Request.ListBotLocales(botId)]
    {
      localeIds := LocalesOf(State(), botId);
      log := log + [Request.ListBotLocales(botId)];
    }

    method CreateBotLocale(botId: string, localeId: string, description: string)
      modifies this`locales, this`log
      ensures log == old(log) + [Request.CreateBotLocale(botId, localeId, description)]
      ensures locales == old(locales)[botId := LocalesOf(old(State()), botId) + [localeId]]
    {
      locales := locales[botId := LocalesOf(State(), botId) + [localeId]];
      log := log + [Request.CreateBotLocale(botId, localeId, description)];
    }

    method ListIntents(botId: string, localeId: string) returns (intentNames: seq<string>)
      modifies this`log
      ensures intentNames == IntentsOf(State(), botId, localeId) && log == old(log) + [Request.ListIntents(botId, localeId)]
    {
      intentNames := IntentsOf(State(), botId, localeId);
      log := log + [Request.ListIntents(botId, localeId)];
    }

    method CreateIntent(botId: string, localeId: string, intentName: string, sampleUtterances: seq<string>)
      modifies this`intents, this`log
      ensures log == old(log) + [Request.CreateIntent(botId, localeId, intentName, sampleUtterances)]
      ensures intents == old(intents)[(botId, localeId) := IntentsOf(old(State()), botId, localeId) + [intentName]]
    {
      intents := intents[(botId, localeId) := IntentsOf(State(), botId, localeId) + [intentName]];
      log := log + [Request.CreateIntent(botId, localeId, intentName, sampleUtterances)];
    }

    /** Starting a build changes the locale's status, not the listings. */
    method BuildBotLocale(botId: string, localeId: string)
      modifies this`log
      ensures log == old(log) + [Request.BuildBotLocale(botId, localeId)]
    {
      log := log + [Request.BuildBotLocale(botId, localeId)];
    }

    /** Returns the (upload URL, import id) pair the service issues. */
    method CreateUploadUrl(issued: (string, string)) returns (target: (string, string))
      modifies this`log
      ensures target == issued && log == old(log) + [Request.CreateUploadUrl]
    {
      target := issued;
      log := log + [Request.CreateUploadUrl];
    }

    /** The HTTP PUT of the artifact to the upload URL; returns the HTTP status code it got. */
    method UploadArtifact(uploadUrl: string, fileName: string, statusCode: int) returns (code: int)
      modifies this`log
      ensures code == statusCode && log == old(log) + [Request.UploadArtifact(uploadUrl, fileName)]
    {
      code := statusCode;
      log := log + [Request.UploadArtifact(uploadUrl, fileName)];
    }

    /** Returns the id of the import job the service starts. */
    method StartImport(importId: string, spec: ImportSpec, mergeStrategy: string, startedId: string) returns (jobId: string)
      modifies this`log
      ensures jobId == startedId && log == old(log) + [Request.StartImport(importId, spec, mergeStrategy)]
    {
      jobId := startedId;
      log := log + [Request.StartImport(importId, spec, mergeStrategy)];
    }
  }
}
