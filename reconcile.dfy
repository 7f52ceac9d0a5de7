/** The find-or-create sequence both bot scripts run (deploy/deploy_lex.py and
    deploy/create_new_lex_bot.py): bot, then locale, then the HelloIntent check, then a build.
    The two scripts differ in the statuses their locale wait accepts and in the intents they
    create when HelloIntent is missing; a Variant holds those two choices. This module gives
    the functional specification of a run (Simulate), the requests a run makes when every wait
    ends ready (Plan), the step methods the scripts share, and the lemmas about them. */
module Reconcile {
  import opened Basics
  import opened Polling
  import opened LexModels

  const BotReady: set<string> := {"Available"}
  const BuildReady: set<string> := {"Built"}
  const FailedStatuses: set<string> := {"Failed"}
  const IdleSessionTtlInSeconds: nat := 300
  const HelloIntent := "HelloIntent"
  const HelloUtterances := ["hi", "hello", "hey there"]

  /** The keys both scripts read from the environment's entry, in the order they read them. */
  const SettingKeys := ["bot_name", "locale_id", "alias_name", "lex_role_arn"]

  datatype Settings = Settings(env: string, botName: string, localeId: string, aliasName: string, roleArn: string)

  datatype IntentDef = IntentDef(name: string, sampleUtterances: seq<string>)

  /** What distinguishes the two bot scripts. */
  datatype Variant = Variant(localeReady: set<string>, intentsIfHelloMissing: seq<IntentDef>)

  /** The statuses the three waits of a run read, in order. */
  datatype Observations = Observations(botStatuses: seq<string>, localeStatuses: seq<string>, buildStatuses: seq<string>)

  /** How a run ends and the requests it issued. */
  datatype RunResult = RunResult(outcome: Outcome, issued: seq<Request>)

  /** The config file (None when it is missing), then the environment's entry, then its four keys in order. */
  function ReadSettings(config: Option<ConfigFile>, env: string): (r: Result<Settings, Exit>)
    ensures config.None? ==> r == Err(MissingConfigFile)
    ensures config.Some? && EnvEntry(config.value, env).None? ==> r == Err(MissingEnvConfig)
    ensures config.Some? && EnvEntry(config.value, env).Some? && r.Err? ==> r.error.MissingKey?
    ensures r.Ok? <==> config.Some? && EnvEntry(config.value, env).Some? &&
                       forall k :: k in SettingKeys ==> k in config.value[env].text
    ensures r.Err? && r.error.MissingKey? ==>
              exists i :: 0 <= i < |SettingKeys| && r.error.key == SettingKeys[i] &&
                          SettingKeys[i] !in config.value[env].text &&
                          forall j :: 0 <= j < i ==> SettingKeys[j] in config.value[env].text
    ensures r.Ok? ==> var text := config.value[env].text;
              r.value == Settings(env, text["bot_name"], text["locale_id"], text["alias_name"], text["lex_role_arn"])
  {
    match config
    case None => Err(MissingConfigFile)
    case Some(file) =>
      match EnvEntry(file, env)
      case None => Err(MissingEnvConfig)
      case Some(entry) =>
        match FindFirst(SettingKeys, k => k !in entry.text)
        case Some(i) => Err(MissingKey(SettingKeys[i]))
        case None =>
          assert forall k :: k in SettingKeys ==> k in entry.text by {
            forall k | k in SettingKeys ensures k in entry.text {
              var j :| 0 <= j < |SettingKeys| && SettingKeys[j] == k;
            }
          }
          Ok(Settings(env, entry.text["bot_name"], entry.text["locale_id"], entry.text["alias_name"], entry.text["lex_role_arn"]))
  }

  function LocaleDescription(env: string): string
  {
    env + " locale created via script"
  }

  /** The bot the run works on: the first listed bot with the configured name, else the one it creates. */
  function BotIdFor(s: LexState, st: Settings, assignedId: string): string
  {
    match FindByName(s.bots, BotNameOf, st.botName)
    case Some(i) => s.bots[i].botId
    case None => assignedId
  }

  function BotRequests(s: LexState, st: Settings): seq<Request>
  {
    [ListBots] +
    if FindByName(s.bots, BotNameOf, st.botName).Some? then []
    else [CreateBot(st.botName, st.roleArn, false, IdleSessionTtlInSeconds)]
  }

  function LocaleRequests(s: LexState, botId: string, st: Settings): seq<Request>
  {
    [ListBotLocales(botId)] +
    if st.localeId in LocalesOf(s, botId) then [] else [CreateBotLocale(botId, st.localeId, LocaleDescription(st.env))]
  }

  /** One create_intent per definition, in order. */
  function CreateIntents(botId: string, localeId: string, defs: seq<IntentDef>): seq<Request>
  {
    if defs == [] then []
    else CreateIntents(botId, localeId, defs[..|defs| - 1]) +
         [CreateIntent(botId, localeId, defs[|defs| - 1].name, defs[|defs| - 1].sampleUtterances)]
  }

  function IntentRequests(s: LexState, botId: string, localeId: string, v: Variant): seq<Request>
  {
    [ListIntents(botId, localeId)] +
    if HelloIntent in IntentsOf(s, botId, localeId) then [] else CreateIntents(botId, localeId, v.intentsIfHelloMissing)
  }

  /** Every request a run makes when each wait it meets ends ready, in order. The listings
      the later steps read are those of `s`: creating a bot changes no locale listing, and
      creating a locale changes no intent listing. */
  function Plan(s: LexState, st: Settings, assignedId: string, v: Variant): seq<Request>
  {
    var botId := BotIdFor(s, st, assignedId);
    BotRequests(s, st) + LocaleRequests(s, botId, st) + IntentRequests(s, botId, st.localeId, v) +
    [BuildBotLocale(botId, st.localeId)]
  }

  /** A wait that did not end ready: a failure exits, running out of answers leaves the run polling. */
  function Halt(w: Wait, reason: Exit): Outcome
  {
    if w.Failed? then Exited(reason) else Outcome.Stalled
  }

  /** What a run does, given the config, the service's listings `s`, the id the service gives
      a bot it creates, and the statuses its waits read. */
  function Simulate(config: Option<ConfigFile>, env: string, s: LexState, assignedId: string, obs: Observations, v: Variant): RunResult
  {
    match ReadSettings(config, env)
    case Err(e) => RunResult(Exited(e), [])
    case Ok(st) => Reconciliation(s, st, assignedId, obs, v)
  }

  /** `rest`, preceded by the requests `issued`. */
  function Then(issued: seq<Request>, rest: RunResult): RunResult
  {
    RunResult(rest.outcome, issued + rest.issued)
  }

  /** The run once the settings are read: step 1 (the bot), then the rest unless the bot wait
      did not end ready. */
  function Reconciliation(s: LexState, st: Settings, assignedId: string, obs: Observations, v: Variant): RunResult
  {
    var botWait := Verdict(obs.botStatuses, BotReady, FailedStatuses);
    if FindByName(s.bots, BotNameOf, st.botName).None? && !botWait.Ready? then RunResult(Halt(botWait, BotFailed), BotRequests(s, st))
    else Then(BotRequests(s, st), FromLocale(s, st, BotIdFor(s, st, assignedId), obs, v))
  }

  /** Step 2 (the locale, then its ready-wait) on the bot `botId`, then the rest unless the wait
      did not end ready. */
  function FromLocale(s: LexState, st: Settings, botId: string, obs: Observations, v: Variant): RunResult
  {
    var localeWait := Verdict(obs.localeStatuses, v.localeReady, FailedStatuses);
    if !localeWait.Ready? then RunResult(Halt(localeWait, LocaleFailed), LocaleRequests(s, botId, st))
    else Then(LocaleRequests(s, botId, st), FromIntents(s, botId, st.localeId, obs, v))
  }

  /** Steps 3 and 4: the intent check, then the build and its wait. */
  function FromIntents(s: LexState, botId: string, localeId: string, obs: Observations, v: Variant): RunResult
  {
    var buildWait := Verdict(obs.buildStatuses, BuildReady, FailedStatuses);
    RunResult(if buildWait.Ready? then Succeeded else Halt(buildWait, BuildFailed),
        IntentRequests(s, botId, localeId, v) + [BuildBotLocale(botId, localeId)])
  }

  /** Steps 2 to 4 read only the locale and intent listings. */
  lemma FromLocaleReadsListings(s: LexState, s': LexState, st: Settings, botId: string, obs: Observations, v: Variant)
    requires s.locales == s'.locales && s.intents == s'.intents
    ensures FromLocale(s, st, botId, obs, v) == FromLocale(s', st, botId, obs, v)
  {
    assert LocalesOf(s, botId) == LocalesOf(s', botId);
    assert IntentsOf(s, botId, st.localeId) == IntentsOf(s', botId, st.localeId);
  }

  // ---------------------------------------------------------------------------------------
  // Lemmas about a run

  /** A run issues the plan's requests in order and stops early only at a wait that did not end
      ready; it succeeds exactly when every wait it meets ends ready, and a Failed status is
      never reported as success. A bad config issues nothing. */
  lemma SimulateFollowsPlan(config: Option<ConfigFile>, env: string, s: LexState, assignedId: string, obs: Observations, v: Variant)
    ensures var run := Simulate(config, env, s, assignedId, obs, v);
            match ReadSettings(config, env)
            case Err(e) => run == RunResult(Exited(e), [])
            case Ok(st) =>
              && run.issued <= Plan(s, st, assignedId, v)
              && (run.outcome == Succeeded || run.outcome == Exited(BuildFailed) ==> run.issued == Plan(s, st, assignedId, v))
              && (run.outcome == Succeeded <==>
                    (FindByName(s.bots, BotNameOf, st.botName).Some? || Verdict(obs.botStatuses, BotReady, FailedStatuses).Ready?) &&
                    Verdict(obs.localeStatuses, v.localeReady, FailedStatuses).Ready? &&
                    Verdict(obs.buildStatuses, BuildReady, FailedStatuses).Ready?)
  {
    if ReadSettings(config, env).Ok? {
      var st := ReadSettings(config, env).value;
      var botId := BotIdFor(s, st, assignedId);
      var b, l, i := BotRequests(s, st), LocaleRequests(s, botId, st), IntentRequests(s, botId, st.localeId, v);
      var build := [BuildBotLocale(botId, st.localeId)];
      assert b + (l + (i + build)) == Plan(s, st, assignedId, v);
      assert b + l <= Plan(s, st, assignedId, v);
    }
  }

  /** Every request create_intent_requests makes is a create_intent. */
  lemma {:induction false} CreateIntentsAreIntents(botId: string, localeId: string, defs: seq<IntentDef>)
    ensures forall r :: r in CreateIntents(botId, localeId, defs) ==> r.CreateIntent?
  {
    if defs != [] {
      CreateIntentsAreIntents(botId, localeId, defs[..|defs| - 1]);
    }
  }

  /** None of the importer's calls is among `rs`. */
  predicate NoImportCalls(rs: seq<Request>)
  {
    forall r :: r in rs ==> !r.CreateUploadUrl? && !r.UploadArtifact? && !r.StartImport?
  }

  /** A run of the create or deploy script makes none of the importer's calls: it asks for no
      upload URL, uploads no file and starts no import. */
  lemma SimulateMakesNoImportCalls(config: Option<ConfigFile>, env: string, s: LexState, assignedId: string, obs: Observations, v: Variant)
    ensures forall r :: r in Simulate(config, env, s, assignedId, obs, v).issued ==>
              !r.CreateUploadUrl? && !r.UploadArtifact? && !r.StartImport?
  {
    if ReadSettings(config, env).Ok? {
      var st := ReadSettings(config, env).value;
      var botId := BotIdFor(s, st, assignedId);
      CreateIntentsAreIntents(botId, st.localeId, v.intentsIfHelloMissing);
      assert NoImportCalls(BotRequests(s, st));
      assert NoImportCalls(LocaleRequests(s, botId, st));
      assert NoImportCalls(IntentRequests(s, botId, st.localeId, v) + [BuildBotLocale(botId, st.localeId)]);
      assert NoImportCalls(FromLocale(s, st, botId, obs, v).issued);
      assert NoImportCalls(Reconciliation(s, st, assignedId, obs, v).issued);
    }
  }

  /** When the bot is listed, the run reuses its id: neither the id the service would assign nor
      the bot statuses (no availability wait) affect the run. */
  lemma ExistingBotIsReused(config: Option<ConfigFile>, env: string, s: LexState, id1: string, id2: string,
                            obs: Observations, otherBotStatuses: seq<string>, v: Variant)
    requires ReadSettings(config, env).Ok?
    requires FindByName(s.bots, BotNameOf, ReadSettings(config, env).value.botName).Some?
    ensures Simulate(config, env, s, id1, obs, v) == Simulate(config, env, s, id2, obs.(botStatuses := otherBotStatuses), v)
    ensures Creations(BotRequests(s, ReadSettings(config, env).value)) == []
  {
  }

  /** Step 1 on the listings: only a missing bot is appended. */
  lemma BotStepEffect(s: LexState, st: Settings, assignedId: string)
    ensures var s1 := Apply(s, BotRequests(s, st), assignedId);
            && s1.locales == s.locales && s1.intents == s.intents
            && s1.bots == s.bots + if FindByName(s.bots, BotNameOf, st.botName).Some? then [] else [BotSummary(st.botName, assignedId)]
    ensures Creations(BotRequests(s, st)) ==
              if FindByName(s.bots, BotNameOf, st.botName).Some? then [] else [CreateBot(st.botName, st.roleArn, false, 300)]
  {
    var b := BotRequests(s, st);
    assert b == [ListBots] + b[1..];
    ApplyAfterRead(s, ListBots, b[1..], assignedId);
    CreationsAfterRead(ListBots, b[1..]);
    if FindByName(s.bots, BotNameOf, st.botName).None? {
      ApplyOne(s, b[1], assignedId);
      CreationsOne(b[1]);
    }
  }

  /** Step 2 on the listings: only a missing locale is appended to the bot's locales. */
  lemma LocaleStepEffect(s: LexState, botId: string, st: Settings, assignedId: string)
    ensures var s2 := Apply(s, LocaleRequests(s, botId, st), assignedId);
            && s2.bots == s.bots && s2.intents == s.intents
            && LocalesOf(s2, botId) == LocalesOf(s, botId) + (if st.localeId in LocalesOf(s, botId) then [] else [st.localeId])
            && s2.locales == if st.localeId in LocalesOf(s, botId) then s.locales else s.locales[botId := LocalesOf(s2, botId)]
    ensures Creations(LocaleRequests(s, botId, st)) ==
              if st.localeId in LocalesOf(s, botId) then [] else [CreateBotLocale(botId, st.localeId, LocaleDescription(st.env))]
  {
    var l := LocaleRequests(s, botId, st);
    assert l == [ListBotLocales(botId)] + l[1..];
    ApplyAfterRead(s, ListBotLocales(botId), l[1..], assignedId);
    CreationsAfterRead(ListBotLocales(botId), l[1..]);
    if st.localeId !in LocalesOf(s, botId) {
      ApplyOne(s, l[1], assignedId);
      CreationsOne(l[1]);
    }
  }

  function Names(defs: seq<IntentDef>): seq<string>
  {
    if defs == [] then [] else Names(defs[..|defs| - 1]) + [defs[|defs| - 1].name]
  }

  lemma {:induction false} CreateIntentsAreCreations(botId: string, localeId: string, defs: seq<IntentDef>)
    ensures Creations(CreateIntents(botId, localeId, defs)) == CreateIntents(botId, localeId, defs)
  {
    if defs != [] {
      var last := defs[|defs| - 1];
      var c := CreateIntent(botId, localeId, last.name, last.sampleUtterances);
      CreateIntentsAreCreations(botId, localeId, defs[..|defs| - 1]);
      CreationsConcat(CreateIntents(botId, localeId, defs[..|defs| - 1]), [c]);
      CreationsOne(c);
    }
  }

  lemma {:induction false} CreateIntentsEffect(s: LexState, botId: string, localeId: string, defs: seq<IntentDef>, assignedId: string)
    ensures var s' := Apply(s, CreateIntents(botId, localeId, defs), assignedId);
            s'.bots == s.bots && s'.locales == s.locales &&
            IntentsOf(s', botId, localeId) == IntentsOf(s, botId, localeId) + Names(defs) &&
            s'.intents == if defs == [] then s.intents else s.intents[(botId, localeId) := IntentsOf(s', botId, localeId)]
  {
    if defs == [] {
      assert Apply(s, [], assignedId) == s;
    } else {
      var front, key := defs[..|defs| - 1], (botId, localeId);
      CreateIntentsEffect(s, botId, localeId, front, assignedId);
      LastCreateIntentEffect(s, botId, localeId, defs, assignedId);
      var mid := Apply(s, CreateIntents(botId, localeId, front), assignedId);
      var s' := Apply(s, CreateIntents(botId, localeId, defs), assignedId);
      var listed := IntentsOf(mid, botId, localeId) + [defs[|defs| - 1].name];
      assert s'.intents == mid.intents[key := listed];
      assert IntentsOf(s', botId, localeId) == listed;
      if front != [] {
        assert mid.intents == s.intents[key := IntentsOf(mid, botId, localeId)];
        assert s.intents[key := IntentsOf(mid, botId, localeId)][key := listed] == s.intents[key := listed];
      }
      assert Names(defs) == Names(front) + [defs[|defs| - 1].name];
    }
  }

  /** The last create_intent of a non-empty batch appends its name to the listing the earlier ones left. */
  lemma LastCreateIntentEffect(s: LexState, botId: string, localeId: string, defs: seq<IntentDef>, assignedId: string)
    requires defs != []
    ensures var mid := Apply(s, CreateIntents(botId, localeId, defs[..|defs| - 1]), assignedId);
            Apply(s, CreateIntents(botId, localeId, defs), assignedId) ==
              mid.(intents := mid.intents[(botId, localeId) := IntentsOf(mid, botId, localeId) + [defs[|defs| - 1].name]])
  {
    var last := defs[|defs| - 1];
    var c := CreateIntent(botId, localeId, last.name, last.sampleUtterances);
    ApplyConcat(s, CreateIntents(botId, localeId, defs[..|defs| - 1]), [c], assignedId);
    ApplyOne(Apply(s, CreateIntents(botId, localeId, defs[..|defs| - 1]), assignedId), c, assignedId);
  }

  lemma CreateIntentsOfOne(botId: string, localeId: string, a: IntentDef)
    ensures CreateIntents(botId, localeId, [a]) == [CreateIntent(botId, localeId, a.name, a.sampleUtterances)]
    ensures Names([a]) == [a.name]
  {
    assert [a][..0] == [];
  }

  lemma CreateIntentsOfTwo(botId: string, localeId: string, a: IntentDef, b: IntentDef)
    ensures CreateIntents(botId, localeId, [a, b]) ==
              [CreateIntent(botId, localeId, a.name, a.sampleUtterances), CreateIntent(botId, localeId, b.name, b.sampleUtterances)]
    ensures Names([a, b]) == [a.name, b.name]
  {
    assert [a, b][..1] == [a];
    CreateIntentsOfOne(botId, localeId, a);
  }

  /** Step 3 on the listings: the variant's intents are appended only when HelloIntent is missing. */
  lemma IntentStepEffect(s: LexState, botId: string, localeId: string, v: Variant, assignedId: string)
    ensures var s3 := Apply(s, IntentRequests(s, botId, localeId, v), assignedId);
            && s3.bots == s.bots && s3.locales == s.locales
            && IntentsOf(s3, botId, localeId) ==
                 IntentsOf(s, botId, localeId) + (if HelloIntent in IntentsOf(s, botId, localeId) then [] else Names(v.intentsIfHelloMissing))
            && s3.intents == if HelloIntent in IntentsOf(s, botId, localeId) || v.intentsIfHelloMissing == [] then s.intents
                             else s.intents[(botId, localeId) := IntentsOf(s3, botId, localeId)]
    ensures Creations(IntentRequests(s, botId, localeId, v)) ==
              if HelloIntent in IntentsOf(s, botId, localeId) then [] else CreateIntents(botId, localeId, v.intentsIfHelloMissing)
  {
    var i := IntentRequests(s, botId, localeId, v);
    assert i == [ListIntents(botId, localeId)] + i[1..];
    ApplyAfterRead(s, ListIntents(botId, localeId), i[1..], assignedId);
    CreationsAfterRead(ListIntents(botId, localeId), i[1..]);
    CreateIntentsEffect(s, botId, localeId, v.intentsIfHelloMissing, assignedId);
    CreateIntentsAreCreations(botId, localeId, v.intentsIfHelloMissing);
  }

  /** The resources a successful run creates: the bot exactly when no listed bot has the
      configured name (once, not child-directed, idle TTL 300); the locale exactly when the bot
      lists no locale with the configured id; the variant's intents exactly when the locale has
      no intent named HelloIntent. */
  lemma PlanCreations(s: LexState, st: Settings, assignedId: string, v: Variant)
    ensures var botId := BotIdFor(s, st, assignedId);
            Creations(Plan(s, st, assignedId, v)) ==
              (if FindByName(s.bots, BotNameOf, st.botName).Some? then [] else [CreateBot(st.botName, st.roleArn, false, 300)]) +
              (if st.localeId in LocalesOf(s, botId) then [] else [CreateBotLocale(botId, st.localeId, LocaleDescription(st.env))]) +
              (if HelloIntent in IntentsOf(s, botId, st.localeId) then [] else CreateIntents(botId, st.localeId, v.intentsIfHelloMissing))
  {
    var botId := BotIdFor(s, st, assignedId);
    var b, l, i := BotRequests(s, st), LocaleRequests(s, botId, st), IntentRequests(s, botId, st.localeId, v);
    var build := [BuildBotLocale(botId, st.localeId)];
    CreationsConcat(b + l + i, build);
    CreationsConcat(b + l, i);
    CreationsConcat(b, l);
    BotStepEffect(s, st, assignedId);
    LocaleStepEffect(s, botId, st, assignedId);
    IntentStepEffect(s, botId, st.localeId, v, assignedId);
  }

  lemma {:induction false} NameInNames(defs: seq<IntentDef>, k: nat)
    requires k < |defs|
    ensures defs[k].name in Names(defs)
  {
    if k < |defs| - 1 {
      NameInNames(defs[..|defs| - 1], k);
    }
  }

  /** The listings after the plan are those after its three find-or-create steps; the build
      changes no listing. */
  lemma ApplyPlanSteps(s: LexState, st: Settings, assignedId: string, v: Variant)
    ensures var botId := BotIdFor(s, st, assignedId);
            var s1 := Apply(s, BotRequests(s, st), assignedId);
            var s2 := Apply(s1, LocaleRequests(s, botId, st), assignedId);
            Apply(s, Plan(s, st, assignedId, v), assignedId) == Apply(s2, IntentRequests(s, botId, st.localeId, v), assignedId)
  {
    var botId := BotIdFor(s, st, assignedId);
    var b, l, i := BotRequests(s, st), LocaleRequests(s, botId, st), IntentRequests(s, botId, st.localeId, v);
    var build := BuildBotLocale(botId, st.localeId);
    ApplyConcat(s, b + l + i, [build], assignedId);
    ApplyOne(Apply(s, b + l + i, assignedId), build, assignedId);
    ApplyConcat(s, b + l, i, assignedId);
    ApplyConcat(s, b, l, assignedId);
  }

  /** The listings after a successful run: the bot (same id), the locale and HelloIntent are
      all listed. (The variant must create HelloIntent; both scripts' variants do.) */
  lemma PlanReconciles(s: LexState, st: Settings, assignedId: string, otherId: string, v: Variant)
    requires exists k :: 0 <= k < |v.intentsIfHelloMissing| && v.intentsIfHelloMissing[k].name == HelloIntent
    ensures var s' := Apply(s, Plan(s, st, assignedId, v), assignedId);
            var botId := BotIdFor(s, st, assignedId);
            && FindByName(s'.bots, BotNameOf, st.botName).Some?
            && BotIdFor(s', st, otherId) == botId
            && st.localeId in LocalesOf(s', botId)
            && HelloIntent in IntentsOf(s', botId, st.localeId)
  {
    var botId := BotIdFor(s, st, assignedId);
    var s1 := Apply(s, BotRequests(s, st), assignedId);
    var s2 := Apply(s1, LocaleRequests(s, botId, st), assignedId);
    var s3 := Apply(s2, IntentRequests(s, botId, st.localeId, v), assignedId);
    ApplyPlanSteps(s, st, assignedId, v);
    assert FindByName(s1.bots, BotNameOf, st.botName).Some? && BotIdFor(s1, st, otherId) == botId
           && LocalesOf(s1, botId) == LocalesOf(s, botId) && s1.intents == s.intents by {
      BotStepEffect(s, st, assignedId);
      FindByNameAppend(s.bots, BotNameOf, st.botName, BotSummary(st.botName, assignedId));
    }
    assert s2.bots == s1.bots && st.localeId in LocalesOf(s2, botId)
           && IntentsOf(s2, botId, st.localeId) == IntentsOf(s, botId, st.localeId) by {
      assert LocaleRequests(s, botId, st) == LocaleRequests(s1, botId, st);
      LocaleStepEffect(s1, botId, st, assignedId);
    }
    assert s3.bots == s2.bots && s3.locales == s2.locales && HelloIntent in IntentsOf(s3, botId, st.localeId) by {
      assert IntentRequests(s, botId, st.localeId, v) == IntentRequests(s2, botId, st.localeId, v);
      IntentStepEffect(s2, botId, st.localeId, v, assignedId);
      if HelloIntent !in IntentsOf(s2, botId, st.localeId) {
        var k :| 0 <= k < |v.intentsIfHelloMissing| && v.intentsIfHelloMissing[k].name == HelloIntent;
        NameInNames(v.intentsIfHelloMissing, k);
      }
    }
  }

  /** Running again after a successful run creates nothing and works on the same bot. */
  lemma RerunCreatesNothing(s: LexState, st: Settings, id1: string, id2: string, v: Variant)
    requires exists k :: 0 <= k < |v.intentsIfHelloMissing| && v.intentsIfHelloMissing[k].name == HelloIntent
    ensures var s' := Apply(s, Plan(s, st, id1, v), id1);
            && BotIdFor(s', st, id2) == BotIdFor(s, st, id1)
            && Creations(Plan(s', st, id2, v)) == []
  {
    var s' := Apply(s, Plan(s, st, id1, v), id1);
    PlanReconciles(s, st, id1, id2, v);
    assert BotIdFor(s', st, id2) == BotIdFor(s, st, id1);
    PlanCreations(s', st, id2, v);
  }

  // ---------------------------------------------------------------------------------------
  // The steps both scripts share

  /** Bot status wait: Available ends it, Failed aborts, anything else polls again. */
  method WaitForBotAvailable(observed: seq<string>) returns (w: Wait)
    ensures w == Verdict(observed, {"Available"}, {"Failed"})
  {
    w := Await(observed, BotReady, FailedStatuses);
  }

  /** Build wait: returns on Built or Failed, polls again on anything else. */
  method WaitForLocaleBuild(observed: seq<string>) returns (w: Wait)
    ensures w == Verdict(observed, {"Built"}, {"Failed"})
  {
    w := Await(observed, BuildReady, FailedStatuses);
  }

  /** Step 1: list the bots; reuse the first with the configured name, else create it and wait
      for it to become available. `wait` is None exactly when no wait ran. */
  method EnsureBot(lex: LexService, st: Settings, assignedId: string, botStatuses: seq<string>)
    returns (botId: string, wait: Option<Wait>)
    modifies lex
    ensures botId == BotIdFor(old(lex.State()), st, assignedId)
    ensures wait.None? <==> FindByName(old(lex.bots), BotNameOf, st.botName).Some?
    ensures wait.Some? ==> wait.value == Verdict(botStatuses, BotReady, FailedStatuses)
    ensures lex.log == old(lex.log) + BotRequests(old(lex.State()), st)
    ensures lex.State() == Apply(old(lex.State()), BotRequests(old(lex.State()), st), assignedId)
  {
    ghost var s := lex.State();
    var bots := lex.ListBots();
    var bot := FindByName(bots, BotNameOf, st.botName);
    if bot.Some? {
      botId := bots[bot.value].botId;
      wait := None;
    } else {
      botId := lex.CreateBot(st.botName, st.roleArn, false, IdleSessionTtlInSeconds, assignedId);
      var w := WaitForBotAvailable(botStatuses);
      wait := Some(w);
    }
    BotStepEffect(s, st, assignedId);
  }

  /** Step 2: list the bot's locales and create the configured one when it is not listed. The
      ready-wait that follows is the script's own. */
  method EnsureLocale(lex: LexService, botId: string, st: Settings, ghost assignedId: string)
    modifies lex
    ensures lex.log == old(lex.log) + LocaleRequests(old(lex.State()), botId, st)
    ensures lex.State() == Apply(old(lex.State()), LocaleRequests(old(lex.State()), botId, st), assignedId)
  {
    ghost var s := lex.State();
    var locales := lex.ListBotLocales(botId);
    if st.localeId !in locales {
      lex.CreateBotLocale(botId, st.localeId, LocaleDescription(st.env));
    }
    LocaleStepEffect(s, botId, st, assignedId);
  }

  /** Step 4: trigger the build (always) and wait for it. */
  method BuildLocale(lex: LexService, botId: string, localeId: string, buildStatuses: seq<string>, ghost assignedId: string)
    returns (w: Wait)
    modifies lex
    ensures w == Verdict(buildStatuses, BuildReady, FailedStatuses)
    ensures lex.log == old(lex.log) + [BuildBotLocale(botId, localeId)]
    ensures lex.State() == Apply(old(lex.State()), [BuildBotLocale(botId, localeId)], assignedId)
  {
    lex.BuildBotLocale(botId, localeId);
    ApplyOne(lex.State(), BuildBotLocale(botId, localeId), assignedId);
    w := WaitForLocaleBuild(buildStatuses);
  }
}
