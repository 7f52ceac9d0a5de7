/** deploy/create_new_lex_bot.py: the same find-or-create sequence as deploy/deploy_lex.py, with
    a locale wait that also accepts Built and a single HelloIntent. The config file lives in the
    bot's own directory, and the script checks that it exists before reading it. */
module CreateNewLexBot {
  import opened Basics
  import opened Polling
  import opened LexModels
  import opened Reconcile
  import DeployLex

  /** The statuses that end this script's locale wait as ready. */
  const LocaleReady: set<string> := {"ReadyBeforeBuild", "NotBuilt", "Built"}

  const Script := Variant(LocaleReady, [IntentDef(HelloIntent, HelloUtterances)])

  /** Locale wait: ReadyBeforeBuild, NotBuilt or Built end it, Failed aborts, anything else
      polls again. */
  method WaitForLocaleReady(observed: seq<string>) returns (w: Wait)
    ensures w == Verdict(observed, {"ReadyBeforeBuild", "NotBuilt", "Built"}, {"Failed"})
  {
    w := Await(observed, LocaleReady, FailedStatuses);
  }

  /** The two bot scripts' locale waits differ only on Built: this one stops ready no later than
      deploy/deploy_lex.py's, reports a failure only where that one does too, and on a locale
      that reads Built throughout it is ready at the first read while deploy/deploy_lex.py's
      keeps polling. */
  lemma LocaleWaitAcceptsBuilt(observed: seq<string>)
    ensures Verdict(observed, DeployLex.LocaleReady, FailedStatuses).Ready? ==>
              Verdict(observed, LocaleReady, FailedStatuses).Ready? &&
              Verdict(observed, LocaleReady, FailedStatuses).polls <= Verdict(observed, DeployLex.LocaleReady, FailedStatuses).polls
    ensures Verdict(observed, LocaleReady, FailedStatuses).Failed? ==>
              Verdict(observed, DeployLex.LocaleReady, FailedStatuses) == Verdict(observed, LocaleReady, FailedStatuses)
    ensures |observed| > 0 && (forall j :: 0 <= j < |observed| ==> observed[j] == "Built") ==>
              Verdict(observed, LocaleReady, FailedStatuses) == Ready(1) &&
              Verdict(observed, DeployLex.LocaleReady, FailedStatuses) == Wait.Stalled
  {
    WiderReadySettlesNoLater(observed, DeployLex.LocaleReady, LocaleReady, FailedStatuses);
    if |observed| > 0 && forall j :: 0 <= j < |observed| ==> observed[j] == "Built" {
      FindFirstIsFirst(observed, s => Stops(s, LocaleReady, FailedStatuses), 0);
    }
  }

  /** Step 3: list the locale's intents; when none is named HelloIntent, create it. */
  method EnsureHelloIntent(lex: LexService, botId: string, localeId: string, ghost assignedId: string)
    modifies lex
    ensures lex.log == old(lex.log) + IntentRequests(old(lex.State()), botId, localeId, Script)
    ensures lex.State() == Apply(old(lex.State()), IntentRequests(old(lex.State()), botId, localeId, Script), assignedId)
  {
    ghost var s := lex.State();
    var intents := lex.ListIntents(botId, localeId);
    CreateIntentsOfOne(botId, localeId, Script.intentsIfHelloMissing[0]);
    IntentStepEffect(s, botId, localeId, Script, assignedId);
    if HelloIntent !in intents {
      lex.CreateIntent(botId, localeId, HelloIntent, HelloUtterances);
    }
  }

  /** Steps 3 and 4. */
  method Finish(lex: LexService, botId: string, localeId: string, obs: Observations, ghost assignedId: string)
    returns (outcome: Outcome)
    modifies lex
    ensures outcome == FromIntents(old(lex.State()), botId, localeId, obs, Script).outcome
    ensures lex.log == old(lex.log) + FromIntents(old(lex.State()), botId, localeId, obs, Script).issued
    ensures lex.State() == Apply(old(lex.State()), FromIntents(old(lex.State()), botId, localeId, obs, Script).issued, assignedId)
  {
    ghost var s := lex.State();
    EnsureHelloIntent(lex, botId, localeId, assignedId);
    var buildWait := BuildLocale(lex, botId, localeId, obs.buildStatuses, assignedId);
    ApplyConcat(s, IntentRequests(s, botId, localeId, Script), [BuildBotLocale(botId, localeId)], assignedId);
    outcome := if buildWait.Ready? then Succeeded else Halt(buildWait, BuildFailed);
  }

  /** Steps 2 to 4 on the bot `botId`. */
  method DeployLocale(lex: LexService, st: Settings, botId: string, obs: Observations, ghost assignedId: string)
    returns (outcome: Outcome)
    modifies lex
    ensures outcome == FromLocale(old(lex.State()), st, botId, obs, Script).outcome
    ensures lex.log == old(lex.log) + FromLocale(old(lex.State()), st, botId, obs, Script).issued
    ensures lex.State() == Apply(old(lex.State()), FromLocale(old(lex.State()), st, botId, obs, Script).issued, assignedId)
  {
    ghost var s, log0 := lex.State(), lex.log;
    EnsureLocale(lex, botId, st, assignedId);
    var localeWait := WaitForLocaleReady(obs.localeStatuses);
    if !localeWait.Ready? {
      return Halt(localeWait, LocaleFailed);
    }
    ghost var s2 := lex.State();
    ghost var rest := FromIntents(s, botId, st.localeId, obs, Script);
    assert FromLocale(s, st, botId, obs, Script) == Then(LocaleRequests(s, botId, st), rest);
    assert FromIntents(s2, botId, st.localeId, obs, Script) == rest by {
      LocaleStepEffect(s, botId, st, assignedId);
      assert IntentsOf(s2, botId, st.localeId) == IntentsOf(s, botId, st.localeId);
    }
    outcome := Finish(lex, botId, st.localeId, obs, assignedId);
    LogAppend(log0, LocaleRequests(s, botId, st), rest.issued);
    assert lex.State() == Apply(s, LocaleRequests(s, botId, st) + rest.issued, assignedId) by {
      ApplyConcat(s, LocaleRequests(s, botId, st), rest.issued, assignedId);
    }
  }

  /** Steps 1 to 4 once the settings are read. */
  method Deploy(lex: LexService, st: Settings, assignedId: string, obs: Observations) returns (outcome: Outcome)
    modifies lex
    ensures outcome == Reconciliation(old(lex.State()), st, assignedId, obs, Script).outcome
    ensures lex.log == old(lex.log) + Reconciliation(old(lex.State()), st, assignedId, obs, Script).issued
    ensures lex.State() == Apply(old(lex.State()), Reconciliation(old(lex.State()), st, assignedId, obs, Script).issued, assignedId)
  {
    ghost var s, log0 := lex.State(), lex.log;
    var botId, botWait := EnsureBot(lex, st, assignedId, obs.botStatuses);
    if botWait.Some? && !botWait.value.Ready? {
      return Halt(botWait.value, BotFailed);
    }
    ghost var s1 := lex.State();
    ghost var rest := FromLocale(s, st, botId, obs, Script);
    assert Reconciliation(s, st, assignedId, obs, Script) == Then(BotRequests(s, st), rest);
    assert FromLocale(s1, st, botId, obs, Script) == rest by {
      BotStepEffect(s, st, assignedId);
      FromLocaleReadsListings(s, s1, st, botId, obs, Script);
    }
    outcome := DeployLocale(lex, st, botId, obs, assignedId);
    LogAppend(log0, BotRequests(s, st), rest.issued);
    assert lex.State() == Apply(s, BotRequests(s, st) + rest.issued, assignedId) by {
      ApplyConcat(s, BotRequests(s, st), rest.issued, assignedId);
    }
  }

  /** Only HelloIntent is reconciled: it is created once, with its three utterances, exactly when
      no intent of the locale has that name, and no other intent is ever created. */
  lemma OnlyHelloIntentIsCreated(s: LexState, botId: string, localeId: string)
    ensures Creations(IntentRequests(s, botId, localeId, Script)) ==
              if HelloIntent in IntentsOf(s, botId, localeId) then []
              else [CreateIntent(botId, localeId, "HelloIntent", ["hi", "hello", "hey there"])]
  {
    IntentStepEffect(s, botId, localeId, Script, "");
    CreateIntentsOfOne(botId, localeId, Script.intentsIfHelloMissing[0]);
  }

  /** This script's variant creates HelloIntent, so a full run leaves the bot, the locale and
      HelloIntent listed, and a second run works on the same bot and creates nothing. */
  lemma SecondRunCreatesNothing(s: LexState, st: Settings, id1: string, id2: string)
    ensures var s' := Apply(s, Plan(s, st, id1, Script), id1);
            var botId := BotIdFor(s, st, id1);
            && FindByName(s'.bots, BotNameOf, st.botName).Some?
            && st.localeId in LocalesOf(s', botId)
            && HelloIntent in IntentsOf(s', botId, st.localeId)
            && BotIdFor(s', st, id2) == botId
            && Creations(Plan(s', st, id2, Script)) == []
  {
    assert Script.intentsIfHelloMissing[0].name == HelloIntent;
    PlanReconciles(s, st, id1, id2, Script);
    RerunCreatesNothing(s, st, id1, id2, Script);
  }

  /** The whole script against the service: its outcome, the requests it issued and the
      listings it leaves are those of Simulate. A bad config issues nothing. */
  method Run(lex: LexService, config: Option<ConfigFile>, env: string, assignedId: string, obs: Observations)
    returns (outcome: Outcome)
    modifies lex
    ensures outcome == Simulate(config, env, old(lex.State()), assignedId, obs, Script).outcome
    ensures lex.log == old(lex.log) + Simulate(config, env, old(lex.State()), assignedId, obs, Script).issued
    ensures lex.State() == Apply(old(lex.State()), Simulate(config, env, old(lex.State()), assignedId, obs, Script).issued, assignedId)
  {
    var settings := ReadSettings(config, env);
    if settings.Err? {
      assert Apply(lex.State(), [], assignedId) == lex.State();
      return Exited(settings.error);
    }
    outcome := Deploy(lex, settings.value, assignedId, obs);
  }
}
