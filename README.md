# Lex and Connect deploy scripts, modelled in Dafny

This project models the decision logic of four deploy scripts that reconcile AWS resources with
a per-environment configuration:

- `deploy/deploy_lex.py` and `deploy/create_new_lex_bot.py` find or create a Lex V2 bot by name,
  then its locale, then a `HelloIntent` (plus a `SecondHelloIntent` in the first script), then
  trigger a locale build. Each script waits on remote statuses between steps.
- `deploy/import_or_create_lex_bot.py` picks the newest exported `.zip` of a bot and makes sure
  the bot exists, running `deploy/create_new_lex_bot.py` when it does not. It then uploads the
  archive, starts an `Overwrite` import and polls the import at most 20 times.
- `deploy/deploy_connect.py` maps the environment to a contact-flow name. It then updates the
  flow of that name in the Connect instance, or creates it.

Remote services are classes whose fields are the listings their `list_*` calls return, plus
a log of every request issued except the status polls (the describe calls). Each logged request
is a method of the class, and a pure `Effect`/`Apply` pair says how requests change the listings. The values the model cannot compute are
parameters: the id a service gives a new resource, an upload target, an HTTP status code. The
statuses a polling loop reads are also a parameter: a finite sequence in the order the describe
calls return them. A `while True` loop that reaches the end of that sequence without stopping
has no verdict (`Stalled`), because the script would go on polling.

Each script is a method (`Run`) proved equal to a functional description of the run: its
outcome, the requests it issued in order, and the listings it leaves. For the two bot scripts
that description is `Reconcile.Simulate`. For the importer it is
`ImportOrCreateLexBot.Import`, and for the Connect script `DeployConnect.Deploy`. The lemmas
are proved about these descriptions:

- a config error issues nothing;
- each step creates only when the lookup finds nothing;
- a second run after a successful one creates nothing and works on the same bot or flow;
- `Failed` is never reported as success;
- the import poll makes at most 20 reads.

Modules: `Basics` (Option, Result, first-match lookup), `Polling` (the unbounded status loops),
`LexModels` (the Lex service), `Reconcile` (the find-or-create sequence the two bot scripts
share), `DeployLex`, `CreateNewLexBot`, `ImportOrCreateLexBot`, `DeployConnect`.

The two bot scripts differ in ways the model keeps apart:

- `deploy/deploy_lex.py` does not accept `Built` as a ready locale status, but
  `deploy/create_new_lex_bot.py` does. `CreateNewLexBot.LocaleWaitAcceptsBuilt` shows the
  consequence. On a locale that reads `Built`, which is what a rerun meets after a successful
  build, the first script's wait never ends.
- `deploy/deploy_lex.py` creates `HelloIntent` and `SecondHelloIntent` together, and only when
  `HelloIntent` is missing. A missing `SecondHelloIntent` alone is never repaired.

Four behaviours of the scripts that the model keeps as written:

- The scripts read each listing with a single call, without following pagination.
- The bot scripts always trigger the build, whatever the locale's current status.
- The three Lex waits have no attempt bound: they poll until a ready or failure status.
- In the importer, a status outside InProgress, Waiting, Completed and Failed ends the import
  loop and the run exits as a timeout; it is not polled again.

## Model

| member | source | states |
|---|---|---|
| Basics.FindFirst | deploy/deploy_lex.py:71 | the `next(..., None)` lookup: the index of the first element satisfying the predicate, with every earlier element failing it; None exactly when no element satisfies it |
| Basics.FindFirstIsFirst | deploy/deploy_lex.py:71 | an index that satisfies the predicate after only failing elements is the one the lookup returns |
| Basics.FindByName | deploy/deploy_connect.py:43 | the first element whose name equals the target exactly (case-sensitive), earlier names all differ; None exactly when no name matches |
| Basics.FindByNameAppend | deploy/deploy_lex.py:71 | appending a resource keeps an existing first match, and makes the appended resource the match when there was none and it carries the name |
| Polling.Verdict | deploy/deploy_lex.py:10-20 | a status loop stops at the first ready or failed status (ready checked first), reporting how many reads it made, with every earlier read asking for another poll; it has no verdict exactly when every read asks for another poll |
| Polling.Await | deploy/create_new_lex_bot.py:19-29 | the read-and-classify loop returns exactly the verdict |
| Polling.WiderReadySettlesNoLater | deploy/create_new_lex_bot.py:40 | a loop with a wider ready set ends ready no later and reports failure only where the narrower one does |
| LexModels.EnvEntry | deploy/deploy_lex.py:58-60 | an environment entry that is absent or empty aborts; otherwise it is the entry |
| LexModels.ApplyConcat | deploy/deploy_lex.py:69-139 | the listings after two batches of requests are those after the first batch, then the second |
| LexModels.Effect | deploy/deploy_lex.py:70-139 | defines what one request does to the listings: create_bot appends the named bot with the id the service assigns, create_bot_locale appends the locale id to that bot's locales, create_intent appends the intent name to that (bot, locale); list calls, the build and the upload change no listing, and the model gives start_import no effect on the listings (what a completed import does to the bot is not modelled) |
| LexModels.Apply | deploy/deploy_lex.py:69-139 | defines the listings after a sequence of requests as the effects of its requests taken in order |
| LexModels.LexService.ListBots | deploy/deploy_lex.py:70 | list_bots returns the bots as listed, in listing order, and logs the request; no listing changes |
| LexModels.LexService.ListBotLocales | deploy/deploy_lex.py:89 | list_bot_locales returns the locale ids listed for that bot (none for a bot with no locales) and logs the request; no listing changes |
| LexModels.LexService.ListIntents | deploy/deploy_lex.py:105 | list_intents returns the intent names listed for that (bot, locale) and logs the request; no listing changes |
| LexModels.LexService.BuildBotLocale | deploy/deploy_lex.py:139 | build_bot_locale is logged for that bot and locale; no listing changes |
| LexModels.LexService.CreateUploadUrl | deploy/import_or_create_lex_bot.py:75-77 | create_upload_url returns the (upload URL, import id) pair the service issues and logs the request; no listing changes |
| LexModels.LexService.UploadArtifact | deploy/import_or_create_lex_bot.py:80-82 | the PUT of the named archive to the upload URL returns the HTTP status code it receives and is logged with the URL and the file name; no listing changes |
| LexModels.LexService.StartImport | deploy/import_or_create_lex_bot.py:97-103 | start_import is logged with the import id, the resource specification and the merge strategy, and returns the import job id the service gives; no listing changes |
| LexModels.LexService.CreateBot | deploy/deploy_lex.py:78-84 | create_bot appends the named bot with the id the service assigns, and logs the request |
| LexModels.LexService.CreateBotLocale | deploy/deploy_lex.py:94-100 | create_bot_locale appends the locale id to that bot's locales |
| LexModels.LexService.CreateIntent | deploy/deploy_lex.py:110-120 | create_intent appends the intent name to that locale's intents |
| Reconcile.ReadSettings | deploy/create_new_lex_bot.py:68-81 | a missing config file, then an absent or empty environment entry, then the first missing key among bot_name, locale_id, alias_name, lex_role_arn each abort; otherwise the four values |
| Reconcile.Simulate | deploy/deploy_lex.py:55-144 | defines a bot script's run: a settings error exits with that reason and issues nothing; otherwise the run is the reconciliation on the read settings |
| Reconcile.Reconciliation | deploy/deploy_lex.py:69-86 | defines step 1 and what follows: list the bots, create the bot only when no bot has the name; a created bot whose wait does not end ready halts the run there (Failed exits, running out of statuses leaves it polling); otherwise the run continues on the found or created bot id |
| Reconcile.FromLocale | deploy/deploy_lex.py:88-102 | defines step 2 and what follows: list the locales, create the configured one only when absent, then always wait; a wait that does not end ready halts the run there |
| Reconcile.FromIntents | deploy/deploy_lex.py:104-144 | defines steps 3 and 4: the intent step, then the build request; the run succeeds exactly when the build wait reads Built, exits on Failed, and otherwise keeps polling |
| Reconcile.Plan | deploy/deploy_lex.py:69-139 | defines the requests of a run in which every wait ends ready: the bot step, the locale step on the found or created bot, the intent step, the build |
| Reconcile.SimulateFollowsPlan | deploy/deploy_lex.py:55-144 | a config error issues nothing; a run issues a prefix of the plan, all of it when the build wait returns; it succeeds exactly when each wait it meets ends ready |
| Reconcile.SimulateMakesNoImportCalls | deploy/create_new_lex_bot.py:59-143 | a run of the create script asks for no upload URL, uploads nothing and starts no import |
| Reconcile.ExistingBotIsReused | deploy/deploy_lex.py:73-75 | with the bot listed, its id is used: the assigned id and the bot statuses do not matter and no bot is created |
| Reconcile.BotStepEffect | deploy/deploy_lex.py:69-86 | the bot step creates exactly one bot (not child-directed, idle TTL 300) when none has the name, and nothing else |
| Reconcile.LocaleStepEffect | deploy/deploy_lex.py:88-100 | the locale step creates the locale, with its description, exactly when the bot lists no locale with that id |
| Reconcile.CreateIntentsEffect | deploy/deploy_lex.py:110-132 | the intent creations append the intent names in order to that locale and change nothing else |
| Reconcile.IntentStepEffect | deploy/deploy_lex.py:104-135 | the intent step creates the variant's intents exactly when no intent is named HelloIntent |
| Reconcile.PlanCreations | deploy/deploy_lex.py:69-139 | a full run creates the bot, the locale and the intents each exactly when its lookup finds nothing, in that order |
| Reconcile.PlanReconciles | deploy/deploy_lex.py:69-139 | after a full run the bot is listed under the id the run used, with the locale and HelloIntent |
| Reconcile.RerunCreatesNothing | deploy/deploy_lex.py:69-139 | running again after a full run creates nothing and works on the same bot |
| Reconcile.WaitForBotAvailable | deploy/deploy_lex.py:10-20 | the bot wait ends ready only on Available and fails only on Failed |
| Reconcile.WaitForLocaleBuild | deploy/deploy_lex.py:37-48 | the build wait returns only on Built or Failed |
| Reconcile.EnsureBot | deploy/create_new_lex_bot.py:86-102 | reuses the first exact-name bot with no create and no wait, else issues one create_bot and waits |
| Reconcile.EnsureLocale | deploy/create_new_lex_bot.py:104-115 | lists the bot's locales and creates the configured one only when absent |
| Reconcile.BuildLocale | deploy/deploy_lex.py:137-141 | always triggers the build, then waits for Built or Failed |
| DeployLex.WaitForLocaleReady | deploy/deploy_lex.py:22-35 | the locale wait ends ready only on ReadyBeforeBuild or NotBuilt; Built polls again; Failed aborts |
| DeployLex.EnsureHelloIntents | deploy/deploy_lex.py:104-135 | lists the intents and, when none is named HelloIntent, creates HelloIntent and SecondHelloIntent |
| DeployLex.HelloIntentsAdded | deploy/deploy_lex.py:105-132 | when HelloIntent is missing the step lists the intents and then creates HelloIntent and SecondHelloIntent, appending both names in that order to the locale's intents |
| DeployLex.BothHelloIntentsOrNeither | deploy/deploy_lex.py:105-135 | both intents, with their utterances, are created exactly when HelloIntent is missing; otherwise neither, even if SecondHelloIntent is missing |
| DeployLex.SecondRunCreatesNothing | deploy/deploy_lex.py:69-139 | with this script's intents, a full run leaves the bot, the locale and HelloIntent listed, and a second run works on the same bot and creates nothing |
| DeployLex.Finish | deploy/deploy_lex.py:104-144 | the intent step and the build; the run aborts exactly when the build wait returns Failed |
| DeployLex.DeployLocale | deploy/deploy_lex.py:88-144 | the locale step, then its ready-wait, run whether or not the locale was created |
| DeployLex.Deploy | deploy/deploy_lex.py:69-144 | the four steps, each stopping the run when its wait does not end ready |
| DeployLex.Run | deploy/deploy_lex.py:50-144 | the script's outcome, requests and resulting listings are those of the run description |
| CreateNewLexBot.WaitForLocaleReady | deploy/create_new_lex_bot.py:31-44 | the locale wait ends ready on ReadyBeforeBuild, NotBuilt or Built; Failed aborts |
| CreateNewLexBot.LocaleWaitAcceptsBuilt | deploy/create_new_lex_bot.py:40 | this locale wait is ready no later than the other script's and fails only where it does; on Built it is ready at once while the other keeps polling |
| CreateNewLexBot.EnsureHelloIntent | deploy/create_new_lex_bot.py:119-133 | lists the intents and creates HelloIntent only when none has that name |
| CreateNewLexBot.OnlyHelloIntentIsCreated | deploy/create_new_lex_bot.py:119-133 | HelloIntent is created once, with its three utterances, exactly when missing; no other intent is created |
| CreateNewLexBot.SecondRunCreatesNothing | deploy/create_new_lex_bot.py:86-136 | with this script's intent, a full run leaves the bot, the locale and HelloIntent listed, and a second run works on the same bot and creates nothing |
| CreateNewLexBot.Finish | deploy/create_new_lex_bot.py:119-140 | the intent step and the build; the run aborts exactly when the build wait returns Failed |
| CreateNewLexBot.DeployLocale | deploy/create_new_lex_bot.py:104-140 | the locale step, then its ready-wait in both cases |
| CreateNewLexBot.Deploy | deploy/create_new_lex_bot.py:86-140 | the four steps, each stopping the run when its wait does not end ready |
| CreateNewLexBot.Run | deploy/create_new_lex_bot.py:59-140 | the script's outcome, requests and resulting listings are those of the run description |
| ImportOrCreateLexBot.NewestZip | deploy/import_or_create_lex_bot.py:26-31 | only names ending in .zip are candidates; the pick has the largest mtime among them and is the first in listing order among equal mtimes; None exactly when there is no candidate |
| ImportOrCreateLexBot.NewestZipIsUnique | deploy/import_or_create_lex_bot.py:30-31 | the newest-first-in-order property determines the pick |
| ImportOrCreateLexBot.IsZip | deploy/import_or_create_lex_bot.py:26 | a candidate is a file name ending in ".zip", compared case-sensitively |
| ImportOrCreateLexBot.LatestZipFile | deploy/import_or_create_lex_bot.py:22-31 | a missing directory, then an empty candidate list, exit; otherwise the newest ZIP |
| ImportOrCreateLexBot.BuildImportSpec | deploy/import_or_create_lex_bot.py:86-94 | bot name and role come from the entry (a missing key aborts); childDirected is true only when the entry says so |
| ImportOrCreateLexBot.ImportVerdict | deploy/import_or_create_lex_bot.py:106-126 | at most 20 reads; Completed succeeds and Failed aborts at the first read showing them; 20 pending reads, or an unknown status, time out |
| ImportOrCreateLexBot.ImportOutcome | deploy/import_or_create_lex_bot.py:115-126 | defines the run's ending from the poll: Completed succeeds, Failed exits as a failed import, a timeout (20 pending reads or an unknown status) exits as timed out, and a poll that ran out of statuses keeps polling |
| ImportOrCreateLexBot.PollImport | deploy/import_or_create_lex_bot.py:106-123 | the status/attempts loop returns exactly the verdict |
| ImportOrCreateLexBot.ImportVerdictAt | deploy/import_or_create_lex_bot.py:109-121 | the first non-pending read within the bound decides the verdict |
| ImportOrCreateLexBot.ImportVerdictAllPending | deploy/import_or_create_lex_bot.py:109 | 20 pending reads end in a timeout |
| ImportOrCreateLexBot.ImportSucceedsOnlyOnCompleted | deploy/import_or_create_lex_bot.py:115-126 | the import succeeds only after a Completed read within 20 reads; the first terminal read decides between success, failure and timeout |
| ImportOrCreateLexBot.BotCheck | deploy/import_or_create_lex_bot.py:33-45 | defines ensure_bot_exists: list the bots; an exact-name match ends the check successfully; otherwise the create script's run for the same config and environment follows, and its failure stops the importer |
| ImportOrCreateLexBot.UploadAndImport | deploy/import_or_create_lex_bot.py:74-126 | defines the upload and import: request the upload URL, PUT the chosen archive to it, exit on a status other than 200, build the specification (a missing key exits), start an Overwrite import with the upload's import id, and end as the poll decides |
| ImportOrCreateLexBot.Import | deploy/import_or_create_lex_bot.py:47-126 | defines the importer's run: the newest ZIP, the config file, the environment entry and bot_name are checked in that order, each failure exiting with no request; then the remote part, uploading the chosen ZIP |
| ImportOrCreateLexBot.Remote | deploy/import_or_create_lex_bot.py:71-126 | defines the remote part of the run: the bot check, then, only when it succeeded, the upload and import |
| ImportOrCreateLexBot.ChecksPrecedeRemoteCalls | deploy/import_or_create_lex_bot.py:54-71 | nothing is requested exactly when the ZIP, the config file, the environment entry or bot_name is missing, and then the run exits |
| ImportOrCreateLexBot.BotCheckCreatesOnlyWhenAbsent | deploy/import_or_create_lex_bot.py:33-45 | a listed bot means no creation; otherwise the create script runs once and its first creation is that bot |
| ImportOrCreateLexBot.UploadGuardsImport | deploy/import_or_create_lex_bot.py:75-126 | a non-200 upload exits and never starts the import; the import carries the upload's id, the env's bot name and role, childDirected default false and Overwrite; success needs a 200 upload and a Completed read |
| ImportOrCreateLexBot.RemoteUploadsOnce | deploy/import_or_create_lex_bot.py:71-82 | after the bot check, the given file is uploaded at most once, to the URL create_upload_url returned, and a remote part that succeeds has uploaded it |
| ImportOrCreateLexBot.ImportUploadsNewestZip | deploy/import_or_create_lex_bot.py:55-82 | every upload a run makes is of the newest ZIP that get_latest_zip_file picks, to the returned URL, and there is at most one; a successful run has made it |
| ImportOrCreateLexBot.EnsureBotExists | deploy/import_or_create_lex_bot.py:33-45 | lists the bots, returns on an exact-name match, else runs the create script, whose non-zero exit stops the run |
| ImportOrCreateLexBot.UploadAndStartImport | deploy/import_or_create_lex_bot.py:74-123 | upload URL, upload of the named archive, spec, start_import with Overwrite, then the poll, as the run description says; the listings after it are those before it, because the model gives the import no effect on them |
| ImportOrCreateLexBot.ImportBot | deploy/import_or_create_lex_bot.py:71-123 | ensure_bot_exists, then the upload and import only when the bot check succeeded; outcome, requests and listings are those of the remote part of the run description |
| ImportOrCreateLexBot.Run | deploy/import_or_create_lex_bot.py:47-126 | the script's outcome, requests and resulting listings are those of the run description |
| DeployConnect.FlowNameFor | deploy/deploy_connect.py:9-29 | only dev, uat and prod have a flow name, test- followed by the environment |
| DeployConnect.Listed | deploy/deploy_connect.py:41-43 | the flows the listing response carries, an absent ContactFlowSummaryList being read as none |
| DeployConnect.Effect | deploy/deploy_connect.py:45-62 | defines what one request does to the instance: an update replaces the content stored under that flow id; a create appends the named flow with the id the service assigns and stores its content; a listing changes nothing |
| DeployConnect.Apply | deploy/deploy_connect.py:41-62 | defines the instance after a sequence of requests as their effects taken in order |
| DeployConnect.Deploy | deploy/deploy_connect.py:25-63 | defines the script's run: an environment without a flow name exits with no request; otherwise list the flows, then update the first flow with that exact name by its id, or else create it with the name, type CONTACT_FLOW, the content and its description, reporting the flow id |
| DeployConnect.ConnectInstance.ListContactFlows | deploy/deploy_connect.py:41 | list_contact_flows returns the summary list as the response carries it (possibly absent) and logs the request; nothing else changes |
| DeployConnect.DeployedFlowHoldsContent | deploy/deploy_connect.py:41-63 | an unknown environment issues nothing; otherwise afterwards the first flow with the name has the reported id and holds the content |
| DeployConnect.RedeployUpdatesInPlace | deploy/deploy_connect.py:41-52 | a second deployment updates the flow the first one deployed to, by its id, and creates nothing |
| DeployConnect.MissingSummaryListIsEmpty | deploy/deploy_connect.py:42-62 | a missing summary list reads as empty, so the flow is created with its name, type CONTACT_FLOW, the content and its description |
| DeployConnect.ConnectInstance.UpdateContactFlowContent | deploy/deploy_connect.py:48-52 | replaces the content of the flow with that id |
| DeployConnect.ConnectInstance.CreateContactFlow | deploy/deploy_connect.py:55-62 | appends the named flow with the assigned id and stores its content |
| DeployConnect.Run | deploy/deploy_connect.py:24-63 | the script's flow id, requests and resulting instance are those of the deployment description |

## Left out

- Process plumbing is not modelled: argument parsing, JSON loading, reading the ZIP and flow files, printing and `time.sleep`. The config file is given as a map from environment to entry, and the directory listing as (name, mtime) pairs.
- Remote calls always succeed: boto3 exceptions (`ClientError`), `requests` transport errors and subprocess launch errors are not modelled.
- The region (`AWS_REGION` in the bot scripts, `--region` in the importer) is not modelled. The importer and the create script it runs are taken to talk to the same service.
- Describe calls (`describe_bot`, `describe_bot_locale`, `describe_import`) are not logged as requests. A wait that stops reports how many statuses it read (`polls` of its verdict); a `Stalled` wait has read every supplied status.
- LexModels.Effect: a completed Overwrite import replaces the bot's definition (its locales and intents) with the archive's, which the model does not capture; start_import has no effect on the listings, so the listings after an import are only those before it.
- ImportOrCreateLexBot.UploadAndStartImport: its ensures that the listings are unchanged follows from the model giving the import no effect, not from the service; the bot definition after a completed import is not modelled.
- Polling.Verdict: a `while True` loop that has not stopped when the supplied statuses run out is reported as `Stalled` rather than proved to terminate; the scripts themselves would poll forever.
- The locale's `nluIntentConfidenceThreshold` (a float) and the `DRAFT` bot version are constants of every request and are not carried.
- `deploy/deploy_lex.py` opens its config file without an existence check, and a missing file ends in an uncaught exception. The model reports it as the same `MissingConfigFile` exit the other scripts give.
- Config values other than strings are not modelled, except `child_directed` as a boolean. `alias_name` is read (its absence aborts) but is otherwise unused, as in the scripts.
- File modification times are integers, not floats. The chosen ZIP is returned as its directory entry rather than as the joined path, and the upload request names the file by that entry's name; the bytes read from it are not modelled.
- ImportOrCreateLexBot.NewestZip: states the result of the stable descending sort (largest mtime, earliest in listing order among ties) instead of modelling the sort itself.
- `DateTimeEncoder` in `deploy/create_new_lex_bot.py` and `load_spec` in `deploy/import_or_create_lex_bot.py` are unused by the scripts. The commented-out alias block of `deploy/deploy_lex.py` is not code.
- `deploy/deploy_lambda.py` is not part of this model. It is ZIP packaging plus one Lambda update-or-create call.
