/** deploy/import_or_create_lex_bot.py: pick the newest exported ZIP of the bot, make sure the
    bot exists (running deploy/create_new_lex_bot.py when it does not), upload the ZIP and import
    it over the bot, then poll the import at most MaxAttempts times. */
module ImportOrCreateLexBot {
  import opened Basics
  import opened LexModels
  import Reconcile
  import CreateNewLexBot

  const MaxAttempts: nat := 20
  const MergeStrategy := "Overwrite"
  /** The statuses on which the import loop polls again. */
  const Pending: set<string> := {"InProgress", "Waiting"}

  // ---------------------------------------------------------------------------------------
  // Latest-ZIP selection

  /** A directory entry: its file name and its modification time. */
  datatype DirEntry = DirEntry(name: string, mtime: int)

  /** `name.endswith(".zip")`: case-sensitive. */
  predicate IsZip(name: string)
  {
    |name| >= 4 && name[|name| - 4..] == ".zip"
  }

  /** The position of the newest ZIP in `entries`: the largest mtime among the ZIP entries, and
      among several with that mtime the first in listing order (the sort is stable, so a
      descending sort keeps equal entries in listing order). None when no entry is a ZIP. */
  function NewestZip(entries: seq<DirEntry>): (r: Option<nat>)
    ensures r.None? <==> forall j :: 0 <= j < |entries| ==> !IsZip(entries[j].name)
    ensures r.Some? ==> r.value < |entries| && IsZip(entries[r.value].name)
    ensures r.Some? ==> forall j :: 0 <= j < |entries| && IsZip(entries[j].name) ==> entries[j].mtime <= entries[r.value].mtime
    ensures r.Some? ==> forall j :: 0 <= j < r.value && IsZip(entries[j].name) ==> entries[j].mtime < entries[r.value].mtime
  {
    if entries == [] then None
    else
      var front, last := entries[..|entries| - 1], entries[|entries| - 1];
      assert forall j :: 0 <= j < |front| ==> front[j] == entries[j];
      match NewestZip(front)
      case None => if IsZip(last.name) then Some(|entries| - 1) else None
      case Some(k) => if IsZip(last.name) && last.mtime > entries[k].mtime then Some(|entries| - 1) else Some(k)
  }

  /** The selection is determined by its properties: an index that is a ZIP, no older than any
      ZIP, and strictly newer than every earlier ZIP is the one NewestZip picks. */
  lemma NewestZipIsUnique(entries: seq<DirEntry>, i: nat)
    requires i < |entries| && IsZip(entries[i].name)
    requires forall j :: 0 <= j < |entries| && IsZip(entries[j].name) ==> entries[j].mtime <= entries[i].mtime
    requires forall j :: 0 <= j < i && IsZip(entries[j].name) ==> entries[j].mtime < entries[i].mtime
    ensures NewestZip(entries) == Some(i)
  {
  }

  /** `get_latest_zip_file`: no directory, or no ZIP in it, exits; otherwise the newest ZIP. The
      listing is None when the path is not a directory. */
  function LatestZipFile(listing: Option<seq<DirEntry>>): (r: Result<DirEntry, Exit>)
    ensures listing.None? ==> r == Err(NoZipDirectory)
    ensures listing.Some? && NewestZip(listing.value).None? ==> r == Err(NoZipFiles)
    ensures r.Ok? ==> listing.Some? && NewestZip(listing.value).Some? && r.value == listing.value[NewestZip(listing.value).value]
  {
    match listing
    case None => Err(NoZipDirectory)
    case Some(entries) =>
      match NewestZip(entries)
      case None => Err(NoZipFiles)
      case Some(i) => Ok(entries[i])
  }

  // ---------------------------------------------------------------------------------------
  // Import specification

  /** The bot import specification built from the environment's entry: bot name and role from
      its keys (a missing key is a KeyError), child-directed false unless the entry says so. */
  function BuildImportSpec(entry: EnvConfig): (r: Result<ImportSpec, Exit>)
    ensures r.Ok? <==> "bot_name" in entry.text && "lex_role_arn" in entry.text
    ensures "bot_name" !in entry.text ==> r == Err(MissingKey("bot_name"))
    ensures "bot_name" in entry.text && "lex_role_arn" !in entry.text ==> r == Err(MissingKey("lex_role_arn"))
    ensures r.Ok? ==> r.value.botName == entry.text["bot_name"] && r.value.roleArn == entry.text["lex_role_arn"]
    ensures r.Ok? ==> (r.value.childDirected <==> entry.childDirected == Some(true))
  {
    if "bot_name" !in entry.text then Err(MissingKey("bot_name"))
    else if "lex_role_arn" !in entry.text then Err(MissingKey("lex_role_arn"))
    else
      var childDirected := match entry.childDirected case Some(b) => b case None => false;
      Ok(ImportSpec(entry.text["bot_name"], entry.text["lex_role_arn"], childDirected))
  }

  // ---------------------------------------------------------------------------------------
  // The bounded import poll

  /** How the import poll ends, with the number of describe_import calls it made. */
  datatype ImportPoll =
    | Completed(polls: nat)   // the polls-th status read was Completed
    | Aborted(polls: nat)     // the polls-th status read was Failed
    | TimedOut(polls: nat)    // MaxAttempts pending statuses, or an unknown status at the polls-th read
    | Unfinished              // the supplied statuses ran out while the loop would poll again

  /** What the poll concludes from the statuses describe_import returns, in order. Only the
      first MaxAttempts can be read. */
  function ImportVerdict(observed: seq<string>): (r: ImportPoll)
    ensures r.Completed? || r.Aborted? || r.TimedOut? ==> 1 <= r.polls <= MaxAttempts && r.polls <= |observed|
    ensures !r.Unfinished? ==> forall j :: 0 <= j < r.polls - 1 ==> observed[j] in Pending
    ensures r.Completed? <==> !r.Unfinished? && observed[r.polls - 1] == "Completed"
    ensures r.Aborted? <==> !r.Unfinished? && observed[r.polls - 1] == "Failed"
    ensures r.TimedOut? && observed[r.polls - 1] in Pending ==> r.polls == MaxAttempts
    ensures r.Unfinished? <==> |observed| < MaxAttempts && forall j :: 0 <= j < |observed| ==> observed[j] in Pending
  {
    var window := if |observed| < MaxAttempts then observed else observed[..MaxAttempts];
    match FindFirst(window, s => s !in Pending)
    case Some(k) =>
      if window[k] == "Completed" then Completed(k + 1)
      else if window[k] == "Failed" then Aborted(k + 1)
      else TimedOut(k + 1)
    case None =>
      if |observed| < MaxAttempts then Unfinished
      else
        assert observed[MaxAttempts - 1] == window[MaxAttempts - 1];
        TimedOut(MaxAttempts)
  }

  /** The poll loop: status starts InProgress; while it is pending and fewer than MaxAttempts
      reads were made, read the next status, return on Completed, exit on Failed, count the read. */
  method PollImport(observed: seq<string>) returns (r: ImportPoll)
    ensures r == ImportVerdict(observed)
  {
    var status := "InProgress";
    var attempts := 0;
    while status in Pending && attempts < MaxAttempts
      invariant 0 <= attempts <= MaxAttempts && attempts <= |observed|
      invariant forall j :: 0 <= j < attempts - 1 ==> observed[j] in Pending
      invariant attempts == 0 ==> status == "InProgress"
      invariant attempts > 0 ==> status == observed[attempts - 1] && status != "Completed" && status != "Failed"
      decreases MaxAttempts - attempts
    {
      if attempts == |observed| {
        r := Unfinished;
        assert forall j :: 0 <= j < |observed| ==> observed[j] in Pending;
        return;
      }
      status := observed[attempts];
      if status == "Completed" {
        r := Completed(attempts + 1);
        ImportVerdictAt(observed, attempts);
        return;
      } else if status == "Failed" {
        r := Aborted(attempts + 1);
        ImportVerdictAt(observed, attempts);
        return;
      }
      attempts := attempts + 1;
    }
    r := TimedOut(attempts);
    if status in Pending {
      assert forall j :: 0 <= j < MaxAttempts ==> observed[j] in Pending;
      ImportVerdictAllPending(observed);
    } else {
      ImportVerdictAt(observed, attempts - 1);
    }
  }

  /** The verdict when the read at index k is the first non-pending one. */
  lemma ImportVerdictAt(observed: seq<string>, k: nat)
    requires k < |observed| && k < MaxAttempts && observed[k] !in Pending
    requires forall j :: 0 <= j < k ==> observed[j] in Pending
    ensures ImportVerdict(observed) ==
              if observed[k] == "Completed" then Completed(k + 1)
              else if observed[k] == "Failed" then Aborted(k + 1)
              else TimedOut(k + 1)
  {
    var window := if |observed| < MaxAttempts then observed else observed[..MaxAttempts];
    assert window[k] == observed[k];
    forall j | 0 <= j < k ensures window[j] in Pending {
      assert window[j] == observed[j];
    }
    FindFirstIsFirst(window, s => s !in Pending, k);
  }

  /** The verdict when the first MaxAttempts reads are all pending. */
  lemma ImportVerdictAllPending(observed: seq<string>)
    requires |observed| >= MaxAttempts
    requires forall j :: 0 <= j < MaxAttempts ==> observed[j] in Pending
    ensures ImportVerdict(observed) == TimedOut(MaxAttempts)
  {
    var window := observed[..MaxAttempts];
    forall j | 0 <= j < |window| ensures window[j] in Pending {
      assert window[j] == observed[j];
    }
  }

  /** The run's ending once the import has started. */
  function ImportOutcome(p: ImportPoll): Outcome
  {
    match p
    case Completed(_) => Succeeded
    case Aborted(_) => Exited(ImportFailed)
    case TimedOut(_) => Exited(ImportTimedOut)
    case Unfinished => Outcome.Stalled
  }

  /** The poll reports success only on a Completed status, after at most MaxAttempts reads; a
      Failed status or any status outside InProgress, Waiting, Completed and Failed ends it with
      a non-zero exit. */
  lemma ImportSucceedsOnlyOnCompleted(observed: seq<string>)
    ensures ImportOutcome(ImportVerdict(observed)) == Succeeded ==>
              exists k :: 0 <= k < |observed| && k < MaxAttempts && observed[k] == "Completed"
    ensures forall k :: 0 <= k < |observed| && k < MaxAttempts && observed[k] !in Pending &&
                        (forall j :: 0 <= j < k ==> observed[j] in Pending) ==>
              ImportOutcome(ImportVerdict(observed)) ==
                (if observed[k] == "Completed" then Succeeded
                 else if observed[k] == "Failed" then Exited(ImportFailed) else Exited(ImportTimedOut))
  {
    var r := ImportVerdict(observed);
    if r.Completed? {
      assert observed[r.polls - 1] == "Completed";
    }
    forall k | 0 <= k < |observed| && k < MaxAttempts && observed[k] !in Pending &&
               (forall j :: 0 <= j < k ==> observed[j] in Pending)
      ensures ImportOutcome(ImportVerdict(observed)) ==
                (if observed[k] == "Completed" then Succeeded
                 else if observed[k] == "Failed" then Exited(ImportFailed) else Exited(ImportTimedOut))
    {
      ImportVerdictAt(observed, k);
    }
  }

  // ---------------------------------------------------------------------------------------
  // ensure_bot_exists and the whole run

  /** `ensure_bot_exists`: list the bots; when one has the exact name, nothing more; otherwise
      run deploy/create_new_lex_bot.py for the same bot directory and environment (so with the
      same config file), where a non-zero exit of the script stops this one. */
  function BotCheck(s: LexState, botName: string, config: ConfigFile, env: string, assignedId: string, botObs: Reconcile.Observations): Reconcile.RunResult
  {
    if FindByName(s.bots, BotNameOf, botName).Some? then Reconcile.RunResult(Succeeded, [ListBots])
    else
      var created := Reconcile.Simulate(Some(config), env, s, assignedId, botObs, CreateNewLexBot.Script);
      Reconcile.RunResult(match created.outcome
                    case Succeeded => Succeeded
                    case Exited(_) => Exited(CreateScriptFailed)
                    case Stalled => Outcome.Stalled,
                    [ListBots] + created.issued)
  }

  /** Upload the ZIP, build the import specification, start the import and poll it. `target` is
      the (upload URL, import id) pair create_upload_url returns. */
  function UploadAndImport(entry: EnvConfig, zipName: string, target: (string, string), uploadStatus: int, importStatuses: seq<string>): Reconcile.RunResult
  {
    var upload := [CreateUploadUrl, UploadArtifact(target.0, zipName)];
    if uploadStatus != 200 then Reconcile.RunResult(Exited(UploadRejected(uploadStatus)), upload)
    else match BuildImportSpec(entry)
      case Err(e) => Reconcile.RunResult(Exited(e), upload)
      case Ok(spec) =>
        Reconcile.RunResult(ImportOutcome(ImportVerdict(importStatuses)), upload + [StartImport(target.1, spec, MergeStrategy)])
  }

  /** What a run does, given the export directory's listing, the config file, the service's
      listings, the statuses the nested bot script and the import poll read, the upload target
      and the HTTP status of the upload. */
  function Import(listing: Option<seq<DirEntry>>, config: Option<ConfigFile>, env: string, s: LexState, assignedId: string,
                  botObs: Reconcile.Observations, target: (string, string), uploadStatus: int, importStatuses: seq<string>): Reconcile.RunResult
  {
    match LatestZipFile(listing)
    case Err(e) => Reconcile.RunResult(Exited(e), [])
    case Ok(zip) =>
      match config
      case None => Reconcile.RunResult(Exited(MissingConfigFile), [])
      case Some(file) =>
        match EnvEntry(file, env)
        case None => Reconcile.RunResult(Exited(MissingEnvConfig), [])
        case Some(entry) =>
          if "bot_name" !in entry.text then Reconcile.RunResult(Exited(MissingKey("bot_name")), [])
          else Remote(s, entry, zip.name, file, env, assignedId, botObs, target, uploadStatus, importStatuses)
  }

  /** The remote part of a run, once the local checks passed: the bot check, then (when it
      succeeded) the upload and import. */
  function Remote(s: LexState, entry: EnvConfig, zipName: string, file: ConfigFile, env: string, assignedId: string,
                  botObs: Reconcile.Observations, target: (string, string), uploadStatus: int, importStatuses: seq<string>): Reconcile.RunResult
    requires "bot_name" in entry.text
  {
    var check := BotCheck(s, entry.text["bot_name"], file, env, assignedId, botObs);
    if !check.outcome.Succeeded? then check
    else Reconcile.Then(check.issued, UploadAndImport(entry, zipName, target, uploadStatus, importStatuses))
  }

  /** Nothing is requested of the service, and the run exits, exactly when the ZIP selection,
      the config file, the environment's entry or its bot_name key is missing: all four are
      checked before ensure_bot_exists or any import call. */
  lemma ChecksPrecedeRemoteCalls(listing: Option<seq<DirEntry>>, config: Option<ConfigFile>, env: string, s: LexState, assignedId: string,
                                 botObs: Reconcile.Observations, target: (string, string), uploadStatus: int, importStatuses: seq<string>)
    ensures var run := Import(listing, config, env, s, assignedId, botObs, target, uploadStatus, importStatuses);
            run.issued == [] <==>
              LatestZipFile(listing).Err? || config.None? || EnvEntry(config.value, env).None? ||
              "bot_name" !in EnvEntry(config.value, env).value.text
    ensures var run := Import(listing, config, env, s, assignedId, botObs, target, uploadStatus, importStatuses);
            run.issued == [] ==> run.outcome.Exited?
  {
    var run := Import(listing, config, env, s, assignedId, botObs, target, uploadStatus, importStatuses);
    if LatestZipFile(listing).Ok? && config.Some? && EnvEntry(config.value, env).Some? &&
       "bot_name" in EnvEntry(config.value, env).value.text {
      var entry := EnvEntry(config.value, env).value;
      var check := BotCheck(s, entry.text["bot_name"], config.value, env, assignedId, botObs);
      assert check.issued[0] == ListBots;
      if check.outcome.Succeeded? {
        assert run.issued[0] == ListBots;
      }
    }
  }

  /** ensure_bot_exists creates nothing when a bot with the exact name is listed. Otherwise it
      runs the create script once, and when that script reads the same bot name its first
      creation is that bot (not child-directed, idle TTL 300). */
  lemma BotCheckCreatesOnlyWhenAbsent(s: LexState, botName: string, config: ConfigFile, env: string, assignedId: string,
                                      botObs: Reconcile.Observations)
    ensures FindByName(s.bots, BotNameOf, botName).Some? ==>
              BotCheck(s, botName, config, env, assignedId, botObs) == Reconcile.RunResult(Succeeded, [ListBots])
    ensures FindByName(s.bots, BotNameOf, botName).None? ==>
              BotCheck(s, botName, config, env, assignedId, botObs).issued ==
                [ListBots] + Reconcile.Simulate(Some(config), env, s, assignedId, botObs, CreateNewLexBot.Script).issued
    ensures var settings := Reconcile.ReadSettings(Some(config), env);
            FindByName(s.bots, BotNameOf, botName).None? && settings.Ok? && settings.value.botName == botName ==>
              var created := Creations(BotCheck(s, botName, config, env, assignedId, botObs).issued);
              |created| > 0 && created[0] == CreateBot(botName, settings.value.roleArn, false, 300)
  {
    var settings := Reconcile.ReadSettings(Some(config), env);
    if FindByName(s.bots, BotNameOf, botName).None? && settings.Ok? && settings.value.botName == botName {
      var st := settings.value;
      var run := Reconcile.Simulate(Some(config), env, s, assignedId, botObs, CreateNewLexBot.Script);
      var b := Reconcile.BotRequests(s, st);
      Reconcile.BotStepEffect(s, st, assignedId);
      var rest := run.issued[|b|..];
      assert run.issued == b + rest;
      CreationsConcat(b, rest);
      CreationsAfterRead(ListBots, run.issued);
    }
  }

  /** After the bot check: a non-200 upload exits with its status code and never starts the
      import; the import is started only after a 200 upload and with a complete spec, with the
      upload's import id, the env's bot name and role, child-directed defaulting to false, and
      the Overwrite merge strategy; and the run succeeds only when the poll reads Completed
      within MaxAttempts reads. */
  lemma UploadGuardsImport(entry: EnvConfig, zipName: string, target: (string, string), uploadStatus: int, importStatuses: seq<string>)
    ensures var run := UploadAndImport(entry, zipName, target, uploadStatus, importStatuses);
            uploadStatus != 200 ==> run.outcome == Exited(UploadRejected(uploadStatus)) && forall r :: r in run.issued ==> !r.StartImport?
    ensures var run := UploadAndImport(entry, zipName, target, uploadStatus, importStatuses);
            forall r :: r in run.issued && r.StartImport? ==>
              && uploadStatus == 200
              && r == StartImport(target.1, ImportSpec(entry.text["bot_name"], entry.text["lex_role_arn"], entry.childDirected == Some(true)), "Overwrite")
    ensures var run := UploadAndImport(entry, zipName, target, uploadStatus, importStatuses);
            run.outcome == Succeeded ==>
              && uploadStatus == 200
              && run.issued[|run.issued| - 1].StartImport?
              && exists k :: 0 <= k < |importStatuses| && k < 20 && importStatuses[k] == "Completed"
  {
    ImportSucceedsOnlyOnCompleted(importStatuses);
    var spec := BuildImportSpec(entry);
    if spec.Ok? {
      assert spec.value == ImportSpec(entry.text["bot_name"], entry.text["lex_role_arn"], entry.childDirected == Some(true));
    }
  }

  /** Once the local checks passed, the file named `zipName` is uploaded at most once, to the URL
      create_upload_url returned, and a remote part that succeeds has uploaded it. */
  lemma RemoteUploadsOnce(s: LexState, entry: EnvConfig, zipName: string, file: ConfigFile, env: string, assignedId: string,
                          botObs: Reconcile.Observations, target: (string, string), uploadStatus: int, importStatuses: seq<string>)
    requires "bot_name" in entry.text
    ensures var run := Remote(s, entry, zipName, file, env, assignedId, botObs, target, uploadStatus, importStatuses);
            forall i :: 0 <= i < |run.issued| && run.issued[i].UploadArtifact? ==>
              && run.issued[i] == UploadArtifact(target.0, zipName)
              && forall j :: 0 <= j < |run.issued| && run.issued[j].UploadArtifact? ==> j == i
    ensures var run := Remote(s, entry, zipName, file, env, assignedId, botObs, target, uploadStatus, importStatuses);
            run.outcome == Succeeded ==> UploadArtifact(target.0, zipName) in run.issued
  {
    var run := Remote(s, entry, zipName, file, env, assignedId, botObs, target, uploadStatus, importStatuses);
    var check := BotCheck(s, entry.text["bot_name"], file, env, assignedId, botObs);
    Reconcile.SimulateMakesNoImportCalls(Some(file), env, s, assignedId, botObs, CreateNewLexBot.Script);
    assert Reconcile.NoImportCalls(check.issued);
    if check.outcome.Succeeded? {
      var rest := UploadAndImport(entry, zipName, target, uploadStatus, importStatuses);
      assert run.issued == check.issued + rest.issued;
      assert run.issued[|check.issued| + 1] == UploadArtifact(target.0, zipName);
      assert forall j :: 0 <= j < |run.issued| && run.issued[j].UploadArtifact? ==> j == |check.issued| + 1;
    }
  }

  /** The file a run uploads is the newest ZIP of the export directory, and it is uploaded at
      most once, to the URL create_upload_url returned; a run that succeeds has uploaded it. */
  lemma ImportUploadsNewestZip(listing: Option<seq<DirEntry>>, config: Option<ConfigFile>, env: string, s: LexState, assignedId: string,
                               botObs: Reconcile.Observations, target: (string, string), uploadStatus: int, importStatuses: seq<string>)
    ensures var run := Import(listing, config, env, s, assignedId, botObs, target, uploadStatus, importStatuses);
            forall i :: 0 <= i < |run.issued| && run.issued[i].UploadArtifact? ==>
              && listing.Some? && NewestZip(listing.value).Some?
              && run.issued[i] == UploadArtifact(target.0, listing.value[NewestZip(listing.value).value].name)
              && forall j :: 0 <= j < |run.issued| && run.issued[j].UploadArtifact? ==> j == i
    ensures var run := Import(listing, config, env, s, assignedId, botObs, target, uploadStatus, importStatuses);
            run.outcome == Succeeded ==>
              && listing.Some? && NewestZip(listing.value).Some?
              && UploadArtifact(target.0, listing.value[NewestZip(listing.value).value].name) in run.issued
  {
    if LatestZipFile(listing).Ok? && config.Some? && EnvEntry(config.value, env).Some? &&
       "bot_name" in EnvEntry(config.value, env).value.text {
      RemoteUploadsOnce(s, EnvEntry(config.value, env).value, LatestZipFile(listing).value.name, config.value, env,
                        assignedId, botObs, target, uploadStatus, importStatuses);
    }
  }

  /** Requests that create nothing leave the listings as they are. */
  lemma {:induction false} ApplyWithoutCreations(s: LexState, rs: seq<Request>, assignedId: string)
    requires forall i :: 0 <= i < |rs| ==> !rs[i].IsCreate()
    ensures Apply(s, rs, assignedId) == s
  {
    if rs != [] {
      ApplyWithoutCreations(s, rs[..|rs| - 1], assignedId);
    }
  }

  /** The upload and the import create no bot, locale or intent: the listings stay as they are. */
  lemma UploadLeavesListings(s: LexState, entry: EnvConfig, zipName: string, target: (string, string), uploadStatus: int,
                             importStatuses: seq<string>, assignedId: string)
    ensures Apply(s, UploadAndImport(entry, zipName, target, uploadStatus, importStatuses).issued, assignedId) == s
  {
    ApplyWithoutCreations(s, UploadAndImport(entry, zipName, target, uploadStatus, importStatuses).issued, assignedId);
  }

  method EnsureBotExists(lex: LexService, botName: string, config: ConfigFile, env: string, assignedId: string,
                         botObs: Reconcile.Observations)
    returns (outcome: Outcome)
    modifies lex
    ensures outcome == BotCheck(old(lex.State()), botName, config, env, assignedId, botObs).outcome
    ensures lex.log == old(lex.log) + BotCheck(old(lex.State()), botName, config, env, assignedId, botObs).issued
    ensures lex.State() == Apply(old(lex.State()), BotCheck(old(lex.State()), botName, config, env, assignedId, botObs).issued, assignedId)
  {
    ghost var s, log0 := lex.State(), lex.log;
    var bots := lex.ListBots();
    var existing := FindByName(bots, BotNameOf, botName);
    if existing.Some? {
      ApplyOne(s, ListBots, assignedId);
      return Succeeded;
    }
    var created := CreateNewLexBot.Run(lex, Some(config), env, assignedId, botObs);
    ghost var issued := Reconcile.Simulate(Some(config), env, s, assignedId, botObs, CreateNewLexBot.Script).issued;
    LogAppend(log0, [ListBots], issued);
    ApplyAfterRead(s, ListBots, issued, assignedId);
    outcome := match created
               case Succeeded => Succeeded
               case Exited(_) => Exited(CreateScriptFailed)
               case Stalled => Outcome.Stalled;
  }

  method UploadAndStartImport(lex: LexService, entry: EnvConfig, zipName: string, issuedTarget: (string, string), uploadStatus: int,
                              startedId: string, importStatuses: seq<string>, ghost assignedId: string)
    returns (outcome: Outcome)
    modifies lex
    ensures outcome == UploadAndImport(entry, zipName, issuedTarget, uploadStatus, importStatuses).outcome
    ensures lex.log == old(lex.log) + UploadAndImport(entry, zipName, issuedTarget, uploadStatus, importStatuses).issued
    ensures lex.State() == old(lex.State())
  {
    var target := lex.CreateUploadUrl(issuedTarget);
    var uploadUrl, uploadId := target.0, target.1;
    var code := lex.UploadArtifact(uploadUrl, zipName, uploadStatus);
    if code != 200 {
      return Exited(UploadRejected(code));
    }
    var spec := BuildImportSpec(entry);
    if spec.Err? {
      return Exited(spec.error);
    }
    var importId := lex.StartImport(uploadId, spec.value, MergeStrategy, startedId);
    var poll := PollImport(importStatuses);
    outcome := ImportOutcome(poll);
  }

  /** The remote part of the script: ensure_bot_exists, then the upload and the import. */
  method ImportBot(lex: LexService, entry: EnvConfig, zipName: string, file: ConfigFile, env: string, assignedId: string,
                   botObs: Reconcile.Observations, issuedTarget: (string, string), uploadStatus: int, startedId: string,
                   importStatuses: seq<string>)
    returns (outcome: Outcome)
    requires "bot_name" in entry.text
    modifies lex
    ensures outcome == Remote(old(lex.State()), entry, zipName, file, env, assignedId, botObs, issuedTarget, uploadStatus, importStatuses).outcome
    ensures lex.log == old(lex.log) + Remote(old(lex.State()), entry, zipName, file, env, assignedId, botObs, issuedTarget, uploadStatus, importStatuses).issued
    ensures lex.State() == Apply(old(lex.State()),
                                 Remote(old(lex.State()), entry, zipName, file, env, assignedId, botObs, issuedTarget, uploadStatus, importStatuses).issued,
                                 assignedId)
  {
    ghost var s, log0 := lex.State(), lex.log;
    ghost var remote := Remote(s, entry, zipName, file, env, assignedId, botObs, issuedTarget, uploadStatus, importStatuses);
    var botName := entry.text["bot_name"];
    ghost var check := BotCheck(s, botName, file, env, assignedId, botObs);
    outcome := EnsureBotExists(lex, botName, file, env, assignedId, botObs);
    if !outcome.Succeeded? {
      assert remote == check;
      return;
    }
    ghost var s1 := lex.State();
    ghost var rest := UploadAndImport(entry, zipName, issuedTarget, uploadStatus, importStatuses);
    assert remote == Reconcile.Then(check.issued, rest);
    outcome := UploadAndStartImport(lex, entry, zipName, issuedTarget, uploadStatus, startedId, importStatuses, assignedId);
    assert lex.log == log0 + remote.issued by {
      LogAppend(log0, check.issued, rest.issued);
    }
    assert lex.State() == Apply(s, remote.issued, assignedId) by {
      ApplyConcat(s, check.issued, rest.issued, assignedId);
      UploadLeavesListings(s1, entry, zipName, issuedTarget, uploadStatus, importStatuses, assignedId);
    }
  }

  /** The whole script against the service: its outcome, the requests it issued and the listings
      it leaves are those of Import. */
  method Run(lex: LexService, listing: Option<seq<DirEntry>>, config: Option<ConfigFile>, env: string, assignedId: string,
             botObs: Reconcile.Observations, issuedTarget: (string, string), uploadStatus: int, startedId: string,
             importStatuses: seq<string>)
    returns (outcome: Outcome)
    modifies lex
    ensures outcome == Import(listing, config, env, old(lex.State()), assignedId, botObs, issuedTarget, uploadStatus, importStatuses).outcome
    ensures lex.log == old(lex.log) + Import(listing, config, env, old(lex.State()), assignedId, botObs, issuedTarget, uploadStatus, importStatuses).issued
    ensures lex.State() == Apply(old(lex.State()),
                                 Import(listing, config, env, old(lex.State()), assignedId, botObs, issuedTarget, uploadStatus, importStatuses).issued,
                                 assignedId)
  {
    ghost var s := lex.State();
    ghost var run := Import(listing, config, env, s, assignedId, botObs, issuedTarget, uploadStatus, importStatuses);
    var zipFile := LatestZipFile(listing);
    if zipFile.Err? {
      assert run == Reconcile.RunResult(Exited(zipFile.error), []);
      assert Apply(s, [], assignedId) == s;
      return Exited(zipFile.error);
    }
    if config.None? {
      assert run == Reconcile.RunResult(Exited(MissingConfigFile), []);
      assert Apply(s, [], assignedId) == s;
      return Exited(MissingConfigFile);
    }
    var envConfig := EnvEntry(config.value, env);
    if envConfig.None? {
      assert run == Reconcile.RunResult(Exited(MissingEnvConfig), []);
      assert Apply(s, [], assignedId) == s;
      return Exited(MissingEnvConfig);
    }
    var entry := envConfig.value;
    if "bot_name" !in entry.text {
      assert run == Reconcile.RunResult(Exited(MissingKey("bot_name")), []);
      assert Apply(s, [], assignedId) == s;
      return Exited(MissingKey("bot_name"));
    }
    outcome := ImportBot(lex, entry, zipFile.value.name, config.value, env, assignedId, botObs, issuedTarget, uploadStatus, startedId, importStatuses);
  }
}
