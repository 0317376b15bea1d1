/**
 * The deployment flow: defaults, validation, classification, the choice of
 * transport and the single synchronisation. The transport manager and the
 * file store are oracles whose outcomes are inputs; each is asked at most
 * once, so one outcome per collaborator suffices. The result is the trace
 * of collaborator calls together with the final outcome.
 */
module Deployer {
  import opened JsValues
  import opened DeployOptions
  import opened Validation
  import opened Files

  /** What `determineExistingTransport` reports: an error, a transport number, or none. */
  datatype LookupResult = LookupErr(error: string) | Found(id: string) | NotFound

  /** What `createTransport` reports. */
  datatype CreateResult = CreateErr(error: string) | Created(id: string)

  /** What the file store's `syncFiles` reports. */
  datatype SyncResult = SyncOk | SyncErr(error: string)

  /** The outcome each collaborator gives if it is called. */
  datatype Collaborators = Collaborators(lookup: LookupResult, create: CreateResult, sync: SyncResult)

  /** A call to a collaborator, with the arguments that matter. */
  datatype Call =
    | Lookup
    | Create(package: JsValue, description: JsValue)
    | Sync(options: FileStoreOptions, files: seq<FileRecord>)

  datatype DeployError =
    | ConfigurationErroneous
    | LookupFailed(cause: string)
    | NoTransportFound
    | CreateFailed(cause: string)
    | NoTransportConfigured
    | SyncFailed(cause: string)

  datatype Outcome = Deployed | Failed(error: DeployError)

  /** An error written to the logger. */
  datatype LogEntry = CheckFailed(check: Check) | SyncErrorLogged(cause: string)

  /** Everything one deployment does: the log, the collaborator calls in order, the outcome. */
  datatype Run = Run(log: seq<LogEntry>, calls: seq<Call>, outcome: Outcome)

  /** Lookup comes before create, and create before sync. */
  function Rank(c: Call): nat
  {
    match c
    case Lookup => 0
    case Create(_, _) => 1
    case Sync(_, _) => 2
  }

  /**
   * Each call outranks the one before it: at most one lookup, at most one
   * create and at most one sync, in that order, so a sync is always last.
   */
  predicate OrderedCalls(calls: seq<Call>)
  {
    forall i :: 0 <= i < |calls| - 1 ==> Rank(calls[i]) < Rank(calls[i + 1])
  }

  /** The collaborator answered this call without an error. */
  predicate Succeeded(c: Call, env: Collaborators)
  {
    match c
    case Lookup => !env.lookup.LookupErr?
    case Create(_, _) => env.create.Created?
    case Sync(_, _) => env.sync.SyncOk?
  }

  /** No collaborator is called after one has failed. */
  predicate NothingAfterFailure(calls: seq<Call>, env: Collaborators)
  {
    forall i :: 0 <= i < |calls| - 1 ==> Succeeded(calls[i], env)
  }

  /** The lookup found nothing usable: `if (sTransportNo)` rejects an empty number. */
  predicate NothingFound(l: LookupResult)
  {
    l.NotFound? || l == Found("")
  }

  /**
   * The outcome is explained by the trace: success means the last call was
   * a sync that succeeded, and each error is the one its last call (or the
   * missing call) accounts for, passed on unchanged.
   */
  predicate Accounted(r: Run, env: Collaborators)
  {
    match r.outcome
    case Deployed => |r.calls| > 0 && r.calls[|r.calls| - 1].Sync? && env.sync == SyncOk
    case Failed(e) =>
      match e
      case ConfigurationErroneous => r.calls == []
      case NoTransportConfigured => r.calls == []
      case LookupFailed(m) => r.calls == [Lookup] && env.lookup == LookupErr(m)
      case NoTransportFound => r.calls == [Lookup] && NothingFound(env.lookup)
      case CreateFailed(m) => |r.calls| > 0 && r.calls[|r.calls| - 1].Create? && env.create == CreateErr(m)
      case SyncFailed(m) => |r.calls| > 0 && r.calls[|r.calls| - 1].Sync? && env.sync == SyncErr(m)
  }

  /** Every sync carries the given file-store options, up to the transport number, and the given files. */
  predicate SyncsCarry(calls: seq<Call>, f: FileStoreOptions, files: seq<FileRecord>)
  {
    forall i :: 0 <= i < |calls| && calls[i].Sync? ==>
      calls[i].files == files && calls[i].options == f.WithTransport(calls[i].options.ui5.transportno)
  }

  /** The invariant every path keeps. */
  predicate WellBehaved(r: Run, env: Collaborators)
  {
    OrderedCalls(r.calls) && NothingAfterFailure(r.calls, env) && Accounted(r, env)
  }

  /** Every sync carries exactly the given file-store options with transport number `t`, and the given files. */
  predicate SyncsUse(calls: seq<Call>, f: FileStoreOptions, t: JsValue, files: seq<FileRecord>)
  {
    forall i :: 0 <= i < |calls| && calls[i].Sync? ==> calls[i] == Sync(f.WithTransport(t), files)
  }

  /**
   * Past validation the only error written to the logger is the file
   * store's: lookup errors, creation errors and "no transport found" are
   * passed on without being logged.
   */
  predicate OnlySyncErrorLogged(r: Run)
  {
    r.log == (if r.outcome.Failed? && r.outcome.error.SyncFailed? then [SyncErrorLogged(r.outcome.error.cause)] else [])
  }

  /**
   * `syncFiles`: one call to the file store; on failure its error is
   * logged and passed on.
   */
  function SyncFiles(f: FileStoreOptions, files: seq<FileRecord>, sync: SyncResult): (r: Run)
    ensures r.calls == [Sync(f, files)]
    ensures r.outcome == Deployed <==> sync == SyncOk
    ensures OnlySyncErrorLogged(r)
    ensures sync.SyncErr? ==> r.log == [SyncErrorLogged(sync.error)] && r.outcome == Failed(SyncFailed(sync.error))
  {
    match sync
    case SyncOk => Run([], [Sync(f, files)], Deployed)
    case SyncErr(m) => Run([SyncErrorLogged(m)], [Sync(f, files)], Failed(SyncFailed(m)))
  }

  /** The calls in `prefix`, all answered without error, then `syncFiles`. */
  function SyncAfter(prefix: seq<Call>, f: FileStoreOptions, files: seq<FileRecord>, sync: SyncResult): (r: Run)
    ensures r.calls == prefix + [Sync(f, files)]
    ensures r.outcome == Deployed <==> sync == SyncOk
    ensures OnlySyncErrorLogged(r)
    ensures sync.SyncErr? ==> r.log == [SyncErrorLogged(sync.error)] && r.outcome == Failed(SyncFailed(sync.error))
  {
    var s := SyncFiles(f, files, sync);
    Run(s.log, prefix + s.calls, s.outcome)
  }

  /**
   * `uploadWithTransportUserMatch`: one lookup; a non-empty transport number
   * found is synced with; otherwise, when the coerced `create_transport` is
   * set, one transport is created and synced with. The creation reads the
   * transport text from the file-store options, which carry none, so the
   * description passed is `undefined`.
   */
  function UploadWithTransportUserMatch(f: FileStoreOptions, files: seq<FileRecord>, env: Collaborators): (r: Run)
    ensures WellBehaved(r, env)
    ensures OnlySyncErrorLogged(r)
    ensures SyncsCarry(r.calls, f, files)
    ensures env.lookup.LookupErr? ==> r == Run([], [Lookup], Failed(LookupFailed(env.lookup.error)))
    ensures env.lookup.Found? && env.lookup.id != "" ==>
              r.calls == [Lookup, Sync(f.WithTransport(Str(env.lookup.id)), files)]
    ensures NothingFound(env.lookup) ==> r == CreateAfterNoMatch(f, files, env)
  {
    match env.lookup
    case LookupErr(m) => Run([], [Lookup], Failed(LookupFailed(m)))
    case Found(id) =>
      if id != "" then SyncAfter([Lookup], f.WithTransport(Str(id)), files, env.sync)
      else CreateAfterNoMatch(f, files, env)
    case NotFound => CreateAfterNoMatch(f, files, env)
  }

  /**
   * What user match does once the lookup found nothing: create a transport
   * when the coerced `create_transport` is set, passing the transport text
   * of the file-store options, which is `undefined`, then sync with the new
   * number; otherwise fail with "no transport found".
   */
  function CreateAfterNoMatch(f: FileStoreOptions, files: seq<FileRecord>, env: Collaborators): (r: Run)
    requires NothingFound(env.lookup)
    ensures WellBehaved(r, env)
    ensures OnlySyncErrorLogged(r)
    ensures SyncsCarry(r.calls, f, files)
    ensures !f.ui5.createTransport ==> r == Run([], [Lookup], Failed(NoTransportFound))
    ensures f.ui5.createTransport && env.create.CreateErr? ==>
              r == Run([], [Lookup, Create(f.ui5.package, Undefined)], Failed(CreateFailed(env.create.error)))
    ensures f.ui5.createTransport && env.create.Created? ==>
              r.calls == [Lookup, Create(f.ui5.package, Undefined), Sync(f.WithTransport(Str(env.create.id)), files)]
              && (r.outcome == Deployed <==> env.sync == SyncOk)
  {
    if f.ui5.createTransport then
      var create := Create(f.ui5.package, Undefined);
      match env.create
      case CreateErr(m) => Run([], [Lookup, create], Failed(CreateFailed(m)))
      case Created(id) => SyncAfter([Lookup, create], f.WithTransport(Str(id)), files, env.sync)
    else
      Run([], [Lookup], Failed(NoTransportFound))
  }

  /** No transport has to be acquired: the package is "$TMP" or a transport number key is set. */
  predicate TransportGiven(a: Options)
  {
    a.ui5.package == LocalPackage || a.ui5.transportno != Undefined
  }

  /**
   * The transport number a sync is made with: the one given; else, under
   * user match, a non-empty number the lookup found; else the number of the
   * created transport. Where no sync happens the value does not matter.
   */
  function ResolvedTransport(a: Options, env: Collaborators): JsValue
  {
    if TransportGiven(a) then a.ui5.transportno
    else if Truthy(a.ui5.transportUseUserMatch) && env.lookup.Found? && env.lookup.id != "" then Str(env.lookup.id)
    else if env.create.Created? then Str(env.create.id)
    else Undefined
  }

  /**
   * The transport branch of the deployment: sync directly when no transport
   * is needed or one is given (even an empty or null one); otherwise user
   * match when that flag is truthy; otherwise create with the caller's
   * transport text when `create_transport` is strictly true; otherwise fail
   * without calling anything.
   */
  function AcquireTransportAndSync(a: Options, f: FileStoreOptions, files: seq<FileRecord>, env: Collaborators): (r: Run)
    ensures WellBehaved(r, env)
    ensures OnlySyncErrorLogged(r)
    ensures SyncsCarry(r.calls, f, files)
    ensures TransportGiven(a) ==> r.calls == [Sync(f, files)]
    ensures !TransportGiven(a) && Truthy(a.ui5.transportUseUserMatch) ==>
              r == UploadWithTransportUserMatch(f, files, env)
    ensures !TransportGiven(a) && !Truthy(a.ui5.transportUseUserMatch) && a.ui5.createTransport == Bool(true)
            && env.create.CreateErr? ==>
              r == Run([], [Create(f.ui5.package, a.ui5.transportText)], Failed(CreateFailed(env.create.error)))
    ensures !TransportGiven(a) && !Truthy(a.ui5.transportUseUserMatch) && a.ui5.createTransport == Bool(true)
            && env.create.Created? ==>
              r.calls == [Create(f.ui5.package, a.ui5.transportText), Sync(f.WithTransport(Str(env.create.id)), files)]
              && (r.outcome == Deployed <==> env.sync == SyncOk)
    ensures !TransportGiven(a) && !Truthy(a.ui5.transportUseUserMatch) && a.ui5.createTransport != Bool(true) ==>
              r == Run([], [], Failed(NoTransportConfigured))
    ensures Lookup in r.calls <==> !TransportGiven(a) && Truthy(a.ui5.transportUseUserMatch)
    ensures r.outcome == Failed(NoTransportConfigured) <==>
              !TransportGiven(a) && !Truthy(a.ui5.transportUseUserMatch) && a.ui5.createTransport != Bool(true)
  {
    if !TransportGiven(a) then
      if Truthy(a.ui5.transportUseUserMatch) then
        UploadWithTransportUserMatch(f, files, env)
      else if a.ui5.createTransport == Bool(true) then
        CreateAndSync(a.ui5.transportText, f, files, env)
      else
        Run([], [], Failed(NoTransportConfigured))
    else
      SyncFiles(f, files, env.sync)
  }

  /**
   * Creation without user match: create a transport with the caller's
   * transport text, then sync with the new number; a creation error ends
   * the run after the create.
   */
  function CreateAndSync(text: JsValue, f: FileStoreOptions, files: seq<FileRecord>, env: Collaborators): (r: Run)
    ensures WellBehaved(r, env)
    ensures OnlySyncErrorLogged(r)
    ensures SyncsCarry(r.calls, f, files)
    ensures env.create.CreateErr? ==>
              r == Run([], [Create(f.ui5.package, text)], Failed(CreateFailed(env.create.error)))
    ensures env.create.Created? ==>
              r.calls == [Create(f.ui5.package, text), Sync(f.WithTransport(Str(env.create.id)), files)]
              && (r.outcome == Deployed <==> env.sync == SyncOk)
  {
    var create := Create(f.ui5.package, text);
    match env.create
    case CreateErr(m) => Run([], [create], Failed(CreateFailed(m)))
    case Created(id) => SyncAfter([create], f.WithTransport(Str(id)), files, env.sync)
  }

  /**
   * Every sync of the transport branch carries the resolved transport
   * number: the given one, the one user match found, or the created one.
   */
  lemma AcquireUsesResolvedTransport(a: Options, f: FileStoreOptions, files: seq<FileRecord>, env: Collaborators)
    requires f.ui5.transportno == a.ui5.transportno
    ensures SyncsUse(AcquireTransportAndSync(a, f, files, env).calls, f, ResolvedTransport(a, env), files)
  {
    if TransportGiven(a) {
      assert f.WithTransport(a.ui5.transportno) == f;
    } else if Truthy(a.ui5.transportUseUserMatch) {
      if !NothingFound(env.lookup) && env.lookup.Found? {
        assert ResolvedTransport(a, env) == Str(env.lookup.id);
      }
    }
  }

  /** One logged error per failing check, in the same order. */
  function LogChecks(cs: seq<Check>): (log: seq<LogEntry>)
    ensures |log| == |cs|
    ensures forall i :: 0 <= i < |cs| ==> log[i] == CheckFailed(cs[i])
  {
    if cs == [] then [] else [CheckFailed(cs[0])] + LogChecks(cs[1..])
  }

  /**
   * The language can be upper-cased whenever the run gets that far: it is
   * usable, or validation of the defaulted options fails first.
   */
  predicate Deployable(o: Options)
  {
    LanguageUsable(o) || AnyCheckFails(Adapt(o))
  }

  /**
   * What `deployUI5toNWABAP` does once validation has passed: classify the
   * files, build the file-store options, then acquire a transport and sync.
   */
  function TransportAndSync(o: Options, files: seq<FileRecord>, isBinaryFile: seq<byte> -> bool, env: Collaborators): (r: Run)
    requires LanguageUsable(o) && o.auth.Some?
    ensures WellBehaved(r, env)
    ensures OnlySyncErrorLogged(r)
    ensures r.outcome != Failed(ConfigurationErroneous)
    ensures SyncsUse(r.calls, Normalize(o), ResolvedTransport(Adapt(o), env), Classify(files, isBinaryFile))
  {
    var f := Normalize(o);
    var classified := Classify(files, isBinaryFile);
    AcquireUsesResolvedTransport(Adapt(o), f, classified, env);
    AcquireTransportAndSync(Adapt(o), f, classified, env)
  }

  /**
   * `deployUI5toNWABAP`: apply the defaults, validate (logging every
   * failing check and stopping before any call), then classify, acquire a
   * transport and sync.
   */
  function Deploy(o: Options, files: seq<FileRecord>, isBinaryFile: seq<byte> -> bool, env: Collaborators): (r: Run)
    requires Deployable(o)
    ensures WellBehaved(r, env)
    ensures CheckOptions(Adapt(o)).ok ==> OnlySyncErrorLogged(r)
    ensures !CheckOptions(Adapt(o)).ok <==> r.outcome == Failed(ConfigurationErroneous)
    ensures !CheckOptions(Adapt(o)).ok ==>
              r.calls == [] && |r.log| == |CheckOptions(Adapt(o)).log| > 0
              && forall i :: 0 <= i < |r.log| ==> r.log[i] == CheckFailed(CheckOptions(Adapt(o)).log[i])
    ensures forall i :: 0 <= i < |r.calls| && r.calls[i].Sync? ==> CheckOptions(Adapt(o)).ok
    ensures CheckOptions(Adapt(o)).ok ==>
              SyncsUse(r.calls, Normalize(o), ResolvedTransport(Adapt(o), env), Classify(files, isBinaryFile))
  {
    var a := Adapt(o);
    var check := CheckOptions(a);
    if !check.ok then
      Run(LogChecks(check.log), [], Failed(ConfigurationErroneous))
    else
      assert !Fails(a, Credentials) && LanguageUsable(o);
      TransportAndSync(o, files, isBinaryFile, env)
  }
}
