/**
 * Properties of whole deployments: which collaborator calls each
 * configuration leads to, and the exactly-once guarantee for the sync.
 */
module DeployProperties {
  import opened JsValues
  import opened DeployOptions
  import opened Validation
  import opened Files
  import opened Deployer

  /**
   * Once validation passes, a deployment is the transport branch run on the
   * defaulted options, the normalised options and the classified files.
   */
  lemma DeployValidated(o: Options, files: seq<FileRecord>, isBinaryFile: seq<byte> -> bool, env: Collaborators)
    requires Deployable(o)
    requires CheckOptions(Adapt(o)).ok
    ensures LanguageUsable(o) && o.auth.Some?
    ensures Deploy(o, files, isBinaryFile, env)
            == AcquireTransportAndSync(Adapt(o), Normalize(o), Classify(files, isBinaryFile), env)
  {
    assert !Fails(Adapt(o), Credentials);
  }

  /** Number of syncs in a trace. */
  function SyncCount(calls: seq<Call>): nat
  {
    if calls == [] then 0 else (if calls[0].Sync? then 1 else 0) + SyncCount(calls[1..])
  }

  /** In calls ordered call by call, a call at position i has rank at least i. */
  lemma {:induction false} RankAtLeastPosition(calls: seq<Call>, i: nat)
    requires OrderedCalls(calls)
    requires i < |calls|
    ensures Rank(calls[i]) >= i
  {
    if i > 0 {
      RankAtLeastPosition(calls, i - 1);
    }
  }

  /** In calls ordered call by call, every later call outranks every earlier one. */
  lemma {:induction false} RankIncreasing(calls: seq<Call>, i: nat, j: nat)
    requires OrderedCalls(calls)
    requires i < j < |calls|
    ensures Rank(calls[i]) < Rank(calls[j])
  {
    if i + 1 < j {
      RankIncreasing(calls, i, j - 1);
    }
  }

  /**
   * Ordered calls are at most three, each kind of call occurs at most once,
   * and a sync among them is the only one and the last.
   */
  lemma OrderedCallsSyncLast(calls: seq<Call>)
    requires OrderedCalls(calls)
    ensures |calls| <= 3
    ensures forall i, j :: 0 <= i < j < |calls| ==> Rank(calls[i]) < Rank(calls[j])
    ensures forall i :: 0 <= i < |calls| && calls[i].Sync? ==> i == |calls| - 1
    ensures SyncCount(calls) <= 1
  {
    if |calls| > 3 {
      RankAtLeastPosition(calls, 3);
    }
    forall i, j | 0 <= i < j < |calls| ensures Rank(calls[i]) < Rank(calls[j]) {
      RankIncreasing(calls, i, j);
    }
    forall i | 0 <= i < |calls| && calls[i].Sync? ensures i == |calls| - 1 {
      if i < |calls| - 1 {
        RankIncreasing(calls, i, |calls| - 1);
      }
    }
    SyncCountLast(calls);
  }

  /**
   * A successful deployment made exactly one sync, as its last call, and
   * the file store reported success; a failed one made no sync at all
   * unless that sync is what failed.
   */
  lemma ExactlyOneSyncOnSuccess(o: Options, files: seq<FileRecord>, isBinaryFile: seq<byte> -> bool, env: Collaborators)
    requires Deployable(o)
    ensures var r := Deploy(o, files, isBinaryFile, env);
            && SyncCount(r.calls) <= 1
            && (r.outcome == Deployed ==> SyncCount(r.calls) == 1 && r.calls[|r.calls| - 1].Sync? && env.sync == SyncOk)
            && (r.outcome.Failed? && !r.outcome.error.SyncFailed? ==> SyncCount(r.calls) == 0)
  {
    WellBehavedSyncs(Deploy(o, files, isBinaryFile, env), env);
  }

  /** The sync count of any trace that keeps the invariant. */
  lemma WellBehavedSyncs(r: Run, env: Collaborators)
    requires WellBehaved(r, env)
    ensures SyncCount(r.calls) <= 1
    ensures r.outcome == Deployed ==> SyncCount(r.calls) == 1 && r.calls[|r.calls| - 1].Sync? && env.sync == SyncOk
    ensures r.outcome.Failed? && !r.outcome.error.SyncFailed? ==> SyncCount(r.calls) == 0
  {
    OrderedCallsSyncLast(r.calls);
    SyncCountLast(r.calls);
  }

  /** A trace whose only sync, if any, is last has one sync exactly when its last call is one. */
  lemma {:induction false} SyncCountLast(calls: seq<Call>)
    requires forall i :: 0 <= i < |calls| && calls[i].Sync? ==> i == |calls| - 1
    ensures SyncCount(calls) == (if calls != [] && calls[|calls| - 1].Sync? then 1 else 0)
  {
    if calls != [] {
      var t := calls[1..];
      forall i | 0 <= i < |t| && t[i].Sync? ensures i == |t| - 1 {
        assert t[i] == calls[i + 1];
      }
      SyncCountLast(t);
      if t != [] {
        assert t[|t| - 1] == calls[|calls| - 1];
      }
    }
  }

  /**
   * For "$TMP" or any transport number key that is set (even to "" or
   * null), a valid configuration leads to one sync with the normalised
   * options, carrying the given transport number, and nothing else.
   */
  lemma DirectSyncWhenTransportGiven(o: Options, files: seq<FileRecord>, isBinaryFile: seq<byte> -> bool, env: Collaborators)
    requires Deployable(o)
    requires CheckOptions(Adapt(o)).ok
    requires o.ui5.package == LocalPackage || o.ui5.transportno != Undefined
    ensures var r := Deploy(o, files, isBinaryFile, env);
            && r.calls == [Sync(Normalize(o), Classify(files, isBinaryFile))]
            && r.calls[0].options.ui5.transportno == o.ui5.transportno
            && (r.outcome == Deployed <==> env.sync == SyncOk)
  {
  }

  /**
   * Round trip of an explicit transport number: the single sync carries
   * exactly that number and the caller's files, unchanged but for their
   * binary marks.
   */
  lemma ExplicitTransportRoundTrip(o: Options, t: string, files: seq<FileRecord>, isBinaryFile: seq<byte> -> bool, env: Collaborators)
    requires Deployable(o)
    requires CheckOptions(Adapt(o)).ok
    requires o.ui5.transportno == Str(t)
    ensures var r := Deploy(o, files, isBinaryFile, env);
            && |r.calls| == 1 && r.calls[0].Sync?
            && r.calls[0].options.ui5.transportno == Str(t)
            && SameFiles(r.calls[0].files, files)
  {
  }

  /**
   * The validator accepts an empty transport number when
   * `create_transport` is set, but the transport branch only asks whether
   * the number is `undefined`: the deployment syncs directly with "" and
   * never creates a transport.
   */
  lemma EmptyTransportNumberSkipsCreation(o: Options, files: seq<FileRecord>, isBinaryFile: seq<byte> -> bool, env: Collaborators)
    requires LanguageUsable(o)
    requires !CredentialsMissing(o) && !Ui5TargetIncomplete(o) && !BspContainerTooLong(o.ui5.bspcontainer)
    requires o.ui5.transportno == Str("")
    requires o.ui5.createTransport == Bool(true) && o.ui5.transportText.Str?
    ensures CheckOptions(Adapt(o)).ok
    ensures Deploy(o, files, isBinaryFile, env).calls == [Sync(Normalize(o), Classify(files, isBinaryFile))]
    ensures Normalize(o).ui5.transportno == Str("")
  {
    DefaultsDoNotAffectChecks(o);
    assert CheckOptions(o).ok by {
      assert !Fails(o, Credentials) && !Fails(o, Ui5Target) && !Fails(o, TransportSource);
      assert !Fails(o, TransportDescription) && !Fails(o, BspContainerLength);
    }
    DirectSyncWhenTransportGiven(o, files, isBinaryFile, env);
  }

  /** Validation gives the same verdict and log on the options with or without the defaults. */
  lemma DefaultsDoNotAffectChecks(o: Options)
    ensures forall c :: Fails(Adapt(o), c) <==> Fails(o, c)
    ensures CheckOptions(Adapt(o)) == CheckOptions(o)
  {
    var a := Adapt(o);
    assert a.auth == o.auth && a.ui5.(language := o.ui5.language) == o.ui5;
    assert forall c :: Fails(a, c) <==> Fails(o, c);
    assert RunChecks(a, AllChecks()) == RunChecks(o, AllChecks()) by {
      RunChecksAgree(a, o, AllChecks());
    }
  }

  /** Options on which every check agrees log alike. */
  lemma {:induction false} RunChecksAgree(a: Options, o: Options, cs: seq<Check>)
    requires InCheckOrder(cs)
    requires forall c :: Fails(a, c) <==> Fails(o, c)
    ensures RunChecks(a, cs) == RunChecks(o, cs)
  {
    if cs != [] {
      assert InCheckOrder(cs[1..]);
      RunChecksAgree(a, o, cs[1..]);
    }
  }

  /** A valid configuration for "$TMP" never reaches the transport manager. */
  lemma LocalPackageNeverContactsTransportManager(o: Options, files: seq<FileRecord>, isBinaryFile: seq<byte> -> bool, env: Collaborators)
    requires Deployable(o)
    requires o.ui5.package == LocalPackage
    ensures forall c :: c in Deploy(o, files, isBinaryFile, env).calls ==> c.Sync?
  {
    if CheckOptions(Adapt(o)).ok {
      DeployValidated(o, files, isBinaryFile, env);
      assert TransportGiven(Adapt(o));
    }
  }

  /**
   * User match: a lookup error ends the run after the lookup; a transport
   * found is synced with; with nothing found and `create_transport` unset
   * the run fails after the lookup.
   */
  lemma UserMatchOutcomes(o: Options, files: seq<FileRecord>, isBinaryFile: seq<byte> -> bool, env: Collaborators)
    requires Deployable(o)
    requires CheckOptions(Adapt(o)).ok
    requires o.ui5.package != LocalPackage && o.ui5.transportno == Undefined
    requires Truthy(o.ui5.transportUseUserMatch)
    ensures var r := Deploy(o, files, isBinaryFile, env);
            && (env.lookup.LookupErr? ==> r.calls == [Lookup] && r.outcome == Failed(LookupFailed(env.lookup.error)))
            && (env.lookup.Found? && env.lookup.id != "" ==>
                  r.calls == [Lookup, Sync(Normalize(o).WithTransport(Str(env.lookup.id)), Classify(files, isBinaryFile))])
            && (NothingFound(env.lookup) && !Truthy(o.ui5.createTransport) ==>
                  r.calls == [Lookup] && r.outcome == Failed(NoTransportFound))
  {
  }

  /**
   * User match falling back to creation: lookup, create, sync, in that
   * order. The create call gets no description, although the validator
   * demanded a string transport text whenever `create_transport` is true.
   */
  lemma UserMatchFallbackCreatesWithoutText(o: Options, files: seq<FileRecord>, isBinaryFile: seq<byte> -> bool, env: Collaborators)
    requires Deployable(o)
    requires CheckOptions(Adapt(o)).ok
    requires o.ui5.package != LocalPackage && o.ui5.transportno == Undefined
    requires Truthy(o.ui5.transportUseUserMatch) && Truthy(o.ui5.createTransport)
    requires NothingFound(env.lookup)
    ensures var r := Deploy(o, files, isBinaryFile, env);
            && (env.create.Created? ==>
                  r.calls == [Lookup, Create(o.ui5.package, Undefined),
                              Sync(Normalize(o).WithTransport(Str(env.create.id)), Classify(files, isBinaryFile))]
                  && (r.outcome == Deployed <==> env.sync == SyncOk))
            && (env.create.CreateErr? ==>
                  (r.calls == [Lookup, Create(o.ui5.package, Undefined)]
                   && r.outcome == Failed(CreateFailed(env.create.error))))
  {
    UserMatchReachesFallback(o, files, isBinaryFile, env);
    DeployValidated(o, files, isBinaryFile, env);
  }

  /** With user match and nothing found, a deployment is the fallback of user match. */
  lemma UserMatchReachesFallback(o: Options, files: seq<FileRecord>, isBinaryFile: seq<byte> -> bool, env: Collaborators)
    requires Deployable(o)
    requires CheckOptions(Adapt(o)).ok
    requires o.ui5.package != LocalPackage && o.ui5.transportno == Undefined
    requires Truthy(o.ui5.transportUseUserMatch)
    requires NothingFound(env.lookup)
    ensures Deploy(o, files, isBinaryFile, env) == CreateAfterNoMatch(Normalize(o), Classify(files, isBinaryFile), env)
  {
    DeployValidated(o, files, isBinaryFile, env);
    assert !TransportGiven(Adapt(o)) && Truthy(Adapt(o).ui5.transportUseUserMatch);
  }

  /** Options that pass validation with `create_transport === true` carry a string transport text. */
  lemma ValidatedCreateHasText(o: Options)
    requires CheckOptions(Adapt(o)).ok
    ensures o.ui5.createTransport == Bool(true) ==> o.ui5.transportText.Str?
  {
    var a := Adapt(o);
    assert a.ui5.(language := o.ui5.language) == o.ui5;
    assert !Fails(a, TransportDescription);
  }

  /**
   * Creation without user match passes the caller's transport text, which
   * validation guarantees to be a string; then the new number is synced with.
   */
  lemma CreateOnlyPassesTransportText(o: Options, files: seq<FileRecord>, isBinaryFile: seq<byte> -> bool, env: Collaborators)
    requires Deployable(o)
    requires CheckOptions(Adapt(o)).ok
    requires o.ui5.package != LocalPackage && o.ui5.transportno == Undefined
    requires !Truthy(o.ui5.transportUseUserMatch) && o.ui5.createTransport == Bool(true)
    ensures o.ui5.transportText.Str?
    ensures var r := Deploy(o, files, isBinaryFile, env);
            && |r.calls| > 0 && r.calls[0] == Create(o.ui5.package, o.ui5.transportText)
            && Lookup !in r.calls
            && (env.create.Created? ==>
                  r.calls == [Create(o.ui5.package, o.ui5.transportText),
                              Sync(Normalize(o).WithTransport(Str(env.create.id)), Classify(files, isBinaryFile))])
            && (env.create.CreateErr? ==> |r.calls| == 1 && r.outcome == Failed(CreateFailed(env.create.error)))
  {
    ValidatedCreateHasText(o);
    DeployValidated(o, files, isBinaryFile, env);
    assert !TransportGiven(Adapt(o));
  }

  /**
   * Once validation passes some transport source is always configured, so
   * the "no transport configured" failure cannot happen.
   */
  lemma NoTransportConfiguredUnreachable(o: Options, files: seq<FileRecord>, isBinaryFile: seq<byte> -> bool, env: Collaborators)
    requires Deployable(o)
    ensures Deploy(o, files, isBinaryFile, env).outcome != Failed(NoTransportConfigured)
  {
    var a := Adapt(o);
    if CheckOptions(a).ok {
      assert !Fails(a, TransportSource);
      TransportSourceConfigured(a);
      DeployValidated(o, files, isBinaryFile, env);
      var r := AcquireTransportAndSync(a, Normalize(o), Classify(files, isBinaryFile), env);
      assert r.outcome != Failed(NoTransportConfigured);
    }
  }

  /** Options with a transport source take one of the three transport paths. */
  lemma TransportSourceConfigured(a: Options)
    requires !TransportSourceMissing(a)
    ensures TransportGiven(a) || Truthy(a.ui5.transportUseUserMatch) || a.ui5.createTransport == Bool(true)
  {
  }
}
