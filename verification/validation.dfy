/**
 * The option checks run before any remote call. Every check is evaluated,
 * each failing one logs one error, and the options pass only when none fails.
 */
module Validation {
  import opened JsValues
  import opened DeployOptions

  /** The package that needs no transport. */
  const LocalPackage: JsValue := Str("$TMP")

  /** Longest BSP container name allowed, not counting its namespace. */
  const MaxBspContainerLength: nat := 15

  /** The five checks, in the order in which they run and log. */
  datatype Check = Credentials | Ui5Target | TransportSource | TransportDescription | BspContainerLength

  function Ordinal(c: Check): nat
  {
    match c
    case Credentials => 0
    case Ui5Target => 1
    case TransportSource => 2
    case TransportDescription => 3
    case BspContainerLength => 4
  }

  /** User name or password missing or falsy. */
  predicate CredentialsMissing(o: Options)
  {
    o.auth.None? || !Truthy(o.auth.value.user) || !Truthy(o.auth.value.pwd)
  }

  /** Package, BSP container or BSP container text falsy. */
  predicate Ui5TargetIncomplete(o: Options)
  {
    !Truthy(o.ui5.package) || o.ui5.bspcontainer == "" || !Truthy(o.ui5.bspcontainerText)
  }

  /**
   * A package other than "$TMP" with a falsy transport number, and neither
   * `create_transport` nor `transport_use_user_match` strictly `true`.
   */
  predicate TransportSourceMissing(o: Options)
  {
    && o.ui5.package != LocalPackage
    && !Truthy(o.ui5.transportno)
    && o.ui5.createTransport != Bool(true)
    && o.ui5.transportUseUserMatch != Bool(true)
  }

  /** `create_transport` strictly `true` but the transport text not a string. */
  predicate TransportDescriptionMissing(o: Options)
  {
    o.ui5.createTransport == Bool(true) && !o.ui5.transportText.Str?
  }

  /**
   * The BSP container name without its namespace: the text after the last
   * `/`, or the whole name when it has none.
   */
  function StripNamespace(name: string): (r: string)
    ensures '/' !in r
    ensures |r| <= |name| && r == name[|name| - |r|..]
    ensures |r| < |name| ==> name[|name| - |r| - 1] == '/'
  {
    name[LastIndexOf(name, '/') + 1..]
  }

  /**
   * A name whose last `/` is at position `k` loses exactly the text up to and
   * including it; a name without `/` is kept whole.
   */
  lemma StripNamespaceAt(name: string, k: int)
    requires -1 <= k < |name|
    requires k >= 0 ==> name[k] == '/'
    requires '/' !in name[k + 1..]
    ensures StripNamespace(name) == name[k + 1..]
  {
    assert LastIndexOf(name, '/') == k;
  }

  /** The BSP container check: the name without namespace exceeds the limit. */
  predicate BspContainerTooLong(name: string)
  {
    |StripNamespace(name)| > MaxBspContainerLength
  }

  /** Whether a given check fails on the given options. */
  predicate Fails(o: Options, c: Check)
  {
    match c
    case Credentials => CredentialsMissing(o)
    case Ui5Target => Ui5TargetIncomplete(o)
    case TransportSource => TransportSourceMissing(o)
    case TransportDescription => TransportDescriptionMissing(o)
    case BspContainerLength => BspContainerTooLong(o.ui5.bspcontainer)
  }

  /** At least one of the five checks fails. */
  predicate AnyCheckFails(o: Options)
  {
    || CredentialsMissing(o)
    || Ui5TargetIncomplete(o)
    || TransportSourceMissing(o)
    || TransportDescriptionMissing(o)
    || BspContainerTooLong(o.ui5.bspcontainer)
  }

  /** The verdict and the errors logged on the way, one per failing check. */
  datatype CheckResult = CheckResult(ok: bool, log: seq<Check>)

  /** Checks listed in strictly increasing order. */
  predicate InCheckOrder(cs: seq<Check>)
  {
    forall i, j :: 0 <= i < j < |cs| ==> Ordinal(cs[i]) < Ordinal(cs[j])
  }

  /** The five checks in the order in which they run. */
  function AllChecks(): (cs: seq<Check>)
    ensures InCheckOrder(cs)
    ensures forall c :: Ordinal(c) < |cs| && cs[Ordinal(c)] == c
  {
    [Credentials, Ui5Target, TransportSource, TransportDescription, BspContainerLength]
  }

  /**
   * Runs the given checks one after another, never stopping early, and
   * returns the errors logged: exactly the failing checks, in run order.
   */
  function RunChecks(o: Options, cs: seq<Check>): (log: seq<Check>)
    requires InCheckOrder(cs)
    ensures forall c :: c in log <==> c in cs && Fails(o, c)
    ensures InCheckOrder(log)
  {
    if cs == [] then []
    else
      var rest := RunChecks(o, cs[1..]);
      if Fails(o, cs[0]) then
        PrependInCheckOrder(cs[0], rest);
        [cs[0]] + rest
      else rest
  }

  /** A check that runs before every check of an ordered list may be put in front of it. */
  lemma PrependInCheckOrder(c: Check, cs: seq<Check>)
    requires InCheckOrder(cs)
    requires forall x :: x in cs ==> Ordinal(c) < Ordinal(x)
    ensures InCheckOrder([c] + cs)
  {
    forall i, j | 0 <= i < j < |[c] + cs|
      ensures Ordinal(([c] + cs)[i]) < Ordinal(([c] + cs)[j])
    {
      assert ([c] + cs)[j] == cs[j - 1];
      if i > 0 {
        assert ([c] + cs)[i] == cs[i - 1];
      }
    }
  }

  /**
   * `checkOptions`: runs all five checks without stopping at the first
   * failure. The log holds exactly the failing checks, each once, in check
   * order, and the options pass exactly when the log is empty.
   */
  function CheckOptions(o: Options): (r: CheckResult)
    ensures r.ok <==> forall c :: !Fails(o, c)
    ensures r.ok <==> !AnyCheckFails(o)
    ensures r.ok <==> r.log == []
    ensures forall c :: c in r.log <==> Fails(o, c)
    ensures InCheckOrder(r.log)
  {
    var cs := AllChecks();
    assert forall c :: c in cs by {
      forall c ensures c in cs {
        assert cs[Ordinal(c)] == c;
      }
    }
    var log := RunChecks(o, cs);
    assert log != [] ==> log[0] in log;
    assert AnyCheckFails(o) <==> Fails(o, Credentials) || Fails(o, Ui5Target) || Fails(o, TransportSource)
                                 || Fails(o, TransportDescription) || Fails(o, BspContainerLength);
    CheckResult(log == [], log)
  }

  /** A sequence with strictly increasing ordinals has as many distinct elements as entries. */
  lemma {:induction false} OrderedChecksDistinct(s: seq<Check>)
    requires InCheckOrder(s)
    ensures |set c | c in s| == |s|
  {
    if s != [] {
      var t := s[1..];
      OrderedChecksDistinct(t);
      assert s[0] !in t by {
        forall j | 0 <= j < |t| ensures t[j] != s[0] {
          assert Ordinal(s[0]) < Ordinal(s[j + 1]);
        }
      }
      assert (set c | c in s) == {s[0]} + (set c | c in t);
    }
  }

  /** The number of errors logged equals the number of checks that fail. */
  lemma LoggedErrorsCountFailedChecks(o: Options)
    ensures |CheckOptions(o).log| == |set c | c in AllChecks() && Fails(o, c)|
  {
    var log := CheckOptions(o).log;
    OrderedChecksDistinct(log);
    var logged := set c | c in log;
    var failed := set c | c in AllChecks() && Fails(o, c);
    forall c ensures c in logged <==> c in failed {
      assert AllChecks()[Ordinal(c)] == c;
    }
    assert logged == failed;
  }

  /**
   * Without a transport number, `create_transport` and user match, a
   * package other than "$TMP" is rejected; `create_transport` without a
   * string description is rejected too.
   */
  lemma TransportSourceRequired(o: Options)
    ensures o.ui5.package != LocalPackage && !Truthy(o.ui5.transportno)
            && o.ui5.createTransport != Bool(true) && o.ui5.transportUseUserMatch != Bool(true)
            ==> !CheckOptions(o).ok && TransportSource in CheckOptions(o).log
    ensures o.ui5.createTransport == Bool(true) && !o.ui5.transportText.Str?
            ==> !CheckOptions(o).ok && TransportDescription in CheckOptions(o).log
  {
  }

  /**
   * The length limit counts only the part after the last `/`: a name
   * qualified by a namespace is too long exactly when its own part is.
   */
  lemma BspContainerLengthIgnoresNamespace(ns: string, n: string)
    requires '/' !in n
    ensures BspContainerTooLong(ns + "/" + n) <==> |n| > MaxBspContainerLength
    ensures BspContainerTooLong(n) <==> |n| > MaxBspContainerLength
  {
    var s := ns + "/" + n;
    assert s[|ns|] == '/';
    assert s[|ns| + 1..] == n;
    StripNamespaceAt(s, |ns|);
    assert n[0..] == n;
    StripNamespaceAt(n, -1);
  }

  /** Fifteen characters after the namespace pass the length check. */
  lemma BspContainerOfFifteenPasses()
    ensures !BspContainerTooLong("/NS/TOOLONGNAME1234")
  {
    assert "/NS/TOOLONGNAME1234" == "/NS" + "/" + "TOOLONGNAME1234";
    BspContainerLengthIgnoresNamespace("/NS", "TOOLONGNAME1234");
  }

  /** Sixteen characters after the namespace fail the length check. */
  lemma BspContainerOfSixteenFails()
    ensures BspContainerTooLong("/NS/TOOLONGNAME12345")
  {
    assert "/NS/TOOLONGNAME12345" == "/NS" + "/" + "TOOLONGNAME12345";
    BspContainerLengthIgnoresNamespace("/NS", "TOOLONGNAME12345");
  }

  /** Sixteen characters without a namespace fail the length check too. */
  lemma UnqualifiedBspContainerOfSixteenFails()
    ensures BspContainerTooLong("TOOLONGNAME12345")
  {
    BspContainerLengthIgnoresNamespace("", "TOOLONGNAME12345");
  }
}
