/**
 * Startup planning of the older revision (server/run.go). Its helpers —
 * `fileExistsAndIsAFile`, `extractDataFromURLStrings`, `filesExist`,
 * `checkHosts` and the listener loop — are the same code as the current
 * revision and are taken from `Startup`. Its `ensureCertAndKey` differs: in
 * the branch for explicit paths the existence flags are declared anew with
 * `:=`, so the flags consulted afterwards are still false and a supplied pair
 * that exists is regenerated.
 */
module LegacyStartup {
  import opened Wrappers
  import opened Net
  import SelfSign
  import opened Startup

  /**
   * The decision of the older `ensureCertAndKey` as written: errors as in the
   * current revision, but with both paths given and no error the outer flags
   * are false, so the decision is always to generate.
   */
  function LegacyCertDecision(names: seq<string>, certFile: string, keyFile: string,
                              stat: string -> FileInfo, tempDir: string): CertPlan
  {
    if certFile != "" && keyFile != "" then
      match FileExistsAndIsAFile("cert", certFile, stat)
      case Failure(e) => CertPlan(certFile, keyFile, Fail(e))
      case Success(certExists) =>
        match FileExistsAndIsAFile("key", keyFile, stat)
        case Failure(e) => CertPlan(certFile, keyFile, Fail(e))
        case Success(keyExists) =>
          if certExists && !keyExists then CertPlan(certFile, keyFile, Fail(CertWithoutKey))
          else if !certExists && keyExists then CertPlan(certFile, keyFile, Fail(KeyWithoutCert))
          else CertPlan(certFile, keyFile, Generate)
    else
      CertDecision(names, certFile, keyFile, stat, tempDir)
  }

  /**
   * With both paths given, the older revision reports the same errors and
   * keeps the same paths as the current one, but where the current revision
   * reuses an existing pair it generates a new one over it.
   */
  lemma LegacyExplicitPair(names: seq<string>, certFile: string, keyFile: string, stat: string -> FileInfo, tempDir: string)
    requires certFile != "" && keyFile != ""
    ensures var legacy := LegacyCertDecision(names, certFile, keyFile, stat, tempDir);
      var current := CertDecision(names, certFile, keyFile, stat, tempDir);
      && legacy.certFile == current.certFile == certFile
      && legacy.keyFile == current.keyFile == keyFile
      && legacy.decision == (if current.decision == Reuse then Generate else current.decision)
      && (legacy.decision.Fail? <==> current.decision.Fail?)
      && legacy.decision != Reuse
  {
    ExplicitPair(names, certFile, keyFile, stat, tempDir);
  }

  /** Without both paths the two revisions decide alike. */
  lemma LegacyTemporaryPair(names: seq<string>, certFile: string, keyFile: string, stat: string -> FileInfo, tempDir: string)
    requires certFile == "" || keyFile == ""
    ensures LegacyCertDecision(names, certFile, keyFile, stat, tempDir) == CertDecision(names, certFile, keyFile, stat, tempDir)
    ensures LegacyCertDecision(names, certFile, keyFile, stat, tempDir).certFile == TempCertFile(tempDir, names)
    ensures LegacyCertDecision(names, certFile, keyFile, stat, tempDir).keyFile == TempKeyFile(tempDir, names)
  {
    TemporaryPair(names, certFile, keyFile, stat, tempDir);
  }

  /** The outcome of provisioning (older revision). */
  function LegacyProvision(names: seq<string>, certFile: string, keyFile: string, env: Env): Provisioned
  {
    Carry(names, LegacyCertDecision(names, certFile, keyFile, env.stat, env.tempDir), env.sign)
  }

  /**
   * A supplied certificate and key that both exist as files: the current
   * revision keeps them untouched, the older one writes a new certificate
   * over them whenever signing succeeds.
   */
  lemma SuppliedPairOverwritten(names: seq<string>, certFile: string, keyFile: string, env: Env)
    requires certFile != "" && keyFile != ""
    requires env.stat(certFile) == RegularFile && env.stat(keyFile) == RegularFile
    ensures Provision(names, certFile, keyFile, env) == Provisioned(certFile, keyFile, None, None)
    ensures SelfSign.Certificate(names, certFile, keyFile, env.sign).Success? ==>
      LegacyProvision(names, certFile, keyFile, env).generated == Some(SelfSign.Certificate(names, certFile, keyFile, env.sign).value)
    ensures SelfSign.Certificate(names, certFile, keyFile, env.sign).Success? ==>
      LegacyProvision(names, certFile, keyFile, env).generated.value.certFile == certFile
  {
    LegacyExplicitPair(names, certFile, keyFile, env.stat, env.tempDir);
  }

  /** `ensureCertAndKey` (older revision), including the shadowed existence flags. */
  method EnsureCertAndKey(commonNames: seq<string>, certFile: string, keyFile: string, env: Env)
    returns (certOut: string, keyOut: string, generated: Option<SelfSign.Written>, err: Option<string>)
    ensures Provisioned(certOut, keyOut, generated, err) == LegacyProvision(commonNames, certFile, keyFile, env)
  {
    var certExists, keyExists := false, false;
    certOut, keyOut, generated := certFile, keyFile, None;
    if certFile != "" && keyFile != "" {
      var c := FileExistsAndIsAFile("cert", certFile, env.stat);
      if c.Failure? {
        return certOut, keyOut, None, Some(c.error);
      }
      var certExists := c.value;
      var k := FileExistsAndIsAFile("key", keyFile, env.stat);
      if k.Failure? {
        return certOut, keyOut, None, Some(k.error);
      }
      var keyExists := k.value;
      if certExists && !keyExists {
        return certOut, keyOut, None, Some(CertWithoutKey);
      }
      if !certExists && keyExists {
        return certOut, keyOut, None, Some(KeyWithoutCert);
      }
    } else {
      var both, e;
      certOut, keyOut, both, e := CheckTemporaryPair(commonNames, env.tempDir, env.stat);
      TemporaryIgnoresPaths(commonNames, certFile, keyFile, env.stat, env.tempDir);
      if e.Some? {
        return certOut, keyOut, None, e;
      }
      certExists := both;
      keyExists := both;
    }
    if !certExists && !keyExists {
      var signed := SelfSign.Sign(commonNames, certOut, keyOut, env.sign);
      if signed.Failure? {
        return certOut, keyOut, None, Some(signed.error);
      }
      generated := Some(signed.value);
    }
    err := None;
  }

  /**
   * `run` (older revision) up to the start of the listeners: the same steps
   * and the same listener plan as the current `Run`, with the older
   * certificate provisioning.
   */
  method Run(serviceAddress: string, backendURLString: string, urlStrings: seq<string>,
             certFile: string, keyFile: string, env: Env) returns (r: Result<Launch, string>)
    ensures CheckURLs(urlStrings, env.parse).Failure? ==> r == Failure(CheckURLs(urlStrings, env.parse).error)
    ensures CheckURLs(urlStrings, env.parse).Success? ==>
      var urls := CheckURLs(urlStrings, env.parse).value;
      var hosts := SortedHosts(urls);
      var p := LegacyProvision(hosts, certFile, keyFile, env);
      && (p.err.Some? ==> r == Failure(p.err.value))
      && (p.err.None? && env.parse(backendURLString).Failure? ==>
            r == Failure(BackendURLError + env.parse(backendURLString).error))
      && (p.err.None? && env.parse(backendURLString).Success? ==>
            r == Success(Launch(Plan(urls, Resolved(hosts, env.lookup)), p.certFile, p.keyFile, p.generated, serviceAddress)))
  {
    var targets := ExtractDataFromURLStrings(urlStrings, env.parse);
    if targets.Failure? {
      return Failure(targets.error);
    }
    var hosts, urls := targets.value.hosts, targets.value.urls;
    var hostAddresses := CheckHosts(hosts, env.lookup);
    var certOut, keyOut, generated, errCert := EnsureCertAndKey(hosts, certFile, keyFile, env);
    if errCert.Some? {
      return Failure(errCert.value);
    }
    var backendURL := env.parse(backendURLString);
    if backendURL.Failure? {
      return Failure(BackendURLError + backendURL.error);
    }
    var listeners := PlanListeners(urls, hostAddresses);
    r := Success(Launch(listeners, certOut, keyOut, generated, serviceAddress));
  }
}
