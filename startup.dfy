/**
 * Startup planning of the reverse proxy (pkg/server/run.go): validating the
 * target URLs, resolving their hosts, provisioning the TLS certificate and
 * key, and deciding which listeners to start. The file system, DNS, the
 * temporary directory and URL parsing are oracles held in `Env`; the
 * listeners themselves are described, not started.
 */
module Startup {
  import opened Wrappers
  import opened Strings
  import opened Net
  import SelfSign

  const SchemeHTTP := "http"
  const SchemeHTTPS := "https"
  const Loopback := "127.0.0.1"

  /** What `os.Stat` says about a path (stat errors other than "does not exist" are not modelled). */
  datatype FileInfo = Missing | Directory | RegularFile

  /** One `net.LookupHost` answer: the addresses found and the lookup error, if any. */
  datatype Lookup = Lookup(addresses: seq<string>, err: Option<string>)

  /** The outside world that startup consults. */
  datatype Env = Env(
    parse: UrlParser,
    stat: string -> FileInfo,
    tempDir: string,
    lookup: string -> Lookup,
    sign: SelfSign.SignEnv)

  // ---------------------------------------------------------------- files

  const NotAFile := " it exists, but is a directory and not a file"

  /** `fileExistsAndIsAFile`: false for a missing path, an error for a directory, true otherwise. */
  function FileExistsAndIsAFile(topic: string, file: string, stat: string -> FileInfo): (r: Result<bool, string>)
    ensures r == Success(false) <==> stat(file) == Missing
    ensures r == Success(true) <==> stat(file) == RegularFile
    ensures r == Failure(topic + NotAFile) <==> stat(file) == Directory
  {
    match stat(file)
    case Missing => Success(false)
    case Directory => Failure(topic + NotAFile)
    case RegularFile => Success(true)
  }

  /** The path without its trailing slashes. */
  function TrimTrailingSlashes(p: string): (t: string)
    ensures t <= p
    ensures t == [] || t[|t| - 1] != '/'
    ensures forall i :: |t| <= i < |p| ==> p[i] == '/'
  {
    if |p| > 0 && p[|p| - 1] == '/' then TrimTrailingSlashes(p[..|p| - 1]) else p
  }

  /** The text after the last slash. */
  function AfterLastSlash(p: string): (s: string)
    ensures '/' !in s
    ensures |s| <= |p| && s == p[|p| - |s|..]
    ensures |s| < |p| ==> p[|p| - |s| - 1] == '/'
  {
    if p == [] || p[|p| - 1] == '/' then []
    else
      var init := AfterLastSlash(p[..|p| - 1]);
      assert p[..|p| - 1][|p| - 1 - |init|..] + [p[|p| - 1]] == p[|p| - |init| - 1..];
      init + [p[|p| - 1]]
  }

  /** `filepath.Base`: the last element of a slash-separated path; "." for "" and "/" for slashes only. */
  function Base(p: string): (b: string)
    ensures b != []
    ensures '/' in b ==> b == "/"
    ensures p == "" ==> b == "."
    ensures p != "" && TrimTrailingSlashes(p) == "" ==> b == "/"
    ensures TrimTrailingSlashes(p) != "" ==> b == AfterLastSlash(TrimTrailingSlashes(p))
  {
    if p == "" then "."
    else
      var t := TrimTrailingSlashes(p);
      if t == "" then "/" else AfterLastSlash(t)
  }

  /**
   * `filepath.Join(dir, name)` for a file name without slashes: the directory
   * without trailing slashes, a slash, the name.
   */
  function JoinPath(dir: string, name: string): (p: string)
    ensures p == name || (|p| > |name| && p[|p| - |name| - 1] == '/' && p[|p| - |name|..] == name)
    ensures dir == "" ==> p == name
    ensures dir != "" ==> |p| > |name| && p[..|p| - |name| - 1] == TrimTrailingSlashes(dir)
  {
    if dir == "" then name else TrimTrailingSlashes(dir) + "/" + name
  }

  /** `filesExist`: every file exists and is a file; stops at the first missing file or directory. */
  function FilesExist(files: seq<string>, stat: string -> FileInfo): Result<bool, string>
  {
    if files == [] then Success(true)
    else
      match FileExistsAndIsAFile(Base(files[0]), files[0], stat)
      case Failure(e) => Failure(e)
      case Success(present) => if !present then Success(false) else FilesExist(files[1..], stat)
  }

  /** The first `n` files are all regular files. */
  predicate RegularBefore(files: seq<string>, stat: string -> FileInfo, n: int)
    requires 0 <= n <= |files|
  {
    forall j :: 0 <= j < n ==> stat(files[j]) == RegularFile
  }

  /** A regular first file followed by `n` regular files makes `n + 1` regular files. */
  lemma RegularBeforeCons(files: seq<string>, stat: string -> FileInfo, n: int)
    requires 0 <= n < |files| && stat(files[0]) == RegularFile && RegularBefore(files[1..], stat, n)
    ensures RegularBefore(files, stat, n + 1)
  {
    forall j | 0 <= j < n + 1 ensures stat(files[j]) == RegularFile {
      if j > 0 { assert files[j] == files[1..][j - 1]; }
    }
  }

  /**
   * `filesExist` answers true exactly when every file is a regular file; its
   * error comes from the first directory with only regular files before it,
   * and a false answer from the first missing file with only regular files before it.
   */
  lemma {:induction false} FilesExistMeaning(files: seq<string>, stat: string -> FileInfo)
    ensures FilesExist(files, stat) == Success(true) <==> RegularBefore(files, stat, |files|)
    ensures FilesExist(files, stat).Failure? ==>
              exists i :: 0 <= i < |files| && stat(files[i]) == Directory
                && FilesExist(files, stat).error == Base(files[i]) + NotAFile
                && RegularBefore(files, stat, i)
    ensures FilesExist(files, stat) == Success(false) ==>
              exists i :: 0 <= i < |files| && stat(files[i]) == Missing && RegularBefore(files, stat, i)
  {
    if files == [] {
    } else if stat(files[0]) != RegularFile {
      assert RegularBefore(files, stat, 0);
      assert !RegularBefore(files, stat, |files|);
    } else {
      var tail := files[1..];
      FilesExistMeaning(tail, stat);
      var r := FilesExist(files, stat);
      assert r == FilesExist(tail, stat);
      if r.Failure? {
        var i :| 0 <= i < |tail| && stat(tail[i]) == Directory
                && r.error == Base(tail[i]) + NotAFile && RegularBefore(tail, stat, i);
        assert files[i + 1] == tail[i];
        RegularBeforeCons(files, stat, i);
      } else if r == Success(false) {
        var i :| 0 <= i < |tail| && stat(tail[i]) == Missing && RegularBefore(tail, stat, i);
        assert files[i + 1] == tail[i];
        RegularBeforeCons(files, stat, i);
      }
      if RegularBefore(tail, stat, |tail|) {
        RegularBeforeCons(files, stat, |tail|);
      } else {
        var i :| 0 <= i < |tail| && stat(tail[i]) != RegularFile;
        assert files[i + 1] == tail[i];
      }
    }
  }

  /** `filesExist` as the Go code runs it: a loop with early returns. */
  method FilesExistLoop(files: seq<string>, stat: string -> FileInfo) returns (r: Result<bool, string>)
    ensures r == FilesExist(files, stat)
  {
    for i := 0 to |files|
      invariant FilesExist(files, stat) == FilesExist(files[i..], stat)
    {
      assert files[i..][1..] == files[i + 1..];
      var existsAndIsFile := FileExistsAndIsAFile(Base(files[i]), files[i], stat);
      if existsAndIsFile.Failure? {
        return Failure(existsAndIsFile.error);
      }
      if !existsAndIsFile.value {
        return Success(false);
      }
    }
    return Success(true);
  }

  // ---------------------------------------------------------------- target URLs

  /** The result of `extractDataFromURLStrings`: the host list and the parsed URLs. */
  datatype Targets = Targets(hosts: seq<string>, urls: seq<Url>)

  /** One target: its parse error, "empty scheme", "unsupported scheme", or the URL. */
  function CheckURL(a: string, parse: UrlParser): (r: Result<Url, string>)
    ensures r.Success? <==> parse(a).Success? && parse(a).value.scheme in {SchemeHTTP, SchemeHTTPS}
    ensures r.Success? ==> r == parse(a)
    ensures parse(a).Success? && parse(a).value.scheme == "" ==> r == Failure("empty scheme")
    ensures parse(a).Success? && parse(a).value.scheme !in {"", SchemeHTTP, SchemeHTTPS} ==> r == Failure("unsupported scheme")
    ensures parse(a).Failure? ==> r == parse(a)
  {
    match parse(a)
    case Failure(e) => Failure(e)
    case Success(u) =>
      if u.scheme == SchemeHTTP || u.scheme == SchemeHTTPS then Success(u)
      else if u.scheme == "" then Failure("empty scheme")
      else Failure("unsupported scheme")
  }

  /** All targets checked in order; the first bad one decides the error. */
  function CheckURLs(urlStrings: seq<string>, parse: UrlParser): Result<seq<Url>, string>
    decreases |urlStrings|
  {
    if urlStrings == [] then Success([])
    else
      match CheckURLs(urlStrings[..|urlStrings| - 1], parse)
      case Failure(e) => Failure(e)
      case Success(urls) =>
        match CheckURL(urlStrings[|urlStrings| - 1], parse)
        case Failure(e) => Failure(e)
        case Success(u) => Success(urls + [u])
  }

  /**
   * Checking succeeds exactly when every target is a well-formed http or https
   * URL, keeps one URL per target in input order, and otherwise reports the
   * error of the first bad target.
   */
  lemma {:induction false} CheckURLsMeaning(urlStrings: seq<string>, parse: UrlParser)
    ensures CheckURLs(urlStrings, parse).Success? <==> forall i :: 0 <= i < |urlStrings| ==> CheckURL(urlStrings[i], parse).Success?
    ensures CheckURLs(urlStrings, parse).Success? ==>
              var urls := CheckURLs(urlStrings, parse).value;
              |urls| == |urlStrings| && forall i :: 0 <= i < |urls| ==> CheckURL(urlStrings[i], parse) == Success(urls[i])
    ensures CheckURLs(urlStrings, parse).Failure? ==>
              exists i :: 0 <= i < |urlStrings| && CheckURL(urlStrings[i], parse) == Failure(CheckURLs(urlStrings, parse).error)
                && forall j :: 0 <= j < i ==> CheckURL(urlStrings[j], parse).Success?
    decreases |urlStrings|
  {
    if urlStrings != [] {
      var n := |urlStrings| - 1;
      var init := urlStrings[..n];
      CheckURLsMeaning(init, parse);
      assert forall i :: 0 <= i < n ==> init[i] == urlStrings[i];
    }
  }

  /** Once a prefix of the targets fails, the whole list fails the same way. */
  lemma {:induction false} CheckURLsFailureSticks(urlStrings: seq<string>, parse: UrlParser, k: nat)
    requires k <= |urlStrings| && CheckURLs(urlStrings[..k], parse).Failure?
    ensures CheckURLs(urlStrings, parse) == CheckURLs(urlStrings[..k], parse)
    decreases |urlStrings| - k
  {
    if k < |urlStrings| {
      assert urlStrings[..k + 1][..k] == urlStrings[..k];
      CheckURLsFailureSticks(urlStrings, parse, k + 1);
    } else {
      assert urlStrings[..k] == urlStrings;
    }
  }

  /** The host names of the targets, each once, in order of first appearance. */
  function DistinctHosts(urls: seq<Url>): (hs: seq<string>)
    ensures forall i, j :: 0 <= i < j < |hs| ==> hs[i] != hs[j]
    ensures forall h :: h in hs <==> exists i :: 0 <= i < |urls| && HostName(urls[i].host) == h
    decreases |urls|
  {
    if urls == [] then []
    else
      var n := |urls| - 1;
      var init := DistinctHosts(urls[..n]);
      var h := HostName(urls[n].host);
      assert forall i :: 0 <= i < n ==> urls[..n][i] == urls[i];
      if h in init then init else init + [h]
  }

  /** The host list of `extractDataFromURLStrings`: the targets' host names, sorted, without repeats. */
  function SortedHosts(urls: seq<Url>): (hs: seq<string>)
    ensures StrictlySorted(hs)
    ensures forall h :: h in hs <==> exists i :: 0 <= i < |urls| && HostName(urls[i].host) == h
  {
    var d := DistinctHosts(urls);
    var s := Sort(d);
    forall h ensures h in s <==> h in d {
      assert h in s <==> h in multiset(s);
      assert h in d <==> h in multiset(d);
    }
    s
  }

  /** The keys of the host map, listed in Go's arbitrary map order and then sorted. */
  method SortedKeys(hostMap: map<string, int>) returns (hosts: seq<string>)
    ensures StrictlySorted(hosts)
    ensures forall h :: h in hosts <==> h in hostMap
  {
    var hostList: seq<string> := [];
    var rest := hostMap.Keys;
    while rest != {}
      invariant rest <= hostMap.Keys
      invariant forall h :: h in hostList <==> h in hostMap && h !in rest
      invariant forall i, j :: 0 <= i < j < |hostList| ==> hostList[i] != hostList[j]
      decreases rest
    {
      var h :| h in rest;
      hostList := hostList + [h];
      rest := rest - {h};
    }
    hosts := Sort(hostList);
    forall h ensures h in hosts <==> h in hostList {
      assert h in hosts <==> h in multiset(hosts);
      assert h in hostList <==> h in multiset(hostList);
    }
  }

  /**
   * `extractDataFromURLStrings`: checks each target in order, counting host
   * names in a map; then lists the map's keys (in Go's arbitrary order) and sorts them.
   */
  method ExtractDataFromURLStrings(urlStrings: seq<string>, parse: UrlParser) returns (r: Result<Targets, string>)
    ensures CheckURLs(urlStrings, parse).Failure? ==> r == Failure(CheckURLs(urlStrings, parse).error)
    ensures CheckURLs(urlStrings, parse).Success? ==>
              r == Success(Targets(SortedHosts(CheckURLs(urlStrings, parse).value), CheckURLs(urlStrings, parse).value))
  {
    var hostMap: map<string, int> := map[];
    var urls: seq<Url> := [];
    for i := 0 to |urlStrings|
      invariant CheckURLs(urlStrings[..i], parse) == Success(urls)
      invariant forall h :: h in hostMap <==> exists j :: 0 <= j < |urls| && HostName(urls[j].host) == h
    {
      assert urlStrings[..i + 1][..i] == urlStrings[..i];
      var parsed := parse(urlStrings[i]);
      if parsed.Failure? {
        CheckURLsFailureSticks(urlStrings, parse, i + 1);
        return Failure(parsed.error);
      }
      var u := parsed.value;
      var hostPort := Split(u.host, ':');
      if u.scheme == SchemeHTTP {
      } else if u.scheme == SchemeHTTPS {
      } else if u.scheme == "" {
        CheckURLsFailureSticks(urlStrings, parse, i + 1);
        return Failure("empty scheme");
      } else {
        CheckURLsFailureSticks(urlStrings, parse, i + 1);
        return Failure("unsupported scheme");
      }
      assert hostPort[0] == HostName(u.host);
      hostMap := hostMap[hostPort[0] := (if hostPort[0] in hostMap then hostMap[hostPort[0]] else 0) + 1];
      ghost var before := urls;
      urls := urls + [u];
      assert forall j :: 0 <= j < |before| ==> urls[j] == before[j];
      assert urls[|before|] == u;
    }
    assert urlStrings[..|urlStrings|] == urlStrings;

    var hosts := SortedKeys(hostMap);
    SortedUnique(hosts, SortedHosts(urls));
    r := Success(Targets(hosts, urls));
  }

  // ---------------------------------------------------------------- host resolution

  /** The address text recorded for one host: its comma-joined addresses, or the loopback address when there are none. */
  function Addresses(l: Lookup): string
  {
    if |l.addresses| == 0 then Loopback else Join(l.addresses, ",")
  }

  /** `checkHosts` as a map: every host to the address text of its lookup. */
  function Resolved(hosts: seq<string>, lookup: string -> Lookup): map<string, string>
  {
    map h | h in hosts :: Addresses(lookup(h))
  }

  /**
   * Every host gets an entry, a lookup error or empty answer falls back to
   * 127.0.0.1, and otherwise the entry splits back into the addresses found.
   */
  lemma ResolvedEntry(hosts: seq<string>, lookup: string -> Lookup, h: string)
    requires h in hosts
    ensures h in Resolved(hosts, lookup)
    ensures |lookup(h).addresses| == 0 ==> Resolved(hosts, lookup)[h] == Loopback
    ensures (|lookup(h).addresses| > 0 && forall i :: 0 <= i < |lookup(h).addresses| ==> ',' !in lookup(h).addresses[i])
              ==> Split(Resolved(hosts, lookup)[h], ',') == lookup(h).addresses
  {
    if |lookup(h).addresses| > 0 && (forall i :: 0 <= i < |lookup(h).addresses| ==> ',' !in lookup(h).addresses[i]) {
      SplitJoin(lookup(h).addresses, ',');
    }
  }

  /** `checkHosts`: looks every host up in turn and records its address text. */
  method CheckHosts(hosts: seq<string>, lookup: string -> Lookup) returns (hostAddresses: map<string, string>)
    ensures hostAddresses == Resolved(hosts, lookup)
  {
    hostAddresses := map[];
    for i := 0 to |hosts|
      invariant hostAddresses == Resolved(hosts[..i], lookup)
    {
      assert hosts[..i + 1] == hosts[..i] + [hosts[i]];
      var answer := lookup(hosts[i]);
      var addresses := answer.addresses;
      if |addresses| == 0 {
        addresses := [Loopback];
      }
      hostAddresses := hostAddresses[hosts[i] := Join(addresses, ",")];
    }
    assert hosts[..|hosts|] == hosts;
  }

  // ---------------------------------------------------------------- certificate and key

  const CertWithoutKey := "there is a cert file but no key, giving up"
  const KeyWithoutCert := "there is a key file but no cert, giving up"

  /** What `ensureCertAndKey` decides to do with the pair it settles on. */
  datatype Decision = Reuse | Generate | Fail(msg: string)

  /** The certificate and key paths `ensureCertAndKey` settles on, and its decision. */
  datatype CertPlan = CertPlan(certFile: string, keyFile: string, decision: Decision)

  /** `certNameBase`: "webgrapple-temp" followed by "-" and each common name in turn. */
  function NameBase(names: seq<string>): string
    decreases |names|
  {
    if names == [] then "webgrapple-temp" else NameBase(names[..|names| - 1]) + "-" + names[|names| - 1]
  }

  function TempCertFile(tempDir: string, names: seq<string>): string
  {
    JoinPath(tempDir, "cert-" + NameBase(names) + ".pem")
  }

  function TempKeyFile(tempDir: string, names: seq<string>): string
  {
    JoinPath(tempDir, "key-" + NameBase(names) + ".pem")
  }

  /**
   * The decision of `ensureCertAndKey`. With both paths given: a directory or
   * a lone cert or key is an error, both present are reused, both missing are
   * generated. Otherwise: temporary paths named after the common names, reused
   * when both are files and generated when not.
   */
  function CertDecision(names: seq<string>, certFile: string, keyFile: string,
                        stat: string -> FileInfo, tempDir: string): (p: CertPlan)
    ensures certFile != "" && keyFile != "" ==> p.certFile == certFile && p.keyFile == keyFile
    ensures certFile == "" || keyFile == "" ==>
              p.certFile == TempCertFile(tempDir, names) && p.keyFile == TempKeyFile(tempDir, names)
    ensures p.decision == Reuse ==> stat(p.certFile) == RegularFile && stat(p.keyFile) == RegularFile
    ensures p.decision == Generate ==> stat(p.certFile) != RegularFile || stat(p.keyFile) != RegularFile
  {
    if certFile != "" && keyFile != "" then
      match FileExistsAndIsAFile("cert", certFile, stat)
      case Failure(e) => CertPlan(certFile, keyFile, Fail(e))
      case Success(certExists) =>
        match FileExistsAndIsAFile("key", keyFile, stat)
        case Failure(e) => CertPlan(certFile, keyFile, Fail(e))
        case Success(keyExists) =>
          if certExists && !keyExists then CertPlan(certFile, keyFile, Fail(CertWithoutKey))
          else if !certExists && keyExists then CertPlan(certFile, keyFile, Fail(KeyWithoutCert))
          else if !certExists && !keyExists then CertPlan(certFile, keyFile, Generate)
          else CertPlan(certFile, keyFile, Reuse)
    else
      var c := TempCertFile(tempDir, names);
      var k := TempKeyFile(tempDir, names);
      assert FilesExist([c, k], stat) == Success(true) <==> stat(c) == RegularFile && stat(k) == RegularFile by {
        FilesExistMeaning([c, k], stat);
      }
      match FilesExist([c, k], stat)
      case Failure(e) => CertPlan(c, k, Fail(e))
      case Success(both) => CertPlan(c, k, if both then Reuse else Generate)
  }

  /**
   * With both paths given, the paths are kept; exactly one existing is an
   * error, both existing are reused without generation, neither existing
   * leads to generation at those paths.
   */
  lemma ExplicitPair(names: seq<string>, certFile: string, keyFile: string, stat: string -> FileInfo, tempDir: string)
    requires certFile != "" && keyFile != ""
    ensures var p := CertDecision(names, certFile, keyFile, stat, tempDir);
      && p.certFile == certFile && p.keyFile == keyFile
      && (stat(certFile) == RegularFile && stat(keyFile) == Missing ==> p.decision == Fail(CertWithoutKey))
      && (stat(certFile) == Missing && stat(keyFile) == RegularFile ==> p.decision == Fail(KeyWithoutCert))
      && (p.decision == Reuse <==> stat(certFile) == RegularFile && stat(keyFile) == RegularFile)
      && (p.decision == Generate <==> stat(certFile) == Missing && stat(keyFile) == Missing)
      && (p.decision.Fail? <==> Directory in {stat(certFile), stat(keyFile)} || (stat(certFile) == Missing) != (stat(keyFile) == Missing))
  {
  }

  /**
   * With a path missing, both become the temporary paths named after the
   * common names; the pair is reused exactly when both are files and
   * generated when neither path is a directory and one is missing.
   */
  lemma TemporaryPair(names: seq<string>, certFile: string, keyFile: string, stat: string -> FileInfo, tempDir: string)
    requires certFile == "" || keyFile == ""
    ensures var p := CertDecision(names, certFile, keyFile, stat, tempDir);
      var c := TempCertFile(tempDir, names);
      var k := TempKeyFile(tempDir, names);
      && p.certFile == c && p.keyFile == k
      && (p.decision == Reuse <==> stat(c) == RegularFile && stat(k) == RegularFile)
      && (stat(c) != Directory && stat(k) != Directory && (stat(c) == Missing || stat(k) == Missing) ==> p.decision == Generate)
      && (p.decision == Generate <==> stat(c) == Missing || (stat(c) == RegularFile && stat(k) == Missing))
      && (stat(c) == Directory ==> p.decision == Fail(Base(c) + NotAFile))
      && (stat(c) == RegularFile && stat(k) == Directory ==> p.decision == Fail(Base(k) + NotAFile))
  {
    var c := TempCertFile(tempDir, names);
    var k := TempKeyFile(tempDir, names);
    FilesExistMeaning([c, k], stat);
  }

  /**
   * Provisioning twice for the same common names without explicit paths: once
   * the first run has written the temporary pair, the second run settles on the
   * same paths and reuses them instead of generating again.
   */
  lemma SecondRunReuses(names: seq<string>, certFile: string, keyFile: string, tempDir: string,
                        first: string -> FileInfo, second: string -> FileInfo)
    requires certFile == "" || keyFile == ""
    requires CertDecision(names, certFile, keyFile, first, tempDir).decision == Generate
    requires second(TempCertFile(tempDir, names)) == RegularFile && second(TempKeyFile(tempDir, names)) == RegularFile
    ensures CertDecision(names, certFile, keyFile, second, tempDir)
         == CertDecision(names, certFile, keyFile, first, tempDir).(decision := Reuse)
  {
    TemporaryPair(names, certFile, keyFile, first, tempDir);
    TemporaryPair(names, certFile, keyFile, second, tempDir);
  }

  /** The temporary name does not tell "a-b" from "a" and "b": both host sets share one pair of files. */
  lemma NameBaseCollides()
    ensures NameBase(["a-b"]) == NameBase(["a", "b"])
  {
    assert ["a", "b"][..1] == ["a"];
    assert ["a"][..0] == [];
  }

  /** What `ensureCertAndKey` returns, and the certificate it wrote if it generated one. */
  datatype Provisioned = Provisioned(certFile: string, keyFile: string, generated: Option<SelfSign.Written>, err: Option<string>)

  /** A decision carried out: nothing for an error or a reused pair, `selfsign` on the pair for a generated one. */
  function Carry(names: seq<string>, p: CertPlan, sign: SelfSign.SignEnv): (r: Provisioned)
    ensures r.certFile == p.certFile && r.keyFile == p.keyFile
    ensures r.generated.Some? <==> p.decision == Generate && SelfSign.Certificate(names, p.certFile, p.keyFile, sign).Success?
    ensures r.generated.Some? ==> r.generated.value.certFile == p.certFile && r.generated.value.keyFile == p.keyFile
    ensures r.err.None? <==> p.decision == Reuse || r.generated.Some?
    ensures p.decision.Fail? ==> r.err == Some(p.decision.msg)
    ensures p.decision == Generate && SelfSign.Certificate(names, p.certFile, p.keyFile, sign).Failure? ==>
              r.err == Some(SelfSign.Certificate(names, p.certFile, p.keyFile, sign).error)
  {
    match p.decision
    case Fail(msg) => Provisioned(p.certFile, p.keyFile, None, Some(msg))
    case Reuse => Provisioned(p.certFile, p.keyFile, None, None)
    case Generate =>
      match SelfSign.Certificate(names, p.certFile, p.keyFile, sign)
      case Failure(e) => Provisioned(p.certFile, p.keyFile, None, Some(e))
      case Success(w) => Provisioned(p.certFile, p.keyFile, Some(w), None)
  }

  /** The outcome of provisioning (current revision). */
  function Provision(names: seq<string>, certFile: string, keyFile: string, env: Env): Provisioned
  {
    Carry(names, CertDecision(names, certFile, keyFile, env.stat, env.tempDir), env.sign)
  }

  /**
   * The explicit-paths branch of `ensureCertAndKey`: the existence of both
   * files, or the error that ends the call.
   */
  method CheckExplicitPair(certFile: string, keyFile: string, stat: string -> FileInfo)
    returns (certExists: bool, keyExists: bool, err: Option<string>)
    requires certFile != "" && keyFile != ""
    ensures var d := CertDecision([], certFile, keyFile, stat, "").decision;
      && (d.Fail? <==> err.Some?)
      && (d.Fail? ==> err == Some(d.msg))
      && (d == Reuse ==> certExists && keyExists)
      && (d == Generate ==> !certExists && !keyExists)
  {
    keyExists, certExists := false, false;
    var c := FileExistsAndIsAFile("cert", certFile, stat);
    if c.Failure? {
      return certExists, keyExists, Some(c.error);
    }
    certExists := c.value;
    var k := FileExistsAndIsAFile("key", keyFile, stat);
    if k.Failure? {
      return certExists, keyExists, Some(k.error);
    }
    keyExists := k.value;
    if certExists && !keyExists {
      return certExists, keyExists, Some(CertWithoutKey);
    }
    if !certExists && keyExists {
      return certExists, keyExists, Some(KeyWithoutCert);
    }
    err := None;
  }

  /**
   * The temporary-paths branch of `ensureCertAndKey`: the paths named after
   * the common names, whether both exist, or the error that ends the call.
   */
  method CheckTemporaryPair(names: seq<string>, tempDir: string, stat: string -> FileInfo)
    returns (certFile: string, keyFile: string, bothExist: bool, err: Option<string>)
    ensures var p := CertDecision(names, "", "", stat, tempDir);
      && certFile == p.certFile && keyFile == p.keyFile
      && (p.decision.Fail? <==> err.Some?)
      && (p.decision.Fail? ==> err == Some(p.decision.msg))
      && (p.decision == Reuse ==> bothExist)
      && (p.decision == Generate ==> !bothExist)
  {
    var certNameBase := "webgrapple-temp";
    for i := 0 to |names|
      invariant certNameBase == NameBase(names[..i])
    {
      assert names[..i + 1][..i] == names[..i];
      certNameBase := certNameBase + "-" + names[i];
    }
    assert names[..|names|] == names;
    certFile := JoinPath(tempDir, "cert-" + certNameBase + ".pem");
    keyFile := JoinPath(tempDir, "key-" + certNameBase + ".pem");
    var both := FilesExistLoop([certFile, keyFile], stat);
    if both.Failure? {
      return certFile, keyFile, false, Some(both.error);
    }
    bothExist, err := both.value, None;
  }

  /** The decision does not depend on the common names or the temporary directory when both paths are given. */
  lemma ExplicitIgnoresNames(names: seq<string>, certFile: string, keyFile: string, stat: string -> FileInfo, tempDir: string)
    requires certFile != "" && keyFile != ""
    ensures CertDecision(names, certFile, keyFile, stat, tempDir) == CertDecision([], certFile, keyFile, stat, "")
  {
  }

  /** The decision for the temporary pair does not depend on which of the given paths is empty. */
  lemma TemporaryIgnoresPaths(names: seq<string>, certFile: string, keyFile: string, stat: string -> FileInfo, tempDir: string)
    requires certFile == "" || keyFile == ""
    ensures CertDecision(names, certFile, keyFile, stat, tempDir) == CertDecision(names, "", "", stat, tempDir)
  {
  }

  /** `ensureCertAndKey` (current revision). */
  method EnsureCertAndKey(commonNames: seq<string>, certFile: string, keyFile: string, env: Env)
    returns (certOut: string, keyOut: string, generated: Option<SelfSign.Written>, err: Option<string>)
    ensures Provisioned(certOut, keyOut, generated, err) == Provision(commonNames, certFile, keyFile, env)
  {
    var keyExists := false;
    var certExists := false;
    certOut, keyOut, generated := certFile, keyFile, None;
    if certFile != "" && keyFile != "" {
      ExplicitIgnoresNames(commonNames, certFile, keyFile, env.stat, env.tempDir);
      var e;
      certExists, keyExists, e := CheckExplicitPair(certFile, keyFile, env.stat);
      if e.Some? {
        return certOut, keyOut, None, e;
      }
    } else {
      TemporaryIgnoresPaths(commonNames, certFile, keyFile, env.stat, env.tempDir);
      var both, e;
      certOut, keyOut, both, e := CheckTemporaryPair(commonNames, env.tempDir, env.stat);
      if e.Some? {
        return certOut, keyOut, None, e;
      }
      certExists := both;
      keyExists := both;
    }
    if !certExists && !keyExists {
      var signed := SelfSign.Sign(commonNames, certOut, keyOut, env.sign);
      if signed.Failure? {
        return certOut, keyOut, None, Some(signed.error);
      }
      generated := Some(signed.value);
    }
    err := None;
  }

  // ---------------------------------------------------------------- listeners

  /** The text after the first ':' of a `Host`, when it is there and not empty. */
  function ExplicitPort(host: string): Option<string>
  {
    var parts := Split(host, ':');
    if |parts| > 1 && parts[1] != "" then Some(parts[1]) else None
  }

  /** The port appended when a target names none: ":80" for http, ":443" for https. */
  function DefaultPort(u: Url): string
  {
    if ExplicitPort(u.host).Some? then ""
    else if u.scheme == SchemeHTTP then ":80"
    else if u.scheme == SchemeHTTPS then ":443"
    else ""
  }

  /** One proxy listener: its target, the address it binds, its deduplication key, and whether it serves TLS. */
  datatype Listener = Listener(url: Url, bind: string, addressPort: string, tls: bool)

  /** The listener a target asks for, before deduplication. */
  function ListenerFor(u: Url, hostAddresses: map<string, string>): Listener
  {
    var name := HostName(u.host);
    var address := if name in hostAddresses then hostAddresses[name] else "";
    var addressPort := match ExplicitPort(u.host)
      case Some(p) => address + ":" + p
      case None => address + DefaultPort(u);
    Listener(u, u.host + DefaultPort(u), addressPort, u.scheme == SchemeHTTPS)
  }

  /**
   * A target without a port binds its host with the scheme's default port and
   * is keyed by its resolved addresses and that port; a target with a port binds
   * its host as given; TLS is used exactly for https.
   */
  lemma ListenerShape(u: Url, hostAddresses: map<string, string>)
    requires u.scheme in {SchemeHTTP, SchemeHTTPS}
    requires HostName(u.host) in hostAddresses
    ensures var l := ListenerFor(u, hostAddresses);
      var port := if u.scheme == SchemeHTTP then ":80" else ":443";
      && (l.tls <==> u.scheme == SchemeHTTPS)
      && (ExplicitPort(u.host).None? ==> l.bind == u.host + port && l.addressPort == hostAddresses[HostName(u.host)] + port)
      && (ExplicitPort(u.host).Some? ==> l.bind == u.host && l.addressPort == hostAddresses[HostName(u.host)] + ":" + ExplicitPort(u.host).value)
  {
  }

  /** The listener each target asks for, in target order. */
  function Wanted(urls: seq<Url>, hostAddresses: map<string, string>): (ls: seq<Listener>)
    ensures |ls| == |urls|
    ensures forall i :: 0 <= i < |urls| ==> ls[i] == ListenerFor(urls[i], hostAddresses)
  {
    seq(|urls|, i requires 0 <= i < |urls| => ListenerFor(urls[i], hostAddresses))
  }

  /** The listeners wanted by the first `i + 1` targets extend those of the first `i` by the listener of target `i`. */
  lemma WantedSnoc(urls: seq<Url>, hostAddresses: map<string, string>, i: int, l: Listener)
    requires 0 <= i < |urls| && l == ListenerFor(urls[i], hostAddresses)
    ensures Wanted(urls, hostAddresses)[..i] + [l] == Wanted(urls, hostAddresses)[..i + 1]
  {
  }

  /** The listener `ls[i]` is the first of `ls` with its key. */
  predicate FirstWithKey(ls: seq<Listener>, i: int)
    requires 0 <= i < |ls|
  {
    forall j :: 0 <= j < i ==> ls[j].addressPort != ls[i].addressPort
  }

  /** Keeps each listener whose key no earlier listener has. */
  function Dedup(ls: seq<Listener>): seq<Listener>
    decreases |ls|
  {
    if ls == [] then []
    else
      var n := |ls| - 1;
      if Seen(ls, n, ls[n].addressPort)
      then Dedup(ls[..n])
      else Dedup(ls[..n]) + [ls[n]]
  }

  /** The listeners started: one per deduplication key, for the first target with that key, in target order. */
  function Plan(urls: seq<Url>, hostAddresses: map<string, string>): seq<Listener>
  {
    Dedup(Wanted(urls, hostAddresses))
  }

  /** Every kept listener is the first with its key. */
  lemma {:induction false} DedupFromFirsts(ls: seq<Listener>)
    ensures forall l :: l in Dedup(ls) ==> exists i :: 0 <= i < |ls| && l == ls[i] && FirstWithKey(ls, i)
    decreases |ls|
  {
    if ls != [] {
      var n := |ls| - 1;
      var init := ls[..n];
      DedupFromFirsts(init);
      forall l | l in Dedup(ls)
        ensures exists i :: 0 <= i < |ls| && l == ls[i] && FirstWithKey(ls, i)
      {
        if l in Dedup(init) {
          var i :| 0 <= i < |init| && l == init[i] && FirstWithKey(init, i);
          assert ls[i] == init[i];
          assert FirstWithKey(ls, i);
        } else {
          assert l == ls[n];
        }
      }
    }
  }

  /** No two listeners of `ls` share a key. */
  predicate DistinctKeys(ls: seq<Listener>)
  {
    forall i, j :: 0 <= i < j < |ls| ==> ls[i].addressPort != ls[j].addressPort
  }

  /** No two kept listeners share a key. */
  lemma {:induction false} DedupKeysDistinct(ls: seq<Listener>)
    ensures DistinctKeys(Dedup(ls))
    decreases |ls|
  {
    if ls != [] {
      var n := |ls| - 1;
      var init := ls[..n];
      DedupKeysDistinct(init);
      DedupFromFirsts(init);
      var d0 := Dedup(init);
      if !Seen(ls, n, ls[n].addressPort) {
        forall k | 0 <= k < |d0| ensures d0[k].addressPort != ls[n].addressPort {
          assert d0[k] in d0;
          var i :| 0 <= i < |init| && d0[k] == init[i] && FirstWithKey(init, i);
          assert init[i] == ls[i];
        }
        var d := Dedup(ls);
        assert d == d0 + [ls[n]];
        forall i, j | 0 <= i < j < |d| ensures d[i].addressPort != d[j].addressPort {
          assert d[i] == d0[i];
          if j < |d0| {
            assert d[j] == d0[j];
          } else {
            assert d[j] == ls[n];
          }
        }
      } else {
        assert Dedup(ls) == d0;
      }
    }
  }

  /** Some listener among the first `i` of `ls` has key `k`. */
  predicate Seen(ls: seq<Listener>, i: int, k: string)
    requires 0 <= i <= |ls|
  {
    exists j :: 0 <= j < i && ls[j].addressPort == k
  }

  /** The keys of the listeners of `ls`. */
  function Keys(ls: seq<Listener>): (keys: set<string>)
    ensures forall k :: k in keys <==> Seen(ls, |ls|, k)
  {
    set j | 0 <= j < |ls| :: ls[j].addressPort
  }

  /** Appending a listener adds its key. */
  lemma KeysSnoc(ls: seq<Listener>, x: Listener)
    ensures Keys(ls + [x]) == Keys(ls) + {x.addressPort}
  {
    var t := ls + [x];
    forall k ensures k in Keys(t) <==> k in Keys(ls) + {x.addressPort} {
      if k in Keys(ls) {
        var j :| 0 <= j < |ls| && ls[j].addressPort == k;
        assert t[j] == ls[j];
      }
      if k == x.addressPort {
        assert t[|ls|] == x;
      }
    }
  }

  /** Appending a listener keeps it exactly when no listener before it has its key. */
  lemma DedupSnoc(ls: seq<Listener>, x: Listener)
    ensures Dedup(ls + [x]) == if x.addressPort in Keys(ls) then Dedup(ls) else Dedup(ls) + [x]
  {
    var t := ls + [x];
    assert t[..|ls|] == ls;
    assert forall j :: 0 <= j < |ls| ==> t[j] == ls[j];
  }

  /** The first listener with each key is kept. */
  lemma {:induction false} DedupCoversFirsts(ls: seq<Listener>)
    ensures forall i :: 0 <= i < |ls| && FirstWithKey(ls, i) ==> ls[i] in Dedup(ls)
    decreases |ls|
  {
    if ls != [] {
      var n := |ls| - 1;
      var init := ls[..n];
      DedupCoversFirsts(init);
      forall i | 0 <= i < |ls| && FirstWithKey(ls, i)
        ensures ls[i] in Dedup(ls)
      {
        if i < n {
          assert init[i] == ls[i];
          assert forall j :: 0 <= j < i ==> init[j] == ls[j];
          assert FirstWithKey(init, i);
        }
      }
    }
  }

  /**
   * The listeners started have distinct keys, each is asked for by the first
   * target with its key, and every such first target gets its listener.
   */
  lemma PlanMeaning(urls: seq<Url>, hostAddresses: map<string, string>)
    ensures var p := Plan(urls, hostAddresses);
      var w := Wanted(urls, hostAddresses);
      && DistinctKeys(p)
      && (forall l :: l in p ==> exists i :: 0 <= i < |urls| && l == ListenerFor(urls[i], hostAddresses) && FirstWithKey(w, i))
      && (forall i :: 0 <= i < |urls| && FirstWithKey(w, i) ==> ListenerFor(urls[i], hostAddresses) in p)
  {
    var w := Wanted(urls, hostAddresses);
    DedupKeysDistinct(w);
    DedupFromFirsts(w);
    DedupCoversFirsts(w);
    forall l | l in Plan(urls, hostAddresses)
      ensures exists i :: 0 <= i < |urls| && l == ListenerFor(urls[i], hostAddresses) && FirstWithKey(w, i)
    {
      var i :| 0 <= i < |w| && l == w[i] && FirstWithKey(w, i);
      assert l == ListenerFor(urls[i], hostAddresses);
    }
  }

  /** The body of the planning loop for one target: its port, key, bind address and TLS flag. */
  method TargetListener(u: Url, hostAddresses: map<string, string>) returns (l: Listener)
    ensures l == ListenerFor(u, hostAddresses)
  {
    var hostParts := Split(u.host, ':');
    var hasPort := |hostParts| > 1 && hostParts[1] != "";
    var port := "";
    var useTLS := false;
    if u.scheme == SchemeHTTP {
      if !hasPort {
        port := ":80";
      }
    } else if u.scheme == SchemeHTTPS {
      if !hasPort {
        port := ":443";
      }
      useTLS := true;
    }
    var addressPort := if hostParts[0] in hostAddresses then hostAddresses[hostParts[0]] else "";
    if hasPort {
      addressPort := addressPort + ":" + hostParts[1];
    } else {
      addressPort := addressPort + port;
    }
    var listenAddress := u.host + port;
    l := Listener(u, listenAddress, addressPort, useTLS);
  }

  /**
   * One turn of the planning loop after the listener is computed: count its
   * key and start it exactly when the count becomes 1. The counted keys stay
   * the keys seen so far and the started listeners the deduplicated ones.
   */
  method StartOnce(usedAddressPorts: map<string, int>, listeners: seq<Listener>, l: Listener, ghost seen: seq<Listener>)
    returns (used: map<string, int>, started: seq<Listener>)
    requires listeners == Dedup(seen)
    requires usedAddressPorts.Keys == Keys(seen) && forall k :: k in usedAddressPorts ==> usedAddressPorts[k] >= 1
    ensures started == Dedup(seen + [l])
    ensures used.Keys == Keys(seen + [l]) && forall k :: k in used ==> used[k] >= 1
  {
    DedupSnoc(seen, l);
    KeysSnoc(seen, l);
    var addressPort := l.addressPort;
    used := usedAddressPorts[addressPort := (if addressPort in usedAddressPorts then usedAddressPorts[addressPort] else 0) + 1];
    started := listeners;
    if used[addressPort] == 1 {
      started := started + [l];
    }
  }

  /** The planning loop of `Run`: counts each key and starts a listener the first time a key is counted. */
  method PlanListeners(urls: seq<Url>, hostAddresses: map<string, string>) returns (listeners: seq<Listener>)
    ensures listeners == Plan(urls, hostAddresses)
  {
    ghost var seen: seq<Listener> := [];
    var usedAddressPorts: map<string, int> := map[];
    listeners := [];
    for i := 0 to |urls|
      invariant seen == Wanted(urls, hostAddresses)[..i]
      invariant listeners == Dedup(seen)
      invariant usedAddressPorts.Keys == Keys(seen)
      invariant forall k :: k in usedAddressPorts ==> usedAddressPorts[k] >= 1
    {
      var l := TargetListener(urls[i], hostAddresses);
      usedAddressPorts, listeners := StartOnce(usedAddressPorts, listeners, l, seen);
      WantedSnoc(urls, hostAddresses, i, l);
      seen := seen + [l];
    }
    assert Wanted(urls, hostAddresses)[..|urls|] == Wanted(urls, hostAddresses);
  }

  // ---------------------------------------------------------------- Run

  const BackendURLError := "could not parse backend url: "

  /** What `Run` has settled on when it reaches the point of starting listeners. */
  datatype Launch = Launch(
    listeners: seq<Listener>,
    certFile: string,
    keyFile: string,
    generated: Option<SelfSign.Written>,
    controlPlane: string)

  /**
   * `Run` up to the start of the listeners: checks the targets, resolves their
   * hosts, provisions the certificate, parses the backend URL and plans the
   * listeners; any failure returns before a listener is planned.
   */
  method Run(serviceAddress: string, backendURLString: string, urlStrings: seq<string>,
             certFile: string, keyFile: string, env: Env) returns (r: Result<Launch, string>)
    ensures CheckURLs(urlStrings, env.parse).Failure? ==> r == Failure(CheckURLs(urlStrings, env.parse).error)
    ensures CheckURLs(urlStrings, env.parse).Success? ==>
      var urls := CheckURLs(urlStrings, env.parse).value;
      var hosts := SortedHosts(urls);
      var p := Provision(hosts, certFile, keyFile, env);
      && (p.err.Some? ==> r == Failure(p.err.value))
      && (p.err.None? && env.parse(backendURLString).Failure? ==>
            r == Failure(BackendURLError + env.parse(backendURLString).error))
      && (p.err.None? && env.parse(backendURLString).Success? ==>
            r == Success(Launch(Plan(urls, Resolved(hosts, env.lookup)), p.certFile, p.keyFile, p.generated, serviceAddress)))
  {
    var targets := ExtractDataFromURLStrings(urlStrings, env.parse);
    if targets.Failure? {
      return Failure(targets.error);
    }
    var hosts, urls := targets.value.hosts, targets.value.urls;
    var hostAddresses := CheckHosts(hosts, env.lookup);
    var certOut, keyOut, generated, errCert := EnsureCertAndKey(hosts, certFile, keyFile, env);
    if errCert.Some? {
      return Failure(errCert.value);
    }
    var backendURL := env.parse(backendURLString);
    if backendURL.Failure? {
      return Failure(BackendURLError + backendURL.error);
    }
    var listeners := PlanListeners(urls, hostAddresses);
    r := Success(Launch(listeners, certOut, keyOut, generated, serviceAddress));
  }
}
