/**
 * The self-signed certificate generator (pkg/server/selfsign.go). Key
 * generation, x509 encoding and file writes are oracles: each step either
 * succeeds or fails with a message. What stays is the certificate template:
 * its validity window, its key usage and the split of the hosts into IP and
 * DNS subject alternative names.
 */
module SelfSign {
  import opened Wrappers

  /** Nanoseconds, Go's `time.Duration` unit. */
  const Second: int := 1_000_000_000
  const Hour: int := 3600 * Second
  /** `validFor`: one year of 365 days. */
  const ValidFor: int := 365 * 24 * Hour

  /** `serialNumberLimit`: 2^128. */
  const SerialNumberLimit: nat := 0x1_0000_0000_0000_0000_0000_0000_0000_0000

  /** What `rand.Int(rand.Reader, serialNumberLimit)` can return. */
  type Serial = n: nat | n < SerialNumberLimit

  /** A parsed IP address, `net.IP`. */
  datatype IP = IP(bytes: seq<bv8>)

  datatype KeyUsage = DigitalSignature | CertSign
  datatype ExtKeyUsage = ServerAuth

  /** The fields of the `x509.Certificate` template that `selfsign` fills in. */
  datatype Template = Template(
    serial: Serial,
    organization: seq<string>,
    notBefore: int,
    notAfter: int,
    keyUsage: set<KeyUsage>,
    extKeyUsage: seq<ExtKeyUsage>,
    basicConstraintsValid: bool,
    isCA: bool,
    ipAddresses: seq<IP>,
    dnsNames: seq<string>)

  /** The steps of `selfsign` that can fail, in the order they run. */
  datatype Step =
    | GenerateKey | SerialNumber | CreateCertificate
    | CreateCertFile | EncodeCert | CloseCert
    | OpenKeyFile | MarshalKey | EncodeKey | CloseKey

  const Steps: seq<Step> := [GenerateKey, SerialNumber, CreateCertificate,
                             CreateCertFile, EncodeCert, CloseCert,
                             OpenKeyFile, MarshalKey, EncodeKey, CloseKey]

  /** The text `selfsign` wraps around each step's error. */
  function Prefix(s: Step): string
  {
    match s
    case GenerateKey => "Failed to generate private key: "
    case SerialNumber => "Failed to generate serial number: "
    case CreateCertificate => "Failed to create certificate: "
    case CreateCertFile => "Failed to open cert.pem for writing: "
    case EncodeCert => "Failed to write data to cert.pem: "
    case CloseCert => "Error closing cert.pem: "
    case OpenKeyFile => "Failed to open key.pem for writing: "
    case MarshalKey => "Unable to marshal private key: "
    case EncodeKey => "Failed to write data to key.pem: "
    case CloseKey => "Error closing key.pem: "
  }

  /**
   * Everything outside the model that `selfsign` consults: `net.ParseIP`,
   * the local wall clock in nanoseconds, the serial number drawn, and the
   * steps that fail with their error messages.
   */
  datatype SignEnv = SignEnv(
    parseIP: string -> Option<IP>,
    localNow: int,
    serial: Serial,
    failures: map<Step, string>)

  /** The files written: the certificate for the template, and the key file opened with mode 0600. */
  datatype Written = Written(certFile: string, template: Template, keyFile: string, keyMode: int)

  const KeyFileMode: int := 0x180 // 0600

  /** The hosts that parse as IP addresses, as parsed, in input order. */
  function IPsOf(hosts: seq<string>, parseIP: string -> Option<IP>): seq<IP>
    decreases |hosts|
  {
    if hosts == [] then []
    else
      var h := hosts[|hosts| - 1];
      IPsOf(hosts[..|hosts| - 1], parseIP) + (if parseIP(h).Some? then [parseIP(h).value] else [])
  }

  /** The hosts that do not parse as IP addresses, in input order. */
  function DNSNamesOf(hosts: seq<string>, parseIP: string -> Option<IP>): seq<string>
    decreases |hosts|
  {
    if hosts == [] then []
    else
      var h := hosts[|hosts| - 1];
      DNSNamesOf(hosts[..|hosts| - 1], parseIP) + (if parseIP(h).None? then [h] else [])
  }

  /**
   * Every host lands in exactly one list: the DNS names are exactly the hosts
   * that are not IP addresses (the empty host included), the IP list holds
   * exactly the parsed addresses, and together they have one entry per host.
   */
  lemma {:induction false} Partition(hosts: seq<string>, parseIP: string -> Option<IP>)
    ensures |IPsOf(hosts, parseIP)| + |DNSNamesOf(hosts, parseIP)| == |hosts|
    ensures forall h :: h in DNSNamesOf(hosts, parseIP) <==> h in hosts && parseIP(h).None?
    ensures forall ip :: ip in IPsOf(hosts, parseIP) <==> exists i :: 0 <= i < |hosts| && parseIP(hosts[i]) == Some(ip)
    decreases |hosts|
  {
    if hosts != [] {
      var n := |hosts| - 1;
      var init := hosts[..n];
      Partition(init, parseIP);
      assert hosts == init + [hosts[n]];
      forall ip ensures ip in IPsOf(hosts, parseIP) <==> exists i :: 0 <= i < |hosts| && parseIP(hosts[i]) == Some(ip) {
        if exists i :: 0 <= i < |hosts| && parseIP(hosts[i]) == Some(ip) {
          var i :| 0 <= i < |hosts| && parseIP(hosts[i]) == Some(ip);
          if i < n { assert init[i] == hosts[i]; }
        }
        if ip in IPsOf(init, parseIP) {
          var i :| 0 <= i < n && parseIP(init[i]) == Some(ip);
          assert hosts[i] == init[i];
        }
      }
    }
  }

  /** The first step that fails, if any. */
  function FirstFailure(steps: seq<Step>, failures: map<Step, string>): (f: Option<Step>)
    ensures f.Some? ==> f.value in steps && f.value in failures
    ensures f.None? <==> forall s :: s in steps ==> s !in failures
    ensures f.Some? ==> exists i :: 0 <= i < |steps| && steps[i] == f.value && forall j :: 0 <= j < i ==> steps[j] !in failures
  {
    if steps == [] then None
    else if steps[0] in failures then Some(steps[0])
    else
      var rest := FirstFailure(steps[1..], failures);
      assert forall s :: s in steps[1..] ==> s in steps;
      if rest.Some? then
        assert exists i :: 0 < i < |steps| && steps[i] == rest.value && forall j :: 0 <= j < i ==> steps[j] !in failures by {
          var k :| 0 <= k < |steps[1..]| && steps[1..][k] == rest.value && forall j :: 0 <= j < k ==> steps[1..][j] !in failures;
          assert steps[k + 1] == rest.value;
          assert forall j :: 0 <= j < k + 1 ==> steps[j] !in failures by {
            forall j | 0 <= j < k + 1 ensures steps[j] !in failures {
              if j > 0 { assert steps[j] == steps[1..][j - 1]; }
            }
          }
        }
        rest
      else
        assert steps == [steps[0]] + steps[1..];
        rest
  }

  /** `time.Parse(timeFormat, time.Now().Format(timeFormat))`: the local wall clock cut to the second. */
  function TruncateToSecond(localNow: int): (t: int)
    ensures t % Second == 0
    ensures t <= localNow < t + Second
  {
    localNow - localNow % Second
  }

  /** The error `selfsign` returns for the given failing steps, if any. */
  function SignError(failures: map<Step, string>): Option<string>
  {
    match FirstFailure(Steps, failures)
    case None => None
    case Some(s) => Some(Prefix(s) + failures[s])
  }

  /** The template `selfsign` fills in for these hosts. */
  function TemplateFor(hosts: seq<string>, env: SignEnv): Template
  {
    var notBefore := TruncateToSecond(env.localNow);
    Template(env.serial, ["Acme Co"], notBefore, notBefore + ValidFor, {DigitalSignature},
             [ServerAuth], true, false, IPsOf(hosts, env.parseIP), DNSNamesOf(hosts, env.parseIP))
  }

  /** What `selfsign` produces: the wrapped error of the first failing step, or both files written. */
  function Certificate(hosts: seq<string>, certFile: string, keyFile: string, env: SignEnv): Result<Written, string>
  {
    match SignError(env.failures)
    case Some(e) => Failure(e)
    case None => Success(Written(certFile, TemplateFor(hosts, env), keyFile, KeyFileMode))
  }

  /**
   * The host loop of `selfsign`: each host is appended to the IP list when it
   * parses as an IP address and to the DNS names otherwise. The empty-host
   * check in the Go code has an empty body, so an empty host is kept.
   */
  method PartitionHosts(hosts: seq<string>, parseIP: string -> Option<IP>)
    returns (ips: seq<IP>, dnsNames: seq<string>)
    ensures ips == IPsOf(hosts, parseIP)
    ensures dnsNames == DNSNamesOf(hosts, parseIP)
  {
    ips, dnsNames := [], [];
    for i := 0 to |hosts|
      invariant ips == IPsOf(hosts[..i], parseIP)
      invariant dnsNames == DNSNamesOf(hosts[..i], parseIP)
    {
      assert hosts[..i + 1][..i] == hosts[..i];
      var h := hosts[i];
      var ip := parseIP(h);
      if ip.Some? {
        ips := ips + [ip.value];
      } else {
        dnsNames := dnsNames + [h];
      }
    }
    assert hosts[..|hosts|] == hosts;
  }

  /**
   * `selfsign`: generates the key and the serial number, fills in the
   * template, creates the certificate and writes both files, returning the
   * wrapped error of the first step that fails.
   */
  method Sign(hosts: seq<string>, certFile: string, keyFile: string, env: SignEnv)
    returns (r: Result<Written, string>)
    ensures r == Certificate(hosts, certFile, keyFile, env)
    ensures SignError(env.failures).Some? ==> r == Failure(SignError(env.failures).value)
    ensures SignError(env.failures).None? ==> r.Success?
    ensures r.Success? ==> r.value.certFile == certFile && r.value.keyFile == keyFile && r.value.keyMode == KeyFileMode
    ensures r.Success? ==> r.value.template.notAfter - r.value.template.notBefore == ValidFor
    ensures r.Success? ==> r.value.template.notBefore == TruncateToSecond(env.localNow)
    ensures r.Success? ==> !r.value.template.isCA && r.value.template.keyUsage == {DigitalSignature}
    ensures r.Success? ==> r.value.template.serial == env.serial
    ensures r.Success? ==> r.value.template.ipAddresses == IPsOf(hosts, env.parseIP)
    ensures r.Success? ==> r.value.template.dnsNames == DNSNamesOf(hosts, env.parseIP)
  {
    var isCA := false;
    if GenerateKey in env.failures {
      FirstFailureAt(Steps, env.failures, 0);
      return Failure(Prefix(GenerateKey) + env.failures[GenerateKey]);
    }
    var notBefore := TruncateToSecond(env.localNow);
    var notAfter := notBefore + ValidFor;
    if SerialNumber in env.failures {
      FirstFailureAt(Steps, env.failures, 1);
      return Failure(Prefix(SerialNumber) + env.failures[SerialNumber]);
    }
    var ips, dnsNames := PartitionHosts(hosts, env.parseIP);
    var template := Template(env.serial, ["Acme Co"], notBefore, notAfter, {DigitalSignature},
                             [ServerAuth], true, false, ips, dnsNames);
    if isCA {
      template := template.(isCA := true, keyUsage := template.keyUsage + {CertSign});
    }
    var err := WriteSteps(env.failures);
    if err.Some? {
      return Failure(err.value);
    }
    r := Success(Written(certFile, template, keyFile, KeyFileMode));
  }

  /** The steps of `selfsign` after the serial number: create the certificate, write both files. */
  method WriteSteps(failures: map<Step, string>) returns (err: Option<string>)
    requires GenerateKey !in failures && SerialNumber !in failures
    ensures err == SignError(failures)
  {
    if CreateCertificate in failures {
      FirstFailureAt(Steps, failures, 2);
      return Some(Prefix(CreateCertificate) + failures[CreateCertificate]);
    }
    if CreateCertFile in failures {
      FirstFailureAt(Steps, failures, 3);
      return Some(Prefix(CreateCertFile) + failures[CreateCertFile]);
    }
    if EncodeCert in failures {
      FirstFailureAt(Steps, failures, 4);
      return Some(Prefix(EncodeCert) + failures[EncodeCert]);
    }
    if CloseCert in failures {
      FirstFailureAt(Steps, failures, 5);
      return Some(Prefix(CloseCert) + failures[CloseCert]);
    }
    if OpenKeyFile in failures {
      FirstFailureAt(Steps, failures, 6);
      return Some(Prefix(OpenKeyFile) + failures[OpenKeyFile]);
    }
    if MarshalKey in failures {
      FirstFailureAt(Steps, failures, 7);
      return Some(Prefix(MarshalKey) + failures[MarshalKey]);
    }
    if EncodeKey in failures {
      FirstFailureAt(Steps, failures, 8);
      return Some(Prefix(EncodeKey) + failures[EncodeKey]);
    }
    if CloseKey in failures {
      FirstFailureAt(Steps, failures, 9);
      return Some(Prefix(CloseKey) + failures[CloseKey]);
    }
    assert forall s :: s in Steps ==> s !in failures;
    return None;
  }

  /** A failing step with no failing step before it is the first failure. */
  lemma {:induction false} FirstFailureAt(steps: seq<Step>, failures: map<Step, string>, k: nat)
    requires k < |steps| && steps[k] in failures
    requires forall j :: 0 <= j < k ==> steps[j] !in failures
    ensures FirstFailure(steps, failures) == Some(steps[k])
  {
    if k > 0 {
      FirstFailureAt(steps[1..], failures, k - 1);
    }
  }
}
