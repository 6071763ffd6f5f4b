/** The shared vocabulary of a survey: targets, experiments, observations and the survey
    state (internal/model). */
module Model {

  datatype Option<+T> = None | Some(value: T)

  datatype Layer =
    | LayerDNS | LayerTCP | LayerTLS | LayerHTTP | LayerUDP | LayerQUIC
    | LayerOther(name: string)

  /** NoStatus is the empty status a probe may return; the runner turns it into Unknown. */
  datatype Status = NoStatus | Pass | Fail | Timeout | Skipped | Unknown

  /** NoFamily is the empty family: a default in an experiment, a wildcard in a lookup. */
  datatype Family = NoFamily | IPv4 | IPv6 | FamilyAny

  datatype Transport = NoTransport | TCP | UDP | QUIC | TransportOther(name: string)

  datatype Resolver = NoResolver | ResolverSystem | ResolverPublic

  const SNI_NONE := "none"
  const H1 := "http/1.1"
  const H3 := "h3"

  /** A parsed URL. `host` is the authority with its port, `hostname` the same without port
      and brackets, `rest` the path and query. */
  datatype Url = Url(scheme: string, host: string, hostname: string, rest: string) {
    function Text(): string { scheme + "://" + host + rest }
  }

  datatype Target = Target(url: Option<Url>, host: string, port: nat) {
    predicate IsHTTPS() {
      url.None? || url.value.scheme == "" || url.value.scheme == "https"
    }
  }

  /** Everything that determines an experiment: its fields without the derived ID. */
  datatype Spec = Spec(target: Target, layer: Layer, family: Family, transport: Transport,
                       resolver: Resolver, alpn: string, sni: string, payload: int)

  datatype Experiment = Experiment(id: string, spec: Spec)

  /** The ID derivation: the digest of the canonical form, never empty. */
  type Ident = f: Spec -> string | forall s: Spec :: f(s) != "" witness (s: Spec) => "0"

  datatype EvidenceKind =
    | KindDNSAnswer | KindDNSError | KindTCPRefused | KindTCPReset | KindTLSAlert
    | KindCertificate | KindHTTPStatus | KindUDPRefused | KindOther(name: string)

  datatype Value = Text(text: string) | Texts(texts: seq<string>) | Number(n: int) | Opaque

  datatype Evidence = Evidence(kind: EvidenceKind, values: map<string, Value>)

  datatype AddressOutcome =
    AddressOutcome(ip: string, status: Status, duration: int, kind: string, error: string)

  datatype Observation =
    Observation(experiment: Experiment, layer: Layer, status: Status, duration: int,
                evidence: seq<Evidence>, addresses: seq<AddressOutcome>, error: string)

  datatype Round = Round(index: nat, proposed: seq<Experiment>)

  /** The survey state as policies and inference see it: a value. */
  datatype Survey = Survey(target: Option<Target>, round: nat,
                           observations: seq<Observation>, rounds: seq<Round>)

  /** The derived defaults Normalize fills in before it derives the ID. */
  function Defaults(s: Spec): Spec {
    var target := if s.target.host == "" && s.target.url.Some?
                  then s.target.(host := s.target.url.value.hostname) else s.target;
    var family := if s.family != NoFamily then s.family
                  else if s.layer == LayerDNS then FamilyAny else IPv4;
    var transport := if s.transport != NoTransport then s.transport
                     else match s.layer
                       case LayerDNS | LayerUDP => UDP
                       case LayerTCP | LayerTLS | LayerHTTP => TCP
                       case LayerQUIC => QUIC
                       case LayerOther(_) => NoTransport;
    var resolver := if s.resolver == NoResolver && s.layer == LayerDNS
                    then ResolverSystem else s.resolver;
    var payload := if s.payload == 0 && s.layer == LayerUDP then 16 else s.payload;
    s.(target := target, family := family, transport := transport,
       resolver := resolver, payload := payload)
  }

  function Normalize(ident: Ident, e: Experiment): Experiment {
    var spec := Defaults(e.spec);
    Experiment(if e.id == "" then ident(spec) else e.id, spec)
  }

  /** Normalizing twice is normalizing once, and the result always has an ID. */
  lemma NormalizeIdempotent(ident: Ident, e: Experiment)
    ensures Normalize(ident, Normalize(ident, e)) == Normalize(ident, e)
    ensures Normalize(ident, e).id != ""
  {
    var s := Defaults(e.spec);
    assert Defaults(s) == s;
  }

  /** The specs of the experiment constructors; all defaults are already filled in. */
  function DnsSpec(t: Target, r: Resolver): (s: Spec)
    ensures Defaults(s) == s && s.layer == LayerDNS && s.family == FamilyAny
    ensures s.sni == "" && (r != NoResolver ==> s.resolver == r)
  {
    Defaults(Spec(t, LayerDNS, FamilyAny, UDP, r, "", "", 0))
  }

  function TcpSpec(t: Target, f: Family): (s: Spec)
    ensures Defaults(s) == s && s.layer == LayerTCP && (f != NoFamily ==> s.family == f)
    ensures s.alpn == "" && s.sni == ""
  {
    Defaults(Spec(t, LayerTCP, f, TCP, NoResolver, "", "", 0))
  }

  function TlsSpec(t: Target, f: Family, alpn: string, sni: string): (s: Spec)
    ensures Defaults(s) == s && s.layer == LayerTLS && (f != NoFamily ==> s.family == f)
    ensures s.alpn == alpn && s.sni == sni
  {
    Defaults(Spec(t, LayerTLS, f, TCP, NoResolver, alpn, sni, 0))
  }

  function HttpSpec(t: Target, f: Family, alpn: string): (s: Spec)
    ensures Defaults(s) == s && s.layer == LayerHTTP && (f != NoFamily ==> s.family == f)
    ensures s.alpn == alpn && s.sni == ""
  {
    Defaults(Spec(t, LayerHTTP, f, TCP, NoResolver, alpn, "", 0))
  }

  function UdpSpec(t: Target, f: Family, payload: int): (s: Spec)
    ensures Defaults(s) == s && s.layer == LayerUDP && (f != NoFamily ==> s.family == f)
    ensures s.alpn == "" && s.sni == ""
  {
    Defaults(Spec(t, LayerUDP, f, UDP, NoResolver, "", "", payload))
  }

  function QuicSpec(t: Target, f: Family, sni: string): (s: Spec)
    ensures Defaults(s) == s && s.layer == LayerQUIC && (f != NoFamily ==> s.family == f)
    ensures s.alpn == H3 && s.sni == sni
  {
    Defaults(Spec(t, LayerQUIC, f, QUIC, NoResolver, H3, sni, 0))
  }

  /** The constructors normalize a zero-ID experiment. */
  function Make(ident: Ident, s: Spec): Experiment {
    Normalize(ident, Experiment("", s))
  }

  /** An experiment made from a spec without gaps has that spec, the derived ID, and is normal. */
  lemma MadeSpec(ident: Ident, s: Spec)
    requires Defaults(s) == s
    ensures Make(ident, s).spec == s && Make(ident, s).id == ident(s)
    ensures Normalize(ident, Make(ident, s)) == Make(ident, s)
  {
  }

  ghost function Ids(obs: seq<Observation>): set<string> {
    set o | o in obs :: o.experiment.id
  }

  ghost function Specs(obs: seq<Observation>): set<Spec> {
    set o | o in obs :: o.experiment.spec
  }

  /** Recorded observations name their layer and carry the derived ID. */
  ghost predicate WellFormed(ident: Ident, obs: seq<Observation>) {
    forall o :: o in obs ==> o.layer == o.experiment.spec.layer && o.experiment.id == ident(o.experiment.spec)
  }

  /** The assumption on the truncated digest: among the given experiments, equal IDs mean the
      same layer and family. */
  ghost predicate NoCollision(ident: Ident, specs: set<Spec>) {
    forall a, b :: a in specs && b in specs && ident(a) == ident(b) ==>
      a.layer == b.layer && a.family == b.family
  }

  predicate HasExperiment(obs: seq<Observation>, id: string) {
    id != "" && exists i :: 0 <= i < |obs| && obs[i].experiment.id == id
  }

  lemma HasExperimentIsIn(obs: seq<Observation>, id: string)
    ensures HasExperiment(obs, id) <==> id != "" && id in Ids(obs)
  {
    if id in Ids(obs) {
      var o :| o in obs && o.experiment.id == id;
      var i :| 0 <= i < |obs| && obs[i] == o;
      assert obs[i].experiment.id == id;
    }
  }

  /** The mutable survey state. */
  class SurveyState {
    var target: Option<Target>
    var round: nat
    var observations: seq<Observation>
    var rounds: seq<Round>

    constructor (t: Target)
      ensures View() == Survey(Some(t), 0, [], [])
    {
      target, round, observations, rounds := Some(t), 0, [], [];
    }

    function View(): Survey
      reads this
    {
      Survey(target, round, observations, rounds)
    }

    method Recorded(id: string) returns (found: bool)
      ensures found <==> HasExperiment(observations, id)
    {
      if id == "" { return false; }
      for i := 0 to |observations|
        invariant forall j :: 0 <= j < i ==> observations[j].experiment.id != id
      {
        if observations[i].experiment.id == id { return true; }
      }
      return false;
    }

    /** Adding an ID twice is refused and leaves the state as it was. */
    method AddObservation(o: Observation) returns (ok: bool)
      modifies this`observations
      ensures ok <==> !HasExperiment(old(observations), o.experiment.id)
      ensures observations == if ok then old(observations) + [o] else old(observations)
    {
      var found := Recorded(o.experiment.id);
      ok := !found;
      if ok { observations := observations + [o]; }
    }
  }
}
