/** The canonical form an experiment ID is derived from. */
module Canonical {
  import opened Model
  import opened Text

  function LayerName(l: Layer): string {
    match l
    case LayerDNS => "dns" case LayerTCP => "tcp" case LayerTLS => "tls"
    case LayerHTTP => "http" case LayerUDP => "udp" case LayerQUIC => "quic"
    case LayerOther(name) => name
  }

  function FamilyName(f: Family): string {
    match f
    case NoFamily => "" case IPv4 => "ipv4" case IPv6 => "ipv6" case FamilyAny => "any"
  }

  function TransportName(t: Transport): string {
    match t
    case NoTransport => "" case TCP => "tcp" case UDP => "udp" case QUIC => "quic"
    case TransportOther(name) => name
  }

  function ResolverName(r: Resolver): string {
    match r
    case NoResolver => "" case ResolverSystem => "system" case ResolverPublic => "public"
  }

  function JoinHostPort(host: string, port: nat): string {
    if ':' in host then "[" + host + "]:" + Itoa(port) else host + ":" + Itoa(port)
  }

  /** The target URL, or host and port without one. */
  function TargetText(t: Target): string {
    if t.url.Some? && t.url.value.Text() != "" then t.url.value.Text()
    else if t.host != "" then JoinHostPort(t.host, t.port)
    else ""
  }

  function Fields(s: Spec): seq<string> {
    [LayerName(s.layer), TargetText(s.target), s.target.host, Itoa(s.target.port),
     FamilyName(s.family), TransportName(s.transport), ResolverName(s.resolver),
     s.alpn, s.sni, Itoa(s.payload)]
  }

  function CanonicalForm(s: Spec): string {
    Join(["v1"] + Fields(s), "|")
  }

  /** Every field but the target text is free of the separator. */
  predicate Separable(s: Spec) {
    && Free('|', LayerName(s.layer)) && Free('|', s.target.host)
    && Free('|', TransportName(s.transport)) && Free('|', s.alpn) && Free('|', s.sni)
  }

  function Tail(fields: seq<string>, n: nat): string
    requires 1 <= n <= |fields|
  {
    if n == 1 then fields[0] else Tail(fields, n - 1) + "|" + fields[n - 1]
  }

  lemma {:induction false} JoinIsTail(fields: seq<string>)
    requires |fields| > 0
    ensures Join(fields, "|") == Tail(fields, |fields|)
    decreases |fields|
  {
    if |fields| > 1 {
      JoinIsTail(fields[1..]);
      JoinTail(fields, |fields|);
    }
  }

  lemma {:induction false} JoinTail(fields: seq<string>, n: nat)
    requires 2 <= n <= |fields|
    ensures Tail(fields, n) == fields[0] + "|" + Tail(fields[1..], n - 1)
  {
    if n > 2 {
      JoinTail(fields, n - 1);
      assert fields[1..][n - 2] == fields[n - 1];
      var a, b, c := fields[0] + "|", Tail(fields[1..], n - 2), "|" + fields[n - 1];
      assert a + b + "|" + fields[n - 1] == a + (b + "|" + fields[n - 1]);
    }
  }

  /** Fields 2.. can be stripped from the right as long as they are free of the separator. */
  lemma {:induction false} StripRight(a: seq<string>, b: seq<string>, n: nat, k: nat)
    requires 1 <= k <= n <= |a| && n <= |b|
    requires forall i :: k <= i < n ==> Free('|', a[i]) && Free('|', b[i])
    requires Tail(a, n) == Tail(b, n)
    ensures Tail(a, k) == Tail(b, k)
    ensures forall i :: k <= i < n ==> a[i] == b[i]
  {
    if k < n {
      LastField(Tail(a, n - 1), a[n - 1], Tail(b, n - 1), b[n - 1], '|');
      StripRight(a, b, n - 1, k);
    }
  }

  /** The canonical form determines every field it was joined from, even when the target text
      contains the separator. */
  lemma CanonicalInjective(a: Spec, b: Spec)
    requires Separable(a) && Separable(b)
    requires CanonicalForm(a) == CanonicalForm(b)
    ensures Fields(a) == Fields(b)
    ensures TargetText(a.target) == TargetText(b.target)
    ensures LayerName(a.layer) == LayerName(b.layer)
    ensures a.target.host == b.target.host && a.target.port == b.target.port
    ensures a.family == b.family && TransportName(a.transport) == TransportName(b.transport)
    ensures a.resolver == b.resolver
    ensures a.alpn == b.alpn && a.sni == b.sni && a.payload == b.payload
  {
    hide TargetText, Itoa, Tail;
    var x, y := ["v1"] + Fields(a), ["v1"] + Fields(b);
    JoinIsTail(x);
    JoinIsTail(y);
    FieldsFree(a);
    FieldsFree(b);
    StripRight(x, y, 11, 3);
    TailOfThree(x);
    TailOfThree(y);
    FirstField(x[0], x[1] + "|" + x[2], y[0], y[1] + "|" + y[2], '|');
    FirstField(x[1], x[2], y[1], y[2], '|');
    assert forall i :: 0 <= i < 11 ==> x[i] == y[i];
    assert Fields(a) == x[1..] == y[1..] == Fields(b);
    ItoaInjective(a.target.port, b.target.port);
    ItoaInjective(a.payload, b.payload);
    NamesInjective(a, b);
  }

  lemma TailOfThree(x: seq<string>)
    requires |x| >= 3
    ensures Tail(x, 3) == x[0] + ['|'] + (x[1] + "|" + x[2])
    ensures x[1] + "|" + x[2] == x[1] + ['|'] + x[2]
  {
    assert Tail(x, 3) == Tail(x, 2) + "|" + x[2];
    assert Tail(x, 2) == x[0] + "|" + x[1];
  }

  lemma FieldsFree(s: Spec)
    requires Separable(s)
    ensures forall i :: 0 <= i < 10 && i != 1 ==> Free('|', Fields(s)[i])
  {
    ItoaFree(s.target.port, '|');
    ItoaFree(s.payload, '|');
  }

  lemma NamesInjective(a: Spec, b: Spec)
    ensures FamilyName(a.family) == FamilyName(b.family) ==> a.family == b.family
    ensures ResolverName(a.resolver) == ResolverName(b.resolver) ==> a.resolver == b.resolver
  {
    assert FamilyName(IPv4)[3] != FamilyName(IPv6)[3];
  }

  /** The condition on the separator cannot be dropped: these two experiments differ and have
      one canonical form. */
  lemma SeparatorMatters(t: Target)
    ensures var a := Spec(t, LayerTLS, IPv4, TCP, NoResolver, "x|", "", 0);
            var b := Spec(t, LayerTLS, IPv4, TCP, NoResolver, "x", "|", 0);
            a != b && CanonicalForm(a) == CanonicalForm(b)
  {
    var a := Spec(t, LayerTLS, IPv4, TCP, NoResolver, "x|", "", 0);
    var b := Spec(t, LayerTLS, IPv4, TCP, NoResolver, "x", "|", 0);
    var x, y := ["v1"] + Fields(a), ["v1"] + Fields(b);
    hide TargetText, Itoa, LayerName, FamilyName, TransportName, ResolverName;
    assert a.alpn != b.alpn;
    JoinIsTail(x);
    JoinIsTail(y);
    SameTail(x, y, 8);
    var head := Tail(x, 8);
    assert Tail(x, 9) == head + "|" + "x|" && Tail(y, 9) == head + "|" + "x";
    assert Tail(x, 10) == Tail(x, 9) + "|" + "" && Tail(y, 10) == Tail(y, 9) + "|" + "|";
    assert Tail(x, 11) == head + "|" + "x|" + "|" + "" + "|" + Itoa(0);
    assert Tail(y, 11) == head + "|" + "x" + "|" + "|" + "|" + Itoa(0);
    assert head + "|" + "x|" + "|" + "" + "|" == head + "|" + "x" + "|" + "|" + "|";
  }

  lemma {:induction false} SameTail(x: seq<string>, y: seq<string>, n: nat)
    requires 1 <= n <= |x| && n <= |y| && x[..n] == y[..n]
    ensures Tail(x, n) == Tail(y, n)
  {
    assert x[n - 1] == x[..n][n - 1] == y[n - 1];
    if n > 1 {
      assert x[..n - 1] == x[..n][..n - 1] == y[..n - 1];
      SameTail(x, y, n - 1);
    }
  }

  /** A digest that does not collide on the canonical forms at hand separates experiments by
      layer and family, which is all the survey theorems assume of IDs. */
  lemma DigestSeparates(ident: Ident, digest: string -> string, specs: set<Spec>)
    requires forall s :: s in specs ==>
               Separable(s) && !s.layer.LayerOther? && ident(s) == digest(CanonicalForm(s))
    requires forall a, b :: a in specs && b in specs && digest(CanonicalForm(a)) == digest(CanonicalForm(b)) ==>
               CanonicalForm(a) == CanonicalForm(b)
    ensures NoCollision(ident, specs)
  {
    hide CanonicalForm, Separable;
    forall a, b | a in specs && b in specs && ident(a) == ident(b)
      ensures a.layer == b.layer && a.family == b.family
    {
      CanonicalInjective(a, b);
      LayerNamesInjective(a.layer, b.layer);
    }
  }

  lemma LayerNamesInjective(a: Layer, b: Layer)
    requires !a.LayerOther? && !b.LayerOther? && LayerName(a) == LayerName(b)
    ensures a == b
  {
    assert LayerName(a)[0] == LayerName(b)[0];
    assert |LayerName(a)| == |LayerName(b)|;
    assert LayerName(a)[1] == LayerName(b)[1];
  }
}
