/** The ingress network's addressing: an IPv4 block in the notation of section
    3.1 of RFC 4632, and a gateway inside it. */
module Addressing {
  import opened Basics
  import opened Text

  function Pow2(n: nat): (r: nat)
    ensures r >= 1
  {
    if n == 0 then 1 else 2 * Pow2(n - 1)
  }

  /** One field of a dotted quad: no sign, no superfluous zero, at most 255. */
  function ParseOctet(s: string): Option<nat> {
    if Plain(s) && Value(s) <= 255 then Some(Value(s)) else None
  }

  datatype Octets = Octets(a: nat, b: nat, c: nat, d: nat)

  predicate ValidOctets(o: Octets) {
    o.a < 256 && o.b < 256 && o.c < 256 && o.d < 256
  }

  function Number(o: Octets): nat {
    ((o.a * 256 + o.b) * 256 + o.c) * 256 + o.d
  }

  function ParseOctets(s: string): Option<Octets> {
    var a := Cut(s, '.');
    var b := Cut(a.after, '.');
    var c := Cut(b.after, '.');
    if !a.found || !b.found || !c.found then None
    else
      match (ParseOctet(a.before), ParseOctet(b.before), ParseOctet(c.before), ParseOctet(c.after))
      case (Some(w), Some(x), Some(y), Some(z)) => Some(Octets(w, x, y, z))
      case _ => None
  }

  function ParseQuad(s: string): Option<nat> {
    match ParseOctets(s)
    case Some(o) => Some(Number(o))
    case None => None
  }

  datatype Prefix = Prefix(address: nat, bits: nat)

  function ParsePrefix(s: string): Option<Prefix> {
    var cut := Cut(s, '/');
    if !cut.found then None
    else
      match ParseQuad(cut.before)
      case None => None
      case Some(address) =>
        if Plain(cut.after) && Value(cut.after) <= 32 then Some(Prefix(address, Value(cut.after))) else None
  }

  /** resources.go:330-352; addresses that are not IPv4 do not parse here and are
      refused there. */
  predicate ValidIngress(subnet: string, gateway: string) {
    match (ParsePrefix(subnet), ParseQuad(gateway))
    case (Some(prefix), Some(address)) =>
      16 <= prefix.bits <= 28 &&
      (var block := Pow2(32 - prefix.bits);
       prefix.address % block == 0 && address / block == prefix.address / block && address != prefix.address)
    case _ => false
  }

  function Dotted(w: string, x: string, y: string, z: string): string {
    w + ['.'] + (x + ['.'] + (y + ['.'] + z))
  }

  function Quad(o: Octets): string {
    Dotted(Decimal(o.a), Decimal(o.b), Decimal(o.c), Decimal(o.d))
  }

  lemma DottedReads(w: string, x: string, y: string, z: string)
    requires '.' !in w && '.' !in x && '.' !in y
    requires ParseOctet(w).Some? && ParseOctet(x).Some? && ParseOctet(y).Some? && ParseOctet(z).Some?
    ensures ParseOctets(Dotted(w, x, y, z))
         == Some(Octets(ParseOctet(w).value, ParseOctet(x).value, ParseOctet(y).value, ParseOctet(z).value))
  {
    CutAt(w, '.', x + ['.'] + (y + ['.'] + z));
    CutAt(x, '.', y + ['.'] + z);
    CutAt(y, '.', z);
  }

  lemma DottedHasNoSlash(w: string, x: string, y: string, z: string)
    requires '/' !in w && '/' !in x && '/' !in y && '/' !in z
    ensures '/' !in Dotted(w, x, y, z)
  {
  }

  lemma OctetReadsBack(n: nat)
    requires n < 256
    ensures ParseOctet(Decimal(n)) == Some(n) && '.' !in Decimal(n) && '/' !in Decimal(n)
  {
    DecimalReadsBack(n);
  }

  /** Printing four octets and reading them back. */
  lemma QuadReadsBack(o: Octets)
    requires ValidOctets(o)
    ensures ParseOctets(Quad(o)) == Some(o) && '/' !in Quad(o)
  {
    OctetReadsBack(o.a);
    OctetReadsBack(o.b);
    OctetReadsBack(o.c);
    OctetReadsBack(o.d);
    DottedReads(Decimal(o.a), Decimal(o.b), Decimal(o.c), Decimal(o.d));
    DottedHasNoSlash(Decimal(o.a), Decimal(o.b), Decimal(o.c), Decimal(o.d));
  }

  /** Every string that reads as an address is one that was printed. */
  lemma QuadPrintsBack(s: string)
    requires ParseOctets(s).Some?
    ensures ValidOctets(ParseOctets(s).value) && s == Quad(ParseOctets(s).value)
  {
    var a := Cut(s, '.');
    var b := Cut(a.after, '.');
    var c := Cut(b.after, '.');
    PlainPrintsBack(a.before);
    PlainPrintsBack(b.before);
    PlainPrintsBack(c.before);
    PlainPrintsBack(c.after);
  }

  ghost predicate Routable(subnet: string, gateway: string, network: Octets, bits: nat, host: Octets) {
    && ValidOctets(network) && ValidOctets(host) && 16 <= bits <= 28
    && subnet == Quad(network) + ['/'] + Decimal(bits)
    && gateway == Quad(host)
    && Number(network) % Pow2(32 - bits) == 0
    && Number(network) < Number(host) < Number(network) + Pow2(32 - bits)
  }

  lemma SameBlockIff(network: nat, host: nat, block: nat)
    requires block >= 1 && network % block == 0
    ensures host / block == network / block && host != network <==> network < host < network + block
  {
    assert network == block * (network / block);
    assert host == block * (host / block) + host % block;
    if host / block < network / block {
      assert block * (host / block) <= block * (network / block - 1);
    }
    if host / block > network / block {
      assert block * (host / block) >= block * (network / block + 1);
    }
  }

  lemma IngressIsRoutable(subnet: string, gateway: string)
    requires ValidIngress(subnet, gateway)
    ensures
      var cut := Cut(subnet, '/');
      && ParseOctets(cut.before).Some? && ParseOctets(gateway).Some?
      && Routable(subnet, gateway, ParseOctets(cut.before).value, Value(cut.after), ParseOctets(gateway).value)
  {
    var cut := Cut(subnet, '/');
    var network, host := ParseOctets(cut.before).value, ParseOctets(gateway).value;
    QuadPrintsBack(cut.before);
    QuadPrintsBack(gateway);
    PlainPrintsBack(cut.after);
    SameBlockIff(Number(network), Number(host), Pow2(32 - Value(cut.after)));
  }

  lemma PrefixReads(text: string, network: Octets, word: string)
    requires ParseOctets(text) == Some(network) && '/' !in text && Plain(word) && Value(word) <= 32
    ensures ParsePrefix(text + ['/'] + word) == Some(Prefix(Number(network), Value(word)))
  {
    CutAt(text, '/', word);
  }

  lemma PrefixReadsBack(network: Octets, bits: nat)
    requires ValidOctets(network) && bits <= 32
    ensures ParsePrefix(Quad(network) + ['/'] + Decimal(bits)) == Some(Prefix(Number(network), bits))
  {
    QuadReadsBack(network);
    DecimalReadsBack(bits);
    PrefixReads(Quad(network), network, Decimal(bits));
  }

  lemma BlockIsIngress(subnet: string, gateway: string, network: nat, bits: nat, host: nat)
    requires ParsePrefix(subnet) == Some(Prefix(network, bits)) && ParseQuad(gateway) == Some(host)
    requires 16 <= bits <= 28 && network % Pow2(32 - bits) == 0 && network < host < network + Pow2(32 - bits)
    ensures ValidIngress(subnet, gateway)
  {
    SameBlockIff(network, host, Pow2(32 - bits));
  }

  lemma RoutableIsIngress(subnet: string, gateway: string, network: Octets, bits: nat, host: Octets)
    requires Routable(subnet, gateway, network, bits, host)
    ensures ValidIngress(subnet, gateway)
  {
    PrefixReadsBack(network, bits);
    QuadReadsBack(host);
    BlockIsIngress(subnet, gateway, Number(network), bits, Number(host));
  }

  /** The check accepts exactly the aligned IPv4 blocks from /16 to /28 with a
      gateway strictly above the network address and inside the block. */
  lemma ValidIngressIff(subnet: string, gateway: string)
    ensures ValidIngress(subnet, gateway) <==>
            exists network: Octets, bits: nat, host: Octets :: Routable(subnet, gateway, network, bits, host)
  {
    if ValidIngress(subnet, gateway) {
      IngressIsRoutable(subnet, gateway);
    }
    forall network: Octets, bits: nat, host: Octets | Routable(subnet, gateway, network, bits, host)
      ensures ValidIngress(subnet, gateway)
    {
      RoutableIsIngress(subnet, gateway, network, bits, host);
    }
  }
}
