/** A multisig wallet's descriptors: the same for every cosigner, whatever order it lists them in. */
module Descriptors {

  import opened Common
  import opened Strings

  datatype Cosigner = Cosigner(fingerprint: string, vanilla: string, colored: string, vanillaKeychain: Option<nat>)

  datatype Network = Mainnet | OtherNetwork

  /** An extended public key as it is printed, and the kind of network it is for. */
  datatype Xpub = Xpub(text: string, mainnet: bool)

  /** The Bitcoin library's parsers. */
  datatype Parsers = Parsers(fingerprint: string -> bool, xpub: string -> Option<Xpub>)

  datatype Error =
    | NoCosignersSupplied
    | TooManyCosigners
    | InvalidMultisigThreshold(required: nat, total: nat)
    | InvalidCosigner

  datatype WalletDescriptors = WalletDescriptors(colored: string, vanilla: string)

  const PURPOSE: nat := 86
  const ACCOUNT: nat := 0
  const KEYCHAIN_RGB: nat := 0
  const KEYCHAIN_BTC: nat := 0
  const COIN_RGB_MAINNET: nat := 827166
  const COIN_RGB_TESTNET: nat := 827167
  const NUMS_TPUB_TESTNET := "tpubD6NzVbkrYhZ4WLczPJWReQycCJdd6YVWXubbVUFnJ5KgU5MDQrD998ZJLSmaB7GVcCnJSDWprxmrGkJ6SvgQC6QAffVpqSvonXmeizXcrkN"
  const NUMS_XPUB_MAINNET := "xpub661MyMwAqRbcEYS8w7XLSVeEsBXy79zSzH1J8vCdxAZningWLdN3zgtU6QgnecKFpJFPpdzxKrwoaZoV44qAJewsc4kX9vGaCaBExuvJH57"

  function CoinType(network: Network, rgb: bool): nat
  {
    if rgb then (if network.Mainnet? then COIN_RGB_MAINNET else COIN_RGB_TESTNET)
    else (if network.Mainnet? then 0 else 1)
  }

  function Keychain(c: Cosigner): nat
  {
    if c.vanillaKeychain.Some? then c.vanillaKeychain.value else KEYCHAIN_BTC
  }

  /** The key expression of one cosigner, or nothing when its fields are not usable on the network. */
  function KeyFor(p: Parsers, network: Network, rgb: bool, c: Cosigner): Option<string>
  {
    var xpub := p.xpub(if rgb then c.colored else c.vanilla);
    if !p.fingerprint(c.fingerprint) || xpub.None? || xpub.value.mainnet != network.Mainnet? then None
    else
      var origin := "[" + c.fingerprint + "/" + Decimal(PURPOSE) + "'/" + Decimal(CoinType(network, rgb)) + "'/"
                    + Decimal(ACCOUNT) + "']";
      var path := "/" + Decimal(if rgb then KEYCHAIN_RGB else Keychain(c)) + "/*";
      Some(origin + xpub.value.text + path)
  }

  predicate Usable(p: Parsers, network: Network, c: Cosigner)
  {
    KeyFor(p, network, true, c).Some? && KeyFor(p, network, false, c).Some?
  }

  /** The key of a usable cosigner. */
  function KeyOf(p: Parsers, network: Network, rgb: bool, c: Cosigner): string
  {
    var key := KeyFor(p, network, rgb, c);
    if key.Some? then key.value else ""
  }

  function KeysFor(p: Parsers, network: Network, rgb: bool, cosigners: seq<Cosigner>): seq<string>
  {
    if cosigners == [] then []
    else
      var k := |cosigners| - 1;
      KeysFor(p, network, rgb, cosigners[..k]) + [KeyOf(p, network, rgb, cosigners[k])]
  }

  lemma OneMoreKey(p: Parsers, network: Network, rgb: bool, cosigners: seq<Cosigner>, i: nat)
    requires i < |cosigners|
    ensures KeysFor(p, network, rgb, cosigners[..i + 1])
      == KeysFor(p, network, rgb, cosigners[..i]) + [KeyOf(p, network, rgb, cosigners[i])]
  {
    assert cosigners[..i + 1][..i] == cosigners[..i];
  }

  function Prefix(network: Network): string
  {
    "tr(" + (if network.Mainnet? then NUMS_XPUB_MAINNET else NUMS_TPUB_TESTNET) + "/0/*,multi_a("
  }

  function Descriptor(network: Network, threshold: nat, keys: seq<string>): string
  {
    Prefix(network) + Decimal(threshold) + "," + Join(Sort(keys), ',') + "))"
  }

  predicate ThresholdOk(threshold: nat, total: nat)
  {
    1 <= threshold <= total
  }

  /** The keys of one wallet: its cosigners and thresholds, all 8-bit. */
  datatype MultisigKeys = MultisigKeys(cosigners: seq<Cosigner>, colored: nat, vanilla: nat)

  ghost predicate Accepted(p: Parsers, network: Network, k: MultisigKeys)
  {
    && 1 <= |k.cosigners| <= 255
    && ThresholdOk(k.colored, |k.cosigners|) && ThresholdOk(k.vanilla, |k.cosigners|)
    && forall c | c in k.cosigners :: Usable(p, network, c)
  }

  /** What a successful build returns. */
  ghost function Built(p: Parsers, network: Network, k: MultisigKeys): WalletDescriptors
    requires Accepted(p, network, k)
  {
    WalletDescriptors(
      Descriptor(network, k.colored, KeysFor(p, network, true, k.cosigners)),
      Descriptor(network, k.vanilla, KeysFor(p, network, false, k.cosigners)))
  }

  /** Both keys of a cosigner, if both are usable. */
  method KeyPair(p: Parsers, network: Network, c: Cosigner) returns (r: Option<(string, string)>)
    ensures r.Some? <==> Usable(p, network, c)
    ensures r.Some? ==> r.value == (KeyOf(p, network, true, c), KeyOf(p, network, false, c))
  {
    var colored := KeyFor(p, network, true, c);
    if colored.None? {
      return None;
    }
    var vanilla := KeyFor(p, network, false, c);
    if vanilla.None? {
      return None;
    }
    r := Some((colored.value, vanilla.value));
  }

  /** All keys, or nothing as soon as one cosigner is not usable. */
  method GatherKeys(p: Parsers, network: Network, cosigners: seq<Cosigner>) returns (r: Option<(seq<string>, seq<string>)>)
    ensures r.Some? <==> forall c | c in cosigners :: Usable(p, network, c)
    ensures r.Some? ==> r.value == (KeysFor(p, network, true, cosigners), KeysFor(p, network, false, cosigners))
  {
    var coloredKeys: seq<string> := [];
    var vanillaKeys: seq<string> := [];
    for i := 0 to |cosigners|
      invariant forall m | 0 <= m < i :: Usable(p, network, cosigners[m])
      invariant coloredKeys == KeysFor(p, network, true, cosigners[..i])
      invariant vanillaKeys == KeysFor(p, network, false, cosigners[..i])
    {
      var keys := KeyPair(p, network, cosigners[i]);
      if keys.None? {
        return None;
      }
      OneMoreKey(p, network, true, cosigners, i);
      OneMoreKey(p, network, false, cosigners, i);
      coloredKeys := coloredKeys + [keys.value.0];
      vanillaKeys := vanillaKeys + [keys.value.1];
    }
    assert cosigners[..|cosigners|] == cosigners;
    r := Some((coloredKeys, vanillaKeys));
  }

  /** Gather the cosigners' keys, sort them, and put them into the two descriptors. */
  method BuildDescriptors(p: Parsers, network: Network, k: MultisigKeys) returns (r: Result<WalletDescriptors, Error>)
    ensures r.Success? <==> Accepted(p, network, k)
    ensures r.Success? ==> r.value == Built(p, network, k)
    ensures k.cosigners == [] ==> r == Failure(NoCosignersSupplied)
    ensures |k.cosigners| > 255 ==> r == Failure(TooManyCosigners)
  {
    if k.cosigners == [] {
      return Failure(NoCosignersSupplied);
    }
    var total := |k.cosigners|;
    if total > 255 {
      return Failure(TooManyCosigners);
    }
    if !ThresholdOk(k.colored, total) {
      return Failure(InvalidMultisigThreshold(k.colored, total));
    }
    if !ThresholdOk(k.vanilla, total) {
      return Failure(InvalidMultisigThreshold(k.vanilla, total));
    }
    var gathered := GatherKeys(p, network, k.cosigners);
    if gathered.None? {
      return Failure(InvalidCosigner);
    }
    var (coloredKeys, vanillaKeys) := gathered.value;
    r := Success(WalletDescriptors(Descriptor(network, k.colored, coloredKeys),
                                   Descriptor(network, k.vanilla, vanillaKeys)));
  }

  // ---------------------------------------------------------------- canonical

  function Yields(p: Parsers, network: Network, rgb: bool, key: string): Cosigner -> int
  {
    (c: Cosigner) => if KeyOf(p, network, rgb, c) == key then 1 else 0
  }

  lemma {:induction false} KeyCount(p: Parsers, network: Network, rgb: bool, cosigners: seq<Cosigner>, key: string)
    ensures multiset(KeysFor(p, network, rgb, cosigners))[key] == Sum(cosigners, Yields(p, network, rgb, key))
  {
    if cosigners != [] {
      KeyCount(p, network, rgb, cosigners[..|cosigners| - 1], key);
    }
  }

  lemma KeysOfPermutation(p: Parsers, network: Network, rgb: bool, a: seq<Cosigner>, b: seq<Cosigner>)
    requires multiset(a) == multiset(b)
    ensures multiset(KeysFor(p, network, rgb, a)) == multiset(KeysFor(p, network, rgb, b))
  {
    forall key
      ensures multiset(KeysFor(p, network, rgb, a))[key] == multiset(KeysFor(p, network, rgb, b))[key]
    {
      KeyCount(p, network, rgb, a, key);
      KeyCount(p, network, rgb, b, key);
      SumPermutation(a, b, Yields(p, network, rgb, key));
    }
  }

  /** Listing the cosigners in another order changes neither whether building succeeds nor its result. */
  lemma DescriptorsCanonical(p: Parsers, network: Network, k: MultisigKeys, cosigners: seq<Cosigner>)
    requires multiset(cosigners) == multiset(k.cosigners)
    ensures Accepted(p, network, k) <==> Accepted(p, network, k.(cosigners := cosigners))
    ensures Accepted(p, network, k) ==> Built(p, network, k) == Built(p, network, k.(cosigners := cosigners))
  {
    assert |cosigners| == |multiset(cosigners)| == |k.cosigners|;
    assert forall c :: c in cosigners <==> c in multiset(cosigners);
    assert forall c :: c in k.cosigners <==> c in multiset(k.cosigners);
    if Accepted(p, network, k) {
      KeysOfPermutation(p, network, true, cosigners, k.cosigners);
      KeysOfPermutation(p, network, false, cosigners, k.cosigners);
      SortCanonical(KeysFor(p, network, true, cosigners), KeysFor(p, network, true, k.cosigners));
      SortCanonical(KeysFor(p, network, false, cosigners), KeysFor(p, network, false, k.cosigners));
    }
  }

  /** Two descriptors for one network are equal only if threshold and keys are: nothing else is lost. */
  lemma DescriptorDetermines(network: Network, s: nat, t: nat, a: seq<string>, b: seq<string>)
    requires a != [] && b != [] && forall key | key in a + b :: ',' !in key
    ensures Descriptor(network, s, a) == Descriptor(network, t, b) <==> s == t && multiset(a) == multiset(b)
  {
    SortCanonical(a, b);
    if Descriptor(network, s, a) == Descriptor(network, t, b) {
      Recovered(network, s, a);
      Recovered(network, t, b);
    }
  }

  /** Threshold and sorted keys can be read off a descriptor. */
  lemma Recovered(network: Network, t: nat, keys: seq<string>)
    requires keys != [] && forall key | key in keys :: ',' !in key
    ensures var d := Descriptor(network, t, keys);
      && |d| >= |Prefix(network)| + 2
      && var parts := Split(Inner(d, network), ',');
      && |parts| == |keys| + 1 && parts[0] == Decimal(t) && Value(Decimal(t)) == t && parts[1..] == Sort(keys)
  {
    SortMembers(keys);
    InnerOf(network, t, keys);
    Parted(t, Sort(keys));
    DecimalValue(t);
  }

  function Inner(descriptor: string, network: Network): string
    requires |descriptor| >= |Prefix(network)| + 2
  {
    descriptor[|Prefix(network)|..|descriptor| - 2]
  }

  lemma InnerOf(network: Network, t: nat, keys: seq<string>)
    ensures |Descriptor(network, t, keys)| >= |Prefix(network)| + 2
    ensures Inner(Descriptor(network, t, keys), network) == Decimal(t) + "," + Join(Sort(keys), ',')
  {
    var inner := Decimal(t) + "," + Join(Sort(keys), ',');
    assert Descriptor(network, t, keys) == Prefix(network) + inner + "))";
  }

  lemma Parted(t: nat, keys: seq<string>)
    requires keys != [] && forall key | key in keys :: ',' !in key
    ensures Split(Decimal(t) + "," + Join(keys, ','), ',') == [Decimal(t)] + keys
  {
    var parts := [Decimal(t)] + keys;
    assert parts[1..] == keys;
    assert Join(parts, ',') == Decimal(t) + "," + Join(keys, ',');
    SplitJoin(parts, ',');
  }

  // ---------------------------------------------------------------- printing and parsing a cosigner

  function Show(c: Cosigner): string
  {
    Join([c.fingerprint, c.vanilla, c.colored, Decimal(Keychain(c))], ':')
  }

  function Parse(p: Parsers, s: string): Option<Cosigner>
  {
    var parts := Split(s, ':');
    if |parts| != 4 then None
    else
      var keychain := ParseU8(parts[3]);
      if !p.fingerprint(parts[0]) || p.xpub(parts[1]).None? || p.xpub(parts[2]).None? || keychain.None? then None
      else Some(Cosigner(parts[0], parts[1], parts[2], keychain))
  }

  /** A printed cosigner parses back, its default keychain made explicit, exactly when its fields are valid. */
  lemma ParseShown(p: Parsers, c: Cosigner)
    requires forall field | field in [c.fingerprint, c.vanilla, c.colored] :: ':' !in field
    ensures Parse(p, Show(c)) ==
      if p.fingerprint(c.fingerprint) && p.xpub(c.vanilla).Some? && p.xpub(c.colored).Some? && Keychain(c) <= 255
      then Some(c.(vanillaKeychain := Some(Keychain(c)))) else None
  {
    var parts := [c.fingerprint, c.vanilla, c.colored, Decimal(Keychain(c))];
    forall part | part in parts
      ensures ':' !in part
    {
      if part == parts[3] {
        assert forall x | x in part :: IsDigit(x);
      } else {
        assert part in [c.fingerprint, c.vanilla, c.colored];
      }
    }
    SplitJoin(parts, ':');
    ParseDecimal(Keychain(c));
  }
}
