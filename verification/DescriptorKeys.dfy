/** What the keys of a multisig descriptor are made of, and what its two descriptors tell about a wallet. */
module DescriptorKeys {

  import opened Common
  import opened Strings
  import opened Descriptors

  /** A cosigner's fields as the formats need them: none holds a character that separates fields. */
  ghost predicate Plain(p: Parsers, c: Cosigner)
  {
    && '/' !in c.fingerprint && ',' !in c.fingerprint
    && (p.xpub(c.colored).Some? ==> '/' !in p.xpub(c.colored).value.text && ',' !in p.xpub(c.colored).value.text)
    && (p.xpub(c.vanilla).Some? ==> '/' !in p.xpub(c.vanilla).value.text && ',' !in p.xpub(c.vanilla).value.text)
  }

  /** Usable: the fingerprint is valid, and both extended keys are and belong to the network. */
  lemma UsableIff(p: Parsers, network: Network, c: Cosigner)
    ensures Usable(p, network, c) <==>
      && p.fingerprint(c.fingerprint)
      && p.xpub(c.colored).Some? && (p.xpub(c.colored).value.mainnet <==> network.Mainnet?)
      && p.xpub(c.vanilla).Some? && (p.xpub(c.vanilla).value.mainnet <==> network.Mainnet?)
  {
  }

  /** A wallet is accepted with 1 to 255 usable cosigners and two thresholds between 1 and their number. */
  lemma AcceptedIff(p: Parsers, network: Network, k: MultisigKeys)
    ensures Accepted(p, network, k) <==>
      && 1 <= |k.cosigners| <= 255
      && 1 <= k.colored <= |k.cosigners| && 1 <= k.vanilla <= |k.cosigners|
      && forall c | c in k.cosigners ::
           && p.fingerprint(c.fingerprint)
           && p.xpub(c.colored).Some? && (p.xpub(c.colored).value.mainnet <==> network.Mainnet?)
           && p.xpub(c.vanilla).Some? && (p.xpub(c.vanilla).value.mainnet <==> network.Mainnet?)
  {
    forall c | c in k.cosigners
      ensures Usable(p, network, c) <==>
        && p.fingerprint(c.fingerprint)
        && p.xpub(c.colored).Some? && (p.xpub(c.colored).value.mainnet <==> network.Mainnet?)
        && p.xpub(c.vanilla).Some? && (p.xpub(c.vanilla).value.mainnet <==> network.Mainnet?)
    {
      UsableIff(p, network, c);
    }
  }

  // ---------------------------------------------------------------- the parts of a key

  /** Between its slashes, a key of the colored wallet: fingerprint, path of the account, colored key, keychain. */
  lemma ColoredKeyParts(p: Parsers, network: Network, c: Cosigner)
    requires Usable(p, network, c) && Plain(p, c)
    ensures Split(KeyOf(p, network, true, c), '/') ==
      ["[" + c.fingerprint, Decimal(86) + "'", Decimal(if network.Mainnet? then 827166 else 827167) + "'",
       Decimal(0) + "']" + p.xpub(c.colored).value.text, Decimal(0), "*"]
  {
    KeyIsJoined(c.fingerprint, 86, if network.Mainnet? then 827166 else 827167, 0,
                p.xpub(c.colored).value.text, 0);
  }

  /** A key of the vanilla wallet: the Bitcoin coin, the vanilla key, and the cosigner's own keychain if it has one. */
  lemma VanillaKeyParts(p: Parsers, network: Network, c: Cosigner)
    requires Usable(p, network, c) && Plain(p, c)
    ensures Split(KeyOf(p, network, false, c), '/') ==
      ["[" + c.fingerprint, Decimal(86) + "'", Decimal(if network.Mainnet? then 0 else 1) + "'",
       Decimal(0) + "']" + p.xpub(c.vanilla).value.text,
       Decimal(if c.vanillaKeychain.Some? then c.vanillaKeychain.value else 0), "*"]
  {
    KeyIsJoined(c.fingerprint, 86, if network.Mainnet? then 0 else 1, 0, p.xpub(c.vanilla).value.text,
                if c.vanillaKeychain.Some? then c.vanillaKeychain.value else 0);
  }

  function Parts(fingerprint: string, purpose: nat, coin: nat, account: nat, text: string, keychain: nat): seq<string>
  {
    ["[" + fingerprint, Decimal(purpose) + "'", Decimal(coin) + "'", Decimal(account) + "']" + text,
     Decimal(keychain), "*"]
  }

  function Text(fingerprint: string, purpose: nat, coin: nat, account: nat, text: string, keychain: nat): string
  {
    "[" + fingerprint + "/" + Decimal(purpose) + "'/" + Decimal(coin) + "'/" + Decimal(account) + "']"
    + text + ("/" + Decimal(keychain) + "/*")
  }

  lemma NoSeparator(n: nat)
    ensures '/' !in Decimal(n) && ',' !in Decimal(n)
  {
    assert !IsDigit('/') && !IsDigit(',');
  }

  lemma JoinSix(a: string, b: string, c: string, d: string, e: string, f: string)
    ensures Join([a, b, c, d, e, f], '/') == a + "/" + b + "/" + c + "/" + d + "/" + e + "/" + f
  {
    var s := [a, b, c, d, e, f];
    assert s[1..] == [b, c, d, e, f] && s[1..][1..] == [c, d, e, f] && s[1..][1..][1..] == [d, e, f];
    assert [d, e, f][1..] == [e, f] && [e, f][1..] == [f];
    assert Join([e, f], '/') == e + "/" + f;
    assert Join([d, e, f], '/') == d + "/" + (e + "/" + f);
    assert Join([c, d, e, f], '/') == c + "/" + (d + "/" + (e + "/" + f));
    assert Join([b, c, d, e, f], '/') == b + "/" + (c + "/" + (d + "/" + (e + "/" + f)));
  }

  lemma TextIsJoined(fingerprint: string, purpose: nat, coin: nat, account: nat, text: string, keychain: nat)
    ensures Text(fingerprint, purpose, coin, account, text, keychain)
         == Join(Parts(fingerprint, purpose, coin, account, text, keychain), '/')
  {
    JoinSix("[" + fingerprint, Decimal(purpose) + "'", Decimal(coin) + "'", Decimal(account) + "']" + text,
            Decimal(keychain), "*");
    assert "'/" == "'" + "/" && "/*" == "/" + "*";
  }

  lemma KeyIsJoined(fingerprint: string, purpose: nat, coin: nat, account: nat, text: string, keychain: nat)
    requires '/' !in fingerprint && '/' !in text
    ensures Split(Text(fingerprint, purpose, coin, account, text, keychain), '/')
         == Parts(fingerprint, purpose, coin, account, text, keychain)
  {
    var parts := Parts(fingerprint, purpose, coin, account, text, keychain);
    TextIsJoined(fingerprint, purpose, coin, account, text, keychain);
    NoSeparator(purpose);
    NoSeparator(coin);
    NoSeparator(account);
    NoSeparator(keychain);
    forall part | part in parts
      ensures '/' !in part
    {
      var i :| 0 <= i < 6 && parts[i] == part;
    }
    SplitJoin(parts, '/');
  }

  // ---------------------------------------------------------------- what a descriptor depends on, and tells

  /** What one wallet's key takes from a cosigner: its fingerprint, the extended key of that wallet, its keychain. */
  datatype Origin = Origin(fingerprint: string, text: string, keychain: nat)

  function OriginOf(p: Parsers, rgb: bool, c: Cosigner): Origin
  {
    var xpub := p.xpub(if rgb then c.colored else c.vanilla);
    Origin(c.fingerprint, if xpub.Some? then xpub.value.text else "",
           if rgb then 0 else if c.vanillaKeychain.Some? then c.vanillaKeychain.value else 0)
  }

  function Origins(p: Parsers, rgb: bool, cosigners: seq<Cosigner>): seq<Origin>
  {
    seq(|cosigners|, i requires 0 <= i < |cosigners| => OriginOf(p, rgb, cosigners[i]))
  }

  ghost predicate AllPlain(p: Parsers, cosigners: seq<Cosigner>)
  {
    forall c | c in cosigners :: Plain(p, c)
  }

  /** Keys tell their origins apart. */
  lemma KeyTellsOrigin(p: Parsers, network: Network, rgb: bool, a: Cosigner, b: Cosigner)
    requires Usable(p, network, a) && Plain(p, a) && Usable(p, network, b) && Plain(p, b)
    ensures KeyOf(p, network, rgb, a) == KeyOf(p, network, rgb, b) <==> OriginOf(p, rgb, a) == OriginOf(p, rgb, b)
  {
    if KeyOf(p, network, rgb, a) == KeyOf(p, network, rgb, b) {
      if rgb {
        ColoredKeyParts(p, network, a);
        ColoredKeyParts(p, network, b);
      } else {
        VanillaKeyParts(p, network, a);
        VanillaKeyParts(p, network, b);
      }
      var s, t := Split(KeyOf(p, network, rgb, a), '/'), Split(KeyOf(p, network, rgb, b), '/');
      assert s[0] == t[0] && s[3] == t[3] && s[4] == t[4];
      SameTail("[", OriginOf(p, rgb, a).fingerprint, OriginOf(p, rgb, b).fingerprint);
      SameTail(Decimal(0) + "']", OriginOf(p, rgb, a).text, OriginOf(p, rgb, b).text);
      DecimalValue(OriginOf(p, rgb, a).keychain);
      DecimalValue(OriginOf(p, rgb, b).keychain);
    }
  }

  lemma SameTail(front: string, s: string, t: string)
    requires front + s == front + t
    ensures s == t
  {
    assert (front + s)[|front|..] == s && (front + t)[|front|..] == t;
  }

  function IsOrigin(p: Parsers, rgb: bool, o: Origin): Cosigner -> int
  {
    (c: Cosigner) => if OriginOf(p, rgb, c) == o then 1 else 0
  }

  lemma {:induction false} OriginCount(p: Parsers, rgb: bool, cosigners: seq<Cosigner>, o: Origin)
    ensures multiset(Origins(p, rgb, cosigners))[o] == Sum(cosigners, IsOrigin(p, rgb, o))
  {
    if cosigners != [] {
      var k := |cosigners| - 1;
      OriginCount(p, rgb, cosigners[..k], o);
      assert Origins(p, rgb, cosigners) == Origins(p, rgb, cosigners[..k]) + [OriginOf(p, rgb, cosigners[k])];
    }
  }

  /** A key occurs as often as its origin. */
  lemma KeyAsOrigin(p: Parsers, network: Network, rgb: bool, cosigners: seq<Cosigner>, c: Cosigner)
    requires (forall x | x in cosigners + [c] :: Usable(p, network, x)) && AllPlain(p, cosigners + [c])
    ensures multiset(KeysFor(p, network, rgb, cosigners))[KeyOf(p, network, rgb, c)]
         == multiset(Origins(p, rgb, cosigners))[OriginOf(p, rgb, c)]
  {
    var key, o := KeyOf(p, network, rgb, c), OriginOf(p, rgb, c);
    KeyCount(p, network, rgb, cosigners, key);
    OriginCount(p, rgb, cosigners, o);
    assert c in cosigners + [c];
    forall x | x in cosigners
      ensures Yields(p, network, rgb, key)(x) == IsOrigin(p, rgb, o)(x)
    {
      assert x in cosigners + [c];
      KeyTellsOrigin(p, network, rgb, x, c);
    }
    SumAgree(cosigners, Yields(p, network, rgb, key), IsOrigin(p, rgb, o));
  }

  lemma {:induction false} KeyMember(p: Parsers, network: Network, rgb: bool, cosigners: seq<Cosigner>, key: string)
    requires key in KeysFor(p, network, rgb, cosigners)
    ensures exists c :: c in cosigners && KeyOf(p, network, rgb, c) == key
  {
    var k := |cosigners| - 1;
    if key == KeyOf(p, network, rgb, cosigners[k]) {
      assert cosigners[k] in cosigners;
    } else {
      KeyMember(p, network, rgb, cosigners[..k], key);
    }
  }

  /** In both lists every cosigner's key occurs as often as its origin. */
  lemma CountsAgree(p: Parsers, network: Network, rgb: bool, a: seq<Cosigner>, b: seq<Cosigner>, c: Cosigner)
    requires (forall x | x in a + b :: Usable(p, network, x)) && AllPlain(p, a + b) && c in a + b
    ensures multiset(KeysFor(p, network, rgb, a))[KeyOf(p, network, rgb, c)]
         == multiset(Origins(p, rgb, a))[OriginOf(p, rgb, c)]
    ensures multiset(KeysFor(p, network, rgb, b))[KeyOf(p, network, rgb, c)]
         == multiset(Origins(p, rgb, b))[OriginOf(p, rgb, c)]
  {
    assert (forall x | x in a + [c] :: x in a + b) && (forall x | x in b + [c] :: x in a + b);
    KeyAsOrigin(p, network, rgb, a, c);
    KeyAsOrigin(p, network, rgb, b, c);
  }

  lemma SameKeysSameOrigins(p: Parsers, network: Network, rgb: bool, a: seq<Cosigner>, b: seq<Cosigner>)
    requires (forall x | x in a + b :: Usable(p, network, x)) && AllPlain(p, a + b)
    requires multiset(KeysFor(p, network, rgb, a)) == multiset(KeysFor(p, network, rgb, b))
    ensures multiset(Origins(p, rgb, a)) == multiset(Origins(p, rgb, b))
  {
    forall o
      ensures multiset(Origins(p, rgb, a))[o] == multiset(Origins(p, rgb, b))[o]
    {
      OriginAmong(p, rgb, a, b, o);
      if c :| c in a + b && OriginOf(p, rgb, c) == o {
        CountsAgree(p, network, rgb, a, b, c);
      }
    }
  }

  lemma SameOriginsSameKeys(p: Parsers, network: Network, rgb: bool, a: seq<Cosigner>, b: seq<Cosigner>)
    requires (forall x | x in a + b :: Usable(p, network, x)) && AllPlain(p, a + b)
    requires multiset(Origins(p, rgb, a)) == multiset(Origins(p, rgb, b))
    ensures multiset(KeysFor(p, network, rgb, a)) == multiset(KeysFor(p, network, rgb, b))
  {
    forall key
      ensures multiset(KeysFor(p, network, rgb, a))[key] == multiset(KeysFor(p, network, rgb, b))[key]
    {
      KeyAmong(p, network, rgb, a, b, key);
      if c :| c in a + b && KeyOf(p, network, rgb, c) == key {
        CountsAgree(p, network, rgb, a, b, c);
      }
    }
  }

  /** What two lists of cosigners must agree on for their keys to be the same. */
  lemma SameKeysIff(p: Parsers, network: Network, rgb: bool, a: seq<Cosigner>, b: seq<Cosigner>)
    requires (forall x | x in a + b :: Usable(p, network, x)) && AllPlain(p, a + b)
    ensures multiset(KeysFor(p, network, rgb, a)) == multiset(KeysFor(p, network, rgb, b))
      <==> multiset(Origins(p, rgb, a)) == multiset(Origins(p, rgb, b))
  {
    if multiset(KeysFor(p, network, rgb, a)) == multiset(KeysFor(p, network, rgb, b)) {
      SameKeysSameOrigins(p, network, rgb, a, b);
    }
    if multiset(Origins(p, rgb, a)) == multiset(Origins(p, rgb, b)) {
      SameOriginsSameKeys(p, network, rgb, a, b);
    }
  }

  lemma OriginAmong(p: Parsers, rgb: bool, a: seq<Cosigner>, b: seq<Cosigner>, o: Origin)
    ensures (exists c :: c in a + b && OriginOf(p, rgb, c) == o) ||
            (multiset(Origins(p, rgb, a))[o] == 0 && multiset(Origins(p, rgb, b))[o] == 0)
  {
    if o in Origins(p, rgb, a) {
      var i :| 0 <= i < |a| && Origins(p, rgb, a)[i] == o;
      assert a[i] in a + b;
    } else if o in Origins(p, rgb, b) {
      var i :| 0 <= i < |b| && Origins(p, rgb, b)[i] == o;
      assert b[i] in a + b;
    }
  }

  lemma KeyAmong(p: Parsers, network: Network, rgb: bool, a: seq<Cosigner>, b: seq<Cosigner>, key: string)
    ensures (exists c :: c in a + b && KeyOf(p, network, rgb, c) == key) ||
            (multiset(KeysFor(p, network, rgb, a))[key] == 0 && multiset(KeysFor(p, network, rgb, b))[key] == 0)
  {
    if key in KeysFor(p, network, rgb, a) {
      KeyMember(p, network, rgb, a, key);
    } else if key in KeysFor(p, network, rgb, b) {
      KeyMember(p, network, rgb, b, key);
    }
  }

  lemma {:induction false} KeysWithoutComma(p: Parsers, network: Network, rgb: bool, cosigners: seq<Cosigner>)
    requires (forall x | x in cosigners :: Usable(p, network, x)) && AllPlain(p, cosigners)
    ensures |KeysFor(p, network, rgb, cosigners)| == |cosigners|
    ensures forall key | key in KeysFor(p, network, rgb, cosigners) :: ',' !in key
  {
    if cosigners != [] {
      var k := |cosigners| - 1;
      KeysWithoutComma(p, network, rgb, cosigners[..k]);
      assert cosigners[k] in cosigners;
      KeyWithoutComma(p, network, rgb, cosigners[k]);
    }
  }

  lemma KeyWithoutComma(p: Parsers, network: Network, rgb: bool, c: Cosigner)
    requires Usable(p, network, c) && Plain(p, c)
    ensures ',' !in KeyOf(p, network, rgb, c)
  {
    var o := OriginOf(p, rgb, c);
    NoSeparator(86);
    NoSeparator(CoinType(network, rgb));
    NoSeparator(0);
    NoSeparator(o.keychain);
    assert KeyOf(p, network, rgb, c) == Text(o.fingerprint, 86, CoinType(network, rgb), 0, o.text, o.keychain);
  }

  /**
   * Two wallets have the same colored (vanilla) descriptor exactly when they have the same threshold and
   * their cosigners the same fingerprints and colored (vanilla) extended keys, as often: nothing of the other
   * wallet's keys enters, and nothing of their own is lost.
   */
  lemma SameDescriptorIff(p: Parsers, network: Network, rgb: bool, k: MultisigKeys, m: MultisigKeys)
    requires Accepted(p, network, k) && AllPlain(p, k.cosigners)
    requires Accepted(p, network, m) && AllPlain(p, m.cosigners)
    ensures var a, b := Built(p, network, k), Built(p, network, m);
      && (rgb ==> (a.colored == b.colored <==>
            && k.colored == m.colored
            && multiset(Origins(p, true, k.cosigners)) == multiset(Origins(p, true, m.cosigners))))
      && (!rgb ==> (a.vanilla == b.vanilla <==>
            && k.vanilla == m.vanilla
            && multiset(Origins(p, false, k.cosigners)) == multiset(Origins(p, false, m.cosigners))))
  {
    var ka, kb := KeysFor(p, network, rgb, k.cosigners), KeysFor(p, network, rgb, m.cosigners);
    KeysWithoutComma(p, network, rgb, k.cosigners);
    KeysWithoutComma(p, network, rgb, m.cosigners);
    SameKeysIff(p, network, rgb, k.cosigners, m.cosigners);
    DescriptorDetermines(network, if rgb then k.colored else k.vanilla, if rgb then m.colored else m.vanilla, ka, kb);
  }

  /** Another usable vanilla key leaves the colored descriptor as it is, and the other way round. */
  lemma OtherKeysDoNotMatter(p: Parsers, network: Network, k: MultisigKeys, i: nat, xpub: string, keychain: Option<nat>)
    requires i < |k.cosigners| && Accepted(p, network, k) && AllPlain(p, k.cosigners)
    ensures var m := k.(cosigners := k.cosigners[i := k.cosigners[i].(vanilla := xpub, vanillaKeychain := keychain)]);
      Accepted(p, network, m) && AllPlain(p, m.cosigners) ==>
        Built(p, network, m).colored == Built(p, network, k).colored
    ensures var m := k.(cosigners := k.cosigners[i := k.cosigners[i].(colored := xpub)]);
      Accepted(p, network, m) && AllPlain(p, m.cosigners) ==>
        Built(p, network, m).vanilla == Built(p, network, k).vanilla
  {
    var m := k.(cosigners := k.cosigners[i := k.cosigners[i].(vanilla := xpub, vanillaKeychain := keychain)]);
    if Accepted(p, network, m) && AllPlain(p, m.cosigners) {
      assert Origins(p, true, m.cosigners) == Origins(p, true, k.cosigners);
      SameDescriptorIff(p, network, true, k, m);
    }
    var n := k.(cosigners := k.cosigners[i := k.cosigners[i].(colored := xpub)]);
    if Accepted(p, network, n) && AllPlain(p, n.cosigners) {
      assert Origins(p, false, n.cosigners) == Origins(p, false, k.cosigners);
      SameDescriptorIff(p, network, false, k, n);
    }
  }

  /** A colored key that prints differently gives another colored descriptor. */
  lemma OwnKeysMatter(p: Parsers, network: Network, k: MultisigKeys, i: nat, xpub: string)
    requires i < |k.cosigners| && Accepted(p, network, k) && AllPlain(p, k.cosigners)
    requires p.xpub(xpub).Some? && p.xpub(xpub).value.text != OriginOf(p, true, k.cosigners[i]).text
    ensures var m := k.(cosigners := k.cosigners[i := k.cosigners[i].(colored := xpub)]);
      Accepted(p, network, m) && AllPlain(p, m.cosigners) ==>
        Built(p, network, m).colored != Built(p, network, k).colored
  {
    var m := k.(cosigners := k.cosigners[i := k.cosigners[i].(colored := xpub)]);
    if Accepted(p, network, m) && AllPlain(p, m.cosigners) {
      var old_, new_ := Origins(p, true, k.cosigners), Origins(p, true, m.cosigners);
      assert new_ == old_[i := OriginOf(p, true, m.cosigners[i])];
      assert new_[i].text == p.xpub(xpub).value.text;
      ReplacedCount(old_, i, new_[i]);
      SameDescriptorIff(p, network, true, k, m);
    }
  }

  lemma ReplacedCount<T>(xs: seq<T>, i: nat, x: T)
    requires i < |xs| && x != xs[i]
    ensures multiset(xs[i := x]) != multiset(xs)
  {
    assert multiset(xs[i := x])[x] == multiset(xs)[x] + 1;
  }

  /** A descriptor names the internal key, the threshold and the keys, these in ascending order. */
  ghost predicate Reads(text: string, internal: string, threshold: nat, keys: seq<string>)
  {
    && Sorted(keys)
    && text == "tr(" + internal + "/0/*,multi_a(" + Decimal(threshold) + "," + Join(keys, ',') + "))"
  }

  /** The internal key is the network's unspendable one, and each wallet has its own threshold and keys. */
  lemma DescriptorReads(p: Parsers, network: Network, k: MultisigKeys)
    requires Accepted(p, network, k)
    ensures var internal := if network.Mainnet? then NUMS_XPUB_MAINNET else NUMS_TPUB_TESTNET;
      && (exists keys :: Reads(Built(p, network, k).colored, internal, k.colored, keys)
                         && multiset(keys) == multiset(KeysFor(p, network, true, k.cosigners)))
      && (exists keys :: Reads(Built(p, network, k).vanilla, internal, k.vanilla, keys)
                         && multiset(keys) == multiset(KeysFor(p, network, false, k.cosigners)))
  {
    ReadsSorted(network, k.colored, KeysFor(p, network, true, k.cosigners));
    ReadsSorted(network, k.vanilla, KeysFor(p, network, false, k.cosigners));
  }

  lemma ReadsSorted(network: Network, threshold: nat, keys: seq<string>)
    ensures var internal := if network.Mainnet? then NUMS_XPUB_MAINNET else NUMS_TPUB_TESTNET;
      Reads(Descriptor(network, threshold, keys), internal, threshold, Sort(keys))
      && multiset(Sort(keys)) == multiset(keys)
  {
    SortCorrect(keys);
  }

  // ---------------------------------------------------------------- the printed form

  /** A printed cosigner names, between colons, fingerprint, vanilla key, colored key and keychain, in this order. */
  lemma ShownFields(c: Cosigner)
    requires forall field | field in [c.fingerprint, c.vanilla, c.colored] :: ':' !in field
    ensures Split(Show(c), ':') ==
      [c.fingerprint, c.vanilla, c.colored, Decimal(if c.vanillaKeychain.Some? then c.vanillaKeychain.value else 0)]
  {
    var parts := [c.fingerprint, c.vanilla, c.colored, Decimal(Keychain(c))];
    forall part | part in parts
      ensures ':' !in part
    {
      if part == parts[3] {
        assert forall x | x in part :: IsDigit(x);
      } else {
        assert part in [c.fingerprint, c.vanilla, c.colored];
      }
    }
    SplitJoin(parts, ':');
  }
}
