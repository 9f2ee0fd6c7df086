/**
 * CompareCertificateAction.getCertificates: picking the two certificates to
 * compare from the entries selected in the keystore view.
 */
module CompareCertificateAction {
  import opened Wrappers

  /** A certificate, by its encoding. */
  datatype Certificate = Certificate(encoded: seq<int>)

  /**
   * A keystore entry as KeyStoreUtil classifies it, with the certificate
   * KeyStore.getCertificate returns for it (the leaf of a key pair's chain).
   */
  datatype KeyStoreEntry =
    | TrustedCertificateEntry(certificate: Certificate)
    | KeyPairEntry(certificate: Certificate)
    | SecretKeyEntry

  /**
   * The keystore of the current state: its entries by alias, and the aliases
   * whose lookup throws (a KeyStoreException, say).
   */
  datatype KeyStore = KeyStore(entries: map<string, KeyStoreEntry>, unreadable: set<string>)

  /** The certificate an alias contributes: trusted-certificate and key-pair entries only. */
  function Contribution(ks: KeyStore, alias: string): Option<Certificate>
  {
    if alias in ks.entries && !ks.entries[alias].SecretKeyEntry? then Some(ks.entries[alias].certificate)
    else None
  }

  /** The certificates of all eligible aliases, in selection order. */
  function EligibleCertificates(ks: KeyStore, aliases: seq<string>): (certs: seq<Certificate>)
    ensures |certs| <= |aliases|
    decreases |aliases|
  {
    if aliases == [] then []
    else
      var rest := EligibleCertificates(ks, aliases[..|aliases| - 1]);
      match Contribution(ks, aliases[|aliases| - 1])
      case Some(c) => rest + [c]
      case None => rest
  }

  /** No alias of the list throws when looked up. */
  predicate AllReadable(ks: KeyStore, aliases: seq<string>)
  {
    forall k :: 0 <= k < |aliases| ==> aliases[k] !in ks.unreadable
  }

  /**
   * The scan of the remaining aliases with the certificates acc already
   * collected: it ends with the pair as soon as it holds two, and with None
   * when a lookup throws or the aliases run out.
   */
  function ScanFrom(ks: KeyStore, aliases: seq<string>, acc: seq<Certificate>): (r: Option<seq<Certificate>>)
    requires |acc| < 2
    ensures r.Some? ==>
              |acc + EligibleCertificates(ks, aliases)| >= 2 &&
              r.value == (acc + EligibleCertificates(ks, aliases))[..2]
    ensures AllReadable(ks, aliases) ==> (r.Some? <==> |acc| + |EligibleCertificates(ks, aliases)| >= 2)
    decreases |aliases|
  {
    if aliases == [] then None
    else if aliases[0] in ks.unreadable then None
    else
      EligibleCons(ks, aliases);
      match Contribution(ks, aliases[0])
      case Some(c) =>
        if |acc| + 1 == 2 then Some(acc + [c]) else ScanFrom(ks, aliases[1..], acc + [c])
      case None => ScanFrom(ks, aliases[1..], acc)
  }

  /** EligibleCertificates, unfolded at the front of the list. */
  lemma {:induction false} EligibleCons(ks: KeyStore, aliases: seq<string>)
    requires aliases != []
    ensures EligibleCertificates(ks, aliases) ==
              (match Contribution(ks, aliases[0]) case Some(c) => [c] case None => []) +
              EligibleCertificates(ks, aliases[1..])
    decreases |aliases|
  {
    if |aliases| > 1 {
      var init := aliases[..|aliases| - 1];
      EligibleCons(ks, init);
      assert init[1..] == aliases[1..][..|aliases[1..]| - 1];
    } else {
      assert aliases[1..] == [];
    }
  }

  /** getCertificates on a selection: fewer than two aliases is None at once. */
  function SelectPair(ks: KeyStore, aliases: seq<string>): (r: Option<seq<Certificate>>)
    ensures |aliases| < 2 ==> r.None?
    ensures r.Some? ==> |EligibleCertificates(ks, aliases)| >= 2 && r.value == EligibleCertificates(ks, aliases)[..2]
    ensures AllReadable(ks, aliases) ==>
              (r.Some? <==> |aliases| >= 2 && |EligibleCertificates(ks, aliases)| >= 2)
  {
    assert [] + EligibleCertificates(ks, aliases) == EligibleCertificates(ks, aliases);
    if |aliases| < 2 then None else ScanFrom(ks, aliases, [])
  }

  /**
   * The scan stops at the alias that completes the pair: once a readable
   * prefix holds two eligible certificates, what follows it (unreadable
   * aliases included) makes no difference.
   */
  lemma {:induction false} ScanStopsAtPair(ks: KeyStore, prefix: seq<string>, rest: seq<string>, acc: seq<Certificate>)
    requires |acc| < 2
    requires AllReadable(ks, prefix)
    requires |acc| + |EligibleCertificates(ks, prefix)| >= 2
    ensures ScanFrom(ks, prefix + rest, acc) == ScanFrom(ks, prefix, acc)
    decreases |prefix|
  {
    EligibleCons(ks, prefix);
    assert (prefix + rest)[0] == prefix[0];
    assert (prefix + rest)[1..] == prefix[1..] + rest;
    match Contribution(ks, prefix[0])
    case Some(c) =>
      if |acc| + 1 < 2 {
        ScanStopsAtPair(ks, prefix[1..], rest, acc + [c]);
      }
    case None =>
      ScanStopsAtPair(ks, prefix[1..], rest, acc);
  }

  /**
   * A lookup that throws before the pair is complete makes the result None:
   * no single certificate, no partial list.
   */
  lemma {:induction false} ScanAbortsOnFailure(ks: KeyStore, aliases: seq<string>, acc: seq<Certificate>, j: nat)
    requires |acc| < 2
    requires j < |aliases| && aliases[j] in ks.unreadable
    requires |acc| + |EligibleCertificates(ks, aliases[..j])| < 2
    ensures ScanFrom(ks, aliases, acc).None?
    decreases |aliases|
  {
    if j > 0 && aliases[0] !in ks.unreadable {
      EligibleCons(ks, aliases[..j]);
      assert aliases[..j][0] == aliases[0];
      assert aliases[..j][1..] == aliases[1..][..j - 1];
      match Contribution(ks, aliases[0])
      case Some(c) =>
        ScanAbortsOnFailure(ks, aliases[1..], acc + [c], j - 1);
      case None =>
        ScanAbortsOnFailure(ks, aliases[1..], acc, j - 1);
    }
  }

  /** The selection-level form of ScanStopsAtPair. */
  lemma SelectStopsAtPair(ks: KeyStore, prefix: seq<string>, rest: seq<string>)
    requires AllReadable(ks, prefix)
    requires |EligibleCertificates(ks, prefix)| >= 2
    ensures SelectPair(ks, prefix + rest) == Some(EligibleCertificates(ks, prefix)[..2])
  {
    ScanStopsAtPair(ks, prefix, rest, []);
    var e := EligibleCertificates(ks, prefix);
    assert |prefix + rest| >= |prefix| >= 2;
    assert ScanFrom(ks, prefix, []).Some?;
    assert [] + e == e;
  }

  /** The selection-level form of ScanAbortsOnFailure. */
  lemma SelectAbortsOnFailure(ks: KeyStore, aliases: seq<string>, j: nat)
    requires j < |aliases| && aliases[j] in ks.unreadable
    requires |EligibleCertificates(ks, aliases[..j])| < 2
    ensures SelectPair(ks, aliases).None?
  {
    if |aliases| >= 2 {
      ScanAbortsOnFailure(ks, aliases, [], j);
    }
  }

  /**
   * getCertificates: the loop over the selected aliases. The ghost result
   * probed lists the aliases whose entries were looked up, in order.
   */
  method GetCertificates(ks: KeyStore, aliases: seq<string>)
    returns (certs: Option<seq<Certificate>>, ghost probed: seq<string>)
    ensures certs == SelectPair(ks, aliases)
    ensures |aliases| < 2 ==> probed == []
    ensures probed <= aliases
    ensures certs.Some? ==> EligibleCertificates(ks, probed) == certs.value
  {
    probed := [];
    if |aliases| < 2 {
      return None, probed;
    }
    var listCertificates: seq<Certificate> := [];
    var i := 0;
    while i < |aliases|
      invariant 0 <= i <= |aliases|
      invariant |listCertificates| < 2
      invariant probed == aliases[..i]
      invariant listCertificates == EligibleCertificates(ks, probed)
      invariant ScanFrom(ks, aliases[i..], listCertificates) == ScanFrom(ks, aliases, [])
    {
      var alias := aliases[i];
      EligibleCons(ks, aliases[i..]);
      assert aliases[..i + 1][..i] == aliases[..i];
      probed := probed + [alias];
      if alias in ks.unreadable {
        // the exception is caught and reported; no list is returned
        return None, probed;
      }
      if alias in ks.entries && !ks.entries[alias].SecretKeyEntry? {
        listCertificates := listCertificates + [ks.entries[alias].certificate];
      }
      // first two certificates found
      if |listCertificates| == 2 {
        return Some(listCertificates), probed;
      }
      assert aliases[i..][1..] == aliases[i + 1..];
      i := i + 1;
    }
    certs := None;
  }
}
