/**
 * DialogHelper: choosing the signature algorithms a private key can produce
 * and filling a combo box with them, and copying a PKCS #9 attribute of a
 * PKCS #10 request (section 4.1 of RFC 2986) into a text field.
 */
module DialogHelper {
  import opened Wrappers
  import opened Signatures
  import opened Widgets

  // ---------------------------------------------------------------------
  // Signature-algorithm resolution (populateSigAlgs)
  // ---------------------------------------------------------------------

  /** KeyPairType: the families the switch names; every other is OtherKeyPairType. */
  datatype KeyPairType =
    | RSA
    | DSA
    | EC
    | EDDSA
    | ED25519
    | ED448
    | MLDSA44
    | MLDSA65
    | MLDSA87
    | OtherKeyPairType(name: string)

  /** The results EccUtil.detectEdDSACurve can give; None is any other result. */
  datatype EdDSACurves = Ed25519Curve | Ed448Curve

  /**
   * What the key-inspection helpers report about the private key:
   * EccUtil.getNamedCurve (None for null), EccUtil.detectEdDSACurve, and
   * the size from KeyPairUtil.getKeyInfo (None when it throws CryptoException).
   */
  datatype KeyDescriptor = KeyDescriptor(
    keyPairType: KeyPairType,
    namedCurve: Option<string>,
    edDSACurve: Option<EdDSACurves>,
    keySize: Option<int>)

  /** The EC key's curve is one of CurveSet.SM2's curve names. */
  predicate IsSm2Curve(key: KeyDescriptor, cat: Catalogue)
  {
    key.namedCurve.Some? && key.namedCurve.value in cat.sm2CurveNames
  }

  /** The families that reach the `case RSA: default:` arm of the switch. */
  predicate UsesRsaArm(t: KeyPairType)
  {
    t.RSA? || t.OtherKeyPairType?
  }

  /** The families with one fixed algorithm of the same name. */
  predicate IsFixedAlgorithmFamily(t: KeyPairType)
  {
    t.ED25519? || t.ED448? || t.MLDSA44? || t.MLDSA65? || t.MLDSA87?
  }

  /** The signature type named like a fixed-algorithm family. */
  function NamesakeSignature(t: KeyPairType): SignatureType
    requires IsFixedAlgorithmFamily(t)
  {
    match t
    case ED25519 => SignatureType.ED25519
    case ED448 => SignatureType.ED448
    case MLDSA44 => SignatureType.MLDSA44
    case MLDSA65 => SignatureType.MLDSA65
    case MLDSA87 => SignatureType.MLDSA87
  }

  /** The candidate list the switch of populateSigAlgs chooses. */
  function SignatureCandidates(key: KeyDescriptor, cat: Catalogue): (sigAlgs: seq<SignatureType>)
    ensures key.keyPairType == DSA ==> sigAlgs == cat.dsaSignatureTypes
    ensures key.keyPairType == EC && IsSm2Curve(key, cat) ==> sigAlgs == cat.sm2SignatureTypes
    ensures key.keyPairType == EC && !IsSm2Curve(key, cat) ==> sigAlgs == cat.ecdsaSignatureTypes
    ensures key.keyPairType == EDDSA ==>
              |sigAlgs| == 1 && sigAlgs[0] in {SignatureType.ED25519, SignatureType.ED448} &&
              (sigAlgs[0] == SignatureType.ED25519 <==> key.edDSACurve == Some(Ed25519Curve))
    ensures IsFixedAlgorithmFamily(key.keyPairType) ==> sigAlgs == [NamesakeSignature(key.keyPairType)]
    ensures UsesRsaArm(key.keyPairType) && key.keySize.None? ==> sigAlgs == []
    ensures UsesRsaArm(key.keyPairType) && key.keySize.Some? ==> sigAlgs == cat.rsaSignatureTypes(key.keySize.value)
  {
    match key.keyPairType
    case DSA => cat.dsaSignatureTypes
    case EC =>
      // SM2 curves are EC curves with their own signature algorithms
      if IsSm2Curve(key, cat) then cat.sm2SignatureTypes else cat.ecdsaSignatureTypes
    case EDDSA =>
      if key.edDSACurve == Some(Ed25519Curve) then [SignatureType.ED25519] else [SignatureType.ED448]
    case ED25519 => [SignatureType.ED25519]
    case ED448 => [SignatureType.ED448]
    case MLDSA44 => [SignatureType.MLDSA44]
    case MLDSA65 => [SignatureType.MLDSA65]
    case MLDSA87 => [SignatureType.MLDSA87]
    case _ =>
      match key.keySize
      case Some(size) => cat.rsaSignatureTypes(size)
      case None => []
  }

  /**
   * The rank of a signature type in the pre-selection order: SHA-256 with
   * RSA, then with ECDSA, then with DSA, then everything else alike.
   */
  function Preference(t: SignatureType): nat
  {
    match t
    case SHA256_RSA => 0
    case SHA256_ECDSA => 1
    case SHA256_DSA => 2
    case _ => 3
  }

  /**
   * The item populateSigAlgs pre-selects: the best-ranked SHA-256 type the
   * list holds, otherwise its first element; nothing for an empty list.
   */
  function DefaultSignature(sigAlgs: seq<SignatureType>): (d: Option<SignatureType>)
    ensures d.Some? <==> sigAlgs != []
    ensures d.Some? ==> d.value in sigAlgs
    ensures d.Some? ==> forall t :: t in sigAlgs ==> Preference(d.value) <= Preference(t)
    ensures d.Some? && Preference(d.value) == 3 ==> d.value == sigAlgs[0]
  {
    if SHA256_RSA in sigAlgs then Some(SHA256_RSA)
    else if SHA256_ECDSA in sigAlgs then Some(SHA256_ECDSA)
    else if SHA256_DSA in sigAlgs then Some(SHA256_DSA)
    else if sigAlgs == [] then None
    else Some(sigAlgs[0])
  }

  /**
   * The four properties of DefaultSignature pin its result down: any
   * choice that has them is the one populateSigAlgs makes.
   */
  lemma DefaultIsUnique(sigAlgs: seq<SignatureType>, d: SignatureType)
    requires d in sigAlgs
    requires forall t :: t in sigAlgs ==> Preference(d) <= Preference(t)
    requires Preference(d) == 3 ==> d == sigAlgs[0]
    ensures DefaultSignature(sigAlgs) == Some(d)
  {
  }

  /** EDDSA and the fixed single-algorithm families always get their one candidate pre-selected. */
  lemma SingleCandidateFamiliesHaveDefault(key: KeyDescriptor, cat: Catalogue)
    requires key.keyPairType == EDDSA || IsFixedAlgorithmFamily(key.keyPairType)
    ensures DefaultSignature(SignatureCandidates(key, cat)) == Some(SignatureCandidates(key, cat)[0])
  {
  }

  /** What the selection of a combo box filled with sigAlgs ends up as. */
  function SelectionFor(d: Option<SignatureType>): ComboSelection
  {
    match d
    case Some(t) => Item(t)
    case None => NoSelection
  }

  /**
   * populateSigAlgs: empties the combo box, adds the candidates in order and
   * pre-selects the default. On an empty list setSelectedIndex(0) throws:
   * ok is false, the box is left empty and nothing is selected.
   */
  method PopulateSigAlgs(key: KeyDescriptor, cat: Catalogue, combo: SignatureComboBox) returns (ok: bool)
    modifies combo
    ensures combo.items == SignatureCandidates(key, cat)
    ensures combo.selected == SelectionFor(DefaultSignature(SignatureCandidates(key, cat)))
    ensures ok <==> SignatureCandidates(key, cat) != []
  {
    var sigAlgs := SignatureCandidates(key, cat);

    combo.RemoveAllItems();
    AddAll(combo, sigAlgs);

    // pre-select modern hash algorithms
    if SHA256_RSA in sigAlgs {
      combo.SetSelectedItem(SHA256_RSA);
      ok := true;
    } else if SHA256_ECDSA in sigAlgs {
      combo.SetSelectedItem(SHA256_ECDSA);
      ok := true;
    } else if SHA256_DSA in sigAlgs {
      combo.SetSelectedItem(SHA256_DSA);
      ok := true;
    } else {
      ok := combo.SetSelectedIndex(0);
    }
  }

  // ---------------------------------------------------------------------
  // CSR attribute extraction (populateTextField and its two wrappers)
  // ---------------------------------------------------------------------

  /** An ASN.1 object identifier, as its arcs. */
  type Oid = seq<nat>

  /** pkcs-9-at-challengePassword, 1.2.840.113549.1.9.7 (section 5.4.1 of RFC 2985). */
  const CHALLENGE_PASSWORD_OID: Oid := [1, 2, 840, 113549, 1, 9, 7]

  /** pkcs-9-at-unstructuredName, 1.2.840.113549.1.9.2 (section 5.2.2 of RFC 2985). */
  const UNSTRUCTURED_NAME_OID: Oid := [1, 2, 840, 113549, 1, 9, 2]

  /**
   * A decoded attribute value: a PrintableString, a UTF8String, or any
   * other ASN.1 type (an IA5String, a BMPString, ...), named by its tag.
   */
  datatype AttributeValue =
    | PrintableString(text: string)
    | Utf8String(text: string)
    | OtherEncoding(tag: nat, text: string)

  /** A PKCS #10 attribute: its type and its set of values, in order. */
  datatype Attribute = Attribute(attrType: Oid, attrValues: seq<AttributeValue>)

  /** The text populateTextField copies out of a value, for the two string types it accepts. */
  function AcceptedText(v: AttributeValue): Option<string>
  {
    match v
    case PrintableString(s) => Some(s)
    case Utf8String(s) => Some(s)
    case OtherEncoding(_, _) => None
  }

  /** Reading the first value of a does not throw: a does not match, or it has a value. */
  predicate HasFirstValue(a: Attribute, oid: Oid)
  {
    a.attrType != oid || a.attrValues != []
  }

  /** a matches and its first value is of an accepted string type. */
  predicate SetsText(a: Attribute, oid: Oid)
  {
    a.attrType == oid && a.attrValues != [] && AcceptedText(a.attrValues[0]).Some?
  }

  /** The text a attribute leaves in the field, given the text before it. */
  function StepText(text: string, a: Attribute, oid: Oid): string
  {
    if SetsText(a, oid) then AcceptedText(a.attrValues[0]).value else text
  }

  /** The field's text after processing attrs in array order, starting from text. */
  function FoldText(attrs: seq<Attribute>, oid: Oid, text: string): string
    decreases |attrs|
  {
    if attrs == [] then text
    else StepText(FoldText(attrs[..|attrs| - 1], oid, text), attrs[|attrs| - 1], oid)
  }

  /**
   * How many attributes the loop gets through: the index of the first
   * matching attribute without a value, where getAttributeValues()[0]
   * throws, or all of them.
   */
  function ProcessedCount(attrs: seq<Attribute>, oid: Oid): (k: nat)
    ensures k <= |attrs|
    ensures forall j :: 0 <= j < k ==> HasFirstValue(attrs[j], oid)
    ensures k < |attrs| ==> !HasFirstValue(attrs[k], oid)
    decreases |attrs|
  {
    if attrs == [] || !HasFirstValue(attrs[0], oid) then 0
    else 1 + ProcessedCount(attrs[1..], oid)
  }

  /**
   * The final text is the accepted first value of the LAST attribute that
   * sets the text: later matches overwrite earlier ones.
   */
  lemma {:induction false} FoldTextIsLastSetter(attrs: seq<Attribute>, oid: Oid, text: string, j: nat)
    requires j < |attrs| && SetsText(attrs[j], oid)
    requires forall k :: j < k < |attrs| ==> !SetsText(attrs[k], oid)
    ensures FoldText(attrs, oid, text) == AcceptedText(attrs[j].attrValues[0]).value
    decreases |attrs|
  {
    if j < |attrs| - 1 {
      FoldTextIsLastSetter(attrs[..|attrs| - 1], oid, text, j);
    }
  }

  /** When no attribute sets the text (no match, or no accepted type) the text is unchanged. */
  lemma {:induction false} FoldTextUnchanged(attrs: seq<Attribute>, oid: Oid, text: string)
    requires forall k :: 0 <= k < |attrs| ==> !SetsText(attrs[k], oid)
    ensures FoldText(attrs, oid, text) == text
    decreases |attrs|
  {
    if attrs != [] {
      FoldTextUnchanged(attrs[..|attrs| - 1], oid, text);
    }
  }

  /**
   * populateTextField: for a non-null array, every attribute whose type is
   * oid, in array order, copies its first value into the field if that value
   * is a PrintableString or a UTF8String. A matching attribute with no value
   * throws ArrayIndexOutOfBoundsException (ok == false) after the earlier
   * attributes have had their effect.
   */
  method PopulateTextField(attrs: Option<seq<Attribute>>, field: TextField, oid: Oid) returns (ok: bool)
    modifies field
    ensures attrs.None? ==> ok && field.text == old(field.text)
    ensures attrs.Some? ==> (ok <==> ProcessedCount(attrs.value, oid) == |attrs.value|)
    ensures attrs.Some? ==>
              field.text == FoldText(attrs.value[..ProcessedCount(attrs.value, oid)], oid, old(field.text))
  {
    ok := true;
    if attrs.None? {
      return;
    }
    var a := attrs.value;
    var i := 0;
    while i < |a|
      invariant 0 <= i <= |a|
      invariant forall j :: 0 <= j < i ==> HasFirstValue(a[j], oid)
      invariant field.text == FoldText(a[..i], oid, old(field.text))
    {
      assert a[..i + 1][..i] == a[..i];
      if a[i].attrType == oid {
        if a[i].attrValues == [] {
          // getAttributeValues()[0] is out of bounds
          ok := false;
          return;
        }
        var challenge := a[i].attrValues[0];
        match challenge
        case PrintableString(s) => field.SetText(s);
        case Utf8String(s) => field.SetText(s);
        case OtherEncoding(_, _) =>
      }
      i := i + 1;
    }
    assert a[..i] == a;
  }

  /** populatePkcs10Challenge: populateTextField for challengePassword. */
  method PopulatePkcs10Challenge(attrs: Option<seq<Attribute>>, field: TextField) returns (ok: bool)
    modifies field
    ensures attrs.None? ==> ok && field.text == old(field.text)
    ensures attrs.Some? ==> (ok <==> ProcessedCount(attrs.value, CHALLENGE_PASSWORD_OID) == |attrs.value|)
    ensures attrs.Some? ==>
              field.text == FoldText(attrs.value[..ProcessedCount(attrs.value, CHALLENGE_PASSWORD_OID)],
                                     CHALLENGE_PASSWORD_OID, old(field.text))
  {
    ok := PopulateTextField(attrs, field, CHALLENGE_PASSWORD_OID);
  }

  /** populatePkcs10UnstructuredName: populateTextField for unstructuredName. */
  method PopulatePkcs10UnstructuredName(attrs: Option<seq<Attribute>>, field: TextField) returns (ok: bool)
    modifies field
    ensures attrs.None? ==> ok && field.text == old(field.text)
    ensures attrs.Some? ==> (ok <==> ProcessedCount(attrs.value, UNSTRUCTURED_NAME_OID) == |attrs.value|)
    ensures attrs.Some? ==>
              field.text == FoldText(attrs.value[..ProcessedCount(attrs.value, UNSTRUCTURED_NAME_OID)],
                                     UNSTRUCTURED_NAME_OID, old(field.text))
  {
    ok := PopulateTextField(attrs, field, UNSTRUCTURED_NAME_OID);
  }
}
