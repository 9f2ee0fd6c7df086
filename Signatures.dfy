/**
 * The signature algorithms the dialogs offer, and the catalogue that KSE's
 * SignatureType and CurveSet classes supply. What the catalogue lists is
 * foreign to these dialogs, so the model receives it as a value.
 */
module Signatures {

  /**
   * The SignatureType constants the dialogs name explicitly; every other
   * constant of the enumeration is an OtherSignatureType.
   */
  datatype SignatureType =
    | SHA256_RSA
    | SHA256_ECDSA
    | SHA256_DSA
    | ED25519
    | ED448
    | MLDSA44
    | MLDSA65
    | MLDSA87
    | OtherSignatureType(name: string)

  /**
   * The catalogue functions: SignatureType.dsaSignatureTypes(),
   * sm2SignatureTypes(), ecdsaSignatureTypes(), rsaSignatureTypes(keySize),
   * the curve names of CurveSet.SM2 and SignatureType.friendly().
   */
  datatype Catalogue = Catalogue(
    dsaSignatureTypes: seq<SignatureType>,
    sm2SignatureTypes: seq<SignatureType>,
    ecdsaSignatureTypes: seq<SignatureType>,
    rsaSignatureTypes: int -> seq<SignatureType>,
    sm2CurveNames: set<string>,
    friendly: SignatureType -> string)
}
