/**
 * DFindKeyStoreEntry: the dialog that collects the criteria of a keystore
 * entry search into a map keyed by six fixed strings.
 */
module FindKeyStoreEntry {
  import opened Signatures
  import opened Widgets

  /**
   * The six criteria keys. The map the dialog returns is keyed by their
   * string constants, KeyName(key); KeyNameInjective shows that the two
   * keyings are interchangeable.
   */
  datatype SearchKey = ENTRYNAME | ALGORITHM | SUBJECTCN | ISSUERCN | SERIALNUMBERHEX | SERIALNUMBERDEC

  function KeyName(key: SearchKey): string
  {
    match key
    case ENTRYNAME => "EntryName"
    case ALGORITHM => "Algorithm"
    case SUBJECTCN => "SubjectCN"
    case ISSUERCN => "IssuerCN"
    case SERIALNUMBERHEX => "SerialNumberHex"
    case SERIALNUMBERDEC => "SerialNumberDec"
  }

  /** The six constants are pairwise distinct, so each field has its own map entry. */
  lemma KeyNameInjective(k1: SearchKey, k2: SearchKey)
    ensures KeyName(k1) == KeyName(k2) ==> k1 == k2
  {
  }

  /** One step of okPressed: `if (!text.isEmpty()) mapValues.put(key, text)`. */
  function Put(m: map<SearchKey, string>, key: SearchKey, text: string): map<SearchKey, string>
  {
    if |text| != 0 then m[key := text] else m
  }

  /** What the user has entered: five text fields and the algorithm combo box's selection. */
  datatype SearchForm = SearchForm(
    entryName: string,
    algorithm: ComboSelection,
    subjectCN: string,
    issuerCN: string,
    serialNumberHex: string,
    serialNumberDec: string)

  /**
   * The algorithm text okPressed derives from the selection: nothing for no
   * selection, the typed String itself, or a listed type's friendly name.
   */
  function AlgorithmText(sel: ComboSelection, cat: Catalogue): string
  {
    match sel
    case NoSelection => ""
    case Typed(s) => s
    case Item(t) => cat.friendly(t)
  }

  /**
   * The map okPressed builds, written as its sequence of puts on an empty
   * map: each key is present exactly when its text is non-empty, and then
   * holds that text untrimmed; no other key is ever present.
   */
  function SearchCriteria(form: SearchForm, cat: Catalogue): (criteria: map<SearchKey, string>)
    ensures ENTRYNAME in criteria <==> form.entryName != ""
    ensures ENTRYNAME in criteria ==> criteria[ENTRYNAME] == form.entryName
    ensures ALGORITHM in criteria <==> AlgorithmText(form.algorithm, cat) != ""
    ensures ALGORITHM in criteria ==> criteria[ALGORITHM] == AlgorithmText(form.algorithm, cat)
    ensures SUBJECTCN in criteria <==> form.subjectCN != ""
    ensures SUBJECTCN in criteria ==> criteria[SUBJECTCN] == form.subjectCN
    ensures ISSUERCN in criteria <==> form.issuerCN != ""
    ensures ISSUERCN in criteria ==> criteria[ISSUERCN] == form.issuerCN
    ensures SERIALNUMBERHEX in criteria <==> form.serialNumberHex != ""
    ensures SERIALNUMBERHEX in criteria ==> criteria[SERIALNUMBERHEX] == form.serialNumberHex
    ensures SERIALNUMBERDEC in criteria <==> form.serialNumberDec != ""
    ensures SERIALNUMBERDEC in criteria ==> criteria[SERIALNUMBERDEC] == form.serialNumberDec
  {
    var m1 := Put(map[], ENTRYNAME, form.entryName);
    var m2 := Put(m1, ALGORITHM, AlgorithmText(form.algorithm, cat));
    var m3 := Put(m2, SUBJECTCN, form.subjectCN);
    var m4 := Put(m3, ISSUERCN, form.issuerCN);
    var m5 := Put(m4, SERIALNUMBERHEX, form.serialNumberHex);
    Put(m5, SERIALNUMBERDEC, form.serialNumberDec)
  }

  /** The search map is empty exactly when every field is empty and nothing usable is selected. */
  lemma CriteriaEmptyIffBlank(form: SearchForm, cat: Catalogue)
    ensures SearchCriteria(form, cat) == map[] <==>
              form.entryName == "" && AlgorithmText(form.algorithm, cat) == "" && form.subjectCN == "" &&
              form.issuerCN == "" && form.serialNumberHex == "" && form.serialNumberDec == ""
  {
  }

  /** The keys are distinct: with every field filled the map holds six entries. */
  lemma SixDistinctKeys(form: SearchForm, cat: Catalogue)
    requires form.entryName != "" && AlgorithmText(form.algorithm, cat) != "" && form.subjectCN != ""
    requires form.issuerCN != "" && form.serialNumberHex != "" && form.serialNumberDec != ""
    ensures |SearchCriteria(form, cat)| == 6
  {
  }

  /** The algorithm list the dialog offers: ECDSA, then RSA for 2048-bit keys, then DSA types. */
  function SearchableAlgorithms(cat: Catalogue): seq<SignatureType>
  {
    cat.ecdsaSignatureTypes + cat.rsaSignatureTypes(2048) + cat.dsaSignatureTypes
  }

  class DFindKeyStoreEntry {
    var entryName: string
    const algorithm: SignatureComboBox
    var subjectCN: string
    var issuerCN: string
    var serialNumberHex: string
    var serialNumberDec: string
    var success: bool
    var mapValues: map<SearchKey, string>

    /** A new dialog: empty fields, the algorithm list with nothing selected, no result. */
    constructor (cat: Catalogue)
      ensures entryName == "" && subjectCN == "" && issuerCN == ""
      ensures serialNumberHex == "" && serialNumberDec == ""
      ensures algorithm.items == SearchableAlgorithms(cat) && algorithm.selected == NoSelection
      ensures !success && mapValues == map[]
      ensures fresh(algorithm)
    {
      entryName, subjectCN, issuerCN := "", "", "";
      serialNumberHex, serialNumberDec := "", "";
      success := false;
      mapValues := map[];
      algorithm := new SignatureComboBox();
      new;
      PopulateSignaturesAlgorithm(cat);
    }

    /**
     * populateSignaturesAlgorithm: appends the ECDSA, RSA (2048) and DSA
     * types, in that order, and then clears the selection.
     */
    method PopulateSignaturesAlgorithm(cat: Catalogue)
      modifies algorithm
      ensures algorithm.items == old(algorithm.items) + SearchableAlgorithms(cat)
      ensures algorithm.selected == NoSelection
    {
      AddAll(algorithm, cat.ecdsaSignatureTypes);
      AddAll(algorithm, cat.rsaSignatureTypes(2048));
      AddAll(algorithm, cat.dsaSignatureTypes);
      var _ := algorithm.SetSelectedIndex(-1);
    }

    /** The form as the user has filled it in. */
    function Form(): SearchForm
      reads this, algorithm
    {
      SearchForm(entryName, algorithm.selected, subjectCN, issuerCN, serialNumberHex, serialNumberDec)
    }

    /**
     * okPressed: rebuilds the map from scratch; success is set exactly when
     * it is non-empty, and an empty map leaves success as it was.
     */
    method OkPressed(cat: Catalogue)
      modifies this
      ensures mapValues == SearchCriteria(old(Form()), cat)
      ensures success == (old(success) || mapValues != map[])
      ensures Form() == old(Form())
    {
      mapValues := map[];
      mapValues := Put(mapValues, ENTRYNAME, entryName);
      var selected := algorithm.selected;
      if selected != NoSelection {
        var signatureAlgorithm := "";
        if selected.Typed? {
          signatureAlgorithm := selected.text;
        } else if selected.Item? {
          signatureAlgorithm := cat.friendly(selected.item);
        }
        mapValues := Put(mapValues, ALGORITHM, signatureAlgorithm);
      }
      mapValues := Put(mapValues, SUBJECTCN, subjectCN);
      mapValues := Put(mapValues, ISSUERCN, issuerCN);
      mapValues := Put(mapValues, SERIALNUMBERHEX, serialNumberHex);
      mapValues := Put(mapValues, SERIALNUMBERDEC, serialNumberDec);
      if |mapValues| == 0 {
        // the dialog stays open with a message
        return;
      }
      success := true;
    }

    function IsSuccess(): bool
      reads this
    {
      success
    }

    function GetMapValues(): map<SearchKey, string>
      reads this
    {
      mapValues
    }
  }
}
