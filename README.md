# KeyStore Explorer dialog logic in Dafny

This project models the decision logic inside four pieces of KeyStore
Explorer's GUI and proves what that logic guarantees:

- **DialogHelper.populateSigAlgs** chooses a private key's candidate
  signature algorithms by key-pair family. It fills a combo box with them
  and pre-selects SHA-256 with RSA, then with ECDSA, then with DSA, or else
  the first entry.
- **DialogHelper.populateTextField** and its two wrappers copy the first
  value of a PKCS #9 attribute (challengePassword or unstructuredName) of a
  PKCS #10 request into a text field. PKCS #10 is RFC 2986 and PKCS #9 is
  RFC 2985.
- **CompareCertificateAction.getCertificates** takes the first two
  certificates among the selected keystore entries.
- **DFindKeyStoreEntry** fills its algorithm list. Its okPressed builds the
  search-criteria map and refuses an empty one.
- **DExamineSsl.okPressed** runs the guard chain over host, port and the
  client-authentication keystore. It stores the host, port and server type,
  and records them in the application settings. The dialog's initial field
  values and its getters are modelled too.

Modules:

| module | contents |
|---|---|
| `Wrappers` | `Option` |
| `Signatures` | `SignatureType`, and the SignatureType/CurveSet catalogue as a value |
| `Widgets` | the JComboBox, reduced to items and selection; the JTextField, reduced to text |
| `JavaText` | `String.trim()` and `Integer.parseInt(String)` for base 10 |
| `DialogHelper` | the DialogHelper model |
| `CompareCertificateAction` | the getCertificates model |
| `FindKeyStoreEntry` | the DFindKeyStoreEntry model |
| `ExamineSsl` | the DExamineSsl model |

The same pattern runs through every module. Each step-by-step operation is
written as a method over a class's fields or a widget's state, with the
source's loops and early returns. Each method is proved against a pure
function: `SignatureCandidates`, `DefaultSignature`, `FoldText`,
`SelectPair`, `SearchCriteria`, `CheckSslForm`. The lemmas then prove what
the source promises about those functions. `JavaText.ParseInt` is written
directly as its definition: an optional sign, at least one decimal digit and
a value in the 32-bit range, otherwise NumberFormatException. Its properties
are `ParseIntRoundTrip` and `ParsedHasNoTrimmable`.

Behaviour as written. Where the code differs from its comments or from the
usual description of these dialogs, the model follows the code:

- An EDDSA key whose curve is not detected as Ed25519 gets `[ED448]`, never
  an empty list (DialogHelper.java:77-84).
- populateTextField has no `break`. A later matching attribute overwrites
  an earlier one, so the last accepted value wins. The comment at line 161
  says IA5String, but the code accepts PrintableString and UTF8String; an
  IA5String value leaves the field as it was.
- A matching attribute with no values makes `getAttributeValues()[0]` throw
  ArrayIndexOutOfBoundsException. The model reports this as `ok == false`,
  after the earlier attributes have had their effect.
- DFindKeyStoreEntry tests `isEmpty()`, not a trimmed text. A field holding
  only blanks is a criterion, stored untrimmed.
- DExamineSsl stores `sslHost`, `sslPort` and `sslTypeServer` before the
  client-authentication checks. When those checks reject, the values stay
  set while `cancelled` stays true, even though getSslHost's comment says
  the host is null when the dialog is cancelled.
- A port number is accepted anywhere from 1 to 2^31 - 1; nothing limits it
  to 65535.

External behaviour is given as input. The catalogue functions
`dsaSignatureTypes()`, `sm2SignatureTypes()`, `ecdsaSignatureTypes()`,
`rsaSignatureTypes(size)`, `friendly()` and the SM2 curve names form the
record `Signatures.Catalogue`. What `EccUtil.getNamedCurve`,
`EccUtil.detectEdDSACurve` and `KeyPairUtil.getKeyInfo` report about a key
is a `KeyDescriptor`; a failed key-size lookup is `None`. The keystore is a
map from alias to entry kind and certificate, plus the set of aliases whose
lookup throws.

## Model

| member | source | states |
|---|---|---|
| `Widgets.SignatureComboBox.constructor` | kse/src/org/kse/gui/dialogs/DFindKeyStoreEntry.java:102 | a new combo box is empty with nothing selected |
| `Widgets.SignatureComboBox.RemoveAllItems` | kse/src/main/java/org/kse/gui/dialogs/DialogHelper.java:110 | removeAllItems leaves no items and no selection |
| `Widgets.SignatureComboBox.AddItem` | kse/src/main/java/org/kse/gui/dialogs/DialogHelper.java:113 | addItem appends; the first item added to an empty, unselected box becomes the selection |
| `Widgets.SignatureComboBox.SetSelectedItem` | kse/src/main/java/org/kse/gui/dialogs/DialogHelper.java:117-122 | selects the item exactly when the list holds it; the list is unchanged |
| `Widgets.SignatureComboBox.SetSelectedIndex` | kse/src/main/java/org/kse/gui/dialogs/DialogHelper.java:124 | -1 clears the selection, a valid index selects that element, and any other index fails (ok false) with the selection as it was |
| `Widgets.AddAll` | kse/src/main/java/org/kse/gui/dialogs/DialogHelper.java:112-114 | the for-each addItem loop appends the whole list in order and selects its head only when the box was empty and unselected |
| `Widgets.TextField.constructor` | kse/src/main/java/org/kse/gui/dialogs/DialogHelper.java:152 | a field holds its initial text |
| `Widgets.TextField.SetText` | kse/src/main/java/org/kse/gui/dialogs/DialogHelper.java:163-165 | setText replaces the text |
| `DialogHelper.SignatureCandidates` | kse/src/main/java/org/kse/gui/dialogs/DialogHelper.java:64-108 | DSA gives exactly dsaSignatureTypes; EC gives sm2SignatureTypes for an SM2 curve and ecdsaSignatureTypes for any other; EDDSA gives one element, ED25519 exactly when Ed25519 is detected and ED448 otherwise; ED25519, ED448 and the three MLDSA families give their namesake alone; RSA and every unlisted family give rsaSignatureTypes(size), or [] when the size lookup fails |
| `DialogHelper.DefaultSignature` | kse/src/main/java/org/kse/gui/dialogs/DialogHelper.java:116-125 | a default exists exactly when the list is non-empty; it is a member of the list, ranks best in the order SHA256_RSA, SHA256_ECDSA, SHA256_DSA, any other; with no SHA-256 type it is the element at index 0 |
| `DialogHelper.DefaultIsUnique` | kse/src/main/java/org/kse/gui/dialogs/DialogHelper.java:116-125 | any member that has those properties is the default, so they pin the choice down |
| `DialogHelper.SingleCandidateFamiliesHaveDefault` | kse/src/main/java/org/kse/gui/dialogs/DialogHelper.java:77-99 | EDDSA and the fixed single-algorithm families always get their one candidate pre-selected |
| `DialogHelper.PopulateSigAlgs` | kse/src/main/java/org/kse/gui/dialogs/DialogHelper.java:59-126 | the box ends up holding exactly the candidate list, in order, with every previous item gone; the default is selected; on an empty list setSelectedIndex(0) fails and nothing is selected |
| `DialogHelper.ProcessedCount` | kse/src/main/java/org/kse/gui/dialogs/DialogHelper.java:154-159 | the loop gets through the attributes up to the first matching attribute that has no value, and every attribute before it can be read |
| `DialogHelper.FoldTextIsLastSetter` | kse/src/main/java/org/kse/gui/dialogs/DialogHelper.java:154-169 | with no early exit, the final text is the first value of the last matching attribute whose first value is Printable or UTF8 |
| `DialogHelper.FoldTextUnchanged` | kse/src/main/java/org/kse/gui/dialogs/DialogHelper.java:153-167 | attributes that do not match, or whose first value is of another string type, leave the text unchanged |
| `DialogHelper.PopulateTextField` | kse/src/main/java/org/kse/gui/dialogs/DialogHelper.java:152-171 | a null array leaves the text as it was; otherwise the text is the fold over the attributes the loop reaches, in array order, and ok is false exactly when a matching attribute has no value |
| `DialogHelper.PopulatePkcs10Challenge` | kse/src/main/java/org/kse/gui/dialogs/DialogHelper.java:134-138 | populateTextField with the challengePassword OID 1.2.840.113549.1.9.7 |
| `DialogHelper.PopulatePkcs10UnstructuredName` | kse/src/main/java/org/kse/gui/dialogs/DialogHelper.java:146-150 | populateTextField with the unstructuredName OID 1.2.840.113549.1.9.2 |
| `JavaText.TrimStart` | kse/src/org/kse/gui/dialogs/DExamineSsl.java:269 | removes leading characters at or below U+0020 and stops at the first other one |
| `JavaText.TrimEnd` | kse/src/org/kse/gui/dialogs/DExamineSsl.java:269 | removes trailing characters at or below U+0020 and stops at the last other one |
| `JavaText.TrimStartIsSuffix` | kse/src/org/kse/gui/dialogs/DExamineSsl.java:269 | what TrimStart leaves is a suffix of its argument |
| `JavaText.TrimEndIsPrefix` | kse/src/org/kse/gui/dialogs/DExamineSsl.java:269 | what TrimEnd leaves is a prefix of its argument |
| `JavaText.Trim` | kse/src/org/kse/gui/dialogs/DExamineSsl.java:269 | trim() is empty exactly when every character is trimmable; a non-empty result neither starts nor ends with one |
| `JavaText.TrimPadded` | kse/src/org/kse/gui/dialogs/DExamineSsl.java:277 | trim removes any blank padding before and after a word, the two sides independent, and gives back exactly the word |
| `JavaText.TrimStartPadded` | kse/src/org/kse/gui/dialogs/DExamineSsl.java:277 | leading padding is removed up to the word |
| `JavaText.TrimEndPadded` | kse/src/org/kse/gui/dialogs/DExamineSsl.java:277 | trailing padding is removed back to the word |
| `JavaText.DecimalString` | kse/src/org/kse/gui/dialogs/DExamineSsl.java:288 | the decimal form of a natural number is a non-empty digit string |
| `JavaText.DecimalStringValue` | kse/src/org/kse/gui/dialogs/DExamineSsl.java:288 | that digit string denotes the number |
| `JavaText.ParseIntRoundTrip` | kse/src/org/kse/gui/dialogs/DExamineSsl.java:288 | parseInt reads every 32-bit value back from its decimal form |
| `JavaText.ParsedHasNoTrimmable` | kse/src/org/kse/gui/dialogs/DExamineSsl.java:277-288 | a string parseInt accepts contains nothing trim would remove |
| `CompareCertificateAction.EligibleCertificates` | kse/src/org/kse/gui/actions/CompareCertificateAction.java:54-59 | only trusted-certificate and key-pair entries contribute, in alias order, at most one certificate per alias |
| `CompareCertificateAction.ScanFrom` | kse/src/org/kse/gui/actions/CompareCertificateAction.java:54-65 | the scan with an accumulator returns a certificate list only once it holds two, namely the first two eligible ones; with every alias readable it returns one exactly when two eligible certificates exist |
| `CompareCertificateAction.EligibleCons` | kse/src/org/kse/gui/actions/CompareCertificateAction.java:54-59 | the eligible certificates are the first alias's contribution followed by those of the rest |
| `CompareCertificateAction.SelectPair` | kse/src/org/kse/gui/actions/CompareCertificateAction.java:42-69 | fewer than 2 aliases gives none; a result is exactly the first two eligible certificates; with all aliases readable, a result exists exactly when there are 2 aliases and 2 eligible entries, so a single certificate is never returned |
| `CompareCertificateAction.ScanStopsAtPair` | kse/src/org/kse/gui/actions/CompareCertificateAction.java:60-63 | once a readable prefix completes the pair, the aliases after it make no difference, including unreadable ones |
| `CompareCertificateAction.ScanAbortsOnFailure` | kse/src/org/kse/gui/actions/CompareCertificateAction.java:66-69 | a lookup that throws before the pair is complete gives none |
| `CompareCertificateAction.SelectStopsAtPair` | kse/src/org/kse/gui/actions/CompareCertificateAction.java:60-63 | the same for the whole selection: the result is the prefix's first two eligible certificates |
| `CompareCertificateAction.SelectAbortsOnFailure` | kse/src/org/kse/gui/actions/CompareCertificateAction.java:66-69 | the same for the whole selection: no partial list is returned |
| `CompareCertificateAction.GetCertificates` | kse/src/org/kse/gui/actions/CompareCertificateAction.java:42-69 | the loop computes SelectPair; with fewer than 2 aliases no entry is looked up; the aliases probed are a prefix of the selection, and a result holds exactly their eligible certificates |
| `FindKeyStoreEntry.KeyNameInjective` | kse/src/org/kse/gui/dialogs/DFindKeyStoreEntry.java:63-68 | the six key constants are pairwise distinct strings |
| `FindKeyStoreEntry.SearchCriteria` | kse/src/org/kse/gui/dialogs/DFindKeyStoreEntry.java:204-232 | each key is present exactly when its text is non-empty, and then holds that text untrimmed; ALGORITHM holds the typed String or the friendly name of the selected type; no key is present when nothing is selected |
| `FindKeyStoreEntry.CriteriaEmptyIffBlank` | kse/src/org/kse/gui/dialogs/DFindKeyStoreEntry.java:233-238 | the map is empty exactly when all five texts and the algorithm text are empty |
| `FindKeyStoreEntry.SixDistinctKeys` | kse/src/org/kse/gui/dialogs/DFindKeyStoreEntry.java:63-68 | with every field filled the map has six entries: no field overwrites another |
| `FindKeyStoreEntry.DFindKeyStoreEntry.constructor` | kse/src/org/kse/gui/dialogs/DFindKeyStoreEntry.java:85-125 | a new dialog has empty fields, no success, an empty map, and the algorithm list with nothing selected |
| `FindKeyStoreEntry.DFindKeyStoreEntry.PopulateSignaturesAlgorithm` | kse/src/org/kse/gui/dialogs/DFindKeyStoreEntry.java:177-192 | appends ecdsaSignatureTypes, rsaSignatureTypes(2048) and dsaSignatureTypes in that order, then clears the selection |
| `FindKeyStoreEntry.DFindKeyStoreEntry.OkPressed` | kse/src/org/kse/gui/dialogs/DFindKeyStoreEntry.java:203-241 | the map is rebuilt from empty, so nothing survives from an earlier call, and is exactly SearchCriteria of the form; success is set when the map is non-empty and otherwise stays as it was; the form is unchanged |
| `ExamineSsl.CheckConnection` | kse/src/org/kse/gui/dialogs/DExamineSsl.java:268-299 | rejects an empty trimmed host, then an empty trimmed port, then a port that does not parse or is below 1; it passes exactly when the connection settings are valid, giving the trimmed host, the trimmed port text and a port in 1 .. 2^31 - 1 |
| `ExamineSsl.CheckSslForm` | kse/src/org/kse/gui/dialogs/DExamineSsl.java:268-321 | each warning happens exactly when every earlier check passes and its own check fails; the form is accepted exactly when the connection settings and the client-authentication settings are valid |
| `ExamineSsl.DecimalPortAccepted` | kse/src/org/kse/gui/dialogs/DExamineSsl.java:277-299 | a port written in decimal, with any blanks before it and any after it, is accepted whenever it is between 1 and 2^31 - 1 |
| `ExamineSsl.LeadingBlankPortAccepted` | kse/src/org/kse/gui/dialogs/DExamineSsl.java:277-299 | a port typed as " 443", blank on one side only, is accepted |
| `ExamineSsl.ApplicationSettings.constructor` | kse/src/org/kse/gui/dialogs/DExamineSsl.java:64 | the settings start from the given host and port histories |
| `ExamineSsl.ApplicationSettings.AddSslHost` | kse/src/org/kse/gui/dialogs/DExamineSsl.java:324 | appends a host to the history |
| `ExamineSsl.ApplicationSettings.AddSslPort` | kse/src/org/kse/gui/dialogs/DExamineSsl.java:325 | appends a port text to the history |
| `ExamineSsl.DExamineSsl.constructor` | kse/src/org/kse/gui/dialogs/DExamineSsl.java:81-98 | a new dialog has no host, port -1, no server type, and is cancelled |
| `ExamineSsl.DExamineSsl.OkPressed` | kse/src/org/kse/gui/dialogs/DExamineSsl.java:267-329 | the outcome is CheckSslForm of the form; a failed host or port check changes no field and no setting; after they pass, the trimmed host, the parsed port and the server type are stored even when a client-authentication check then rejects; only acceptance appends the trimmed host and port to the settings and clears cancelled |

The getters (`GetSslHost`, `GetSslPort`, `GetSslTypeServer`,
`UseClientAuth`, `GetKeyStore`, `WasCancelled`, `IsSuccess`,
`GetMapValues`) are functions that read the corresponding field
(DExamineSsl.java:200-243, DFindKeyStoreEntry.java:243-250).

## Left out

- Swing construction, layout, listeners, key bindings, JOptionPane messages and resource strings: UI plumbing. Each warning is the `SslRejection` okPressed returns.
- closeDialog/dispose and the `main` test harnesses: they only hide the window.
- `setCaretPosition(0)` in populateTextField: it changes the caret, not the text.
- The contents of the SignatureType catalogues and of CurveSet.SM2, and what EccUtil and KeyPairUtil compute: foreign crypto code, given as inputs (`Catalogue`, `KeyDescriptor`).
- BouncyCastle ASN.1 decoding, and null elements in the attribute array: each value is a tagged `AttributeValue` carrying its string.
- The Java KeyStore API and DError display: the keystore is a map plus the set of aliases whose lookup throws, and any thrown exception gives none.
- ApplicationSettings persistence, and the `split(";")` of the host and port histories: global state and I/O. addSslHost/addSslPort are appends to a list.
- `FindKeyStoreEntry.DFindKeyStoreEntry.GetMapValues`: the map is keyed by the `SearchKey` enumeration rather than its string constants. `KeyNameInjective` shows that the two keyings correspond one to one.
- `JavaText.ParseInt`: accepts only ASCII digits, whereas Integer.parseInt also accepts other Unicode decimal digits.
- A null selection in one of DExamineSsl's editable host or port combo boxes, which would throw NullPointerException: the model always has a text.
- A keystore's own password and type come from KeyStoreHistory's current state: the model keeps only whether a password is set and whether the type has entry passwords.
- Matching keystore entries against the collected search criteria: that happens outside these files.
