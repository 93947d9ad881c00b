# Extractor lookup and face_recognition labels, in Dafny

This project models two parts of the pliers/featurex feature-extraction
library and proves properties of that model.

1. **Extractor registry** (`featurex/extractors/__init__.py`, module
   `ExtractorRegistry`). `get_extractor(name)` works in four steps:
   - It appends the suffix `extractor` unless the lower-cased name already
     ends with it.
   - It walks the subclass trees below `StimExtractor` and
     `ExtractorCollection` in pre-order. `get_subclasses` appends each direct
     subclass and then extends the list with that subclass's own subclasses.
   - It returns the first candidate whose lower-cased, last dotted name
     segment equals the lower-cased name.
   - Otherwise it raises `KeyError("No extractor named '<name>' found.")`.

   The class hierarchy is an explicit tree of `ClassNode(name, children)`
   values. The children are listed in `__subclasses__()` order. The lookup
   is modelled twice:
   - `GetSubclasses` and `GetExtractor` are methods with the source's loops.
   - `Subclasses`, `FirstMatch` and `Lookup` are functions that specify
     those methods.

   The `Extractor` and `ExtractorCollection` constructors are modelled by the
   constructors of two classes, which set the same defaults as the source.
2. **face_recognition column labels** (`pliers/extractors/image.py`, module
   `FaceRecognition`). `get_feature_names` returns the `_feature` name. The
   generic `to_df` labels each face's raw value:
   - with the bare feature name when there is exactly one face;
   - otherwise with `feature_1 … feature_n`.

   The landmarks `to_df` walks the faces, and within each face the items of
   its landmark dict. For each item it appends the value and the label:
   - `feature_key` when there is one face;
   - `feature_key_n` otherwise, where `n` is the 1-based face number.

Three small helper modules support the model. `Text` models Python's
`s.split(sep)[-1]`. `Decimal` models `'%d' % n`, together with a parser
that inverts it. `Wrappers` supplies `Option` and `Result`.

The main things proved:
- The normalised name always ends in the suffix.
- `stft` and `stftextractor`, the two spellings the docstring gives, and
  the mixed-case `STFTExtractor` resolve to the same class.
- The lookup ignores case, and dropping the suffix is the same as passing
  it.
- `get_subclasses` returns exactly the descendants, in pre-order, each
  subtree as a contiguous block.
- The lookup returns the first match, and fails exactly when nothing
  matches.
- No two columns of the generic or the landmarks table share a label, as
  long as each face's dict has distinct keys.

Points where the code is easy to misread:
- A failed lookup raises a plain `KeyError` (line 68).
- The suffix is appended to the name as the caller wrote it, not to its
  lower-cased form. Only the comparison is lower-cased, so the error
  message keeps the caller's case.
- `ExtractorCollection.__init__` does not call the base constructor, so a
  collection gets no `name`.
- `get_extractor` returns a new instance of the class it finds. The model
  returns the matched `ClassNode` instead.

## Model

| member | source | states |
|---|---|---|
| ExtractorRegistry.LowerChar | featurex/extractors/__init__.py:51 | `str.lower()` on one character: an ASCII capital becomes the small letter at the same place in the alphabet, every other character is kept, and no result is an ASCII capital |
| ExtractorRegistry.Lower | featurex/extractors/__init__.py:51 | `str.lower()` on a string, one `LowerChar` per character; keeps the length |
| ExtractorRegistry.LowerIdempotent | featurex/extractors/__init__.py:65 | lower-casing an already lower-cased name changes nothing |
| ExtractorRegistry.EndsWith | featurex/extractors/__init__.py:51 | `str.endswith`: the suffix fits in the string and equals its last characters |
| ExtractorRegistry.Normalize | featurex/extractors/__init__.py:51-52 | the suffix is appended exactly when the lower-cased name does not end with it; afterwards the lower-cased name always ends with it |
| ExtractorRegistry.NormalizeIdempotent | featurex/extractors/__init__.py:51-52 | normalising twice equals normalising once; the result is the name or the name plus the suffix |
| ExtractorRegistry.SpellingsAgree | featurex/extractors/__init__.py:45-52 | `stft` and `stftextractor` from the docstring, and the mixed-case `STFTExtractor`, all reach the key `stftextractor` |
| ExtractorRegistry.SubclassesOfFirst | featurex/extractors/__init__.py:55-60 | the list `get_subclasses` holds after its loop has handled the first k direct subclasses: each followed by its own subclass list |
| ExtractorRegistry.Subclasses | featurex/extractors/__init__.py:55-60 | the list `get_subclasses` returns: the loop over all direct subclasses |
| ExtractorRegistry.GetSubclasses | featurex/extractors/__init__.py:55-60 | the append/extend loop returns `Subclasses(cls)`, the pre-order list of descendants |
| ExtractorRegistry.SubclassesLength | featurex/extractors/__init__.py:55-60 | the list has one entry per class of the tree except its root |
| ExtractorRegistry.SubclassesMembers | featurex/extractors/__init__.py:55-60 | a class is in the list if and only if it descends from the root at some depth |
| ExtractorRegistry.NotOwnSubclass | featurex/extractors/__init__.py:55-60 | a class is neither in its own list nor its own descendant |
| ExtractorRegistry.SubclassesOfFirstPrefix | featurex/extractors/__init__.py:57-59 | the list built from the first j direct subclasses is a prefix of the list built from the first k, for j <= k |
| ExtractorRegistry.PreOrder | featurex/extractors/__init__.py:57-59 | the i-th direct subclass sits at the start of its block, followed immediately by its own full subclass list |
| ExtractorRegistry.ChildrenInOrder | featurex/extractors/__init__.py:57-59 | the block of an earlier direct subclass ends before the block of a later one begins |
| ExtractorRegistry.Candidates | featurex/extractors/__init__.py:62 | the `StimExtractor` list followed by the `ExtractorCollection` list |
| ExtractorRegistry.CandidatesShape | featurex/extractors/__init__.py:62 | the candidates are the `StimExtractor` descendants followed by the `ExtractorCollection` descendants, and nothing else |
| ExtractorRegistry.Matches | featurex/extractors/__init__.py:65 | the test of line 65: the lower-cased class name, cut after its last `.`, equals the key |
| ExtractorRegistry.FirstMatch | featurex/extractors/__init__.py:64-66 | a found index matches and no earlier candidate does; if none is found, no candidate matches |
| ExtractorRegistry.NotFoundMessage | featurex/extractors/__init__.py:68 | the message is 28 characters longer than the name and embeds it after the leading text |
| ExtractorRegistry.LookupSameKey | featurex/extractors/__init__.py:64-66 | names with the same normalised lower-cased key give the same outcome and the same class |
| ExtractorRegistry.LookupSuffixOptional | featurex/extractors/__init__.py:45-52 | a name lacking the suffix is looked up exactly like the name with the suffix appended, error message included |
| ExtractorRegistry.NormalizeKeyIgnoresCase | featurex/extractors/__init__.py:51-52 | names that are equal after lower-casing reach the same key |
| ExtractorRegistry.LookupIgnoresCase | featurex/extractors/__init__.py:43-45 | names that differ only in case find the same class, or both fail |
| ExtractorRegistry.StftSpellingsResolveAlike | featurex/extractors/__init__.py:45-52 | `stft`, `stftextractor` and `STFTExtractor` give the same outcome and the same class in every class tree |
| ExtractorRegistry.Lookup | featurex/extractors/__init__.py:40-68 | the outcome of `get_extractor` as a function: the first candidate matching the lower-cased normalised name, else the error naming the normalised name; `GetExtractor` is proved equal to it |
| ExtractorRegistry.GetExtractor | featurex/extractors/__init__.py:40-68 | returns the first candidate whose lower-cased last name segment equals the lower-cased suffixed name; fails if and only if no candidate matches, with the message naming the suffixed name |
| Text.SplitLast | featurex/extractors/__init__.py:65 | `s.split(sep)[-1]`, built from the end of `s` back to its last separator |
| Text.SplitLastIsSuffix | featurex/extractors/__init__.py:65 | `split('.')[-1]` is the separator-free suffix after the last separator, or the whole name when it has none |
| ExtractorRegistry.Extractor.constructor | featurex/extractors/__init__.py:8-11 | `name` defaults to the class name, else is the given name |
| ExtractorRegistry.ExtractorCollection.constructor | featurex/extractors/__init__.py:31-34 | `extractors` defaults to the empty list, else is the given list |
| FaceRecognition.FaceRecognitionExtractor.GetFeatureNames | pliers/extractors/image.py:113-114 | each concrete extractor reports its own `_feature` name, which contains no `%` |
| FaceRecognition.FeatureNamesDistinct | pliers/extractors/image.py:129-162 | different face_recognition extractors report different feature names |
| FaceRecognition.NumberedLabel | pliers/extractors/image.py:125 | `'%s_%d' % (feature, i + 1)`: the feature name, `_`, and the 1-based face number |
| FaceRecognition.FeatureToDf | pliers/extractors/image.py:122-126 | one label per face, and the series data are the raw values unchanged and in order |
| FaceRecognition.FeatureColumnsAt | pliers/extractors/image.py:123-125 | with one face the label is the feature name; otherwise label i is the feature name, `_`, and a number without a leading zero that reads back as i + 1 |
| FaceRecognition.FeatureColumnsDistinct | pliers/extractors/image.py:123-125 | no two faces share a label |
| FaceRecognition.LandmarkLabel | pliers/extractors/image.py:146-147 | the label of a key of face i, for a feature name without `%`: `feature_key` with one face, `feature_key_n` with `n` the 1-based face number otherwise |
| FaceRecognition.FaceLabels | pliers/extractors/image.py:151-153 | the labels the inner loop appends for one face i: one per item of its dict, in dict order, each the `LandmarkLabel` of that item's key |
| FaceRecognition.FaceValues | pliers/extractors/image.py:151-152 | the values the inner loop appends for one face: one per item of its dict, in dict order, each that item's value |
| FaceRecognition.LandmarkLabels | pliers/extractors/image.py:150-153 | the index the outer loop builds: the `FaceLabels` of each face in turn, each face numbered by its position |
| FaceRecognition.LandmarkValues | pliers/extractors/image.py:150-152 | the data the outer loop builds: the `FaceValues` of each face in turn |
| FaceRecognition.LandmarksToDf | pliers/extractors/image.py:144-154 | the nested loops produce exactly the labels and values of every face's items, face by face and in dict order |
| FaceRecognition.LandmarksLength | pliers/extractors/image.py:148-153 | the index and the data both have one entry per landmark key over all faces |
| FaceRecognition.LandmarkAt | pliers/extractors/image.py:150-153 | key j of face i sits at the count of the earlier faces' keys plus j, with its label in the index and its value in the data |
| FaceRecognition.LandmarkPosition | pliers/extractors/image.py:150-153 | every position of the index belongs to some key of some face |
| FaceRecognition.LandmarkLabelInjective | pliers/extractors/image.py:146-147 | a landmark label determines its key and its face number |
| FaceRecognition.LandmarkLabelsDistinct | pliers/extractors/image.py:146-153 | when each face's dict has distinct keys, the index has no repeated label |
| Decimal.DigitValue | pliers/extractors/image.py:125 | a character has a digit value exactly when it is a decimal digit, and that value renders back as the character |
| Decimal.NatToString | pliers/extractors/image.py:125 | `'%d'` of a natural number is a non-empty run of decimal digits that starts with `0` only for zero |
| Decimal.ParseNatToString | pliers/extractors/image.py:125 | reading back the rendering of n gives n |
| Decimal.NatToStringInjective | pliers/extractors/image.py:125 | different face numbers render differently |

## Left out

- Returning an instance: `get_extractor` calls the class it finds. The model returns the matched `ClassNode`, because the constructors of the concrete extractors are no part of this model.
- Python introspection: `__subclasses__()` and `__name__` are replaced by an explicit class tree. A class that inherits from two classes of the tree appears under each of them, so `get_subclasses` collects it once per path, as the source does; the tree does not record that the two copies are one class.
- The abstract `apply` and `target` members of `Extractor`, `StimExtractor` and `ExtractorCollection` have no behaviour to model.
- ExtractorRegistry.Lower: models `str.lower()` on ASCII letters only. Non-ASCII case mapping is a Unicode table that is not modelled.
- FaceRecognition.LandmarksToDf: builds each label directly as `feature_key` or `feature_key_n`. The source builds it by concatenation and one `%` with one face (lines 146 and 153), and by two rounds of `%` with several faces (lines 147 and 153). The two agree because no `_feature` contains `%` (GetFeatureNames) and the key is substituted as a string; the label functions therefore require a feature name without `%`, and a name holding `%` (for which the source gives another label or fails) is not modelled.
- FaceRecognition.FeatureToDf and FaceRecognition.LandmarksToDf: return the series as its two sequences. The pandas `Series(...).to_frame().T` one-row table is not modelled.
- ExtractorRegistry.ExtractorCollection.constructor: stores the given list as a value. The source keeps a reference to the caller's list, so later changes to that list show in the collection; that aliasing is not modelled.
- `FaceRecognitionFeatureExtractor.__init__` and `_extract` call the face_recognition library, which is not part of this model. `verify_dependencies`, `attempt_to_import`, `listify` and `ExtractorResult` are not part of this model either. The face values are an opaque type parameter.
- The brightness, sharpness, vibrance and saliency extractors in the same file compute with numpy and OpenCV on pixel data (floating point), which is not modelled.
- Converters, conversion chains, history strings and `get_converter` are exercised by the tests in `pliers/tests`. Their implementations are not part of this model.
