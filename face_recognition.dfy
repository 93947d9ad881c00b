/**
 * Column labels of the face_recognition extractors in
 * pliers/extractors/image.py: the `to_df` methods of
 * `FaceRecognitionFeatureExtractor` and `FaceRecognitionFaceLandmarksExtractor`,
 * and `get_feature_names`.
 *
 * A pandas `Series(data, index=index)` is modelled by its two sequences; the
 * `.to_frame().T` that turns it into a one-row table is not modelled.
 */
module FaceRecognition {
  import opened Wrappers
  import opened Decimal
  import Text

  /** A `pd.Series`: the values and, aligned with them, their labels. */
  datatype Series<V> = Series(index: seq<string>, data: seq<V>)

  /** The concrete face_recognition extractors; each fixes the `_feature` class attribute. */
  datatype FaceRecognitionExtractor =
    | FaceEncodingsExtractor
    | FaceLandmarksExtractor
    | FaceLocationsExtractor
  {
    /**
     * `get_feature_names`: the `_feature` attribute of the subclass. None of
     * them holds a `%`, so `%`-formatting a label template built from it
     * copies it verbatim.
     */
    function GetFeatureNames(): (r: string)
      ensures FaceEncodingsExtractor? ==> r == "face_encodings"
      ensures FaceLandmarksExtractor? ==> r == "face_landmarks"
      ensures FaceLocationsExtractor? ==> r == "face_locations"
      ensures '%' !in r
    {
      match this
      case FaceEncodingsExtractor => "face_encodings"
      case FaceLandmarksExtractor => "face_landmarks"
      case FaceLocationsExtractor => "face_locations"
    }
  }

  /** Distinct extractors report distinct feature names. */
  lemma FeatureNamesDistinct(a: FaceRecognitionExtractor, b: FaceRecognitionExtractor)
    requires a != b
    ensures a.GetFeatureNames() != b.GetFeatureNames()
  {
    var x, y := a.GetFeatureNames(), b.GetFeatureNames();
    assert x[6] != y[6] || x[7] != y[7];
  }

  // ---------------------------------------------------------------------
  // FaceRecognitionFeatureExtractor.to_df (lines 122-126)
  // ---------------------------------------------------------------------

  /** The label of face `i` (0-based) among several: `'%s_%d' % (feature, i + 1)`. */
  function NumberedLabel(feature: string, i: nat): string
  {
    feature + "_" + NatToString(i + 1)
  }

  /** `to_df` of the generic extractor: one column per face, holding the raw value of that face. */
  function FeatureToDf<V>(feature: string, raw: seq<V>): (s: Series<V>)
    ensures |s.index| == |raw|
    ensures s.data == raw
  {
    var cols := if |raw| == 1 then [feature]
                else seq(|raw|, i requires 0 <= i < |raw| => NumberedLabel(feature, i));
    Series(cols, raw)
  }

  /**
   * One face gives the bare feature name; any other count `n`, zero
   * included, gives `feature_1 ... feature_n`: label `i` is the feature
   * name, an underscore and a number without a leading zero that reads
   * back as `i + 1`.
   */
  lemma FeatureColumnsAt<V>(feature: string, raw: seq<V>, i: nat)
    requires i < |raw|
    ensures |raw| == 1 ==> FeatureToDf(feature, raw).index[i] == feature
    ensures |raw| != 1 ==>
      var col := FeatureToDf(feature, raw).index[i];
      |feature| + 1 < |col|
      && col[..|feature| + 1] == feature + "_"
      && col[|feature| + 1] != '0'
      && ParseDecimal(col[|feature| + 1..]) == Some(i + 1)
  {
    if |raw| != 1 {
      var col := FeatureToDf(feature, raw).index[i];
      assert col == NumberedLabel(feature, i);
      assert col[|feature| + 1..] == NatToString(i + 1);
      ParseNatToString(i + 1);
    }
  }

  /** No two faces share a column label. */
  lemma FeatureColumnsDistinct<V>(feature: string, raw: seq<V>, i: nat, j: nat)
    requires i < |raw| && j < |raw| && i != j
    ensures FeatureToDf(feature, raw).index[i] != FeatureToDf(feature, raw).index[j]
  {
    FeatureColumnsAt(feature, raw, i);
    FeatureColumnsAt(feature, raw, j);
  }

  // ---------------------------------------------------------------------
  // FaceRecognitionFaceLandmarksExtractor.to_df (lines 144-154)
  // ---------------------------------------------------------------------

  /** One face's landmarks dict, as its (key, value) items in the dict's order. */
  type Face<V> = seq<(string, V)>

  /**
   * The label of landmark `key` of face `i` (0-based) out of `nFaces`:
   * the column template `columns[i]` with `key` put in for its `%s`. Built
   * directly, which agrees with the source's formatting for a feature name
   * without `%`, as every `GetFeatureNames()` is.
   */
  function LandmarkLabel(feature: string, key: string, i: nat, nFaces: nat): string
    requires '%' !in feature
  {
    if nFaces == 1 then feature + "_" + key
    else feature + "_" + key + "_" + NatToString(i + 1)
  }

  /** The labels that the inner loop produces for face `i`. */
  function FaceLabels<V>(feature: string, face: Face<V>, i: nat, nFaces: nat): (r: seq<string>)
    requires '%' !in feature
    ensures |r| == |face|
    ensures forall j :: 0 <= j < |face| ==> r[j] == LandmarkLabel(feature, face[j].0, i, nFaces)
  {
    seq(|face|, j requires 0 <= j < |face| => LandmarkLabel(feature, face[j].0, i, nFaces))
  }

  /** The values that the inner loop produces for one face. */
  function FaceValues<V>(face: Face<V>): (r: seq<V>)
    ensures |r| == |face|
    ensures forall j :: 0 <= j < |face| ==> r[j] == face[j].1
  {
    seq(|face|, j requires 0 <= j < |face| => face[j].1)
  }

  /** The labels of `faces`, face by face, each face numbered by its position. */
  function LandmarkLabels<V>(feature: string, faces: seq<Face<V>>, nFaces: nat): seq<string>
    requires '%' !in feature
    decreases |faces|
  {
    if faces == [] then []
    else
      LandmarkLabels(feature, faces[..|faces| - 1], nFaces)
      + FaceLabels(feature, faces[|faces| - 1], |faces| - 1, nFaces)
  }

  /** The values of `faces`, face by face. */
  function LandmarkValues<V>(faces: seq<Face<V>>): seq<V>
    decreases |faces|
  {
    if faces == [] then []
    else LandmarkValues(faces[..|faces| - 1]) + FaceValues(faces[|faces| - 1])
  }

  /** The total number of keys across all face dicts. */
  function KeyCount<V>(faces: seq<Face<V>>): nat
    decreases |faces|
  {
    if faces == [] then 0 else KeyCount(faces[..|faces| - 1]) + |faces[|faces| - 1]|
  }

  /**
   * `to_df` of the landmarks extractor: for each face in order, and each
   * (key, value) of its dict in order, appends the value to `data` and the
   * label to `index`.
   */
  method LandmarksToDf<V>(feature: string, raw: seq<Face<V>>) returns (s: Series<V>)
    requires '%' !in feature
    ensures s.index == LandmarkLabels(feature, raw, |raw|)
    ensures s.data == LandmarkValues(raw)
  {
    var nFaces := |raw|;
    var data: seq<V> := [];
    var index: seq<string> := [];
    for i := 0 to nFaces
      invariant index == LandmarkLabels(feature, raw[..i], nFaces)
      invariant data == LandmarkValues(raw[..i])
    {
      var face := raw[i];
      for j := 0 to |face|
        invariant index == LandmarkLabels(feature, raw[..i], nFaces) + FaceLabels(feature, face[..j], i, nFaces)
        invariant data == LandmarkValues(raw[..i]) + FaceValues(face[..j])
      {
        var (k, v) := face[j];
        data := data + [v];
        index := index + [LandmarkLabel(feature, k, i, nFaces)];
        assert FaceLabels(feature, face[..j + 1], i, nFaces)
            == FaceLabels(feature, face[..j], i, nFaces) + [LandmarkLabel(feature, k, i, nFaces)];
        assert FaceValues(face[..j + 1]) == FaceValues(face[..j]) + [v];
      }
      assert face[..|face|] == face;
      assert raw[..i + 1][..i] == raw[..i];
    }
    assert raw[..nFaces] == raw;
    s := Series(index, data);
  }

  /** `index` and `data` have one entry per key of every face. */
  lemma {:induction false} LandmarksLength<V>(feature: string, faces: seq<Face<V>>, nFaces: nat)
    requires '%' !in feature
    ensures |LandmarkLabels(feature, faces, nFaces)| == KeyCount(faces)
    ensures |LandmarkValues(faces)| == KeyCount(faces)
    decreases |faces|
  {
    if faces != [] {
      LandmarksLength(feature, faces[..|faces| - 1], nFaces);
    }
  }

  /**
   * Entries go face by face and, within a face, in its dict's key order:
   * key `j` of face `i` sits at `KeyCount(faces[..i]) + j`, where `index`
   * holds its label and `data` its value.
   */
  lemma {:induction false} LandmarkAt<V>(feature: string, faces: seq<Face<V>>, nFaces: nat, i: nat, j: nat)
    requires '%' !in feature
    requires i < |faces| && j < |faces[i]|
    ensures KeyCount(faces[..i]) + j < KeyCount(faces)
    ensures KeyCount(faces[..i]) + j < |LandmarkLabels(feature, faces, nFaces)|
    ensures KeyCount(faces[..i]) + j < |LandmarkValues(faces)|
    ensures LandmarkLabels(feature, faces, nFaces)[KeyCount(faces[..i]) + j]
            == LandmarkLabel(feature, faces[i][j].0, i, nFaces)
    ensures LandmarkValues(faces)[KeyCount(faces[..i]) + j] == faces[i][j].1
    decreases |faces|
  {
    var last := |faces| - 1;
    var init := faces[..last];
    LandmarksLength(feature, init, nFaces);
    LandmarksLength(feature, faces, nFaces);
    if i == last {
      assert faces[..i] == init;
    } else {
      LandmarkAt(feature, init, nFaces, i, j);
      assert init[..i] == faces[..i];
    }
  }

  /** Every position of `index` belongs to some key of some face. */
  lemma {:induction false} LandmarkPosition<V>(faces: seq<Face<V>>, p: nat) returns (i: nat, j: nat)
    requires p < KeyCount(faces)
    ensures i < |faces| && j < |faces[i]| && p == KeyCount(faces[..i]) + j
    decreases |faces|
  {
    var last := |faces| - 1;
    var init := faces[..last];
    if p < KeyCount(init) {
      i, j := LandmarkPosition(init, p);
      assert init[..i] == faces[..i];
    } else {
      i, j := last, p - KeyCount(init);
    }
  }

  /**
   * A label names its key and its face: with one face it is
   * `feature_key`, with several `feature_key_n` where `n` is the 1-based
   * face number, which holds no underscore.
   */
  lemma LandmarkLabelInjective(feature: string, k1: string, i1: nat, k2: string, i2: nat, nFaces: nat)
    requires '%' !in feature
    requires i1 < nFaces && i2 < nFaces
    requires LandmarkLabel(feature, k1, i1, nFaces) == LandmarkLabel(feature, k2, i2, nFaces)
    ensures k1 == k2 && i1 == i2
  {
    if nFaces == 1 {
      DropCommonPrefix(feature + "_", k1, k2);
    } else {
      var d1, d2 := NatToString(i1 + 1), NatToString(i2 + 1);
      SplitAtUnderscore(feature + "_" + k1, d1, feature + "_" + k2, d2);
      NatToStringInjective(i1 + 1, i2 + 1);
      DropCommonPrefix(feature + "_", k1, k2);
    }
  }

  lemma DropCommonPrefix(head: string, a: string, b: string)
    requires head + a == head + b
    ensures a == b
  {
    assert a == (head + a)[|head|..];
  }

  /** Joining with `_` a tail that has no `_` can be undone. */
  lemma SplitAtUnderscore(x1: string, d1: string, x2: string, d2: string)
    requires '_' !in d1 && '_' !in d2
    requires x1 + "_" + d1 == x2 + "_" + d2
    ensures x1 == x2 && d1 == d2
  {
    var s := x1 + "_" + d1;
    assert s == x1 + ['_'] + d1;
    assert s == x2 + ['_'] + d2;
    Text.SplitLastOfJoin(x1, '_', d1);
    Text.SplitLastOfJoin(x2, '_', d2);
    assert x1 == s[..|x1|];
    assert x2 == s[..|x2|];
  }

  /** The keys of a dict are distinct. */
  ghost predicate DistinctKeys<V>(face: Face<V>)
  {
    forall j1, j2 :: 0 <= j1 < |face| && 0 <= j2 < |face| && j1 != j2 ==> face[j1].0 != face[j2].0
  }

  /** Since every dict has distinct keys, `index` has no repeated label. */
  lemma LandmarkLabelsDistinct<V>(feature: string, raw: seq<Face<V>>, p: nat, q: nat)
    requires '%' !in feature
    requires forall i :: 0 <= i < |raw| ==> DistinctKeys(raw[i])
    requires p < q < |LandmarkLabels(feature, raw, |raw|)|
    ensures LandmarkLabels(feature, raw, |raw|)[p] != LandmarkLabels(feature, raw, |raw|)[q]
  {
    LandmarksLength(feature, raw, |raw|);
    var i1, j1 := LandmarkPosition(raw, p);
    var i2, j2 := LandmarkPosition(raw, q);
    LandmarkAt(feature, raw, |raw|, i1, j1);
    LandmarkAt(feature, raw, |raw|, i2, j2);
    var k1, k2 := raw[i1][j1].0, raw[i2][j2].0;
    if LandmarkLabel(feature, k1, i1, |raw|) == LandmarkLabel(feature, k2, i2, |raw|) {
      LandmarkLabelInjective(feature, k1, i1, k2, i2, |raw|);
      assert false;
    }
  }
}
