/**
 * Extractor lookup by name (`get_extractor` in featurex/extractors/__init__.py)
 * and the defaults that the `Extractor` and `ExtractorCollection` constructors
 * set.
 *
 * The Python class hierarchy is given explicitly as a tree of `ClassNode`s:
 * the children of a node are its direct subclasses in the order
 * `__subclasses__()` lists them. The lookup returns the matching node instead
 * of an instance of the class.
 */
module ExtractorRegistry {
  import opened Wrappers
  import Text

  // ---------------------------------------------------------------------
  // Text helpers: ASCII lower-casing and the suffix test
  // ---------------------------------------------------------------------

  /** Python's `str.lower()` on one character, restricted to ASCII. */
  function LowerChar(c: char): (r: char)
    ensures !('A' <= r <= 'Z')
    ensures 'A' <= c <= 'Z' ==> 'a' <= r <= 'z' && r as int - 'a' as int == c as int - 'A' as int
    ensures !('A' <= c <= 'Z') ==> r == c
  {
    if 'A' <= c <= 'Z' then (c as int - 'A' as int + 'a' as int) as char else c
  }

  /** Python's `str.lower()`, restricted to ASCII. */
  function Lower(s: string): (r: string)
    ensures |r| == |s|
  {
    seq(|s|, i requires 0 <= i < |s| => LowerChar(s[i]))
  }

  /** Lower-casing goes character by character, so it distributes over `+`. */
  lemma LowerConcat(a: string, b: string)
    ensures Lower(a + b) == Lower(a) + Lower(b)
  {
    assert forall i :: 0 <= i < |a + b| ==> Lower(a + b)[i] == (Lower(a) + Lower(b))[i];
  }

  /** A lower-cased string is its own lower-casing. */
  lemma LowerIdempotent(s: string)
    ensures Lower(Lower(s)) == Lower(s)
  {
    assert forall i :: 0 <= i < |s| ==> Lower(Lower(s))[i] == Lower(s)[i];
  }

  /** Python's `s.endswith(suffix)`. */
  predicate EndsWith(s: string, suffix: string)
  {
    |suffix| <= |s| && s[|s| - |suffix|..] == suffix
  }

  // ---------------------------------------------------------------------
  // Name normalisation (lines 51-52)
  // ---------------------------------------------------------------------

  /** The suffix every extractor class name carries. */
  const Suffix: string := "extractor"

  lemma SuffixIsLower()
    ensures Lower(Suffix) == Suffix
  {
    assert forall i :: 0 <= i < |Suffix| ==> 'a' <= Suffix[i] <= 'z';
  }

  /**
   * The requested name after `get_extractor` has appended the suffix: the
   * suffix is appended exactly when the lower-cased name does not already
   * end with it, and afterwards the lower-cased name always does.
   */
  function Normalize(name: string): (r: string)
    ensures EndsWith(Lower(r), Suffix)
    ensures EndsWith(Lower(name), Suffix) ==> r == name
    ensures !EndsWith(Lower(name), Suffix) ==> r == name + Suffix
  {
    if EndsWith(Lower(name), Suffix) then name
    else
      LowerConcat(name, Suffix);
      SuffixIsLower();
      name + Suffix
  }

  /** Normalising twice appends the suffix at most once. */
  lemma NormalizeIdempotent(name: string)
    ensures Normalize(Normalize(name)) == Normalize(name)
    ensures Normalize(name) == name || Normalize(name) == name + Suffix
  {
  }

  /**
   * `stft` and `stftextractor`, the two spellings the docstring gives, and the
   * mixed-case `STFTExtractor` reach the same key.
   */
  lemma SpellingsAgree()
    ensures Lower(Normalize("stft")) == "stftextractor"
    ensures Lower(Normalize("stftextractor")) == "stftextractor"
    ensures Lower(Normalize("STFTExtractor")) == "stftextractor"
  {
    var a, b, c := "stft", "stftextractor", "STFTExtractor";
    assert Lower(a)[|a| - 1] != Suffix[|Suffix| - 1];
    assert !EndsWith(Lower(a), Suffix);
    assert Normalize(a) == "stftextractor";
    assert Lower(b) == b;
    assert Lower(c) == "stftextractor" by {
      assert forall i :: 0 <= i < |c| ==> Lower(c)[i] == "stftextractor"[i];
    }
  }

  // ---------------------------------------------------------------------
  // The class tree and `get_subclasses` (lines 55-60)
  // ---------------------------------------------------------------------

  /** A class and its direct subclasses, in `__subclasses__()` order. */
  datatype ClassNode = ClassNode(name: string, children: seq<ClassNode>)

  /**
   * What `get_subclasses(n)` has collected after its loop has handled the
   * first `k` direct subclasses: each one followed by its own subclasses.
   */
  function SubclassesOfFirst(n: ClassNode, k: nat): seq<ClassNode>
    requires k <= |n.children|
    decreases n, k
  {
    if k == 0 then []
    else
      var sc := n.children[k - 1];
      SubclassesOfFirst(n, k - 1) + [sc] + SubclassesOfFirst(sc, |sc.children|)
  }

  /** The result of `get_subclasses(n)`. */
  function Subclasses(n: ClassNode): seq<ClassNode>
  {
    SubclassesOfFirst(n, |n.children|)
  }

  /** The number of classes in the tree rooted at `n`, `n` included. */
  function Size(n: ClassNode): nat
    decreases n, 1
  {
    1 + SizeOfFirst(n, |n.children|)
  }

  /** The number of classes in the trees of the first `k` direct subclasses. */
  function SizeOfFirst(n: ClassNode, k: nat): nat
    requires k <= |n.children|
    decreases n, 0, k
  {
    if k == 0 then 0 else SizeOfFirst(n, k - 1) + Size(n.children[k - 1])
  }

  /** `d` descends from `n` at some depth (Python's `issubclass(d, n) and d is not n`). */
  ghost predicate IsSubclass(d: ClassNode, n: ClassNode)
    decreases n
  {
    exists i :: 0 <= i < |n.children| && (n.children[i] == d || IsSubclass(d, n.children[i]))
  }

  /**
   * `get_subclasses`: a pre-order walk that appends each direct subclass and
   * then extends the list with that subclass's own subclasses.
   */
  method GetSubclasses(cls: ClassNode) returns (subclasses: seq<ClassNode>)
    ensures subclasses == Subclasses(cls)
    decreases cls
  {
    subclasses := [];
    for i := 0 to |cls.children|
      invariant subclasses == SubclassesOfFirst(cls, i)
    {
      var sc := cls.children[i];
      subclasses := subclasses + [sc];
      var deeper := GetSubclasses(sc);
      subclasses := subclasses + deeper;
    }
  }

  lemma {:induction false} SubclassesOfFirstLength(n: ClassNode, k: nat)
    requires k <= |n.children|
    ensures |SubclassesOfFirst(n, k)| == SizeOfFirst(n, k)
    decreases n, k
  {
    if k > 0 {
      var sc := n.children[k - 1];
      SubclassesOfFirstLength(n, k - 1);
      SubclassesOfFirstLength(sc, |sc.children|);
    }
  }

  /** `get_subclasses(n)` lists every class of the tree below `n` once: its length is the tree's size minus the root. */
  lemma SubclassesLength(n: ClassNode)
    ensures |Subclasses(n)| == Size(n) - 1
  {
    SubclassesOfFirstLength(n, |n.children|);
  }

  lemma {:induction false} SubclassesOfFirstMembers(n: ClassNode, k: nat, d: ClassNode)
    requires k <= |n.children|
    ensures d in SubclassesOfFirst(n, k) <==>
            exists i :: 0 <= i < k && (n.children[i] == d || IsSubclass(d, n.children[i]))
    decreases n, k
  {
    if k > 0 {
      var sc := n.children[k - 1];
      SubclassesOfFirstMembers(n, k - 1, d);
      SubclassesOfFirstMembers(sc, |sc.children|, d);
      if d in SubclassesOfFirst(n, k) {
        if d in SubclassesOfFirst(n, k - 1) {
          var i :| 0 <= i < k - 1 && (n.children[i] == d || IsSubclass(d, n.children[i]));
          assert 0 <= i < k;
        } else {
          assert sc == d || IsSubclass(d, sc);
        }
      }
    }
  }

  /** `get_subclasses(n)` contains exactly the classes descending from `n`, at any depth. */
  lemma SubclassesMembers(n: ClassNode, d: ClassNode)
    ensures d in Subclasses(n) <==> IsSubclass(d, n)
  {
    SubclassesOfFirstMembers(n, |n.children|, d);
  }

  lemma {:induction false} SubclassesOfFirstSmaller(n: ClassNode, k: nat, d: ClassNode)
    requires k <= |n.children|
    requires d in SubclassesOfFirst(n, k)
    ensures Size(d) <= SizeOfFirst(n, k)
    decreases n, k
  {
    var sc := n.children[k - 1];
    if d in SubclassesOfFirst(n, k - 1) {
      SubclassesOfFirstSmaller(n, k - 1, d);
    } else if d != sc {
      SubclassesOfFirstSmaller(sc, |sc.children|, d);
    }
  }

  /** A class is never among its own subclasses. */
  lemma NotOwnSubclass(n: ClassNode)
    ensures n !in Subclasses(n)
    ensures !IsSubclass(n, n)
  {
    if n in Subclasses(n) {
      SubclassesOfFirstSmaller(n, |n.children|, n);
    }
    SubclassesMembers(n, n);
  }

  /** The first `j` blocks are a prefix of the first `k` blocks, and take `SizeOfFirst(n, j)` places. */
  lemma {:induction false} SubclassesOfFirstPrefix(n: ClassNode, j: nat, k: nat)
    requires j <= k <= |n.children|
    ensures SizeOfFirst(n, j) <= SizeOfFirst(n, k) == |SubclassesOfFirst(n, k)|
    ensures SubclassesOfFirst(n, k)[..SizeOfFirst(n, j)] == SubclassesOfFirst(n, j)
    decreases k
  {
    SubclassesOfFirstLength(n, k);
    SubclassesOfFirstLength(n, j);
    if j < k {
      SubclassesOfFirstPrefix(n, j, k - 1);
    }
  }

  /**
   * Pre-order: direct subclass `i` of `n` sits at offset `SizeOfFirst(n, i)`
   * of `get_subclasses(n)`, immediately followed by its own subclasses, which
   * fill the places up to `SizeOfFirst(n, i + 1)`.
   */
  lemma PreOrder(n: ClassNode, i: nat)
    requires i < |n.children|
    ensures SizeOfFirst(n, i) < SizeOfFirst(n, i + 1) <= |Subclasses(n)|
    ensures Subclasses(n)[SizeOfFirst(n, i)] == n.children[i]
    ensures Subclasses(n)[SizeOfFirst(n, i) + 1..SizeOfFirst(n, i + 1)] == Subclasses(n.children[i])
  {
    var sc := n.children[i];
    SubclassesOfFirstLength(n, i);
    SubclassesLength(sc);
    SubclassesOfFirstPrefix(n, i + 1, |n.children|);
    BlockInPrefix(Subclasses(n), SubclassesOfFirst(n, i), sc, Subclasses(sc),
                  SizeOfFirst(n, i), SizeOfFirst(n, i + 1));
  }

  /**
   * A sequence that starts with `before + [x] + rest` holds `x` at `at`, the
   * length of `before`, and then `rest` up to `end`.
   */
  lemma BlockInPrefix<T>(all: seq<T>, before: seq<T>, x: T, rest: seq<T>, at: nat, end: nat)
    requires at == |before| && end == at + 1 + |rest| && end <= |all|
    requires all[..end] == before + [x] + rest
    ensures all[at] == x
    ensures all[at + 1..end] == rest
  {
    var block := before + [x] + rest;
    assert all[at] == block[at];
    assert all[at + 1..end] == block[at + 1..];
  }

  /**
   * Direct subclasses keep their order: the block of subclass `i` (itself
   * and its subclasses) ends before the block of subclass `j > i` starts.
   */
  lemma {:induction false} ChildrenInOrder(n: ClassNode, i: nat, j: nat)
    requires i < j < |n.children|
    ensures SizeOfFirst(n, i) < SizeOfFirst(n, i + 1) <= SizeOfFirst(n, j)
    decreases j
  {
    if i < j - 1 {
      ChildrenInOrder(n, i, j - 1);
    }
  }

  // ---------------------------------------------------------------------
  // Candidates and the first-match search (lines 62-68)
  // ---------------------------------------------------------------------

  /** `get_subclasses(StimExtractor) + get_subclasses(ExtractorCollection)`. */
  function Candidates(stimExtractor: ClassNode, extractorCollection: ClassNode): seq<ClassNode>
  {
    Subclasses(stimExtractor) + Subclasses(extractorCollection)
  }

  /**
   * The candidate list holds the two subtrees without their roots, the
   * `StimExtractor` part first, and exactly the descendants of either root.
   */
  lemma CandidatesShape(stimExtractor: ClassNode, extractorCollection: ClassNode, d: ClassNode)
    ensures |Candidates(stimExtractor, extractorCollection)|
            == (Size(stimExtractor) - 1) + (Size(extractorCollection) - 1)
    ensures Candidates(stimExtractor, extractorCollection)[..Size(stimExtractor) - 1]
            == Subclasses(stimExtractor)
    ensures d in Candidates(stimExtractor, extractorCollection)
            <==> IsSubclass(d, stimExtractor) || IsSubclass(d, extractorCollection)
  {
    SubclassesLength(stimExtractor);
    SubclassesLength(extractorCollection);
    SubclassesMembers(stimExtractor, d);
    SubclassesMembers(extractorCollection, d);
  }

  /** The test in line 65: the lower-cased last dotted segment of the class name equals `key`. */
  predicate Matches(c: ClassNode, key: string)
  {
    Text.SplitLast(Lower(c.name), '.') == key
  }

  /** The index of the first candidate that matches `key`, if any. */
  function FirstMatch(cands: seq<ClassNode>, key: string): (r: Option<nat>)
    ensures r.Some? ==> r.value < |cands| && Matches(cands[r.value], key)
    ensures r.Some? ==> forall j :: 0 <= j < r.value ==> !Matches(cands[j], key)
    ensures r.None? ==> forall j :: 0 <= j < |cands| ==> !Matches(cands[j], key)
    decreases |cands|
  {
    if cands == [] then None
    else if Matches(cands[0], key) then Some(0)
    else
      match FirstMatch(cands[1..], key)
      case None => None
      case Some(k) => Some(k + 1)
  }

  /** The message of the `KeyError` raised in line 68. */
  function NotFoundMessage(name: string): (msg: string)
    ensures |msg| == |name| + 28 && msg[20..20 + |name|] == name
  {
    "No extractor named '" + name + "' found."
  }

  /** What `get_extractor(name)` returns, as a function of the name and the two subtrees. */
  function Lookup(name: string, stimExtractor: ClassNode, extractorCollection: ClassNode)
    : Result<ClassNode, string>
  {
    var cands := Candidates(stimExtractor, extractorCollection);
    match FirstMatch(cands, Lower(Normalize(name)))
    case Some(k) => Ok(cands[k])
    case None => Err(NotFoundMessage(Normalize(name)))
  }

  /**
   * Names that normalise to the same lower-cased key resolve to the same
   * class, or both fail.
   */
  lemma LookupSameKey(a: string, b: string, stimExtractor: ClassNode, extractorCollection: ClassNode)
    requires Lower(Normalize(a)) == Lower(Normalize(b))
    ensures Lookup(a, stimExtractor, extractorCollection).Ok?
            == Lookup(b, stimExtractor, extractorCollection).Ok?
    ensures Lookup(a, stimExtractor, extractorCollection).Ok? ==>
            Lookup(a, stimExtractor, extractorCollection).value
            == Lookup(b, stimExtractor, extractorCollection).value
  {
  }

  /**
   * The suffix may be dropped: a name that lacks it is looked up exactly as
   * the name with the suffix appended, down to the error message.
   */
  lemma LookupSuffixOptional(name: string, stimExtractor: ClassNode, extractorCollection: ClassNode)
    requires !EndsWith(Lower(name), Suffix)
    ensures Lookup(name, stimExtractor, extractorCollection)
            == Lookup(name + Suffix, stimExtractor, extractorCollection)
  {
    assert Normalize(name) == name + Suffix;
    assert Normalize(name + Suffix) == name + Suffix;
  }

  /** Names that differ only in the case of their letters normalise to the same key. */
  lemma NormalizeKeyIgnoresCase(a: string, b: string)
    requires Lower(a) == Lower(b)
    ensures Lower(Normalize(a)) == Lower(Normalize(b))
  {
    if !EndsWith(Lower(a), Suffix) {
      LowerConcat(a, Suffix);
      LowerConcat(b, Suffix);
    }
  }

  /**
   * The lookup is case-insensitive: names that differ only in case find the
   * same class, or both fail (the messages then keep each caller's case).
   */
  lemma LookupIgnoresCase(a: string, b: string, stimExtractor: ClassNode, extractorCollection: ClassNode)
    requires Lower(a) == Lower(b)
    ensures Lookup(a, stimExtractor, extractorCollection).Ok?
            == Lookup(b, stimExtractor, extractorCollection).Ok?
    ensures Lookup(a, stimExtractor, extractorCollection).Ok? ==>
            Lookup(a, stimExtractor, extractorCollection).value
            == Lookup(b, stimExtractor, extractorCollection).value
  {
    NormalizeKeyIgnoresCase(a, b);
    LookupSameKey(a, b, stimExtractor, extractorCollection);
  }

  /** `'stft'`, `'stftextractor'` and `'STFTExtractor'` find the same class. */
  lemma StftSpellingsResolveAlike(stimExtractor: ClassNode, extractorCollection: ClassNode)
    ensures Lookup("stft", stimExtractor, extractorCollection).Ok?
            == Lookup("STFTExtractor", stimExtractor, extractorCollection).Ok?
            == Lookup("stftextractor", stimExtractor, extractorCollection).Ok?
    ensures Lookup("stft", stimExtractor, extractorCollection).Ok? ==>
            Lookup("stft", stimExtractor, extractorCollection).value
            == Lookup("STFTExtractor", stimExtractor, extractorCollection).value
            == Lookup("stftextractor", stimExtractor, extractorCollection).value
  {
    SpellingsAgree();
    LookupSameKey("stft", "STFTExtractor", stimExtractor, extractorCollection);
    LookupSameKey("stft", "stftextractor", stimExtractor, extractorCollection);
  }

  /**
   * `get_extractor`: appends the suffix if needed, collects the candidates and
   * returns the first whose lower-cased last name segment equals the
   * lower-cased name; otherwise fails with the `KeyError` message naming the
   * suffixed name.
   */
  method GetExtractor(name: string, stimExtractor: ClassNode, extractorCollection: ClassNode)
    returns (r: Result<ClassNode, string>)
    ensures r == Lookup(name, stimExtractor, extractorCollection)
    ensures r.Ok? ==>
      var cands := Candidates(stimExtractor, extractorCollection);
      exists k :: 0 <= k < |cands| && cands[k] == r.value
        && Matches(cands[k], Lower(Normalize(name)))
        && forall j :: 0 <= j < k ==> !Matches(cands[j], Lower(Normalize(name)))
    ensures r.Err? <==>
      forall c :: c in Candidates(stimExtractor, extractorCollection) ==>
        !Matches(c, Lower(Normalize(name)))
    ensures r.Err? ==> r.error == NotFoundMessage(Normalize(name))
  {
    var n := name;
    if !EndsWith(Lower(n), Suffix) {
      n := n + Suffix;
    }
    var stims := GetSubclasses(stimExtractor);
    var collections := GetSubclasses(extractorCollection);
    var extractors := stims + collections;
    var key := Lower(n);
    for i := 0 to |extractors|
      invariant forall j :: 0 <= j < i ==> !Matches(extractors[j], key)
    {
      if Text.SplitLast(Lower(extractors[i].name), '.') == key {
        return Ok(extractors[i]);
      }
    }
    return Err(NotFoundMessage(n));
  }

  // ---------------------------------------------------------------------
  // Constructors (lines 8-11 and 31-34)
  // ---------------------------------------------------------------------

  /** The base `Extractor`: its `name` defaults to the name of its class. */
  class Extractor {
    var name: string

    /** `Extractor(name=None)`; `className` is `self.__class__.__name__`. */
    constructor (className: string, name: Option<string>)
      ensures name.None? ==> this.name == className
      ensures name.Some? ==> this.name == name.value
    {
      this.name := if name.None? then className else name.value;
    }
  }

  /**
   * `ExtractorCollection`: its constructor does not call the base
   * constructor, so it sets no `name`, only `extractors`, which defaults to
   * an empty list.
   */
  class ExtractorCollection {
    var extractors: seq<Extractor>

    constructor (extractors: Option<seq<Extractor>>)
      ensures extractors.None? ==> this.extractors == []
      ensures extractors.Some? ==> this.extractors == extractors.value
    {
      this.extractors := if extractors.None? then [] else extractors.value;
    }
  }
}
