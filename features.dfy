/**
 * Feature validation of `SimpleModel` (dffml/model/model.py): a model
 * declares which data types, how many features and which lengths it
 * supports, and `applicable_features` either rejects a feature list or
 * returns its feature names in sorted order.
 */
module ModelFeatures {
  import opened Wrappers
  import opened Strings

  /** The Python type a feature declares as its `dtype`. */
  datatype DType = Int | Float | Str | Bool | OtherType(name: string)

  /** A declared feature: its name, data type and length (dimensions). */
  datatype Feature = Feature(name: string, dtype: DType, length: int)

  /**
   * The class-level constants `DTYPES`, `NUM_SUPPORTED_FEATURES` (-1 means
   * any number) and `SUPPORTED_LENGTHS` (`None` is `None`, a list is `Some`).
   */
  datatype Capabilities = Capabilities(
    dtypes: seq<DType>,
    numSupportedFeatures: int,
    supportedLengths: Option<seq<int>>)

  /** The constants `SimpleModel` itself declares. */
  const SimpleModelCapabilities := Capabilities([Int, Float], -1, None)

  /** One kind of `ValueError` per check. */
  datatype FeatureError =
    | UnsupportedFeatureCount(supported: int, given: nat)
    | UnsupportedDataType(dtype: DType)
    | UnsupportedDimensionality(length: int)

  /** The feature count is unrestricted, or equal to the declared one. */
  predicate CountAccepted(caps: Capabilities, n: nat)
  {
    caps.numSupportedFeatures == -1 || n == caps.numSupportedFeatures
  }

  /** No lengths are declared (`None` or an empty list), or `length` is one of them. */
  predicate LengthAccepted(caps: Capabilities, length: int)
  {
    match caps.supportedLengths
    case None => true
    case Some(lengths) => lengths == [] || length in lengths
  }

  predicate FeatureAccepted(caps: Capabilities, f: Feature)
  {
    f.dtype in caps.dtypes && LengthAccepted(caps, f.length)
  }

  /** `check_feature_dtype`: raises unless the data type is one of `DTYPES`. */
  function CheckFeatureDtype(caps: Capabilities, dtype: DType): (r: Outcome<FeatureError>)
    ensures r.Pass? <==> dtype in caps.dtypes
    ensures r.Fail? ==> r.error == UnsupportedDataType(dtype)
  {
    if dtype !in caps.dtypes then Fail(UnsupportedDataType(dtype)) else Pass
  }

  /**
   * `check_feature_length`: the test is on the truth value of
   * `SUPPORTED_LENGTHS`, so `None` and an empty list both accept every length.
   */
  function CheckFeatureLength(caps: Capabilities, length: int): (r: Outcome<FeatureError>)
    ensures r.Pass? <==> LengthAccepted(caps, length)
    ensures r.Fail? ==> r.error == UnsupportedDimensionality(length)
  {
    var truthy := caps.supportedLengths.Some? && |caps.supportedLengths.value| > 0;
    if truthy && length !in caps.supportedLengths.value then Fail(UnsupportedDimensionality(length))
    else Pass
  }

  /** `check_applicable_feature`: the data type check, then the length check; `True` otherwise. */
  function CheckApplicableFeature(caps: Capabilities, f: Feature): (r: Result<bool, FeatureError>)
    ensures r.Ok? ==> r.value
    ensures r.Ok? <==> FeatureAccepted(caps, f)
    ensures r.Err? && f.dtype !in caps.dtypes ==> r.error == UnsupportedDataType(f.dtype)
    ensures r.Err? && f.dtype in caps.dtypes ==> r.error == UnsupportedDimensionality(f.length)
  {
    match CheckFeatureDtype(caps, f.dtype)
    case Fail(e) => Err(e)
    case Pass =>
      match CheckFeatureLength(caps, f.length)
      case Fail(e) => Err(e)
      case Pass => Ok(true)
  }

  /** The `name` of each feature, in order. */
  function Names(fs: seq<Feature>): seq<string>
  {
    seq(|fs|, i requires 0 <= i < |fs| => fs[i].name)
  }

  /** The error of the first feature, in list order, that a check rejects. */
  function FirstRejection(caps: Capabilities, fs: seq<Feature>): (r: Option<FeatureError>)
    ensures r.None? <==> forall i :: 0 <= i < |fs| ==> FeatureAccepted(caps, fs[i])
    ensures r.Some? ==>
      (exists i :: 0 <= i < |fs| && !FeatureAccepted(caps, fs[i])
        && (forall j :: 0 <= j < i ==> FeatureAccepted(caps, fs[j]))
        && CheckApplicableFeature(caps, fs[i]) == Err(r.value))
  {
    if fs == [] then None
    else match CheckApplicableFeature(caps, fs[0])
      case Err(e) => Some(e)
      case Ok(_) =>
        var rest := FirstRejection(caps, fs[1..]);
        assert forall i :: 0 < i < |fs| ==> fs[i] == fs[1..][i - 1];
        rest
  }

  /**
   * What `applicable_features` returns or raises: the count check first,
   * then each feature in turn, then the sorted names.
   */
  function ApplicableFeaturesSpec(caps: Capabilities, fs: seq<Feature>): (r: Result<seq<string>, FeatureError>)
    ensures r.Ok? <==> CountAccepted(caps, |fs|) && forall i :: 0 <= i < |fs| ==> FeatureAccepted(caps, fs[i])
    ensures r.Ok? ==> Sorted(r.value) && multiset(r.value) == multiset(Names(fs)) && |r.value| == |fs|
  {
    if !CountAccepted(caps, |fs|) then Err(UnsupportedFeatureCount(caps.numSupportedFeatures, |fs|))
    else match FirstRejection(caps, fs)
      case Some(e) => Err(e)
      case None =>
        var r := SortStrings(Names(fs));
        assert |r| == |multiset(r)| == |multiset(Names(fs))| == |fs|;
        Ok(r)
  }

  /** A rejected feature after accepted ones decides the error. */
  lemma FirstRejectionAt(caps: Capabilities, fs: seq<Feature>, i: nat)
    requires i < |fs|
    requires forall j :: 0 <= j < i ==> FeatureAccepted(caps, fs[j])
    requires !FeatureAccepted(caps, fs[i])
    ensures FirstRejection(caps, fs) == Some(CheckApplicableFeature(caps, fs[i]).error)
  {
  }

  /** `applicable_features`: loops over the features collecting their names, then sorts them. */
  method ApplicableFeatures(caps: Capabilities, features: seq<Feature>) returns (r: Result<seq<string>, FeatureError>)
    ensures r == ApplicableFeaturesSpec(caps, features)
  {
    if caps.numSupportedFeatures != -1 && |features| != caps.numSupportedFeatures {
      return Err(UnsupportedFeatureCount(caps.numSupportedFeatures, |features|));
    }
    var usable: seq<string> := [];
    var i := 0;
    while i < |features|
      invariant 0 <= i <= |features|
      invariant usable == Names(features[..i])
      invariant forall j :: 0 <= j < i ==> FeatureAccepted(caps, features[j])
    {
      var check := CheckApplicableFeature(caps, features[i]);
      match check {
        case Err(e) =>
          FirstRejectionAt(caps, features, i);
          return Err(e);
        case Ok(applicable) =>
          if applicable {
            usable := usable + [features[i].name];
          }
      }
      assert features[..i + 1] == features[..i] + [features[i]];
      i := i + 1;
    }
    assert features[..i] == features;
    return Ok(SortStrings(usable));
  }

  lemma NamesAppend(a: seq<Feature>, b: seq<Feature>)
    ensures Names(a + b) == Names(a) + Names(b)
  {
  }

  lemma MultisetRemoveAt<T>(s: seq<T>, k: nat)
    requires k < |s|
    ensures multiset(s[..k] + s[k + 1..]) == multiset(s) - multiset{s[k]}
  {
    assert s == s[..k] + [s[k]] + s[k + 1..];
  }

  lemma NamesRemoveAt(fs: seq<Feature>, k: nat)
    requires k < |fs|
    ensures multiset(Names(fs)) == multiset(Names(fs[..k] + fs[k + 1..])) + multiset{fs[k].name}
  {
    var a, b := fs[..k], fs[k + 1..];
    assert fs == (a + [fs[k]]) + b;
    NamesAppend(a + [fs[k]], b);
    NamesAppend(a, [fs[k]]);
    NamesAppend(a, b);
  }

  /** Names follow their features through any reordering. */
  lemma {:induction false} NamesPermutation(fs: seq<Feature>, gs: seq<Feature>)
    requires multiset(fs) == multiset(gs)
    ensures multiset(Names(fs)) == multiset(Names(gs))
    decreases |fs|
  {
    assert |fs| == |multiset(fs)| == |multiset(gs)| == |gs|;
    if fs != [] {
      var x := fs[0];
      assert x in multiset(gs);
      var k :| 0 <= k < |gs| && gs[k] == x;
      var rest := gs[..k] + gs[k + 1..];
      MultisetRemoveAt(gs, k);
      MultisetRemoveAt(fs, 0);
      assert fs[..0] + fs[1..] == fs[1..];
      NamesPermutation(fs[1..], rest);
      NamesRemoveAt(gs, k);
      NamesRemoveAt(fs, 0);
      calc {
        multiset(Names(fs));
        multiset(Names(fs[1..])) + multiset{x.name};
        multiset(Names(rest)) + multiset{x.name};
        multiset(Names(gs));
      }
    }
  }

  lemma AcceptedPermutation(caps: Capabilities, fs: seq<Feature>, gs: seq<Feature>)
    requires multiset(fs) == multiset(gs)
    requires forall i :: 0 <= i < |fs| ==> FeatureAccepted(caps, fs[i])
    ensures forall j :: 0 <= j < |gs| ==> FeatureAccepted(caps, gs[j])
  {
    forall j | 0 <= j < |gs| ensures FeatureAccepted(caps, gs[j]) {
      assert gs[j] in multiset(fs);
      var i :| 0 <= i < |fs| && fs[i] == gs[j];
    }
  }

  /**
   * The result does not depend on the order the features are given in:
   * a permutation is accepted exactly when the original is, with the same
   * list of names.
   */
  lemma ApplicableFeaturesOrderIndependent(caps: Capabilities, fs: seq<Feature>, gs: seq<Feature>)
    requires multiset(fs) == multiset(gs)
    ensures ApplicableFeaturesSpec(caps, fs).Ok? <==> ApplicableFeaturesSpec(caps, gs).Ok?
    ensures ApplicableFeaturesSpec(caps, fs).Ok? ==> ApplicableFeaturesSpec(caps, fs) == ApplicableFeaturesSpec(caps, gs)
  {
    assert |fs| == |multiset(fs)| == |multiset(gs)| == |gs|;
    if forall i :: 0 <= i < |fs| ==> FeatureAccepted(caps, fs[i]) {
      AcceptedPermutation(caps, fs, gs);
    }
    if forall j :: 0 <= j < |gs| ==> FeatureAccepted(caps, gs[j]) {
      AcceptedPermutation(caps, gs, fs);
    }
    NamesPermutation(fs, gs);
    SortPermutationInvariant(Names(fs), Names(gs));
  }

  /**
   * With a declared count, any other number of features is rejected,
   * fewer as well as more.
   */
  lemma CountMismatchRejected(caps: Capabilities, fs: seq<Feature>)
    requires caps.numSupportedFeatures != -1 && |fs| != caps.numSupportedFeatures
    ensures ApplicableFeaturesSpec(caps, fs) == Err(UnsupportedFeatureCount(caps.numSupportedFeatures, |fs|))
  {
  }

  /** A feature with an unsupported data type makes the whole list rejected. */
  lemma UnsupportedDtypeRejected(caps: Capabilities, fs: seq<Feature>, i: nat)
    requires i < |fs| && fs[i].dtype !in caps.dtypes
    ensures ApplicableFeaturesSpec(caps, fs).Err?
  {
  }

  /** On success every input feature's name is in the result, and nothing else is. */
  lemma ApplicableFeaturesKeepsEveryName(caps: Capabilities, fs: seq<Feature>)
    requires ApplicableFeaturesSpec(caps, fs).Ok?
    ensures forall i :: 0 <= i < |fs| ==> fs[i].name in ApplicableFeaturesSpec(caps, fs).value
    ensures forall n :: n in ApplicableFeaturesSpec(caps, fs).value ==> exists i :: 0 <= i < |fs| && fs[i].name == n
  {
    var r := ApplicableFeaturesSpec(caps, fs).value;
    var names := Names(fs);
    forall i | 0 <= i < |fs| ensures fs[i].name in r {
      assert names[i] in multiset(names);
    }
    forall n | n in r ensures exists i :: 0 <= i < |fs| && fs[i].name == n {
      assert n in multiset(names);
      var i :| 0 <= i < |names| && names[i] == n;
    }
  }

  /** `SimpleModel` accepts an integer and a float feature and lists them sorted. */
  lemma SimpleModelAcceptsIntAndFloat()
    ensures ApplicableFeaturesSpec(SimpleModelCapabilities,
      [Feature("f1", Int, 1), Feature("f2", Float, 1)]) == Ok(["f1", "f2"])
  {
    var fs := [Feature("f1", Int, 1), Feature("f2", Float, 1)];
    assert Names(fs) == ["f1", "f2"];
    assert LexLe("f1", "f2");
    SortedUnique(SortStrings(Names(fs)), ["f1", "f2"]);
  }

  /** A model declaring one feature rejects two. */
  lemma SingleFeatureModelRejectsTwo()
    ensures ApplicableFeaturesSpec(SimpleModelCapabilities.(numSupportedFeatures := 1),
      [Feature("f1", Int, 1), Feature("f2", Int, 1)]) == Err(UnsupportedFeatureCount(1, 2))
  {
  }
}
