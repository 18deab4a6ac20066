/** The preprocessing descriptor of tabpfn_client/estimator.py: an immutable
    value with a display name, a cache-eligibility test and a dictionary form.
    The descriptor is forwarded verbatim to the inference service. */
module Preprocessing {
  import opened Wrappers

  /** `PreprocessorConfig`. The long lists of admissible names are not checked
      at run time, so `name` and `categoricalName` are plain strings.
      `subsampleFeatures` is `Optional[float]`: `None` is allowed by the type. */
  datatype PreprocessorConfig = PreprocessorConfig(
    name: string,
    categoricalName: string,
    appendOriginal: bool,
    subsampleFeatures: Option<real>,
    globalTransformerName: Option<string>)

  /** `PreprocessorConfig(name)` with every other field at its default. */
  function Preprocessor(name: string): (r: PreprocessorConfig)
    ensures r.name == name && r.categoricalName == "none"
    ensures !r.appendOriginal && r.globalTransformerName.None?
    // the default descriptor does not subsample (-1), so its results can be cached
    ensures r.subsampleFeatures == Some(-1.0)
  {
    PreprocessorConfig(name, "none", false, Some(-1.0), None)
  }

  const AND_NONE := "_and_none"
  const SUBSAMPLE_TAG := "_subsample_feats_"
  const GLOBAL_TAG := "_global_transformer_"

  /** The mandatory head of every display name. */
  function Head(p: PreprocessorConfig): string {
    p.name + "_cat:" + p.categoricalName
  }

  function AndNonePart(p: PreprocessorConfig): string {
    if p.appendOriginal then AND_NONE else ""
  }

  function SubsamplePart(v: real, fmt: real -> string): string {
    if v > 0.0 then SUBSAMPLE_TAG + fmt(v) else ""
  }

  function GlobalPart(p: PreprocessorConfig): string {
    match p.globalTransformerName
    case None => ""
    case Some(g) => GLOBAL_TAG + g
  }

  predicate EndsWith(s: string, suffix: string) {
    |suffix| <= |s| && s[|s| - |suffix|..] == suffix
  }

  /** `PreprocessorConfig.__str__`. `fmt` stands for Python's `str` of a number.
      The comparison `subsample_features > 0` raises TypeError when the field
      is None, and the result is then None. */
  function ToString(p: PreprocessorConfig, fmt: real -> string): (r: Option<string>)
    ensures r.None? <==> p.subsampleFeatures.None?
    // the head comes first
    ensures r.Some? ==> Head(p) <= r.value
    // "_and_none" follows the head exactly when the original features are appended
    ensures r.Some? ==> (p.appendOriginal <==> Head(p) + AND_NONE <= r.value)
    // then the subsample tag, exactly when subsampling is on
    ensures r.Some? ==> (p.subsampleFeatures.value > 0.0 <==>
              Head(p) + AndNonePart(p) + SUBSAMPLE_TAG + fmt(p.subsampleFeatures.value) <= r.value)
    // and the global transformer tag closes the name exactly when one is named
    ensures r.Some? && p.globalTransformerName.Some? ==>
              EndsWith(r.value, GLOBAL_TAG + p.globalTransformerName.value)
    ensures r.Some? && p.globalTransformerName.None? ==>
              r.value == Head(p) + AndNonePart(p) + SubsamplePart(p.subsampleFeatures.value, fmt)
  {
    match p.subsampleFeatures
    case None => None
    case Some(v) =>
      LayoutIsUnambiguous(p, v, fmt);
      Some(Head(p) + AndNonePart(p) + SubsamplePart(v, fmt) + GlobalPart(p))
  }

  /** The global-transformer tag is the last part: the name of a descriptor
      is the name it has without a global transformer, then the tag. */
  lemma GlobalPartClosesName(p: PreprocessorConfig, fmt: real -> string)
    ensures ToString(p, fmt).Some? ==>
              ToString(p, fmt).value == ToString(p.(globalTransformerName := None), fmt).value + GlobalPart(p)
  {
  }

  /** The name alone does not determine the descriptor: a categorical name may
      itself contain a tag, as in these two descriptors of one name. */
  lemma NameDoesNotDetermineDescriptor(fmt: real -> string)
    ensures var p := PreprocessorConfig("a", "b" + GLOBAL_TAG + "svd", false, Some(-1.0), None);
            var q := PreprocessorConfig("a", "b", false, Some(-1.0), Some("svd"));
            p != q && ToString(p, fmt) == ToString(q, fmt)
  {
    var p := PreprocessorConfig("a", "b" + GLOBAL_TAG + "svd", false, Some(-1.0), None);
    var q := PreprocessorConfig("a", "b", false, Some(-1.0), Some("svd"));
    assert |p.categoricalName| != |q.categoricalName|;
    var hp, hq := Head(p), Head(q);
    assert hp == hq + GlobalPart(q);
    assert hp + "" + "" + "" == hp;
    assert hq + "" + "" + GlobalPart(q) == hq + GlobalPart(q);
  }

  /** `a` is not a prefix of `s` once they disagree at index `k`. */
  lemma NotPrefixAt(a: string, s: string, k: nat)
    requires k < |a| && (k >= |s| || a[k] != s[k])
    ensures !(a <= s)
  {
  }

  /** What may follow a slot: nothing, or a part whose second letter is `c`'s rival. */
  predicate StartsApart(rest: string, c: char) {
    rest == [] || (|rest| >= 2 && rest[1] != c)
  }

  /** A slot `tag` (or nothing) followed by `rest` that starts differently:
      the tag is visible exactly when it was put in. */
  lemma SlotIsVisible(base: string, tag: string, on: bool, rest: string)
    requires |tag| >= 2 && StartsApart(rest, tag[1])
    ensures on <==> base + tag <= base + (if on then tag else "") + rest
  {
    var s := base + (if on then tag else "") + rest;
    if on {
      assert s == (base + tag) + rest;
    } else {
      assert s == base + rest;
      if rest == [] {
        NotPrefixAt(base + tag, s, |base|);
      } else {
        assert s[|base| + 1] == rest[1];
        NotPrefixAt(base + tag, s, |base| + 1);
      }
    }
  }

  /** The optional parts start "_a", "_s" and "_g", so none can be mistaken
      for an earlier one. */
  lemma LayoutIsUnambiguous(p: PreprocessorConfig, v: real, fmt: real -> string)
    ensures var s := Head(p) + AndNonePart(p) + SubsamplePart(v, fmt) + GlobalPart(p);
      (p.appendOriginal <==> Head(p) + AND_NONE <= s) &&
      (v > 0.0 <==> Head(p) + AndNonePart(p) + SUBSAMPLE_TAG + fmt(v) <= s)
  {
    var sub, glob := SubsamplePart(v, fmt), GlobalPart(p);
    assert StartsApart(glob, SUBSAMPLE_TAG[1]);
    assert StartsApart(sub + glob, AND_NONE[1]) by {
      if sub != [] { assert (sub + glob)[1] == sub[1]; }
    }
    var s := Head(p) + AndNonePart(p) + sub + glob;
    assert s == Head(p) + AndNonePart(p) + (sub + glob);
    SlotIsVisible(Head(p), AND_NONE, p.appendOriginal, sub + glob);
    var tag := SUBSAMPLE_TAG + fmt(v);
    assert sub == if v > 0.0 then tag else "";
    SlotIsVisible(Head(p) + AndNonePart(p), tag, v > 0.0, glob);
    assert Head(p) + AndNonePart(p) + tag == Head(p) + AndNonePart(p) + SUBSAMPLE_TAG + fmt(v);
  }

  /** `PreprocessorConfig.can_be_cached`: None when the comparison raises. */
  function CanBeCached(p: PreprocessorConfig): (r: Option<bool>)
    ensures r.None? <==> p.subsampleFeatures.None?
    ensures r == Some(true) <==> p.subsampleFeatures.Some? && p.subsampleFeatures.value <= 0.0
  {
    match p.subsampleFeatures
    case None => None
    case Some(v) => Some(!(v > 0.0))
  }

  /** A cacheable descriptor's display name carries no subsample tag: any two
      cacheable descriptors that differ only in `subsample_features` share it. */
  lemma CacheableNameIgnoresSubsample(p: PreprocessorConfig, q: PreprocessorConfig, fmt: real -> string)
    requires CanBeCached(p) == Some(true) && CanBeCached(q) == Some(true)
    requires q == p.(subsampleFeatures := q.subsampleFeatures)
    ensures ToString(p, fmt) == ToString(q, fmt)
    ensures ToString(p, fmt).Some? && ToString(p, fmt).value == Head(p) + AndNonePart(p) + GlobalPart(p)
  {
    var v, w := p.subsampleFeatures.value, q.subsampleFeatures.value;
    assert SubsamplePart(v, fmt) == "" && SubsamplePart(w, fmt) == "";
    assert Head(q) == Head(p) && AndNonePart(q) == AndNonePart(p) && GlobalPart(q) == GlobalPart(p);
    assert Head(p) + AndNonePart(p) + "" + GlobalPart(p) == Head(p) + AndNonePart(p) + GlobalPart(p);
  }

  /** The default descriptor (subsample_features = -1) is cacheable. */
  lemma DefaultIsCacheable(name: string)
    ensures CanBeCached(Preprocessor(name)) == Some(true)
  {
  }

  /** A value of the dictionary `to_dict` builds. */
  datatype DictValue = Str(s: string) | Bool(b: bool) | Num(x: real)

  /** `to_dict`: the five fields by name; str, int, float (and bool, a subclass
      of int) are kept, anything else (here only None) becomes its `str`. */
  function ToDict(p: PreprocessorConfig): (d: map<string, DictValue>)
    ensures d.Keys == {"name", "categorical_name", "append_original",
                       "subsample_features", "global_transformer_name"}
    ensures d["name"] == Str(p.name) && d["categorical_name"] == Str(p.categoricalName)
    ensures d["append_original"] == Bool(p.appendOriginal)
    ensures d["subsample_features"] ==
              if p.subsampleFeatures.Some? then Num(p.subsampleFeatures.value) else Str("None")
    ensures d["global_transformer_name"] ==
              if p.globalTransformerName.Some? then Str(p.globalTransformerName.value) else Str("None")
  {
    map[
      "name" := Str(p.name),
      "categorical_name" := Str(p.categoricalName),
      "append_original" := Bool(p.appendOriginal),
      "subsample_features" := (match p.subsampleFeatures
                               case Some(v) => Num(v)
                               case None => Str("None")),
      "global_transformer_name" := (match p.globalTransformerName
                                    case Some(g) => Str(g)
                                    case None => Str("None"))
    ]
  }

  /** `to_dict` loses nothing, except that a missing global transformer and
      one literally named "None" look alike. */
  lemma ToDictInjective(p: PreprocessorConfig, q: PreprocessorConfig)
    requires p.globalTransformerName != Some("None") && q.globalTransformerName != Some("None")
    requires ToDict(p) == ToDict(q)
    ensures p == q
  {
    assert ToDict(p)["global_transformer_name"] == ToDict(q)["global_transformer_name"];
    assert ToDict(p)["subsample_features"] == ToDict(q)["subsample_features"];
  }

  lemma ToDictConflatesNone(p: PreprocessorConfig)
    requires p.globalTransformerName.None?
    ensures ToDict(p) == ToDict(p.(globalTransformerName := Some("None")))
  {
  }
}
