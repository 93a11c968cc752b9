/**
 * The label projector of the Kuma service discovery and the entry point
 * that composes it with the discovery client
 * (lib/promscrape/discovery/kuma/kuma.go).
 */
module Kuma {
  import opened Wrappers
  import opened KumaApi

  /** The namespace under which a target's own labels are exported. */
  const LabelPrefix: string := "__meta_kuma_label_"

  datatype Label = Label(name: string, value: string)

  /** A label set in the order its entries were added. */
  type Labels = seq<Label>

  /** The eight fixed entries of a target's label set, in the order they are added. */
  function FixedLabels(t: KumaTarget, sourceURL: string): Labels {
    [ Label("instance", t.instance),
      Label("__address__", t.address),
      Label("__scheme__", t.scheme),
      Label("__metrics_path__", t.metricsPath),
      Label("__meta_server", sourceURL),
      Label("__meta_kuma_mesh", t.mesh),
      Label("__meta_kuma_service", t.service),
      Label("__meta_kuma_dataplane", t.dataPlane) ]
  }

  predicate HasLabelPrefix(name: string) {
    |LabelPrefix| <= |name| && name[..|LabelPrefix|] == LabelPrefix
  }

  /** No two entries share a name. */
  predicate KeysUnique(m: Labels) {
    forall i, j :: 0 <= i < j < |m| ==> m[i].name != m[j].name
  }

  /** `l` is the exported form of one of the target's own labels. */
  predicate IsCustomLabelOf(l: Label, labels: map<string, string>) {
    HasLabelPrefix(l.name)
    && l.name[|LabelPrefix|..] in labels
    && labels[l.name[|LabelPrefix|..]] == l.value
  }

  /**
   * `m` is a label set for target `t` discovered from `sourceURL`, as appended
   * before RemoveDuplicates: the eight fixed entries first, then exactly one
   * prefixed entry per custom label, in any order, with no name repeated.
   */
  predicate IsLabelSetOf(m: Labels, t: KumaTarget, sourceURL: string) {
    |m| == 8 + |t.labels|
    && m[..8] == FixedLabels(t, sourceURL)
    && KeysUnique(m)
    && (forall j :: 8 <= j < |m| ==> IsCustomLabelOf(m[j], t.labels))
    && (forall k :: k in t.labels ==> Label(LabelPrefix + k, t.labels[k]) in m)
  }

  // ---------------------------------------------------------------------
  // The fixed names never carry the custom-label prefix
  // ---------------------------------------------------------------------

  lemma PrefixedName(k: string)
    ensures HasLabelPrefix(LabelPrefix + k) && (LabelPrefix + k)[|LabelPrefix|..] == k
  {
  }

  lemma PrefixInjective()
    ensures forall a, b :: LabelPrefix + a == LabelPrefix + b ==> a == b
  {
    forall a, b | LabelPrefix + a == LabelPrefix + b ensures a == b {
      PrefixedName(a);
      PrefixedName(b);
    }
  }

  /** The two fixed names long enough to carry the prefix differ from it at position 12. */
  lemma LongFixedNamesNotPrefixed()
    ensures !HasLabelPrefix("__meta_kuma_service")
    ensures !HasLabelPrefix("__meta_kuma_dataplane")
  {
    assert LabelPrefix[12] == 'l';
    assert "__meta_kuma_service"[..|LabelPrefix|][12] == 's';
    assert "__meta_kuma_dataplane"[..|LabelPrefix|][12] == 'd';
  }

  /** No fixed name starts with the custom-label prefix, so none collides with a custom one. */
  lemma FixedNamesNotPrefixed(t: KumaTarget, sourceURL: string)
    ensures forall j :: 0 <= j < 8 ==> !HasLabelPrefix(FixedLabels(t, sourceURL)[j].name)
  {
    LongFixedNamesNotPrefixed();
    var f := FixedLabels(t, sourceURL);
    assert |LabelPrefix| == 18;
    assert |f[0].name| < 18 && |f[1].name| < 18 && |f[2].name| < 18 && |f[3].name| < 18;
    assert |f[4].name| < 18 && |f[5].name| < 18;
  }

  /** The fixed names are pairwise distinct. */
  lemma FixedNamesDistinct(t: KumaTarget, sourceURL: string)
    ensures KeysUnique(FixedLabels(t, sourceURL))
  {
  }

  // ---------------------------------------------------------------------
  // kumaTargetsToLabels
  // ---------------------------------------------------------------------

  /**
   * The label set of one target: the eight fixed entries, then one entry per
   * custom label, visited in an unspecified order as Go ranges over a map.
   */
  method TargetLabels(t: KumaTarget, sourceURL: string) returns (m: Labels)
    ensures IsLabelSetOf(m, t, sourceURL)
  {
    m := [];
    m := m + [Label("instance", t.instance)];
    m := m + [Label("__address__", t.address)];
    m := m + [Label("__scheme__", t.scheme)];
    m := m + [Label("__metrics_path__", t.metricsPath)];
    m := m + [Label("__meta_server", sourceURL)];
    m := m + [Label("__meta_kuma_mesh", t.mesh)];
    m := m + [Label("__meta_kuma_service", t.service)];
    m := m + [Label("__meta_kuma_dataplane", t.dataPlane)];
    FixedNamesNotPrefixed(t, sourceURL);
    FixedNamesDistinct(t, sourceURL);
    assert m == FixedLabels(t, sourceURL);
    m := AddCustomLabels(m, t.labels);
    // KeysUnique(m) holds, so m.RemoveDuplicates() finds no duplicate name here.
  }

  /**
   * The `for k, v := range target.Labels` loop: appends one prefixed entry
   * per custom label, in an unspecified order, to a label set none of whose
   * names carries the prefix.
   */
  method AddCustomLabels(m0: Labels, labels: map<string, string>) returns (m: Labels)
    requires KeysUnique(m0)
    requires forall j :: 0 <= j < |m0| ==> !HasLabelPrefix(m0[j].name)
    ensures |m| == |m0| + |labels| && m[..|m0|] == m0
    ensures KeysUnique(m)
    ensures forall j :: |m0| <= j < |m| ==> IsCustomLabelOf(m[j], labels)
    ensures forall k :: k in labels ==> Label(LabelPrefix + k, labels[k]) in m
  {
    m := m0;
    var pending := labels.Keys;
    ghost var added: set<string> := {};
    while pending != {}
      invariant pending !! added && pending + added == labels.Keys
      invariant CustomLabelsAdded(m, m0, labels, added)
      decreases pending
    {
      var k :| k in pending;
      AddOneCustomLabel(m, m0, labels, added, k);
      m := m + [Label(LabelPrefix + k, labels[k])];
      pending := pending - {k};
      added := added + {k};
    }
    assert added == labels.Keys;
  }

  /** The loop invariant of AddCustomLabels once the labels in `added` are in. */
  predicate CustomLabelsAdded(m: Labels, m0: Labels, labels: map<string, string>, added: set<string>) {
    |m| == |m0| + |added| && m[..|m0|] == m0
    && KeysUnique(m)
    && (forall j :: 0 <= j < |m0| ==> !HasLabelPrefix(m[j].name))
    && (forall j :: |m0| <= j < |m| ==> IsCustomLabelOf(m[j], labels) && m[j].name[|LabelPrefix|..] in added)
    && (forall k :: k in added ==> k in labels && Label(LabelPrefix + k, labels[k]) in m)
  }

  lemma AddOneCustomLabel(m: Labels, m0: Labels, labels: map<string, string>, added: set<string>, k: string)
    requires CustomLabelsAdded(m, m0, labels, added) && k in labels && k !in added
    ensures CustomLabelsAdded(m + [Label(LabelPrefix + k, labels[k])], m0, labels, added + {k})
  {
  }

  lemma PrefixSplit(n: string)
    requires HasLabelPrefix(n)
    ensures n == LabelPrefix + n[|LabelPrefix|..]
  {
  }

  /** kumaTargetsToLabels: one label set per target, in the targets' order. */
  method KumaTargetsToLabels(src: seq<KumaTarget>, sourceURL: string) returns (ms: seq<Labels>)
    ensures |ms| == |src|
    ensures forall i :: 0 <= i < |src| ==> IsLabelSetOf(ms[i], src[i], sourceURL)
  {
    ms := [];
    for i := 0 to |src|
      invariant |ms| == i
      invariant forall j :: 0 <= j < i ==> IsLabelSetOf(ms[j], src[j], sourceURL)
    {
      var m := TargetLabels(src[i], sourceURL);
      ms := ms + [m];
    }
  }

  // ---------------------------------------------------------------------
  // A label set read as a map
  // ---------------------------------------------------------------------

  /** The map a label set stands for; a later entry wins over an earlier one. */
  function ToMap(m: Labels): map<string, string>
    decreases |m|
  {
    if m == [] then map[] else ToMap(m[..|m| - 1])[m[|m| - 1].name := m[|m| - 1].value]
  }

  /** The exported custom labels of a target. */
  function PrefixedLabels(labels: map<string, string>): map<string, string> {
    PrefixInjective();
    map k | k in labels :: LabelPrefix + k := labels[k]
  }

  /**
   * The label map a target should produce: the fixed entries, then the
   * prefixed custom labels.
   */
  function LabelMap(t: KumaTarget, sourceURL: string): map<string, string> {
    ToMap(FixedLabels(t, sourceURL)) + PrefixedLabels(t.labels)
  }

  lemma {:induction false} ToMapAppend(a: Labels, b: Labels)
    ensures ToMap(a + b) == ToMap(a) + ToMap(b)
    decreases |b|
  {
    if b == [] {
      assert a + b == a;
    } else {
      var b' := b[..|b| - 1];
      assert (a + b)[..|a + b| - 1] == a + b';
      ToMapAppend(a, b');
    }
  }

  /** Every name in the map of a label set is the name of one of its entries. */
  lemma {:induction false} ToMapNames(m: Labels)
    ensures forall n :: n in ToMap(m) ==> exists j :: 0 <= j < |m| && m[j].name == n
    decreases |m|
  {
    if m != [] {
      var m' := m[..|m| - 1];
      ToMapNames(m');
      assert ToMap(m) == ToMap(m')[m[|m| - 1].name := m[|m| - 1].value];
      forall n | n in ToMap(m)
        ensures exists j :: 0 <= j < |m| && m[j].name == n
      {
        if n != m[|m| - 1].name {
          assert n in ToMap(m');
          var j :| 0 <= j < |m'| && m'[j].name == n;
          assert m[j] == m'[j];
        }
      }
    }
  }

  /** Dropping the last entry keeps the names unique, and the last name is new. */
  lemma KeysUniqueInit(m: Labels)
    requires KeysUnique(m) && m != []
    ensures KeysUnique(m[..|m| - 1])
    ensures forall j :: 0 <= j < |m| - 1 ==> m[j].name != m[|m| - 1].name
  {
  }

  /** A label set without repeated names holds every entry, and nothing else, as a map. */
  lemma {:induction false} ToMapOfUnique(m: Labels)
    requires KeysUnique(m)
    ensures |ToMap(m)| == |m|
    ensures forall j :: 0 <= j < |m| ==> m[j].name in ToMap(m) && ToMap(m)[m[j].name] == m[j].value
    ensures forall n :: n in ToMap(m) ==> exists j :: 0 <= j < |m| && m[j].name == n
    decreases |m|
  {
    ToMapNames(m);
    if m != [] {
      var m' := m[..|m| - 1];
      var l := m[|m| - 1];
      KeysUniqueInit(m);
      ToMapOfUnique(m');
      assert l.name !in ToMap(m');
      assert ToMap(m) == ToMap(m')[l.name := l.value];
      forall j | 0 <= j < |m| - 1
        ensures m[j].name in ToMap(m) && ToMap(m)[m[j].name] == m[j].value
      {
        assert m[j] == m'[j];
      }
    }
  }

  /** The custom part of a label set, read as a map, is the prefixed custom labels. */
  lemma {:induction false} CustomPartIsPrefixed(custom: Labels, labels: map<string, string>)
    requires KeysUnique(custom)
    requires forall j :: 0 <= j < |custom| ==> IsCustomLabelOf(custom[j], labels)
    requires forall k :: k in labels ==> Label(LabelPrefix + k, labels[k]) in custom
    ensures ToMap(custom) == PrefixedLabels(labels)
  {
    ToMapOfUnique(custom);
    var cm := ToMap(custom);
    var pm := PrefixedLabels(labels);
    forall n | n in cm ensures n in pm && pm[n] == cm[n] {
      var j :| 0 <= j < |custom| && custom[j].name == n;
      PrefixSplit(n);
    }
    forall n | n in pm ensures n in cm {
      var k :| k in labels && n == LabelPrefix + k;
      var j :| 0 <= j < |custom| && custom[j] == Label(n, labels[k]);
    }
  }

  /**
   * Read as a map, a label set of `t` is exactly LabelMap(t, sourceURL), and
   * that map has 8 + |t.labels| keys: no custom label collides with a fixed
   * name or with another custom label.
   */
  lemma LabelSetIsLabelMap(m: Labels, t: KumaTarget, sourceURL: string)
    requires IsLabelSetOf(m, t, sourceURL)
    ensures ToMap(m) == LabelMap(t, sourceURL)
    ensures |LabelMap(t, sourceURL)| == 8 + |t.labels|
  {
    var fixed, custom := m[..8], m[8..];
    assert m == fixed + custom;
    ToMapAppend(fixed, custom);
    FixedNamesNotPrefixed(t, sourceURL);
    CustomPartOfLabelSet(m, t, sourceURL);
    CustomPartIsPrefixed(custom, t.labels);
    ToMapOfUnique(m);
  }

  lemma CustomPartOfLabelSet(m: Labels, t: KumaTarget, sourceURL: string)
    requires IsLabelSetOf(m, t, sourceURL)
    ensures KeysUnique(m[8..])
    ensures forall j :: 0 <= j < |m[8..]| ==> IsCustomLabelOf(m[8..][j], t.labels)
    ensures forall k :: k in t.labels ==> Label(LabelPrefix + k, t.labels[k]) in m[8..]
  {
    FixedNamesNotPrefixed(t, sourceURL);
    forall k | k in t.labels ensures Label(LabelPrefix + k, t.labels[k]) in m[8..] {
      PrefixedName(k);
      var j :| 0 <= j < |m| && m[j] == Label(LabelPrefix + k, t.labels[k]);
      assert j >= 8;
      assert m[8..][j - 8] == m[j];
    }
  }

  /** Every label set carries the server it was discovered from. */
  lemma LabelSetNamesServer(m: Labels, t: KumaTarget, sourceURL: string)
    requires IsLabelSetOf(m, t, sourceURL)
    ensures Label("__meta_server", sourceURL) in m
    ensures "__meta_server" in ToMap(m) && ToMap(m)["__meta_server"] == sourceURL
  {
    assert m[4] == m[..8][4];
    KeysUniqueLookup(m, 4);
  }

  lemma KeysUniqueLookup(m: Labels, j: nat)
    requires KeysUnique(m) && j < |m|
    ensures m[j].name in ToMap(m) && ToMap(m)[m[j].name] == m[j].value
  {
  }

  // ---------------------------------------------------------------------
  // GetLabels
  // ---------------------------------------------------------------------

  /**
   * GetLabels for the server `server`: `config` is what the shared client
   * lookup gave, `targets` what reading that client's targets gave. A
   * failure of either is returned as the error with no labels; otherwise the
   * result is one label set per target, each naming `server`.
   */
  method GetLabels(server: string, config: Result<ApiConfig>, targets: Result<seq<KumaTarget>>)
    returns (r: Result<seq<Labels>>)
    ensures config.Err? ==> r == Err("cannot get API config for kuma_sd: " + config.error)
    ensures config.Ok? && targets.Err? ==> r == Err(targets.error)
    ensures config.Ok? && targets.Ok? ==>
              r.Ok? && |r.value| == |targets.value|
              && forall i :: 0 <= i < |r.value| ==> IsLabelSetOf(r.value[i], targets.value[i], server)
    ensures r.Ok? ==> forall i :: 0 <= i < |r.value| ==> Label("__meta_server", server) in r.value[i]
  {
    if config.Err? {
      return Err("cannot get API config for kuma_sd: " + config.error);
    }
    if targets.Err? {
      return Err(targets.error);
    }
    var ms := KumaTargetsToLabels(targets.value, server);
    forall i | 0 <= i < |ms| ensures Label("__meta_server", server) in ms[i] {
      assert ms[i][4] == ms[i][..8][4];
    }
    return Ok(ms);
  }
}
