/**
 * Metric label combinatorics: the label options a metric declares (each label name with
 * its set of allowed values, in declaration order), every combination of them, and the
 * check that a label map is one of those combinations.
 */
module MetricLabels {

  /** One declared label and its allowed values, in the order the set was built. */
  datatype LabelOption = LabelOption(name: string, values: seq<string>)

  type LabelOptions = seq<LabelOption>

  /** A label map: label name to value. */
  type Labels = map<string, string>

  /** The declared label names, in declaration order. */
  function LabelNames(options: LabelOptions): (names: seq<string>)
    ensures |names| == |options|
    ensures forall i :: 0 <= i < |options| ==> names[i] == options[i].name
  {
    if options == [] then [] else [options[0].name] + LabelNames(options[1..])
  }

  /** Object keys are distinct: no label is declared twice. */
  ghost predicate DistinctNames(options: LabelOptions) {
    forall i, j :: 0 <= i < j < |options| ==> options[i].name != options[j].name
  }

  /** The set of declared label names. */
  function NameSet(options: LabelOptions): set<string>
  {
    set i | 0 <= i < |options| :: options[i].name
  }

  /**
   * `isValidLabelCombination`: every declared label is present with one of its values,
   * and no undeclared label is present.
   */
  function IsValidLabelCombination(options: LabelOptions, labels: Labels): (valid: bool)
    ensures (exists i :: 0 <= i < |options| && options[i].name !in labels) ==> !valid
    ensures (exists k :: k in labels && k !in NameSet(options)) ==> !valid
    ensures (exists i :: 0 <= i < |options| && options[i].name in labels && labels[options[i].name] !in options[i].values) ==> !valid
  {
    && labels.Keys == NameSet(options)
    && forall i :: 0 <= i < |options| ==> options[i].name in labels && labels[options[i].name] in options[i].values
  }

  /** Every combination in `rest` with `name` set to each of `values` in turn, the value varying slowest. */
  function Extend(name: string, values: seq<string>, rest: seq<Labels>): seq<Labels>
  {
    if values == [] then []
    else seq(|rest|, j requires 0 <= j < |rest| => rest[j][name := values[0]]) + Extend(name, values[1..], rest)
  }

  /**
   * `generateLabelCombinations`: the cartesian product of the declared label options,
   * the first-declared label varying slowest.
   */
  function GenerateLabelCombinations(options: LabelOptions): (combos: seq<Labels>)
    ensures |combos| == OptionProduct(options)
  {
    if options == [] then [map[]]
    else
      var rest := GenerateLabelCombinations(options[1..]);
      ExtendLength(options[0].name, options[0].values, rest);
      Extend(options[0].name, options[0].values, rest)
  }

  /** The product of the sizes of the option sets. */
  function OptionProduct(options: LabelOptions): nat
  {
    if options == [] then 1 else |options[0].values| * OptionProduct(options[1..])
  }

  lemma {:induction false} ExtendAt(name: string, values: seq<string>, rest: seq<Labels>, i: nat, j: nat)
    requires i < |values| && j < |rest|
    ensures |Extend(name, values, rest)| == |values| * |rest|
    ensures i * |rest| + j < |values| * |rest|
    ensures Extend(name, values, rest)[i * |rest| + j] == rest[j][name := values[i]]
  {
    var head := seq(|rest|, k requires 0 <= k < |rest| => rest[k][name := values[0]]);
    ExtendLength(name, values[1..], rest);
    assert |values| * |rest| == |rest| + (|values| - 1) * |rest|;
    if i > 0 {
      ExtendAt(name, values[1..], rest, i - 1, j);
      assert i * |rest| + j == |rest| + ((i - 1) * |rest| + j);
    }
  }

  lemma {:induction false} ExtendLength(name: string, values: seq<string>, rest: seq<Labels>)
    ensures |Extend(name, values, rest)| == |values| * |rest|
  {
    if values != [] {
      ExtendLength(name, values[1..], rest);
      assert |values| * |rest| == |rest| + (|values| - 1) * |rest|;
    }
  }

  /**
   * Order of the product: the combination at `i * |rest| + j` sets the first label to its
   * `i`-th value and agrees with the `j`-th combination of the remaining labels.
   */
  lemma CombinationOrder(options: LabelOptions, i: nat, j: nat)
    requires options != []
    requires i < |options[0].values| && j < |GenerateLabelCombinations(options[1..])|
    ensures var rest := GenerateLabelCombinations(options[1..]);
            && i * |rest| + j < |GenerateLabelCombinations(options)|
            && GenerateLabelCombinations(options)[i * |rest| + j] == rest[j][options[0].name := options[0].values[i]]
  {
    ExtendAt(options[0].name, options[0].values, GenerateLabelCombinations(options[1..]), i, j);
  }

  lemma {:induction false} ExtendMembership(name: string, values: seq<string>, rest: seq<Labels>, m: Labels)
    ensures m in Extend(name, values, rest) <==> exists v, c :: v in values && c in rest && m == c[name := v]
  {
    if values != [] {
      ExtendMembership(name, values[1..], rest, m);
      var head := seq(|rest|, k requires 0 <= k < |rest| => rest[k][name := values[0]]);
      var tail := Extend(name, values[1..], rest);
      assert Extend(name, values, rest) == head + tail;
      if m in head {
        var k :| 0 <= k < |head| && head[k] == m;
        assert values[0] in values && rest[k] in rest && m == rest[k][name := values[0]];
      }
      if m in tail {
        var v, c :| v in values[1..] && c in rest && m == c[name := v];
        assert v in values;
      }
      if exists v, c :: v in values && c in rest && m == c[name := v] {
        var v, c :| v in values && c in rest && m == c[name := v];
        if v == values[0] {
          var k :| 0 <= k < |rest| && rest[k] == c;
          assert head[k] == m;
        } else {
          var i :| 0 <= i < |values| && values[i] == v;
          assert values[1..][i - 1] == v;
          assert v in values[1..] && c in rest && m == c[name := v];
          assert m in tail;
        }
      }
    }
  }

  lemma NameSetTail(options: LabelOptions)
    requires options != []
    ensures NameSet(options) == {options[0].name} + NameSet(options[1..])
  {
    forall x | x in NameSet(options) ensures x in {options[0].name} + NameSet(options[1..]) {
      var i :| 0 <= i < |options| && options[i].name == x;
      if i > 0 { assert options[1..][i - 1].name == x; }
    }
    forall x | x in NameSet(options[1..]) ensures x in NameSet(options) {
      var i :| 0 <= i < |options[1..]| && options[1..][i].name == x;
      assert options[i + 1].name == x;
    }
  }

  /** Facts about the first declared label and the others, for distinct names. */
  lemma SplitFirstLabel(options: LabelOptions)
    requires options != [] && DistinctNames(options)
    ensures DistinctNames(options[1..])
    ensures NameSet(options) == {options[0].name} + NameSet(options[1..])
    ensures options[0].name !in NameSet(options[1..])
  {
    var tail := options[1..];
    forall i, j | 0 <= i < j < |tail| ensures tail[i].name != tail[j].name {
      assert tail[i] == options[i + 1] && tail[j] == options[j + 1];
    }
    NameSetTail(options);
    forall i | 0 <= i < |tail| ensures tail[i].name != options[0].name {
      assert tail[i] == options[i + 1];
    }
  }

  lemma {:induction false} ValidIsGenerated(options: LabelOptions, m: Labels)
    requires DistinctNames(options) && IsValidLabelCombination(options, m)
    ensures m in GenerateLabelCombinations(options)
  {
    if options == [] {
      assert NameSet(options) == {};
      assert m == map[];
    } else {
      var o := options[0];
      var tail := options[1..];
      SplitFirstLabel(options);
      var c := m - {o.name};
      assert IsValidLabelCombination(tail, c) by {
        forall i | 0 <= i < |tail| ensures tail[i].name in c && c[tail[i].name] in tail[i].values {
          assert tail[i] == options[i + 1];
          assert tail[i].name in NameSet(tail);
        }
      }
      ValidIsGenerated(tail, c);
      assert m == c[o.name := m[o.name]];
      assert m[o.name] in o.values;
      ExtendMembership(o.name, o.values, GenerateLabelCombinations(tail), m);
    }
  }

  lemma {:induction false} GeneratedIsValid(options: LabelOptions, m: Labels)
    requires DistinctNames(options) && m in GenerateLabelCombinations(options)
    ensures IsValidLabelCombination(options, m)
  {
    if options == [] {
      assert m == map[];
    } else {
      var o := options[0];
      var tail := options[1..];
      SplitFirstLabel(options);
      ExtendMembership(o.name, o.values, GenerateLabelCombinations(tail), m);
      var v, c :| v in o.values && c in GenerateLabelCombinations(tail) && m == c[o.name := v];
      GeneratedIsValid(tail, c);
      forall i | 0 <= i < |options| ensures options[i].name in m && m[options[i].name] in options[i].values {
        if i > 0 {
          assert options[i] == tail[i - 1];
          assert options[i].name in NameSet(tail);
        }
      }
    }
  }

  /**
   * With distinct label names, a label map is valid exactly when it is one of the
   * generated combinations.
   */
  lemma ValidIffGenerated(options: LabelOptions, m: Labels)
    requires DistinctNames(options)
    ensures IsValidLabelCombination(options, m) <==> m in GenerateLabelCombinations(options)
  {
    if IsValidLabelCombination(options, m) {
      ValidIsGenerated(options, m);
    }
    if m in GenerateLabelCombinations(options) {
      GeneratedIsValid(options, m);
    }
  }

  /** No declared labels: exactly one combination, the empty one. */
  lemma NoLabelsGiveEmptyCombination()
    ensures GenerateLabelCombinations([]) == [map[]]
  {
  }

  /** A single declared label: one combination per value, in set order. */
  lemma {:induction false} SingleLabelCombinations(name: string, values: seq<string>)
    ensures GenerateLabelCombinations([LabelOption(name, values)])
            == seq(|values|, i requires 0 <= i < |values| => map[name := values[i]])
  {
    var opts := [LabelOption(name, values)];
    var gen := GenerateLabelCombinations(opts);
    var expected := seq(|values|, i requires 0 <= i < |values| => map[name := values[i]]);
    assert opts[1..] == [];
    assert |gen| == |expected|;
    forall i | 0 <= i < |values| ensures gen[i] == expected[i] {
      CombinationOrder(opts, i, 0);
    }
  }

  /** Labels that each allow a single value give a single combination. */
  lemma {:induction false} SingletonOptionsGiveOneCombination(options: LabelOptions)
    requires forall i :: 0 <= i < |options| ==> |options[i].values| == 1
    ensures |GenerateLabelCombinations(options)| == 1
    ensures DistinctNames(options) ==>
              var m := GenerateLabelCombinations(options)[0];
              && m.Keys == NameSet(options)
              && forall i :: 0 <= i < |options| ==> m[options[i].name] == options[i].values[0]
  {
    SingletonProduct(options);
    if DistinctNames(options) {
      var m := GenerateLabelCombinations(options)[0];
      GeneratedIsValid(options, m);
      forall i | 0 <= i < |options| ensures m[options[i].name] == options[i].values[0] {
        assert m[options[i].name] in options[i].values;
      }
    }
  }

  /** Three labels with one value each give the one map that sets each. */
  lemma ThreeSingletonLabels()
    ensures GenerateLabelCombinations([LabelOption("label1", ["a"]), LabelOption("label2", ["b"]), LabelOption("label3", ["c"])])
            == [map["label1" := "a", "label2" := "b", "label3" := "c"]]
  {
    var options := [LabelOption("label1", ["a"]), LabelOption("label2", ["b"]), LabelOption("label3", ["c"])];
    assert DistinctNames(options);
    SingletonOptionsGiveOneCombination(options);
    var m := GenerateLabelCombinations(options)[0];
    assert NameSet(options) == {"label1", "label2", "label3"} by {
      assert options[0].name == "label1" && options[1].name == "label2" && options[2].name == "label3";
    }
    assert m == map["label1" := "a", "label2" := "b", "label3" := "c"] by {
      assert m["label1"] == options[0].values[0];
      assert m["label2"] == options[1].values[0];
      assert m["label3"] == options[2].values[0];
    }
  }

  lemma {:induction false} SingletonProduct(options: LabelOptions)
    requires forall i :: 0 <= i < |options| ==> |options[i].values| == 1
    ensures OptionProduct(options) == 1
  {
    if options != [] {
      SingletonProduct(options[1..]);
    }
  }

  /** The product of the option sets `{a, b, c}` and `{d, e}`, first label slowest. */
  lemma TwoLabelProduct()
    ensures GenerateLabelCombinations([LabelOption("label1", ["a", "b", "c"]), LabelOption("label2", ["d", "e"])])
            == [map["label1" := "a", "label2" := "d"], map["label1" := "a", "label2" := "e"],
                map["label1" := "b", "label2" := "d"], map["label1" := "b", "label2" := "e"],
                map["label1" := "c", "label2" := "d"], map["label1" := "c", "label2" := "e"]]
  {
    var inner := GenerateLabelCombinations([LabelOption("label2", ["d", "e"])]);
    SingleLabelCombinations("label2", ["d", "e"]);
    assert inner == [map["label2" := "d"], map["label2" := "e"]];
    assert ["a", "b", "c"][1..] == ["b", "c"] && ["b", "c"][1..] == ["c"] && ["c"][1..] == [];
    forall x | x in ["a", "b", "c"]
      ensures map["label2" := "d"]["label1" := x] == map["label1" := x, "label2" := "d"]
      ensures map["label2" := "e"]["label1" := x] == map["label1" := x, "label2" := "e"]
    {
    }
    assert Extend("label1", [], inner) == [];
    assert Extend("label1", ["c"], inner) == [map["label1" := "c", "label2" := "d"], map["label1" := "c", "label2" := "e"]];
    assert Extend("label1", ["b", "c"], inner) == [map["label1" := "b", "label2" := "d"], map["label1" := "b", "label2" := "e"]] + Extend("label1", ["c"], inner);
  }

  /** With labels `status` in {yes, no} and `color` in {red, white}: one valid map and three invalid ones. */
  lemma ValidityExamples()
    ensures var options := [LabelOption("status", ["yes", "no"]), LabelOption("color", ["red", "white"])];
            && IsValidLabelCombination(options, map["status" := "yes", "color" := "red"])
            && !IsValidLabelCombination(options, map["status" := "yes"])
            && !IsValidLabelCombination(options, map["fake_label" := "yes"])
            && !IsValidLabelCombination(options, map["status" := "fake_status"])
  {
    var options := [LabelOption("status", ["yes", "no"]), LabelOption("color", ["red", "white"])];
    assert NameSet(options) == {"status", "color"} by {
      assert options[0].name == "status" && options[1].name == "color";
    }
    assert options[1].name !in map["status" := "yes"];
  }
}
