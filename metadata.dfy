/**
 * The parts of metatensor's data model that the driver looks at: labels (named
 * integer columns), blocks and tensor maps, and the few label operations the
 * driver performs itself (reading a column, removing a column, the names of the
 * component axes).
 */
module Metadata {
  import opened Outcomes

  predicate NoDuplicates<T(==)>(s: seq<T>) {
    forall i, j :: 0 <= i < j < |s| ==> s[i] != s[j]
  }

  /** `s` with the element at position `c` taken out. */
  function DropAt<T>(s: seq<T>, c: nat): (r: seq<T>)
    requires c < |s|
    ensures |r| == |s| - 1
    ensures forall k :: 0 <= k < c ==> r[k] == s[k]
    ensures forall k :: c <= k < |r| ==> r[k] == s[k + 1]
  {
    s[..c] + s[c + 1..]
  }

  datatype LabelsData = LabelsData(names: seq<string>, rows: seq<seq<int>>)

  /** metatensor's invariant of a Labels object: distinct names, distinct entries, one value per name. */
  predicate LabelsValid(l: LabelsData) {
    && NoDuplicates(l.names)
    && NoDuplicates(l.rows)
    && forall i :: 0 <= i < |l.rows| ==> |l.rows[i]| == |l.names|
  }

  type Labels = l: LabelsData | LabelsValid(l) witness LabelsData([], [])

  /** A component axis: in this core always the single axis `o3_mu`. */
  datatype Component = Component(name: string, values: seq<int>)

  /** A block: its metadata, its numeric values (flattened; never inspected) and the
      parameters of the gradients it carries. */
  datatype Block = Block(
    samples: Labels,
    components: seq<Component>,
    properties: Labels,
    values: seq<real>,
    gradientParameters: seq<string>)

  datatype TensorData = TensorData(keys: Labels, blocks: seq<Block>)

  /** A tensor map has exactly one block per key. */
  type TensorMap = t: TensorData | |t.keys.rows| == |t.blocks| witness TensorData(LabelsData([], []), [])

  /** Position of `name` among `names` (the first one). */
  function IndexOf(names: seq<string>, name: string): (r: nat)
    requires name in names
    ensures r < |names| && names[r] == name
    ensures forall k :: 0 <= k < r ==> names[k] != name
  {
    if names[0] == name then 0 else 1 + IndexOf(names[1..], name)
  }

  /** `Labels.column(name)`: the values of one column, an error when no column has that name. */
  function Column(l: Labels, name: string): (r: Result<seq<int>>)
    ensures r.Success? <==> name in l.names
    ensures r.Failure? ==> r.error == MissingKeyName(name)
    ensures r.Success? ==> |r.value| == |l.rows|
    ensures r.Success? ==> forall i :: 0 <= i < |l.rows| ==> r.value[i] == l.rows[i][IndexOf(l.names, name)]
  {
    if name in l.names then
      var c := IndexOf(l.names, name);
      Success(seq(|l.rows|, i requires 0 <= i < |l.rows| => l.rows[i][c]))
    else
      Failure(MissingKeyName(name))
  }

  /** The largest value of a non-empty column (`_dispatch.max`). */
  function MaxOf(s: seq<int>): (r: int)
    requires |s| > 0
    ensures r in s
    ensures forall k :: 0 <= k < |s| ==> s[k] <= r
  {
    if |s| == 1 then s[0]
    else
      var rest := MaxOf(s[1..]);
      if s[0] >= rest then s[0] else rest
  }

  /** The distinct values of a column (`_dispatch.unique`, as a set). */
  function Distinct(s: seq<int>): set<int> {
    set x | x in s
  }

  predicate ConstantColumn(l: Labels, c: nat)
    requires c < |l.names|
  {
    forall i, j :: 0 <= i < |l.rows| && 0 <= j < |l.rows| ==> l.rows[i][c] == l.rows[j][c]
  }

  lemma DropAtInjective(a: seq<int>, b: seq<int>, c: nat)
    requires |a| == |b| && c < |a|
    requires a[c] == b[c] && DropAt(a, c) == DropAt(b, c)
    ensures a == b
  {
    forall k | 0 <= k < |a| ensures a[k] == b[k] {
      if k < c {
        assert DropAt(a, c)[k] == DropAt(b, c)[k];
      } else if k > c {
        assert DropAt(a, c)[k - 1] == DropAt(b, c)[k - 1];
      }
    }
  }

  /**
   * `Labels.remove(name)` on a column holding a single value: the column is gone,
   * every entry keeps its other values in order, and the entries stay distinct.
   */
  function RemoveConstantColumn(l: Labels, name: string): (r: Labels)
    requires name in l.names
    requires ConstantColumn(l, IndexOf(l.names, name))
    ensures r.names == DropAt(l.names, IndexOf(l.names, name))
    ensures name !in r.names
    ensures |r.rows| == |l.rows|
    ensures forall i :: 0 <= i < |l.rows| ==> r.rows[i] == DropAt(l.rows[i], IndexOf(l.names, name))
  {
    var c := IndexOf(l.names, name);
    var names := DropAt(l.names, c);
    var rows := seq(|l.rows|, i requires 0 <= i < |l.rows| => DropAt(l.rows[i], c));
    assert NoDuplicates(names) by {
      forall i, j | 0 <= i < j < |names| ensures names[i] != names[j] {
        var i' := if i < c then i else i + 1;
        var j' := if j < c then j else j + 1;
        assert names[i] == l.names[i'] && names[j] == l.names[j'] && i' < j';
      }
    }
    assert NoDuplicates(rows) by {
      forall i, j | 0 <= i < j < |rows| ensures rows[i] != rows[j] {
        if rows[i] == rows[j] {
          DropAtInjective(l.rows[i], l.rows[j], c);
        }
      }
    }
    assert name !in names by {
      forall k | 0 <= k < |names| ensures names[k] != name {
        if k < c {
        } else {
          assert names[k] == l.names[k + 1];
          assert l.names[c] == name && c < k + 1;
        }
      }
    }
    LabelsData(names, rows)
  }

  /** `TensorMap.component_names`: the names of the component axes of the first block. */
  function ComponentNames(t: TensorMap): (r: seq<string>)
    ensures |t.blocks| > 0 ==> |r| == |t.blocks[0].components|
    ensures |t.blocks| == 0 ==> r == []
    ensures |t.blocks| > 0 ==> forall i :: 0 <= i < |r| ==> r[i] == t.blocks[0].components[i].name
  {
    if |t.blocks| == 0 then []
    else
      var cs := t.blocks[0].components;
      seq(|cs|, i requires 0 <= i < |cs| => cs[i].name)
  }

  /** The `TensorMap(keys=..., blocks=...)` constructor, which refuses a count mismatch. */
  function MakeTensor(keys: Labels, blocks: seq<Block>): (r: Result<TensorMap>)
    ensures r.Success? <==> |keys.rows| == |blocks|
    ensures r.Success? ==> r.value.keys == keys && r.value.blocks == blocks
    ensures r.Failure? ==> r.error == KeysBlocksMismatch(|keys.rows|, |blocks|)
  {
    if |keys.rows| == |blocks| then
      var t: TensorMap := TensorData(keys, blocks);
      Success(t)
    else Failure(KeysBlocksMismatch(|keys.rows|, |blocks|))
  }

  /** A block carries gradients when it has at least one gradient parameter. */
  predicate HasGradients(b: Block) {
    |b.gradientParameters| > 0
  }

  /** The driver's gradient test, `all(len(block.gradients()) > 0 for every block)`: as with
      Python's `all`, a tensor without blocks passes it. */
  predicate AllCarryGradients(t: TensorMap)
    ensures |t.blocks| == 0 ==> AllCarryGradients(t)
  {
    forall k :: 0 <= k < |t.blocks| ==> HasGradients(t.blocks[k])
  }

  predicate AnyCarriesGradients(t: TensorMap) {
    exists k :: 0 <= k < |t.blocks| && HasGradients(t.blocks[k])
  }

  /** metatensor's rule that all blocks of one tensor have the same gradients. */
  predicate UniformGradients(t: TensorMap) {
    forall i, j :: 0 <= i < |t.blocks| && 0 <= j < |t.blocks| ==>
      t.blocks[i].gradientParameters == t.blocks[j].gradientParameters
  }

  /** What `metatensor.equal_metadata` compares: everything but the numeric values. */
  function MetaBlock(b: Block): (r: Block)
    ensures r.values == []
    ensures r.samples == b.samples && r.components == b.components && r.properties == b.properties
    ensures r.gradientParameters == b.gradientParameters
  {
    b.(values := [])
  }

  function MetaBlocks(bs: seq<Block>): (r: seq<Block>)
    ensures |r| == |bs|
    ensures forall k :: 0 <= k < |bs| ==> r[k] == MetaBlock(bs[k])
  {
    seq(|bs|, k requires 0 <= k < |bs| => MetaBlock(bs[k]))
  }

  function MetaTensor(t: TensorMap): (r: TensorMap)
    ensures r.keys == t.keys && r.blocks == MetaBlocks(t.blocks)
  {
    TensorData(t.keys, MetaBlocks(t.blocks))
  }

  function MetaTensors(ts: seq<TensorMap>): (r: seq<TensorMap>)
    ensures |r| == |ts|
    ensures forall k :: 0 <= k < |ts| ==> r[k] == MetaTensor(ts[k])
  {
    seq(|ts|, k requires 0 <= k < |ts| => MetaTensor(ts[k]))
  }

  /** Decimal rendering of a natural number, as Python's f-strings print it. */
  function DigitChar(d: nat): char
    requires d < 10
  {
    (48 + d) as char
  }

  function NatToString(n: nat): (r: string)
    ensures |r| >= 1
    ensures n >= 10 ==> |r| >= 2
    ensures forall k :: 0 <= k < |r| ==> '0' <= r[k] <= '9'
    // no leading zero: the first digit is '0' only for zero itself
    ensures r[0] == '0' <==> n == 0
  {
    if n < 10 then [DigitChar(n)] else NatToString(n / 10) + [DigitChar(n % 10)]
  }

  /** The number a string of decimal digits spells, read independently of `NatToString`. */
  function DecimalValue(s: string): nat
    requires forall k :: 0 <= k < |s| ==> '0' <= s[k] <= '9'
  {
    if |s| == 0 then 0 else 10 * DecimalValue(s[..|s| - 1]) + (s[|s| - 1] as int - '0' as int)
  }

  /** The rendering spells `n`: reading its digits back gives `n`. */
  lemma {:induction false} NatToStringValue(n: nat)
    ensures DecimalValue(NatToString(n)) == n
  {
    if n >= 10 {
      var r := NatToString(n);
      assert r[..|r| - 1] == NatToString(n / 10);
      NatToStringValue(n / 10);
    }
  }

  lemma {:induction false} NatToStringInjective(m: nat, n: nat)
    requires NatToString(m) == NatToString(n)
    ensures m == n
  {
    if m < 10 && n < 10 {
      assert DigitChar(m) == NatToString(m)[0];
    } else if m >= 10 && n >= 10 {
      var a, b := NatToString(m), NatToString(n);
      assert a[|a| - 1] == DigitChar(m % 10) && b[|b| - 1] == DigitChar(n % 10);
      assert a[..|a| - 1] == NatToString(m / 10) && b[..|b| - 1] == NatToString(n / 10);
      NatToStringInjective(m / 10, n / 10);
    }
  }
}
