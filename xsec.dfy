/** The cross-section table of make_xsec.py: the Drell-Yan samples binned in
    Z transverse momentum are given four aliases each, one per Z decay
    channel, all sharing the parent sample's cross section.

    The table is a Python dict, which keeps its keys in insertion order; it
    is modelled as that key order together with the key-to-value map. The
    numbers of the shipped table are not transcribed: the expansion is
    stated for every table. */
module CrossSections {
  import opened Seqs

  /** A dict from dataset name to cross section (pb). */
  datatype Table = Table(keys: seq<string>, xs: map<string, real>)

  /** The key order lists each key of the map exactly once. */
  predicate Valid(t: Table) {
    NoDup(t.keys) && SetOf(t.keys) == t.xs.Keys
  }

  /** `d[k] = v`: the key now maps to `v`, every other key keeps its value,
      and the key order changes only by a new key going last. */
  function Put(t: Table, k: string, v: real): (r: Table)
    ensures r.xs.Keys == t.xs.Keys + {k} && r.xs[k] == v
    ensures forall j :: j in t.xs && j != k ==> r.xs[j] == t.xs[j]
    ensures r.keys == if k in t.xs then t.keys else t.keys + [k]
  {
    Table(if k in t.xs then t.keys else t.keys + [k], t.xs[k := v])
  }

  /** Assignment keeps the key order in step with the keys. */
  lemma PutValid(t: Table, k: string, v: real)
    requires Valid(t)
    ensures Valid(Put(t, k, v))
  {
    if k !in t.xs {
      assert SetOf(t.keys + [k]) == SetOf(t.keys) + {k};
    }
  }

  /** `sub` occurs in `s` starting at index `i`. */
  predicate ContainsAt(s: string, sub: string, i: int) {
    0 <= i && i + |sub| <= |s| && s[i..i + |sub|] == sub
  }

  /** Python's substring test `sub in s`. */
  predicate Contains(s: string, sub: string) {
    exists i :: 0 <= i <= |s| && ContainsAt(s, sub, i)
  }

  const Marker: string := "DYJetsToLL_Pt"

  /** A Drell-Yan sample binned in Z transverse momentum. */
  predicate IsDrellYanPt(d: string) {
    Contains(d, Marker)
  }

  /** The Z decay channels an alias stands for. */
  datatype Channel = Zee | Zmm | Zem | Ztt

  function Suffix(ch: Channel): (s: string)
    ensures |s| == 4
  {
    match ch
    case Zee => "_Zee"
    case Zmm => "_Zmm"
    case Zem => "_Zem"
    case Ztt => "_Ztt"
  }

  /** The alias of a sample for one channel. */
  function Alias(z: string, ch: Channel): (a: string)
    ensures |a| == |z| + 4
  {
    z + Suffix(ch)
  }

  /** An alias names one sample and one channel: the suffixes have one
      length and differ in their last two letters. */
  lemma AliasInjective(y: string, c1: Channel, z: string, c2: Channel)
    requires Alias(y, c1) == Alias(z, c2)
    ensures y == z && c1 == c2
  {
    var a := Alias(y, c1);
    assert a[..|y|] == y && a[..|z|] == z;
    assert a[|y|..] == Suffix(c1) && a[|z|..] == Suffix(c2);
    assert Suffix(c1)[2] == Suffix(c2)[2] && Suffix(c1)[3] == Suffix(c2)[3];
  }

  /** The names of the four aliases of a sample. */
  function Aliases(z: string): set<string> {
    {Alias(z, Zee), Alias(z, Zmm), Alias(z, Zem), Alias(z, Ztt)}
  }

  /** The first loop: the Drell-Yan keys, in the dict's order. */
  method DrellYanKeys(t: Table) returns (zkeys: seq<string>)
    requires Valid(t)
    ensures zkeys == Filter(t.keys, IsDrellYanPt)
    ensures forall z :: z in zkeys <==> z in t.xs && IsDrellYanPt(z)
    ensures NoDup(zkeys)
  {
    zkeys := [];
    var i := 0;
    while i < |t.keys|
      invariant 0 <= i <= |t.keys|
      invariant zkeys == Filter(t.keys[..i], IsDrellYanPt)
    {
      var d := t.keys[i];
      assert t.keys[..i + 1] == t.keys[..i] + [d];
      FilterSnoc(t.keys[..i], d, IsDrellYanPt);
      if IsDrellYanPt(d) {
        zkeys := zkeys + [d];
      }
      i := i + 1;
    }
    assert t.keys[..i] == t.keys;
    FilterNoDup(t.keys, IsDrellYanPt);
  }

  /** The four insertions for one sample, each reading the sample's value
      afresh. */
  function AddAliases(t: Table, z: string): (r: Table)
    requires z in t.xs
    ensures r.xs.Keys == t.xs.Keys + Aliases(z)
    ensures t.keys <= r.keys
  {
    var t1 := Put(t, Alias(z, Zee), t.xs[z]);
    var t2 := Put(t1, Alias(z, Zmm), t1.xs[z]);
    var t3 := Put(t2, Alias(z, Zem), t2.xs[z]);
    Put(t3, Alias(z, Ztt), t3.xs[z])
  }

  /** The aliases of all listed samples. */
  function AliasKeys(zs: seq<string>): (r: set<string>)
    ensures forall z :: z in zs ==> Aliases(z) <= r
  {
    if zs == [] then {} else Aliases(zs[0]) + AliasKeys(zs[1..])
  }

  /** The second loop's effect: the aliases of each listed sample, sample
      after sample. The final keys are the original keys and the aliases of
      the listed samples, nothing else. */
  function Expand(t: Table, zs: seq<string>): (r: Table)
    requires forall z :: z in zs ==> z in t.xs
    ensures r.xs.Keys == t.xs.Keys + AliasKeys(zs)
    decreases |zs|
  {
    if zs == [] then t
    else
      var t1 := AddAliases(t, zs[0]);
      Expand(t1, zs[1..])
  }

  /** The original keys keep their order, in front of the aliases. */
  lemma {:induction false} ExpandKeepsOrder(t: Table, zs: seq<string>)
    requires forall z :: z in zs ==> z in t.xs
    ensures t.keys <= Expand(t, zs).keys
    decreases |zs|
  {
    if zs != [] {
      var t1 := AddAliases(t, zs[0]);
      ExpandKeepsOrder(t1, zs[1..]);
    }
  }

  /** The expansion keeps the key order in step with the keys. */
  lemma {:induction false} ExpandValid(t: Table, zs: seq<string>)
    requires Valid(t) && forall z :: z in zs ==> z in t.xs
    ensures Valid(Expand(t, zs))
    decreases |zs|
  {
    if zs != [] {
      var z := zs[0];
      var t1 := Put(t, Alias(z, Zee), t.xs[z]);
      var t2 := Put(t1, Alias(z, Zmm), t1.xs[z]);
      var t3 := Put(t2, Alias(z, Zem), t2.xs[z]);
      PutValid(t, Alias(z, Zee), t.xs[z]);
      PutValid(t1, Alias(z, Zmm), t1.xs[z]);
      PutValid(t2, Alias(z, Zem), t2.xs[z]);
      PutValid(t3, Alias(z, Ztt), t3.xs[z]);
      ExpandValid(AddAliases(t, z), zs[1..]);
    }
  }

  /** The second loop: for every listed sample, its four aliases. */
  method ExpandAliases(t: Table, zkeys: seq<string>) returns (r: Table)
    requires forall z :: z in zkeys ==> z in t.xs
    ensures r == Expand(t, zkeys)
  {
    r := t;
    var i := 0;
    while i < |zkeys|
      invariant 0 <= i <= |zkeys|
      invariant t.xs.Keys <= r.xs.Keys
      invariant Expand(r, zkeys[i..]) == Expand(t, zkeys)
    {
      var z := zkeys[i];
      assert zkeys[i..][1..] == zkeys[i + 1..];
      r := Put(r, Alias(z, Zee), r.xs[z]);
      r := Put(r, Alias(z, Zmm), r.xs[z]);
      r := Put(r, Alias(z, Zem), r.xs[z]);
      r := Put(r, Alias(z, Ztt), r.xs[z]);
      i := i + 1;
    }
  }

  /** The script: collect the Drell-Yan keys first, then add their aliases;
      the aliases, which are Drell-Yan names too, are not expanded again. */
  method MakeTable(t: Table) returns (r: Table)
    requires Valid(t)
    ensures r == Expand(t, Filter(t.keys, IsDrellYanPt))
    ensures Valid(r) && r.xs.Keys == t.xs.Keys + AliasKeys(Filter(t.keys, IsDrellYanPt))
  {
    var zkeys := DrellYanKeys(t);
    r := ExpandAliases(t, zkeys);
    ExpandValid(t, zkeys);
  }

  /** An alias of a Drell-Yan sample is itself a Drell-Yan name: without
      collecting the keys first, the loop would go on expanding aliases. */
  lemma AliasesAreDrellYan(z: string, ch: Channel)
    requires IsDrellYanPt(z)
    ensures IsDrellYanPt(Alias(z, ch))
  {
    var i :| 0 <= i <= |z| && ContainsAt(z, Marker, i);
    var a := Alias(z, ch);
    assert a[..|z|] == z;
    assert a[i..i + |Marker|] == z[i..i + |Marker|];
    assert ContainsAt(a, Marker, i);
  }

  /** The insertions for one sample give its aliases the sample's value and
      leave every other key alone. */
  lemma AddAliasesValues(t: Table, z: string)
    requires z in t.xs
    ensures forall a :: a in Aliases(z) ==> AddAliases(t, z).xs[a] == t.xs[z]
    ensures forall k :: k in t.xs && k !in Aliases(z) ==> AddAliases(t, z).xs[k] == t.xs[k]
  {
    var t1 := Put(t, Alias(z, Zee), t.xs[z]);
    var t2 := Put(t1, Alias(z, Zmm), t1.xs[z]);
    var t3 := Put(t2, Alias(z, Zem), t2.xs[z]);
    var t4 := Put(t3, Alias(z, Ztt), t3.xs[z]);
    assert t4 == AddAliases(t, z);
    AliasesDistinct(z);
  }

  /** A sample's four aliases differ from each other and from the sample. */
  lemma AliasesDistinct(z: string)
    ensures z !in Aliases(z)
    ensures Alias(z, Zee) != Alias(z, Zmm) && Alias(z, Zee) != Alias(z, Zem) && Alias(z, Zee) != Alias(z, Ztt)
    ensures Alias(z, Zmm) != Alias(z, Zem) && Alias(z, Zmm) != Alias(z, Ztt) && Alias(z, Zem) != Alias(z, Ztt)
  {
    forall c1: Channel, c2: Channel | c1 != c2
      ensures Alias(z, c1) != Alias(z, c2)
    {
      if Alias(z, c1) == Alias(z, c2) {
        AliasInjective(z, c1, z, c2);
      }
    }
  }

  /** A key that is no alias of a listed sample keeps its value. */
  lemma {:induction false} ExpandKeepsOthers(t: Table, zs: seq<string>, k: string)
    requires forall z :: z in zs ==> z in t.xs
    requires k in t.xs && k !in AliasKeys(zs)
    ensures Expand(t, zs).xs[k] == t.xs[k]
    decreases |zs|
  {
    if zs != [] {
      var t1 := AddAliases(t, zs[0]);
      AddAliasesValues(t, zs[0]);
      ExpandKeepsOthers(t1, zs[1..], k);
    }
  }

  /** A sample of the list whose alias `a` is. */
  lemma {:induction false} AliasOwner(zs: seq<string>, a: string) returns (y: string)
    requires a in AliasKeys(zs)
    ensures y in zs && a in Aliases(y)
    decreases |zs|
  {
    if a in Aliases(zs[0]) {
      y := zs[0];
    } else {
      y := AliasOwner(zs[1..], a);
    }
  }

  /** Two samples sharing an alias are the same sample. */
  lemma SharedAlias(a: string, y: string, z: string)
    requires a in Aliases(y) && a in Aliases(z)
    ensures y == z
  {
    var c1: Channel :| a == Alias(y, c1);
    var c2: Channel :| a == Alias(z, c2);
    AliasInjective(y, c1, z, c2);
  }

  /** When no listed sample is itself an alias of a listed sample, every
      alias ends up with the cross section of its sample. */
  lemma {:induction false} ExpandAliasValues(t: Table, zs: seq<string>, z: string, a: string)
    requires forall y :: y in zs ==> y in t.xs
    requires forall y :: y in zs ==> y !in AliasKeys(zs)
    requires z in zs && a in Aliases(z)
    ensures Expand(t, zs).xs[a] == t.xs[z]
    decreases |zs|
  {
    var t1 := AddAliases(t, zs[0]);
    AddAliasesValues(t, zs[0]);
    var rest := zs[1..];
    assert AliasKeys(zs) == Aliases(zs[0]) + AliasKeys(rest);
    if z in rest {
      assert z !in Aliases(zs[0]);
      ExpandAliasValues(t1, rest, z, a);
    } else {
      if a in AliasKeys(rest) {
        var y := AliasOwner(rest, a);
        SharedAlias(a, y, z);
      }
      ExpandKeepsOthers(t1, rest, a);
    }
  }

  /** Four fresh aliases add four keys. */
  lemma AddAliasesCount(t: Table, z: string)
    requires z in t.xs && Aliases(z) !! t.xs.Keys
    ensures |AddAliases(t, z).keys| == |t.keys| + 4
  {
    AliasesDistinct(z);
  }

  /** With distinct samples none of whose aliases is already a key, the
      table grows by exactly four keys per sample. */
  lemma {:induction false} ExpandCount(t: Table, zs: seq<string>)
    requires forall z :: z in zs ==> z in t.xs
    requires NoDup(zs)
    requires forall z :: z in zs ==> Aliases(z) !! t.xs.Keys
    ensures |Expand(t, zs).keys| == |t.keys| + 4 * |zs|
    decreases |zs|
  {
    if zs != [] {
      var z := zs[0];
      var t1 := AddAliases(t, z);
      AddAliasesCount(t, z);
      var rest := zs[1..];
      forall y | y in rest
        ensures Aliases(y) !! t1.xs.Keys
      {
        assert y != z;
        if a :| a in Aliases(y) && a in Aliases(z) {
          SharedAlias(a, y, z);
        }
      }
      ExpandCount(t1, rest);
    }
  }
}
