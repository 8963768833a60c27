/**
 * `format_mis`: every `Area` child of the sequence document's root gets the
 * `Name` attribute `<base>_roi<index>`, the index counting `Area` children
 * from 0 in document order and zero-padded to 3 digits.  Parsing and
 * pretty-printing the XML are not modelled: the root's children are an
 * array of elements.
 */
module RegionRelabeler {
  import opened Wrappers
  import opened PyStr

  /** An XML element: its tag, its attribute dictionary and its children. */
  datatype Element = Element(tag: string, attrib: map<string, string>, children: seq<Element>)

  predicate IsArea(e: Element)
  {
    e.tag == "Area"
  }

  /** The element's `Name` attribute, if it has one. */
  function NameOf(e: Element): Option<string>
  {
    if "Name" in e.attrib then Some(e.attrib["Name"]) else None
  }

  /** `area.attrib["Name"] = name`: adds or overwrites that one attribute. */
  function SetName(e: Element, name: string): Element
  {
    e.(attrib := e.attrib["Name" := name])
  }

  /**
   * `str(idx).zfill(3)`: decimal digits that read back as `idx`; exactly 3
   * of them below 1000, and `str(idx)` unpadded (4 or more) from 1000 on.
   */
  function RoiSuffix(idx: nat): (r: string)
    ensures AllDigits(r) && DigitsValue(r) == idx
    ensures idx < 1000 ==> |r| == 3
    ensures idx >= 1000 ==> r == NatToString(idx) && |r| >= 4
  {
    NatToStringRoundTrip(idx);
    ZFillKeepsValue(NatToString(idx), 3);
    NatToStringLength(idx, 3);
    assert Pow10(3) == 1000;
    ZFill(NatToString(idx), 3)
  }

  /**
   * `"{}_roi{}".format(base, str(idx).zfill(3))`: the base, "_roi", then
   * digits whose value is `idx`.
   */
  function RoiName(base: string, idx: nat): (r: string)
    ensures |r| >= |base| + 4 && r[..|base| + 4] == base + "_roi"
    ensures AllDigits(r[|base| + 4..]) && DigitsValue(r[|base| + 4..]) == idx
  {
    var r := base + "_roi" + RoiSuffix(idx);
    assert r[|base| + 4..] == RoiSuffix(idx);
    r
  }

  /** How many `Area` elements `s` holds. */
  function CountAreas(s: seq<Element>): nat
  {
    if s == [] then 0
    else CountAreas(s[..|s| - 1]) + (if IsArea(s[|s| - 1]) then 1 else 0)
  }

  /** The `Name` attributes of the `Area` elements of `s`, in order. */
  function AreaNames(s: seq<Element>): seq<Option<string>>
  {
    if s == [] then []
    else AreaNames(s[..|s| - 1]) + (if IsArea(s[|s| - 1]) then [NameOf(s[|s| - 1])] else [])
  }

  /** Element i after relabelling: an Area is renamed after the Areas before it. */
  function RelabelAt(s: seq<Element>, base: string, i: nat): Element
    requires i < |s|
  {
    if IsArea(s[i]) then SetName(s[i], RoiName(base, CountAreas(s[..i]))) else s[i]
  }

  /** The root's children after `format_mis`. */
  function Relabel(s: seq<Element>, base: string): (r: seq<Element>)
    ensures |r| == |s|
  {
    seq(|s|, i requires 0 <= i < |s| => RelabelAt(s, base, i))
  }

  /**
   * `format_mis`, on the root's children: the loop over the `Area` children
   * in document order, `idx` counting them as `enumerate` does.
   */
  method FormatMis(root: array<Element>, sampleIdStr: string)
    modifies root
    ensures root[..] == Relabel(old(root[..]), sampleIdStr)
  {
    ghost var s := root[..];
    var idx := 0;
    var i := 0;
    while i < root.Length
      invariant 0 <= i <= root.Length
      invariant idx == CountAreas(s[..i])
      invariant forall j :: 0 <= j < i ==> root[j] == RelabelAt(s, sampleIdStr, j)
      invariant forall j :: i <= j < root.Length ==> root[j] == s[j]
    {
      assert s[..i + 1][..i] == s[..i];
      if IsArea(root[i]) {
        root[i] := SetName(root[i], RoiName(sampleIdStr, idx));
        idx := idx + 1;
      }
      i := i + 1;
    }
  }

  /** `Some(RoiName(base, k))` for k = 0 .. count - 1. */
  function RoiNames(base: string, count: nat): seq<Option<string>>
  {
    seq(count, k requires 0 <= k < count => Some(RoiName(base, k)))
  }

  /** Relabelling changes only `Name` attributes of `Area` elements. */
  lemma RelabelFrame(s: seq<Element>, base: string, i: nat)
    requires i < |s|
    ensures Relabel(s, base)[i].tag == s[i].tag
    ensures Relabel(s, base)[i].children == s[i].children
    ensures !IsArea(s[i]) ==> Relabel(s, base)[i] == s[i]
    ensures IsArea(s[i]) ==> Relabel(s, base)[i].attrib - {"Name"} == s[i].attrib - {"Name"}
  {
  }

  /** Relabelling a prefix is a prefix of relabelling the whole. */
  lemma RelabelPrefix(s: seq<Element>, base: string, n: nat)
    requires n <= |s|
    ensures Relabel(s[..n], base) == Relabel(s, base)[..n]
  {
    forall i | 0 <= i < n
      ensures Relabel(s[..n], base)[i] == Relabel(s, base)[i]
    {
      assert s[..n][..i] == s[..i];
    }
  }

  /** Relabelling keeps every tag, so the `Area` count is unchanged. */
  lemma {:induction false} RelabelCountAreas(s: seq<Element>, base: string)
    ensures CountAreas(Relabel(s, base)) == CountAreas(s)
  {
    if s != [] {
      var n := |s| - 1;
      RelabelPrefix(s, base, n);
      RelabelCountAreas(s[..n], base);
      assert Relabel(s, base)[..n] == Relabel(s[..n], base);
    }
  }

  /**
   * The `Area` elements end up named `<base>_roi000`, `<base>_roi001`, ...
   * in document order, whatever names they had before.
   */
  lemma {:induction false} AreaNamesInOrder(s: seq<Element>, base: string)
    ensures AreaNames(Relabel(s, base)) == RoiNames(base, CountAreas(s))
  {
    if s != [] {
      var n := |s| - 1;
      var r := Relabel(s, base);
      RelabelPrefix(s, base, n);
      assert r[..n] == Relabel(s[..n], base);
      AreaNamesInOrder(s[..n], base);
    }
  }

  /** With no `Area` child the document is left as it is. */
  lemma {:induction false} NoAreasUnchanged(s: seq<Element>, base: string)
    requires CountAreas(s) == 0
    ensures Relabel(s, base) == s
  {
    forall i | 0 <= i < |s|
      ensures !IsArea(s[i])
    {
      CountAreasMonotone(s, i, |s|);
      assert s[..|s|] == s;
    }
  }

  /** An `Area` at position i makes the count up to j > i exceed the count up to i. */
  lemma {:induction false} CountAreasMonotone(s: seq<Element>, i: nat, j: nat)
    requires i < j <= |s|
    ensures CountAreas(s[..j]) >= CountAreas(s[..i]) + (if IsArea(s[i]) then 1 else 0)
  {
    assert s[..j][..j - 1] == s[..j - 1];
    if j - 1 > i {
      CountAreasMonotone(s, i, j - 1);
    }
  }

  /** Different indices give different names. */
  lemma RoiNameInjective(base: string, i: nat, j: nat)
    requires i != j
    ensures RoiName(base, i) != RoiName(base, j)
  {
  }

  /** After relabelling, no two `Area` elements share a name. */
  lemma RelabelledNamesDistinct(s: seq<Element>, base: string, i: nat, j: nat)
    requires i < j < |s| && IsArea(s[i]) && IsArea(s[j])
    ensures NameOf(Relabel(s, base)[i]) != NameOf(Relabel(s, base)[j])
  {
    CountAreasMonotone(s, i, j);
    RoiNameInjective(base, CountAreas(s[..i]), CountAreas(s[..j]));
  }

  /** Setting a name twice to the same value is setting it once. */
  lemma SetNameTwice(e: Element, name: string)
    ensures SetName(SetName(e, name), name) == SetName(e, name)
  {
    assert e.attrib["Name" := name]["Name" := name] == e.attrib["Name" := name];
  }

  /** Relabelling again leaves child i as the first relabelling made it. */
  lemma RelabelAtStable(s: seq<Element>, base: string, i: nat)
    requires i < |s|
    ensures RelabelAt(Relabel(s, base), base, i) == Relabel(s, base)[i]
  {
    var r := Relabel(s, base);
    RelabelPrefix(s, base, i);
    RelabelCountAreas(s[..i], base);
    assert CountAreas(r[..i]) == CountAreas(s[..i]);
    if IsArea(s[i]) {
      SetNameTwice(s[i], RoiName(base, CountAreas(s[..i])));
    }
  }

  /** Running the relabelling twice gives the same document as once. */
  lemma RelabelIdempotent(s: seq<Element>, base: string)
    ensures Relabel(Relabel(s, base), base) == Relabel(s, base)
  {
    var r := Relabel(s, base);
    forall i | 0 <= i < |s|
      ensures Relabel(r, base)[i] == r[i]
    {
      RelabelAtStable(s, base, i);
    }
  }
}
