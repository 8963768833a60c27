/**
 * Building the image name from the entry fields of a template
 * (`format_number` and `format_template_str`).  The date stamp comes from
 * the wall clock and the field values from the form, so both are parameters.
 */
module NameFormatter {
  import opened Wrappers
  import opened PyStr

  /** The IndexErrors that `format_template_str` can raise. */
  datatype FormatError =
    | UnknownTemplate(name: string)   // the registry has no such template
    | InputTypeIndex(index: nat)      // `input_type` has no entry for this field
    | SeparatorIndex(index: nat)      // `separators` has no entry after this field

  /**
   * `format_number`: a kind other than exactly "numeric" passes the value
   * through; "numeric" leaves a value of 3 or more characters alone and
   * pads a shorter one to 3 with zeros placed after any leading sign.
   */
  function FormatNumber(inputStr: string, inputType: string): (r: string)
    ensures inputType != "numeric" ==> r == inputStr
    ensures inputType == "numeric" && |inputStr| >= 3 ==> r == inputStr
    ensures inputType == "numeric" && |inputStr| < 3 ==>
              var k, fill := SignLength(inputStr), 3 - |inputStr|;
              && |r| == 3
              && r[..k] == inputStr[..k]
              && r[k..k + fill] == Zeros(fill)
              && r[k + fill..] == inputStr[k..]
  {
    if inputType == "numeric" then ZFill(inputStr, 3) else inputStr
  }

  function FormatFields(entryStrs: seq<string>, entryTypes: seq<string>): seq<string>
    requires |entryTypes| >= |entryStrs|
  {
    seq(|entryStrs|, i requires 0 <= i < |entryStrs| => FormatNumber(entryStrs[i], entryTypes[i]))
  }

  /** `f0 + sep0 + f1 + sep1 + ... + f(n-1)`: no separator after the last field. */
  function Joined(fields: seq<string>, seps: seq<string>): string
    requires |seps| >= |fields| - 1
  {
    if |fields| == 0 then ""
    else if |fields| == 1 then fields[0]
    else fields[0] + seps[0] + Joined(fields[1..], seps[1..])
  }

  /**
   * What `format_template_str` returns: the stamp, "_", then the formatted
   * fields joined by their separators; or the IndexError it raises when
   * `input_type` or `separators` is too short for the number of entries.
   */
  function FormatName(timeStamp: string, entryStrs: seq<string>, entryTypes: seq<string>,
                      sepStrs: seq<string>): (r: Result<string, FormatError>)
    ensures r.Success? ==> |r.value| >= |timeStamp| + 1 && r.value[..|timeStamp| + 1] == timeStamp + "_"
    ensures r.Failure? ==> r.error.InputTypeIndex? || r.error.SeparatorIndex?
  {
    if |entryTypes| < |entryStrs| then Failure(InputTypeIndex(|entryTypes|))
    else if |sepStrs| < |entryStrs| - 1 then Failure(SeparatorIndex(|sepStrs|))
    else Success(timeStamp + "_" + Joined(FormatFields(entryStrs, entryTypes), sepStrs))
  }

  /**
   * The list `full_str_seq` of `format_template_str`: field, separator,
   * field, ..., field.  Field i sits at position 2i and separator i at 2i+1.
   */
  ghost predicate Interleaves(pieces: seq<string>, fields: seq<string>, seps: seq<string>)
  {
    && |pieces| == (if |fields| == 0 then 0 else 2 * |fields| - 1)
    && (forall j :: 0 <= j < |fields| ==> pieces[2 * j] == fields[j])
    && |seps| >= |fields| - 1
    && (forall j :: 0 <= j < |fields| - 1 ==> pieces[2 * j + 1] == seps[j])
  }

  /** Joining the interleaved list gives exactly the joined name. */
  lemma {:induction false} JoinInterleaved(pieces: seq<string>, fields: seq<string>, seps: seq<string>)
    requires Interleaves(pieces, fields, seps)
    ensures |seps| >= |fields| - 1
    ensures Join(pieces) == Joined(fields, seps)
  {
    if |fields| >= 2 {
      assert pieces[0] == fields[0];
      assert pieces[1] == seps[0];
      var rest := pieces[2..];
      forall j | 0 <= j < |fields| - 1
        ensures rest[2 * j] == fields[1..][j]
      {
        assert pieces[2 * (j + 1)] == fields[j + 1];
      }
      forall j | 0 <= j < |fields| - 2
        ensures rest[2 * j + 1] == seps[1..][j]
      {
        assert pieces[2 * (j + 1) + 1] == seps[j + 1];
      }
      JoinInterleaved(rest, fields[1..], seps[1..]);
      assert pieces[1..][1..] == rest;
    } else if |fields| == 1 {
      assert pieces == [fields[0]];
    }
  }

  /**
   * `format_template_str`: formats every entry by its kind, builds the list
   * field, separator, ..., field with the indexed loop, and joins it after
   * the stamp and "_".
   */
  method FormatTemplate(timeStamp: string, entryStrs: seq<string>, entryTypes: seq<string>,
                        sepStrs: seq<string>) returns (r: Result<string, FormatError>)
    ensures r == FormatName(timeStamp, entryStrs, entryTypes, sepStrs)
  {
    // The list comprehension indexes entry_types with every entry index.
    if |entryTypes| < |entryStrs| {
      return Failure(InputTypeIndex(|entryTypes|));
    }
    var formatted := FormatFields(entryStrs, entryTypes);
    var n := |formatted|;
    var fullStrSeq: seq<string> := [];
    var idx := 0;
    while idx < n
      invariant 0 <= idx <= n
      invariant |fullStrSeq| == if idx == n && n > 0 then 2 * n - 1 else 2 * idx
      invariant idx < n ==> idx <= |sepStrs|
      invariant idx == n ==> |sepStrs| >= n - 1
      invariant forall j :: 0 <= j < idx ==> fullStrSeq[2 * j] == formatted[j]
      invariant forall j :: 0 <= j < idx && j < n - 1 ==> fullStrSeq[2 * j + 1] == sepStrs[j]
    {
      if idx < n - 1 {
        if idx >= |sepStrs| {
          assert n == |entryStrs| && idx == |sepStrs|;
          return Failure(SeparatorIndex(idx));
        }
        fullStrSeq := fullStrSeq + [formatted[idx], sepStrs[idx]];
      }
      if idx == n - 1 {
        fullStrSeq := fullStrSeq + [formatted[idx]];
      }
      idx := idx + 1;
    }
    assert Interleaves(fullStrSeq, formatted, sepStrs);
    JoinInterleaved(fullStrSeq, formatted, sepStrs);
    var inputStrs := [timeStamp, "_"] + fullStrSeq;
    JoinAppend([timeStamp, "_"], fullStrSeq);
    assert Join([timeStamp, "_"]) == timeStamp + "_" by {
      assert [timeStamp, "_"][1..] == ["_"];
    }
    r := Success(Join(inputStrs));
  }

  /** A name of two or more fields is the first field, its separator, and the rest. */
  lemma JoinedCons(fields: seq<string>, seps: seq<string>)
    requires |fields| >= 2 && |seps| >= |fields| - 1
    ensures Joined(fields, seps) == fields[0] + seps[0] + Joined(fields[1..], seps[1..])
  {
  }

  /**
   * Separator i sits between field i and field i + 1: the name splits there
   * into the join of fields 0..i, separator i, and the join of the rest.
   */
  lemma {:induction false} JoinedSplitAt(fields: seq<string>, seps: seq<string>, i: nat)
    requires |seps| >= |fields| - 1
    requires i < |fields| - 1
    ensures Joined(fields, seps) == Joined(fields[..i + 1], seps) + seps[i] + Joined(fields[i + 1..], seps[i + 1..])
  {
    if i > 0 {
      JoinedSplitAt(fields[1..], seps[1..], i - 1);
      assert fields[1..][..i] == fields[..i + 1][1..];
      assert fields[1..][i..] == fields[i + 1..];
      assert seps[1..][i..] == seps[i + 1..];
    }
  }

  /** Separators at index n - 1 and beyond are never emitted. */
  lemma {:induction false} JoinedIgnoresExtraSeparators(fields: seq<string>, seps: seq<string>, seps': seq<string>)
    requires |seps| >= |fields| - 1 && |seps'| >= |fields| - 1
    requires forall j :: 0 <= j < |fields| - 1 ==> seps[j] == seps'[j]
    ensures Joined(fields, seps) == Joined(fields, seps')
  {
    if |fields| >= 2 {
      assert seps[0] == seps'[0];
      JoinedIgnoresExtraSeparators(fields[1..], seps[1..], seps'[1..]);
    }
  }

  /**
   * `format_template_str` raises exactly when `input_type` has fewer entries
   * than there are fields or `separators` fewer than one less; otherwise the
   * name is the stamp, "_", and the joined fields.
   */
  lemma FormatNameSucceedsIff(timeStamp: string, entryStrs: seq<string>, entryTypes: seq<string>,
                              sepStrs: seq<string>)
    ensures FormatName(timeStamp, entryStrs, entryTypes, sepStrs).Success?
            <==> |entryTypes| >= |entryStrs| && |sepStrs| >= |entryStrs| - 1
    ensures |entryTypes| < |entryStrs| ==>
              FormatName(timeStamp, entryStrs, entryTypes, sepStrs) == Failure(InputTypeIndex(|entryTypes|))
    ensures |entryTypes| >= |entryStrs| && |sepStrs| < |entryStrs| - 1 ==>
              FormatName(timeStamp, entryStrs, entryTypes, sepStrs) == Failure(SeparatorIndex(|sepStrs|))
  {
  }

  /** With no entries the name is the stamp and "_" alone. */
  lemma FormatNameNoEntries(timeStamp: string, entryTypes: seq<string>, sepStrs: seq<string>)
    ensures FormatName(timeStamp, [], entryTypes, sepStrs) == Success(timeStamp + "_")
  {
    assert Joined(FormatFields([], entryTypes), sepStrs) == "";
    assert timeStamp + "_" + "" == timeStamp + "_";
  }

  /**
   * Kinds and separators beyond the ones the entries use make no
   * difference: the name depends on the first n kinds and n - 1 separators.
   */
  lemma FormatNameIgnoresExtras(timeStamp: string, entryStrs: seq<string>, entryTypes: seq<string>,
                                sepStrs: seq<string>)
    requires |entryTypes| >= |entryStrs| && |sepStrs| >= |entryStrs| - 1
    ensures var k := if |entryStrs| == 0 then 0 else |entryStrs| - 1;
            FormatName(timeStamp, entryStrs, entryTypes, sepStrs)
            == FormatName(timeStamp, entryStrs, entryTypes[..|entryStrs|], sepStrs[..k])
  {
    var k := if |entryStrs| == 0 then 0 else |entryStrs| - 1;
    var f := FormatFields(entryStrs, entryTypes);
    assert f == FormatFields(entryStrs, entryTypes[..|entryStrs|]);
    JoinedIgnoresExtraSeparators(f, sepStrs, sepStrs[..k]);
  }

  /**
   * Two fields, kinds text and numeric, separators "-" and "-IMS_": the
   * second separator is the last one and is dropped.
   */
  lemma TwoFieldExample()
    ensures FormatName("20200625", ["VAN0001", "7"], ["text", "numeric"], ["-", "-IMS_"])
            == Success("20200625_VAN0001-007")
  {
    var f := FormatFields(["VAN0001", "7"], ["text", "numeric"]);
    assert FormatNumber("7", "numeric") == "007";
    assert f == ["VAN0001", "007"];
    assert Joined(f, ["-", "-IMS_"]) == "VAN0001-007";
    assert "20200625" + "_" + "VAN0001-007" == "20200625_VAN0001-007";
  }
}
