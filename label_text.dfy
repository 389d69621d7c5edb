/** The text of the AR label overlay: the detected objects' labels, in
    detection order, joined with ", " (`map(obj => obj.label).join(', ')`).

    Splitting the joined text back on ", " recovers the labels whenever there
    is at least one and none of them contains ", " itself; an empty
    detection list and a list holding one empty label give the same text. */
module LabelText {
  import opened Modes

  /** The separator the label overlay puts between labels. */
  const Separator: string := ", "

  /** The `label` field of each detection, in order (the `map`). */
  function Labels(ds: seq<Detection>): (ls: seq<string>)
    ensures |ls| == |ds|
    ensures forall i :: 0 <= i < |ds| ==> ls[i] == ds[i].objectLabel
  {
    if ds == [] then [] else [ds[0].objectLabel] + Labels(ds[1..])
  }

  /** `parts.join(sep)`: the empty list gives "", one part gives itself.
      The text starts with the first part. */
  function Join(parts: seq<string>, sep: string): (r: string)
    ensures parts == [] ==> r == ""
    ensures |parts| >= 1 ==> parts[0] <= r
  {
    if |parts| == 0 then ""
    else if |parts| == 1 then parts[0]
    else parts[0] + sep + Join(parts[1..], sep)
  }

  /** The payload of the label overlay for a detection list: empty for no
      detections, otherwise starting with the first detection's label. */
  function JoinLabels(ds: seq<Detection>): (r: string)
    ensures ds == [] ==> r == ""
    ensures |ds| >= 1 ==> ds[0].objectLabel <= r
  {
    Join(Labels(ds), Separator)
  }

  /** `s` has no occurrence of the separator ", ". */
  predicate NoSeparator(s: string)
  {
    forall i :: 0 <= i < |s| - 1 ==> !(s[i] == ',' && s[i + 1] == ' ')
  }

  /** Cuts `s` at every occurrence of ", ", scanning from the left. */
  function Split(s: string): (parts: seq<string>)
    ensures |parts| >= 1
    ensures |parts| == 1 ==> parts[0] == s
  {
    if |s| == 0 then [""]
    else if |s| >= 2 && s[0] == ',' && s[1] == ' ' then [""] + Split(s[2..])
    else
      var rest := Split(s[1..]);
      [[s[0]] + rest[0]] + rest[1..]
  }

  /** Text without a separator is not cut. */
  lemma {:induction false} SplitPlain(p: string)
    requires NoSeparator(p)
    ensures Split(p) == [p]
    decreases |p|
  {
    if |p| > 0 {
      assert !(|p| >= 2 && p[0] == ',' && p[1] == ' ');
      assert NoSeparator(p[1..]) by {
        forall i | 0 <= i < |p[1..]| - 1 ensures !(p[1..][i] == ',' && p[1..][i + 1] == ' ') {
          assert p[1..][i] == p[i + 1] && p[1..][i + 1] == p[i + 2];
        }
      }
      SplitPlain(p[1..]);
      assert [p[0]] + p[1..] == p;
    }
  }

  /** The first cut of `p + ", " + t` falls right after `p` when `p` has no
      separator of its own. */
  lemma {:induction false} SplitAfterPart(p: string, t: string)
    requires NoSeparator(p)
    ensures Split(p + Separator + t) == [p] + Split(t)
    decreases |p|
  {
    var s := p + Separator + t;
    if |p| == 0 {
      assert s == ", " + t;
      assert s[2..] == t;
    } else {
      assert s[0] == p[0];
      assert |p| >= 2 ==> s[1] == p[1];
      assert |p| == 1 ==> s[1] == ',';
      assert !(s[0] == ',' && s[1] == ' ');
      assert NoSeparator(p[1..]) by {
        forall i | 0 <= i < |p[1..]| - 1 ensures !(p[1..][i] == ',' && p[1..][i + 1] == ' ') {
          assert p[1..][i] == p[i + 1] && p[1..][i + 1] == p[i + 2];
        }
      }
      assert s[1..] == p[1..] + Separator + t;
      SplitAfterPart(p[1..], t);
      assert [p[0]] + p[1..] == p;
    }
  }

  /** Splitting undoes joining: for a non-empty list of parts none of which
      contains ", ", the parts come back in their original order. */
  lemma {:induction false} SplitJoin(parts: seq<string>)
    requires |parts| >= 1
    requires forall k :: 0 <= k < |parts| ==> NoSeparator(parts[k])
    ensures Split(Join(parts, Separator)) == parts
    decreases |parts|
  {
    if |parts| == 1 {
      SplitPlain(parts[0]);
    } else {
      SplitAfterPart(parts[0], Join(parts[1..], Separator));
      SplitJoin(parts[1..]);
      assert [parts[0]] + parts[1..] == parts;
    }
  }

  /** The label text lists the detections' labels in detection order: when no
      label contains ", ", splitting it gives back exactly those labels. */
  lemma LabelsRoundTrip(ds: seq<Detection>)
    requires |ds| >= 1
    requires forall k :: 0 <= k < |ds| ==> NoSeparator(ds[k].objectLabel)
    ensures Split(JoinLabels(ds)) == Labels(ds)
  {
    SplitJoin(Labels(ds));
  }

  /** The join is not invertible in general: no detections and one detection
      with an empty label give the same (empty) text. */
  lemma EmptyListAndBlankLabelAgree()
    ensures JoinLabels([]) == JoinLabels([Detection("")]) == ""
  {
  }

  /** Appending a detection appends ", " and its label to a non-empty text. */
  lemma {:induction false} JoinLabelsSnoc(ds: seq<Detection>, d: Detection)
    requires |ds| >= 1
    ensures JoinLabels(ds + [d]) == JoinLabels(ds) + Separator + d.objectLabel
    decreases |ds|
  {
    assert Labels(ds + [d]) == Labels(ds) + [d.objectLabel];
    JoinSnoc(Labels(ds), d.objectLabel, Separator);
  }

  /** `Join` and appending a part: the join grows by the separator and the part. */
  lemma {:induction false} JoinSnoc(parts: seq<string>, q: string, sep: string)
    requires |parts| >= 1
    ensures Join(parts + [q], sep) == Join(parts, sep) + sep + q
    decreases |parts|
  {
    if |parts| == 1 {
      assert parts + [q] == [parts[0], q];
      assert [parts[0], q][1..] == [q];
    } else {
      assert (parts + [q])[1..] == parts[1..] + [q];
      JoinSnoc(parts[1..], q, sep);
    }
  }
}
