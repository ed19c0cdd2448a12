/** Tags as the author editor handles them: joined with ", " into one text field
    on load (src/components/AuthorEditor.tsx:108) and parsed back on save by
    split(",") / map(trim) / filter(Boolean) (src/components/AuthorEditor.tsx:155-158). */
module Tags {
  import opened JsString

  /** The separator the editor joins stored tags with. */
  const TagSeparator: string := ", "

  /** `b` keeps some of the elements of `a`, in their order. */
  predicate IsSubsequence(b: seq<string>, a: seq<string>)
    decreases |a|
  {
    if b == [] then true
    else if a == [] then false
    else (b[0] == a[0] && IsSubsequence(b[1..], a[1..])) || IsSubsequence(b, a[1..])
  }

  /** `pieces.map(trim)`. */
  function TrimAll(pieces: seq<string>): (r: seq<string>)
    ensures |r| == |pieces|
  {
    if pieces == [] then [] else [Trim(pieces[0])] + TrimAll(pieces[1..])
  }

  /** The number of pieces that hold nothing but whitespace. */
  function Blanks(pieces: seq<string>): nat {
    if pieces == [] then 0
    else (if AllWhitespace(pieces[0]) then 1 else 0) + Blanks(pieces[1..])
  }

  /** `pieces.map(trim).filter(Boolean)`: the trimmed pieces, in order, less the
      blank ones; every tag kept is non-empty and trimmed. */
  function Clean(pieces: seq<string>): (r: seq<string>)
    ensures forall i :: 0 <= i < |r| ==> r[i] != "" && Trimmed(r[i])
    ensures IsSubsequence(r, TrimAll(pieces))
    ensures |r| + Blanks(pieces) == |pieces|
  {
    if pieces == [] then []
    else
      var t := Trim(pieces[0]);
      var rest := Clean(pieces[1..]);
      assert TrimAll(pieces)[1..] == TrimAll(pieces[1..]);
      if t == "" then
        SubsequenceSkip(rest, TrimAll(pieces));
        rest
      else [t] + rest
  }

  lemma SubsequenceSkip(b: seq<string>, a: seq<string>)
    requires a != [] && IsSubsequence(b, a[1..])
    ensures IsSubsequence(b, a)
  {
  }

  /** The tags saved from the comma-separated tag field: every entry that is not
      blank, trimmed, in order. */
  function ParseTags(field: string): (r: seq<string>)
    ensures forall i :: 0 <= i < |r| ==> r[i] != "" && Trimmed(r[i])
    ensures IsSubsequence(r, TrimAll(Split(field, ',')))
    ensures |r| <= Occurrences(field, ',') + 1
    ensures |r| + Blanks(Split(field, ',')) == Occurrences(field, ',') + 1
  {
    Clean(Split(field, ','))
  }

  /** The tag field shown for stored tags, `tags.join(", ")`: no tags show as "",
      otherwise the first tag comes first and every tag after it costs two more
      characters, for the separator. */
  function ShowTags(tags: seq<string>): (r: string)
    ensures tags == [] ==> r == ""
    ensures tags != [] ==> tags[0] <= r
    ensures tags != [] ==> |r| == TotalLength(tags) + 2 * (|tags| - 1)
  {
    if tags == [] then ""
    else
      JoinLength(tags, TagSeparator);
      Join(tags, TagSeparator)
  }

  /** A tag the round trip preserves: non-empty, trimmed, and free of commas. */
  predicate CleanTag(t: string) {
    t != "" && Trimmed(t) && ',' !in t
  }

  /** Loading stored tags into the field and saving the field gives the same tags back. */
  lemma {:induction false} TagsRoundTrip(tags: seq<string>)
    requires forall i :: 0 <= i < |tags| ==> CleanTag(tags[i])
    ensures ParseTags(ShowTags(tags)) == tags
  {
    if tags == [] {
      assert Split("", ',') == [""];
    } else {
      var pieces := Spaced(tags);
      JoinSpaced(tags);
      SplitJoin(pieces, ',');
      CleanSpaced(tags);
    }
  }

  /** The pieces `split(",")` cuts from a ", "-joined list: each tag after the
      first keeps the space that followed its comma. */
  function Spaced(tags: seq<string>): (r: seq<string>)
    requires tags != []
    ensures |r| == |tags|
  {
    [tags[0]] + Padded(tags[1..])
  }

  function Padded(tags: seq<string>): (r: seq<string>)
    ensures |r| == |tags|
  {
    if tags == [] then [] else [" " + tags[0]] + Padded(tags[1..])
  }

  lemma {:induction false} JoinSpaced(tags: seq<string>)
    requires tags != []
    requires forall i :: 0 <= i < |tags| ==> CleanTag(tags[i])
    ensures Join(tags, TagSeparator) == Join(Spaced(tags), ",")
    ensures forall i :: 0 <= i < |tags| ==> ',' !in Spaced(tags)[i]
  {
    if |tags| > 1 {
      var rest := tags[1..];
      assert Spaced(tags)[1..] == Padded(rest);
      JoinPadded(rest);
      assert Join(Spaced(tags), ",") == tags[0] + "," + Join(Padded(rest), ",");
    }
    forall i | 0 <= i < |tags| ensures ',' !in Spaced(tags)[i] {
      if i > 0 { PaddedAt(tags[1..], i - 1); }
    }
  }

  /** Joining padded tags with "," equals " " followed by the ", "-join of the tags. */
  lemma {:induction false} JoinPadded(rest: seq<string>)
    requires rest != []
    ensures Join(Padded(rest), ",") == " " + Join(rest, TagSeparator)
  {
    if |rest| > 1 {
      JoinPadded(rest[1..]);
      assert Padded(rest)[1..] == Padded(rest[1..]);
    }
  }

  lemma {:induction false} PaddedAt(tags: seq<string>, i: nat)
    requires i < |tags|
    ensures Padded(tags)[i] == " " + tags[i]
  {
    if i > 0 {
      PaddedAt(tags[1..], i - 1);
    }
  }

  lemma {:induction false} CleanSpaced(tags: seq<string>)
    requires tags != []
    requires forall i :: 0 <= i < |tags| ==> CleanTag(tags[i])
    ensures Clean(Spaced(tags)) == tags
  {
    assert Spaced(tags)[1..] == Padded(tags[1..]);
    CleanPadded(tags[1..]);
    assert tags == [tags[0]] + tags[1..];
  }

  lemma {:induction false} CleanPadded(tags: seq<string>)
    requires forall i :: 0 <= i < |tags| ==> CleanTag(tags[i])
    ensures Clean(Padded(tags)) == tags
  {
    if tags != [] {
      TrimPadded(" ", tags[0], "");
      assert " " + tags[0] + "" == " " + tags[0];
      assert Padded(tags)[1..] == Padded(tags[1..]);
      CleanPadded(tags[1..]);
      assert tags == [tags[0]] + tags[1..];
    }
  }

  /** A stored tag that contains a comma comes back as two tags after a load and a save. */
  lemma CommaTagSplitsOnResave(a: string, b: string)
    requires CleanTag(a) && CleanTag(b)
    ensures ParseTags(ShowTags([a + "," + b])) == [a, b]
  {
    SplitAfter(a, ',', b);
    SplitFree(b, ',');
    var pieces := [a, b];
    assert Split(a + "," + b, ',') == pieces;
    assert Clean(pieces[1..]) == [b] by {
      assert Clean(pieces[1..][1..]) == [];
    }
  }
}
