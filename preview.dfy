/** The preview renderer: a fixed plain-text template filled from the draft. */
module Preview {
  import opened Concerns
  import opened Drafts

  /** `parts.join('')`: the parts concatenated in order. */
  function Join(parts: seq<string>): (r: string)
    ensures |parts| == 1 ==> r == parts[0]
    ensures forall i :: 0 <= i < |parts| ==> |parts[i]| <= |r|
    decreases |parts|
  {
    if parts == [] then "" else parts[0] + Join(parts[1..])
  }

  /** One rendered line of section 3. */
  function Bullet(c: string): (r: string)
    ensures |r| == |c| + 3
    ensures r[..2] == "- " && r[2..|r| - 1] == c && r[|r| - 1] == '\n'
  {
    "- " + c + "\n"
  }

  /** `concerns.map(concern => `- ${concern}\n`)`. */
  function Bullets(cs: seq<string>): (r: seq<string>)
    ensures |r| == |cs|
    ensures forall i :: 0 <= i < |cs| ==> r[i] == Bullet(cs[i])
  {
    seq(|cs|, i requires 0 <= i < |cs| => Bullet(cs[i]))
  }

  /** The body of section 3: the bullet lines joined with nothing between them. */
  function ConcernLines(cs: seq<string>): (r: string)
    ensures r == "" <==> cs == []
    ensures forall i :: 0 <= i < |cs| ==> |cs[i]| + 3 <= |r|
  {
    var lines := Bullets(cs);
    assert forall i :: 0 <= i < |cs| ==> |lines[i]| == |cs[i]| + 3;
    Join(lines)
  }

  /** The bill's title, the first line of every preview. */
  const Header: string := "SUBMISSION ON THE REGULATORY STANDARDS BILL"

  // The fixed text the template puts before each interpolated value.
  const FromLabel: string := Header + "\n\nFrom: "
  const EmailLabel: string := "\nEmail: "
  const LocationLabel: string := "\nLocation: "
  const TypeLabel: string := "\nSubmission type: "
  const Section1: string := "\n\n1. VIEWS ON QUALITY OF NEW ZEALAND'S REGULATION\n"
  const Section2: string := "\n\n2. VIEWS ON CURRENT REGULATORY OVERSIGHT ARRANGEMENTS\n"
  const Section3: string := "\n\n3. CONCERNS ABOUT PROPOSED PRINCIPLES\n"
  const Section4: string := "\n\n4. FEEDBACK ON PROPOSED MECHANISMS\n"
  const Section5: string := "\n\n5. VIEWS ON PROPOSED REGULATORY STANDARDS BOARD\n"
  const Section6: string := "\n\n6. CONCERNS ABOUT NEW POWERS FOR MINISTRY FOR REGULATION\n"

  /** The fixed texts of the template, in order. */
  const Literals: seq<string> := [
    FromLabel, EmailLabel, LocationLabel, TypeLabel,
    Section1, Section2, Section3, Section4, Section5, Section6
  ]

  /** The values the template interpolates, in order: the header details, then sections 1 to 6. */
  function Values(d: Draft): (r: seq<string>)
    ensures |r| == |Literals|
  {
    [d.name, d.email, d.location, Label(d.submissionType),
     d.qualityViews, d.oversightViews, ConcernLines(d.principlesConcerns),
     d.mechanismsFeedback, d.boardViews, d.powersConcerns]
  }

  /** A template literal evaluated: each fixed text followed by the value interpolated after it. */
  function Fill(ls: seq<string>, vs: seq<string>): (r: string)
    requires |ls| == |vs|
    ensures ls == [] ==> r == ""
    ensures ls != [] ==> ls[0] + vs[0] <= r
    decreases |ls|
  {
    if ls == [] then "" else ls[0] + vs[0] + Fill(ls[1..], vs[1..])
  }

  /** The preview text: the template's fixed texts filled with the draft's values. */
  function Render(d: Draft): (r: string)
    ensures Header <= r
    ensures |d.powersConcerns| <= |r| && r[|r| - |d.powersConcerns|..] == d.powersConcerns
  {
    var ls, vs := Literals, Values(d);
    assert Header <= ls[0] + vs[0] by {
      assert (FromLabel + vs[0])[..|Header|] == Header;
    }
    ValueAt(ls, vs, 9);
    Fill(ls, vs)
  }

  /** Where the value with index `k` begins in the filled template. */
  function ValueStart(ls: seq<string>, vs: seq<string>, k: nat): nat
    requires |ls| == |vs| && k < |ls|
  {
    |Fill(ls[..k], vs[..k])| + |ls[k]|
  }

  // ----- Lemmas about Join and section 3 -----

  /** Joining distributes over concatenation. */
  lemma {:induction false} JoinAppend(a: seq<string>, b: seq<string>)
    ensures Join(a + b) == Join(a) + Join(b)
    decreases |a|
  {
    if a == [] {
      assert a + b == b;
    } else {
      assert (a + b)[0] == a[0];
      assert (a + b)[1..] == a[1..] + b;
      JoinAppend(a[1..], b);
    }
  }

  /** Section 3 of two concatenated lists is the two bodies one after the other. */
  lemma ConcernLinesAppend(a: seq<string>, b: seq<string>)
    ensures ConcernLines(a + b) == ConcernLines(a) + ConcernLines(b)
  {
    assert Bullets(a + b) == Bullets(a) + Bullets(b);
    JoinAppend(Bullets(a), Bullets(b));
  }

  /** No concern gives an empty body; one concern gives exactly its bullet line. */
  lemma ConcernLinesSmall(c: string)
    ensures ConcernLines([]) == ""
    ensures ConcernLines([c]) == "- " + c + "\n"
  {
    assert Bullets([c]) == [Bullet(c)];
    assert Join([Bullet(c)]) == Bullet(c) + Join([]);
  }

  /** The body of section 3 lists the concern with index `i` after those before it and before those after it. */
  lemma ConcernLineAt(cs: seq<string>, i: nat)
    requires i < |cs|
    ensures ConcernLines(cs) == ConcernLines(cs[..i]) + "- " + cs[i] + "\n" + ConcernLines(cs[i + 1..])
  {
    assert cs == cs[..i] + [cs[i]] + cs[i + 1..];
    ConcernLinesAppend(cs[..i] + [cs[i]], cs[i + 1..]);
    ConcernLinesAppend(cs[..i], [cs[i]]);
    ConcernLinesSmall(cs[i]);
  }

  /** Toggling an absent concern adds exactly one line, at the end of section 3. */
  lemma ToggleAbsentAddsLine(cs: seq<string>, c: string)
    requires c !in cs
    ensures ConcernLines(Toggle(cs, c)) == ConcernLines(cs) + "- " + c + "\n"
  {
    ConcernLinesAppend(cs, [c]);
    ConcernLinesSmall(c);
  }

  /** Section 3 of `a + [c] + b` shows `c`'s line between the lines of `a` and those of `b`. */
  lemma ConcernLinesAround(a: seq<string>, c: string, b: seq<string>)
    ensures ConcernLines(a + [c] + b) == ConcernLines(a) + "- " + c + "\n" + ConcernLines(b)
  {
    ConcernLinesAppend(a + [c], b);
    ConcernLinesAppend(a, [c]);
    ConcernLinesSmall(c);
  }

  /** In a duplicate-free list `a + [c] + b`, toggling `c` removes exactly its line from section 3;
      the lines of `a` and `b` stay, in order. */
  lemma TogglePresentDropsLine(a: seq<string>, c: string, b: seq<string>)
    requires NoDuplicates(a + [c] + b)
    ensures ConcernLines(a + [c] + b) == ConcernLines(a) + "- " + c + "\n" + ConcernLines(b)
    ensures ConcernLines(Toggle(a + [c] + b, c)) == ConcernLines(a) + ConcernLines(b)
  {
    var s := a + [c] + b;
    assert s[|a|] == c;
    OnlyOccurrence(a, c, b);
    RemoveSingle(a, c, b);
    assert Toggle(s, c) == a + b;
    ConcernLinesAppend(a, b);
    ConcernLinesAround(a, c, b);
  }

  // ----- Lemmas about the filled template -----

  /** Filling splits around the value with index `k`. */
  lemma {:induction false} FillAt(ls: seq<string>, vs: seq<string>, k: nat)
    requires |ls| == |vs| && k < |ls|
    ensures Fill(ls, vs) == Fill(ls[..k], vs[..k]) + ls[k] + vs[k] + Fill(ls[k + 1..], vs[k + 1..])
    decreases k
  {
    if k == 0 {
      assert ls[..0] == [] && vs[..0] == [];
    } else {
      FillAt(ls[1..], vs[1..], k - 1);
      assert ls[1..][..k - 1] == ls[1..k] && vs[1..][..k - 1] == vs[1..k];
      assert ls[1..][k - 1 + 1..] == ls[k + 1..] && vs[1..][k - 1 + 1..] == vs[k + 1..];
      assert ls[..k][1..] == ls[1..k] && vs[..k][1..] == vs[1..k];
      assert Fill(ls[..k], vs[..k]) == ls[0] + vs[0] + Fill(ls[1..k], vs[1..k]);
    }
  }

  /** In the filled template, value `k` appears verbatim at its start, right after literal `k`;
      the last value ends the text. */
  lemma ValueAt(ls: seq<string>, vs: seq<string>, k: nat)
    requires |ls| == |vs| && k < |ls|
    ensures ValueStart(ls, vs, k) + |vs[k]| <= |Fill(ls, vs)|
    ensures Fill(ls, vs)[ValueStart(ls, vs, k) - |ls[k]| .. ValueStart(ls, vs, k)] == ls[k]
    ensures Fill(ls, vs)[ValueStart(ls, vs, k) .. ValueStart(ls, vs, k) + |vs[k]|] == vs[k]
    ensures k + 1 == |ls| ==> ValueStart(ls, vs, k) + |vs[k]| == |Fill(ls, vs)|
  {
    FillAt(ls, vs, k);
    var before, after := Fill(ls[..k], vs[..k]), Fill(ls[k + 1..], vs[k + 1..]);
    assert k + 1 == |ls| ==> after == "" by {
      if k + 1 == |ls| { assert ls[k + 1..] == []; }
    }
    SlicesOfConcat(before, ls[k], vs[k], after);
  }

  /** The middle pieces of a four-piece concatenation sit at the offsets given by the earlier pieces. */
  lemma SlicesOfConcat(a: string, b: string, c: string, e: string)
    ensures (a + b + c + e)[|a| .. |a| + |b|] == b
    ensures (a + b + c + e)[|a| + |b| .. |a| + |b| + |c|] == c
  {
  }

  /** The next literal follows value `k` directly. */
  lemma NextValueStart(ls: seq<string>, vs: seq<string>, k: nat)
    requires |ls| == |vs| && k + 1 < |ls|
    ensures ValueStart(ls, vs, k + 1) == ValueStart(ls, vs, k) + |vs[k]| + |ls[k + 1]|
  {
    FillPrefix(ls, vs, k);
  }

  /** Extending the filled prefix by one literal and value. */
  lemma FillPrefix(ls: seq<string>, vs: seq<string>, k: nat)
    requires |ls| == |vs| && k < |ls|
    ensures Fill(ls[..k + 1], vs[..k + 1]) == Fill(ls[..k], vs[..k]) + ls[k] + vs[k]
  {
    var ls', vs' := ls[..k + 1], vs[..k + 1];
    FillAt(ls', vs', k);
    assert ls'[..k] == ls[..k] && vs'[..k] == vs[..k];
    assert ls'[k + 1..] == [] && vs'[k + 1..] == [];
  }

  /** The preview embeds the header details and the six sections verbatim, each right after its fixed
      heading, in the order name, email, location, type, sections 1 to 6, with nothing in between. */
  lemma PreviewLayout(d: Draft, k: nat)
    requires k < |Literals|
    ensures ValueStart(Literals, Values(d), k) + |Values(d)[k]| <= |Render(d)|
    ensures Render(d)[ValueStart(Literals, Values(d), k) - |Literals[k]| .. ValueStart(Literals, Values(d), k)] == Literals[k]
    ensures Render(d)[ValueStart(Literals, Values(d), k) .. ValueStart(Literals, Values(d), k) + |Values(d)[k]|] == Values(d)[k]
    ensures k + 1 < |Literals| ==>
      ValueStart(Literals, Values(d), k + 1) == ValueStart(Literals, Values(d), k) + |Values(d)[k]| + |Literals[k + 1]|
    ensures k + 1 == |Literals| ==> ValueStart(Literals, Values(d), k) + |Values(d)[k]| == |Render(d)|
  {
    ValueAt(Literals, Values(d), k);
    if k + 1 < |Literals| {
      NextValueStart(Literals, Values(d), k);
    }
  }

  /** Rendering the empty initial draft: the three header details and every section body are empty,
      the type reads "personal", and section 3 has no lines. */
  lemma InitialPreview()
    ensures ConcernLines(Initial.principlesConcerns) == ""
    ensures Values(Initial) == ["", "", "", "personal", "", "", "", "", "", ""]
  {
    ConcernLinesSmall("");
  }

  /** A draft with exactly one selected concern renders exactly that concern's bullet line as the
      body of section 3, right after the section's heading. */
  lemma SingleConcernPreview(d: Draft, c: string)
    requires d.principlesConcerns == [c]
    ensures ConcernLines(d.principlesConcerns) == "- " + c + "\n"
    ensures ValueStart(Literals, Values(d), 6) + |Values(d)[6]| <= |Render(d)|
    ensures Render(d)[ValueStart(Literals, Values(d), 6) - |Section3| .. ValueStart(Literals, Values(d), 6)] == Section3
    ensures Render(d)[ValueStart(Literals, Values(d), 6) .. ValueStart(Literals, Values(d), 6) + |Values(d)[6]|]
            == "- " + c + "\n"
  {
    ConcernLinesSmall(c);
    PreviewLayout(d, 6);
  }
}
