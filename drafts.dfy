/** The flat draft record the wizard edits, its initial value, and the
    single-field updates its editors perform. */
module Drafts {
  import opened Concerns

  /** The two values the submission-type radio inputs emit. */
  datatype SubmissionType = Personal | Organisation

  /** The text the record stores for a submission type. */
  function Label(t: SubmissionType): (r: string)
    ensures r == "personal" <==> t == Personal
    ensures r == "organisation" <==> t == Organisation
  {
    match t
    case Personal => "personal"
    case Organisation => "organisation"
  }

  /** The in-progress answers; `principlesConcerns` is an insertion-ordered selection. */
  datatype Draft = Draft(
    qualityViews: string,
    oversightViews: string,
    principlesConcerns: seq<string>,
    mechanismsFeedback: string,
    boardViews: string,
    powersConcerns: string,
    name: string,
    email: string,
    location: string,
    submissionType: SubmissionType)

  /** The draft the component starts with: every text empty, nothing selected, a personal submission. */
  const Initial: Draft := Draft("", "", [], "", "", "", "", "", "", Personal)

  /** The free-text fields of the record. */
  datatype Field =
    | Name | Email | Location
    | QualityViews | OversightViews
    | MechanismsFeedback | BoardViews | PowersConcerns

  /** The fields for which the wizard renders an input (steps 1 and 2). */
  predicate Editable(f: Field)
    ensures Editable(f) <==> f !in {MechanismsFeedback, BoardViews, PowersConcerns}
  {
    match f
    case Name | Email | Location | QualityViews | OversightViews => true
    case MechanismsFeedback | BoardViews | PowersConcerns => false
  }

  /** Reads one free-text field. */
  function Text(d: Draft, f: Field): string {
    match f
    case Name => d.name
    case Email => d.email
    case Location => d.location
    case QualityViews => d.qualityViews
    case OversightViews => d.oversightViews
    case MechanismsFeedback => d.mechanismsFeedback
    case BoardViews => d.boardViews
    case PowersConcerns => d.powersConcerns
  }

  /** `{...formData, f: v}`: the draft with one free-text field replaced and every other field carried over. */
  function WithText(d: Draft, f: Field, v: string): (r: Draft)
    ensures Text(r, f) == v
    ensures forall g :: g != f ==> Text(r, g) == Text(d, g)
    ensures r.principlesConcerns == d.principlesConcerns
    ensures r.submissionType == d.submissionType
  {
    match f
    case Name => d.(name := v)
    case Email => d.(email := v)
    case Location => d.(location := v)
    case QualityViews => d.(qualityViews := v)
    case OversightViews => d.(oversightViews := v)
    case MechanismsFeedback => d.(mechanismsFeedback := v)
    case BoardViews => d.(boardViews := v)
    case PowersConcerns => d.(powersConcerns := v)
  }

  /** `{...formData, submission_type: t}`. */
  function WithType(d: Draft, t: SubmissionType): (r: Draft)
    ensures r.submissionType == t
    ensures forall g :: Text(r, g) == Text(d, g)
    ensures r.principlesConcerns == d.principlesConcerns
  {
    d.(submissionType := t)
  }

  /** The principle toggle applied to the draft: only the concern list changes. */
  function WithToggled(d: Draft, c: string): (r: Draft)
    ensures c in r.principlesConcerns <==> c !in d.principlesConcerns
    ensures forall x :: x != c ==> (x in r.principlesConcerns <==> x in d.principlesConcerns)
    ensures forall g :: Text(r, g) == Text(d, g)
    ensures r.submissionType == d.submissionType
  {
    d.(principlesConcerns := Toggle(d.principlesConcerns, c))
  }

  /** A draft is determined by its free-text fields, its concern list and its type. */
  lemma DraftExtensionality(d: Draft, e: Draft)
    requires forall g :: Text(d, g) == Text(e, g)
    requires d.principlesConcerns == e.principlesConcerns
    requires d.submissionType == e.submissionType
    ensures d == e
  {
    assert Text(d, Name) == Text(e, Name) && Text(d, Email) == Text(e, Email);
    assert Text(d, Location) == Text(e, Location);
    assert Text(d, QualityViews) == Text(e, QualityViews) && Text(d, OversightViews) == Text(e, OversightViews);
    assert Text(d, MechanismsFeedback) == Text(e, MechanismsFeedback);
    assert Text(d, BoardViews) == Text(e, BoardViews) && Text(d, PowersConcerns) == Text(e, PowersConcerns);
  }

  /** Writing a field's current value back changes nothing. */
  lemma WithTextSame(d: Draft, f: Field)
    ensures WithText(d, f, Text(d, f)) == d
  {
    DraftExtensionality(WithText(d, f, Text(d, f)), d);
  }

  /** The last of two writes to the same field wins. */
  lemma WithTextOverwrite(d: Draft, f: Field, v: string, w: string)
    ensures WithText(WithText(d, f, v), f, w) == WithText(d, f, w)
  {
    DraftExtensionality(WithText(WithText(d, f, v), f, w), WithText(d, f, w));
  }

  /** Edits to two different fields commute. */
  lemma WithTextCommute(d: Draft, f: Field, v: string, g: Field, w: string)
    requires f != g
    ensures WithText(WithText(d, f, v), g, w) == WithText(WithText(d, g, w), f, v)
  {
    DraftExtensionality(WithText(WithText(d, f, v), g, w), WithText(WithText(d, g, w), f, v));
  }

  /** The initial draft holds a valid (empty) selection. */
  lemma InitialIsValid()
    ensures ValidSelection(Initial.principlesConcerns)
    ensures forall g :: Text(Initial, g) == ""
    ensures Label(Initial.submissionType) == "personal"
  {
  }
}
