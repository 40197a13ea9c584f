/** components/admin-submissions-list.tsx: the search and status filter over
    the submissions, and the rules of the score, flags and status cells. */
module AdminSubmissionsList {
  import opened Wrappers
  import opened Text

  /** A submission row; `status` is a free string in the source. */
  datatype Submission = Submission(
    id: string, vendor: string, filename: string, submittedAt: string, status: string,
    overallScore: Option<int>, sectionsAnalyzed: Option<int>, flaggedSections: Option<int>,
    reviewRequired: bool)

  /** `field.toLowerCase().includes(term.toLowerCase())`. */
  predicate FieldHit(field: string, term: string) {
    Contains(Lower(field), Lower(term))
  }

  /** The search: the lower-cased term occurs in the lower-cased vendor,
      filename or id. */
  predicate MatchesSearch(s: Submission, term: string) {
    FieldHit(s.vendor, term) || FieldHit(s.filename, term) || FieldHit(s.id, term)
  }

  /** The status filter: "all" accepts every status, any other value only an
      equal one. */
  predicate MatchesStatus(s: Submission, filter: string) {
    filter == "all" || s.status == filter
  }

  /** `filteredSubmissions`: the submissions passing both tests, in order. */
  function Filtered(subs: seq<Submission>, term: string, filter: string): (r: seq<Submission>)
    ensures forall s :: s in r <==> s in subs && MatchesSearch(s, term) && MatchesStatus(s, filter)
  {
    Filter(subs, (s: Submission) => MatchesSearch(s, term) && MatchesStatus(s, filter))
  }

  /** The filter keeps the order of the list: filtering a concatenation is
      concatenating the filtered parts. */
  lemma FilteredKeepsOrder(a: seq<Submission>, b: seq<Submission>, term: string, filter: string)
    ensures Filtered(a + b, term, filter) == Filtered(a, term, filter) + Filtered(b, term, filter)
  {
    FilterAppend(a, b, (s: Submission) => MatchesSearch(s, term) && MatchesStatus(s, filter));
  }

  /** An empty term and the "all" filter show every submission. */
  lemma EmptySearchShowsAll(subs: seq<Submission>)
    ensures Filtered(subs, "", "all") == subs
  {
    forall i | 0 <= i < |subs| ensures MatchesSearch(subs[i], "") {
      ContainsEmpty(Lower(subs[i].vendor));
    }
    FilterKeepsAll(subs, (s: Submission) => MatchesSearch(s, "") && MatchesStatus(s, "all"));
  }

  /** A search hit is a position of the field whose lower-cased window equals
      the lower-cased term. */
  lemma FieldHitIsSubstring(field: string, term: string)
    ensures FieldHit(field, term) <==> exists i :: OccursAt(Lower(field), Lower(term), i)
  {
    var f, t := Lower(field), Lower(term);
    ContainsAt(f, t);
    if FieldHit(field, term) {
      var i :| OccursAt(f, t, i);
      assert OccursAt(Lower(field), Lower(term), i);
      assert exists j :: OccursAt(Lower(field), Lower(term), j);
    } else {
      forall i ensures !OccursAt(Lower(field), Lower(term), i) {
        assert !OccursAt(f, t, i);
      }
    }
  }

  /** The field test ignores the case of the term: a term and its
      lower-cased form hit the same fields. */
  lemma FieldHitIgnoresCase(field: string, term: string)
    ensures FieldHit(field, term) <==> FieldHit(field, Lower(term))
  {
    LowerIdempotent(term);
  }

  /** The search ignores case: a term and its lower-cased form match alike. */
  lemma SearchIgnoresCase(s: Submission, term: string)
    ensures MatchesSearch(s, term) <==> MatchesSearch(s, Lower(term))
  {
    FieldHitIgnoresCase(s.vendor, term);
    FieldHitIgnoresCase(s.filename, term);
    FieldHitIgnoresCase(s.id, term);
  }

  /** "No submissions found" appears exactly when nothing passes. */
  lemma NoResultsMessage(subs: seq<Submission>, term: string, filter: string)
    ensures Filtered(subs, term, filter) == [] <==>
      forall i :: 0 <= i < |subs| ==> !(MatchesSearch(subs[i], term) && MatchesStatus(subs[i], filter))
  {
    FilterEmpty(subs, (s: Submission) => MatchesSearch(s, term) && MatchesStatus(s, filter));
  }

  /** `getScoreColor`: gray without a score, green from 80, yellow from 60,
      red below. */
  function ScoreColor(score: Option<int>): (c: string)
    ensures c == "text-gray-400" <==> score.None?
    ensures c == "text-green-600" <==> score.Some? && score.value >= 80
    ensures c == "text-yellow-600" <==> score.Some? && 60 <= score.value < 80
    ensures c == "text-red-600" <==> score.Some? && score.value < 60
  {
    if score.None? then "text-gray-400"
    else if score.value >= 80 then "text-green-600"
    else if score.value >= 60 then "text-yellow-600"
    else "text-red-600"
  }

  /** A cell that shows a dash or a number. */
  datatype Cell = Dash | Percent(value: int) | Flagged(count: int, red: bool)

  /** The score cell: a falsy score (null or 0) shows a dash. */
  function ScoreCell(score: Option<int>): (c: Cell)
    ensures c == Dash <==> score.None? || score.value == 0
    ensures c != Dash ==> c == Percent(score.value)
  {
    if score.None? || score.value == 0 then Dash else Percent(score.value)
  }

  /** A score of 0 is coloured red but shown as a dash. */
  lemma ZeroScoreShowsDash()
    ensures ScoreCell(Some(0)) == Dash && ScoreColor(Some(0)) == "text-red-600"
  {
  }

  /** The flags cell: a dash for null, otherwise the count, red when some
      section is flagged and green when none is. */
  function FlagsCell(flags: Option<int>): (c: Cell)
    ensures c == Dash <==> flags.None?
    ensures flags.Some? ==> c.Flagged? && c.count == flags.value && (c.red <==> flags.value > 0)
  {
    if flags.None? then Dash else Flagged(flags.value, flags.value > 0)
  }

  /** `getStatusBadge`: the label of the status badge. */
  function StatusBadge(status: string): (badge: string)
    ensures status == "completed" <==> badge == "Completed"
    ensures status == "processing" <==> badge == "Processing"
    ensures status == "error" <==> badge == "Error"
    ensures badge == "Unknown" <==> status != "completed" && status != "processing" && status != "error"
  {
    if status == "completed" then "Completed"
    else if status == "processing" then "Processing"
    else if status == "error" then "Error"
    else "Unknown"
  }
}
