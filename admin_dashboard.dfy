/** components/admin-dashboard.tsx: the search over the submissions table,
    the score and status badges, the flagged marker and the header labels. */
module AdminDashboard {
  import opened Wrappers
  import opened Text
  import opened SupabaseTypes
  import AdminSubmissionsList

  /** A row of the dashboard's submissions table. */
  datatype Submission = Submission(
    id: string, vendor: string, document: string, submittedAt: string, status: string,
    overallScore: Option<int>, sections: Option<int>, flagged: bool)

  /** The search: the lower-cased term occurs in the lower-cased vendor,
      document or id (the same field test as the submissions list). */
  predicate MatchesSearch(s: Submission, term: string) {
    AdminSubmissionsList.FieldHit(s.vendor, term)
    || AdminSubmissionsList.FieldHit(s.document, term)
    || AdminSubmissionsList.FieldHit(s.id, term)
  }

  /** `filteredSubmissions`. */
  function Filtered(subs: seq<Submission>, term: string): (r: seq<Submission>)
    ensures |r| <= |subs|
    ensures forall s :: s in r <==> s in subs && MatchesSearch(s, term)
  {
    Filter(subs, (s: Submission) => MatchesSearch(s, term))
  }

  /** The search keeps the table's order. */
  lemma FilteredKeepsOrder(a: seq<Submission>, b: seq<Submission>, term: string)
    ensures Filtered(a + b, term) == Filtered(a, term) + Filtered(b, term)
  {
    FilterAppend(a, b, (s: Submission) => MatchesSearch(s, term));
  }

  /** The initial, empty search term shows the whole table. */
  lemma EmptySearchShowsAll(subs: seq<Submission>)
    ensures Filtered(subs, "") == subs
  {
    forall i | 0 <= i < |subs| ensures MatchesSearch(subs[i], "") {
      ContainsEmpty(Lower(subs[i].vendor));
    }
    FilterKeepsAll(subs, (s: Submission) => MatchesSearch(s, ""));
  }

  /** The search ignores the case of the term. */
  lemma SearchIgnoresCase(s: Submission, term: string)
    ensures MatchesSearch(s, term) <==> MatchesSearch(s, Lower(term))
  {
    AdminSubmissionsList.FieldHitIgnoresCase(s.vendor, term);
    AdminSubmissionsList.FieldHitIgnoresCase(s.document, term);
    AdminSubmissionsList.FieldHitIgnoresCase(s.id, term);
  }

  /** The colour of a score badge. */
  datatype Tone = Green | Blue | Yellow | Destructive

  /** A score badge: the score as a percentage, in its tone. */
  datatype ScoreBadge = ScoreBadge(score: int, tone: Tone)

  /** `getScoreBadge`: no badge for a null score; otherwise green from 90,
      blue from 80, yellow from 70, destructive below. */
  function ScoreBadgeOf(score: Option<int>): (b: Option<ScoreBadge>)
    ensures b.None? <==> score.None?
    ensures b.Some? ==> b.value.score == score.value
    ensures b.Some? ==> (b.value.tone == Green <==> score.value >= 90)
    ensures b.Some? ==> (b.value.tone == Blue <==> 80 <= score.value < 90)
    ensures b.Some? ==> (b.value.tone == Yellow <==> 70 <= score.value < 80)
    ensures b.Some? ==> (b.value.tone == Destructive <==> score.value < 70)
  {
    if score.None? then None
    else if score.value >= 90 then Some(ScoreBadge(score.value, Green))
    else if score.value >= 80 then Some(ScoreBadge(score.value, Blue))
    else if score.value >= 70 then Some(ScoreBadge(score.value, Yellow))
    else Some(ScoreBadge(score.value, Destructive))
  }

  /** The rank of a tone, worst first. */
  function Rank(t: Tone): (n: nat)
    ensures n < 4
  {
    match t
    case Destructive => 0
    case Yellow => 1
    case Blue => 2
    case Green => 3
  }

  /** A higher score never gets a worse tone. */
  lemma ScoreBadgeMonotone(x: int, y: int)
    requires x <= y
    ensures Rank(ScoreBadgeOf(Some(x)).value.tone) <= Rank(ScoreBadgeOf(Some(y)).value.tone)
  {
  }

  /** The label of a status badge. */
  datatype StatusLabel = Completed | Processing | Failed | Unknown

  /** `getStatusBadge`: the three known statuses and "Unknown" for any other. */
  function StatusBadge(status: string): (badge: StatusLabel)
    ensures badge == Completed <==> status == "completed"
    ensures badge == Processing <==> status == "processing"
    ensures badge == Failed <==> status == "failed"
    ensures badge == Unknown <==> status !in {"completed", "processing", "failed"}
  {
    if status == "completed" then Completed
    else if status == "processing" then Processing
    else if status == "failed" then Failed
    else Unknown
  }

  /** The header badge: "Admin Portal" for an admin, "Reviewer Portal" for
      anyone else, including a missing profile. */
  function PortalLabel(profile: Option<Profile>): (portal: string)
    ensures portal == "Admin Portal" <==> profile.Some? && profile.value.role == Admin
    ensures portal != "Admin Portal" ==> portal == "Reviewer Portal"
  {
    if profile.Some? && profile.value.role == Admin then "Admin Portal" else "Reviewer Portal"
  }

  /** The welcome line's name: the profile's full name unless it is missing
      or empty, in which case "User". */
  function WelcomeName(profile: Option<Profile>): (name: string)
    ensures name != []
    ensures profile.Some? && profile.value.fullName.Some? && profile.value.fullName.value != []
      ==> name == profile.value.fullName.value
    ensures (profile.None? || profile.value.fullName.None? || profile.value.fullName.value == [])
      ==> name == "User"
  {
    if profile.None? then "User" else OrElse(profile.value.fullName, "User")
  }

  /** What a table row shows: the id with or without the "Flagged" badge,
      the vendor, the document, the status badge and the score badge. */
  datatype Row = Row(id: string, flaggedBadge: bool, vendor: string, document: string,
                     status: StatusLabel, score: Option<ScoreBadge>)

  /** One row of the table. */
  function RowOf(s: Submission): (row: Row)
    ensures row.flaggedBadge <==> s.flagged
    ensures row.score.None? <==> s.overallScore.None?
    ensures row.status == Unknown <==> s.status !in {"completed", "processing", "failed"}
  {
    Row(s.id, s.flagged, s.vendor, s.document, StatusBadge(s.status), ScoreBadgeOf(s.overallScore))
  }

  /** The table body: one row per submission that passes the search, in
      order; a "Flagged" badge appears on a row exactly when its submission
      is flagged. */
  function Table(subs: seq<Submission>, term: string): (rows: seq<Row>)
    ensures |rows| == |Filtered(subs, term)|
    ensures forall i :: 0 <= i < |rows| ==>
      rows[i].id == Filtered(subs, term)[i].id
      && (rows[i].flaggedBadge <==> Filtered(subs, term)[i].flagged)
  {
    var shown := Filtered(subs, term);
    seq(|shown|, i requires 0 <= i < |shown| => RowOf(shown[i]))
  }
}
