/** The judges' panel of the competition
    (front/app/competition/judge/page.tsx): it loads the demo entries and
    the stored ones, lets a judge score the selected entry and award
    places 1 to 3, lists the entries under a chosen order, and shows the
    podium. Scores arrive already parsed from the score field. */
module Judge {
  import opened Common
  import opened Lists
  import opened OutfitBuilder
  import opened Competition

  /** An entry on the panel. `place` is the value the page keeps in its
      `isWinner` field: the place awarded, if any. */
  datatype Submission = Submission(
    id: string,
    entry: Entry,
    judgeScore: Option<int>,
    judgeComments: Option<string>,
    place: Option<int>)

  /** The three demo entries, dated 2024-01-15 at 10:30, 14:20 and 16:45
      UTC (milliseconds since the epoch). */
  const MockSubmissions: seq<Submission> := [
    Submission("1", Entry("Sarah Johnson", "A chic casual look perfect for weekend brunch with friends",
      [Item("1", "Classic White T-Shirt", 25, "tops", "Urban Threads"),
       Item("2", "Blue Denim Jeans", 80, "bottoms", "Urban Threads"),
       Item("4", "White Sneakers", 120, "footwear", "Urban Threads")],
      225, 1705314600000), None, None, None),
    Submission("2", Entry("Mike Chen", "Edgy street style with a modern twist",
      [Item("3", "Leather Jacket", 150, "outerwear", "Fashion District"),
       Item("8", "Hoodie", 65, "tops", "Urban Threads"),
       Item("2", "Blue Denim Jeans", 80, "bottoms", "Urban Threads")],
      295, 1705328400000), None, None, None),
    Submission("3", Entry("Emma Rodriguez", "Elegant and sophisticated for a dinner date",
      [Item("5", "Black Dress", 90, "tops", "Fashion District"),
       Item("10", "Boots", 140, "footwear", "Fashion District"),
       Item("7", "Sunglasses", 45, "accessories", "Fashion District")],
      275, 1705337100000), None, None, None)
  ]

  function DigitChar(d: nat): char
    requires d < 10
  {
    ('0' as int + d) as char
  }

  /** The decimal digits of `n`, as template-string interpolation writes them. */
  function NatToString(n: nat): (s: string)
    ensures |s| >= 1
    ensures n >= 10 ==> |s| >= 2
  {
    if n < 10 then [DigitChar(n)] else NatToString(n / 10) + [DigitChar(n % 10)]
  }

  /** Different numbers are written differently. */
  lemma {:induction false} NatToStringInjective(a: nat, b: nat)
    requires NatToString(a) == NatToString(b)
    ensures a == b
  {
    if a >= 10 && b >= 10 {
      var sa := NatToString(a);
      assert sa[|sa| - 1] == DigitChar(a % 10);
      assert NatToString(b)[|sa| - 1] == DigitChar(b % 10);
      assert sa[..|sa| - 1] == NatToString(a / 10);
      assert NatToString(b)[..|sa| - 1] == NatToString(b / 10);
      NatToStringInjective(a / 10, b / 10);
    }
  }

  /** `user_${index + 1}` */
  function UserId(index: nat): string {
    "user_" + NatToString(index + 1)
  }

  /** The mount effect: the demo entries first, then the stored ones with
      ids user_1 ... user_n in storage order. */
  function Loaded(stored: seq<Entry>): (r: seq<Submission>)
    ensures |r| == |MockSubmissions| + |stored|
    ensures r[..|MockSubmissions|] == MockSubmissions
    ensures forall i :: 0 <= i < |stored| ==>
      r[|MockSubmissions| + i] == Submission(UserId(i), stored[i], None, None, None)
  {
    MockSubmissions + seq(|stored|, i requires 0 <= i < |stored| => Submission(UserId(i), stored[i], None, None, None))
  }

  predicate DistinctIds(subs: seq<Submission>) {
    forall i, j :: 0 <= i < j < |subs| ==> subs[i].id != subs[j].id
  }

  /** The demo ids are "1", "2" and "3": one character each, all different. */
  lemma MockIds()
    ensures |MockSubmissions| == 3
    ensures forall k :: 0 <= k < 3 ==> |MockSubmissions[k].id| == 1
    ensures DistinctIds(MockSubmissions)
  {
  }

  lemma UserIdInjective(a: nat, b: nat)
    requires UserId(a) == UserId(b)
    ensures a == b
  {
    assert UserId(a)[5..] == NatToString(a + 1);
    assert UserId(b)[5..] == NatToString(b + 1);
    NatToStringInjective(a + 1, b + 1);
  }

  /** Every loaded entry has its own id: the demo ids are single digits,
      the stored ones are `user_` followed by distinct numbers. */
  lemma LoadedIdsDistinct(stored: seq<Entry>)
    ensures DistinctIds(Loaded(stored))
  {
    var r := Loaded(stored);
    MockIds();
    forall i, j | 0 <= i < j < |r| ensures r[i].id != r[j].id {
      if j >= 3 {
        assert r[j].id == UserId(j - 3);
        if i >= 3 {
          assert r[i].id == UserId(i - 3);
          if r[i].id == r[j].id {
            UserIdInjective(i - 3, j - 3);
          }
        } else {
          assert r[i] == r[..3][i];
        }
      } else {
        assert r[i] == r[..3][i] && r[j] == r[..3][j];
      }
    }
  }

  /** `handleScoreSubmission`'s update: the entry with that id gets the
      score and the comments, every other entry is left as it was. */
  function ApplyScore(subs: seq<Submission>, id: string, score: int, comments: string): (r: seq<Submission>)
    ensures |r| == |subs|
    ensures forall i :: 0 <= i < |subs| ==>
      r[i] == if subs[i].id == id then subs[i].(judgeScore := Some(score), judgeComments := Some(comments)) else subs[i]
  {
    seq(|subs|, i requires 0 <= i < |subs| =>
      if subs[i].id == id then subs[i].(judgeScore := Some(score), judgeComments := Some(comments)) else subs[i])
  }

  /** Every score given lies in 1..10. */
  predicate ScoresInRange(subs: seq<Submission>) {
    forall i :: 0 <= i < |subs| && subs[i].judgeScore.Some? ==> 1 <= subs[i].judgeScore.value <= 10
  }

  /** `handleSelectWinner`'s update: the target gets the place, whoever
      held that place loses it, and every other place stays. */
  function AwardPlace(subs: seq<Submission>, id: string, place: int): (r: seq<Submission>)
    ensures |r| == |subs|
    ensures forall i :: 0 <= i < |subs| ==>
      && r[i].id == subs[i].id && r[i].entry == subs[i].entry
      && r[i].judgeScore == subs[i].judgeScore && r[i].judgeComments == subs[i].judgeComments
    ensures forall i :: 0 <= i < |subs| && subs[i].id == id ==> r[i].place == Some(place)
    ensures forall i :: 0 <= i < |subs| && subs[i].id != id ==>
      r[i].place == (if subs[i].place == Some(place) then None else subs[i].place)
  {
    seq(|subs|, i requires 0 <= i < |subs| =>
      subs[i].(place := if subs[i].id == id then Some(place)
                        else if subs[i].place == Some(place) then None
                        else subs[i].place))
  }

  /** No place is held by two entries. */
  predicate PlacesUnique(subs: seq<Submission>) {
    forall i, j :: 0 <= i < j < |subs| && subs[i].place.Some? ==> subs[i].place != subs[j].place
  }

  /** Awarding a place keeps each place with at most one entry, provided
      the ids are distinct. */
  lemma AwardPlaceKeepsUnique(subs: seq<Submission>, id: string, place: int)
    requires DistinctIds(subs) && PlacesUnique(subs)
    ensures PlacesUnique(AwardPlace(subs, id, place))
  {
    var r := AwardPlace(subs, id, place);
    forall i, j | 0 <= i < j < |r| && r[i].place.Some? ensures r[i].place != r[j].place {
      if subs[i].id == id {
        assert subs[j].id != id;
      } else if subs[j].id == id {
        assert r[i].place != Some(place);
      }
    }
  }

  /** `(judgeScore || 0)` */
  function ScoreOrZero(s: Submission): int {
    s.judgeScore.GetOr(0)
  }

  /** The key the chosen comparator orders by, ascending; an unknown
      option compares everything as equal. */
  function SortKey(sortBy: string, s: Submission): int {
    if sortBy == "newest" then -s.entry.submittedAt
    else if sortBy == "oldest" then s.entry.submittedAt
    else if sortBy == "highest_score" then -ScoreOrZero(s)
    else if sortBy == "lowest_cost" then s.entry.totalCost
    else if sortBy == "highest_cost" then -s.entry.totalCost
    else 0
  }

  /** `sortedSubmissions`: a reordering of the entries under the chosen
      order; an unknown option keeps the order they have. */
  function SortedSubmissions(subs: seq<Submission>, sortBy: string): (r: seq<Submission>)
    ensures multiset(r) == multiset(subs)
    ensures sortBy == "newest" ==> forall i, j :: 0 <= i < j < |r| ==> r[i].entry.submittedAt >= r[j].entry.submittedAt
    ensures sortBy == "oldest" ==> forall i, j :: 0 <= i < j < |r| ==> r[i].entry.submittedAt <= r[j].entry.submittedAt
    ensures sortBy == "highest_score" ==> forall i, j :: 0 <= i < j < |r| ==> ScoreOrZero(r[i]) >= ScoreOrZero(r[j])
    ensures sortBy == "lowest_cost" ==> forall i, j :: 0 <= i < j < |r| ==> r[i].entry.totalCost <= r[j].entry.totalCost
    ensures sortBy == "highest_cost" ==> forall i, j :: 0 <= i < j < |r| ==> r[i].entry.totalCost >= r[j].entry.totalCost
    ensures sortBy !in {"newest", "oldest", "highest_score", "lowest_cost", "highest_cost"} ==> r == subs
  {
    var key := (s: Submission) => SortKey(sortBy, s);
    var r := SortBy(subs, key);
    assert forall i, j :: 0 <= i < j < |r| ==> key(r[i]) <= key(r[j]);
    if sortBy in {"newest", "oldest", "highest_score", "lowest_cost", "highest_cost"} then r
    else
      SortByConstantKey(subs, key);
      r
  }

  /** `sub.isWinner` is truthy: a place other than 0 */
  predicate HasPlace(s: Submission) {
    s.place.Some? && s.place.value != 0
  }

  function PlaceOrZero(s: Submission): int {
    s.place.GetOr(0)
  }

  /** `winners`: exactly the entries holding a place, by place ascending. */
  function Winners(subs: seq<Submission>): (r: seq<Submission>)
    ensures forall s :: s in r <==> s in subs && HasPlace(s)
    ensures forall i, j :: 0 <= i < j < |r| ==> PlaceOrZero(r[i]) <= PlaceOrZero(r[j])
    ensures multiset(r) == multiset(Filter(subs, HasPlace))
  {
    var holders := Filter(subs, HasPlace);
    var r := SortBy(holders, PlaceOrZero);
    forall s ensures s in r <==> s in holders {
      assert s in r <==> s in multiset(r);
      assert s in holders <==> s in multiset(holders);
    }
    r
  }

  class JudgePanel {
    var submissions: seq<Submission>
    /** The id of `selectedSubmission`, if one is open. */
    var selectedId: Option<string>
    /** The score field, parsed; None when it is empty or not a number. */
    var scoreInput: Option<int>
    var commentsInput: string
    var sortBy: string

    predicate Valid()
      reads this
    {
      DistinctIds(submissions) && PlacesUnique(submissions) && ScoresInRange(submissions)
    }

    /** The page after its mount effect has loaded the entries. */
    constructor (stored: seq<Entry>)
      ensures Valid()
      ensures submissions == Loaded(stored)
      ensures selectedId == None && scoreInput == None && commentsInput == "" && sortBy == "newest"
    {
      submissions := Loaded(stored);
      selectedId := None;
      scoreInput := None;
      commentsInput := "";
      sortBy := "newest";
      LoadedIdsDistinct(stored);
    }

    /** `handleScoreSubmission`: applied only with an entry open and a
        score in 1..10; then only that entry's score and comments change,
        and the open entry and both inputs are cleared. Otherwise nothing
        changes. */
    method ScoreSelected()
      requires Valid()
      modifies this`submissions, this`selectedId, this`scoreInput, this`commentsInput
      ensures Valid()
      ensures old(selectedId.Some? && scoreInput.Some? && 1 <= scoreInput.value <= 10) ==>
        && submissions == ApplyScore(old(submissions), old(selectedId).value, old(scoreInput).value, old(commentsInput))
        && selectedId == None && scoreInput == None && commentsInput == ""
      ensures !old(selectedId.Some? && scoreInput.Some? && 1 <= scoreInput.value <= 10) ==>
        submissions == old(submissions) && selectedId == old(selectedId)
        && scoreInput == old(scoreInput) && commentsInput == old(commentsInput)
    {
      if selectedId.Some? && scoreInput.Some? && 1 <= scoreInput.value <= 10 {
        submissions := ApplyScore(submissions, selectedId.value, scoreInput.value, commentsInput);
        selectedId := None;
        scoreInput := None;
        commentsInput := "";
      }
    }

    /** `handleSelectWinner(id, place)` for one of the podium buttons. */
    method SelectWinner(id: string, place: int)
      requires Valid() && 1 <= place <= 3
      modifies this`submissions
      ensures Valid()
      ensures submissions == AwardPlace(old(submissions), id, place)
    {
      AwardPlaceKeepsUnique(submissions, id, place);
      submissions := AwardPlace(submissions, id, place);
    }
  }
}
