/**
 * The matching bot itself (main.py): the pool of candidate profiles built
 * from user searches, the scoring and choice of the best unseen candidate
 * for a target user, the ordering of a candidate's photos and the address
 * line of the reply.
 *
 * Scores are kept in integer tenths of a point, so that 0.3 is 3 and 2.5 is
 * 25; the rate, a fraction of the score range, is a `real`.
 */
module BotMain {
  import opened Models
  import StableSort

  // ---------------------------------------------------------------------
  // Scoring (main.py:69-97)

  /** A shallow copy of a pool entry with the score attached to it. */
  datatype Scored = Scored(user: Profile, score: int)

  function ScoreKey(c: Scored): int {
    c.score
  }

  /** The candidate is dropped without a score: the target's sex is set and
      non-zero, and the candidate's is the same. */
  predicate SexSkipped(target: Profile, user: Profile) {
    target.sex.Some? && target.sex.value != 0 && user.sex == target.sex
  }

  /** The birth-date test compares the bound methods `bdate.date` of the two
      datetime objects, which are equal only when the objects are the same
      one; equal dates held by two objects do not pass it. */
  predicate SameDateObject(a: BirthDate, b: BirthDate) {
    a.ref == b.ref
  }

  function CityPoints(target: Profile, user: Profile): (p: int)
    ensures p in {0, 3, 53}
  {
    if user.city.None? then 0
    else 3 + (if target.city.Some? && user.city == target.city then 50 else 0)
  }

  function CountryPoints(target: Profile, user: Profile): (p: int)
    ensures p in {0, 1, 26, -49}
  {
    if user.country.None? then 0
    else 1 + (if target.country.None? then 0 else if user.country == target.country then 25 else -50)
  }

  function BirthPoints(target: Profile, user: Profile): (p: int)
    ensures p in {0, 3, 13, 18}
  {
    if user.bdate.None? then 0
    else 3 + (if target.bdate.None? then 0
              else if SameDateObject(user.bdate.value, target.bdate.value) then 15
              else if user.bdate.value.year == target.bdate.value.year then 10
              else 0)
  }

  /** The score of a candidate for a target, in tenths: the sum of the
      guarded terms, each present or absent independently. */
  function Score(target: Profile, user: Profile): (s: int)
    ensures -49 <= s <= 126
  {
    (if Filled(user.status) then 3 else 0)
    + CityPoints(target, user)
    + CountryPoints(target, user)
    + BirthPoints(target, user)
    + (if Filled(user.about) then 1 else 0)
    + (if user.relation == Some(6) then 25 else 0)
  }

  /** Both bounds are reached. */
  lemma ScoreBoundsTight(target: Profile, lowest: Profile, highest: Profile)
    requires target.country.Some? && target.city.Some? && target.bdate.Some?
    requires lowest.country.Some? && lowest.country != target.country
    requires !Filled(lowest.status) && lowest.city.None? && lowest.bdate.None?
    requires !Filled(lowest.about) && lowest.relation != Some(6)
    requires highest.country == target.country && highest.city == target.city && highest.bdate == target.bdate
    requires Filled(highest.status) && Filled(highest.about) && highest.relation == Some(6)
    ensures Score(target, lowest) == -49
    ensures Score(target, highest) == 126
  {
  }

  /** Two candidates that differ only in their country: when the target's
      country is known, matching it is worth 7.5 points more than missing it. */
  lemma CountrySwing(target: Profile, user: Profile, other: Place)
    requires target.country.Some? && user.country == target.country && Some(other) != target.country
    ensures Score(target, user) - Score(target, user.(country := Some(other))) == 75
  {
  }

  /** The same birthday held by two datetime objects only earns the year
      bonus. */
  lemma EqualDatesAreNotTheSameObject(target: Profile, user: Profile)
    requires target.bdate.Some? && user.bdate.Some?
    requires user.bdate.value.ref != target.bdate.value.ref
    requires user.bdate.value.(ref := 0) == target.bdate.value.(ref := 0)
    ensures BirthPoints(target, user) == 13
  {
  }

  /** Two birthdays without a year both carry 1900, so they earn the year
      bonus whatever the real years are. */
  lemma YearlessBirthdaysShareAYear(target: Profile, user: Profile)
    requires target.bdate.Some? && user.bdate.Some?
    requires user.bdate.value.ref != target.bdate.value.ref
    requires user.bdate.value.year == NoYear && target.bdate.value.year == NoYear
    ensures BirthPoints(target, user) == 13
  {
  }

  /** The scored copies, in pool order, of the entries that are not
      dropped by the sex filter. */
  function Candidates(target: Profile, pool: seq<Profile>): (r: seq<Scored>)
    ensures |r| <= |pool|
    ensures forall i :: 0 <= i < |r| ==>
      r[i].user in pool && !SexSkipped(target, r[i].user) && r[i].score == Score(target, r[i].user)
    ensures forall u :: u in pool && !SexSkipped(target, u) ==> Scored(u, Score(target, u)) in r
  {
    if pool == [] then []
    else
      var last := pool[|pool| - 1];
      assert pool == pool[..|pool| - 1] + [last];
      Candidates(target, pool[..|pool| - 1])
      + (if SexSkipped(target, last) then [] else [Scored(last, Score(target, last))])
  }

  /** One more pool entry adds its scored copy at the end, or nothing when
      the sex filter drops it. */
  lemma CandidatesSnoc(target: Profile, p: seq<Profile>, u: Profile, q: seq<Profile>)
    requires q == p + [u]
    ensures Candidates(target, q) ==
      Candidates(target, p) + (if SexSkipped(target, u) then [] else [Scored(u, Score(target, u))])
  {
    assert q[..|p|] == p;
  }

  /** Splitting off the last entry of the second part of a concatenation. */
  lemma SplitLast<T>(a: seq<T>, b: seq<T>)
    requires b != []
    ensures b == b[..|b| - 1] + [b[|b| - 1]]
    ensures a + b == (a + b[..|b| - 1]) + [b[|b| - 1]]
  {
  }

  lemma AppendAssociative<T>(x: seq<T>, y: seq<T>, z: seq<T>)
    ensures x + (y + z) == (x + y) + z
  {
  }

  /** Scoring a pool split in two scores each part in turn, so candidates
      keep the pool's order. */
  lemma {:induction false} CandidatesAppend(target: Profile, a: seq<Profile>, b: seq<Profile>)
    ensures Candidates(target, a + b) == Candidates(target, a) + Candidates(target, b)
    decreases |b|
  {
    if b == [] {
      assert a + b == a;
    } else {
      var init, last := b[..|b| - 1], b[|b| - 1];
      SplitLast(a, b);
      CandidatesSnoc(target, a + init, last, a + b);
      CandidatesAppend(target, a, init);
      CandidatesSnoc(target, init, last, b);
      AppendAssociative(Candidates(target, a), Candidates(target, init),
                        if SexSkipped(target, last) then [] else [Scored(last, Score(target, last))]);
    }
  }

  /** A one-entry pool yields its scored copy, or nothing when the sex
      filter drops it. */
  lemma CandidatesSingle(target: Profile, u: Profile)
    ensures Candidates(target, [u]) == if SexSkipped(target, u) then [] else [Scored(u, Score(target, u))]
  {
    CandidatesSnoc(target, [], u, [u]);
  }

  // ---------------------------------------------------------------------
  // The choice among the sorted candidates (main.py:101-113)

  /** The target has not been shown this candidate yet. */
  predicate Unseen(viewer: int, seen: set<(int, int)>, c: Scored) {
    (viewer, c.user.id) !in seen
  }

  /** The first unseen candidate of `s`: the for/else search. */
  function FirstUnseen(viewer: int, seen: set<(int, int)>, s: seq<Scored>): (r: Option<Scored>)
    ensures r.Some? ==> r.value in s && Unseen(viewer, seen, r.value)
    ensures r.None? <==> forall i :: 0 <= i < |s| ==> !Unseen(viewer, seen, s[i])
    ensures r.Some? ==>
      exists i :: 0 <= i < |s| && s[i] == r.value && forall j :: 0 <= j < i ==> !Unseen(viewer, seen, s[j])
  {
    if s == [] then None
    else if Unseen(viewer, seen, s[0]) then Some(s[0])
    else FirstUnseen(viewer, seen, s[1..])
  }

  /** The reference choice: among the unseen candidates of `s`, one with the
      highest score, the earliest of them when several share it. */
  function Pick(viewer: int, seen: set<(int, int)>, s: seq<Scored>): Option<Scored> {
    if s == [] then None
    else
      var rest := Pick(viewer, seen, s[1..]);
      if Unseen(viewer, seen, s[0]) && (rest.None? || rest.value.score <= s[0].score) then Some(s[0])
      else rest
  }

  /** Pick is the earliest unseen candidate with the highest score. */
  lemma {:induction false} PickSpec(viewer: int, seen: set<(int, int)>, s: seq<Scored>) returns (i: nat)
    ensures Pick(viewer, seen, s).None? <==> forall j :: 0 <= j < |s| ==> !Unseen(viewer, seen, s[j])
    ensures Pick(viewer, seen, s).Some? ==>
      && i < |s| && Pick(viewer, seen, s) == Some(s[i]) && Unseen(viewer, seen, s[i])
      && (forall j :: 0 <= j < |s| && Unseen(viewer, seen, s[j]) ==> s[j].score <= s[i].score)
      && (forall j :: 0 <= j < i && Unseen(viewer, seen, s[j]) ==> s[j].score < s[i].score)
  {
    if s == [] {
      i := 0;
    } else {
      var k := PickSpec(viewer, seen, s[1..]);
      var rest := Pick(viewer, seen, s[1..]);
      assert forall j :: 1 <= j < |s| ==> s[j] == s[1..][j - 1];
      if Unseen(viewer, seen, s[0]) && (rest.None? || rest.value.score <= s[0].score) {
        i := 0;
      } else {
        i := k + 1;
      }
    }
  }

  /** In a list with non-increasing scores, the first unseen candidate scores
      no more than the head. */
  lemma FirstUnseenBelowHead(viewer: int, seen: set<(int, int)>, t: seq<Scored>)
    requires t != [] && StableSort.SortedDesc(t, ScoreKey)
    ensures FirstUnseen(viewer, seen, t).Some? ==> FirstUnseen(viewer, seen, t).value.score <= t[0].score
  {
    var r := FirstUnseen(viewer, seen, t);
    if r.Some? {
      var j :| 0 <= j < |t| && t[j] == r.value;
      assert ScoreKey(t[0]) >= ScoreKey(t[j]) || j == 0;
    }
  }

  /** Inserting into a sorted list: the inserted candidate comes first among
      the unseen ones exactly when it is unseen and scores at least as high
      as the previous first. */
  lemma {:induction false} FirstUnseenInsert(viewer: int, seen: set<(int, int)>, x: Scored, t: seq<Scored>)
    requires StableSort.SortedDesc(t, ScoreKey)
    ensures var before := FirstUnseen(viewer, seen, t);
      FirstUnseen(viewer, seen, StableSort.Insert(x, t, ScoreKey)) ==
        if Unseen(viewer, seen, x) && (before.None? || before.value.score <= x.score) then Some(x) else before
  {
    if t == [] || ScoreKey(t[0]) <= ScoreKey(x) {
      assert ([x] + t)[1..] == t;
      if t != [] {
        FirstUnseenBelowHead(viewer, seen, t);
      }
    } else {
      var rest := StableSort.Insert(x, t[1..], ScoreKey);
      assert ([t[0]] + rest)[1..] == rest;
      FirstUnseenInsert(viewer, seen, x, t[1..]);
    }
  }

  /** The first unseen candidate after the stable sort is the reference
      choice on the unsorted list. */
  lemma {:induction false} FirstUnseenSorted(viewer: int, seen: set<(int, int)>, s: seq<Scored>)
    ensures FirstUnseen(viewer, seen, StableSort.SortDesc(s, ScoreKey)) == Pick(viewer, seen, s)
  {
    if s != [] {
      FirstUnseenSorted(viewer, seen, s[1..]);
      StableSort.SortDescSorted(s[1..], ScoreKey);
      FirstUnseenInsert(viewer, seen, s[0], StableSort.SortDesc(s[1..], ScoreKey));
    }
  }

  /** `max(scores)` of a non-empty list. */
  function MaxScore(s: seq<Scored>): (m: int)
    requires s != []
    ensures forall i :: 0 <= i < |s| ==> s[i].score <= m
    ensures exists i :: 0 <= i < |s| && s[i].score == m
  {
    if |s| == 1 then s[0].score
    else
      var rest := MaxScore(s[1..]);
      assert forall i :: 1 <= i < |s| ==> s[i] == s[1..][i - 1];
      if s[0].score >= rest then s[0].score else rest
  }

  /** `min(scores)` of a non-empty list. */
  function MinScore(s: seq<Scored>): (m: int)
    requires s != []
    ensures forall i :: 0 <= i < |s| ==> m <= s[i].score
    ensures exists i :: 0 <= i < |s| && s[i].score == m
  {
    if |s| == 1 then s[0].score
    else
      var rest := MinScore(s[1..]);
      assert forall i :: 1 <= i < |s| ==> s[i] == s[1..][i - 1];
      if s[0].score <= rest then s[0].score else rest
  }

  /** The rate of a score within [lo, hi], on a scale of 5. */
  function Rate(score: int, lo: int, hi: int): (r: real)
    requires lo < hi
    ensures score == lo ==> r == 0.0
    ensures score == hi ==> r == 5.0
  {
    assert score == hi ==> (score - lo) as real / (hi - lo) as real == 1.0;
    (score - lo) as real / (hi - lo) as real * 5.0
  }

  /** What one matching call returns. */
  datatype Outcome =
    | Found(user: Profile, score: int, rate: real)
    | NoneLeft
    | Raised(failure: Failure)

  /**
   * The choice among scored candidates for the viewer whose seen pairs are
   * `seen`: ValueError when there is no candidate (max of an empty list),
   * NoneLeft when every candidate was seen, ZeroDivisionError when all
   * candidates share one score, and otherwise the first unseen candidate of
   * the sorted list with its rate.
   */
  function Choose(viewer: int, seen: set<(int, int)>, cands: seq<Scored>): (r: Outcome)
    ensures r == Raised(ValueError) <==> cands == []
    ensures r.Raised? ==> r.failure in {ValueError, ZeroDivisionError}
    ensures r.Found? ==> Unseen(viewer, seen, Scored(r.user, r.score))
  {
    var sorted := StableSort.SortDesc(cands, ScoreKey);
    if sorted == [] then Raised(ValueError)
    else
      var hi, lo := MaxScore(sorted), MinScore(sorted);
      match FirstUnseen(viewer, seen, sorted)
      case None => NoneLeft
      case Some(best) =>
        if hi == lo then Raised(ZeroDivisionError)
        else Found(best.user, best.score, Rate(best.score, lo, hi))
  }

  /** The result of matching `target` against `pool` when `seen` holds the
      pairs already shown. */
  function BestMatch(target: Profile, pool: seq<Profile>, seen: set<(int, int)>): (r: Outcome)
    ensures pool == [] ==> r == Raised(ValueError)
    ensures r.Found? ==> (target.id, r.user.id) !in seen
    ensures r.Raised? ==> r.failure in {ValueError, ZeroDivisionError}
  {
    Choose(target.id, seen, Candidates(target, pool))
  }

  /** The maximum and the minimum depend only on the scores present. */
  lemma ExtremesOfPermutation(a: seq<Scored>, b: seq<Scored>)
    requires a != [] && multiset(a) == multiset(b)
    ensures b != []
    ensures MaxScore(a) == MaxScore(b) && MinScore(a) == MinScore(b)
  {
    assert |b| == |a| by {
      assert |multiset(b)| == |multiset(a)|;
    }
    forall x | x in a
      ensures x in b
    {
      assert x in multiset(a);
    }
    forall x | x in b
      ensures x in a
    {
      assert x in multiset(b);
    }
    var i :| 0 <= i < |a| && a[i].score == MaxScore(a);
    var j :| 0 <= j < |b| && b[j].score == MaxScore(b);
    assert a[i] in b && b[j] in a;
    var k :| 0 <= k < |a| && a[k].score == MinScore(a);
    var l :| 0 <= l < |b| && b[l].score == MinScore(b);
    assert a[k] in b && b[l] in a;
  }

  /** The extremes of the sorted candidates are those of the candidates. */
  lemma SortedExtremes(cands: seq<Scored>)
    requires cands != []
    ensures var sorted := StableSort.SortDesc(cands, ScoreKey);
      sorted != [] && MaxScore(sorted) == MaxScore(cands) && MinScore(sorted) == MinScore(cands)
  {
    StableSort.SortDescPermutation(cands, ScoreKey);
    ExtremesOfPermutation(cands, StableSort.SortDesc(cands, ScoreKey));
  }

  /** The maximum equals the minimum exactly when all scores are equal. */
  lemma FlatExtremes(s: seq<Scored>)
    requires s != []
    ensures MaxScore(s) == MinScore(s) <==> forall j, k :: 0 <= j < |s| && 0 <= k < |s| ==> s[j].score == s[k].score
  {
    if MaxScore(s) != MinScore(s) {
      var j :| 0 <= j < |s| && s[j].score == MaxScore(s);
      var k :| 0 <= k < |s| && s[k].score == MinScore(s);
      assert s[j].score != s[k].score;
    }
  }

  /** The rate of a score inside the range is between 0 and 5: 0 exactly at
      the minimum and 5 exactly at the maximum. */
  lemma RateBounds(score: int, lo: int, hi: int)
    requires lo <= score <= hi && lo < hi
    ensures 0.0 <= Rate(score, lo, hi) <= 5.0
    ensures Rate(score, lo, hi) == 0.0 <==> score == lo
    ensures Rate(score, lo, hi) == 5.0 <==> score == hi
  {
    var f := (score - lo) as real / (hi - lo) as real;
    assert f * (hi - lo) as real == (score - lo) as real;
    assert 0.0 <= f <= 1.0;
    assert f == 1.0 <==> score == hi;
  }

  /**
   * A choice is an unseen candidate; no unseen candidate scores higher, and
   * every unseen candidate before it scores lower, so ties go to the
   * earliest. `i` is its position among the candidates.
   */
  lemma {:induction false} ChooseFound(viewer: int, seen: set<(int, int)>, cands: seq<Scored>) returns (i: nat)
    requires Choose(viewer, seen, cands).Found?
    ensures var r := Choose(viewer, seen, cands);
      && i < |cands| && cands[i] == Scored(r.user, r.score)
      && Unseen(viewer, seen, cands[i])
      && (forall j :: 0 <= j < |cands| && Unseen(viewer, seen, cands[j]) ==> cands[j].score <= r.score)
      && (forall j :: 0 <= j < i && Unseen(viewer, seen, cands[j]) ==> cands[j].score < r.score)
  {
    FirstUnseenSorted(viewer, seen, cands);
    i := PickSpec(viewer, seen, cands);
  }

  /** Nothing is returned exactly when there are candidates and all were
      seen. */
  lemma {:induction false} ChooseExhausted(viewer: int, seen: set<(int, int)>, cands: seq<Scored>)
    ensures Choose(viewer, seen, cands) == NoneLeft <==>
      cands != [] && forall j :: 0 <= j < |cands| ==> !Unseen(viewer, seen, cands[j])
  {
    FirstUnseenSorted(viewer, seen, cands);
    var _ := PickSpec(viewer, seen, cands);
  }

  /** The division fails exactly when an unseen candidate exists and all
      candidates share one score, a single candidate for instance. */
  lemma {:induction false} ChooseFlatScores(viewer: int, seen: set<(int, int)>, cands: seq<Scored>)
    ensures Choose(viewer, seen, cands) == Raised(ZeroDivisionError) <==>
      && (exists j :: 0 <= j < |cands| && Unseen(viewer, seen, cands[j]))
      && (forall j, k :: 0 <= j < |cands| && 0 <= k < |cands| ==> cands[j].score == cands[k].score)
  {
    FirstUnseenSorted(viewer, seen, cands);
    var _ := PickSpec(viewer, seen, cands);
    if cands != [] {
      SortedExtremes(cands);
      FlatExtremes(cands);
    }
  }

  /** The rate of a choice lies in [0, 5]; it is 0 exactly when the choice
      has the lowest score among all candidates and 5 exactly when it has
      the highest, and these differ. */
  lemma {:induction false} ChooseRate(viewer: int, seen: set<(int, int)>, cands: seq<Scored>)
    requires Choose(viewer, seen, cands).Found?
    ensures var r := Choose(viewer, seen, cands);
      && cands != []
      && MinScore(cands) < MaxScore(cands)
      && r.rate == Rate(r.score, MinScore(cands), MaxScore(cands))
      && 0.0 <= r.rate <= 5.0
      && (r.rate == 0.0 <==> r.score == MinScore(cands))
      && (r.rate == 5.0 <==> r.score == MaxScore(cands))
  {
    var sorted := StableSort.SortDesc(cands, ScoreKey);
    SortedExtremes(cands);
    var best := FirstUnseen(viewer, seen, sorted).value;
    var i :| 0 <= i < |sorted| && sorted[i] == best;
    RateBounds(best.score, MinScore(cands), MaxScore(cands));
  }

  /**
   * A match is a pool entry that passed the sex filter, scored as Score
   * says, and not yet seen by the target; no such entry scores higher, and
   * among the candidates those earlier than the match score lower. `i` is
   * its position among the candidates.
   */
  lemma BestMatchFound(target: Profile, pool: seq<Profile>, seen: set<(int, int)>) returns (i: nat)
    requires BestMatch(target, pool, seen).Found?
    ensures var r := BestMatch(target, pool, seen);
      var cands := Candidates(target, pool);
      && i < |cands| && cands[i] == Scored(r.user, r.score)
      && r.user in pool && !SexSkipped(target, r.user) && r.score == Score(target, r.user)
      && (target.id, r.user.id) !in seen
      && (forall j :: 0 <= j < i && Unseen(target.id, seen, cands[j]) ==> cands[j].score < r.score)
      && (forall u :: u in pool && !SexSkipped(target, u) && (target.id, u.id) !in seen ==>
            Score(target, u) <= r.score)
  {
    var cands := Candidates(target, pool);
    i := ChooseFound(target.id, seen, cands);
    var r := BestMatch(target, pool, seen);
    forall u | u in pool && !SexSkipped(target, u) && (target.id, u.id) !in seen
      ensures Score(target, u) <= r.score
    {
      var j :| 0 <= j < |cands| && cands[j] == Scored(u, Score(target, u));
      assert Unseen(target.id, seen, cands[j]);
    }
  }

  /** The empty-list error: raised exactly when the sex filter drops every
      pool entry, an empty pool included. */
  lemma BestMatchEmpty(target: Profile, pool: seq<Profile>, seen: set<(int, int)>)
    ensures BestMatch(target, pool, seen) == Raised(ValueError) <==>
      forall u :: u in pool ==> SexSkipped(target, u)
  {
    var cands := Candidates(target, pool);
    if cands != [] {
      assert cands[0].user in pool && !SexSkipped(target, cands[0].user);
    }
  }

  /** Once the pair is recorded, the same person is not offered again. */
  lemma BestMatchProgress(target: Profile, pool: seq<Profile>, seen: set<(int, int)>)
    requires BestMatch(target, pool, seen).Found?
    ensures var u := BestMatch(target, pool, seen).user;
      var next := BestMatch(target, pool, seen + {(target.id, u.id)});
      next.Found? ==> next.user.id != u.id
  {
    var u := BestMatch(target, pool, seen).user;
    var next := BestMatch(target, pool, seen + {(target.id, u.id)});
    if next.Found? {
      var _ := ChooseFound(target.id, seen + {(target.id, u.id)}, Candidates(target, pool));
    }
  }

  // ---------------------------------------------------------------------
  // The stored relation "target has already seen candidate"

  /** The user table: the ids of the stored users, and the pairs
      (target id, candidate id) of the `already_sees` relation. */
  class UserStore {
    var ids: set<int>
    var seen: set<(int, int)>

    constructor ()
      ensures ids == {} && seen == {}
    {
      ids := {};
      seen := {};
    }
  }

  /** The score accumulation on one copy (main.py:72-97). */
  method ScoreUser(target: Profile, user: Profile) returns (score: int)
    ensures score == Score(target, user)
  {
    score := 0;
    if Filled(user.status) {
      score := score + 3;
    }
    if user.city.Some? {
      score := score + 3;
      if target.city.Some? && user.city == target.city {
        score := score + 50;
      }
    }
    if user.country.Some? {
      score := score + 1;
      if target.country.Some? {
        if user.country == target.country {
          score := score + 25;
        } else {
          score := score - 50;
        }
      }
    }
    if user.bdate.Some? {
      score := score + 3;
      if target.bdate.Some? {
        if SameDateObject(user.bdate.value, target.bdate.value) {
          score := score + 15;
        } else if user.bdate.value.year == target.bdate.value.year {
          score := score + 10;
        }
      }
    }
    if Filled(user.about) {
      score := score + 1;
    }
    if user.relation == Some(6) {
      score := score + 25;
    }
  }

  /** The scoring loop (main.py:68-99): skips the entries the sex filter
      drops and collects scored copies of the others. */
  method ScoreCandidates(target: Profile, pool: seq<Profile>) returns (suitable: seq<Scored>)
    ensures suitable == Candidates(target, pool)
  {
    suitable := [];
    for k := 0 to |pool|
      invariant suitable == Candidates(target, pool[..k])
    {
      var user := pool[k];
      assert pool[..k + 1] == pool[..k] + [user];
      if SexSkipped(target, user) {
        continue;
      }
      var score := ScoreUser(target, user);
      suitable := suitable + [Scored(user, score)];
    }
    assert pool[..|pool|] == pool;
  }

  /** The for/else search (main.py:105-112): the first candidate whose pair
      with the target is not stored, if any. */
  method FindUnseen(viewer: int, seen: set<(int, int)>, sorted: seq<Scored>) returns (best: Option<Scored>)
    ensures best == FirstUnseen(viewer, seen, sorted)
  {
    best := None;
    for k := 0 to |sorted|
      invariant best.None?
      invariant FirstUnseen(viewer, seen, sorted) == FirstUnseen(viewer, seen, sorted[k..])
    {
      assert sorted[k..][1..] == sorted[k + 1..];
      if (viewer, sorted[k].user.id) in seen {
        continue;
      }
      best := Some(sorted[k]);
      break;
    }
  }

  /**
   * Matching for one target (main.py:65-116): the target is stored, the pool
   * entries are filtered and scored on copies, sorted by score, and the first
   * one the target has not seen is returned with its rate; the pair is then
   * recorded. The pool is only read.
   */
  method GetUsersSuitable(target: Profile, pool: seq<Profile>, store: UserStore) returns (outcome: Outcome)
    modifies store
    ensures outcome == BestMatch(target, pool, old(store.seen))
    ensures store.ids == old(store.ids) + {target.id} + (if outcome.Found? then {outcome.user.id} else {})
    ensures store.seen == old(store.seen) + (if outcome.Found? then {(target.id, outcome.user.id)} else {})
  {
    var seen := store.seen;
    store.ids := store.ids + {target.id};
    var suitable := ScoreCandidates(target, pool);
    suitable := StableSort.SortDesc(suitable, ScoreKey);
    if suitable == [] {
      return Raised(ValueError);
    }
    var hi, lo := MaxScore(suitable), MinScore(suitable);
    var best := FindUnseen(target.id, seen, suitable);
    if best.None? {
      return NoneLeft;
    }
    var chosen := best.value;
    if hi == lo {
      return Raised(ZeroDivisionError);
    }
    var rate := Rate(chosen.score, lo, hi);
    store.ids := store.ids + {chosen.user.id};
    store.seen := store.seen + {(target.id, chosen.user.id)};
    return Found(chosen.user, chosen.score, rate);
  }

  // ---------------------------------------------------------------------
  // The candidate pool (main.py:17-29)

  /** One search hit: its "is_closed" flag (None when the key is missing)
      and the profile built from it. */
  datatype SearchItem = SearchItem(isClosed: Option<bool>, profile: Profile)

  /** The reply to one search: no data at all (a None result), data without
      "items", or the items. */
  datatype SearchReply = NoReply | NoItems | Items(items: seq<SearchItem>)

  /** The relationship statuses searched, in this order. */
  const SearchStatuses: seq<int> := [1, 6]

  /** The profiles added to the pool and the exception that stopped it. */
  datatype Collected = Collected(users: seq<Profile>, failure: Option<Failure>)

  /** The profiles kept from a list of hits, stopping with KeyError at the
      first hit without "is_closed". */
  function CollectOpen(items: seq<SearchItem>): (c: Collected)
    ensures |c.users| <= |items|
    ensures c.failure.Some? ==> c.failure.value == KeyError
  {
    if items == [] then Collected([], None)
    else
      var c := CollectOpen(items[..|items| - 1]);
      var last := items[|items| - 1];
      if c.failure.Some? then c
      else if last.isClosed.None? then Collected(c.users, Some(KeyError))
      else Collected(c.users + (if last.isClosed == Some(true) then [] else [last.profile]), None)
  }

  /** What one search reply adds to the pool. */
  function CollectReply(reply: SearchReply): (c: Collected)
    ensures |c.users| <= (if reply.Items? then |reply.items| else 0)
    ensures c.failure == Some(TypeError) <==> reply.NoReply?
    ensures c.failure.Some? ==> c.failure.value in {TypeError, KeyError}
    ensures reply.NoItems? ==> c == Collected([], Some(KeyError))
    ensures reply.Items? ==> c == CollectOpen(reply.items)
  {
    match reply
    case NoReply => Collected([], Some(TypeError))
    case NoItems => Collected([], Some(KeyError))
    case Items(items) => CollectOpen(items)
  }

  /** What the searches for `statuses`, in order, add to the pool; `search`
      is the user search the source sends through the API. */
  function Gather(search: int -> SearchReply, statuses: seq<int>): (c: Collected)
    ensures c.failure.Some? ==> c.failure.value in {TypeError, KeyError}
    ensures statuses == [] ==> c == Collected([], None)
  {
    if statuses == [] then Collected([], None)
    else
      var c := Gather(search, statuses[..|statuses| - 1]);
      if c.failure.Some? then c
      else
        var here := CollectReply(search(statuses[|statuses| - 1]));
        Collected(c.users + here.users, here.failure)
  }

  /** The reference filter: the profiles of the hits not marked closed, in
      order, duplicates kept. */
  function OpenProfiles(items: seq<SearchItem>): (r: seq<Profile>)
    ensures |r| <= |items|
  {
    if items == [] then []
    else (if items[0].isClosed == Some(true) then [] else [items[0].profile]) + OpenProfiles(items[1..])
  }

  /** A profile is kept iff some hit carrying it is not marked closed. */
  lemma {:induction false} OpenProfilesMembers(items: seq<SearchItem>, u: Profile)
    ensures u in OpenProfiles(items) <==>
      exists i :: 0 <= i < |items| && items[i].profile == u && items[i].isClosed != Some(true)
  {
    if items != [] {
      OpenProfilesMembers(items[1..], u);
      if exists i :: 0 <= i < |items| && items[i].profile == u && items[i].isClosed != Some(true) {
        var i :| 0 <= i < |items| && items[i].profile == u && items[i].isClosed != Some(true);
        if i > 0 {
          assert items[1..][i - 1] == items[i];
        }
      }
      if exists i :: 0 <= i < |items[1..]| && items[1..][i].profile == u && items[1..][i].isClosed != Some(true) {
        var i :| 0 <= i < |items[1..]| && items[1..][i].profile == u && items[1..][i].isClosed != Some(true);
        assert items[i + 1] == items[1..][i];
      }
    }
  }

  lemma {:induction false} OpenProfilesAppend(a: seq<SearchItem>, b: seq<SearchItem>)
    ensures OpenProfiles(a + b) == OpenProfiles(a) + OpenProfiles(b)
  {
    if a == [] {
      assert a + b == b;
    } else {
      assert (a + b)[0] == a[0];
      assert (a + b)[1..] == a[1..] + b;
      OpenProfilesAppend(a[1..], b);
    }
  }

  /** When every hit carries "is_closed", the pool gains exactly the open
      profiles. */
  lemma {:induction false} CollectOpenAllFlagged(items: seq<SearchItem>)
    requires forall i :: 0 <= i < |items| ==> items[i].isClosed.Some?
    ensures CollectOpen(items) == Collected(OpenProfiles(items), None)
  {
    if items != [] {
      var init, last := items[..|items| - 1], items[|items| - 1];
      CollectOpenAllFlagged(init);
      assert items == init + [last];
      OpenProfilesAppend(init, [last]);
      assert [last][1..] == [];
    }
  }

  /** A hit without "is_closed" stops the filter with KeyError, keeping the
      open profiles of the hits before it. */
  lemma {:induction false} CollectOpenMissingFlag(items: seq<SearchItem>, n: nat)
    requires n < |items| && items[n].isClosed.None?
    requires forall i :: 0 <= i < n ==> items[i].isClosed.Some?
    ensures CollectOpen(items) == Collected(OpenProfiles(items[..n]), Some(KeyError))
    decreases |items|
  {
    var init, last := items[..|items| - 1], items[|items| - 1];
    if n < |init| {
      assert init[..n] == items[..n];
      CollectOpenMissingFlag(init, n);
    } else {
      assert items[..n] == init;
      CollectOpenAllFlagged(init);
    }
  }

  /** When both searches answer with flagged items, the pool gains the open
      status-1 profiles followed by the open status-6 profiles. */
  lemma PoolFromBothSearches(search: int -> SearchReply)
    requires search(1).Items? && search(6).Items?
    requires forall i :: 0 <= i < |search(1).items| ==> search(1).items[i].isClosed.Some?
    requires forall i :: 0 <= i < |search(6).items| ==> search(6).items[i].isClosed.Some?
    ensures Gather(search, SearchStatuses) ==
      Collected(OpenProfiles(search(1).items) + OpenProfiles(search(6).items), None)
  {
    CollectOpenAllFlagged(search(1).items);
    CollectOpenAllFlagged(search(6).items);
    assert SearchStatuses[..1] == [1];
    assert [1][..0] == [];
    assert Gather(search, [1]) == Collected(OpenProfiles(search(1).items), None);
  }

  /** One step of Gather. */
  lemma GatherStep(search: int -> SearchReply, statuses: seq<int>, s: nat)
    requires s < |statuses|
    ensures Gather(search, statuses[..s + 1]) ==
      var c := Gather(search, statuses[..s]);
      if c.failure.Some? then c
      else Collected(c.users + CollectReply(search(statuses[s])).users, CollectReply(search(statuses[s])).failure)
  {
    assert statuses[..s + 1][..s] == statuses[..s];
  }

  /** Once a search has raised, the later ones are not run. */
  lemma {:induction false} GatherStops(search: int -> SearchReply, statuses: seq<int>, n: nat)
    requires n <= |statuses| && Gather(search, statuses[..n]).failure.Some?
    ensures Gather(search, statuses) == Gather(search, statuses[..n])
    decreases |statuses| - n
  {
    if n < |statuses| {
      assert statuses[..n + 1][..n] == statuses[..n];
      GatherStops(search, statuses, n + 1);
    } else {
      assert statuses[..n] == statuses;
    }
  }

  /** The global list of candidates the matching reads. */
  class CandidatePool {
    var users: seq<Profile>

    constructor ()
      ensures users == []
    {
      users := [];
    }

    /** Appends the hits of one reply that are not marked closed; a hit
        without the flag raises KeyError, keeping what was appended. */
    method AddOpen(items: seq<SearchItem>) returns (failure: Option<Failure>)
      modifies this
      ensures users == old(users) + CollectOpen(items).users
      ensures failure == CollectOpen(items).failure
    {
      for k := 0 to |items|
        invariant CollectOpen(items[..k]).failure.None?
        invariant users == old(users) + CollectOpen(items[..k]).users
      {
        assert items[..k + 1][..k] == items[..k];
        if items[k].isClosed.None? {
          CollectOpenMissingPrefix(items, k);
          return Some(KeyError);
        }
        if items[k].isClosed != Some(true) {
          users := users + [items[k].profile];
        }
      }
      assert items[..|items|] == items;
      failure := None;
    }

    /** Takes the items of one reply; a reply without them raises. */
    method AddReply(reply: SearchReply) returns (failure: Option<Failure>)
      modifies this
      ensures users == old(users) + CollectReply(reply).users
      ensures failure == CollectReply(reply).failure
    {
      match reply
      case NoReply =>
        return Some(TypeError);
      case NoItems =>
        return Some(KeyError);
      case Items(items) =>
        failure := AddOpen(items);
    }

    /** Runs the two searches and appends every hit not marked closed; an
        exception stops it, keeping what was already appended. */
    method GetUsers(search: int -> SearchReply) returns (failure: Option<Failure>)
      modifies this
      ensures users == old(users) + Gather(search, SearchStatuses).users
      ensures failure == Gather(search, SearchStatuses).failure
    {
      for s := 0 to |SearchStatuses|
        invariant Gather(search, SearchStatuses[..s]).failure.None?
        invariant users == old(users) + Gather(search, SearchStatuses[..s]).users
      {
        GatherStep(search, SearchStatuses, s);
        failure := AddReply(search(SearchStatuses[s]));
        if failure.Some? {
          GatherStops(search, SearchStatuses, s + 1);
          return;
        }
      }
      assert SearchStatuses[..|SearchStatuses|] == SearchStatuses;
      failure := None;
    }
  }

  /** A missing flag at k stops the filter there. */
  lemma CollectOpenMissingPrefix(items: seq<SearchItem>, k: nat)
    requires k < |items| && items[k].isClosed.None?
    requires CollectOpen(items[..k]).failure.None?
    ensures CollectOpen(items) == Collected(CollectOpen(items[..k]).users, Some(KeyError))
  {
    assert items[..k + 1][..k] == items[..k];
    CollectOpenStops(items, k + 1);
  }

  /** Once the filter has raised on a prefix, longer lists raise the same. */
  lemma {:induction false} CollectOpenStops(items: seq<SearchItem>, n: nat)
    requires n <= |items| && CollectOpen(items[..n]).failure.Some?
    ensures CollectOpen(items) == CollectOpen(items[..n])
    decreases |items| - n
  {
    if n < |items| {
      assert items[..n + 1][..n] == items[..n];
      CollectOpenStops(items, n + 1);
    } else {
      assert items[..n] == items;
    }
  }

  // ---------------------------------------------------------------------
  // Text helpers: decimal rendering and the first index of a character

  function DigitChar(d: nat): (c: char)
    requires d < 10
    ensures '0' <= c <= '9'
    ensures c == '0' <==> d == 0
  {
    ('0' as int + d) as char
  }

  /** The decimal digits of `n`, most significant first. */
  function Digits(n: nat): (s: string)
    ensures |s| > 0
    ensures forall i :: 0 <= i < |s| ==> '0' <= s[i] <= '9'
    ensures s[0] == '0' <==> n == 0
  {
    if n < 10 then [DigitChar(n)] else Digits(n / 10) + [DigitChar(n % 10)]
  }

  /** `str(i)`: a minus sign for negative numbers, then the digits. */
  function IntToString(i: int): (s: string)
    ensures forall k :: 0 <= k < |s| ==> s[k] == '-' || '0' <= s[k] <= '9'
  {
    if i < 0 then "-" + Digits(-i) else Digits(i)
  }

  /** The number a non-empty string of decimal digits denotes. */
  function ParseDigits(s: string): Option<nat> {
    if s == [] || !('0' <= s[|s| - 1] <= '9') then None
    else
      var d := s[|s| - 1] as int - '0' as int;
      if |s| == 1 then Some(d)
      else
        match ParseDigits(s[..|s| - 1])
        case None => None
        case Some(high) => Some(high * 10 + d)
  }

  /** `int(s)` restricted to an optional minus sign and decimal digits. */
  function ParseInt(s: string): Option<int> {
    if s != [] && s[0] == '-' then
      match ParseDigits(s[1..])
      case None => None
      case Some(n) => Some(-(n as int))
    else
      match ParseDigits(s)
      case None => None
      case Some(n) => Some(n as int)
  }

  lemma {:induction false} ParseDigitsOfDigits(n: nat)
    ensures ParseDigits(Digits(n)) == Some(n)
  {
    if n >= 10 {
      ParseDigitsOfDigits(n / 10);
      var s := Digits(n);
      assert s[..|s| - 1] == Digits(n / 10);
    }
  }

  lemma ParseIntSigned(d: string, n: nat)
    requires ParseDigits(d) == Some(n)
    ensures ParseInt("-" + d) == Some(-(n as int))
  {
    assert ("-" + d)[1..] == d;
  }

  lemma ParseIntUnsigned(d: string, n: nat)
    requires ParseDigits(d) == Some(n) && d[0] != '-'
    ensures ParseInt(d) == Some(n)
  {
  }

  /** Reading back a rendered integer gives the integer. */
  lemma ParseIntOfIntToString(i: int)
    ensures ParseInt(IntToString(i)) == Some(i)
  {
    if i < 0 {
      ParseDigitsOfDigits(-i);
      ParseIntSigned(Digits(-i), -i);
    } else {
      ParseDigitsOfDigits(i);
      ParseIntUnsigned(Digits(i), i);
    }
  }

  /** The first position of `c` in `s`. */
  function IndexOf(s: string, c: char): (r: Option<nat>)
    ensures r.Some? ==> r.value < |s| && s[r.value] == c && c !in s[..r.value]
    ensures r.None? <==> c !in s
  {
    if s == [] then None
    else if s[0] == c then Some(0)
    else
      match IndexOf(s[1..], c)
      case None => None
      case Some(k) => Some(k + 1)
  }

  lemma {:induction false} IndexOfAfter(a: string, c: char, b: string)
    requires c !in a
    ensures IndexOf(a + [c] + b, c) == Some(|a|)
  {
    if a != [] {
      assert (a + [c] + b)[1..] == a[1..] + [c] + b;
      IndexOfAfter(a[1..], c, b);
    }
  }

  // ---------------------------------------------------------------------
  // Photos (main.py:33-36)

  /** A photo of the "photos.getAll" reply: its id and its like count. */
  datatype Photo = Photo(id: int, likes: int)

  function Likes(p: Photo): int {
    p.likes
  }

  /** The attachment name of a photo. */
  function PhotoRef(owner: int, id: int): (r: string)
    ensures |r| > 5 && r[..5] == "photo"
  {
    "photo" + IntToString(owner) + "_" + IntToString(id)
  }

  /** Reads an attachment name back into owner and photo id. */
  function ParsePhotoRef(s: string): Option<(int, int)> {
    if |s| < 5 || s[..5] != "photo" then None
    else
      var rest := s[5..];
      match IndexOf(rest, '_')
      case None => None
      case Some(k) =>
        match (ParseInt(rest[..k]), ParseInt(rest[k + 1..]))
        case (Some(owner), Some(id)) => Some((owner, id))
        case _ => None
  }

  /** The attachment name determines the owner and the photo. */
  lemma PhotoRefRoundTrip(owner: int, id: int)
    ensures ParsePhotoRef(PhotoRef(owner, id)) == Some((owner, id))
  {
    var o, i := IntToString(owner), IntToString(id);
    var s := PhotoRef(owner, id);
    assert s[..5] == "photo";
    assert s[5..] == o + ['_'] + i;
    assert '_' !in o;
    IndexOfAfter(o, '_', i);
    assert (o + ['_'] + i)[..|o|] == o;
    assert (o + ['_'] + i)[|o| + 1..] == i;
    ParseIntOfIntToString(owner);
    ParseIntOfIntToString(id);
  }

  /** The photos of a user, most liked first, ties in reply order. */
  function MostLikedPhotos(owner: int, photos: seq<Photo>): (r: seq<string>)
    ensures |r| == |photos|
  {
    var ranked := StableSort.SortDesc(photos, Likes);
    seq(|ranked|, k requires 0 <= k < |ranked| => PhotoRef(owner, ranked[k].id))
  }

  /** The names list a permutation of the photos, in non-increasing like
      count, with equal counts in reply order, each naming its photo. */
  lemma MostLikedPhotosSpec(owner: int, photos: seq<Photo>) returns (ranked: seq<Photo>)
    ensures multiset(ranked) == multiset(photos)
    ensures forall i, j :: 0 <= i < j < |ranked| ==> ranked[i].likes >= ranked[j].likes
    ensures forall n :: StableSort.WithKey(ranked, Likes, n) == StableSort.WithKey(photos, Likes, n)
    ensures |MostLikedPhotos(owner, photos)| == |ranked|
    ensures forall k :: 0 <= k < |ranked| ==>
      ParsePhotoRef(MostLikedPhotos(owner, photos)[k]) == Some((owner, ranked[k].id))
  {
    ranked := StableSort.SortDesc(photos, Likes);
    StableSort.SortDescPermutation(photos, Likes);
    StableSort.SortDescSorted(photos, Likes);
    forall n
      ensures StableSort.WithKey(ranked, Likes, n) == StableSort.WithKey(photos, Likes, n)
    {
      StableSort.SortDescStable(photos, Likes, n);
    }
    forall k | 0 <= k < |ranked|
      ensures ParsePhotoRef(MostLikedPhotos(owner, photos)[k]) == Some((owner, ranked[k].id))
    {
      PhotoRefRoundTrip(owner, ranked[k].id);
    }
  }

  // ---------------------------------------------------------------------
  // The address line (main.py:47-50)

  /** The titles of the country and the city, with a `/` between them only
      when both are non-empty; nothing when neither place is known. */
  function Address(country: Option<Place>, city: Option<Place>): (r: Option<string>)
    ensures r.None? <==> country.None? && city.None?
    ensures r.Some? && country.Some? ==> country.value.title <= r.value
  {
    if country.None? && city.None? then None
    else
      var c := if country.Some? then country.value.title else "";
      var t := if city.Some? then city.value.title else "";
      Some(c + (if c != "" && t != "" then "/" else "") + t)
  }

  /** For titles without a `/`, the line has a `/` exactly when both titles
      are non-empty, and then splits there into the two titles. */
  lemma AddressSeparator(country: Option<Place>, city: Option<Place>)
    requires country.Some? ==> '/' !in country.value.title
    requires city.Some? ==> '/' !in city.value.title
    ensures var c := if country.Some? then country.value.title else "";
      var t := if city.Some? then city.value.title else "";
      && (Address(country, city).Some? ==> ('/' in Address(country, city).value <==> c != "" && t != ""))
      && (Address(country, city).Some? && (c == "" || t == "") ==> Address(country, city).value == c + t)
      && (c != "" && t != "" ==>
            var line := Address(country, city).value;
            IndexOf(line, '/') == Some(|c|) && line[..|c|] == c && line[|c| + 1..] == t)
  {
    var c := if country.Some? then country.value.title else "";
    var t := if city.Some? then city.value.title else "";
    if country.Some? || city.Some? {
      var line := Address(country, city).value;
      if c != "" && t != "" {
        assert line == c + ['/'] + t;
        IndexOfAfter(c, '/', t);
        assert line[..|c|] == c;
        assert line[|c| + 1..] == t;
      } else {
        assert line == c + t;
        assert '/' !in line by {
          forall k | 0 <= k < |line|
            ensures line[k] != '/'
          {
            if k < |c| {
              assert line[k] == c[k];
            } else {
              assert line[k] == t[k - |c|];
            }
          }
        }
      }
    }
  }
}
