/** Which reviewers count as approving: the latest decisive review of each user decides. */
module Reviews {

  datatype Review = Review(user: string, state: string, submittedAt: int)

  function LowerChar(c: char): char {
    if 'A' <= c <= 'Z' then c + 32 as char else c
  }

  function Lower(s: string): (r: string)
    ensures |r| == |s| && forall i | 0 <= i < |s| :: r[i] == LowerChar(s[i])
  {
    if s == "" then "" else [LowerChar(s[0])] + Lower(s[1..])
  }

  /** What one review says: by whom, whether it decides at all, whether it approves, and when. */
  datatype Vote = Vote(user: string, decides: bool, approves: bool, at: int)

  // States are compared without regard to case.

  predicate Comment(r: Review) {
    Lower(r.state) == "commented"
  }

  predicate Approval(r: Review) {
    Lower(r.state) == "approved"
  }

  /** Comments and unattributed reviews never decide. */
  function VoteOf(r: Review): Vote {
    Vote(Lower(r.user), r.user != "" && !Comment(r), Approval(r), r.submittedAt)
  }

  function Votes(reviews: seq<Review>): (vs: seq<Vote>) {
    seq(|reviews|, i requires 0 <= i < |reviews| => VoteOf(reviews[i]))
  }

  lemma VotesConcat(a: seq<Review>, b: seq<Review>)
    ensures Votes(a + b) == Votes(a) + Votes(b)
  {
    forall i | 0 <= i < |a| + |b| ensures Votes(a + b)[i] == (Votes(a) + Votes(b))[i] {
      assert i >= |a| ==> (a + b)[i] == b[i - |a|];
    }
  }

  lemma VotesLast(reviews: seq<Review>, r: Review)
    ensures Votes(reviews + [r]) == Votes(reviews) + [VoteOf(r)]
  {
    VotesConcat(reviews, [r]);
  }

  predicate DecidesFor(v: Vote, user: string) {
    v.decides && v.user == user
  }

  /** The i-th vote is the user's latest decisive one: no later time, and on equal times no later position. */
  ghost predicate Latest(votes: seq<Vote>, user: string, i: nat) {
    i < |votes| && DecidesFor(votes[i], user) && forall j | 0 <= j < |votes| :: NotAfter(votes, user, j, i)
  }

  predicate NotAfter(votes: seq<Vote>, user: string, j: nat, i: nat)
    requires i < |votes| && j < |votes|
  {
    DecidesFor(votes[j], user) ==> votes[j].at < votes[i].at || (votes[j].at == votes[i].at && j <= i)
  }

  /** The user's latest decisive review approves. */
  ghost predicate Approves(reviews: seq<Review>, user: string) {
    ApprovingVote(Votes(reviews), user)
  }

  ghost predicate ApprovingVote(votes: seq<Vote>, user: string) {
    exists i: nat :: Latest(votes, user, i) && votes[i].approves
  }

  /** A review by a named user that is not a comment. */
  predicate Counts(r: Review, user: string) {
    r.user != "" && Lower(r.user) == user && Lower(r.state) != "commented"
  }

  /** In terms of the reviews: one of the user's approves, and every later one that counts is none. */
  lemma ApprovesIff(reviews: seq<Review>, user: string)
    ensures Approves(reviews, user) <==>
            exists i | 0 <= i < |reviews| ::
              && Counts(reviews[i], user) && Lower(reviews[i].state) == "approved"
              && forall j | 0 <= j < |reviews| && Counts(reviews[j], user) ::
                   || reviews[j].submittedAt < reviews[i].submittedAt
                   || (reviews[j].submittedAt == reviews[i].submittedAt && j <= i)
  {
    var votes := Votes(reviews);
    if Approves(reviews, user) {
      var i: nat :| Latest(votes, user, i) && votes[i].approves;
      assert Counts(reviews[i], user);
      forall j | 0 <= j < |reviews| && Counts(reviews[j], user)
        ensures || reviews[j].submittedAt < reviews[i].submittedAt
                || (reviews[j].submittedAt == reviews[i].submittedAt && j <= i)
      {
        assert NotAfter(votes, user, j, i) && DecidesFor(votes[j], user);
      }
    }
    if i :| && 0 <= i < |reviews| && Counts(reviews[i], user) && Lower(reviews[i].state) == "approved"
            && forall j | 0 <= j < |reviews| && Counts(reviews[j], user) ::
                 || reviews[j].submittedAt < reviews[i].submittedAt
                 || (reviews[j].submittedAt == reviews[i].submittedAt && j <= i)
    {
      forall j | 0 <= j < |votes| ensures NotAfter(votes, user, j, i) {
        assert DecidesFor(votes[j], user) ==> Counts(reviews[j], user);
      }
      assert Latest(votes, user, i) && votes[i].approves;
    }
  }

  /** At most one vote is a user's latest. */
  lemma LatestIsUnique(votes: seq<Vote>, user: string, i: nat, j: nat)
    requires Latest(votes, user, i) && Latest(votes, user, j)
    ensures i == j
  {
    assert NotAfter(votes, user, i, j) && NotAfter(votes, user, j, i);
  }

  /** Appending a vote moves the latest one exactly when it decides for the user and is not older. */
  lemma LatestStep(votes: seq<Vote>, v: Vote, user: string, i: nat)
    requires Latest(votes, user, i)
    ensures if DecidesFor(v, user) && v.at >= votes[i].at then Latest(votes + [v], user, |votes|)
            else Latest(votes + [v], user, i)
  {
    var all := votes + [v];
    var k := if DecidesFor(v, user) && v.at >= votes[i].at then |votes| else i;
    forall j | 0 <= j < |all| ensures NotAfter(all, user, j, k) {
      if j < |votes| {
        assert NotAfter(votes, user, j, i);
      }
    }
  }

  lemma LatestFirst(votes: seq<Vote>, v: Vote, user: string)
    requires DecidesFor(v, user) && forall j | 0 <= j < |votes| :: !DecidesFor(votes[j], user)
    ensures Latest(votes + [v], user, |votes|)
  {
    var all := votes + [v];
    forall j | 0 <= j < |all| ensures NotAfter(all, user, j, |votes|) {
    }
  }

  ghost predicate Held(v: Vote, votes: seq<Vote>, user: string) {
    exists i: nat :: Latest(votes, user, i) && v == votes[i]
  }

  /** What the map of latest votes holds after a prefix of the list. */
  ghost predicate Tracks(latest: map<string, Vote>, votes: seq<Vote>) {
    && (forall user <- latest :: Held(latest[user], votes, user))
    && (forall j | 0 <= j < |votes| && votes[j].decides :: votes[j].user in latest)
  }

  lemma HeldNext(latest: map<string, Vote>, votes: seq<Vote>, v: Vote, next: map<string, Vote>, user: string)
    requires Tracks(latest, votes) && user in next
    requires next ==
             if v.decides && !(v.user in latest && v.at < latest[v.user].at) then latest[v.user := v] else latest
    ensures Held(next[user], votes + [v], user)
  {
    var all := votes + [v];
    if user in latest {
      assert Held(latest[user], votes, user);
      var i: nat :| Latest(votes, user, i) && latest[user] == votes[i];
      LatestStep(votes, v, user, i);
      assert all[i] == votes[i] && all[|votes|] == v;
    } else {
      LatestFirst(votes, v, user);
      assert all[|votes|] == v;
    }
  }

  lemma TracksNext(latest: map<string, Vote>, votes: seq<Vote>, v: Vote, next: map<string, Vote>)
    requires Tracks(latest, votes)
    requires next ==
             if v.decides && !(v.user in latest && v.at < latest[v.user].at) then latest[v.user := v] else latest
    ensures Tracks(next, votes + [v])
  {
    forall user | user in next ensures Held(next[user], votes + [v], user) {
      HeldNext(latest, votes, v, next, user);
    }
  }

  lemma TrackedApproval(latest: map<string, Vote>, votes: seq<Vote>, user: string)
    requires Tracks(latest, votes)
    ensures user in latest && latest[user].approves <==> ApprovingVote(votes, user)
  {
    if user in latest {
      assert Held(latest[user], votes, user);
      var i: nat :| Latest(votes, user, i) && latest[user] == votes[i];
      forall j: nat | Latest(votes, user, j) ensures j == i {
        LatestIsUnique(votes, user, i, j);
      }
    }
  }

  method LatestVotes(reviews: seq<Review>) returns (latest: map<string, Vote>)
    ensures Tracks(latest, Votes(reviews))
  {
    latest := map[];
    for k := 0 to |reviews|
      invariant Tracks(latest, Votes(reviews[..k]))
    {
      var r := reviews[k];
      ghost var before := latest;
      if r.user != "" && !Comment(r) {
        var key := Lower(r.user);
        if key !in latest || !(r.submittedAt < latest[key].at) {
          latest := latest[key := VoteOf(r)];
        }
      }
      TracksNext(before, Votes(reviews[..k]), VoteOf(r), latest);
      VotesLast(reviews[..k], r);
      assert reviews[..k + 1] == reviews[..k] + [r];
    }
    assert reviews[..|reviews|] == reviews;
  }

  /** The users whose latest decisive review approves, each once, in no particular order. */
  method GetApprovedReviewers(reviews: seq<Review>) returns (approved: seq<string>)
    ensures forall user :: user in approved <==> Approves(reviews, user)
    ensures forall i, j | 0 <= i < j < |approved| :: approved[i] != approved[j]
  {
    var latest := LatestVotes(reviews);
    approved := [];
    var left := latest.Keys;
    while left != {}
      invariant left <= latest.Keys
      invariant forall user :: user in approved <==> user in latest.Keys - left && latest[user].approves
      invariant forall i, j | 0 <= i < j < |approved| :: approved[i] != approved[j]
    {
      var user :| user in left;
      left := left - {user};
      if latest[user].approves {
        approved := approved + [user];
      }
    }
    forall user ensures user in approved <==> Approves(reviews, user) {
      TrackedApproval(latest, Votes(reviews), user);
    }
  }

  // ---------------------------------------------------------------- comments do not matter

  /** Position of a vote once another was inserted at n. */
  function Shift(n: nat, i: nat): nat {
    if i < n then i else i + 1
  }

  lemma LatestShifts(a: seq<Vote>, c: Vote, b: seq<Vote>, user: string, i: nat)
    requires !c.decides && i < |a| + |b|
    ensures Latest(a + b, user, i) <==> Latest(a + [c] + b, user, Shift(|a|, i))
  {
    var before, all := a + b, a + [c] + b;
    assert all[|a|] == c && all[Shift(|a|, i)] == before[i];
    if Latest(before, user, i) {
      forall k | 0 <= k < |all| ensures NotAfter(all, user, k, Shift(|a|, i)) {
        if k != |a| {
          var j := if k < |a| then k else k - 1;
          assert all[k] == before[j] && NotAfter(before, user, j, i);
        }
      }
    }
    if Latest(all, user, Shift(|a|, i)) {
      forall j | 0 <= j < |before| ensures NotAfter(before, user, j, i) {
        assert all[Shift(|a|, j)] == before[j] && NotAfter(all, user, Shift(|a|, j), Shift(|a|, i));
      }
    }
  }

  lemma IndecisiveVotes(a: seq<Vote>, c: Vote, b: seq<Vote>, user: string)
    requires !c.decides
    ensures ApprovingVote(a + [c] + b, user) <==> ApprovingVote(a + b, user)
  {
    var before, all := a + b, a + [c] + b;
    assert all[|a|] == c;
    forall i: nat | Latest(before, user, i) && before[i].approves ensures ApprovingVote(all, user) {
      LatestShifts(a, c, b, user, i);
      assert all[Shift(|a|, i)] == before[i];
    }
    forall k: nat | Latest(all, user, k) && all[k].approves ensures ApprovingVote(before, user) {
      var i := if k < |a| then k else k - 1;
      assert k != |a| && all[k] == before[i] && Shift(|a|, i) == k;
      LatestShifts(a, c, b, user, i);
    }
  }

  /** Inserting a comment anywhere changes nobody's approval. */
  lemma CommentsAreIgnored(a: seq<Review>, c: Review, b: seq<Review>, user: string)
    requires Comment(c)
    ensures Approves(a + [c] + b, user) <==> Approves(a + b, user)
  {
    VotesConcat(a, b);
    VotesConcat(a + [c], b);
    VotesLast(a, c);
    IndecisiveVotes(Votes(a), VoteOf(c), Votes(b), user);
  }
}
