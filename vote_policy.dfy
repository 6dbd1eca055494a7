/**
 * The vote of a game: one vote session per game, one live ballot per voter,
 * and the tally of the most-accused players.
 */
module Votes {

  /** A game, as set up from a wait room (`SetUpGameDto` plus the game's id). */
  datatype Game = Game(id: string, roomId: string, hostId: string, roomName: string, userIds: seq<string>)

  /** One voter's current accusation. */
  datatype Ballot = Ballot(voterId: string, liarId: string)

  /** An accused player and the number of ballots naming them. */
  datatype VotedResult = VotedResult(liarId: string, cnt: nat)

  // ---------------------------------------------------------------------------
  // Counting ballots

  /** How many of the ballots accuse `liar`. */
  function CountFor(bs: seq<Ballot>, liar: string): nat {
    if bs == [] then 0
    else (if bs[0].liarId == liar then 1 else 0) + CountFor(bs[1..], liar)
  }

  /** The players accused by at least one ballot. */
  function Accused(bs: seq<Ballot>): set<string> {
    set b | b in bs :: b.liarId
  }

  /** The largest count, over the players accused by `part`, of ballots in `all`. */
  function MaxOver(all: seq<Ballot>, part: seq<Ballot>): nat {
    if part == [] then 0
    else
      var here := CountFor(all, part[0].liarId);
      var rest := MaxOver(all, part[1..]);
      if here < rest then rest else here
  }

  /** The highest number of ballots any one player received. */
  function MaxCount(bs: seq<Ballot>): nat {
    MaxOver(bs, bs)
  }

  /** `getMaxVotedLiarUser`: every most-accused player with their count (ties together). */
  function MaxVotedLiars(bs: seq<Ballot>): set<VotedResult> {
    set l | l in Accused(bs) && CountFor(bs, l) == MaxCount(bs) :: VotedResult(l, CountFor(bs, l))
  }

  lemma {:induction false} CountForAppend(a: seq<Ballot>, b: seq<Ballot>, liar: string)
    ensures CountFor(a + b, liar) == CountFor(a, liar) + CountFor(b, liar)
  {
    if a == [] {
      assert a + b == b;
    } else {
      assert (a + b)[0] == a[0];
      assert (a + b)[1..] == a[1..] + b;
      CountForAppend(a[1..], b, liar);
    }
  }

  /** A player gets a vote exactly when some ballot accuses them. */
  lemma {:induction false} CountForPositive(bs: seq<Ballot>, liar: string)
    ensures CountFor(bs, liar) > 0 <==> liar in Accused(bs)
  {
    if bs != [] {
      CountForPositive(bs[1..], liar);
      assert Accused(bs) == {bs[0].liarId} + Accused(bs[1..]);
    }
  }

  /** Dropping matching elements from two permutations of each other leaves permutations. */
  lemma RemoveMatching(bs: seq<Ballot>, cs: seq<Ballot>, k: nat)
    requires multiset(bs) == multiset(cs)
    requires bs != [] && k < |cs| && cs[k] == bs[0]
    ensures multiset(bs[1..]) == multiset(cs[..k] + cs[k + 1..])
  {
    assert cs == cs[..k] + [cs[k]] + cs[k + 1..];
    assert bs == [bs[0]] + bs[1..];
    var rest := cs[..k] + cs[k + 1..];
    assert multiset(cs) == multiset(rest) + multiset{cs[k]};
    assert multiset(bs) == multiset(bs[1..]) + multiset{bs[0]};
    forall x ensures multiset(bs[1..])[x] == multiset(rest)[x] {
      assert multiset(bs)[x] == multiset(cs)[x];
    }
  }

  /** Counting does not depend on the order of the ballots. */
  lemma {:induction false} CountForPermutation(bs: seq<Ballot>, cs: seq<Ballot>, liar: string)
    requires multiset(bs) == multiset(cs)
    ensures CountFor(bs, liar) == CountFor(cs, liar)
    decreases |bs|
  {
    if bs != [] {
      assert bs[0] in multiset(cs);
      var k :| 0 <= k < |cs| && cs[k] == bs[0];
      var rest := cs[..k] + cs[k + 1..];
      assert cs == cs[..k] + [cs[k]] + cs[k + 1..];
      RemoveMatching(bs, cs, k);
      CountForPermutation(bs[1..], rest, liar);
      CountForAppend(cs[..k] + [cs[k]], cs[k + 1..], liar);
      CountForAppend(cs[..k], [cs[k]], liar);
      CountForAppend(cs[..k], cs[k + 1..], liar);
    }
  }

  lemma {:induction false} MaxOverBound(all: seq<Ballot>, part: seq<Ballot>, b: Ballot)
    requires b in part
    ensures CountFor(all, b.liarId) <= MaxOver(all, part)
  {
    if part[0] != b {
      MaxOverBound(all, part[1..], b);
    }
  }

  lemma {:induction false} MaxOverAttained(all: seq<Ballot>, part: seq<Ballot>)
    requires part != []
    ensures exists b :: b in part && CountFor(all, b.liarId) == MaxOver(all, part)
  {
    var here := CountFor(all, part[0].liarId);
    if part[1..] == [] || MaxOver(all, part[1..]) <= here {
      assert part[0] in part && CountFor(all, part[0].liarId) == MaxOver(all, part);
    } else {
      MaxOverAttained(all, part[1..]);
      var b :| b in part[1..] && CountFor(all, b.liarId) == MaxOver(all, part[1..]);
      assert b in part;
    }
  }

  /** `MaxCount` is the count of some accused player and bounds every player's count. */
  lemma MaxCountIsMaximum(bs: seq<Ballot>)
    ensures forall l :: CountFor(bs, l) <= MaxCount(bs)
    ensures bs != [] ==> exists l :: l in Accused(bs) && CountFor(bs, l) == MaxCount(bs)
    ensures bs == [] ==> MaxCount(bs) == 0
  {
    forall l ensures CountFor(bs, l) <= MaxCount(bs) {
      CountForPositive(bs, l);
      if l in Accused(bs) {
        var b :| b in bs && b.liarId == l;
        MaxOverBound(bs, bs, b);
      }
    }
    if bs != [] {
      MaxOverAttained(bs, bs);
      var b :| b in bs && CountFor(bs, b.liarId) == MaxCount(bs);
      assert b.liarId in Accused(bs);
    }
  }

  /**
   * The tally returns exactly the players whose count is positive and no
   * smaller than anyone else's, each with their count; so ties are all
   * returned, and no ballots means no result.
   */
  lemma MaxVotedLiarsMeaning(bs: seq<Ballot>, r: VotedResult)
    ensures r in MaxVotedLiars(bs) <==>
      && r.cnt == CountFor(bs, r.liarId)
      && r.cnt > 0
      && forall l :: CountFor(bs, l) <= r.cnt
  {
    MaxCountIsMaximum(bs);
    CountForPositive(bs, r.liarId);
    if bs != [] {
      var m :| m in Accused(bs) && CountFor(bs, m) == MaxCount(bs);
      CountForPositive(bs, m);
    }
  }

  /** Two ballot collections that are permutations of each other give the same tally. */
  lemma MaxVotedLiarsPermutation(bs: seq<Ballot>, cs: seq<Ballot>)
    requires multiset(bs) == multiset(cs)
    ensures MaxVotedLiars(bs) == MaxVotedLiars(cs)
  {
    forall l ensures CountFor(bs, l) == CountFor(cs, l) {
      CountForPermutation(bs, cs, l);
    }
    assert Accused(bs) == Accused(cs) by {
      forall b ensures b in bs <==> b in cs {
        assert b in bs <==> b in multiset(bs);
        assert b in cs <==> b in multiset(cs);
      }
    }
    MaxCountIsMaximum(bs);
    MaxCountIsMaximum(cs);
    if bs != [] {
      var m :| m in Accused(bs) && CountFor(bs, m) == MaxCount(bs);
      var n :| n in Accused(cs) && CountFor(cs, n) == MaxCount(cs);
      assert CountFor(bs, n) <= MaxCount(bs);
      assert CountFor(cs, m) <= MaxCount(cs);
    } else {
      assert cs == [] by { assert |multiset(cs)| == 0; }
    }
    assert MaxCount(bs) == MaxCount(cs);
  }

  /** When every ballot accuses `liar`, the tally is that player alone with one vote per ballot. */
  lemma {:induction false} UnanimousCount(bs: seq<Ballot>, liar: string)
    requires forall i :: 0 <= i < |bs| ==> bs[i].liarId == liar
    ensures CountFor(bs, liar) == |bs|
    ensures forall l :: l != liar ==> CountFor(bs, l) == 0
  {
    if bs != [] {
      UnanimousCount(bs[1..], liar);
    }
  }

  lemma Unanimous(bs: seq<Ballot>, liar: string)
    requires bs != []
    requires forall i :: 0 <= i < |bs| ==> bs[i].liarId == liar
    ensures MaxVotedLiars(bs) == {VotedResult(liar, |bs|)}
  {
    UnanimousCount(bs, liar);
    forall r ensures r in MaxVotedLiars(bs) <==> r == VotedResult(liar, |bs|) {
      MaxVotedLiarsMeaning(bs, r);
    }
  }

  // ---------------------------------------------------------------------------
  // Live ballots: one per voter

  /** The ballots of voters outside `voters`. */
  function Without(bs: seq<Ballot>, voters: set<string>): (r: seq<Ballot>)
    ensures forall b :: b in r <==> b in bs && b.voterId !in voters
  {
    if bs == [] then []
    else (if bs[0].voterId in voters then [] else [bs[0]]) + Without(bs[1..], voters)
  }

  /** `voteLiarUser` on the ballots: the voter's earlier ballot is replaced by the new one. */
  function Upsert(bs: seq<Ballot>, b: Ballot): seq<Ballot> {
    Without(bs, {b.voterId}) + [b]
  }

  /** The ballots after casting `casts` in order, starting from `bs`. */
  function CastAll(bs: seq<Ballot>, casts: seq<Ballot>): seq<Ballot> {
    if casts == [] then bs
    else Upsert(CastAll(bs, casts[..|casts| - 1]), casts[|casts| - 1])
  }

  /** The voters of the ballots. */
  function Voters(bs: seq<Ballot>): set<string> {
    set b | b in bs :: b.voterId
  }

  /** No two ballots come from the same voter. */
  predicate DistinctVoters(bs: seq<Ballot>) {
    forall i, j :: 0 <= i < j < |bs| ==> bs[i].voterId != bs[j].voterId
  }

  lemma {:induction false} WithoutAppend(a: seq<Ballot>, b: seq<Ballot>, voters: set<string>)
    ensures Without(a + b, voters) == Without(a, voters) + Without(b, voters)
  {
    if a == [] {
      assert a + b == b;
    } else {
      assert (a + b)[0] == a[0];
      assert (a + b)[1..] == a[1..] + b;
      WithoutAppend(a[1..], b, voters);
    }
  }

  lemma {:induction false} WithoutWithout(bs: seq<Ballot>, s: set<string>, t: set<string>)
    ensures Without(Without(bs, s), t) == Without(bs, s + t)
  {
    if bs != [] {
      WithoutWithout(bs[1..], s, t);
      WithoutAppend(if bs[0].voterId in s then [] else [bs[0]], Without(bs[1..], s), t);
    }
  }

  lemma {:induction false} WithoutDistinct(bs: seq<Ballot>, voters: set<string>)
    requires DistinctVoters(bs)
    ensures DistinctVoters(Without(bs, voters))
  {
    if bs != [] {
      WithoutDistinct(bs[1..], voters);
      var head: seq<Ballot> := if bs[0].voterId in voters then [] else [bs[0]];
      var tail := Without(bs[1..], voters);
      forall i, j | 0 <= i < j < |head + tail|
        ensures (head + tail)[i].voterId != (head + tail)[j].voterId
      {
        if i < |head| {
          assert (head + tail)[j] in bs[1..];
        }
      }
    }
  }

  /** Upserting keeps one ballot per voter. */
  lemma UpsertDistinct(bs: seq<Ballot>, b: Ballot)
    requires DistinctVoters(bs)
    ensures DistinctVoters(Upsert(bs, b))
  {
    var w := Without(bs, {b.voterId});
    WithoutDistinct(bs, {b.voterId});
    forall i, j | 0 <= i < j < |w + [b]| ensures (w + [b])[i].voterId != (w + [b])[j].voterId {
      if j == |w| {
        assert (w + [b])[i] in w;
      }
    }
  }

  /** A re-vote overwrites: only a voter's last ballot stays live. */
  lemma RevoteOverwrites(bs: seq<Ballot>, voter: string, first: string, second: string)
    ensures Upsert(Upsert(bs, Ballot(voter, first)), Ballot(voter, second)) == Upsert(bs, Ballot(voter, second))
  {
    var w := Without(bs, {voter});
    WithoutAppend(w, [Ballot(voter, first)], {voter});
    WithoutWithout(bs, {voter}, {voter});
    assert {voter} + {voter} == {voter};
    assert Without([Ballot(voter, first)], {voter}) == [];
  }

  /** The last of a list of distinct-voter ballots comes from a voter none of the others are from. */
  lemma LastVoterFresh(casts: seq<Ballot>)
    requires casts != [] && DistinctVoters(casts)
    ensures DistinctVoters(casts[..|casts| - 1])
    ensures casts[|casts| - 1].voterId !in Voters(casts[..|casts| - 1])
    ensures Voters(casts) == Voters(casts[..|casts| - 1]) + {casts[|casts| - 1].voterId}
  {
  }

  /**
   * Casting ballots of distinct voters leaves the earlier ballots of everyone
   * else plus exactly the cast ballots, whatever their order.
   */
  lemma {:induction false} CastAllContents(bs: seq<Ballot>, casts: seq<Ballot>)
    requires DistinctVoters(casts)
    ensures multiset(CastAll(bs, casts)) == multiset(Without(bs, Voters(casts))) + multiset(casts)
  {
    if casts == [] {
      assert Voters(casts) == {};
      WithoutNone(bs);
    } else {
      var n := |casts| - 1;
      assert casts == casts[..n] + [casts[n]];
      var front, last := casts[..n], casts[n];
      LastVoterFresh(casts);
      CastAllContents(bs, front);
      CastLast(bs, front, last, casts);
    }
  }

  /** One step of CastAllContents: casting a ballot of a voter who has not cast yet. */
  lemma CastLast(bs: seq<Ballot>, front: seq<Ballot>, last: Ballot, casts: seq<Ballot>)
    requires casts == front + [last]
    requires last.voterId !in Voters(front)
    requires Voters(casts) == Voters(front) + {last.voterId}
    requires multiset(CastAll(bs, front)) == multiset(Without(bs, Voters(front))) + multiset(front)
    ensures multiset(CastAll(bs, casts)) == multiset(Without(bs, Voters(casts))) + multiset(casts)
  {
    var prior := CastAll(bs, front);
    assert casts[..|casts| - 1] == front;
    assert CastAll(bs, casts) == Without(prior, {last.voterId}) + [last];
    assert forall b :: b in front ==> b.voterId !in {last.voterId} by {
      forall b | b in front ensures b.voterId != last.voterId {
        assert b.voterId in Voters(front);
      }
    }
    WithoutMultiset(prior, {last.voterId}, bs, front);
  }

  lemma {:induction false} WithoutNone(bs: seq<Ballot>)
    ensures Without(bs, {}) == bs
  {
    if bs != [] {
      WithoutNone(bs[1..]);
    }
  }

  lemma {:induction false} WithoutOfUnion(bs: seq<Ballot>, s: set<string>)
    requires forall b :: b in bs ==> b.voterId !in s
    ensures Without(bs, s) == bs
  {
    if bs != [] {
      WithoutOfUnion(bs[1..], s);
    }
  }

  lemma WithoutMultiset(prior: seq<Ballot>, v: set<string>, bs: seq<Ballot>, front: seq<Ballot>)
    requires multiset(prior) == multiset(Without(bs, Voters(front))) + multiset(front)
    requires forall b :: b in front ==> b.voterId !in v
    ensures multiset(Without(prior, v)) == multiset(Without(bs, Voters(front) + v)) + multiset(front)
  {
    var rest := Without(bs, Voters(front));
    WithoutPermutation(prior, rest + front, v);
    WithoutAppend(rest, front, v);
    WithoutOfUnion(front, v);
    WithoutWithout(bs, Voters(front), v);
  }

  /** How often a ballot survives dropping voters: never, or as often as before. */
  lemma {:induction false} WithoutCount(bs: seq<Ballot>, v: set<string>, x: Ballot)
    ensures multiset(Without(bs, v))[x] == if x.voterId in v then 0 else multiset(bs)[x]
  {
    if bs != [] {
      assert bs == [bs[0]] + bs[1..];
      WithoutCount(bs[1..], v, x);
    }
  }

  /** Dropping voters commutes with reordering the ballots. */
  lemma WithoutPermutation(bs: seq<Ballot>, cs: seq<Ballot>, v: set<string>)
    requires multiset(bs) == multiset(cs)
    ensures multiset(Without(bs, v)) == multiset(Without(cs, v))
  {
    forall x ensures multiset(Without(bs, v))[x] == multiset(Without(cs, v))[x] {
      WithoutCount(bs, v, x);
      WithoutCount(cs, v, x);
    }
  }

  /** Taking one ballot out of ballots of distinct voters leaves distinct voters, none of them its voter. */
  lemma DistinctRemove(cs: seq<Ballot>, k: nat)
    requires k < |cs| && DistinctVoters(cs)
    ensures DistinctVoters(cs[..k] + cs[k + 1..])
    ensures forall b :: b in cs[..k] + cs[k + 1..] ==> b.voterId != cs[k].voterId
  {
    var rest := cs[..k] + cs[k + 1..];
    forall i | 0 <= i < |rest| ensures rest[i] == cs[if i < k then i else i + 1] {
    }
  }

  /** Reordering ballots of distinct voters keeps the voters distinct. */
  lemma {:induction false} PermutationDistinct(bs: seq<Ballot>, cs: seq<Ballot>)
    requires multiset(bs) == multiset(cs) && DistinctVoters(cs)
    ensures DistinctVoters(bs)
    decreases |bs|
  {
    if bs != [] {
      assert bs[0] in multiset(cs);
      var k :| 0 <= k < |cs| && cs[k] == bs[0];
      var rest := cs[..k] + cs[k + 1..];
      RemoveMatching(bs, cs, k);
      DistinctRemove(cs, k);
      PermutationDistinct(bs[1..], rest);
      forall j | 0 < j < |bs| ensures bs[0].voterId != bs[j].voterId {
        assert bs[j] in multiset(bs[1..]);
      }
    }
  }

  /**
   * The tally does not depend on the order in which distinct voters cast
   * their ballots.
   */
  lemma TallyOrderIndependent(bs: seq<Ballot>, casts: seq<Ballot>, reordered: seq<Ballot>)
    requires DistinctVoters(casts)
    requires multiset(casts) == multiset(reordered)
    ensures MaxVotedLiars(CastAll(bs, casts)) == MaxVotedLiars(CastAll(bs, reordered))
  {
    PermutationDistinct(reordered, casts);
    CastAllContents(bs, casts);
    CastAllContents(bs, reordered);
    assert Voters(casts) == Voters(reordered) by {
      forall v ensures v in Voters(casts) <==> v in Voters(reordered) {
        if v in Voters(casts) {
          var b :| b in casts && b.voterId == v;
          assert b in multiset(reordered);
        }
        if v in Voters(reordered) {
          var b :| b in reordered && b.voterId == v;
          assert b in multiset(casts);
        }
      }
    }
    MaxVotedLiarsPermutation(CastAll(bs, casts), CastAll(bs, reordered));
  }

  /** The ballots cast in the test: voters "1" to "5" each accuse "2". */
  function FiveVotesForTwo(): seq<Ballot> {
    [Ballot("1", "2"), Ballot("2", "2"), Ballot("3", "2"), Ballot("4", "2"), Ballot("5", "2")]
  }

  /**
   * On a fresh vote, ballots of distinct voters that all accuse `liar` leave
   * exactly one result: `liar`, with one vote per voter.
   */
  lemma UnanimousCastTally(casts: seq<Ballot>, liar: string)
    requires casts != [] && DistinctVoters(casts)
    requires forall i :: 0 <= i < |casts| ==> casts[i].liarId == liar
    ensures MaxVotedLiars(CastAll([], casts)) == {VotedResult(liar, |casts|)}
  {
    CastAllContents([], casts);
    assert Without([], Voters(casts)) == [];
    MaxVotedLiarsPermutation(CastAll([], casts), casts);
    Unanimous(casts, liar);
  }

  /** Those ballots come from five distinct voters and all accuse "2". */
  lemma FiveVotesForTwoBallots()
    ensures DistinctVoters(FiveVotesForTwo())
    ensures forall b :: b in FiveVotesForTwo() ==> b.liarId == "2"
  {
  }

  /**
   * Casting those ballots on a fresh vote, in any order, leaves exactly one
   * result: player "2" with 5 votes.
   */
  lemma FiveVotesForTwoTally(casts: seq<Ballot>)
    requires multiset(casts) == multiset(FiveVotesForTwo())
    ensures MaxVotedLiars(CastAll([], casts)) == {VotedResult("2", 5)}
    ensures |MaxVotedLiars(CastAll([], casts))| == 1
  {
    var five := FiveVotesForTwo();
    FiveVotesForTwoBallots();
    PermutationDistinct(casts, five);
    assert |casts| == 5 by {
      assert |multiset(casts)| == |multiset(five)|;
    }
    forall i | 0 <= i < |casts| ensures casts[i].liarId == "2" {
      assert casts[i] in multiset(five);
    }
    UnanimousCastTally(casts, "2");
  }

  // ---------------------------------------------------------------------------
  // The vote store

  /**
   * VotePolicy over the vote repository: the vote id of each game that has a
   * vote, and the live ballots of each such game.
   */
  class VotePolicy {
    var votes: map<string, string>
    var ballots: map<string, seq<Ballot>>

    /** Ballots exist exactly for the games with a vote, one per voter. */
    ghost predicate Valid()
      reads this
    {
      && ballots.Keys == votes.Keys
      && forall g :: g in ballots ==> DistinctVoters(ballots[g])
    }

    constructor ()
      ensures Valid() && votes == map[] && ballots == map[]
    {
      votes := map[];
      ballots := map[];
    }

    /** `voteRepository.deleteAll`. */
    method DeleteAll()
      modifies this
      ensures Valid() && votes == map[] && ballots == map[]
    {
      votes := map[];
      ballots := map[];
    }

    /**
     * `saveVote`: the game's existing vote id, with nothing changed; or, on
     * the first call for the game, `newVoteId` with an empty ballot box.
     */
    method SaveVote(game: Game, newVoteId: string) returns (voteId: string)
      requires Valid()
      modifies this
      ensures Valid()
      ensures game.id in votes && votes[game.id] == voteId
      ensures old(game.id in votes) ==> voteId == old(votes[game.id]) && votes == old(votes) && ballots == old(ballots)
      ensures old(game.id !in votes) ==>
        voteId == newVoteId && votes == old(votes)[game.id := newVoteId] && ballots == old(ballots)[game.id := []]
    {
      if game.id in votes {
        return votes[game.id];
      }
      votes := votes[game.id := newVoteId];
      ballots := ballots[game.id := []];
      return newVoteId;
    }

    /** `voteLiarUser`: record the voter's ballot, replacing any earlier one of theirs. */
    method VoteLiarUser(gameId: string, voterId: string, liarId: string)
      requires Valid() && gameId in votes
      modifies this
      ensures Valid()
      ensures votes == old(votes)
      ensures ballots == old(ballots)[gameId := Upsert(old(ballots)[gameId], Ballot(voterId, liarId))]
    {
      UpsertDistinct(ballots[gameId], Ballot(voterId, liarId));
      ballots := ballots[gameId := Upsert(ballots[gameId], Ballot(voterId, liarId))];
    }

    /** `getMaxVotedLiarUser`: the tally of the game's live ballots (none for a game without a vote). */
    method GetMaxVotedLiarUser(gameId: string) returns (r: set<VotedResult>)
      requires Valid()
      ensures gameId in ballots ==> r == MaxVotedLiars(ballots[gameId])
      ensures gameId !in ballots ==> r == {}
    {
      if gameId in ballots {
        r := MaxVotedLiars(ballots[gameId]);
      } else {
        r := {};
      }
    }

    /** The test's repeated `saveVote` of one game: every call returns the same id. */
    method SaveVoteRepeatedly(game: Game, newVoteIds: seq<string>) returns (results: seq<string>)
      requires Valid()
      modifies this
      ensures Valid()
      ensures |results| == |newVoteIds|
      ensures forall i :: 0 <= i < |results| ==> game.id in votes && results[i] == votes[game.id]
      ensures old(game.id in votes) ==> votes == old(votes) && ballots == old(ballots)
      ensures old(game.id !in votes) && newVoteIds != [] ==>
        votes == old(votes)[game.id := newVoteIds[0]] && ballots == old(ballots)[game.id := []]
    {
      results := [];
      var i := 0;
      while i < |newVoteIds|
        invariant 0 <= i <= |newVoteIds|
        invariant Valid()
        invariant |results| == i
        invariant i > 0 ==> game.id in votes
        invariant forall k :: 0 <= k < i ==> results[k] == votes[game.id]
        invariant old(game.id in votes) ==> votes == old(votes) && ballots == old(ballots)
        invariant old(game.id !in votes) && i > 0 ==>
          votes == old(votes)[game.id := newVoteIds[0]] && ballots == old(ballots)[game.id := []]
        invariant old(game.id !in votes) && i == 0 ==> votes == old(votes) && ballots == old(ballots)
      {
        var voteId := SaveVote(game, newVoteIds[i]);
        results := results + [voteId];
        i := i + 1;
      }
    }

    /** The test's loop of `voteLiarUser` calls for one game. */
    method CastBallots(gameId: string, casts: seq<Ballot>)
      requires Valid() && gameId in votes
      modifies this
      ensures Valid()
      ensures votes == old(votes)
      ensures ballots == old(ballots)[gameId := CastAll(old(ballots)[gameId], casts)]
    {
      var i := 0;
      while i < |casts|
        invariant 0 <= i <= |casts|
        invariant Valid() && votes == old(votes)
        invariant ballots == old(ballots)[gameId := CastAll(old(ballots)[gameId], casts[..i])]
      {
        assert casts[..i + 1][..i] == casts[..i];
        assert CastAll(old(ballots)[gameId], casts[..i + 1])
            == Upsert(CastAll(old(ballots)[gameId], casts[..i]), casts[i]);
        VoteLiarUser(gameId, casts[i].voterId, casts[i].liarId);
        i := i + 1;
      }
      assert casts[..i] == casts;
    }
  }
}
