/** The poll record and its two transitions, initialising the options and
    casting a vote, each a validate-then-commit step over the record. */
module Strawsoll {
  import opened PollOptions

  /** The three named failures a transition can report. */
  datatype PollError = PollAlreadyFinished | PollOptionNotFound | UserAlreadyVoted

  /** The outcome of a transition: it committed, or it failed with an error. */
  datatype Outcome = Pass | Fail(error: PollError)

  /** A 32-byte public key identifying a voter; keys compare bytewise. */
  type Pubkey = b: seq<bv8> | |b| == 32 witness seq(32, _ => 0 as bv8)

  /** Number of voter keys the account the host allocates for a poll can hold. */
  const MAX_VOTERS: nat := 50

  /** No key occurs twice. */
  ghost predicate NoDuplicates(keys: seq<Pubkey>) {
    forall i, j :: 0 <= i < j < |keys| ==> keys[i] != keys[j]
  }

  /** The number of options carrying `id`, counted one option at a time as
      the vote's option check filters them. */
  method CountOptionsWithId(options: seq<PollOption>, id: U8) returns (n: nat)
    ensures n == CountId(options, id)
  {
    n := 0;
    var i := 0;
    while i < |options|
      invariant 0 <= i <= |options|
      invariant n == CountId(options[..i], id)
    {
      assert options[..i + 1][..i] == options[..i];
      if options[i].id == id {
        n := n + 1;
      }
      i := i + 1;
    }
    assert options[..i] == options;
  }

  /** The number of occurrences of `key` in `voters`, counted one key at a
      time as the vote's ledger check filters them. */
  method CountVoter(voters: seq<Pubkey>, key: Pubkey) returns (n: nat)
    ensures n == multiset(voters)[key]
    ensures n == 0 <==> key !in voters
  {
    n := 0;
    var i := 0;
    while i < |voters|
      invariant 0 <= i <= |voters|
      invariant n == multiset(voters[..i])[key]
    {
      assert voters[..i + 1] == voters[..i] + [voters[i]];
      if voters[i] == key {
        n := n + 1;
      }
      i := i + 1;
    }
    assert voters[..i] == voters;
  }

  class Poll {
    var options: seq<PollOption>
    var voters: seq<Pubkey>
    var finished: bool

    /** Ids are 1..N in order, no voter is recorded twice, and every
        recorded voter accounts for exactly one vote. */
    ghost predicate Valid()
      reads this
    {
      Sequential(options) && NoDuplicates(voters) && SumVotes(options) == |voters|
    }

    /** The record as the host allocates it: zeroed, so no options, no
        voters and not finished. */
    constructor ()
      ensures options == [] && voters == [] && !finished
      ensures Valid()
    {
      options := [];
      voters := [];
      finished := false;
    }

    /** Replaces the options by one per label, numbered from 1 with no
        votes, unless the poll is finished. The voter ledger is left as it
        is, so the invariant is re-established only on an empty ledger. */
    method Init(labels: seq<string>) returns (r: Outcome)
      requires |labels| <= U8_MAX
      modifies this
      ensures old(finished) ==> r == Fail(PollAlreadyFinished) && unchanged(this)
      ensures !old(finished) ==> r == Pass
      ensures r.Pass? ==> options == Build(labels, 0) && voters == old(voters) && !finished
      ensures r.Pass? ==> Sequential(options) && SumVotes(options) == 0
      ensures r.Pass? ==> (Valid() <==> old(voters) == [])
    {
      if finished {
        return Fail(PollAlreadyFinished);
      }
      options := Build(labels, 0);
      finished := false;
      BuildFresh(labels);
      r := Pass;
    }

    /** Casts `voter`'s vote for option `voteId`. The checks run against the
        unchanged record in this order: not finished, exactly one option
        with that id, voter not yet recorded. Only when all pass is the
        voter recorded and the matching option's count raised. */
    method Vote(voteId: U8, voter: Pubkey) returns (r: Outcome)
      requires !finished && CountId(options, voteId) == 1 && voter !in voters ==> CanBump(options, voteId)
      modifies this
      ensures old(finished) ==> r == Fail(PollAlreadyFinished)
      ensures !old(finished) && CountId(old(options), voteId) != 1 ==> r == Fail(PollOptionNotFound)
      ensures !old(finished) && CountId(old(options), voteId) == 1 && voter in old(voters) ==> r == Fail(UserAlreadyVoted)
      ensures r.Pass? <==> !old(finished) && CountId(old(options), voteId) == 1 && voter !in old(voters)
      ensures r.Fail? ==> unchanged(this)
      ensures r.Pass? ==> voters == old(voters) + [voter]
      ensures r.Pass? ==> CanBump(old(options), voteId) && options == Bump(old(options), voteId)
      ensures finished == old(finished)
      ensures SumVotes(options) == old(SumVotes(options)) + (if r.Pass? then 1 else 0)
      ensures old(Valid()) ==> Valid()
    {
      if finished {
        return Fail(PollAlreadyFinished);
      }
      var matching := CountOptionsWithId(options, voteId);
      if matching != 1 {
        return Fail(PollOptionNotFound);
      }
      var previous := CountVoter(voters, voter);
      if previous != 0 {
        return Fail(UserAlreadyVoted);
      }
      BumpSum(options, voteId);
      BumpKeepsIds(options, voteId, voteId);
      voters := voters + [voter];
      options := Bump(options, voteId);
      r := Pass;
    }
  }

  /** A valid poll whose ledger is below capacity has room on every counter. */
  lemma CapacityPreventsOverflow(p: Poll, id: U8)
    requires p.Valid() && |p.voters| < MAX_VOTERS
    ensures CanBump(p.options, id)
  {
    SumBelowMaxCanBump(p.options, id);
  }

  /** After one voter's successful vote, a second vote by the same voter
      fails whatever option it names (as already voted when the option
      resolves) and leaves the poll as the first vote left it. */
  method VoteAgain(p: Poll, firstId: U8, secondId: U8, voter: Pubkey) returns (first: Outcome, second: Outcome)
    requires p.Valid() && |p.voters| + 1 < MAX_VOTERS
    modifies p
    ensures first.Pass? ==> second.Fail?
    ensures first.Pass? && CountId(old(p.options), secondId) == 1 ==> second == Fail(UserAlreadyVoted)
    ensures first.Pass? ==> p.voters == old(p.voters) + [voter]
    ensures first.Pass? ==> CanBump(old(p.options), firstId) && p.options == Bump(old(p.options), firstId)
    ensures p.Valid() && p.finished == old(p.finished)
  {
    CapacityPreventsOverflow(p, firstId);
    first := p.Vote(firstId, voter);
    CapacityPreventsOverflow(p, secondId);
    BumpKeepsIds(old(p.options), firstId, secondId);
    second := p.Vote(secondId, voter);
  }

  /** A vote on a valid, open poll below its voter capacity, stated with
      the ids 1..N: an id outside 1..N is not found, a recorded voter is
      refused, and otherwise the voter is recorded and option `voteId` alone
      gains one vote. Every outcome leaves the poll valid and open. */
  method VoteOnValid(p: Poll, voteId: U8, voter: Pubkey) returns (r: Outcome)
    requires p.Valid() && !p.finished && |p.voters| < MAX_VOTERS
    modifies p
    ensures !(1 <= voteId <= |old(p.options)|) ==> r == Fail(PollOptionNotFound)
    ensures 1 <= voteId <= |old(p.options)| && voter in old(p.voters) ==> r == Fail(UserAlreadyVoted)
    ensures r.Fail? ==> p.options == old(p.options) && p.voters == old(p.voters)
    ensures r.Pass? <==> 1 <= voteId <= |old(p.options)| && voter !in old(p.voters)
    ensures r.Pass? ==> p.voters == old(p.voters) + [voter] && |p.options| == |old(p.options)|
    ensures r.Pass? ==> p.options[voteId - 1].votes == old(p.options)[voteId - 1].votes + 1
    ensures r.Pass? ==> forall j :: 0 <= j < |p.options| ==>
      p.options[j].text == old(p.options)[j].text && p.options[j].id == old(p.options)[j].id
    ensures r.Pass? ==> forall j :: 0 <= j < |p.options| && j != voteId - 1 ==> p.options[j] == old(p.options)[j]
    ensures p.Valid() && !p.finished
  {
    SequentialResolves(p.options, voteId);
    SumBelowMaxCanBump(p.options, voteId);
    ghost var before := p.options;
    r := p.Vote(voteId, voter);
    if r.Pass? {
      BumpSingle(before, voteId, voteId - 1);
    }
  }

  /** The repository's test run: a fresh poll opened with three labels
      numbered 1, 2, 3; one voter votes for option 1; a second voter votes
      for option 1 and is then refused when voting for it again. */
  method Session(v1: Pubkey, v2: Pubkey)
    returns (created: Outcome, initial: seq<PollOption>, first: Outcome, second: Outcome,
             again: Outcome, tally: seq<PollOption>, ledger: seq<Pubkey>)
    requires v1 != v2
    ensures created == Pass
    ensures initial == [PollOption("Solana", 1, 0), PollOption("Ethereum", 2, 0), PollOption("Bitcoin", 3, 0)]
    ensures first == Pass && second == Pass && again == Fail(UserAlreadyVoted)
    ensures tally == [PollOption("Solana", 1, 2), PollOption("Ethereum", 2, 0), PollOption("Bitcoin", 3, 0)]
    ensures ledger == [v1, v2]
  {
    var p := new Poll();
    created := p.Init(["Solana", "Ethereum", "Bitcoin"]);
    initial := p.options;
    assert initial == [PollOption("Solana", 1, 0), PollOption("Ethereum", 2, 0), PollOption("Bitcoin", 3, 0)];
    first := VoteOnValid(p, 1, v1);
    assert p.options == [PollOption("Solana", 1, 1), PollOption("Ethereum", 2, 0), PollOption("Bitcoin", 3, 0)];
    second := VoteOnValid(p, 1, v2);
    assert p.options == [PollOption("Solana", 1, 2), PollOption("Ethereum", 2, 0), PollOption("Bitcoin", 3, 0)];
    again := VoteOnValid(p, 1, v2);
    tally, ledger := p.options, p.voters;
  }

  /** A vote naming an id that no option carries is refused as not found
      and records nothing, after a vote that passed. */
  method UnknownOption(a: Pubkey, b: Pubkey)
    returns (first: Outcome, unknown: Outcome, tally: seq<PollOption>, ledger: seq<Pubkey>)
    ensures first == Pass && unknown == Fail(PollOptionNotFound)
    ensures tally == [PollOption("Yes", 1, 1), PollOption("No", 2, 0)]
    ensures ledger == [a]
  {
    var p := new Poll();
    var created := p.Init(["Yes", "No"]);
    first := VoteOnValid(p, 1, a);
    assert p.options == [PollOption("Yes", 1, 1), PollOption("No", 2, 0)];
    unknown := VoteOnValid(p, 99, b);
    tally, ledger := p.options, p.voters;
  }
}
