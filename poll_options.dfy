/** The option registry of a poll: the ordered options, how they are built
    from labels, how a vote increments them, and the two counts the poll's
    checks and invariants are stated with (matches of an id, total votes). */
module PollOptions {

  /** Largest value of the 1-byte option id and of its build counter. */
  const U8_MAX: int := 0xFF
  /** Largest value of the 4-byte vote counter. */
  const U32_MAX: int := 0xFFFF_FFFF

  type U8 = x: int | 0 <= x <= 0xFF
  type U32 = x: int | 0 <= x <= 0xFFFF_FFFF

  /** One selectable choice: its label, its id and its accumulated votes.
      The label is the field `text`, since `label` is a reserved word in Dafny. */
  datatype PollOption = PollOption(text: string, id: U8, votes: U32)

  /** The options built from `labels`, in input order, by a counter that
      holds `start` beforehand and is incremented before each option takes
      it as its id; every option starts with no votes. */
  function Build(labels: seq<string>, start: U8): (r: seq<PollOption>)
    requires start + |labels| <= U8_MAX
    ensures |r| == |labels|
    ensures forall i :: 0 <= i < |r| ==> r[i] == PollOption(labels[i], start + i + 1, 0)
  {
    if labels == [] then []
    else [PollOption(labels[0], start + 1, 0)] + Build(labels[1..], start + 1)
  }

  /** Ids are exactly 1, 2, ..., |options|, in order. */
  ghost predicate Sequential(options: seq<PollOption>) {
    forall i :: 0 <= i < |options| ==> options[i].id == i + 1
  }

  /** No two options share an id. */
  ghost predicate DistinctIds(options: seq<PollOption>) {
    forall i, j :: 0 <= i < j < |options| ==> options[i].id != options[j].id
  }

  /** How many options carry the id `id`. */
  function CountId(options: seq<PollOption>, id: int): nat {
    if options == [] then 0
    else CountId(options[..|options| - 1], id) + (if options[|options| - 1].id == id then 1 else 0)
  }

  /** The total number of votes over all options. */
  function SumVotes(options: seq<PollOption>): nat {
    if options == [] then 0
    else SumVotes(options[..|options| - 1]) + options[|options| - 1].votes
  }

  /** Every option with id `id` can take one more vote without leaving u32. */
  ghost predicate CanBump(options: seq<PollOption>, id: U8) {
    forall i :: 0 <= i < |options| && options[i].id == id ==> options[i].votes < U32_MAX
  }

  /** The options after a vote for `id`: every option whose id is `id` has
      one more vote; labels, ids, order and all other counts are kept. */
  function Bump(options: seq<PollOption>, id: U8): (r: seq<PollOption>)
    requires CanBump(options, id)
    ensures |r| == |options|
    ensures forall i :: 0 <= i < |options| ==>
      r[i].text == options[i].text && r[i].id == options[i].id &&
      r[i].votes == (if options[i].id == id then options[i].votes + 1 else options[i].votes)
  {
    if options == [] then []
    else
      var last := options[|options| - 1];
      Bump(options[..|options| - 1], id) + [if last.id == id then last.(votes := last.votes + 1) else last]
  }

  /** No option matches `id` exactly when no option carries it. */
  lemma {:induction false} CountIdZero(options: seq<PollOption>, id: int)
    ensures CountId(options, id) == 0 <==> forall i :: 0 <= i < |options| ==> options[i].id != id
  {
    if options != [] {
      var init := options[..|options| - 1];
      CountIdZero(init, id);
      assert forall i :: 0 <= i < |init| ==> init[i] == options[i];
    }
  }

  /** With option `k` carrying `id`, exactly one option matches `id`
      exactly when no other option carries it. */
  lemma {:induction false} CountIdOne(options: seq<PollOption>, id: int, k: int)
    requires 0 <= k < |options| && options[k].id == id
    ensures CountId(options, id) == 1 <==> forall j :: 0 <= j < |options| && j != k ==> options[j].id != id
  {
    var n := |options| - 1;
    var init := options[..n];
    assert forall i :: 0 <= i < |init| ==> init[i] == options[i];
    if k == n {
      CountIdZero(init, id);
    } else {
      CountIdOne(init, id, k);
      CountIdZero(init, id);
    }
  }

  /** Distinct ids resolve every id to at most one option. */
  lemma {:induction false} DistinctCountAtMostOne(options: seq<PollOption>, id: int)
    requires DistinctIds(options)
    ensures CountId(options, id) <= 1
  {
    if exists k :: 0 <= k < |options| && options[k].id == id {
      var k :| 0 <= k < |options| && options[k].id == id;
      CountIdOne(options, id, k);
    } else {
      CountIdZero(options, id);
    }
  }

  /** Sequential ids are distinct, and an id resolves to exactly one option
      exactly when it lies in 1..|options|. */
  lemma SequentialResolves(options: seq<PollOption>, id: int)
    requires Sequential(options)
    ensures DistinctIds(options)
    ensures CountId(options, id) == 1 <==> 1 <= id <= |options|
  {
    if 1 <= id <= |options| {
      CountIdOne(options, id, id - 1);
    } else {
      CountIdZero(options, id);
    }
  }

  /** Built options are numbered 1..|labels| and hold no votes. */
  lemma BuildFresh(labels: seq<string>)
    requires |labels| <= U8_MAX
    ensures Sequential(Build(labels, 0))
    ensures SumVotes(Build(labels, 0)) == 0
  {
    NoVotesSumZero(Build(labels, 0));
  }

  /** Options that all hold zero votes sum to zero. */
  lemma {:induction false} NoVotesSumZero(options: seq<PollOption>)
    requires forall i :: 0 <= i < |options| ==> options[i].votes == 0
    ensures SumVotes(options) == 0
  {
    if options != [] {
      var init := options[..|options| - 1];
      assert forall i :: 0 <= i < |init| ==> init[i] == options[i];
      NoVotesSumZero(init);
    }
  }

  /** No single counter exceeds the total. */
  lemma {:induction false} VotesAtMostSum(options: seq<PollOption>, k: int)
    requires 0 <= k < |options|
    ensures options[k].votes <= SumVotes(options)
  {
    var n := |options| - 1;
    if k < n {
      var init := options[..n];
      assert init[k] == options[k];
      VotesAtMostSum(init, k);
    }
  }

  /** A total below the u32 maximum leaves room for one more vote on any option. */
  lemma SumBelowMaxCanBump(options: seq<PollOption>, id: U8)
    requires SumVotes(options) < U32_MAX
    ensures CanBump(options, id)
  {
    forall i | 0 <= i < |options| && options[i].id == id
      ensures options[i].votes < U32_MAX
    {
      VotesAtMostSum(options, i);
    }
  }

  /** A vote for `id` adds one to the total for every option carrying `id`. */
  lemma {:induction false} BumpSum(options: seq<PollOption>, id: U8)
    requires CanBump(options, id)
    ensures SumVotes(Bump(options, id)) == SumVotes(options) + CountId(options, id)
  {
    if options != [] {
      var n := |options| - 1;
      var init := options[..n];
      assert forall i :: 0 <= i < |init| ==> init[i] == options[i];
      var r := Bump(options, id);
      assert r[..n] == Bump(init, id);
      BumpSum(init, id);
    }
  }

  /** When `id` resolves to option `k` alone, a vote for `id` is the old
      options with exactly that option's count raised by one. */
  lemma BumpSingle(options: seq<PollOption>, id: U8, k: int)
    requires CanBump(options, id)
    requires 0 <= k < |options| && options[k].id == id && CountId(options, id) == 1
    ensures options[k].votes < U32_MAX
    ensures Bump(options, id) == options[k := options[k].(votes := options[k].votes + 1)]
  {
    CountIdOne(options, id, k);
  }

  /** A vote changes no id, so it keeps ids sequential and every id
      resolves to as many options afterwards as before. */
  lemma {:induction false} BumpKeepsIds(options: seq<PollOption>, id: U8, x: int)
    requires CanBump(options, id)
    ensures Sequential(options) ==> Sequential(Bump(options, id))
    ensures CountId(Bump(options, id), x) == CountId(options, x)
  {
    if options != [] {
      var n := |options| - 1;
      var init := options[..n];
      assert forall i :: 0 <= i < |init| ==> init[i] == options[i];
      var r := Bump(options, id);
      assert r[..n] == Bump(init, id);
      BumpKeepsIds(init, id, x);
    }
  }
}
