# Strawsoll poll — a Dafny model

This project models the on-chain poll of the strawsoll voting program. The
program keeps one `Poll` record and offers two transitions:

- `init(labels)` fills the option list. There is one option per label, in
  input order. Ids come from a counter starting at 1, and every count starts
  at 0.
- `vote(vote_id, voter)` records one vote per voter key for the whole poll.

Every transition works by validate-then-commit. All checks run against the
unchanged record. A failed check returns one of three named errors
(`PollAlreadyFinished`, `PollOptionNotFound`, `UserAlreadyVoted`) and leaves
the record as it was.

Files:

- `poll_options.dfy` (module `PollOptions`) is the option registry. It
  holds `PollOption` with its `u8` id and `u32` count, and these pure
  helpers:
  - `Build`: the `map` with its running counter in `init`.
  - `Bump`: the per-option increment `map` in `vote`.
  - `CountId`: how many options carry an id.
  - `SumVotes`: the total number of votes.

  The file also holds the lemmas about these helpers.
- `poll.dfy` (module `Strawsoll`) holds the error enum, the 32-byte
  `Pubkey`, and the class `Poll` with fields `options`, `voters` and
  `finished`. Its methods `Init` and `Vote` reassign those fields, as the
  source's `&mut self` methods do. `Valid()` is the record's invariant:
  - ids are `1..N` in order;
  - no voter is recorded twice;
  - the total of the counts equals the number of recorded voters.

  The two `filter(..).len()` checks of `vote` are loops
  (`CountOptionsWithId`, `CountVoter`) proved against `CountId` and the
  multiset count of the ledger. `VoteOnValid`, `VoteAgain`, `Session` and
  `UnknownOption` are clients that state what follows for a sequence of
  calls.

`Poll::init` leaves `voters` as it is. The ledger is empty after
initialisation only because the host allocates a fresh, zeroed account
(programs/strawsoll/src/lib.rs:90), which the constructor of `Poll` models.
`Init` therefore re-establishes `Valid()` exactly when the ledger was
already empty, and its contract says so.

The source field `label` of an option is called `text` here, because
`label` is a reserved word in Dafny.

No transition ever sets `finished` to true. `Init` leaves it false on
success and unchanged on failure. `Vote` never changes it.

## Model

| member | source | states |
|---|---|---|
| `PollOptions.Build` | programs/strawsoll/src/lib.rs:40-53 | one option per label in input order: option i has label i, id `start + i + 1` (the counter is incremented before use) and zero votes |
| `PollOptions.BuildFresh` | programs/strawsoll/src/lib.rs:40-53 | options built from a counter at 0 have ids exactly 1..N in order and a total of zero votes |
| `PollOptions.Bump` | programs/strawsoll/src/lib.rs:64-75 | same length, order, labels and ids; every option whose id matches gains exactly one vote, every other count is kept |
| `PollOptions.BumpSum` | programs/strawsoll/src/lib.rs:64-75 | the vote total grows by the number of options carrying the voted id |
| `PollOptions.BumpSingle` | programs/strawsoll/src/lib.rs:60-75 | when the id resolves to option k alone, the result is the old options with only option k's count raised by one |
| `PollOptions.BumpKeepsIds` | programs/strawsoll/src/lib.rs:64-75 | incrementing keeps ids sequential and keeps how many options every id resolves to |
| `PollOptions.CountIdZero` | programs/strawsoll/src/lib.rs:60 | no option matches an id if and only if no option carries it |
| `PollOptions.CountIdOne` | programs/strawsoll/src/lib.rs:60 | with option k carrying the id, exactly one match if and only if no other option carries it |
| `PollOptions.DistinctCountAtMostOne` | programs/strawsoll/src/lib.rs:60 | with pairwise distinct ids, an id matches at most one option |
| `PollOptions.SequentialResolves` | programs/strawsoll/src/lib.rs:40-60 | ids 1..N are pairwise distinct, and an id passes the option check if and only if it lies in 1..N |
| `PollOptions.SumBelowMaxCanBump` | programs/strawsoll/src/lib.rs:24 | a vote total below the u32 maximum leaves room for one more vote on every option |
| `Strawsoll.CountOptionsWithId` | programs/strawsoll/src/lib.rs:60 | the loop's count equals the number of options carrying the id |
| `Strawsoll.CountVoter` | programs/strawsoll/src/lib.rs:61 | the loop's count is the key's multiplicity in the ledger, and it is zero exactly when the key is absent |
| `Strawsoll.CapacityPreventsOverflow` | programs/strawsoll/src/lib.rs:31 | a valid poll whose ledger is below its 50-key capacity cannot overflow a vote counter |
| `Strawsoll.Poll.constructor` | programs/strawsoll/src/lib.rs:90 | the freshly allocated account holds no options, no voters, is not finished and is valid |
| `Strawsoll.Poll.Init` | programs/strawsoll/src/lib.rs:38-56 | fails with PollAlreadyFinished and changes nothing when finished; otherwise options become the built options, the ledger is kept, finished is false, and the invariant holds if and only if the ledger was empty |
| `Strawsoll.Poll.Vote` | programs/strawsoll/src/lib.rs:58-78 | errors in priority order (finished, id not matched exactly once, voter already recorded); passes exactly when none applies; any failure leaves the whole record unchanged; success appends the voter and increments the matching option only; finished never changes; the total grows by one exactly on success; the invariant is preserved |
| `Strawsoll.VoteOnValid` | programs/strawsoll/src/lib.rs:58-78 | on a valid open poll: an id outside 1..N is not found, a recorded voter is refused, otherwise the voter is appended and only option id-1 gains one vote; failures change nothing; the poll stays valid and open |
| `Strawsoll.VoteAgain` | tests/strawsoll.ts:67-91 | after a successful vote, the same voter's second vote fails whatever id it names (UserAlreadyVoted when the id resolves) and the record stays as the first vote left it |
| `Strawsoll.Session` | tests/strawsoll.ts:15-91 | a fresh poll opened with Solana, Ethereum and Bitcoin holds options 1, 2, 3 with no votes; a first and a second voter each vote for 1 and pass; the second voter's repeat vote is refused as already voted; the final tally is 2, 0, 0 and the ledger holds both voters in order |
| `Strawsoll.UnknownOption` | programs/strawsoll/src/lib.rs:60 | after one passing vote on a two-option poll, a vote naming id 99 is refused as not found and leaves the tally 1, 0 and the ledger with the one voter |

## Left out

- The Anchor entry points and account contexts (`strawsoll::initialize`, `strawsoll::vote`, `Initialize`, `Vote`) and `declare_id!`. These are host dispatch, account allocation and signer checks. The voter key is a plain parameter here.
- Borsh encoding and the byte-size arithmetic behind `MAXIMUM_SIZE`. This is the storage layer's concern. Only the 50-voter capacity appears, in `CapacityPreventsOverflow`. The 5-option and 50-byte label limits are not enforced, just as the source does not enforce them. Labels are character sequences, and their byte length is not modelled.
- Strawsoll.Poll.Init: requires at most 255 labels. The `u8` id counter would overflow on the 256th label. That many labels cannot fit the account anyway.
- Strawsoll.Poll.Vote: requires, only for a vote that passes all three checks, that the options matching the id can take one more vote without leaving `u32`. A failing vote increments nothing and has no such requirement. Whether the source's increment would abort or wrap depends on the build profile, which is not part of this model. `CapacityPreventsOverflow` shows the requirement holds for every valid poll below its voter capacity.
- Strawsoll.VoteOnValid: requires a valid, open poll below its voter capacity. It restates `Vote` for that case and adds nothing `Vote` does not promise.
- Strawsoll.VoteAgain: requires a valid poll with room for two more voters. This keeps both calls inside `Vote`'s overflow requirement.
- Concurrency and transaction ordering. The host serialises access to the account, and each call is one sequential method.
- tests/strawsoll.ts is an RPC client with network I/O and logging. Only its scenarios appear, in `Session` and `VoteAgain`.
