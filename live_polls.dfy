/** Live polls: three fixed polls and a dictionary from poll id to the
    option the fan voted for. */
module LivePolls {

  datatype PollOption = PollOption(id: string, text: string, votes: nat, percentage: nat)

  datatype Poll = Poll(id: string, question: string, timeLeft: string, isLive: bool, options: seq<PollOption>)

  /** The polls on display, in order. */
  function ActivePolls(): seq<Poll> {
    [ Poll("motm", "Who should be Man of the Match so far?", "15:32", true,
           [ PollOption("lewandowski", "Lewandowski", 1245, 42),
             PollOption("pedri", "Pedri", 967, 33),
             PollOption("gavi", "Gavi", 523, 18),
             PollOption("araujo", "Araújo", 205, 7) ]),
      Poll("substitution", "Which substitution should Xavi make next?", "08:15", true,
           [ PollOption("raphinha", "Bring on Raphinha", 892, 48),
             PollOption("fermin", "Bring on Fermín", 567, 31),
             PollOption("defensive", "Defensive change", 234, 13),
             PollOption("no-change", "No changes needed", 145, 8) ]),
      Poll("prediction", "Final score prediction?", "Closed", false,
           [ PollOption("2-0", "2-0 Barça", 1567, 35),
             PollOption("3-1", "3-1 Barça", 1234, 28),
             PollOption("1-0", "1-0 Barça", 987, 22),
             PollOption("2-1", "2-1 Barça", 665, 15) ]) ]
  }

  /** `votes[pollId]` is truthy: a vote is recorded for the poll and it is
      not the empty string (which JavaScript treats as false). */
  predicate HasVote(votes: map<string, string>, pollId: string) {
    pollId in votes && votes[pollId] != ""
  }

  /** `handleVote(pollId, optionId)`: records the option unless the poll
      already has a vote. Every other poll's entry is kept. */
  function RecordVote(votes: map<string, string>, pollId: string, optionId: string): (r: map<string, string>)
    ensures HasVote(votes, pollId) ==> r == votes
    ensures !HasVote(votes, pollId) ==> pollId in r && r[pollId] == optionId
    ensures r.Keys == votes.Keys + {pollId}
    ensures forall p :: p in votes && p != pollId ==> r[p] == votes[p]
  {
    if HasVote(votes, pollId) then votes else votes[pollId := optionId]
  }

  /** The first vote is final: once an option is recorded, later votes for
      the same poll change nothing. */
  lemma FirstVoteIsFinal(votes: map<string, string>, pollId: string, first: string, later: string)
    requires first != ""
    ensures HasVote(RecordVote(votes, pollId, first), pollId)
    ensures RecordVote(RecordVote(votes, pollId, first), pollId, later) == RecordVote(votes, pollId, first)
  {
  }

  /** The vote button is enabled exactly when the poll is live and has no
      vote. (`handleVote` itself does not look at `isLive`.) An enabled
      button records whichever option is clicked; on a live poll, a button
      is disabled only when a click would change nothing anyway. */
  predicate VoteEnabled(poll: Poll, votes: map<string, string>): (enabled: bool)
    ensures enabled ==> poll.isLive && forall o :: RecordVote(votes, poll.id, o)[poll.id] == o
    ensures !enabled ==> !poll.isLive || forall o :: RecordVote(votes, poll.id, o) == votes
  {
    poll.isLive && !HasVote(votes, poll.id)
  }

  /** `poll.options.reduce((sum, option) => sum + option.votes, 0)`, a left
      fold over the options. Every option's count is part of the total, and
      the total is 0 only when no option has a vote. */
  function TotalVotes(options: seq<PollOption>): (t: nat)
    ensures forall i :: 0 <= i < |options| ==> options[i].votes <= t
    ensures t == 0 <==> forall i :: 0 <= i < |options| ==> options[i].votes == 0
  {
    if options == [] then 0 else TotalVotes(options[..|options| - 1]) + options[|options| - 1].votes
  }

  /** The total of two runs of options is the sum of their totals. */
  lemma {:induction false} TotalVotesAppend(a: seq<PollOption>, b: seq<PollOption>)
    ensures TotalVotes(a + b) == TotalVotes(a) + TotalVotes(b)
    decreases |b|
  {
    if b == [] {
      assert a + b == a;
    } else {
      assert (a + b)[..|a + b| - 1] == a + b[..|b| - 1];
      assert (a + b)[|a + b| - 1] == b[|b| - 1];
      TotalVotesAppend(a, b[..|b| - 1]);
    }
  }

  lemma TotalOfFour(options: seq<PollOption>)
    requires |options| == 4
    ensures TotalVotes(options) == options[0].votes + options[1].votes + options[2].votes + options[3].votes
  {
    var one, two, three := options[..1], options[..2], options[..3];
    assert one[..0] == [] && two[..1] == one && three[..2] == two && options[..3] == three;
    assert TotalVotes(one) == options[0].votes;
    assert TotalVotes(two) == options[0].votes + options[1].votes;
    assert TotalVotes(three) == TotalVotes(two) + options[2].votes;
  }

  /** The totals the three polls display. */
  lemma ActivePollTotals()
    ensures TotalVotes(ActivePolls()[0].options) == 2940
    ensures TotalVotes(ActivePolls()[1].options) == 1838
    ensures TotalVotes(ActivePolls()[2].options) == 4453
  {
    TotalOfFour(ActivePolls()[0].options);
    TotalOfFour(ActivePolls()[1].options);
    TotalOfFour(ActivePolls()[2].options);
  }

  function PollIds(polls: seq<Poll>): set<string> {
    set p | p in polls :: p.id
  }

  lemma {:induction false} PollIdsBound(polls: seq<Poll>)
    ensures |PollIds(polls)| <= |polls|
  {
    if polls != [] {
      PollIdsBound(polls[1..]);
      assert PollIds(polls) == PollIds(polls[1..]) + {polls[0].id};
    }
  }

  lemma {:induction false} SubsetSize(a: set<string>, b: set<string>)
    requires a <= b
    ensures |a| <= |b|
  {
    if a != {} {
      var x :| x in a;
      SubsetSize(a - {x}, b - {x});
    }
  }

  /** The poll component's state. */
  class Polls {
    var votes: map<string, string>

    /** Votes come only from the polls' own buttons. */
    ghost predicate Valid()
      reads this
    {
      votes.Keys <= PollIds(ActivePolls())
    }

    constructor ()
      ensures votes == map[] && Valid()
    {
      votes := map[];
    }

    method HandleVote(pollId: string, optionId: string)
      modifies this
      ensures votes == RecordVote(old(votes), pollId, optionId)
    {
      if !HasVote(votes, pollId) {
        votes := votes[pollId := optionId];
      }
    }

    /** A click on the vote button of option `optionIndex` of poll
        `pollIndex`: the disabled button does nothing; otherwise the vote is
        handled. The number of recorded votes never drops and never exceeds
        the number of polls. */
    method ClickVote(pollIndex: nat, optionIndex: nat)
      requires Valid()
      requires pollIndex < |ActivePolls()| && optionIndex < |ActivePolls()[pollIndex].options|
      modifies this
      ensures Valid()
      ensures var poll := ActivePolls()[pollIndex];
              votes == if VoteEnabled(poll, old(votes))
                       then RecordVote(old(votes), poll.id, poll.options[optionIndex].id)
                       else old(votes)
      ensures |old(votes)| <= |votes| <= |ActivePolls()|
    {
      var poll := ActivePolls()[pollIndex];
      if VoteEnabled(poll, votes) {
        HandleVote(poll.id, poll.options[optionIndex].id);
      }
      SubsetSize(old(votes).Keys, votes.Keys);
      SubsetSize(votes.Keys, PollIds(ActivePolls()));
      PollIdsBound(ActivePolls());
    }
  }
}
