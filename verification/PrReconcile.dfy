// `reconcile_pr_state`: one tick over the opened proposals, while webhooks, operators and
// other ticks may act between any two of its updates.
module PrReconcile {
  import opened Common
  import opened ProposalLifecycle

  // What polling one candidate comes to.
  datatype Answer =
    | Unparseable
    | NoConfigRepo
    | NoToken
    | RequestError
    | RateLimited
    | ErrorStatus
    | Payload(merged: bool, closed: bool, mergedAt: Option<int>)

  datatype Summary = Summary(candidates: nat, reconciled: nat, untouched: nat, errored: nat, rateLimited: nat)

  const SECONDS_PER_DAY := 24 * 60 * 60

  // A selected row and the pull-request state it was selected in.
  datatype Candidate = Candidate(i: nat, selectedClosed: bool)

  // The WHERE clause of the candidate query; `young`: created within the last 90 days.
  predicate Selected(p: Proposal, now: int, young: bool) {
    && p.status == PrOpened && young
    && !(p.pr == Some(Closed) && p.polledAt.Some? && p.polledAt.value > now - SECONDS_PER_DAY)
  }

  function Candidates(proposals: seq<Proposal>, now: int, young: nat -> bool): (r: seq<Candidate>)
    ensures forall c :: c in r ==> c.i < |proposals| && Selected(proposals[c.i], now, young(c.i))
                                   && (c.selectedClosed <==> proposals[c.i].pr == Some(Closed))
    ensures forall j, k :: 0 <= j < k < |r| ==> r[j].i < r[k].i
  {
    if proposals == [] then []
    else
      var last := |proposals| - 1;
      var rest := Candidates(proposals[..last], now, young);
      if Selected(proposals[last], now, young(last))
      then rest + [Candidate(last, proposals[last].pr == Some(Closed))] else rest
  }

  // The query misses no row: exactly the selected ones are candidates.
  lemma {:induction false} CandidatesAreAll(proposals: seq<Proposal>, now: int, young: nat -> bool, i: nat)
    requires i < |proposals|
    ensures Selected(proposals[i], now, young(i)) <==>
            Candidate(i, proposals[i].pr == Some(Closed)) in Candidates(proposals, now, young)
  {
    var last := |proposals| - 1;
    if i < last {
      CandidatesAreAll(proposals[..last], now, young, i);
    } else {
      var rest := Candidates(proposals[..last], now, young);
      assert forall c :: c in rest ==> c.i < last;
    }
  }

  // A closed row is polled again once its stamp is a day old, and not before.
  lemma StampedRowsRestForADay(p: Proposal, stampedAt: int, now: int)
    requires IsClosed(p)
    ensures Selected(p.(polledAt := Some(stampedAt)), now, true) <==> now >= stampedAt + SECONDS_PER_DAY
  {
  }

  // Polls stamp with a clock that has reached t.
  predicate StampsFrom(events: seq<Event>, t: int) {
    forall i :: 0 <= i < |events| && events[i].PollClosed? ==> events[i].now >= t
  }

  predicate StampedFrom(s: State, i: nat, t: int) {
    i < |s.proposals| && s.proposals[i].polledAt.Some? && s.proposals[i].polledAt.value >= t
  }

  lemma StampStays(s: State, e: Event, i: nat, t: int)
    requires StampedFrom(s, i, t) && Step(s, e).Some? && (e.PollClosed? ==> e.now >= t)
    ensures StampedFrom(Step(s, e).value, i, t)
  {
  }

  lemma {:induction false} StampsStay(s: State, events: seq<Event>, i: nat, t: int)
    requires StampedFrom(s, i, t) && Run(s, events).Some? && StampsFrom(events, t)
    ensures StampedFrom(Run(s, events).value, i, t)
    decreases |events|
  {
    hide Step, StampedFrom;
    if events != [] {
      var last := |events| - 1;
      StampsStay(s, events[..last], i, t);
      StampStays(Run(s, events[..last]).value, events[last], i, t);
    }
  }

  // A closed row is asked about at most once a day: after the poll that stamps it at t, and
  // whatever happens to it meanwhile, no tick within a day of t finds it closed and polls it.
  lemma StampedRowsRest(s: State, i: nat, t: int, events: seq<Event>, now: int, young: nat -> bool)
    requires i < |s.proposals| && IsClosed(s.proposals[i])
    requires Run(Step(s, PollClosed(i, true, t)).value, events).Some? && StampsFrom(events, t)
    requires now < t + SECONDS_PER_DAY
    ensures Candidate(i, true) !in Candidates(Run(Step(s, PollClosed(i, true, t)).value, events).value.proposals, now, young)
  {
    var stamped := Step(s, PollClosed(i, true, t)).value;
    assert StampedFrom(stamped, i, t);
    StampsStay(stamped, events, i, t);
    hide Step, Run, Candidates;
  }

  class ProposalTable {
    var proposals: seq<Proposal>
    var pointers: map<nat, nat>
    var requests: seq<Request>

    constructor ()
      ensures View() == INIT
    {
      proposals, pointers, requests := [], map[], [];
    }

    function View(): State
      reads this
    {
      State(proposals, pointers, requests)
    }

    // Everybody else takes the steps of `events` that are possible.
    method Others(events: seq<Event>) returns (ghost trace: seq<Event>)
      modifies this
      ensures Run(old(View()), trace) == Some(View()) && |proposals| >= |old(proposals)|
      ensures events == [] ==> trace == []
    {
      hide Step;
      trace := [];
      ghost var start := View();
      for k := 0 to |events|
        invariant Run(start, trace) == Some(View()) && |proposals| >= |start.proposals|
        invariant events == [] ==> trace == []
      {
        var next := Step(View(), events[k]);
        if next.Some? {
          ghost var before := View();
          RowsStay(before, events[k]);
          proposals, pointers, requests := next.value.proposals, next.value.pointers, next.value.requests;
          trace := RunSnoc(start, trace, before, events[k], View());
        }
      }
    }

    // `update_config_repo_last_merged_pointer`, after the row has been updated.
    method UpdatePointer(i: nat, at: int)
      requires i < |proposals|
      modifies `pointers
      ensures pointers == Pointed(old(View()), i, at)
    {
      var r := proposals[i].repo;
      if r.None? {
        return;
      }
      var write := true;
      if r.value in pointers {
        var j := pointers[r.value];
        if j < |proposals| && proposals[j].mergedAt.Some? {
          write := at > proposals[j].mergedAt.value;
        }
      }
      if write {
        pointers := pointers[r.value := i];
      }
    }

    // Merged, with the WHERE clause for the state the row was selected in.
    method ObserveMerge(c: Candidate, at: int) returns (updated: bool)
      requires c.i < |proposals|
      modifies this
      ensures updated <==> if c.selectedClosed then IsClosed(old(proposals)[c.i]) else IsOpen(old(proposals)[c.i])
      ensures Step(old(View()), PollMerged(c.i, c.selectedClosed, at)) == Some(View())
      ensures Obeys(old(View()), View(), c, Payload(true, true, Some(at)), 0)
    {
      updated := if c.selectedClosed then IsClosed(proposals[c.i]) else IsOpen(proposals[c.i]);
      if updated {
        proposals := proposals[c.i := proposals[c.i].(status := PrMerged, pr := Some(Merged), mergedAt := Some(at))];
        UpdatePointer(c.i, at);
      }
    }

    // Closed without a merge: a stamp for a row selected as closed, else the close itself.
    method ObserveClose(c: Candidate, now: int) returns (updated: bool)
      requires c.i < |proposals|
      modifies this
      ensures updated <==> !c.selectedClosed && IsOpen(old(proposals)[c.i])
      ensures Step(old(View()), PollClosed(c.i, c.selectedClosed, now)) == Some(View())
      ensures Obeys(old(View()), View(), c, Payload(false, true, None), now)
    {
      updated := false;
      if c.selectedClosed {
        if IsClosed(proposals[c.i]) {
          proposals := proposals[c.i := proposals[c.i].(polledAt := Some(now))];
        }
      } else if IsOpen(proposals[c.i]) {
        proposals := proposals[c.i := proposals[c.i].(pr := Some(Closed))];
        updated := true;
      }
    }

    // What one answer of GitHub makes the tick do.
    method Observe(c: Candidate, answer: Answer, now: int) returns (outcome: Outcome, ghost own: seq<Event>)
      requires c.i < |proposals|
      modifies this
      ensures Run(old(View()), own) == Some(View())
      ensures OnePoll(old(View()), own, View(), outcome, c, answer, now) && |proposals| == |old(proposals)|
    {
      own := [];
      ghost var before := View();
      EmptyRun(before);
      match answer {
        case RateLimited =>
          outcome := Limited;
        case Payload(merged, closed, mergedAt) =>
          var updated := false;
          if merged && mergedAt.Some? {
            updated := ObserveMerge(c, mergedAt.value);
            own := RunSnoc(before, own, before, PollMerged(c.i, c.selectedClosed, mergedAt.value), View());
          } else if closed {
            updated := ObserveClose(c, now);
            own := RunSnoc(before, own, before, PollClosed(c.i, c.selectedClosed, now), View());
          }
          outcome := if updated then Reconciled else Untouched;
        case _ =>
          outcome := Errored;
      }
    }

    // One tick. The candidates are polled in their order, all of them unless a rate limit ends
    // the tick. Each poll does exactly what the answer calls for, whatever the others did before
    // it; the summary counts what came of the polls.
    method ReconcilePrState(now: int, young: nat -> bool, answers: nat -> Answer, others: nat -> seq<Event>)
      returns (summary: Summary, ghost polls: seq<Poll>, ghost outcomes: seq<Outcome>)
      modifies this
      ensures Linked(old(View()), polls) && View() == LeftBy(old(View()), polls)
      ensures Run(old(View()), Woven(polls)) == Some(View())
      ensures Polled(polls, outcomes, Candidates(old(proposals), now, young), answers, now)
      ensures forall k :: 0 <= k < |outcomes| && outcomes[k].Limited? ==> k == |outcomes| - 1
      ensures |outcomes| == |Candidates(old(proposals), now, young)| || (outcomes != [] && outcomes[|outcomes| - 1].Limited?)
      ensures summary == Tally(|Candidates(old(proposals), now, young)|, multiset(outcomes))
      ensures Undisturbed(others) ==>
                Settled(old(View()), View(), Candidates(old(proposals), now, young), |polls|, answers, now)
      ensures Undisturbed(others) && Inv(old(View())) ==> Inv(View())
    {
      hide Step, Run, Issues, Obeys, OnePoll, Linked, Polled, Quiet, Inv, Settled, Selected, Candidates, Woven, Counts, Tally, Counted, Undisturbed;
      ghost var start := View();
      NoPolls(start, Candidates(proposals, now, young), answers, now);
      var candidates := Candidates(proposals, now, young);
      summary := Summary(|candidates|, 0, 0, 0, 0);
      polls, outcomes := [], [];
      for k := 0 to |candidates|
        invariant |polls| == |outcomes| == k && |proposals| >= |start.proposals|
        invariant Linked(start, polls) && View() == LeftBy(start, polls)
        invariant Polled(polls, outcomes, candidates, answers, now)
        invariant Limited !in outcomes && summary == Tally(|candidates|, multiset(outcomes))
        invariant Undisturbed(others) ==> Quiet(polls)
      {
        QuietAt(others, k);
        ghost var meanwhile := Others(others(k));
        ghost var found := View();
        ghost var own: seq<Event>;
        var outcome: Outcome;
        outcome, own := Observe(candidates[k], answers(k), now);
        ghost var poll := Poll(meanwhile, found, own, View());
        NextPoll(start, polls, outcomes, candidates, answers, now, poll, outcome);
        TallySnoc(|candidates|, outcomes, outcome);
        summary := Counted(summary, outcome);
        polls, outcomes := polls + [poll], outcomes + [outcome];
        if outcome.Limited? {
          break;
        }
      }
      WovenRuns(start, polls);
      if Undisturbed(others) {
        QuietTick(start, polls, outcomes, candidates, answers, now);
        QuietKeepsInv(start, polls, outcomes, candidates, answers, now);
      }
    }
  }

  // ---------------------------------------------------------------------------
  // One poll
  // ---------------------------------------------------------------------------

  datatype Outcome = Reconciled | Untouched | Errored | Limited

  // What the others did before a poll, what the poll found, its own update and what it left.
  datatype Poll = Poll(meanwhile: seq<Event>, found: State, own: seq<Event>, left: State)

  predicate MergeSeen(a: Answer) { a.Payload? && a.merged && a.mergedAt.Some? }

  // Also a merge whose time GitHub does not tell yet.
  predicate CloseSeen(a: Answer) { a.Payload? && a.closed && !(a.merged && a.mergedAt.Some?) }

  predicate IsError(a: Answer) { !a.Payload? && !a.RateLimited? }

  // A merge with its time is written as a merge, any other closed pull request as a close, and
  // nothing else is written.
  predicate Issues(own: seq<Event>, c: Candidate, a: Answer, now: int) {
    && (MergeSeen(a) ==> own == [PollMerged(c.i, c.selectedClosed, a.mergedAt.value)])
    && (CloseSeen(a) ==> own == [PollClosed(c.i, c.selectedClosed, now)])
    && (!MergeSeen(a) && !CloseSeen(a) ==> own == [])
  }

  // The row still has the pull-request state it was selected in.
  predicate StillSelected(p: Proposal, c: Candidate) {
    p.status == PrOpened && p.pr == Some(if c.selectedClosed then Closed else Open)
  }

  // The row after the poll.
  predicate RowObeys(p: Proposal, q: Proposal, c: Candidate, a: Answer, now: int) {
    && (MergeSeen(a) && StillSelected(p, c) ==> q == Proposal(PrMerged, Some(Merged), a.mergedAt, p.polledAt, p.repo))
    && (CloseSeen(a) && StillSelected(p, c) && c.selectedClosed ==> q == p.(polledAt := Some(now)))
    && (CloseSeen(a) && StillSelected(p, c) && !c.selectedClosed ==> q == p.(pr := Some(Closed)))
    && (!StillSelected(p, c) || !(MergeSeen(a) || CloseSeen(a)) ==> q == p)
  }

  // The pointer of repo r names a row that was merged at `at` or later.
  predicate PointsAsNew(s: State, r: nat, at: int) {
    && r in s.pointers && s.pointers[r] < |s.proposals|
    && s.proposals[s.pointers[r]].mergedAt.Some? && s.proposals[s.pointers[r]].mergedAt.value >= at
  }

  // Pointers after a merge of row i at `at`: that of its repo names it unless it named a row
  // merged then or later; all others stay.
  ghost predicate PointersObey(s: State, t: State, i: nat, at: int)
    requires i < |s.proposals|
  {
    var repo := s.proposals[i].repo;
    && (forall r: nat :: Some(r) != repo ==> (r in t.pointers <==> r in s.pointers))
    && (forall r: nat :: Some(r) != repo && r in s.pointers ==> t.pointers[r] == s.pointers[r])
    && (repo.Some? ==> repo.value in t.pointers
                       && t.pointers[repo.value] == if PointsAsNew(s, repo.value, at) then s.pointers[repo.value] else i)
  }

  // A poll writes the row of its candidate, the pointer only with a merge, and nothing else.
  ghost predicate Obeys(s: State, t: State, c: Candidate, a: Answer, now: int) {
    && |t.proposals| == |s.proposals| && t.requests == s.requests && c.i < |s.proposals|
    && RowObeys(s.proposals[c.i], t.proposals[c.i], c, a, now)
    && (forall i :: 0 <= i < |s.proposals| && i != c.i ==> t.proposals[i] == s.proposals[i])
    && if MergeSeen(a) && StillSelected(s.proposals[c.i], c) then PointersObey(s, t, c.i, a.mergedAt.value) else t.pointers == s.pointers
  }

  // Reconciled is what moved the row through its lifecycle; a stamp does not.
  predicate Counts(o: Outcome, p: Proposal, q: Proposal, a: Answer) {
    && (o.Reconciled? <==> (q.status, q.pr) != (p.status, p.pr))
    && (o.Errored? <==> IsError(a))
    && (o.Limited? <==> a.RateLimited?)
  }

  function Tally(candidates: nat, outcomes: multiset<Outcome>): Summary {
    Summary(candidates, outcomes[Reconciled], outcomes[Untouched], outcomes[Errored], outcomes[Limited])
  }

  function Counted(s: Summary, o: Outcome): Summary {
    match o
    case Reconciled => s.(reconciled := s.reconciled + 1)
    case Untouched => s.(untouched := s.untouched + 1)
    case Errored => s.(errored := s.errored + 1)
    case Limited => s.(rateLimited := s.rateLimited + 1)
  }

  // ---------------------------------------------------------------------------
  // One tick
  // ---------------------------------------------------------------------------

  function LeftBy(start: State, polls: seq<Poll>): State { if polls == [] then start else polls[|polls| - 1].left }

  // Each poll starts from what the one before it and then the others have left.
  predicate Linked(start: State, polls: seq<Poll>) {
    polls != [] ==>
      var init, last := polls[..|polls| - 1], polls[|polls| - 1];
      && Linked(start, init)
      && Run(LeftBy(start, init), last.meanwhile) == Some(last.found)
      && Run(last.found, last.own) == Some(last.left)
  }

  function Woven(polls: seq<Poll>): seq<Event> {
    if polls == [] then [] else Woven(polls[..|polls| - 1]) + polls[|polls| - 1].meanwhile + polls[|polls| - 1].own
  }

  // Poll k is that of candidate k and does what its answer calls for.
  ghost predicate Polled(polls: seq<Poll>, outcomes: seq<Outcome>, candidates: seq<Candidate>, answers: nat -> Answer, now: int) {
    && |polls| == |outcomes| <= |candidates|
    && forall k {:trigger polls[k]} :: 0 <= k < |polls| ==> OnePoll(polls[k].found, polls[k].own, polls[k].left, outcomes[k], candidates[k], answers(k), now)
  }

  ghost predicate OnePoll(s: State, own: seq<Event>, t: State, o: Outcome, c: Candidate, a: Answer, now: int) {
    && Issues(own, c, a, now) && Obeys(s, t, c, a, now)
    && Counts(o, s.proposals[c.i], t.proposals[c.i], a)
  }

  ghost predicate Undisturbed(others: nat -> seq<Event>) { forall k: nat :: others(k) == [] }

  lemma QuietAt(others: nat -> seq<Event>, k: nat)
    ensures Undisturbed(others) ==> others(k) == []
  {
  }

  predicate Quiet(polls: seq<Poll>) { forall k :: 0 <= k < |polls| ==> polls[k].meanwhile == [] }

  // Every candidate that was polled is where its answer puts it, every other row where it was.
  ghost predicate Settled(s: State, t: State, candidates: seq<Candidate>, polled: nat, answers: nat -> Answer, now: int) {
    && |t.proposals| == |s.proposals| && t.requests == s.requests && polled <= |candidates|
    && (forall k :: 0 <= k < polled ==> candidates[k].i < |s.proposals|)
    && (forall k :: 0 <= k < polled ==>
                      RowObeys(s.proposals[candidates[k].i], t.proposals[candidates[k].i], candidates[k], answers(k), now))
    && (forall i :: 0 <= i < |s.proposals| && (forall k :: 0 <= k < polled ==> candidates[k].i != i) ==> t.proposals[i] == s.proposals[i])
  }

  lemma NoPolls(start: State, candidates: seq<Candidate>, answers: nat -> Answer, now: int)
    ensures Linked(start, []) && LeftBy(start, []) == start && Polled([], [], candidates, answers, now) && Quiet([])
    ensures Tally(|candidates|, multiset([])) == Summary(|candidates|, 0, 0, 0, 0)
  {
  }

  lemma NextPoll(start: State, polls: seq<Poll>, outcomes: seq<Outcome>, candidates: seq<Candidate>, answers: nat -> Answer, now: int,
                 poll: Poll, o: Outcome)
    requires Linked(start, polls) && Run(LeftBy(start, polls), poll.meanwhile) == Some(poll.found) && Run(poll.found, poll.own) == Some(poll.left)
    requires Polled(polls, outcomes, candidates, answers, now) && |polls| < |candidates|
    requires OnePoll(poll.found, poll.own, poll.left, o, candidates[|polls|], answers(|polls|), now)
    ensures Linked(start, polls + [poll]) && LeftBy(start, polls + [poll]) == poll.left
    ensures Polled(polls + [poll], outcomes + [o], candidates, answers, now)
    ensures Quiet(polls + [poll]) <==> Quiet(polls) && poll.meanwhile == []
  {
    LinkedSnoc(start, polls, poll);
    PolledSnoc(polls, outcomes, candidates, answers, now, poll, o);
    QuietSnoc(polls, poll);
  }

  lemma TallySnoc(n: nat, outcomes: seq<Outcome>, o: Outcome)
    ensures Counted(Tally(n, multiset(outcomes)), o) == Tally(n, multiset(outcomes + [o]))
  {
  }

  lemma LinkedSnoc(start: State, polls: seq<Poll>, poll: Poll)
    requires Linked(start, polls) && Run(LeftBy(start, polls), poll.meanwhile) == Some(poll.found) && Run(poll.found, poll.own) == Some(poll.left)
    ensures Linked(start, polls + [poll]) && LeftBy(start, polls + [poll]) == poll.left
  {
    assert (polls + [poll])[..|polls|] == polls;
  }

  lemma PolledSnoc(polls: seq<Poll>, outcomes: seq<Outcome>, candidates: seq<Candidate>, answers: nat -> Answer, now: int, poll: Poll, o: Outcome)
    requires Polled(polls, outcomes, candidates, answers, now) && |polls| < |candidates|
    requires OnePoll(poll.found, poll.own, poll.left, o, candidates[|polls|], answers(|polls|), now)
    ensures Polled(polls + [poll], outcomes + [o], candidates, answers, now)
  {
    hide OnePoll;
  }

  lemma QuietSnoc(polls: seq<Poll>, poll: Poll)
    ensures Quiet(polls + [poll]) <==> Quiet(polls) && poll.meanwhile == []
  {
    var more := polls + [poll];
    assert more[|polls|] == poll && forall k :: 0 <= k < |polls| ==> more[k] == polls[k];
  }

  lemma {:induction false} WovenRuns(start: State, polls: seq<Poll>)
    requires Linked(start, polls)
    ensures Run(start, Woven(polls)) == Some(LeftBy(start, polls))
  {
    hide Step;
    if polls == [] {
      EmptyRun(start);
    } else {
      var init, last := polls[..|polls| - 1], polls[|polls| - 1];
      WovenRuns(start, init);
      Composed(start, Woven(init), last.meanwhile);
      Composed(start, Woven(init) + last.meanwhile, last.own);
    }
  }

  // A tick nobody disturbs leaves every polled row where its answer puts it.
  lemma {:induction false} QuietTick(start: State, polls: seq<Poll>, outcomes: seq<Outcome>, candidates: seq<Candidate>, answers: nat -> Answer, now: int)
    requires Linked(start, polls) && Quiet(polls) && Polled(polls, outcomes, candidates, answers, now)
    requires forall j, k :: 0 <= j < k < |candidates| ==> candidates[j].i < candidates[k].i
    ensures Settled(start, LeftBy(start, polls), candidates, |polls|, answers, now)
  {
    if polls != [] {
      var n := |polls| - 1;
      var init, last := polls[..n], polls[n];
      assert Polled(init, outcomes[..n], candidates, answers, now);
      QuietTick(start, init, outcomes[..n], candidates, answers, now);
      assert last.meanwhile == [];
      EmptyRun(LeftBy(start, init));
      assert OnePoll(last.found, last.own, last.left, outcomes[n], candidates[n], answers(n), now);
      SettledSnoc(start, last.found, last.left, candidates, n, answers, now);
    }
  }

  lemma SettledSnoc(s: State, t: State, u: State, candidates: seq<Candidate>, n: nat, answers: nat -> Answer, now: int)
    requires n < |candidates| && Settled(s, t, candidates, n, answers, now) && Obeys(t, u, candidates[n], answers(n), now)
    requires forall j, k :: 0 <= j < k < |candidates| ==> candidates[j].i < candidates[k].i
    ensures Settled(s, u, candidates, n + 1, answers, now)
  {
    hide RowObeys, PointersObey;
  }

  // And keeps the rows consistent and every pointer at the newest merge.
  lemma {:induction false} QuietKeepsInv(start: State, polls: seq<Poll>, outcomes: seq<Outcome>, candidates: seq<Candidate>, answers: nat -> Answer, now: int)
    requires Linked(start, polls) && Quiet(polls) && Polled(polls, outcomes, candidates, answers, now)
    ensures Inv(start) ==> Inv(LeftBy(start, polls))
  {
    hide Inv;
    if polls != [] {
      var n := |polls| - 1;
      var init, last := polls[..n], polls[n];
      assert Polled(init, outcomes[..n], candidates, answers, now);
      QuietKeepsInv(start, init, outcomes[..n], candidates, answers, now);
      assert last.meanwhile == [];
      EmptyRun(LeftBy(start, init));
      assert OnePoll(last.found, last.own, last.left, outcomes[n], candidates[n], answers(n), now);
      OwnKeepsInv(last.found, last.own, candidates[n], answers(n), now);
    }
  }

  lemma OwnKeepsInv(s: State, own: seq<Event>, c: Candidate, a: Answer, now: int)
    requires Issues(own, c, a, now) && Run(s, own).Some?
    ensures Inv(s) ==> Inv(Run(s, own).value)
  {
    EmptyRun(s);
    hide Step, Inv;
    if own != [] {
      assert own[..0] == [] && Run(s, own) == Step(s, own[0]);
      if Inv(s) { StepKeepsInvIff(s, own[0]); }
    }
  }

  lemma RowsStay(s: State, e: Event)
    requires Step(s, e).Some?
    ensures |Step(s, e).value.proposals| >= |s.proposals|
  {
  }

  lemma EmptyRun(s: State)
    ensures Run(s, []) == Some(s)
  {
  }

  lemma {:induction false} Composed(s: State, a: seq<Event>, b: seq<Event>)
    requires Run(s, a).Some?
    ensures Run(s, a + b) == Run(Run(s, a).value, b)
    decreases |b|
  {
    hide Step;
    if b == [] {
      assert a + b == a;
    } else {
      var c, last := a + b, |b| - 1;
      Composed(s, a, b[..last]);
      assert c[..|c| - 1] == a + b[..last] && c[|c| - 1] == b[last];
    }
  }

  lemma Joined(start: State, a: seq<Event>, middle: State, b: seq<Event>, end: State) returns (c: seq<Event>)
    requires Run(start, a) == Some(middle) && Run(middle, b) == Some(end)
    ensures c == a + b && Run(start, c) == Some(end)
  {
    Composed(start, a, b);
    c := a + b;
  }
}
