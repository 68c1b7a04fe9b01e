/**
  * `bridgeWitnessQuorum` of `apps/janjanode/src/main.ts`: how a replica that cannot reach the primary collects
  * the votes of the bridges. All bridges are asked whether they see the primary; one that does ends the
  * attempt; only then are the absent ones asked for their votes, one after another.
  */
module WitnessCollection {
  import opened Community
  import opened Quorums
  import opened BridgeLedger
  import opened Bridge
  import opened HostWriter
  import opened HostService

  /** A primary's record as a bridge handed it out at `at`. */
  datatype Handout = Handout(record: HostRecord, at: int)

  /** A `witness.primary` request: the replica's proof, which all bridges are sent. */
  datatype Ask = Ask(host: HostId, nonce: string, primary: HostId, issuedAt: int)

  /** The answer to it. */
  datatype WitnessMsg = WitnessMsg(nonce: string, seen: AbsenceWitness)

  /** A `promotion.claim` request. */
  datatype ClaimMsg = ClaimMsg(bridge: BridgeId, requestId: string, seen: AbsenceWitness)

  /** `order` holds the bridges yet to be asked for their votes, `claim` the request that waits for an answer. */
  datatype Campaign =
    | Idle
    | Asking(ask: Ask, record: HostRecord, answers: map<BridgeId, AbsenceWitness>)
    | Voting(record: HostRecord, absent: map<BridgeId, AbsenceWitness>, order: seq<BridgeId>, claim: Option<ClaimMsg>,
             votes: map<BridgeId, Receipt>)

  /** The outcome of one claim. */
  datatype ClaimReply = VoteGranted(receipt: Receipt) | VoteConflict | VoteUnavailable

  /** What happens to a replica's attempt. */
  datatype CampaignEvent =
    | AskBridges(record: HostRecord, nonce: string)
    | WitnessArrives(message: WitnessMsg)
    | AskingEnds(order: seq<BridgeId>)
    | ClaimNext(requestId: string)
    | ReplyArrives(reply: ClaimReply)
    | GiveUp

  const RESOLVE_TIMEOUT_MS := 4_000
  const ASK_FRESHNESS_MS := 10_000
  const WITNESS_TTL_MS := 5_000
  const ABSENCE_SPREAD_MS := 10_000

  // ---------------------------------------------------------------- asking for witnesses

  /** `validateBridgeWitnessResponse` for the answer to this request. */
  predicate WitnessFits(m: WitnessMsg, ask: Ask, server: string, record: HostRecord, now: int) {
    var w := m.seen;
    && m.nonce == ask.nonce && w.signer == w.bridge && w.server == server && w.replica == ask.host
    && w.primary == record.hostId && w.primaryHash == HashOf(record) && w.primaryEpoch == record.epoch
    && now < w.expiresAt <= w.observedAt + WITNESS_FRESHNESS_MS
    && -WITNESS_FRESHNESS_MS <= now - w.observedAt <= WITNESS_FRESHNESS_MS
  }

  /** The first answer of a bridge counts. */
  function HearWitness(c: Campaign, m: WitnessMsg, server: string, bridges: set<BridgeId>, now: int): Campaign {
    if !c.Asking? || !WitnessFits(m, c.ask, server, c.record, now) || m.seen.bridge !in bridges || m.seen.bridge in c.answers then c
    else c.(answers := c.answers[m.seen.bridge := m.seen])
  }

  predicate NoneOnline(answers: map<BridgeId, AbsenceWitness>) { forall b | b in answers :: !answers[b].primaryOnline }

  predicate Together(answers: map<BridgeId, AbsenceWitness>) {
    forall b, c | b in answers && c in answers :: answers[b].observedAt - answers[c].observedAt <= ABSENCE_SPREAD_MS
  }

  /** No bridge sees the primary, a strict majority misses it, and they observed that within ten seconds. */
  predicate AllMiss(bridges: set<BridgeId>, answers: map<BridgeId, AbsenceWitness>) {
    2 <= |bridges| <= 3 && StrictMajority(answers.Keys, bridges) && NoneOnline(answers) && Together(answers)
  }

  predicate Enumerates(order: seq<BridgeId>, ids: set<BridgeId>) {
    |order| == |ids| && forall i | 0 <= i < |order| :: order[i] in ids && order[i] !in order[..i]
  }

  /** Every bridge has answered or timed out. */
  function CloseAsking(c: Campaign, bridges: set<BridgeId>, order: seq<BridgeId>): Campaign {
    if c.Asking? && AllMiss(bridges, c.answers) && Enumerates(order, c.answers.Keys)
    then Voting(c.record, c.answers, order, None, map[])
    else Idle
  }

  // ---------------------------------------------------------------- claiming votes

  /** The next bridge in order is sent its own witness back. */
  function SendClaim(c: Campaign, requestId: string): Campaign {
    if !c.Voting? || c.claim.Some? || c.order == [] || c.order[0] !in c.absent then c
    else c.(order := c.order[1..], claim := Some(ClaimMsg(c.order[0], requestId, c.absent[c.order[0]])))
  }

  /** The checks of `claimPromotionVoteAtBridge`. */
  predicate ReceiptFits(r: Receipt, m: ClaimMsg, server: string, now: int) {
    && r.signer == m.bridge && r.bridge == m.bridge && r.requestId == m.requestId && r.server == server
    && r.candidate == m.seen.replica && r.primary == m.seen.primary && r.primaryHash == m.seen.primaryHash
    && r.primaryEpoch == m.seen.primaryEpoch && r.electionEpoch == m.seen.primaryEpoch + 1
    && r.voteGrantedAt <= r.issuedAt <= now + 5_000 && now < r.expiresAt <= r.issuedAt + RECEIPT_TTL_MS
  }

  /** A conflict ends the attempt; a bridge that does not answer is passed over. */
  function HearReply(c: Campaign, reply: ClaimReply, server: string, now: int): Campaign {
    if !c.Voting? || c.claim.None? then c
    else
      match reply
      case VoteConflict => c.(claim := None, order := [])
      case VoteUnavailable => c.(claim := None)
      case VoteGranted(r) =>
        if ReceiptFits(r, c.claim.value, server, now) then c.(claim := None, votes := c.votes[c.claim.value.bridge := r]) else c.(claim := None)
  }

  /** The votes of a finished attempt. */
  predicate Concludes(c: Campaign, votes: set<Receipt>) {
    c.Voting? && c.order == [] && c.claim.None? && votes == c.votes.Values
  }

  // ---------------------------------------------------------------- the whole attempt

  function ReplyOf(replies: map<BridgeId, ClaimReply>, b: BridgeId): ClaimReply {
    if b in replies then replies[b] else VoteUnavailable
  }

  /** The votes so far with those that asking the bridges in this order adds. */
  function VotesFrom(votes: map<BridgeId, Receipt>, order: seq<BridgeId>, replies: map<BridgeId, ClaimReply>): map<BridgeId, Receipt>
    decreases |order|
  {
    if order == [] then votes
    else
      match ReplyOf(replies, order[0])
      case VoteConflict => votes
      case VoteUnavailable => VotesFrom(votes, order[1..], replies)
      case VoteGranted(r) => VotesFrom(votes[order[0] := r], order[1..], replies)
  }

  /** An attempt that hears these replies to its claims, one after another. */
  function Driven(c: Campaign, ids: seq<string>, replies: map<BridgeId, ClaimReply>, server: string, now: int): Campaign
    requires c.Voting? ==> |c.order| <= |ids|
    decreases |ids|
  {
    if !c.Voting? || c.claim.Some? || c.order == [] || c.order[0] !in c.absent then c
    else Driven(HearReply(SendClaim(c, ids[0]), ReplyOf(replies, c.order[0]), server, now), ids[1..], replies, server, now)
  }

  /** A granted reply is to the claim it answers; `claimPromotionVoteAtBridge` lets no other through. */
  predicate RepliesFit(order: seq<BridgeId>, absent: map<BridgeId, AbsenceWitness>, ids: seq<string>, replies: map<BridgeId, ClaimReply>,
                       server: string, now: int)
    requires |order| <= |ids|
  {
    forall i | 0 <= i < |order| && order[i] in absent && ReplyOf(replies, order[i]).VoteGranted? ::
      ReceiptFits(ReplyOf(replies, order[i]).receipt, ClaimMsg(order[i], ids[i], absent[order[i]]), server, now)
  }

  /** Event by event the attempt ends with the votes the loop collects. */
  lemma {:induction false} CampaignCollects(c: Campaign, ids: seq<string>, replies: map<BridgeId, ClaimReply>, server: string, now: int)
    requires c.Voting? && c.claim.None? && |c.order| <= |ids| && (forall b | b in c.order :: b in c.absent)
    requires RepliesFit(c.order, c.absent, ids, replies, server, now)
    ensures var d := Driven(c, ids, replies, server, now);
      d.Voting? && d.claim.None? && d.order == [] && d.absent == c.absent && d.votes == VotesFrom(c.votes, c.order, replies)
    decreases |ids|
  {
    if c.order != [] {
      var reply := ReplyOf(replies, c.order[0]);
      var next := HearReply(SendClaim(c, ids[0]), reply, server, now);
      if reply.VoteGranted? {
        assert ReceiptFits(reply.receipt, ClaimMsg(c.order[0], ids[0], c.absent[c.order[0]]), server, now);
      }
      forall i | 0 <= i < |next.order| && next.order[i] in next.absent && ReplyOf(replies, next.order[i]).VoteGranted?
        ensures ReceiptFits(ReplyOf(replies, next.order[i]).receipt, ClaimMsg(next.order[i], ids[1..][i], next.absent[next.order[i]]), server, now)
      {
        assert next.order[i] == c.order[i + 1];
      }
      assert forall b | b in next.order :: b in c.order;
      CampaignCollects(next, ids[1..], replies, server, now);
    }
  }

  // ---------------------------------------------------------------- the function itself

  predicate Answered(b: BridgeId, response: Option<WitnessMsg>, ask: Ask, server: string, record: HostRecord, now: int) {
    response.Some? && response.value.seen.bridge == b && WitnessFits(response.value, ask, server, record, now)
  }

  /** What the bridges that answered in time and validly said; `responses` are in the order of `bridges`. */
  function AnswersOf(bridges: seq<BridgeId>, responses: seq<Option<WitnessMsg>>, ask: Ask, server: string, record: HostRecord, now: int)
    : map<BridgeId, AbsenceWitness>
    requires |responses| == |bridges|
    decreases |bridges|
  {
    if bridges == [] then map[]
    else
      var n := |bridges| - 1;
      var earlier := AnswersOf(bridges[..n], responses[..n], ask, server, record, now);
      if Answered(bridges[n], responses[n], ask, server, record, now) then earlier[bridges[n] := responses[n].value.seen] else earlier
  }

  lemma {:induction false} AnswersAre(bridges: seq<BridgeId>, responses: seq<Option<WitnessMsg>>, ask: Ask,
                                      server: string, record: HostRecord,
                                      now: int)
    requires |responses| == |bridges| && Distinct(bridges)
    ensures var answers := AnswersOf(bridges, responses, ask, server, record, now);
      && answers.Keys <= Ids(bridges)
      && forall i | 0 <= i < |bridges| ::
           if Answered(bridges[i], responses[i], ask, server, record, now) then bridges[i] in answers && answers[bridges[i]] == responses[i].value.seen
           else bridges[i] !in answers
    decreases |bridges|
  {
    hide WitnessFits;
    if bridges != [] {
      var n := |bridges| - 1;
      AnswersAre(bridges[..n], responses[..n], ask, server, record, now);
    }
  }

  /** The list the live-witness policy judges. */
  function Seen(bridges: seq<BridgeId>, answers: map<BridgeId, AbsenceWitness>): seq<Option<bool>> {
    seq(|bridges|, i requires 0 <= i < |bridges| => if bridges[i] in answers then Some(answers[bridges[i]].primaryOnline) else None)
  }

  /** The policy holds exactly if no bridge sees the primary and a strict majority misses it. */
  lemma PolicyIsMajority(bridges: seq<BridgeId>, answers: map<BridgeId, AbsenceWitness>)
    requires Distinct(bridges) && answers.Keys <= Ids(bridges)
    ensures StrictBridgeWitnessQuorum(|bridges|, Seen(bridges, answers)) <==>
      2 <= |bridges| <= 3 && NoneOnline(answers) && |answers.Keys| >= Threshold(|bridges|)
  {
    if NoneOnline(answers) {
      assert Seen(bridges, answers) == HostService.Observed(bridges, answers.Keys);
      WitnessListIsMajority(bridges, answers.Keys);
    } else {
      var b :| b in answers && answers[b].primaryOnline;
      var i :| 0 <= i < |bridges| && bridges[i] == b;
      assert Seen(bridges, answers)[i] == Some(true);
    }
  }

  /** Those of `sorted` that answered. */
  function AnsweredOf(sorted: seq<BridgeId>, answers: map<BridgeId, AbsenceWitness>): seq<BridgeId> {
    if sorted == [] then []
    else
      var n := |sorted| - 1;
      AnsweredOf(sorted[..n], answers) + if sorted[n] in answers then [sorted[n]] else []
  }

  lemma {:induction false} AnsweredAre(sorted: seq<BridgeId>, answers: map<BridgeId, AbsenceWitness>)
    ensures forall b :: b in AnsweredOf(sorted, answers) <==> b in sorted && b in answers
  {
    if sorted != [] {
      var n := |sorted| - 1;
      AnsweredAre(sorted[..n], answers);
      assert sorted == sorted[..n] + [sorted[n]];
    }
  }

  lemma {:induction false} VotesAreOfOrder(votes: map<BridgeId, Receipt>, order: seq<BridgeId>, replies: map<BridgeId, ClaimReply>)
    ensures forall b | b in VotesFrom(votes, order, replies) :: b in votes || b in order
    decreases |order|
  {
    if order != [] {
      match ReplyOf(replies, order[0]) {
        case VoteConflict =>
        case VoteUnavailable => VotesAreOfOrder(votes, order[1..], replies);
        case VoteGranted(r) => VotesAreOfOrder(votes[order[0] := r], order[1..], replies);
      }
    }
  }

  method Collect(bridges: seq<BridgeId>, responses: seq<Option<WitnessMsg>>, ask: Ask, server: string, record: HostRecord, now: int)
    returns (answers: map<BridgeId, AbsenceWitness>)
    requires |responses| == |bridges|
    ensures answers == AnswersOf(bridges, responses, ask, server, record, now)
  {
    answers := map[];
    for i := 0 to |bridges|
      invariant answers == AnswersOf(bridges[..i], responses[..i], ask, server, record, now)
    {
      assert bridges[..i + 1][..i] == bridges[..i] && responses[..i + 1][..i] == responses[..i];
      if Answered(bridges[i], responses[i], ask, server, record, now) { answers := answers[bridges[i] := responses[i].value.seen]; }
    }
    assert bridges[..|bridges|] == bridges && responses[..|responses|] == responses;
  }

  method Observations(bridges: seq<BridgeId>, answers: map<BridgeId, AbsenceWitness>) returns (seen: seq<Option<bool>>)
    ensures seen == Seen(bridges, answers)
  {
    seen := [];
    for i := 0 to |bridges|
      invariant seen == Seen(bridges[..i], answers)
    {
      seen := seen + [if bridges[i] in answers then Some(answers[bridges[i]].primaryOnline) else None];
    }
    assert bridges[..|bridges|] == bridges;
  }

  method InOrder(sorted: seq<BridgeId>, answers: map<BridgeId, AbsenceWitness>) returns (order: seq<BridgeId>)
    ensures order == AnsweredOf(sorted, answers)
  {
    order := [];
    for i := 0 to |sorted|
      invariant order == AnsweredOf(sorted[..i], answers)
    {
      assert sorted[..i + 1][..i] == sorted[..i];
      if sorted[i] in answers { order := order + [sorted[i]]; }
    }
    assert sorted[..|sorted|] == sorted;
  }

  /** `Math.max(...observed) - Math.min(...observed)`, over a list that is not empty. */
  method Spread(order: seq<BridgeId>, answers: map<BridgeId, AbsenceWitness>) returns (spread: int)
    requires order != [] && forall b | b in order :: b in answers
    ensures forall b, c | b in order && c in order :: answers[b].observedAt - answers[c].observedAt <= spread
    ensures exists b, c | b in order && c in order :: answers[b].observedAt - answers[c].observedAt == spread
  {
    var latest, earliest := order[0], order[0];
    for i := 1 to |order|
      invariant latest in order && earliest in order
      invariant forall b | b in order[..i] :: answers[earliest].observedAt <= answers[b].observedAt <= answers[latest].observedAt
    {
      assert order[..i + 1] == order[..i] + [order[i]];
      if answers[order[i]].observedAt > answers[latest].observedAt { latest := order[i]; }
      if answers[order[i]].observedAt < answers[earliest].observedAt { earliest := order[i]; }
    }
    assert order[..|order|] == order;
    spread := answers[latest].observedAt - answers[earliest].observedAt;
  }

  /** The claims, one after another, up to a conflict. */
  method ClaimInTurn(order: seq<BridgeId>, replies: map<BridgeId, ClaimReply>) returns (votes: map<BridgeId, Receipt>)
    ensures votes == VotesFrom(map[], order, replies)
  {
    votes := map[];
    for i := 0 to |order|
      invariant VotesFrom(votes, order[i..], replies) == VotesFrom(map[], order, replies)
    {
      assert order[i..][0] == order[i] && order[i..][1..] == order[i + 1..];
      match ReplyOf(replies, order[i]) {
        case VoteConflict => return votes;
        case VoteUnavailable =>
        case VoteGranted(r) => votes := votes[order[i] := r];
      }
    }
  }

  method VoteList(bridges: seq<BridgeId>, votes: map<BridgeId, Receipt>) returns (list: seq<Option<bool>>)
    ensures list == HostService.Observed(bridges, votes.Keys)
  {
    list := [];
    for i := 0 to |bridges|
      invariant list == HostService.Observed(bridges[..i], votes.Keys)
    {
      list := list + [if bridges[i] in votes then Some(false) else None];
    }
    assert bridges[..|bridges|] == bridges;
  }

  /** All of the list at once: no bridge sees the primary, a strict majority misses it, and at about the same time. */
  lemma MissedByAll(bridges: seq<BridgeId>, answers: map<BridgeId, AbsenceWitness>)
    requires Distinct(bridges) && answers.Keys <= Ids(bridges)
    ensures AllMiss(Ids(bridges), answers) <==> StrictBridgeWitnessQuorum(|bridges|, Seen(bridges, answers)) && Together(answers)
  {
    PolicyIsMajority(bridges, answers);
    DistinctIffSize(bridges);
  }

  /**
    * `bridgeWitnessQuorum` once the bridges have been asked: `sorted` holds the bridges in the order of their
    * names and `replies` what each will answer to its claim. It gives up exactly if some bridge sees the
    * primary, too few miss it or at different times, or too few vote.
    */
  method BridgeWitnessQuorum(bridges: seq<BridgeId>, responses: seq<Option<WitnessMsg>>, sorted: seq<BridgeId>, ask: Ask, server: string,
                             record: HostRecord, replies: map<BridgeId, ClaimReply>, now: int)
    returns (votes: Option<map<BridgeId, Receipt>>)
    requires Distinct(bridges) && |responses| == |bridges| && Ids(sorted) == Ids(bridges)
    ensures var answers := AnswersOf(bridges, responses, ask, server, record, now);
      var cast := VotesFrom(map[], AnsweredOf(sorted, answers), replies);
      votes == if AllMiss(Ids(bridges), answers) && StrictMajority(cast.Keys, Ids(bridges)) then Some(cast) else None
  {
    hide WitnessFits, StrictBridgeWitnessQuorum;
    var answers := Collect(bridges, responses, ask, server, record, now);
    AnswersAre(bridges, responses, ask, server, record, now);
    MissedByAll(bridges, answers);
    PolicyIsMajority(bridges, answers);
    var seen := Observations(bridges, answers);
    var strict := CountWitnesses(|bridges|, seen);
    if !strict { return None; }
    var order := InOrder(sorted, answers);
    OrderIsAnswers(bridges, sorted, answers);
    var spread := Spread(order, answers);
    if spread > ABSENCE_SPREAD_MS { return None; }
    var cast := ClaimInTurn(order, replies);
    VotesAreOfOrder(map[], order, replies);
    var list := VoteList(bridges, cast);
    VotesAreMajority(bridges, cast);
    var enough := CountWitnesses(|bridges|, list);
    votes := if enough then Some(cast) else None;
  }

  lemma OrderIsAnswers(bridges: seq<BridgeId>, sorted: seq<BridgeId>, answers: map<BridgeId, AbsenceWitness>)
    requires Ids(sorted) == Ids(bridges) && answers.Keys <= Ids(bridges)
    ensures forall b :: b in AnsweredOf(sorted, answers) <==> b in answers
    ensures answers.Keys != {} ==> AnsweredOf(sorted, answers) != []
  {
    AnsweredAre(sorted, answers);
    forall b | b in answers ensures b in sorted { assert b in Ids(sorted); }
    if answers.Keys != {} {
      var b :| b in answers.Keys;
      assert b in AnsweredOf(sorted, answers);
    }
  }

  lemma VotesAreMajority(bridges: seq<BridgeId>, votes: map<BridgeId, Receipt>)
    requires Distinct(bridges) && votes.Keys <= Ids(bridges)
    ensures StrictBridgeWitnessQuorum(|bridges|, HostService.Observed(bridges, votes.Keys)) <==>
      2 <= |bridges| <= 3 && StrictMajority(votes.Keys, Ids(bridges))
  {
    WitnessListIsMajority(bridges, votes.Keys);
    DistinctIffSize(bridges);
  }
}
