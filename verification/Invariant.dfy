/** The invariant of a cluster, in three parts: the history, each server against the history, and each
    message against the history. */
module Invariant {
  import opened RaftTypes
  import opened Quorum
  import opened RaftStep
  import opened Cluster

  // ---------- logs

  /** L and M agree on, and both have, their first k entries. */
  ghost predicate Has(l: Log, m: Log, k: nat) {
    k <= |l| && k <= |m| && l[..k] == m[..k]
  }

  /** The log of the leader of a term. */
  ghost function LeaderLog(h: History, term: nat): Log {
    if term in h.elections then h.elections[term].llog else []
  }

  ghost predicate TermsAtMost(l: Log, term: int) {
    forall k | 0 <= k < |l| :: l[k].term <= term
  }

  /** Every entry was put at its place by the leader of its term, on top of the same entries. */
  ghost predicate Good(h: History, l: Log) {
    forall k | 0 <= k < |l| ::
      && l[k].kind != Unknown
      && l[k].term in h.elections
      && Has(l, LeaderLog(h, l[k].term), k + 1)
  }

  ghost predicate UpToDate(mine: Log, yours: Log) {
    || LastLogTerm(mine) > LastLogTerm(yours)
    || (LastLogTerm(mine) == LastLogTerm(yours) && |mine| >= |yours|)
  }

  // ---------- votes, acknowledgements, commitment

  ghost predicate Voted(h: History, term: nat, v: Addr, c: Addr) {
    (term, v) in h.votes && h.votes[(term, v)].cand == c
  }

  ghost function VoteLog(h: History, term: nat, v: Addr): Log {
    if (term, v) in h.votes then h.votes[(term, v)].vlog else []
  }

  /** a acknowledged the first k entries of the leader's log of the term. */
  ghost predicate Acked(h: History, term: nat, a: Addr, k: nat) {
    (term, a) in h.acked && k <= h.acked[(term, a)]
  }

  /** The leader of w does not have the first k entries of the leader of `term`. */
  ghost predicate Lost(h: History, w: nat, term: nat, k: nat) {
    w in h.elections && !Has(LeaderLog(h, w), LeaderLog(h, term), k)
  }

  /** What was acknowledged is still in l, unless a leader between `term` and `upTo` had lost it. */
  ghost predicate Kept(h: History, term: nat, k: nat, l: Log, upTo: int) {
    || Has(l, LeaderLog(h, term), k)
    || exists w: nat :: term < w <= upTo && Lost(h, w, term, k)
  }

  /** Entry k of the leader's log of the term is of that term and more than half of the members
      acknowledged it. */
  ghost predicate Committed(h: History, term: nat, k: nat) {
    && term in h.elections
    && 1 <= k <= |LeaderLog(h, term)|
    && LeaderLog(h, term)[k - 1].term == term
    && exists q: set<Addr> :: HasQuorum(h, term, k, q)
  }

  ghost predicate HasQuorum(h: History, term: nat, k: nat, q: set<Addr>) {
    q <= h.members && 2 * |q| > |h.members| && forall a | a in q :: Acked(h, term, a, k)
  }

  /** The first c entries of l are committed, by leaders of terms up to `upTo`. */
  ghost predicate Certified(h: History, l: Log, c: nat, upTo: nat) {
    c == 0 || exists term: nat, k: nat :: CertifiedBy(h, l, c, upTo, term, k)
  }

  ghost predicate CertifiedBy(h: History, l: Log, c: nat, upTo: nat, term: nat, k: nat) {
    term <= upTo && c <= k && Committed(h, term, k) && Has(l, LeaderLog(h, term), c)
  }

  // ---------- the history

  /** With two members or one, a vote for another server may be left from an earlier term, so that nothing is
      known of the candidate's log: module TornWrites says how. */
  ghost predicate VoteOk(h: History, term: nat, v: Addr)
    requires (term, v) in h.votes
  {
    var c := h.votes[(term, v)].cand;
    && v in h.members && c in h.members
    && Good(h, VoteLog(h, term, v))
    && TermsAtMost(VoteLog(h, term, v), term)
    && (c == v || |h.members| > 2 ==> Tested(h, term, v, c))
  }

  /** c stood in the term, with a log up to date with v's and without entries of the term. */
  ghost predicate Tested(h: History, term: nat, v: Addr, c: Addr) {
    && Voted(h, term, c, c)
    && UpToDate(VoteLog(h, term, c), VoteLog(h, term, v))
    && forall k | 0 <= k < |VoteLog(h, term, c)| :: VoteLog(h, term, c)[k].term < term
  }

  ghost predicate ElectionOk(h: History, term: nat)
    requires term in h.elections
  {
    var e := h.elections[term];
    && e.leader in h.members
    && e.quorum <= h.members
    && 2 * |e.quorum| > |h.members|
    && (forall v | v in e.quorum :: Voted(h, term, v, e.leader))
    && Voted(h, term, e.leader, e.leader)
    && e.elog == VoteLog(h, term, e.leader)
    && e.elog <= e.llog
    && (forall k | |e.elog| <= k < |e.llog| :: e.llog[k].term == term)
    && Good(h, e.llog)
  }

  ghost predicate AckOk(h: History, term: nat, a: Addr)
    requires (term, a) in h.acked
  {
    term in h.elections && a in h.members && h.acked[(term, a)] <= |LeaderLog(h, term)|
  }

  /** Whoever made up an election quorum kept what it had acknowledged before, up to its vote. */
  ghost predicate QuorumKept(h: History) {
    forall u: nat, v: Addr, term: nat, k: nat ::
      u in h.elections && v in h.elections[u].quorum && term < u && Acked(h, term, v, k) ==>
        Kept(h, term, k, VoteLog(h, u, v), u - 1)
  }

  /** The same for votes in a term that has no leader yet. */
  ghost predicate BallotKept(h: History) {
    forall u: nat, v: Addr, term: nat, k: nat ::
      (u, v) in h.votes && u !in h.elections && term < u && Acked(h, term, v, k) ==>
        Kept(h, term, k, VoteLog(h, u, v), u - 1)
  }

  ghost predicate HistOk(h: History) {
    && NO_ADDR !in h.members
    && SoundSize(|h.members|)
    && (forall term: nat, v: Addr {:trigger VoteOk(h, term, v)} | (term, v) in h.votes :: VoteOk(h, term, v))
    && (forall term: nat {:trigger ElectionOk(h, term)} | term in h.elections :: ElectionOk(h, term))
    && (forall term: nat, a: Addr {:trigger AckOk(h, term, a)} | (term, a) in h.acked :: AckOk(h, term, a))
    && QuorumKept(h)
    && BallotKept(h)
  }

  // ---------- servers

  ghost predicate TimersOk(s: Server) {
    && (s.timers.election <==> s.role != Leader)
    && (s.timers.heartbeats != {} ==> s.role == Leader)
    && (s.timers.requestVotes != {} ==> s.role == Candidate)
    && s.timers.heartbeats <= PeerSet(s.peers)
    && s.timers.requestVotes <= PeerSet(s.peers)
  }

  ghost predicate Shaped(h: History, s: Server) {
    && s.me in h.members
    && s.me !in s.peers
    && PeerSet(s.peers) + {s.me} == h.members
    && s.votes.Keys == PeerSet(s.peers)
    && s.indices.Keys == PeerSet(s.peers)
    && TimersOk(s)
  }

  ghost predicate BallotOk(h: History, s: Server) {
    && 1 <= s.term
    && (s.vote == NO_ADDR ==> (s.term, s.me) !in h.votes)
    && (s.vote != NO_ADDR ==> Voted(h, s.term, s.me, s.vote))
    && (forall term: nat | term > s.term :: (term, s.me) !in h.votes)
    && (forall term: nat | term > s.term :: (term, s.me) !in h.acked)
  }

  ghost predicate LogOk_(h: History, s: Server) {
    && Good(h, s.log)
    && TermsAtMost(s.log, s.term)
    && (forall term: nat, k: nat | Acked(h, term, s.me, k) :: Kept(h, term, k, s.log, s.term))
    && (Voted(h, s.term, s.me, s.me) && s.term !in h.elections ==> s.log == VoteLog(h, s.term, s.me))
    && (LedBy(h, s.term, s.me) ==>
          s.log == LeaderLog(h, s.term) && Acked(h, s.term, s.me, |s.log|))
  }

  ghost predicate RoleOk(h: History, s: Server) {
    && (s.leader != NO_ADDR ==> LedBy(h, s.term, s.leader))
    && (s.role == Leader ==> LedBy(h, s.term, s.me))
    && (s.role == Leader ==> forall j | j in s.indices ::
          1 <= s.indices[j].next <= |s.log| + 1
          && (s.indices[j].match_ > 0 ==> Acked(h, s.term, j, s.indices[j].match_)))
    && (s.role == Candidate ==> forall j | j in s.votes && s.votes[j].grant :: Voted(h, s.term, j, s.me))
    && (s.role == Candidate && !s.preVoting ==>
          s.vote == s.me && Voted(h, s.term, s.me, s.me) && s.log == VoteLog(h, s.term, s.me))
  }

  ghost predicate ApplyOk(h: History, s: Server) {
    && s.commit <= |s.log|
    && s.lastApply <= |s.log|
    && Certified(h, s.log, s.commit, s.term)
    && Certified(h, s.log, s.lastApply, s.term)
    && s.sm == DataBetween(s.log, 0, s.lastApply)
  }

  ghost predicate ServerOk(h: History, s: Server) {
    && Shaped(h, s)
    && BallotOk(h, s)
    && LogOk_(h, s)
    && RoleOk(h, s)
    && ApplyOk(h, s)
  }

  // ---------- messages

  ghost predicate AddressOk(h: History, m: Message) {
    m.src in h.members && m.dest in h.members && m.src != m.dest
  }

  ghost predicate MessageOk(h: History, m: Message) {
    && AddressOk(h, m)
    && match m
       case RequestVote(src, _, term, lastIndex, lastTerm, _, preVote) =>
         !preVote ==>
           && Voted(h, term, src, src)
           && lastIndex == |VoteLog(h, term, src)|
           && lastTerm == LastLogTerm(VoteLog(h, term, src))
       case RequestVoteReply(src, dest, term, granted, preVote, _, _, reqTerm) =>
         !preVote && granted ==> Voted(h, reqTerm, src, dest) && Voted(h, reqTerm, dest, dest)
       case AppendEntries(src, _, term, pre, preTerm, commit, es) =>
         && LedBy(h, term, src)
         && var l := LeaderLog(h, term);
         && pre + |es| <= |l|
         && preTerm == (if pre == 0 then 0 else l[pre - 1].term)
         && (forall j | 0 <= j < |es| :: es[j] == LogEntry(pre + 1 + j, l[pre + j]))
         && commit <= pre + |es|
         && Certified(h, l, commit, term)
       case AppendEntriesReply(src, dest, term, success, _, pre, n, reqTerm) =>
         && LedBy(h, reqTerm, dest)
         && reqTerm <= term
         && (success ==> Acked(h, reqTerm, src, pre + n))
       case TimeoutNow(_, _, _, _, _, _) => true
  }

  // ---------- the whole system

  ghost predicate Inv(g: System) {
    && g.servers.Keys == g.hist.members
    && HistOk(g.hist)
    && (forall a | a in g.servers :: g.servers[a].me == a && ServerOk(g.hist, g.servers[a]))
    && (forall m | m in g.msgs :: MessageOk(g.hist, m))
  }
}
