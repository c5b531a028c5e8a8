/**
 A resumable upload: the file is cut into blocks, a block list says which are still to be sent under
 an upload id, and the list survives a failed call in the progress store.  An expired id restarts the
 upload under a new id, once per call in earnest.
 */
module BaiduUpload {
  import opened Prelude
  import UploadProgress

  datatype Error = Canceled | Expired | Other

  /** How one slice upload ends: acknowledged, stored but reported as failed, or not stored. */
  datatype Reply = Acknowledged | Lost(e: Error) | Refused(e: Error)

  /** How a precreate ends: an error, a file the server already has, or an upload id under which the
      blocks `have` are already there and those in `list` are asked for. */
  datatype PreReply = PreFailed | AlreadyThere | Fresh(have: set<nat>, list: seq<int>)

  /** One request of a call and its answer; `late` if the call had been cancelled by then. */
  datatype Request = Precreated(answer: PreReply) | Sent(id: nat, block: int, reply: Reply, late: bool)

  /** Everything the outside world decides; `pre` and `reply` may answer every request differently, and `cancelled` says
      whether the caller has given up by the time so many have been made. */
  datatype World = World(
    rapid: bool,
    pre: nat -> PreReply,
    reply: (nat, nat, nat) -> Reply,
    cancelled: nat -> bool,
    createOk: bool)

  /** The server asks for every block it does not have. */
  ghost predicate Honest(w: World, n: nat) {
    forall i :: w.pre(i).Fresh? ==>
      && (forall b :: b in w.pre(i).have ==> b < n)
      && (forall b :: b in w.pre(i).list ==> b < n)
      && (forall b: nat :: b < n ==> b in w.pre(i).have || b in w.pre(i).list)
  }

  // ---- blocks ----

  type SliceSize = n: nat | n > 0 witness 1

  datatype Plan = Plan(count: nat, sliceSize: nat, last: nat)

  ghost predicate Fits(p: Plan, size: nat) {
    p.count > 0 && 0 < p.last <= p.sliceSize && (p.count - 1) * p.sliceSize + p.last == size
  }

  function PlanOf(size: nat, sliceSize: nat): (p: Plan)
    requires size > 0 && sliceSize > 0
    ensures Fits(p, size) && p.sliceSize == sliceSize
  {
    var q := size / sliceSize;
    assert size == q * sliceSize + size % sliceSize;
    assert q >= 1 ==> (q - 1) * sliceSize + sliceSize == q * sliceSize;
    if size % sliceSize > 0 then Plan(q + 1, sliceSize, size % sliceSize)
    else Plan(q, sliceSize, sliceSize)
  }

  function BlockStart(p: Plan, b: nat): nat {
    b * p.sliceSize
  }

  function BlockSize(p: Plan, b: nat): nat {
    if b + 1 == p.count then p.last else p.sliceSize
  }

  lemma BlockInside(p: Plan, size: nat, b: nat)
    requires Fits(p, size) && b < p.count
    ensures BlockStart(p, b) + BlockSize(p, b) <= size
    ensures BlockStart(p, b) + BlockSize(p, b) == if b + 1 < p.count then BlockStart(p, b + 1) else size
  {
    assert (b + 1) * p.sliceSize == b * p.sliceSize + p.sliceSize;
    if b + 1 < p.count {
      Mul(b + 1, p.count - 1, p.sliceSize);
    }
  }

  lemma Mul(a: nat, b: nat, k: nat)
    requires a <= b
    ensures a * k <= b * k
  {
  }

  /** Block `b` of the file: what the slice upload reads. */
  function Block(file: Bytes, p: Plan, b: nat): Bytes
    requires Fits(p, |file|) && b < p.count
  {
    BlockInside(p, |file|, b);
    file[BlockStart(p, b)..BlockStart(p, b) + BlockSize(p, b)]
  }

  // ---- progress and server ----

  /** PrecreateResp: the upload id and the blocks still to be sent; a sent one is overwritten by -1. */
  class Progress {
    const id: nat
    var list: seq<int>

    constructor (id: nat, list: seq<int>)
      ensures this.id == id && this.list == list
    {
      this.id, this.list := id, list;
    }
  }

  class Server {
    /** Blocks stored by upload id, and the ids for which a file was created. */
    var stored: map<nat, map<nat, Bytes>>
    var next: nat
    var creates: seq<nat>
    /** The precreates and slice uploads it has answered. */
    var log: seq<Request>

    ghost predicate Valid()
      reads this`stored, this`next
    {
      forall i :: i in stored ==> i < next
    }

    constructor ()
      ensures Valid() && stored == map[] && creates == [] && log == []
    {
      stored, next, creates, log := map[], 0, [], [];
    }
  }

  type Cache = UploadProgress.Store<Progress>

  /** An upload id as a call finds it: the blocks stored under it and the list of those still to be sent. */
  datatype Start = Start(blocks: map<nat, Bytes>, list: seq<int>)

  /** What lies under an id is the file's own blocks, and every block is stored or still listed. */
  ghost predicate Conserved(st: Start, file: Bytes, p: Plan)
    requires Fits(p, |file|)
  {
    && (forall b :: b in st.blocks ==> b < p.count && st.blocks[b] == Block(file, p, b))
    && (forall b :: b in st.list ==> b < p.count)
    && (forall b: nat :: b < p.count ==> b in st.blocks || b in st.list)
  }

  ghost predicate Complete(blocks: map<nat, Bytes>, file: Bytes, p: Plan)
    requires Fits(p, |file|)
  {
    && (forall b :: b in blocks ==> b < p.count && blocks[b] == Block(file, p, b))
    && (forall b: nat :: b < p.count ==> b in blocks)
  }

  /** What sending under plan `p` makes of an id: whatever was struck off the list is now stored as a block of
      that plan, whatever is stored besides was there before, and no other block was sent. */
  ghost predicate Carried(st: Start, now: Start, file: Bytes, p: Plan)
    requires Fits(p, |file|)
  {
    && (forall b :: b in now.list && b >= 0 ==> b in st.list)
    && (forall b: nat :: b in st.list && b !in now.list ==>
          b < p.count && b in now.blocks && now.blocks[b] == Block(file, p, b))
    && (forall b :: b in st.blocks ==> b in now.blocks)
    && (forall b :: b in now.blocks ==>
          || (b in st.blocks && now.blocks[b] == st.blocks[b])
          || (b in st.list && b < p.count && now.blocks[b] == Block(file, p, b)))
  }

  /** What is stored and not to be sent again are blocks of this plan, and none is missing from both. */
  ghost predicate Suits(st: Start, file: Bytes, p: Plan)
    requires Fits(p, |file|)
  {
    && (forall b :: b in st.blocks && b !in st.list ==> b < p.count && st.blocks[b] == Block(file, p, b))
    && (forall b: nat :: b < p.count ==> b in st.blocks || b in st.list)
  }

  /** Every listed block exists under this plan. */
  ghost predicate Inside(list: seq<int>, p: Plan) {
    forall b :: b in list ==> b < p.count
  }

  predicate Asked(list: seq<int>) {
    exists b :: b in list && b >= 0
  }

  lemma ConservedSuits(st: Start, file: Bytes, p: Plan)
    requires Fits(p, |file|) && Conserved(st, file, p)
    ensures Suits(st, file, p) && Inside(st.list, p)
  {
  }

  lemma CarriedConserves(st: Start, now: Start, file: Bytes, p: Plan)
    requires Fits(p, |file|) && Carried(st, now, file, p) && Conserved(st, file, p)
    ensures Conserved(now, file, p)
  {
  }

  /** Once nothing is left to send, every listed block did exist, and what is stored is complete exactly if
      what the call found suited its plan. */
  lemma SentExactly(st: Start, now: Start, file: Bytes, p: Plan)
    requires Fits(p, |file|) && Carried(st, now, file, p) && !Asked(now.list)
    ensures Inside(st.list, p)
    ensures Complete(now.blocks, file, p) <==> Suits(st, file, p)
  {
    hide Fits, Block;
    forall b | b in st.list
      ensures b < p.count
    {
      if b >= 0 { assert b !in now.list; }
    }
    assert forall b: nat :: b in st.list ==> b !in now.list;
  }

  lemma CarriedSame(st: Start, file: Bytes, p: Plan)
    requires Fits(p, |file|)
    ensures Carried(st, st, file, p)
  {
  }

  /** Storing block `list[i]` and, if acknowledged, striking it off. */
  lemma CarriedSent(st: Start, blocks: map<nat, Bytes>, list: seq<int>, file: Bytes, p: Plan, i: nat)
    requires Fits(p, |file|) && Carried(st, Start(blocks, list), file, p) && i < |list| && 0 <= list[i] < p.count
    ensures Carried(st, Start(blocks[list[i] as nat := Block(file, p, list[i])], list), file, p)
    ensures Carried(st, Start(blocks[list[i] as nat := Block(file, p, list[i])], list[i := -1]), file, p)
  {
    var struck := list[i := -1];
    hide Fits, Block;
    forall b: nat | b in list && b != list[i]
      ensures b in struck
    {
      var j :| 0 <= j < |list| && list[j] == b;
      assert struck[j] == b;
    }
    forall b | b in struck && b >= 0
      ensures b in list
    {
      var j :| 0 <= j < |struck| && struck[j] == b;
      assert list[j] == b;
    }
  }

  /** utils.SliceFilter(BlockList, s >= 0) */
  function Remaining(list: seq<int>): (r: seq<int>)
    ensures forall b :: b in r <==> b >= 0 && b in list
  {
    if list == [] then []
    else if list[0] >= 0 then [list[0]] + Remaining(list[1..])
    else Remaining(list[1..])
  }

  lemma FilterConserves(st: Start, blocks: map<nat, Bytes>, list: seq<int>, file: Bytes, p: Plan)
    requires Fits(p, |file|) && Carried(st, Start(blocks, list), file, p)
    ensures Carried(st, Start(blocks, Remaining(list)), file, p)
    ensures Conserved(Start(blocks, list), file, p) ==> Conserved(Start(blocks, Remaining(list)), file, p)
  {
  }

  /** No id loses its completeness. */
  ghost predicate Kept(stored: map<nat, map<nat, Bytes>>, now: map<nat, map<nat, Bytes>>, file: Bytes, p: Plan)
    requires Fits(p, |file|)
  {
    forall i :: i in stored ==> i in now && (Complete(stored[i], file, p) ==> Complete(now[i], file, p))
  }

  lemma KeptSame(stored: map<nat, map<nat, Bytes>>, file: Bytes, p: Plan)
    requires Fits(p, |file|)
    ensures Kept(stored, stored, file, p)
  {
  }

  lemma KeptOnward(a: map<nat, map<nat, Bytes>>, b: map<nat, map<nat, Bytes>>, c: map<nat, map<nat, Bytes>>, file: Bytes, p: Plan)
    requires Fits(p, |file|) && Kept(a, b, file, p) && Kept(b, c, file, p)
    ensures Kept(a, c, file, p)
  {
    hide Complete, Fits;
  }

  lemma KeptSent(stored: map<nat, map<nat, Bytes>>, id: nat, file: Bytes, p: Plan, b: nat)
    requires Fits(p, |file|) && id in stored && b < p.count
    ensures Kept(stored, stored, file, p)
    ensures var blocks: map<nat, Bytes> := stored[id]; Kept(stored, stored[id := blocks[b := Block(file, p, b)]], file, p)
  {
  }

  /** Of the ids there were, only the pending one may have changed. */
  ghost predicate OnlyPending(stored: map<nat, map<nat, Bytes>>, now: map<nat, map<nat, Bytes>>, pending: Option<nat>) {
    forall i :: i in stored ==> i in now && (now[i] == stored[i] || pending == Some(i))
  }

  lemma PendingOnward(a: map<nat, map<nat, Bytes>>, b: map<nat, map<nat, Bytes>>, c: map<nat, map<nat, Bytes>>,
                      first: Option<nat>, then': Option<nat>)
    requires OnlyPending(a, b, first) && OnlyPending(b, c, then')
    requires then'.Some? && then'.value in a ==> then' == first
    ensures OnlyPending(a, c, first)
  {
  }

  /** The id under which there is something to send. */
  function PendingOf(pr: Progress): Option<nat>
    reads pr
  {
    if Asked(pr.list) then Some(pr.id) else None
  }

  ghost predicate Known(s: Server, pr: Progress)
    reads s`stored, s`next
  {
    s.Valid() && pr.id in s.stored
  }

  function Now(s: Server, pr: Progress): Start
    requires pr.id in s.stored
    reads s`stored, pr
  {
    Start(s.stored[pr.id], pr.list)
  }

  /** The current progress, which the call found, or was given, as `st`. */
  ghost predicate Running(s: Server, pr: Progress, st: Start, file: Bytes, p: Plan)
    requires Fits(p, |file|)
    reads s`stored, s`next, pr
  {
    Known(s, pr) && Carried(st, Now(s, pr), file, p)
  }

  // ---- what a call asked and was answered ----

  /** Nothing but slices were sent. */
  predicate OnlySent(log: seq<Request>) {
    forall q :: q in log ==> q.Sent?
  }

  /** The caller gives up at some time. */
  ghost predicate CanStop(w: World) {
    exists t :: w.cancelled(t)
  }

  /** A slice upload among these failed so, or the call can have been cancelled. */
  ghost predicate Cause(w: World, log: seq<Request>, e: Error, p: Plan) {
    || (e == Canceled && CanStop(w))
    || exists q :: q in log && q.Sent? && SliceEnds(q.reply, q.block < p.count) == Some(e)
  }

  /** Every slice upload among these was acknowledged, and none came after the call was cancelled. */
  ghost predicate AllWell(log: seq<Request>, p: Plan) {
    forall q :: q in log && q.Sent? ==> SliceEnds(q.reply, q.block < p.count).None? && !q.late
  }

  /** What an answer to a precreate means for the call: None to go on. */
  function Verdict(answer: PreReply): Option<Outcome> {
    match answer
    case PreFailed => Some(Failed(Other))
    case AlreadyThere => Some(Existing)
    case Fresh(_, _) => None
  }

  /** Slices only. */
  ghost predicate Quiet(w: World, log: seq<Request>, e: Option<Error>, p: Plan) {
    && OnlySent(log)
    && (match e case None => AllWell(log, p) case Some(error) => Cause(w, log, error, p))
  }

  /** Slices, one of which was told that the id has expired, then a precreate with this answer. */
  ghost predicate Renewed(w: World, log: seq<Request>, answer: PreReply, p: Plan) {
    && log != [] && log[|log| - 1] == Precreated(answer)
    && OnlySent(log[..|log| - 1]) && Cause(w, log, Expired, p)
  }

  function Precreates(log: seq<Request>): nat {
    if log == [] then 0 else Precreates(log[..|log| - 1]) + if log[|log| - 1].Precreated? then 1 else 0
  }

  /** What came after the last precreate. */
  function Since(log: seq<Request>): seq<Request> {
    if log == [] || log[|log| - 1].Precreated? then [] else Since(log[..|log| - 1]) + [log[|log| - 1]]
  }

  /** The call has got a new id for every expired one, and one to begin with if there was none to resume; under the last
      id no slice has failed, unless it is the third and was not even tried. */
  ghost predicate GoneOn(w: World, log: seq<Request>, expiries: nat, began: bool, p: Plan) {
    && (forall q :: q in log && q.Precreated? ==> q.answer.Fresh?)
    && Precreates(log) == expiries + (if began then 1 else 0) && (expiries > 0 ==> Cause(w, log, Expired, p))
    && (if expiries < 2 then AllWell(Since(log), p) else Since(log) == [])
  }

  /** Why a call ended as it did: it reports a file that is already there exactly if the server said so at last, and
      fails exactly for a failed precreate, a failed slice or the cancellation; otherwise it has gone on to create the
      file.  `began` if there was no progress to resume. */
  ghost predicate Accounts(w: World, log: seq<Request>, r: Outcome, began: bool, p: Plan) {
    match r
    case EmptyFile => log == []
    case Existing => if w.rapid then log == [] else log != [] && log[|log| - 1] == Precreated(AlreadyThere)
    case Failed(e) =>
      && !w.rapid
      && (if log != [] && log[|log| - 1] == Precreated(PreFailed) then e == Other
          else e != Expired && Cause(w, log, e, p) && (log != [] ==> log[|log| - 1] != Precreated(AlreadyThere)))
    case Issued(_, expiries, ok) => !w.rapid && ok == w.createOk && GoneOn(w, log, expiries, began, p)
  }

  /** A call under way: between two attempts. */
  ghost predicate Under(w: World, log: seq<Request>, expiries: nat, began: bool, p: Plan) {
    GoneOn(w, log, expiries, began, p) && Since(log) == []
  }

  lemma {:induction false} QuietEnds(log: seq<Request>, more: seq<Request>)
    requires OnlySent(more)
    ensures Since(log + more) == Since(log) + more && Precreates(log + more) == Precreates(log)
  {
    if more == [] {
      assert log + more == log;
    } else {
      var n := |more| - 1;
      assert (log + more)[..|log + more| - 1] == log + more[..n];
      assert more[n] in more;
      QuietEnds(log, more[..n]);
      assert Since(log) + more == Since(log) + more[..n] + [more[n]];
    }
  }

  lemma CauseStays(w: World, log: seq<Request>, more: seq<Request>, e: Error, p: Plan)
    ensures Cause(w, log, e, p) || Cause(w, more, e, p) ==> Cause(w, log + more, e, p)
  {
    assert forall q :: q in log || q in more ==> q in log + more;
  }

  /** All slices went well: on to create. */
  lemma EndsWell(w: World, log: seq<Request>, more: seq<Request>, expiries: nat, began: bool, p: Plan)
    requires Under(w, log, expiries, began, p) && expiries < 2 && Quiet(w, more, None, p)
    ensures GoneOn(w, log + more, expiries, began, p)
  {
    QuietEnds(log, more);
    CauseStays(w, log, more, Expired, p);
    assert [] + more == more;
  }

  /** A slice failed, or the call was cancelled. */
  lemma EndsBadly(w: World, log: seq<Request>, more: seq<Request>, e: Error, began: bool, p: Plan)
    requires !w.rapid && e != Expired && Quiet(w, more, Some(e), p) && Since(log) == []
    requires log != [] && log[|log| - 1].Precreated? ==> log[|log| - 1].answer.Fresh?
    ensures Accounts(w, log + more, Failed(e), began, p)
  {
    hide Cause, AllWell, SliceEnds, Since;
    CauseStays(w, log, more, e, p);
    var all := log + more;
    if more == [] {
      assert all == log;
    } else {
      assert all[|all| - 1] == more[|more| - 1] && more[|more| - 1] in more;
    }
  }

  /** The id has expired; the precreate for a new one had this answer. */
  lemma EndsRenewed(w: World, log: seq<Request>, more: seq<Request>, answer: PreReply, expiries: nat, began: bool, p: Plan)
    requires !w.rapid && Under(w, log, expiries, began, p) && expiries < 2 && Renewed(w, more, answer, p)
    ensures answer.Fresh? ==> Under(w, log + more, expiries + 1, began, p)
    ensures !answer.Fresh? ==> Accounts(w, log + more, Verdict(answer).value, began, p)
  {
    var n := |more| - 1;
    QuietEnds(log, more[..n]);
    CauseStays(w, log, more, Expired, p);
    assert (log + more)[..|log + more| - 1] == log + more[..n];
    hide Cause, SliceEnds, Since, Precreates;
    if answer.Fresh? { AllFresh(log, more, answer); }
  }

  lemma AllFresh(log: seq<Request>, more: seq<Request>, answer: PreReply)
    requires answer.Fresh? && more != [] && more[|more| - 1] == Precreated(answer) && OnlySent(more[..|more| - 1])
    requires forall q :: q in log && q.Precreated? ==> q.answer.Fresh?
    ensures forall q :: q in log + more && q.Precreated? ==> q.answer.Fresh?
  {
    assert forall q :: q in more ==> q in more[..|more| - 1] || q == more[|more| - 1];
  }

  // ---- one call ----

  method Precreate(w: World, s: Server, file: Bytes, p: Plan) returns (reply: PreReply, pr: Progress?)
    requires Fits(p, |file|) && Honest(w, p.count) && s.Valid()
    modifies s
    ensures s.Valid() && s.creates == old(s.creates) && s.next == old(s.next) + 1
    ensures reply == w.pre(|old(s.log)|) && s.log == old(s.log) + [Precreated(reply)]
    ensures !reply.Fresh? ==> s.stored == old(s.stored)
    ensures reply.Fresh? ==>
      && pr != null && fresh(pr) && pr.id == old(s.next) && pr.list == reply.list && Known(s, pr) && Conserved(Now(s, pr), file, p)
      && s.stored == old(s.stored)[pr.id := s.stored[pr.id]] && s.stored[pr.id].Keys == reply.have
    ensures Kept(old(s.stored), s.stored, file, p)
  {
    var id := s.next;
    reply := w.pre(|s.log|);
    s.next, s.log := id + 1, s.log + [Precreated(reply)];
    pr := null;
    if reply.Fresh? {
      s.stored := s.stored[id := map b | b in reply.have && b < p.count :: Block(file, p, b)];
      pr := new Progress(id, reply.list);
      assert s.stored[id].Keys == reply.have;
    }
  }

  /** The slice upload on the wire: the server stores the bytes unless it refuses them. */
  method Deliver(w: World, s: Server, id: nat, partseq: nat, data: Bytes) returns (reply: Reply)
    requires s.Valid() && id in s.stored
    modifies s`stored, s`log
    ensures s.Valid() && reply == w.reply(|old(s.log)|, id, partseq)
    ensures s.log == old(s.log) + [Sent(id, partseq, reply, w.cancelled(|old(s.log)|))]
    ensures var blocks: map<nat, Bytes> := old(s.stored)[id];
      s.stored == if reply.Refused? then old(s.stored) else old(s.stored)[id := blocks[partseq := data]]
  {
    reply := w.reply(|s.log|, id, partseq);
    s.log := s.log + [Sent(id, partseq, reply, w.cancelled(|s.log|))];
    if !reply.Refused? {
      var blocks: map<nat, Bytes> := s.stored[id];
      s.stored := s.stored[id := blocks[partseq := data]];
    }
  }

  /** A slice beyond the end of the file: the body is shorter than the announced length, so the request
      breaks off unless the server refuses it first. */
  method BreakOff(w: World, s: Server, id: nat, partseq: nat) returns (e: Error)
    modifies s`log
    ensures var reply := w.reply(|old(s.log)|, id, partseq);
      e == (if reply.Refused? then reply.e else Other) && s.log == old(s.log) + [Sent(id, partseq, reply, w.cancelled(|old(s.log)|))]
  {
    var reply := w.reply(|s.log|, id, partseq);
    s.log := s.log + [Sent(id, partseq, reply, w.cancelled(|s.log|))];
    e := if reply.Refused? then reply.e else Other;
  }

  /** The bytes a worker reads for its slice. */
  method ReadSlice(file: Bytes, p: Plan, partseq: nat) returns (data: Bytes)
    requires Fits(p, |file|) && partseq < p.count
    ensures data == Block(file, p, partseq)
  {
    var offset, size := partseq * p.sliceSize, p.sliceSize;
    if partseq + 1 == p.count {
      size := p.last;
    }
    BlockInside(p, |file|, partseq);
    data := file[offset..offset + size];
  }

  /** How a slice upload ends for the worker; one beyond the end of the file never succeeds. */
  function SliceEnds(reply: Reply, inside: bool): Option<Error> {
    if inside then (if reply.Acknowledged? then None else Some(reply.e))
    else if reply.Refused? then Some(reply.e) else Some(Other)
  }

  /** One slice, sent by a worker. */
  method SendSlice(w: World, s: Server, pr: Progress, file: Bytes, p: Plan, i: nat, ghost st: Start) returns (e: Option<Error>)
    requires Fits(p, |file|) && Running(s, pr, st, file, p) && i < |pr.list| && pr.list[i] >= 0
    modifies s, pr
    ensures Running(s, pr, st, file, p) && s.creates == old(s.creates) && s.next == old(s.next)
    ensures s.stored == old(s.stored)[pr.id := s.stored[pr.id]] && Kept(old(s.stored), s.stored, file, p)
    ensures e.None? ==> pr.list == old(pr.list)[i := -1]
    ensures e.Some? ==> pr.list == old(pr.list)
    ensures var reply := w.reply(|old(s.log)|, pr.id, old(pr.list[i])); var inside := old(pr.list[i]) < p.count;
      && e == SliceEnds(reply, inside) && (reply.Refused? || !inside ==> s.stored == old(s.stored))
      && s.log == old(s.log) + [Sent(pr.id, old(pr.list[i]), reply, w.cancelled(|old(s.log)|))]
  {
    var partseq: nat := pr.list[i];
    assert partseq in pr.list;
    if partseq >= p.count {
      KeptSame(s.stored, file, p);
      var failure := BreakOff(w, s, pr.id, partseq);
      return Some(failure);
    }
    var data := ReadSlice(file, p, partseq);
    CarriedSent(st, s.stored[pr.id], pr.list, file, p, i);
    KeptSent(s.stored, pr.id, file, p, partseq);
    hide Carried, Complete, Kept, Fits, Block;
    var reply := Deliver(w, s, pr.id, partseq, data);
    if !reply.Acknowledged? {
      return Some(reply.e);
    }
    pr.list := pr.list[i := -1];
    e := None;
  }

  /** The workers to start, by index into the block list. */
  function Upto(n: nat): (r: set<nat>)
    ensures forall i :: i in r <==> 0 <= i < n
  {
    if n == 0 then {} else Upto(n - 1) + {n - 1}
  }

  /** Where an attempt stands: the workers in `left` have not touched their entries, the others have
      struck theirs off unless something failed. */
  ghost predicate Round(w: World, list: seq<int>, now: seq<int>, left: set<nat>, e: Option<Error>) {
    && |now| == |list|
    && (forall i :: i in left ==> i < |list| && now[i] == list[i])
    && (e.None? ==> forall i: nat :: i < |list| && i !in left ==> now[i] < 0)
    && (AlwaysExpired(w) ==> now == list && (e.None? || (e.value == Expired && Asked(list))))
  }

  /** Every slice upload is acknowledged, and nothing cancels the call. */
  ghost predicate Obliging(w: World) {
    !w.rapid && (forall t :: !w.cancelled(t)) && forall t, i, b :: w.reply(t, i, b) == Acknowledged
  }

  /** How sending can fail there: only at a block beyond the end. */
  ghost predicate Smooth(w: World, list: seq<int>, p: Plan, e: Option<Error>) {
    Obliging(w) ==> e.None? || (e.value == Other && !Inside(list, p))
  }

  /** One worker's turn.  Once a slice has failed or the call was cancelled it may or may not run. */
  method Turn(w: World, s: Server, pr: Progress, file: Bytes, p: Plan, i: nat, failed: Option<Error>,
              ghost st: Start, ghost list: seq<int>, ghost left: set<nat>, ghost from: nat) returns (e: Option<Error>)
    requires Fits(p, |file|) && Running(s, pr, st, file, p) && i in left
    requires Round(w, list, pr.list, left, failed) && Smooth(w, list, p, failed) && from <= |s.log| && Quiet(w, s.log[from..], failed, p)
    modifies s, pr
    ensures Running(s, pr, st, file, p) && s.creates == old(s.creates) && s.next == old(s.next)
    ensures Kept(old(s.stored), s.stored, file, p)
    ensures OnlyPending(old(s.stored), s.stored, if Asked(list) then Some(pr.id) else None)
    ensures Round(w, list, pr.list, left - {i}, e) && Smooth(w, list, p, e)
    ensures AlwaysExpired(w) ==> s.stored == old(s.stored)
    ensures old(s.log) <= s.log && Quiet(w, s.log[from..], e, p)
  {
    e := failed;
    var skip := *;
    RoundStep(w, list, pr.list, left, failed, i);
    KeptSame(s.stored, file, p);
    hide Round, AlwaysExpired, Fits, Kept, Smooth, Carried, Quiet;
    if w.cancelled(|s.log|) && e.None? {
      e := Some(Canceled);
      assert CanStop(w);
      QuietCancelled(w, s.log[from..], p);
      SmoothFails(w, list, p, Canceled);
    }
    if pr.list[i] >= 0 && (e.None? || !skip) {
      RoundReply(w, |s.log|, pr.id, pr.list[i]);
      SmoothReply(w, list, p, |s.log|, pr.id, i);
      assert list[i] in list;
      ghost var log, q := s.log, Sent(pr.id, pr.list[i], w.reply(|s.log|, pr.id, pr.list[i]), w.cancelled(|s.log|));
      var failure := SendSlice(w, s, pr, file, p, i, st);
      QuietOn(w, log, from, e, q, p);
      if e.None? {
        e := failure;
      }
    }
  }

  /** All workers of one attempt, in any order; Wait reports a failure. */
  method SendAll(w: World, s: Server, pr: Progress, file: Bytes, p: Plan, ghost st: Start) returns (e: Option<Error>)
    requires Fits(p, |file|) && Running(s, pr, st, file, p)
    modifies s, pr
    ensures Running(s, pr, st, file, p) && s.creates == old(s.creates) && s.next == old(s.next)
    ensures Kept(old(s.stored), s.stored, file, p) && OnlyPending(old(s.stored), s.stored, old(PendingOf(pr)))
    ensures e.None? ==> !Asked(pr.list)
    ensures AlwaysExpired(w) && Asked(pr.list) ==> e == Some(Expired)
    ensures AlwaysExpired(w) ==> s.stored == old(s.stored) && pr.list == old(pr.list)
    ensures Smooth(w, old(pr.list), p, e)
    ensures old(s.log) <= s.log && Quiet(w, s.log[|old(s.log)|..], e, p)
  {
    e := None;
    QuietBegins(w, s.log, p);
    ghost var list, was, pending := pr.list, s.stored, PendingOf(pr);
    var left := Upto(|pr.list|);
    RoundBegins(w, list, left);
    hide Round, Running, AlwaysExpired, Fits, Kept, Smooth, Asked, Quiet;
    KeptSame(s.stored, file, p);
    SmoothBegins(w, list, p);
    while left != {}
      invariant Running(s, pr, st, file, p) && s.creates == old(s.creates) && s.next == old(s.next)
      invariant Kept(was, s.stored, file, p) && OnlyPending(was, s.stored, pending)
      invariant Round(w, list, pr.list, left, e) && Smooth(w, list, p, e)
      invariant AlwaysExpired(w) ==> s.stored == was
      invariant old(s.log) <= s.log && Quiet(w, s.log[|old(s.log)|..], e, p)
      decreases |left|
    {
      var i :| i in left;
      ghost var stored := s.stored;
      e := Turn(w, s, pr, file, p, i, e, st, list, left, |old(s.log)|);
      KeptOnward(was, stored, s.stored, file, p);
      PendingOnward(was, stored, s.stored, pending, pending);
      left := left - {i};
    }
    RoundEnds(w, list, pr.list, left, e);
  }

  lemma QuietBegins(w: World, log: seq<Request>, p: Plan)
    ensures Quiet(w, log[|log|..], None, p)
  {
  }

  lemma QuietCancelled(w: World, log: seq<Request>, p: Plan)
    requires CanStop(w) && Quiet(w, log, None, p)
    ensures Quiet(w, log, Some(Canceled), p)
  {
  }

  /** One more slice: the first failure is the one reported. */
  lemma QuietOn(w: World, log: seq<Request>, from: nat, e: Option<Error>, q: Request, p: Plan)
    requires from <= |log| && Quiet(w, log[from..], e, p) && q.Sent? && (e.None? ==> !q.late)
    ensures Quiet(w, (log + [q])[from..], if e.None? then SliceEnds(q.reply, q.block < p.count) else e, p)
  {
    var was := log[from..];
    assert (log + [q])[from..] == was + [q];
    assert q in was + [q] && forall a :: a in was ==> a in was + [q];
  }

  lemma RoundBegins(w: World, list: seq<int>, left: set<nat>)
    requires left == Upto(|list|)
    ensures Round(w, list, list, left, None)
  {
  }

  lemma RoundReply(w: World, tick: nat, id: nat, b: nat)
    ensures AlwaysExpired(w) ==> w.reply(tick, id, b) == Refused(Expired)
  {
  }

  /** One worker's turn: skipped, cancelled, struck off or failed. */
  lemma RoundStep(w: World, list: seq<int>, now: seq<int>, left: set<nat>, e: Option<Error>, i: nat)
    requires Round(w, list, now, left, e) && i in left
    ensures i < |now| && now[i] == list[i]
    ensures (e.Some? || now[i] < 0) ==> Round(w, list, now, left - {i}, e)
    ensures CanStop(w) ==> forall f: Error :: Round(w, list, now, left - {i}, Some(f))
    ensures !AlwaysExpired(w) ==> Round(w, list, now[i := -1], left - {i}, e)
    ensures !AlwaysExpired(w) ==> forall f: Error :: Round(w, list, now, left - {i}, Some(f))
    ensures now[i] >= 0 ==> Round(w, list, now, left - {i}, if e.Some? then e else Some(Expired))
  {
    assert list[i] in list;
  }

  lemma RoundEnds(w: World, list: seq<int>, now: seq<int>, left: set<nat>, e: Option<Error>)
    requires Round(w, list, now, left, e) && left == {}
    ensures e.None? ==> !Asked(now)
    ensures AlwaysExpired(w) ==> now == list
    ensures AlwaysExpired(w) && Asked(list) ==> e == Some(Expired)
  {
    if AlwaysExpired(w) && Asked(list) {
      var b :| b in list && b >= 0;
      var j: nat :| j < |list| && list[j] == b;
      assert j !in left;
    }
  }

  /** Every slice upload answers that the id has expired, and nothing cancels the call. */
  ghost predicate AlwaysExpired(w: World) {
    (forall t :: !w.cancelled(t)) && forall t, i, b :: w.reply(t, i, b) == Refused(Expired)
  }

  lemma SmoothBegins(w: World, list: seq<int>, p: Plan)
    ensures Smooth(w, list, p, None)
  {
  }

  lemma SmoothFails(w: World, list: seq<int>, p: Plan, e: Error)
    requires CanStop(w)
    ensures Smooth(w, list, p, Some(e))
  {
  }

  lemma SmoothReply(w: World, list: seq<int>, p: Plan, tick: nat, id: nat, i: nat)
    requires i < |list| && list[i] >= 0
    ensures Smooth(w, list, p, SliceEnds(w.reply(tick, id, list[i]), list[i] < p.count))
  {
    assert list[i] in list;
  }

  /** How a Put ends; `Issued` means that create was called for `id` after `expiries` expired ids. */
  datatype Outcome = EmptyFile | Existing | Failed(e: Error) | Issued(id: nat, expiries: nat, ok: bool)

  /** The progress object a call may pick up. */
  function Held(c: Cache, key: string): set<object>
    reads c
  {
    if key in c.entries && c.entries[key].Some? then {c.entries[key].value} else {}
  }

  /** The store holds nothing, or an upload id that the server knows. */
  ghost predicate CacheKnown(s: Server, c: Cache, key: string)
    reads s`stored, s`next, c, Held(c, key)
  {
    s.Valid() && (key in c.entries && c.entries[key].Some? ==> c.entries[key].value.id in s.stored)
  }

  /** What a call would pick up now. */
  ghost function Saved(s: Server, c: Cache, key: string): Option<Start>
    reads s`stored, s`next, c, Held(c, key)
  {
    if key in c.entries && c.entries[key].Some? && c.entries[key].value.id in s.stored then Some(Now(s, c.entries[key].value))
    else None
  }

  /** The id under which a call that picks up the saved progress has something to send. */
  function Pending(c: Cache, key: string): Option<nat>
    reads c, Held(c, key)
  {
    if key in c.entries && c.entries[key].Some? then PendingOf(c.entries[key].value) else None
  }

  /** What the next call may find after a call under plan `p` that found `before`: nothing, conserved
      progress of a new id, or what it carried on of the old one. */
  ghost predicate Succeeds(before: Option<Start>, after: Option<Start>, file: Bytes, p: Plan)
    requires Fits(p, |file|)
  {
    after.None? || Conserved(after.value, file, p) || (before.Some? && Carried(before.value, after.value, file, p))
  }

  /** The saved progress is conserved under this plan. */
  ghost predicate SavedSound(saved: Option<Start>, file: Bytes, p: Plan)
    requires Fits(p, |file|)
  {
    saved.Some? ==> Conserved(saved.value, file, p)
  }

  /** Sending all of it makes a complete file. */
  ghost predicate Ready(saved: Option<Start>, file: Bytes, p: Plan)
    requires Fits(p, |file|)
  {
    saved.Some? ==> Suits(saved.value, file, p)
  }

  /** Conservation is kept, and enough, as long as the plan stays the same. */
  lemma SoundStays(before: Option<Start>, after: Option<Start>, file: Bytes, p: Plan)
    requires Fits(p, |file|) && SavedSound(before, file, p) && Succeeds(before, after, file, p)
    ensures SavedSound(after, file, p) && Ready(before, file, p)
  {
    if before.Some? {
      ConservedSuits(before.value, file, p);
      if after.Some? && Carried(before.value, after.value, file, p) { CarriedConserves(before.value, after.value, file, p); }
    }
  }

  /** A server that never reports block 0 as present, under which every id expires at once. */
  ghost predicate Stubborn(w: World) {
    !w.rapid && AlwaysExpired(w) && forall t :: w.pre(t).Fresh? && 0 !in w.pre(t).have
  }

  /** On such a server nothing of block 0 is stored, and it is still listed. */
  ghost predicate Hopeless(w: World, s: Server, pr: Progress)
    reads s`stored, pr
  {
    Stubborn(w) && pr.id in s.stored && 0 !in s.stored[pr.id] && 0 in pr.list
  }

  lemma HopelessMeans(w: World, s: Server, pr: Progress)
    requires pr.id in s.stored
    ensures Hopeless(w, s, pr) ==> Stubborn(w) && AlwaysExpired(w) && Asked(pr.list)
    ensures Hopeless(w, s, pr) <==> Stubborn(w) && 0 !in s.stored[pr.id] && 0 in pr.list
  {
  }

  /** Only what some precreate reported is stored under the id. */
  ghost predicate NothingSent(w: World, s: Server, id: nat)
    reads s`stored
  {
    id in s.stored && exists t :: w.pre(t).Fresh? && s.stored[id].Keys == w.pre(t).have
  }

  predicate Stops(r: Outcome) {
    r.Existing? || r.Failed?
  }

  /** Saved progress after a failure, then a restart under a new id if the old one has expired. */
  method Restart(w: World, s: Server, c: Cache, key: string, pr: Progress, e: Error, file: Bytes, p: Plan, ghost st: Start)
      returns (r: Option<Outcome>, pr': Progress, ghost st': Start)
    requires Fits(p, |file|) && Honest(w, p.count) && Running(s, pr, st, file, p)
    modifies s, c, pr
    ensures s.creates == old(s.creates) && c.entries - {key} == old(c.entries) - {key}
    ensures Kept(old(s.stored), s.stored, file, p) && OnlyPending(old(s.stored), s.stored, None)
    ensures key in c.entries && c.entries[key] == Some(pr') && Running(s, pr', st', file, p)
    ensures r.Some? ==> pr' == pr && st' == st && Stops(r.value)
    ensures r.None? ==> e == Expired && fresh(pr') && pr'.id !in old(s.stored) && Conserved(st', file, p) && NothingSent(w, s, pr'.id)
    ensures e != Expired ==> r == Some(Failed(e))
    ensures Stubborn(w) && e == Expired ==> r.None? && Hopeless(w, s, pr')
    ensures pr.list == Remaining(old(pr.list))
    ensures if e != Expired then s.log == old(s.log)
      else exists answer :: s.log == old(s.log) + [Precreated(answer)] && r == Verdict(answer)
  {
    hide Carried, Complete, Conserved;
    FilterConserves(st, s.stored[pr.id], pr.list, file, p);
    pr.list := Remaining(pr.list);
    c.Save(key, Some(pr));
    pr', st' := pr, st;
    if e != Expired {
      KeptSame(s.stored, file, p);
      return Some(Failed(e)), pr, st;
    }
    var reply, renewed := Precreate(w, s, file, p);
    if reply.PreFailed? {
      return Some(Failed(Other)), pr, st;
    }
    if reply.AlreadyThere? {
      return Some(Existing), pr, st;
    }
    pr', st' := renewed, Now(s, renewed);
    CarriedSame(st', file, p);
    c.Save(key, Some(pr'));
    r := None;
  }

  /** The first upload id: saved progress, or a precreate. */
  method Begin(w: World, s: Server, c: Cache, key: string, file: Bytes, p: Plan) returns (r: Option<Outcome>, pr: Progress?)
    requires Fits(p, |file|) && Honest(w, p.count) && CacheKnown(s, c, key)
    modifies s, c
    ensures s.creates == old(s.creates) && c.entries == old(c.entries) - {key} && s.Valid()
    ensures Kept(old(s.stored), s.stored, file, p) && OnlyPending(old(s.stored), s.stored, None)
    ensures r.None? ==> pr != null && Known(s, pr)
    ensures r.None? && old(Saved(s, c, key)).Some? ==> {pr} == old(Held(c, key)) && old(Saved(s, c, key)) == Some(Now(s, pr))
    ensures r.None? && old(Saved(s, c, key)).Some? ==> PendingOf(pr) == old(Pending(c, key)) && pr.id in old(s.stored)
    ensures r.None? && old(Saved(s, c, key)).None? ==> fresh(pr) && pr.id !in old(s.stored) && Conserved(Now(s, pr), file, p)
    ensures r.Some? ==> CacheKnown(s, c, key) && Held(c, key) == {} && Saved(s, c, key).None? && Pending(c, key).None?
    ensures r.Some? ==> Stops(r.value) && old(Saved(s, c, key)).None?
    ensures Stubborn(w) && key !in old(c.entries) ==> r.None? && Hopeless(w, s, pr)
    ensures if old(Saved(s, c, key)).Some? then r.None? && s.log == old(s.log)
      else exists answer :: s.log == old(s.log) + [Precreated(answer)] && r == Verdict(answer)
  {
    hide Complete, Conserved, Kept;
    KeptSame(s.stored, file, p);
    var saved := c.Take(key);
    if saved.Some? {
      return None, saved.value;
    }
    var reply, begun := Precreate(w, s, file, p);
    pr := begun;
    if reply.PreFailed? {
      return Some(Failed(Other)), null;
    }
    if reply.AlreadyThere? {
      return Some(Existing), null;
    }
    r := None;
  }

  lemma NoneBeyond(st: Start, now: Start, file: Bytes, p: Plan)
    requires Fits(p, |file|) && Carried(st, now, file, p)
    ensures Inside(st.list, p) ==> Inside(now.list, p)
  {
  }

  /** Where the call stands after an attempt. */
  ghost predicate AttemptEnds(w: World, log: seq<Request>, e: Option<Error>, stop: Option<Outcome>, expiries: nat, began: bool, p: Plan) {
    if e.None? then GoneOn(w, log, expiries, began, p)
    else if stop.Some? then Accounts(w, log, stop.value, began, p)
    else Under(w, log, expiries + 1, began, p)
  }

  /** The attempt sent slices, from `log` to `mid`, and after an expired id asked for a new one. */
  lemma AttemptAccounts(w: World, log: seq<Request>, mid: seq<Request>, from: nat, now: seq<Request>, e: Option<Error>,
                        stop: Option<Outcome>, expiries: nat, began: bool, p: Plan)
    requires !w.rapid && from <= |log| && Under(w, log[from..], expiries, began, p) && expiries < 2
    requires log <= mid && Quiet(w, mid[|log|..], e, p)
    ensures e.None? && now == mid ==> AttemptEnds(w, now[from..], e, stop, expiries, began, p)
    ensures e.Some? && e.value != Expired && now == mid && stop == Some(Failed(e.value)) ==>
      AttemptEnds(w, now[from..], e, stop, expiries, began, p)
    ensures e == Some(Expired) && (exists answer :: now == mid + [Precreated(answer)] && stop == Verdict(answer)) ==>
      AttemptEnds(w, now[from..], e, stop, expiries, began, p)
  {
    var was, sent := log[from..], mid[|log|..];
    assert mid[from..] == was + sent;
    LastIsFresh(w, was, expiries, began, p);
    hide Accounts, Under, GoneOn, Quiet, Renewed;
    if e.None? {
      EndsWell(w, was, sent, expiries, began, p);
    } else if e.value != Expired {
      EndsBadly(w, was, sent, e.value, began, p);
    } else if answer :| now == mid + [Precreated(answer)] && stop == Verdict(answer) {
      var more := sent + [Precreated(answer)];
      assert now[from..] == was + more;
      RenewedSo(w, sent, answer, p);
      EndsRenewed(w, was, more, answer, expiries, began, p);
    }
  }

  lemma RenewedSo(w: World, sent: seq<Request>, answer: PreReply, p: Plan)
    requires Quiet(w, sent, Some(Expired), p)
    ensures Renewed(w, sent + [Precreated(answer)], answer, p)
  {
    CauseStays(w, sent, [Precreated(answer)], Expired, p);
    assert (sent + [Precreated(answer)])[..|sent|] == sent;
  }

  lemma UnderIsGoneOn(w: World, log: seq<Request>, expiries: nat, began: bool, p: Plan)
    ensures Under(w, log, expiries, began, p) ==> GoneOn(w, log, expiries, began, p)
  {
  }

  lemma LastIsFresh(w: World, log: seq<Request>, expiries: nat, began: bool, p: Plan)
    requires Under(w, log, expiries, began, p)
    ensures Since(log) == [] && (log != [] && log[|log| - 1].Precreated? ==> log[|log| - 1].answer.Fresh?)
  {
    if log != [] { assert log[|log| - 1] in log; }
  }

  /** One attempt: send what is listed; after a failure save the progress and restart if the id expired. */
  method Attempt(w: World, s: Server, c: Cache, key: string, pr: Progress, file: Bytes, p: Plan, ghost st: Start,
                 ghost from: nat, ghost expiries: nat, ghost began: bool)
      returns (e: Option<Error>, stop: Option<Outcome>, pr': Progress, ghost st': Start)
    requires !w.rapid && expiries < 2 && from <= |s.log| && Under(w, s.log[from..], expiries, began, p)
    requires Fits(p, |file|) && Honest(w, p.count) && Running(s, pr, st, file, p)
    modifies s, c, pr
    ensures s.creates == old(s.creates) && c.entries - {key} == old(c.entries) - {key}
    ensures Kept(old(s.stored), s.stored, file, p) && OnlyPending(old(s.stored), s.stored, old(PendingOf(pr)))
    ensures Running(s, pr', st', file, p)
    ensures e.None? ==> stop.None? && pr' == pr && st' == st && !Asked(pr.list) && c.entries == old(c.entries)
    ensures e.Some? ==> key in c.entries && c.entries[key] == Some(pr')
    ensures e.Some? && stop.None? ==>
      fresh(pr') && pr'.id !in old(s.stored) && Conserved(st', file, p) && NothingSent(w, s, pr'.id)
    ensures stop.Some? ==> pr' == pr && st' == st && Stops(stop.value)
    ensures old(Hopeless(w, s, pr)) ==> e.Some? && stop.None? && Hopeless(w, s, pr')
    ensures Obliging(w) ==> if Inside(old(pr.list), p) then e.None? else stop == Some(Failed(Other))
    ensures old(s.log) <= s.log && AttemptEnds(w, s.log[from..], e, stop, expiries, began, p)
  {
    hide Honest, Conserved, Complete, Fits, Stubborn, Hopeless, NothingSent, Kept, Obliging, Carried, Quiet, Under, AttemptEnds;
    ghost var log := s.log;
    HopelessMeans(w, s, pr);
    ghost var list, was := pr.list, s.stored;
    NoneBeyond(st, Now(s, pr), file, p);
    e := SendAll(w, s, pr, file, p, st);
    stop, pr', st' := None, pr, st;
    AttemptAccounts(w, log, s.log, from, s.log, e, stop, expiries, began, p);
    if e.None? {
      SentExactly(st, Now(s, pr), file, p);
      return;
    }
    HopelessMeans(w, s, pr);
    ghost var stored, mid := s.stored, s.log;
    stop, pr', st' := Restart(w, s, c, key, pr, e.value, file, p, st);
    AttemptAccounts(w, log, mid, from, s.log, e, stop, expiries, began, p);
    KeptOnward(was, stored, s.stored, file, p);
    PendingOnward(was, stored, s.stored, if Asked(list) then Some(pr.id) else None, None);
  }

  /** Where the progress of a call comes from: what it picked up, or a precreate of its own. */
  ghost predicate Origin(saved: Option<Start>, expiries: nat, st: Start, file: Bytes, p: Plan)
    requires Fits(p, |file|)
  {
    if expiries == 0 && saved.Some? then st == saved.value else Conserved(st, file, p)
  }

  /** The retry loop: at most two attempts. */
  method Attempts(w: World, s: Server, c: Cache, key: string, start: Progress, file: Bytes, p: Plan, ghost st0: Start,
                  ghost from: nat, ghost began: bool)
      returns (r: Option<Outcome>, pr: Progress, expiries: nat, ghost st: Start)
    requires Fits(p, |file|) && Honest(w, p.count) && Running(s, start, st0, file, p) && key !in c.entries
    requires !w.rapid && from <= |s.log| && Under(w, s.log[from..], 0, began, p)
    modifies s, c, start
    ensures s.creates == old(s.creates) && c.entries - {key} == old(c.entries) - {key}
    ensures Kept(old(s.stored), s.stored, file, p) && OnlyPending(old(s.stored), s.stored, old(PendingOf(start)))
    ensures Running(s, pr, st, file, p) && expiries <= 2 && (key in c.entries ==> c.entries[key] == Some(pr))
    ensures expiries == 0 ==> pr == start && st == st0
    ensures expiries > 0 ==> fresh(pr) && pr.id !in old(s.stored) && Conserved(st, file, p)
    ensures r.Some? ==> Stops(r.value)
    ensures r.None? && expiries < 2 ==> !Asked(pr.list)
    ensures r.None? && expiries == 2 ==> NothingSent(w, s, pr.id)
    ensures old(Hopeless(w, s, start)) ==> r.None? && expiries == 2 && Hopeless(w, s, pr)
    ensures Obliging(w) ==> if Inside(old(start.list), p) then r.None? && expiries == 0 else r == Some(Failed(Other))
    ensures old(s.log) <= s.log
    ensures if r.Some? then Accounts(w, s.log[from..], r.value, began, p) else GoneOn(w, s.log[from..], expiries, began, p)
  {
    pr, expiries, st := start, 0, st0;
    ghost var hopeless := Hopeless(w, s, pr);
    ghost var was, pending, inside := s.stored, PendingOf(start), Inside(start.list, p);
    KeptSame(s.stored, file, p);
    hide Honest, Conserved, Complete, Fits, Stubborn, Hopeless, NothingSent, Kept, Carried, Obliging, Inside, Accounts, Under, GoneOn,
         OnlyPending, Running;
    while expiries < 2
      invariant old(s.log) <= s.log && Under(w, s.log[from..], expiries, began, p)
      invariant expiries <= 2 && Running(s, pr, st, file, p)
      invariant s.creates == old(s.creates) && c.entries - {key} == old(c.entries) - {key}
      invariant Kept(was, s.stored, file, p) && OnlyPending(was, s.stored, pending)
      invariant expiries == 0 ==> pr == start && st == st0 && PendingOf(pr) == pending && key !in c.entries
      invariant expiries > 0 ==> fresh(pr) && pr.id !in was && Conserved(st, file, p) && key in c.entries && c.entries[key] == Some(pr)
      invariant expiries > 0 ==> NothingSent(w, s, pr.id) && !Obliging(w)
      invariant hopeless ==> Hopeless(w, s, pr)
    {
      ghost var stored, next := s.stored, PendingOf(pr);
      var e, stop;
      e, stop, pr, st := Attempt(w, s, c, key, pr, file, p, st, from, expiries, began);
      hide Honest, Conserved, Complete, Fits, Stubborn, Hopeless, NothingSent, Kept, Carried, Obliging, Inside, Accounts, Under, GoneOn,
           OnlyPending, Running, Asked, PendingOf;
      KeptOnward(was, stored, s.stored, file, p);
      PendingOnward(was, stored, s.stored, pending, next);
      if e.None? || stop.Some? {
        r := stop;
        return;
      }
      expiries := expiries + 1;
    }
    UnderIsGoneOn(w, s.log[from..], expiries, began, p);
    r := None;
  }

  /** How a Put that found `saved` ends: an id is completely stored exactly if it is a new one or what was
      found suits the plan; after two expiries nothing was sent under it. */
  ghost predicate PutEnds(w: World, stored: map<nat, map<nat, Bytes>>, r: Outcome, saved: Option<Start>, file: Bytes, p: Plan)
    requires Fits(p, |file|)
  {
    && (r.Issued? ==> r.id in stored && r.expiries <= 2)
    && (r.Issued? && r.expiries < 2 ==> (Complete(stored[r.id], file, p) <==> r.expiries == 1 || Ready(saved, file, p)))
    && (r.Issued? && r.expiries == 2 ==> exists t :: w.pre(t).Fresh? && stored[r.id].Keys == w.pre(t).have)
    && (r.Issued? && r.expiries == 0 && saved.Some? ==> Inside(saved.value.list, p))
  }

  lemma EndsExactly(w: World, s: Server, pr: Progress, saved: Option<Start>, expiries: nat, st: Start, ok: bool, file: Bytes, p: Plan)
    requires Fits(p, |file|) && Running(s, pr, st, file, p) && Origin(saved, expiries, st, file, p) && expiries <= 2
    requires expiries < 2 ==> !Asked(pr.list)
    requires expiries == 2 ==> NothingSent(w, s, pr.id)
    ensures PutEnds(w, s.stored, Issued(pr.id, expiries, ok), saved, file, p)
  {
    if expiries < 2 {
      SentExactly(st, Now(s, pr), file, p);
      if !(expiries == 0 && saved.Some?) { ConservedSuits(st, file, p); }
      hide Suits, Complete, Conserved, Carried, Fits;
    }
  }

  /** What the store holds then. */
  lemma LeavesSuccessor(s: Server, c: Cache, key: string, pr: Progress, saved: Option<Start>, expiries: nat, st: Start,
                        file: Bytes, p: Plan)
    requires Fits(p, |file|) && Running(s, pr, st, file, p) && Origin(saved, expiries, st, file, p)
    requires key in c.entries ==> c.entries[key].None? || c.entries[key] == Some(pr)
    ensures CacheKnown(s, c, key) && Succeeds(saved, Saved(s, c, key), file, p)
    ensures Pending(c, key).None? || Pending(c, key) == PendingOf(pr)
    ensures PendingOf(pr).Some? ==> Asked(st.list)
  {
    if Conserved(st, file, p) { CarriedConserves(st, Now(s, pr), file, p); }
    hide Conserved, Fits;
  }

  /** The last step: create the file, and clear the saved progress if that worked. */
  method Create(w: World, s: Server, c: Cache, key: string, pr: Progress, file: Bytes, p: Plan, expiries: nat,
                ghost saved: Option<Start>, ghost st: Start) returns (r: Outcome)
    requires Fits(p, |file|) && Running(s, pr, st, file, p) && Origin(saved, expiries, st, file, p) && expiries <= 2
    requires expiries < 2 ==> !Asked(pr.list)
    requires expiries == 2 ==> NothingSent(w, s, pr.id)
    requires key in c.entries ==> c.entries[key] == Some(pr)
    modifies s`creates, c
    ensures r == Issued(pr.id, expiries, w.createOk) && s.creates == old(s.creates) + [pr.id]
    ensures PutEnds(w, s.stored, r, saved, file, p) && c.entries - {key} == old(c.entries) - {key}
    ensures CacheKnown(s, c, key) && Held(c, key) <= {pr} && Succeeds(saved, Saved(s, c, key), file, p)
    ensures Pending(c, key).None? || Pending(c, key) == PendingOf(pr)
    ensures r.ok ==> key in c.entries && c.entries[key].None?
  {
    EndsExactly(w, s, pr, saved, expiries, st, w.createOk, file, p);
    hide Fits, Running, Origin, PutEnds, Succeeds, CacheKnown, Saved, Pending;
    s.creates := s.creates + [pr.id];
    if w.createOk {
      ghost var now := c.entries;
      c.Save(key, None);
      assert c.entries - {key} == now - {key};
    }
    r := Issued(pr.id, expiries, w.createOk);
    LeavesSuccessor(s, c, key, pr, saved, expiries, st, file, p);
  }

  /** The retry loop and, if all blocks were sent or two ids expired, the creation of the file. */
  method SendAndCreate(w: World, s: Server, c: Cache, key: string, start: Progress, file: Bytes, p: Plan, ghost saved: Option<Start>,
                       ghost from: nat) returns (r: Outcome)
    requires !w.rapid && from <= |s.log| && Under(w, s.log[from..], 0, saved.None?, p)
    requires Fits(p, |file|) && Honest(w, p.count) && Known(s, start) && key !in c.entries && Origin(saved, 0, Now(s, start), file, p)
    modifies s, c, start
    ensures r != EmptyFile && c.entries - {key} == old(c.entries) - {key}
    ensures CacheKnown(s, c, key) && fresh(Held(c, key) - {start}) && Succeeds(saved, Saved(s, c, key), file, p)
    ensures Kept(old(s.stored), s.stored, file, p) && OnlyPending(old(s.stored), s.stored, old(PendingOf(start)))
    ensures Pending(c, key).Some? && Pending(c, key).value in old(s.stored) ==> Pending(c, key) == old(PendingOf(start))
    ensures s.creates == old(s.creates) + if r.Issued? then [r.id] else []
    ensures PutEnds(w, s.stored, r, saved, file, p)
    ensures r.Issued? && r.expiries < 2 ==> Pending(c, key).None?
    ensures r.Issued? && r.ok ==> key in c.entries && c.entries[key].None?
    ensures old(Hopeless(w, s, start)) ==>
      r.Issued? && r.expiries == 2 && !Complete(s.stored[r.id], file, p)
    ensures Obliging(w) ==> r == if Inside(old(start.list), p) then Issued(start.id, 0, w.createOk) else Failed(Other)
    ensures old(s.log) <= s.log && Accounts(w, s.log[from..], r, saved.None?, p)
  {
    ghost var st0 := Now(s, start);
    CarriedSame(st0, file, p);
    hide Kept, NothingSent, Conserved, Honest, Complete, Stubborn, Hopeless, Carried, Inside, Obliging, Succeeds, PutEnds, Ready, Fits,
         OnlyPending, CacheKnown, Saved, Under, GoneOn;
    var stop, pr, expiries, st := Attempts(w, s, c, key, start, file, p, st0, from, saved.None?);
    hide Kept, NothingSent, Conserved, Honest, Complete, Stubborn, Hopeless, Carried, Inside, Obliging, Succeeds, PutEnds, Ready, Fits,
         OnlyPending, CacheKnown, Saved, Under, GoneOn, Running, PendingOf, Pending, Held, Accounts;
    if stop.Some? {
      LeavesSuccessor(s, c, key, pr, saved, expiries, st, file, p);
      NotIssued(w, s.stored, stop.value, saved, file, p);
      return stop.value;
    }
    HopelessIsIncomplete(w, s, pr, file, p);
    AskedBefore(s, pr, st, file, p);
    IssuedAccounts(w, s.log[from..], pr.id, expiries, saved.None?, p);
    r := Create(w, s, c, key, pr, file, p, expiries, saved, st);
    hide Kept, NothingSent, Conserved, Honest, Complete, Stubborn, Hopeless, Carried, Inside, Obliging, Succeeds, PutEnds, Ready, Fits,
         OnlyPending, CacheKnown, Saved, GoneOn, Running, PendingOf, Pending, Held, Accounts;
  }

  lemma IssuedAccounts(w: World, log: seq<Request>, id: nat, expiries: nat, began: bool, p: Plan)
    requires !w.rapid && GoneOn(w, log, expiries, began, p)
    ensures Accounts(w, log, Issued(id, expiries, w.createOk), began, p)
  {
  }

  /** What is to be sent now was so from the beginning. */
  lemma AskedBefore(s: Server, pr: Progress, st: Start, file: Bytes, p: Plan)
    requires Fits(p, |file|) && Running(s, pr, st, file, p)
    ensures Asked(pr.list) ==> Asked(st.list)
  {
  }

  lemma NotIssued(w: World, stored: map<nat, map<nat, Bytes>>, r: Outcome, saved: Option<Start>, file: Bytes, p: Plan)
    requires Fits(p, |file|) && !r.Issued?
    ensures PutEnds(w, stored, r, saved, file, p)
  {
  }

  lemma HopelessIsIncomplete(w: World, s: Server, pr: Progress, file: Bytes, p: Plan)
    requires Fits(p, |file|) && pr.id in s.stored
    ensures Hopeless(w, s, pr) ==> !Complete(s.stored[pr.id], file, p)
  {
    if Complete(s.stored[pr.id], file, p) { assert 0 in s.stored[pr.id]; }
  }

  /** Put of a file that is not empty, with its plan. */
  method PutBlocks(w: World, s: Server, c: Cache, key: string, file: Bytes, p: Plan) returns (r: Outcome)
    requires Fits(p, |file|) && Honest(w, p.count) && CacheKnown(s, c, key)
    modifies s, c, Held(c, key)
    ensures r != EmptyFile && c.entries - {key} == old(c.entries) - {key}
    ensures CacheKnown(s, c, key) && fresh(Held(c, key) - old(Held(c, key)))
    ensures Succeeds(old(Saved(s, c, key)), Saved(s, c, key), file, p)
    ensures Kept(old(s.stored), s.stored, file, p) && OnlyPending(old(s.stored), s.stored, old(Pending(c, key)))
    ensures Pending(c, key).Some? && Pending(c, key).value in old(s.stored) ==> Pending(c, key) == old(Pending(c, key))
    ensures s.creates == old(s.creates) + if r.Issued? then [r.id] else []
    ensures PutEnds(w, s.stored, r, old(Saved(s, c, key)), file, p)
    ensures r.Issued? && r.expiries < 2 ==> Pending(c, key).None?
    ensures r.Issued? && r.ok ==> key in c.entries && c.entries[key].None?
    ensures Stubborn(w) && key !in old(c.entries) ==>
      r.Issued? && r.expiries == 2 && !Complete(s.stored[r.id], file, p)
    ensures Obliging(w) && old(Saved(s, c, key)).Some? ==>
      r == if Inside(old(Saved(s, c, key)).value.list, p) then Issued(old(c.entries[key].value.id), 0, w.createOk) else Failed(Other)
    ensures old(s.log) <= s.log && Accounts(w, s.log[|old(s.log)|..], r, old(Saved(s, c, key)).None?, p)
  {
    ghost var log := s.log;
    KeptSame(s.stored, file, p);
    ghost var saved, was, pending, entries := Saved(s, c, key), s.stored, Pending(c, key), c.entries;
    hide Kept, Conserved, Honest, Complete, Carried, Suits, Inside, NothingSent, Stubborn, Hopeless, Obliging, Accounts, Under, Fits,
         CacheKnown, Saved, Held, Pending, PendingOf;
    if w.rapid {
      RapidEnds(w, log, p);
      SuccessorOfItself(saved, file, p);
      return Existing;
    }
    hide PutEnds;
    var ended, begun := Begin(w, s, c, key, file, p);
    hide Kept, Conserved, Honest, Complete, Carried, Suits, Inside, NothingSent, Stubborn, Hopeless, Obliging, Accounts, Under, Fits,
         CacheKnown, Saved, Held, Pending, PendingOf, PutEnds, Succeeds, OnlyPending;
    BeginAccounts(w, log, s.log, ended, saved.None?, p);
    if ended.Some? {
      NotIssued(w, s.stored, ended.value, saved, file, p);
      return ended.value;
    }
    assert c.entries - {key} == entries - {key};
    ghost var stored, next := s.stored, PendingOf(begun);
    r := SendAndCreate(w, s, c, key, begun, file, p, saved, |log|);
    hide Kept, Conserved, Honest, Complete, Carried, Suits, Inside, NothingSent, Stubborn, Hopeless, Obliging, Accounts, Under, Fits,
         CacheKnown, Saved, Held, Pending, PendingOf, PutEnds, Succeeds, OnlyPending;
    KeptOnward(was, stored, s.stored, file, p);
    PendingOnward(was, stored, s.stored, pending, next);
  }

  lemma BeginAccounts(w: World, log: seq<Request>, now: seq<Request>, ended: Option<Outcome>, began: bool, p: Plan)
    requires !w.rapid && log <= now
    requires if began then exists answer :: now == log + [Precreated(answer)] && ended == Verdict(answer) else ended.None? && now == log
    ensures if ended.Some? then Accounts(w, now[|log|..], ended.value, began, p) else Under(w, now[|log|..], 0, began, p)
  {
    var asked := now[|log|..];
    if began {
      var answer :| now == log + [Precreated(answer)] && ended == Verdict(answer);
      assert asked == [Precreated(answer)] && asked[..0] == [];
    }
  }

  lemma RapidEnds(w: World, log: seq<Request>, p: Plan)
    requires w.rapid
    ensures !Stubborn(w) && !Obliging(w) && forall began :: Accounts(w, log[|log|..], Existing, began, p)
  {
  }

  lemma SuccessorOfItself(saved: Option<Start>, file: Bytes, p: Plan)
    requires Fits(p, |file|)
    ensures Succeeds(saved, saved, file, p)
  {
    if saved.Some? { CarriedSame(saved.value, file, p); }
  }

  /**
   Put, under the slice size the options give now, on whatever an earlier call left.  Create is called at most
   once.  The id is then completely stored exactly if it is a new one or the saved progress suits this plan;
   only when two ids have expired in this very call the loop falls through with nothing sent.  A saved list that
   names a block beyond the end is never sent to the end.  What was asked and answered accounts for the result.
   */
  method Put(w: World, s: Server, c: Cache, key: string, file: Bytes, sliceSize: nat) returns (r: Outcome)
    requires sliceSize > 0 && (|file| > 0 ==> Honest(w, PlanOf(|file|, sliceSize).count)) && CacheKnown(s, c, key)
    modifies s, c, Held(c, key)
    ensures r == EmptyFile <==> |file| == 0
    ensures c.entries - {key} == old(c.entries) - {key}
    ensures r == EmptyFile ==> s.stored == old(s.stored) && c.entries == old(c.entries)
    ensures CacheKnown(s, c, key) && fresh(Held(c, key) - old(Held(c, key)))
    ensures |file| > 0 ==>
      var p := PlanOf(|file|, sliceSize);
      && PutEnds(w, s.stored, r, old(Saved(s, c, key)), file, p)
      && Succeeds(old(Saved(s, c, key)), Saved(s, c, key), file, p) && Kept(old(s.stored), s.stored, file, p)
    ensures OnlyPending(old(s.stored), s.stored, old(Pending(c, key)))
    ensures Pending(c, key).Some? && Pending(c, key).value in old(s.stored) ==> Pending(c, key) == old(Pending(c, key))
    ensures s.creates == old(s.creates) + if r.Issued? then [r.id] else []
    ensures r.Issued? && r.expiries < 2 ==> Pending(c, key).None?
    ensures r.Issued? && r.ok ==> key in c.entries && c.entries[key].None?
    ensures |file| > 0 && Stubborn(w) && key !in old(c.entries) ==>
      r.Issued? && r.expiries == 2 && !Complete(s.stored[r.id], file, PlanOf(|file|, sliceSize))
    ensures |file| > 0 && Obliging(w) && old(Saved(s, c, key)).Some? ==>
      r == if Inside(old(Saved(s, c, key)).value.list, PlanOf(|file|, sliceSize))
           then Issued(old(c.entries[key].value.id), 0, w.createOk) else Failed(Other)
    ensures old(s.log) <= s.log && (r == EmptyFile ==> s.log == old(s.log))
    ensures |file| > 0 ==>
      Accounts(w, s.log[|old(s.log)|..], r, old(Saved(s, c, key)).None?, PlanOf(|file|, sliceSize))
  {
    if |file| < 1 {
      return EmptyFile;
    }
    hide PlanOf, Conserved, Kept, Complete, Honest, Stubborn, Fits, PutEnds, Succeeds, Inside, Obliging, Accounts;
    r := PutBlocks(w, s, c, key, file, PlanOf(|file|, sliceSize));
  }

  /** An id for which create was called is completely stored as PutEnds says. */
  ghost predicate CreatedAs(stored: map<nat, map<nat, Bytes>>, r: Outcome, saved: Option<Start>, file: Bytes, p: Plan)
    requires Fits(p, |file|)
  {
    r.Issued? && r.expiries < 2 ==>
      r.id in stored && (Complete(stored[r.id], file, p) <==> r.expiries == 1 || Ready(saved, file, p))
  }

  /** ... and has nothing to send any more. */
  ghost predicate Settled(stored: map<nat, map<nat, Bytes>>, pending: Option<nat>, r: Outcome, saved: Option<Start>, file: Bytes, p: Plan)
    requires Fits(p, |file|)
  {
    CreatedAs(stored, r, saved, file, p) && (r.Issued? && r.expiries < 2 ==> pending != Some(r.id))
  }

  /** Later calls leave it as it is. */
  lemma SettledStays(stored: map<nat, map<nat, Bytes>>, now: map<nat, map<nat, Bytes>>, pending: Option<nat>, later: Option<nat>,
                     r: Outcome, saved: Option<Start>, file: Bytes, p: Plan)
    requires Fits(p, |file|) && Settled(stored, pending, r, saved, file, p) && OnlyPending(stored, now, pending)
    requires later.Some? && later.value in stored ==> later == pending
    ensures Settled(now, later, r, saved, file, p)
  {
    hide Complete, Ready, Fits;
  }

  /** One call of a session; before it the saved entry may have vanished. */
  method Call(w: World, vanished: bool, s: Server, c: Cache, key: string, file: Bytes, sliceSize: nat)
      returns (r: Outcome, ghost saved: Option<Start>)
    requires |file| > 0 && sliceSize > 0 && Honest(w, PlanOf(|file|, sliceSize).count) && CacheKnown(s, c, key)
    modifies s, c, Held(c, key)
    ensures CacheKnown(s, c, key) && fresh(Held(c, key) - old(Held(c, key)))
    ensures saved == if vanished then None else old(Saved(s, c, key))
    ensures Succeeds(saved, Saved(s, c, key), file, PlanOf(|file|, sliceSize))
    ensures s.creates == old(s.creates) + if r.Issued? then [r.id] else []
    ensures OnlyPending(old(s.stored), s.stored, old(Pending(c, key)))
    ensures Pending(c, key).Some? && Pending(c, key).value in old(s.stored) ==> Pending(c, key) == old(Pending(c, key))
    ensures Settled(s.stored, Pending(c, key), r, saved, file, PlanOf(|file|, sliceSize))
  {
    hide PlanOf, Complete, Conserved, Honest, Fits, Ready, Inside, Obliging, Stubborn, Succeeds, Kept;
    if vanished {
      c.Expire(key);
    }
    saved := Saved(s, c, key);
    r := Put(w, s, c, key, file, sliceSize);
  }

  /** Which progress the calls of a session picked up: each nothing, or what the one before left. */
  ghost predicate Linked(saved: seq<Option<Start>>, sizes: seq<SliceSize>, file: Bytes)
    requires |file| > 0 && |saved| <= |sizes|
  {
    forall i :: 0 < i < |saved| ==> Succeeds(saved[i - 1], saved[i], file, PlanOf(|file|, sizes[i - 1]))
  }

  /** The ids for which create was called. */
  function Created(rs: seq<Outcome>): seq<nat> {
    if rs == [] then [] else Created(rs[..|rs| - 1]) + if rs[|rs| - 1].Issued? then [rs[|rs| - 1].id] else []
  }

  lemma CreatedSnoc(rs: seq<Outcome>, r: Outcome)
    ensures Created(rs + [r]) == Created(rs) + if r.Issued? then [r.id] else []
  {
    assert (rs + [r])[..|rs|] == rs;
  }

  /** What a session has achieved so far. */
  ghost predicate Progressed(stored: map<nat, map<nat, Bytes>>, pending: Option<nat>, rs: seq<Outcome>, saved: seq<Option<Start>>,
                             sizes: seq<SliceSize>, file: Bytes)
    requires |file| > 0
  {
    && |rs| == |saved| <= |sizes|
    && forall i :: 0 <= i < |rs| ==> Settled(stored, pending, rs[i], saved[i], file, PlanOf(|file|, sizes[i]))
  }

  lemma ProgressedOn(stored: map<nat, map<nat, Bytes>>, now: map<nat, map<nat, Bytes>>, pending: Option<nat>, later: Option<nat>,
                     rs: seq<Outcome>, saved: seq<Option<Start>>, r: Outcome, found: Option<Start>, sizes: seq<SliceSize>, file: Bytes)
    requires |file| > 0 && |rs| < |sizes|
    requires Progressed(stored, pending, rs, saved, sizes, file) && OnlyPending(stored, now, pending)
    requires later.Some? && later.value in stored ==> later == pending
    requires Settled(now, later, r, found, file, PlanOf(|file|, sizes[|rs|]))
    ensures Progressed(now, later, rs + [r], saved + [found], sizes, file)
  {
    forall i | 0 <= i < |rs|
      ensures Settled(now, later, rs[i], saved[i], file, PlanOf(|file|, sizes[i]))
    {
      SettledStays(stored, now, pending, later, rs[i], saved[i], file, PlanOf(|file|, sizes[i]));
    }
    hide Settled, PlanOf;
  }

  /** Any number of calls for one content, each with the slice size of its day, the saved entry vanishing now
      and then in between.  At the end every id for which create was called after fewer than two expiries is
      completely stored exactly if it was new or what its call found suited its plan. */
  method Session(ws: seq<World>, sizes: seq<SliceSize>, vanished: seq<bool>, s: Server, c: Cache, key: string, file: Bytes)
      returns (rs: seq<Outcome>, ghost saved: seq<Option<Start>>)
    requires |file| > 0 && |sizes| == |ws| == |vanished|
    requires forall i :: 0 <= i < |ws| ==> Honest(ws[i], PlanOf(|file|, sizes[i]).count)
    requires CacheKnown(s, c, key)
    modifies s, c, Held(c, key)
    ensures CacheKnown(s, c, key) && |rs| == |saved| == |ws|
    ensures s.creates == old(s.creates) + Created(rs)
    ensures Linked(saved, sizes, file) && (|ws| > 0 && !vanished[0] ==> saved[0] == old(Saved(s, c, key)))
    ensures forall i :: 0 <= i < |ws| && vanished[i] ==> saved[i].None?
    ensures forall i :: 0 <= i < |rs| ==> CreatedAs(s.stored, rs[i], saved[i], file, PlanOf(|file|, sizes[i]))
  {
    rs, saved := [], [];
    ghost var first := Saved(s, c, key);
    hide PlanOf, Honest, Succeeds, Settled, Progressed, Linked, OnlyPending, CreatedAs, Saved, Pending, Created;
    NothingYet(s.stored, Pending(c, key), sizes, file);
    for i := 0 to |ws|
      invariant CacheKnown(s, c, key) && |rs| == |saved| == i
      invariant fresh(Held(c, key) - old(Held(c, key)))
      invariant s.creates == old(s.creates) + Created(rs)
      invariant Progressed(s.stored, Pending(c, key), rs, saved, sizes, file) && Linked(saved, sizes, file)
      invariant i == 0 ==> Saved(s, c, key) == first
      invariant i > 0 && !vanished[0] ==> saved[0] == first
      invariant forall k :: 0 <= k < i && vanished[k] ==> saved[k].None?
      invariant i > 0 ==> Succeeds(saved[i - 1], Saved(s, c, key), file, PlanOf(|file|, sizes[i - 1]))
    {
      ghost var stored, pending := s.stored, Pending(c, key);
      ghost var left := Saved(s, c, key);
      var r, found := Call(ws[i], vanished[i], s, c, key, file, sizes[i]);
      CreatedSnoc(rs, r);
      LinkedOn(saved, left, found, sizes, file);
      ProgressedOn(stored, s.stored, pending, Pending(c, key), rs, saved, r, found, sizes, file);
      rs, saved := rs + [r], saved + [found];
    }
    SettledIsCreated(s.stored, Pending(c, key), rs, saved, sizes, file);
  }

  lemma NothingYet(stored: map<nat, map<nat, Bytes>>, pending: Option<nat>, sizes: seq<SliceSize>, file: Bytes)
    requires |file| > 0
    ensures Progressed(stored, pending, [], [], sizes, file) && Linked([], sizes, file) && Created([]) == []
  {
  }

  lemma LinkedOn(saved: seq<Option<Start>>, left: Option<Start>, found: Option<Start>, sizes: seq<SliceSize>, file: Bytes)
    requires |file| > 0 && |saved| < |sizes| && Linked(saved, sizes, file) && (found.None? || found == left)
    requires |saved| > 0 ==> Succeeds(saved[|saved| - 1], left, file, PlanOf(|file|, sizes[|saved| - 1]))
    ensures Linked(saved + [found], sizes, file)
  {
    hide PlanOf;
    if |saved| > 0 { NoneSucceeds(saved[|saved| - 1], file, PlanOf(|file|, sizes[|saved| - 1])); }
    hide Succeeds;
  }

  lemma NoneSucceeds(before: Option<Start>, file: Bytes, p: Plan)
    requires Fits(p, |file|)
    ensures Succeeds(before, None, file, p)
  {
  }

  lemma SettledIsCreated(stored: map<nat, map<nat, Bytes>>, pending: Option<nat>, rs: seq<Outcome>, saved: seq<Option<Start>>,
                         sizes: seq<SliceSize>, file: Bytes)
    requires |file| > 0 && Progressed(stored, pending, rs, saved, sizes, file)
    ensures forall i :: 0 <= i < |rs| ==> CreatedAs(stored, rs[i], saved[i], file, PlanOf(|file|, sizes[i]))
  {
  }

  /** As long as the slice size stays the same, whatever the calls of a session picked up is conserved, so
      every id for which create was called after fewer than two expiries is complete. */
  lemma {:induction false} SameSliceSize(saved: seq<Option<Start>>, sizes: seq<SliceSize>, file: Bytes, size: SliceSize, i: nat)
    requires |file| > 0 && |saved| <= |sizes| && forall n :: n in sizes ==> n == size
    requires Linked(saved, sizes, file) && i < |saved| && SavedSound(saved[0], file, PlanOf(|file|, size))
    ensures SavedSound(saved[i], file, PlanOf(|file|, size)) && Ready(saved[i], file, PlanOf(|file|, size))
  {
    var p := PlanOf(|file|, size);
    if i == 0 {
      SoundStays(saved[0], None, file, p);
    } else {
      assert sizes[i - 1] in sizes;
      SameSliceSize(saved, sizes, file, size, i - 1);
      hide PlanOf, SavedSound, Succeeds, Ready;
      SoundStays(saved[i - 1], saved[i], file, p);
      NoneSucceeds(saved[i], file, p);
      SoundStays(saved[i], None, file, p);
    }
  }

  /** The blocks of a complete upload, put together, are the file. */
  lemma {:induction false} CompleteIsFile(blocks: map<nat, Bytes>, file: Bytes, p: Plan, k: nat)
    requires Fits(p, |file|) && Complete(blocks, file, p) && k <= p.count
    ensures Concat(seq(k, b requires 0 <= b < k => blocks[b])) == file[..if k < p.count then Min(BlockStart(p, k), |file|) else |file|]
  {
    if k > 0 {
      CompleteIsFile(blocks, file, p, k - 1);
      BlockInside(p, |file|, k - 1);
      var before := seq(k - 1, b requires 0 <= b < k - 1 => blocks[b]);
      assert seq(k, b requires 0 <= b < k => blocks[b]) == before + [blocks[k - 1]];
      ConcatSnoc(before, blocks[k - 1]);
    }
  }

  // ---- two expired ids ----

  function Counting(n: nat): (r: seq<int>)
    ensures |r| == n && (forall b: nat :: b < n ==> b in r) && forall b :: b in r ==> 0 <= b < n
  {
    if n == 0 then [] else Counting(n - 1) + [n - 1]
  }

  /** A server that asks for every block and then calls every upload id expired: one call creates the file under
      its third id, which is not complete. */
  method ExpiredTwice(file: Bytes, sliceSize: nat) returns (r: Outcome, s: Server)
    requires |file| > 0 && sliceSize > 0
    ensures r.Issued? && r.expiries == 2 && r.ok && s.creates == [r.id]
    ensures r.id in s.stored && !Complete(s.stored[r.id], file, PlanOf(|file|, sliceSize))
  {
    var p := PlanOf(|file|, sliceSize);
    var asked := Counting(p.count);
    var w := World(false, _ => Fresh({}, asked), (_, _, _) => Refused(Expired), _ => false, true);
    s := new Server();
    var c := new UploadProgress.Store<Progress>();
    assert Honest(w, p.count) && Stubborn(w);
    hide PlanOf, Fits, Complete, Inside, Suits, Succeeds, Kept, Honest;
    r := Put(w, s, c, "", file, sliceSize);
  }

  // ---- resuming with another slice size ----

  lemma BlockLength(file: Bytes, p: Plan, b: nat)
    requires Fits(p, |file|) && b < p.count
    ensures |Block(file, p, b)| == BlockSize(p, b)
  {
    BlockInside(p, |file|, b);
  }

  /** No two blocks of the same number have the same length. */
  lemma LengthsDiffer(file: Bytes, p: Plan, q: Plan, b: nat)
    requires Fits(p, |file|) && Fits(q, |file|) && p.count == q.count > 1 && p.sliceSize != q.sliceSize && b < p.count
    ensures |Block(file, p, b)| != |Block(file, q, b)|
  {
    BlockLength(file, p, b);
    BlockLength(file, q, b);
    hide Block;
    var n := p.count - 1;
    assert n * p.sliceSize + p.last == n * q.sliceSize + q.last;
    if p.sliceSize < q.sliceSize { Scale(n, p.sliceSize, q.sliceSize); } else { Scale(n, q.sliceSize, p.sliceSize); }
  }

  lemma Scale(n: nat, a: nat, b: nat)
    requires n > 0 && a < b
    ensures n * a < n * b
  {
  }

  /** Conserved progress of one slice size suits another, so far as all of its list exists there, if and only if
      both cut the file into as many blocks and none has been struck off yet. */
  lemma OtherSliceSize(st: Start, file: Bytes, p: Plan, q: Plan)
    requires Fits(p, |file|) && Fits(q, |file|) && p.sliceSize != q.sliceSize && (p.count > 1 || q.count > 1)
    requires Conserved(st, file, p)
    ensures Inside(st.list, q) && Suits(st, file, q) <==> p.count == q.count && forall b: nat :: b < q.count ==> b in st.list
  {
    var last: nat := p.count - 1;
    assert last in st.blocks || last in st.list;
    assert p.count !in st.blocks && p.count !in st.list;
    hide Fits, Block;
    if Inside(st.list, q) && Suits(st, file, q) {
      assert p.count <= q.count <= p.count;
      forall b: nat | b < q.count
        ensures b in st.list
      {
        LengthsDiffer(file, p, q, b);
      }
    }
  }

  /** A call that resumes `list`, with these blocks stored, on a server that acknowledges everything. */
  method Resume(blocks: map<nat, Bytes>, list: seq<int>, file: Bytes, sliceSize: nat) returns (r: Outcome, s: Server)
    requires |file| > 0 && sliceSize > 0
    ensures var p := PlanOf(|file|, sliceSize);
      if Inside(list, p) then
        && r == Issued(0, 0, true) && s.creates == [0]
        && 0 in s.stored && (Complete(s.stored[0], file, p) <==> Suits(Start(blocks, list), file, p))
      else r == Failed(Other) && s.creates == []
  {
    var w := World(false, _ => PreFailed, (_, _, _) => Acknowledged, _ => false, true);
    s := new Server();
    s.stored, s.next := map[0 := blocks], 1;
    var pr := new Progress(0, list);
    var c := new UploadProgress.Store<Progress>();
    c.Save("", Some(pr));
    assert Honest(w, PlanOf(|file|, sliceSize).count) && Obliging(w);
    assert Saved(s, c, "") == Some(Start(blocks, list));
    hide PlanOf, Fits, Complete, Inside, Suits, Succeeds, Kept;
    r := Put(w, s, c, "", file, sliceSize);
  }

  /** Four bytes in slices of one, all but one of them stored. */
  function AllBut(missing: nat): Start {
    Start(map b: nat | b < 4 && b != missing :: ["abcd"[b]], [missing])
  }

  lemma FourBytes()
    ensures PlanOf(4, 1) == Plan(4, 1, 1) && PlanOf(4, 2) == Plan(2, 2, 2)
  {
  }

  lemma OneByte(b: nat)
    requires b < 4
    ensures Block("abcd", Plan(4, 1, 1), b) == ["abcd"[b]]
  {
    BlockLength("abcd", Plan(4, 1, 1), b);
    assert BlockStart(Plan(4, 1, 1), b) == b;
  }

  lemma AllButIsConserved(missing: nat)
    requires missing < 4
    ensures Conserved(AllBut(missing), "abcd", PlanOf(4, 1))
  {
    FourBytes();
    forall b: nat | b < 4
      ensures Block("abcd", Plan(4, 1, 1), b) == ["abcd"[b]]
    {
      OneByte(b);
    }
    hide Block, PlanOf;
  }

  /** Progress made in slices of one, picked up by a call that sends slices of two: with the second one still to be sent
      Resume creates an incomplete file, with the last one it fails. */
  lemma ResumedTwice()
    ensures var p, q := PlanOf(4, 1), PlanOf(4, 2);
      && Conserved(AllBut(1), "abcd", p) && Inside(AllBut(1).list, q) && !Suits(AllBut(1), "abcd", q)
      && Conserved(AllBut(3), "abcd", p) && !Inside(AllBut(3).list, q)
  {
    FourBytes();
    AllButIsConserved(1);
    AllButIsConserved(3);
    hide Conserved, PlanOf, Suits, Block;
    OtherSliceSize(AllBut(1), "abcd", PlanOf(4, 1), PlanOf(4, 2));
    assert 3 in AllBut(3).list && 0 !in AllBut(1).list;
  }
}
