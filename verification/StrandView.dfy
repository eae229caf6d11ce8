/** What the invariants need to know about the tasks queued on a socket strand. */
module StrandView {
  import opened SessionModel

  /** writing stops at the first close task: a write that starts behind it finds the
      socket closed. */
  datatype View = View(reading: seq<Task>, writing: seq<Task>, shaking: seq<Task>, closes: nat, cancelling: bool)

  predicate IsRead(t: Task) {
    t.HeaderRead? || t.BodyRead?
  }

  predicate IsWrite(t: Task) {
    t.AsyncWrite? || t.Written?
  }

  predicate IsShake(t: Task) {
    t.AsyncHandshake? || t.HandshakeDone?
  }

  function Before(t: Task, v: View): View {
    if IsRead(t) then v.(reading := [t] + v.reading)
    else if IsWrite(t) then v.(writing := [t] + v.writing)
    else if IsShake(t) then v.(shaking := [t] + v.shaking)
    else if t.CloseSocket? then v.(writing := [], closes := v.closes + 1)
    else v.(cancelling := true)
  }

  function Behind(v: View, t: Task): View {
    if IsRead(t) then v.(reading := v.reading + [t])
    else if IsWrite(t) then (if v.closes > 0 then v else v.(writing := v.writing + [t]))
    else if IsShake(t) then v.(shaking := v.shaking + [t])
    else if t.CloseSocket? then v.(closes := v.closes + 1)
    else v.(cancelling := true)
  }

  function Of(strand: seq<Task>): View {
    if strand == [] then View([], [], [], 0, false) else Before(strand[0], Of(strand[1..]))
  }

  lemma {:induction false} OfPosted(strand: seq<Task>, t: Task)
    ensures Of(strand + [t]) == Behind(Of(strand), t)
  {
    if strand == [] {
      assert strand + [t] == [t] && [t][1..] == [];
    } else {
      assert (strand + [t])[1..] == strand[1..] + [t];
      OfPosted(strand[1..], t);
      BeforeBehind(strand[0], Of(strand[1..]), t);
    }
  }

  lemma ClosePosts(s: Session)
    ensures Of(Close(s).strand) ==
      Of(s.strand).(cancelling := true, closes := Of(s.strand).closes + (if s.life.connected then 1 else 0))
  {
    OfPosted(s.strand, CancelOps);
    OfPosted(s.strand + [CancelOps], CloseSocket);
  }

  lemma BeforeBehind(first: Task, v: View, last: Task)
    ensures Before(first, Behind(v, last)) == Behind(Before(first, v), last)
  {
    assert [first] + (v.reading + [last]) == [first] + v.reading + [last];
    assert [first] + (v.writing + [last]) == [first] + v.writing + [last];
    assert [first] + (v.shaking + [last]) == [first] + v.shaking + [last];
  }

  /** The strand of a session whose open() has run but whose handshake has not started:
      only cancellations from before open() stand ahead of the handshake, and a
      cancellation behind it comes with a close task. */
  predicate OpeningStrand(strand: seq<Task>) {
    strand != [] &&
    if strand[0].CancelOps? then OpeningStrand(strand[1..])
    else strand[0].AsyncHandshake? && Covered(Of(strand[1..])) && Of(strand[1..]).shaking == []
  }

  predicate Covered(v: View) {
    v.cancelling ==> v.closes > 0
  }

  lemma {:induction false} CancelsThenHandshake(strand: seq<Task>)
    requires forall t :: t in strand ==> t.CancelOps?
    ensures OpeningStrand(strand + [AsyncHandshake])
  {
    var after := strand + [AsyncHandshake];
    if strand == [] {
      assert after[1..] == [];
    } else {
      assert after[0] == strand[0] && strand[0] in strand;
      assert after[1..] == strand[1..] + [AsyncHandshake];
      CancelsThenHandshake(strand[1..]);
    }
  }

  /** A close() adds its cancel and close tasks together; once a close task is there,
      a further cancel may come alone. */
  lemma {:induction false} OpeningStrandCloses(strand: seq<Task>)
    requires OpeningStrand(strand)
    ensures OpeningStrand(strand + [CancelOps] + [CloseSocket])
    ensures Of(strand).closes > 0 ==> OpeningStrand(strand + [CancelOps])
  {
    var later := strand + [CancelOps];
    assert later[1..] == strand[1..] + [CancelOps];
    assert (later + [CloseSocket])[1..] == strand[1..] + [CancelOps] + [CloseSocket];
    assert later[0] == strand[0] && (later + [CloseSocket])[0] == strand[0];
    if strand[0].CancelOps? {
      OpeningStrandCloses(strand[1..]);
    } else {
      OfPosted(strand[1..], CancelOps);
      OfPosted(strand[1..] + [CancelOps], CloseSocket);
    }
  }

  lemma {:induction false} OpeningStrandShakes(strand: seq<Task>)
    requires OpeningStrand(strand)
    ensures |Of(strand).shaking| == 1
  {
    if strand[0].CancelOps? {
      OpeningStrandShakes(strand[1..]);
    }
  }
}
