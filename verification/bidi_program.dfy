/**
 ClientAsyncReaderWriterImpl as a program: every method computes the step it is
 named after, keeps the invariant, and does to the completion-queue tags exactly
 what its attempts say.
 */
module BidiProgram {
  import opened Common
  import opened BidiStream
  import Q = CompletionQueues

  lemma OnSentCases(s: State, success: bool, ok: bool)
    requires s.queue != [] && s.h.sending > 0
    ensures var t := SendDone(s, success);
            && t.status == s.status && t.writingClosing == s.writingClosing && t.hasSentClose == s.hasSentClose
            && (!t.status.Ok() ==> AfterOnSent(s, success, ok) == t)
            && (t.status.Ok() && !success ==>
                  AfterOnSent(s, success, ok) == AfterEndOnErrorStatus(t, InternalError(SendFailed)))
            && (t.status.Ok() && success ==> AfterOnSent(s, success, ok) == AfterSent(t, ok))
  {
    hide Follows, Continues, Quiet, Tried, AfterEndOnErrorStatus, AfterSent, NextAttempts;
  }

  lemma CloseCases(s: State, ok: bool)
    ensures var t := s.(writingClosing := true);
            AfterCloseWriting(s, ok) ==
            if s.writingClosing then s
            else if !s.status.Ok() || s.queue != [] then t
            else AfterEndWriting(t, ClosedByCloseWriting, ok)
  {
    hide Follows, Continues, Quiet, Tried, AfterEndWriting;
  }

  lemma OnReadCases(s: State, c: Completion, ok: bool)
    requires s.h.reading > 0
    ensures var l := Logged(s, c);
            && l.h.reading == s.h.reading && l.msgCb == s.msgCb
            && (!s.status.Ok() ==> AfterOnRead(s, c, ok) == ReadDone(l))
            && (s.status.Ok() ==> AfterOnRead(s, c, ok) == AfterHandled(l, c, ok))
  {
    hide Follows, Continues, Tried, AfterHandled, ReadDone;
  }

  function AfterInitTag(s: State, b: Batch, ok: bool, details: Details): State {
    if ok then Started(s, b) else AfterEndOnErrorStatus(s, InternalError(details))
  }

  lemma StartInitCases(s: State, starts: Starts)
    ensures var a := AfterInitTag(s, SendInitMd, starts.sendMd, SendInitMdFailed);
            AfterStartInit(s, starts) ==
            if starts.sendMd then AfterInitTag(a, RecvInitMd, starts.recvMd, RecvInitMdFailed) else a
  {
    hide Follows, Continues, Quiet, Tried, AfterEndOnErrorStatus, Started;
  }

  // What the attempts of a step do to the tags.

  lemma ReadStarters(q: Q.Queue<Batch>, s: State, c: Completion, ok: bool)
    ensures Q.AfterStarters(q, ReadAttempts(s, c, ok)) ==
            if s.status.Ok() && c.Got? && !s.msgCb then Q.AfterStarter(q, Q.Attempt(RecvMsg, ok)) else q
  {
    Q.NoneOrOneStarter(q, Q.Attempt(RecvMsg, ok));
  }

  lemma ReturnStarters(q: Q.Queue<Batch>, verdict: Status, ok: bool)
    ensures Q.AfterStarters(q, ReturnAttempts(verdict, ok)) ==
            if verdict.Ok() then Q.AfterStarter(q, Q.Attempt(RecvMsg, ok)) else q
  {
    Q.NoneOrOneStarter(q, Q.Attempt(RecvMsg, ok));
  }

  lemma CloseStarters(q: Q.Queue<Batch>, s: State, ok: bool)
    ensures Q.AfterStarters(q, CloseAttempts(s, ok)) ==
            if s.writingClosing || !s.status.Ok() || s.queue != [] then q
            else Q.AfterStarter(q, Q.Attempt(SendClose, ok))
  {
    Q.NoneOrOneStarter(q, Q.Attempt(SendClose, ok));
  }

  lemma NextStarters(q: Q.Queue<Batch>, s: State, ok: bool)
    ensures Q.AfterStarters(q, NextAttempts(s, ok)) ==
            if s.queue != [] then Q.AfterStarter(q, Q.Attempt(SendMsg(s.queue[0]), ok))
            else if s.writingClosing then Q.AfterStarter(q, Q.Attempt(SendClose, ok))
            else q
  {
    if s.queue != [] {
      Q.NoneOrOneStarter(q, Q.Attempt(SendMsg(s.queue[0]), ok));
    } else {
      Q.NoneOrOneStarter(q, Q.Attempt(SendClose, ok));
    }
  }

  lemma SentStarters(q: Q.Queue<Batch>, s: State, success: bool, ok: bool)
    requires s.queue != [] && s.h.sending > 0
    ensures Q.AfterStarters(q, SentAttempts(s, success, ok)) ==
            if s.status.Ok() && success then Q.AfterStarters(q, NextAttempts(SendDone(s, success), ok)) else q
  {
    Q.NoneOrOneStarter(q, Q.Attempt(SendClose, ok));
  }

  lemma PushStarters(q: Q.Queue<Batch>, s: State, msg: Message, ok: bool)
    ensures Q.AfterStarters(q, PushAttempts(s, msg, ok)) ==
            if s.queue != [] then q else Q.AfterStarter(q, Q.Attempt(SendMsg(msg), ok))
  {
    Q.NoneOrOneStarter(q, Q.Attempt(SendMsg(msg), ok));
  }

  lemma InitStarters(q: Q.Queue<Batch>, s: State, starts: Starts)
    ensures Q.AfterStarters(q, InitAttempts(s, starts)) ==
            if s.inited || !s.status.Ok() then q else Q.AfterStarters(q, StartInitAttempts(starts))
  {
    Q.NoneOrOneStarter(q, Q.Attempt(RecvInitMd, true));
  }

  lemma StartInitStarters(q: Q.Queue<Batch>, starts: Starts)
    ensures Q.AfterStarters(q, StartInitAttempts(starts)) ==
            var a := Q.AfterStarter(q, Q.Attempt(SendInitMd, starts.sendMd));
            if starts.sendMd then Q.AfterStarter(a, Q.Attempt(RecvInitMd, starts.recvMd)) else a
  {
    var a := Q.Attempt(SendInitMd, starts.sendMd);
    Q.NoneOrOneStarter(q, a);
    Q.NoneOrOneStarter(Q.AfterStarter(q, a), Q.Attempt(RecvInitMd, starts.recvMd));
    Q.StartersConcat(q, [a], [Q.Attempt(RecvInitMd, starts.recvMd)]);
  }

  lemma StartReadingStarters(q: Q.Queue<Batch>, s: State, starts: Starts)
    ensures var r := Q.AfterStarters(q, InitAttempts(s, starts));
            Q.AfterStarters(q, StartReadingAttempts(s, starts)) ==
            if AfterInitIfNot(s, starts).status.Ok() then Q.AfterStarter(r, Q.Attempt(RecvMsg, starts.op)) else r
  {
    hide AfterInitIfNot, InitAttempts;
    var a := Q.Attempt(RecvMsg, starts.op);
    var first := InitAttempts(s, starts);
    Q.NoneOrOneStarter(Q.AfterStarters(q, first), a);
    Q.StartersConcat(q, first, [a]);
    assert first + [] == first;
  }

  lemma ReadEachStarters(q: Q.Queue<Batch>, s: State, starts: Starts)
    ensures Q.AfterStarters(q, ReadEachAttempts(s, starts)) ==
            if s.readingStarted then q
            else Q.AfterStarters(q, StartReadingAttempts(s.(readingStarted := true), starts))
  {
    Q.NoneOrOneStarter(q, Q.Attempt(RecvMsg, starts.op));
  }

  lemma WriteStarters(q: Q.Queue<Batch>, s: State, msg: Message, starts: Starts)
    ensures var t := AfterInitIfNot(s, starts);
            var r := Q.AfterStarters(q, InitAttempts(s, starts));
            Q.AfterStarters(q, WriteAttempts(s, msg, starts)) ==
            if !t.status.Ok() || t.writingClosing || t.writingEnded then r
            else Q.AfterStarters(r, PushAttempts(t, msg, starts.op))
  {
    hide AfterInitIfNot, InitAttempts, PushAttempts;
    var first := InitAttempts(s, starts);
    Q.StartersConcat(q, first, PushAttempts(AfterInitIfNot(s, starts), msg, starts.op));
    assert first + [] == first;
  }

  class ReaderWriter {
    var status: Status
    var msgCb: bool
    var statusCb: bool
    var inited: bool
    var readingStarted: bool
    var writingClosing: bool
    var readingEnded: bool
    var writingEnded: bool
    var hasSentClose: bool
    var queue: seq<Message>
    var inCallback: bool
    const cq: Q.CompletionQueue<Batch>
    ghost var h: History

    ghost function Value(): State
      reads this
    {
      State(status, msgCb, statusCb, inited, readingStarted, writingClosing, readingEnded, writingEnded,
            hasSentClose, queue, inCallback, h)
    }

    constructor (hasCb: bool, cq: Q.CompletionQueue<Batch>)
      ensures Value() == Init(hasCb) && this.cq == cq
    {
      this.cq := cq;
      status, msgCb, statusCb := OK, false, hasCb;
      inited, readingStarted, writingClosing, readingEnded, writingEnded := false, false, false, false, false;
      hasSentClose, queue, inCallback := false, [], false;
      h := Init(hasCb).h;
    }

    method Write(msg: Message, starts: Starts) returns (accepted: bool)
      requires Inv(Value())
      modifies this, cq
      ensures (Value(), accepted) == AfterWrite(old(Value()), msg, starts)
      ensures Inv(Value())
      ensures cq.q == Q.AfterStarters(old(cq.q), WriteAttempts(old(Value()), msg, starts))
    {
      hide Follows, Continues, Quiet, Tried, Inv, AfterInitIfNot, AfterPush, InitAttempts, PushAttempts, WriteAttempts;
      hide Q.AfterStarters;
      ghost var s := Value();
      InitIfNotKeepsInv(s, starts);
      WriteKeepsInv(s, msg, starts);
      WriteStarters(cq.q, s, msg, starts);
      InitIfNot(starts);
      if !status.Ok() {
        ErrorFacts(Value());
        assert readingEnded && writingEnded;
        return false;
      }
      if writingClosing || writingEnded {
        return false;
      }
      accepted := Push(msg, starts.op);
    }

    method Push(msg: Message, ok: bool) returns (accepted: bool)
      requires status.Ok()
      modifies this, cq
      ensures (Value(), accepted) == AfterPush(old(Value()), msg, ok)
      ensures cq.q == Q.AfterStarters(old(cq.q), PushAttempts(old(Value()), msg, ok))
    {
      hide Follows, Continues, Quiet, Tried, AfterSendNext, PushAttempts, Q.AfterStarter, Q.AfterStarters;
      PushStarters(cq.q, Value(), msg, ok);
      var isSending := queue != [];
      queue := queue + [msg];
      if isSending {
        h := h.(accepted := h.accepted + [msg]);
        return true;
      }
      if ok {
        h := h.(accepted := h.accepted + [msg]);
      }
      accepted := SendNext(ok);
    }

    method CloseWriting(ok: bool)
      requires Inv(Value())
      modifies this, cq
      ensures Value() == AfterCloseWriting(old(Value()), ok)
      ensures Inv(Value())
      ensures cq.q == Q.AfterStarters(old(cq.q), CloseAttempts(old(Value()), ok))
    {
      hide Follows, Continues, Quiet, Tried, Inv, AfterEndWriting, AfterCloseWriting, CloseAttempts;
      hide Q.AfterStarter, Q.AfterStarters;
      ghost var s := Value();
      CloseWritingKeepsInv(s, ok);
      CloseStarters(cq.q, s, ok);
      CloseCases(s, ok);
      if writingClosing {
        return;
      }
      if status.Ok() {
        OpenFacts(s);
      }
      writingClosing := true;
      assert Value() == s.(writingClosing := true);
      if !status.Ok() {
        return;
      }
      if queue != [] {
        return;
      }
      assert !hasSentClose;
      EndWritingEnds(Value(), ClosedByCloseWriting, ok);
      SendHalfClose(ClosedByCloseWriting, ok);
      assert writingEnded;
    }

    method ReadEach(hasCb: bool, starts: Starts)
      requires Inv(Value())
      modifies this, cq
      ensures Value() == AfterReadEach(old(Value()), hasCb, starts)
      ensures Inv(Value())
      ensures cq.q == Q.AfterStarters(old(cq.q), ReadEachAttempts(old(Value()), starts))
    {
      hide Follows, Continues, Quiet, Tried, Inv, AfterStartReading, StartReadingAttempts;
      hide Q.AfterStarters, Q.AfterStarter, ReadEachAttempts;
      ReadEachKeepsInv(Value(), hasCb, starts);
      ReadEachStarters(cq.q, Value(), starts);
      if readingStarted {
        return;
      }
      readingStarted := true;
      assert Value() == old(Value()).(readingStarted := true);
      StartReading(hasCb, starts);
    }

    /** The rest of ReadEach when it is the first one. */
    method StartReading(hasCb: bool, starts: Starts)
      modifies this, cq
      ensures Value() == AfterStartReading(old(Value()), hasCb, starts)
      ensures cq.q == Q.AfterStarters(old(cq.q), StartReadingAttempts(old(Value()), starts))
    {
      hide Follows, Continues, Quiet, Tried, AfterInitIfNot, AfterReadNext, InitAttempts, StartReadingAttempts;
      hide Q.AfterStarters, Q.AfterStarter;
      StartReadingStarters(cq.q, Value(), starts);
      InitIfNot(starts);
      if !status.Ok() {
        return;
      }
      ghost var t := Value();
      msgCb := hasCb;
      assert Value() == t.(msgCb := hasCb);
      ReadNext(starts.op);
    }

    method SetErrorStatus(error: Status)
      requires Inv(Value()) && !error.Ok()
      modifies this
      ensures Value() == AfterSetErrorStatus(old(Value()), error)
      ensures Inv(Value())
    {
      hide Follows, Continues, Quiet, Tried, AfterEndOnErrorStatus;
      BidiStream.StepKeepsInv(Value(), Event.SetErrorStatus(error));
      hide Follows, Continues, Quiet, Tried, Inv;
      if status.Ok() {
        EndOnErrorStatus(error);
        return;
      }
      status := error;
    }

    /** The message at the front of the queue is done with. */
    method Pop(success: bool)
      requires queue != [] && h.sending > 0
      modifies this`queue, this`h
      ensures Value() == SendDone(old(Value()), success)
    {
      hide Follows, Continues, Quiet, Tried;
      h := SendDone(Value(), success).h;
      queue := queue[1..];
    }

    method OnSent(success: bool, ok: bool)
      requires Inv(Value()) && h.sending > 0 && !inCallback
      modifies this, cq
      ensures old(queue) != [] && Value() == AfterOnSent(old(Value()), success, ok)
      ensures Inv(Value())
      ensures cq.q == Q.AfterStarters(old(cq.q), SentAttempts(old(Value()), success, ok))
    {
      hide Follows, Continues, Quiet, Tried, Inv, AfterEndOnErrorStatus, AfterSent, AfterOnSent;
      hide Q.AfterStarters, SentAttempts, NextAttempts;
      ghost var s := Value();
      OnSentFindsMessage(s, success, ok);
      OnSentKeepsInv(s, success, ok);
      assert queue != [];
      OnSentCases(s, success, ok);
      SentStarters(cq.q, s, success, ok);
      if !status.Ok() {
        ErrorFacts(s);
      } else {
        OpenFacts(s);
      }
      Pop(success);
      if !status.Ok() {
        assert !statusCb;
        return;
      }
      if !success {
        SetInternalError(SendFailed);
        return;
      }
      Sent(ok);
    }

    /** The rest of OnSent after a success. */
    method Sent(ok: bool)
      requires status.Ok() && (writingClosing && queue == [] ==> !hasSentClose)
      modifies this, cq
      ensures Value() == AfterSent(old(Value()), ok)
      ensures cq.q == Q.AfterStarters(old(cq.q), NextAttempts(old(Value()), ok))
    {
      hide Follows, Continues, Quiet, Tried, AfterSendNext, AfterLastSent, NextAttempts;
      hide Q.AfterStarter, Q.AfterStarters;
      NextStarters(cq.q, Value(), ok);
      if queue != [] {
        var _ := SendNext(ok);
        return;
      }
      if !writingClosing {
        return;
      }
      FinishWriting(ok);
    }

    /** The end of OnSent, once the last message has been sent. */
    method FinishWriting(ok: bool)
      requires status.Ok() && writingClosing && !hasSentClose
      modifies this, cq
      ensures Value() == AfterLastSent(old(Value()), ok)
      ensures cq.q == Q.AfterStarter(old(cq.q), Q.Attempt(SendClose, ok))
    {
      hide Follows, Continues, Quiet, Tried, AfterCallStatusCb, Q.AfterStarter, AfterEndWriting;
      EndWritingEnds(Value(), ClosedByOnSent, ok);
      SendHalfClose(ClosedByOnSent, ok);
      assert writingEnded;
      if readingEnded {
        CallStatusCb();
      }
    }

    lemma EndWritingEnds(s: State, how: Ending, ok: bool)
      ensures AfterEndWriting(s, how, ok).writingEnded
    {
    }

    ghost method LogRead(c: Completion)
      modifies this`h
      ensures Value() == Logged(old(Value()), c)
    {
      hide Follows, Continues, Quiet, Tried;
      h := h.(readLog := h.readLog + [c]);
    }

    /** The read is not in flight any more. */
    ghost method EndRead()
      requires h.reading > 0
      modifies this`h
      ensures Value() == ReadDone(old(Value()))
    {
      hide Follows, Continues, Quiet, Tried;
      h := h.(reading := h.reading - 1);
    }

    method OnRead(c: Completion, ok: bool)
      requires Inv(Value()) && h.reading > 0 && !inCallback && (c.Unparsable? ==> !c.error.Ok())
      modifies this, cq
      ensures Value() == AfterOnRead(old(Value()), c, ok)
      ensures Inv(Value())
      ensures cq.q == Q.AfterStarters(old(cq.q), ReadAttempts(old(Value()), c, ok))
    {
      hide Follows, Continues, Quiet, Tried, Inv, AfterHandled, AfterOnRead, Q.AfterStarter;
      hide Q.AfterStarters, ReadAttempts;
      ghost var s := Value();
      OnReadKeepsInv(s, c, ok);
      OnReadCases(s, c, ok);
      ReadFacts(s);
      ReadStarters(cq.q, s, c, ok);
      assert readingStarted;
      LogRead(c);
      if !status.Ok() {
        assert !statusCb;
        EndRead();
        return;
      }
      HandleRead(c, ok);
    }

    /** OnRead when no error has happened before. */
    method HandleRead(c: Completion, ok: bool)
      requires h.reading > 0 && status.Ok() && (c.Unparsable? ==> !c.error.Ok())
      modifies this, cq
      ensures Value() == AfterHandled(old(Value()), c, ok)
      ensures cq.q == if c.Got? && !old(msgCb) then Q.AfterStarter(old(cq.q), Q.Attempt(RecvMsg, ok)) else old(cq.q)
    {
      hide Follows, Continues, Quiet, Tried, AfterDeliver, AfterNoMessage, Q.AfterStarter;
      if c.Got? {
        Deliver(c.msg, ok);
      } else {
        EndRead();
        NoMessage(c);
      }
    }

    lemma ReadFacts(s: State)
      requires Inv(s) && s.h.reading > 0
      ensures s.readingStarted && (!s.status.Ok() ==> !s.statusCb)
    {
    }

    method NoMessage(c: Completion)
      requires status.Ok() && !c.Got? && (c.Unparsable? ==> !c.error.Ok())
      modifies this
      ensures Value() == AfterNoMessage(old(Value()), c)
    {
      hide Follows, Continues, Quiet, Tried, AfterEndOnErrorStatus, AfterEndReading;
      match c {
        case ReadFailed => SetInternalError(Details.ReadFailed);
        case EndOfStream => EndReading();
        case Unparsable(error) => EndOnErrorStatus(error);
      }
    }

    method Deliver(msg: Message, ok: bool)
      requires h.reading > 0 && status.Ok()
      modifies this, cq
      ensures Value() == AfterDeliver(old(Value()), msg, ok)
      ensures cq.q == if old(msgCb) then old(cq.q) else Q.AfterStarter(old(cq.q), Q.Attempt(RecvMsg, ok))
    {
      hide Follows, Continues, Quiet, Tried, AfterReadNext, Q.AfterStarter;
      if msgCb {
        h := h.(delivered := h.delivered + [msg]);
        inCallback := true;
      } else {
        EndRead();
        ReadNext(ok);
      }
    }

    method EndReading()
      modifies this
      ensures Value() == AfterEndReading(old(Value()))
    {
      hide Follows, Continues, Quiet, Tried, AfterCallStatusCb;
      readingEnded := true;
      h := h.(endings := h.endings + [ReadingEnded]);
      if writingEnded {
        CallStatusCb();
      }
    }

    /** The rest of OnRead, once the message callback has returned its verdict. */
    method CallbackReturns(verdict: Status, ok: bool)
      requires Inv(Value()) && inCallback && h.reading > 0 && status.Ok()
      modifies this, cq
      ensures Value() == AfterCallbackReturns(old(Value()), verdict, ok)
      ensures Inv(Value())
      ensures cq.q == Q.AfterStarters(old(cq.q), ReturnAttempts(verdict, ok))
    {
      hide Follows, Continues, Quiet, Tried, Inv, AfterEndOnErrorStatus, AfterReadNext, ReturnAttempts;
      hide Q.AfterStarter, Q.AfterStarters;
      CallbackReturnsKeepsInv(Value(), verdict, ok);
      ReturnStarters(cq.q, verdict, ok);
      inCallback := false;
      h := h.(reading := h.reading - 1);
      assert Value() == ReadDone(old(Value())).(inCallback := false);
      if !verdict.Ok() {
        EndOnErrorStatus(verdict);
        return;
      }
      ReadNext(ok);
    }

    method InitIfNot(starts: Starts)
      modifies this, cq
      ensures Value() == AfterInitIfNot(old(Value()), starts)
      ensures cq.q == Q.AfterStarters(old(cq.q), InitAttempts(old(Value()), starts))
    {
      hide Follows, Continues, Quiet, Tried, InitAttempts, StartInitAttempts, AfterStartInit, Q.AfterStarters;
      InitStarters(cq.q, Value(), starts);
      if inited {
        return;
      }
      inited := true;
      if !status.Ok() {
        return;
      }
      SendInit(starts);
    }

    method SendInit(starts: Starts)
      requires status.Ok()
      modifies this, cq
      ensures Value() == AfterStartInit(old(Value()), starts)
      ensures cq.q == Q.AfterStarters(old(cq.q), StartInitAttempts(starts))
    {
      hide Follows, Continues, Quiet, Tried, AfterStartInit, AfterInitTag, StartInitAttempts;
      hide Q.AfterStarters, Q.AfterStarter;
      StartInitCases(Value(), starts);
      StartInitStarters(cq.q, starts);
      InitTagFacts(Value(), SendInitMd, starts.sendMd, SendInitMdFailed);
      var sent := StartInitTag(SendInitMd, starts.sendMd, SendInitMdFailed);
      if !sent {
        return;
      }
      var _ := StartInitTag(RecvInitMd, starts.recvMd, RecvInitMdFailed);
    }

    /** One of the two init tags: its batch is started, or it is deleted and the stream fails. */
    method StartInitTag(b: Batch, ok: bool, details: Details) returns (started: bool)
      requires status.Ok() && (b.SendInitMd? || b.RecvInitMd?)
      modifies this, cq
      ensures Value() == AfterInitTag(old(Value()), b, ok, details) && started == ok
      ensures cq.q == Q.AfterStarter(old(cq.q), Q.Attempt(b, ok))
    {
      hide Follows, Continues, Quiet, Tried, AfterEndOnErrorStatus, InFlight, AfterInitTag;
      InitTagCases(Value(), b, ok, details);
      var tag := cq.New(b);
      started := cq.Start(tag, ok);
      if started {
        h := InFlight(h, b);
        return;
      }
      cq.Delete(tag);
      SetInternalError(details);
    }

    lemma InitTagCases(s: State, b: Batch, ok: bool, details: Details)
      ensures ok ==> AfterInitTag(s, b, ok, details) == Started(s, b)
      ensures !ok ==> AfterInitTag(s, b, ok, details) == AfterEndOnErrorStatus(s, InternalError(details))
    {
    }

    lemma InitTagFacts(s: State, b: Batch, ok: bool, details: Details)
      requires s.status.Ok() && (b.SendInitMd? || b.RecvInitMd?)
      ensures var t := AfterInitTag(s, b, ok, details);
              && t.inited == s.inited && (t.status.Ok() <==> ok)
              && t.h.batches == s.h.batches + (if ok then [b] else [])
    {
    }

    method SendNext(ok: bool) returns (started: bool)
      requires queue != [] && status.Ok()
      modifies this, cq
      ensures Value() == AfterSendNext(old(Value()), ok) && started == ok
      ensures cq.q == Q.AfterStarter(old(cq.q), Q.Attempt(SendMsg(old(queue[0])), ok))
    {
      hide Follows, Continues, Quiet, Tried, AfterEndOnErrorStatus, InFlight;
      var tag := cq.New(SendMsg(queue[0]));
      started := cq.Start(tag, ok);
      if started {
        h := InFlight(h, SendMsg(queue[0]));
        return;
      }
      cq.Delete(tag);
      SetInternalError(WriteFailed);
    }

    method ReadNext(ok: bool)
      requires status.Ok()
      modifies this, cq
      ensures Value() == AfterReadNext(old(Value()), ok)
      ensures cq.q == Q.AfterStarter(old(cq.q), Q.Attempt(RecvMsg, ok))
    {
      hide Follows, Continues, Quiet, Tried, AfterEndOnErrorStatus, InFlight;
      var tag := cq.New(RecvMsg);
      var started := cq.Start(tag, ok);
      if started {
        h := InFlight(h, RecvMsg);
        return;
      }
      cq.Delete(tag);
      SetInternalError(ReadStartFailed);
    }

    method SendHalfClose(ghost how: Ending, ok: bool)
      requires writingClosing && !hasSentClose && status.Ok()
      modifies this, cq
      ensures Value() == AfterEndWriting(old(Value()), how, ok)
      ensures cq.q == Q.AfterStarter(old(cq.q), Q.Attempt(SendClose, ok))
    {
      hide Follows, Continues, Quiet, Tried, AfterEndOnErrorStatus, InFlight;
      hasSentClose := true;
      writingEnded := true;
      h := h.(endings := h.endings + [how]);
      var tag := cq.New(SendClose);
      var started := cq.Start(tag, ok);
      if started {
        h := InFlight(h, SendClose);
        return;
      }
      cq.Delete(tag);
      SetInternalError(CloseFailed);
    }

    method SetInternalError(details: Details)
      requires status.Ok()
      modifies this
      ensures Value() == AfterEndOnErrorStatus(old(Value()), InternalError(details))
    {
      EndOnErrorStatus(InternalError(details));
    }

    method EndOnErrorStatus(error: Status)
      requires status.Ok() && !error.Ok()
      modifies `status, `statusCb, `h, `readingEnded, `writingEnded
      ensures Value() == AfterEndOnErrorStatus(old(Value()), error)
      ensures status == error && readingEnded && writingEnded && !statusCb
      ensures h.fired == old(h.fired) + if old(statusCb) then [error] else []
    {
      hide Quiet, Follows, Continues;
      status := error;
      CallStatusCb();
      readingEnded := true;
      writingEnded := true;
    }

    method CallStatusCb()
      modifies `statusCb, `h
      ensures Value() == AfterCallStatusCb(old(Value()))
    {
      if !statusCb {
        return;
      }
      h := h.(fired := h.fired + [status]);
      statusCb := false;
    }
  }

  /** The object users hold; its destructor closes writing, and the stream lives on in its tags. */
  class Wrapper {
    const impl: ReaderWriter

    constructor (hasCb: bool, cq: Q.CompletionQueue<Batch>)
      ensures fresh(impl) && impl.Value() == Init(hasCb) && impl.cq == cq
    {
      impl := new ReaderWriter(hasCb, cq);
    }

    method Destroy(ok: bool)
      requires Inv(impl.Value())
      modifies impl, impl.cq
      ensures impl.Value() == AfterCloseWriting(old(impl.Value()), ok)
      ensures Inv(impl.Value()) && impl.writingClosing
    {
      impl.CloseWriting(ok);
    }
  }
}
