/** The asynchronous pipeline: executions are queued, sent with Flush or Sync,
    and matched against a response stream that is not visible ahead. */
module Pipelining {
  import opened Protocol
  import opened Server
  import opened Exchange
  import opened Machines
  import opened Connection
  import opened PipelineQueue

  /** The place of an execution in the queue, and the columns its prepared
      statement is known to have. What it was issued for, execution `tag` on
      `conn`, is nothing the code keeps. */
  datatype Ticket = Ticket(seqNo: nat, columns: Option<Bytes>, conn: Conn, tag: nat) {
    /** It was handed out by some handle, on its connection. */
    predicate Genuine()
      reads conn
    {
      tag < |conn.tickets| && conn.tickets[tag] == seqNo
    }
  }

  function ColumnsOf(columns: Option<Bytes>): Bytes {
    if columns.Some? then columns.value else []
  }

  /** The columns a claim starts with: raw SQL learns its own from the server. */
  function StartColumns(ticket: Ticket, kind: ExecKind): Bytes {
    if kind == ParseBindExecute then [] else ColumnsOf(ticket.columns)
  }

  const ABORTED := LibraryBug("pipeline aborted due to earlier error")

  /** `r` is what the reply `t` amounts to: a success, or its error. */
  predicate Answered(t: seq<BackMsg>, r: Outcome<()>) {
    && t != []
    && if r.Done? then !t[|t| - 1].ErrorResponse?
       else r.Fail? && r.error.ServerFailure? && t[|t| - 1] == ErrorResponse(r.error.err)
  }

  class Pipeline {
    const conn: Conn
    var queueSeq: nat
    var claimSeq: nat
    var aborted: bool
    var expectations: seq<Expectation>
    var halfWritten: bool        // the write buffer ends in an unfinished message

    ghost var owed: seq<Served>  // the units behind the sent part of the queue
    ghost var from: Mode         // the server's mode where the client reads
    ghost var front: nat         // the tag of the first execution in the queue
    ghost var base: nat          // the tag of ticket 0
    ghost var unfinished: bool   // the last cleanup of this handle left the connection unusable

    ghost function Front(): int
      reads this, conn.wire
    {
      |conn.wire.log| - |owed|
    }

    /** The unread stream is exactly what the server sent for the queue's sent
        part, and the executions in the queue have the tags from `lo` on. */
    ghost predicate CoupledWith(owed: seq<Served>, from: Mode, lo: nat)
      reads this, conn, conn.wire
    {
      && !conn.wire.torn
      && Coupling(expectations, owed, conn.writeBuffer, lo, |conn.tickets|, from,
                  conn.wire.mode, conn.wire.unread, conn.wire.log, conn.transactionStatus)
      && (conn.scopePending || (owed == [] && from == Normal))
    }

    /** No reading of the queue fits the unread stream any more. */
    ghost predicate Lost()
      reads this, conn, conn.wire
    {
      forall owed, from, lo :: !CoupledWith(owed, from, lo)
    }

    /** The server skips what the client reads next, and `aborted` does not say
        so. */
    ghost predicate Forgotten()
      reads this
    {
      from == Skipping && !aborted
    }

    /** `aborted` mirrors the server's mode at the client's read position, unless
        the handle is used again after a cleanup that left the connection
        unusable. */
    ghost predicate Mirrors()
      reads this
    {
      (aborted ==> from == Skipping) && (Forgotten() ==> unfinished)
    }

    ghost predicate Coupled()
      reads this, conn, conn.wire
    {
      CoupledWith(owed, from, front) && Mirrors()
    }

    /** Everything queued was sent. */
    ghost predicate AllSent()
      reads this, conn, conn.wire
    {
      Coupled() && conn.writeBuffer == []
    }

    /** Tickets are numbered from zero since the counting last started. */
    ghost predicate Numbered()
      reads this, conn
    {
      && base + queueSeq == |conn.tickets|
      && forall i | base <= i < |conn.tickets| :: conn.tickets[i] == i - base
    }

    /** The invariant between calls. */
    ghost predicate Valid()
      reads this, conn, conn.wire
    {
      conn.wire.Valid() && Numbered() && (conn.Ready() ==> Coupled() && !halfWritten && base <= front)
    }

    lemma Stopped()
      requires conn.wire.Valid() && Numbered() && !conn.Ready()
      ensures Valid()
    {
    }

    /** The stream fits, nothing interrupts from here on, and nothing fatal is
        to come. */
    ghost predicate Quiet()
      reads this, conn, conn.wire
    {
      Valid() && conn.wire.Calm() && conn.wire.Survivable() && AllSurvive(owed)
    }

    /** The server's mode where the client reads next. */
    ghost function ReadMode(): Mode
      reads this, conn.wire
    {
      if 0 <= Front() < |conn.wire.log| then conn.wire.log[Front()].mode else conn.wire.mode
    }

    /** The client is in the aborted state iff the server skips what is read
        next, on every handle that is not used again after a cleanup that left
        the connection unusable. */
    lemma AbortMirrors()
      requires Valid() && conn.Ready()
      ensures ReadMode() == from
      ensures !unfinished ==> (aborted <==> ReadMode() == Skipping)
    {
      FrontLogged();
    }

    /** Create a pipeline over a connection nobody else is using. A fresh
        handle cannot recover what an abandoned one still owes. */
    constructor (conn: Conn)
      requires conn.Valid()
      modifies conn`isBroken, conn`writeBuffer
      ensures this.conn == conn && Valid() && fresh(this)
      ensures old(conn.IsBroken()) ==> conn.isBroken
      ensures !old(conn.IsBroken()) ==>
                && conn.Ready() && !conn.scopePending && conn.writeBuffer == []
                && expectations == [] && !aborted && !unfinished
      ensures queueSeq == claimSeq == 0 && base == front == |conn.tickets| && owed == []
      ensures conn.exchangeInProgress == old(conn.exchangeInProgress)
      ensures conn.scopePending == old(conn.scopePending)
      ensures conn.transactionStatus == old(conn.transactionStatus)
    {
      hide Coupling, LastStatus, Conforming;
      this.conn := conn;
      queueSeq, claimSeq, aborted, expectations := 0, 0, false, [];
      owed, from, unfinished, halfWritten := [], Normal, false, false;
      base, front := |conn.tickets|, |conn.tickets|;
      new;
      if conn.EnsureUsable().Fail? {
        conn.isBroken := true;
      } else {
        conn.writeBuffer := [];
        NothingQueued();
      }
    }

    /** An empty queue fits a connection in step. */
    lemma NothingQueued()
      requires conn.InStep() && expectations == [] && conn.writeBuffer == []
      ensures CoupledWith([], Normal, |conn.tickets|)
    {
      assert conn.wire.log[..|conn.wire.log|] == conn.wire.log;
    }

    /** Operations queued and not yet claimed. */
    function PendingCount(): int
      reads this
    {
      queueSeq - claimSeq
    }

    /** The next ticket in turn is that of the first execution in the queue. */
    ghost predicate Aligned()
      reads this
    {
      front == base + claimSeq
    }

    /** Which is so iff the pending count is the number of executions in the
        queue. */
    lemma PendingIsQueued()
      requires Valid() && conn.Ready()
      ensures Aligned() <==> PendingCount() == Executions(expectations)
    {
      Counted(Units(owed) + conn.writeBuffer, front, |conn.tickets|);
    }

    /** A claim of this ticket gets the execution the ticket was issued for. */
    ghost predicate Own(ticket: Ticket)
      reads this
    {
      ticket.conn == conn && ticket.tag == front
    }

    /** It was handed out by this handle, since its last cleanup that had
        anything to do. */
    ghost predicate Current(ticket: Ticket)
      reads this
    {
      ticket.conn == conn && base <= ticket.tag
    }

    /** Whose result the claim of a ticket gets, in its turn: its own iff the
        ticket is no older than the last cleanup, of no other handle, and no
        number before it was used up without an execution or the other way
        round. */
    lemma OwnIff(ticket: Ticket)
      requires Valid() && conn.Ready() && ticket.Genuine() && ticket.seqNo == claimSeq
      ensures Own(ticket) <==> Current(ticket) && PendingCount() == Executions(expectations)
    {
      PendingIsQueued();
    }

    /** Dropping the handle: what it leaves unread can be claimed by nobody any
        more, so either everything was read or the connection fails for good. */
    method Drop()
      modifies conn`isBroken
      ensures old(Valid() || conn.Valid()) ==>
                conn.Valid() && (conn.isBroken || conn.exchangeInProgress || conn.InStep())
      ensures conn.isBroken == (old(conn.isBroken) || conn.scopePending)
    {
      if Valid() {
        Abandoned();
      }
      if conn.scopePending {
        conn.isBroken := true;
      }
    }

    /** A handle that is forgotten owes nothing if the connection calls itself
        usable. */
    lemma Abandoned()
      requires Valid()
      ensures conn.Valid()
    {
      if conn.Ready() && !conn.scopePending {
        assert conn.wire.log[..|conn.wire.log|] == conn.wire.log;
      }
    }

    /** How many more ReadyForQuery messages are to come than Syncs are queued. */
    ghost function Surplus(): int
      reads this, conn, conn.wire
    {
      Readys(conn.wire.unread) - PipelineQueue.Syncs(expectations)
    }

    /** Parameters did not encode: half a message is in the buffer, or was sent
        with a Sync that nobody answers. The handle cannot complete what it
        owes, and the connection is in step if it calls itself usable. */
    ghost predicate Spoiled()
      reads this, conn, conn.wire
    {
      && conn.wire.Valid() && Numbered() && conn.Ready() && AllExec(conn.writeBuffer) && Surplus() <= 0
      && conn.Valid() && (aborted ==> conn.scopePending)
      && (halfWritten || (conn.wire.mode == Dead && Surplus() < 0 && conn.scopePending))
    }

    lemma Basics()
      requires Valid() || Spoiled()
      ensures conn.wire.Valid() && Numbered()
    {
    }

    lemma InDebt()
      requires Valid() && conn.Ready()
      ensures AllExec(conn.writeBuffer) && Surplus() <= 0
      ensures conn.wire.mode != Dead ==> Surplus() == 0
      ensures aborted ==> conn.scopePending
    {
      var sent, unsent := Units(owed), conn.writeBuffer;
      TaggedPipelined(sent + unsent, front, |conn.tickets|);
      assert forall u <- sent :: u in sent + unsent;
      AtMostBalanced(from, owed, conn.wire.mode);
      SyncsOfSent(sent, unsent);
      if conn.wire.mode != Dead {
        Balanced(from, owed, conn.wire.mode);
      }
    }

    /** The parameters do not encode: the number is used up, and what was
        written stays in the buffer. */
    method RefuseExec()
      requires conn.wire.Valid() && conn.Ready()
      modifies this`queueSeq, this`halfWritten, conn`tickets
      ensures old(Valid() || Spoiled()) ==> Spoiled()
      ensures old(Numbered()) ==> Numbered()
      ensures queueSeq == old(queueSeq) + 1 && conn.tickets == old(conn.tickets) + [old(queueSeq)] && halfWritten
      ensures old(conn.Valid()) ==> conn.Valid()
    {
      hide Coupling, Conforming, Readys, Syncs, AllExec;
      if Valid() {
        InDebt();
        Abandoned();
      }
      conn.tickets := conn.tickets + [queueSeq];
      queueSeq := queueSeq + 1;
      halfWritten := true;
    }

    /** Everything that is queued and sent stays where it is; what is written
        behind an unfinished message, nobody will read. */
    method AcceptExec(kind: ExecKind)
      requires conn.wire.Valid() && conn.Ready()
      modifies this`queueSeq, this`expectations, conn`writeBuffer, conn`tickets
      ensures old(Valid()) ==> Valid()
      ensures old(Spoiled()) ==> Spoiled()
      ensures old(Numbered()) ==> Numbered()
      ensures queueSeq == old(queueSeq) + 1 && conn.tickets == old(conn.tickets) + [old(queueSeq)]
      ensures expectations == old(expectations) + [Execution(kind)]
      ensures conn.writeBuffer ==
              old(conn.writeBuffer) + if halfWritten then [] else [Server.Exec(kind, |old(conn.tickets)|)]
      ensures old(AllExec(conn.writeBuffer)) ==> AllExec(conn.writeBuffer)
      ensures Surplus() == old(Surplus()) && (old(conn.Valid()) ==> conn.Valid())
    {
      hide Coupling, Conforming, Readys, Syncs;
      if Valid() {
        Pushed(expectations, owed, conn.writeBuffer, front, |conn.tickets|, from, conn.wire.mode,
               conn.wire.unread, conn.wire.log, conn.transactionStatus, kind);
      }
      SyncsSnoc(expectations, Execution(kind));
      if !halfWritten {
        conn.writeBuffer := conn.writeBuffer + [Server.Exec(kind, |conn.tickets|)];
      }
      conn.tickets := conn.tickets + [queueSeq];
      queueSeq := queueSeq + 1;
      expectations := expectations + [Execution(kind)];
    }

    /** Queue a statement execution; nothing is sent yet. If its parameters do
        not encode, its number is used up and what was written of it stays in
        the buffer; what is written behind that, nobody will read. */
    method Exec(kind: ExecKind, columns: Option<Bytes>, encodes: bool) returns (r: Outcome<Ticket>)
      requires conn.wire.Valid()
      modifies this, conn`writeBuffer, conn`tickets
      ensures old(Valid()) && (encodes || !conn.Ready()) ==> Valid()
      ensures old(Valid()) && conn.Ready() && !encodes ==> Spoiled()
      ensures old(Spoiled()) ==> Spoiled()
      ensures old(Numbered()) ==> Numbered()
      ensures !conn.Ready() ==> r == Fail(ConnectionBroken) && unchanged(this) && unchanged(conn)
      ensures conn.Ready() ==>
                queueSeq == old(queueSeq) + 1 && conn.tickets == old(conn.tickets) + [old(queueSeq)]
      ensures conn.Ready() && encodes ==>
                && r == Done(Ticket(old(queueSeq), columns, conn, |old(conn.tickets)|)) && r.value.Genuine()
                && (old(Numbered()) ==> Current(r.value))
                && expectations == old(expectations) + [Execution(kind)] && halfWritten == old(halfWritten)
                && conn.writeBuffer ==
                   old(conn.writeBuffer) + if halfWritten then [] else [Server.Exec(kind, |old(conn.tickets)|)]
      ensures conn.Ready() && !encodes ==>
                && r == Fail(Encode) && halfWritten
                && conn.writeBuffer == old(conn.writeBuffer) && expectations == old(expectations)
      ensures old(AllExec(conn.writeBuffer)) ==> AllExec(conn.writeBuffer)
      ensures Surplus() == old(Surplus()) && (old(conn.Valid()) ==> conn.Valid())
      ensures base == old(base) && claimSeq == old(claimSeq) && aborted == old(aborted)
      ensures owed == old(owed) && from == old(from) && front == old(front) && unfinished == old(unfinished)
    {
      hide Coupled, Conforming, Readys, Syncs, Spoiled, AllExec, Conn.InStep;
      var _ :- conn.EnsureExchangeReady();
      var seqNo, tag := queueSeq, |conn.tickets|;
      if !encodes {
        RefuseExec();
        return Fail(Encode);
      }
      AcceptExec(kind);
      return Done(Ticket(seqNo, columns, conn, tag));
    }

    /** Send the buffer: an exchange of its own, of a scope that is now open. */
    method Transmit(units: seq<Unit>) returns (r: Outcome<()>, ghost served: seq<Served>)
      requires conn.wire.Valid() && conn.Ready()
      modifies conn`writeBuffer, conn`exchangeInProgress, conn`scopePending, conn.wire
      ensures conn.wire.WentOn(old(conn.wire.log), old(conn.wire.mode), true)
      ensures conn.wire.log == old(conn.wire.log) + served
      ensures Chain(old(conn.wire.mode), served, conn.wire.mode) && (conn.wire.Survivable() ==> AllSurvive(served))
      ensures conn.scopePending && (r.Done? <==> conn.Ready()) && (r.Fail? ==> r.error == Io)
      ensures r.Done? ==>
                && conn.writeBuffer == [] && Units(served) == units && conn.wire.torn == old(conn.wire.torn)
                && conn.wire.unread == old(conn.wire.unread) + Flatten(served)
      ensures old(conn.wire.Calm()) ==> r.Done? && conn.wire.Calm()
    {
      hide Chain, Units, Flatten, Obeyed, Conforming, AllSurvive, Survives;
      hide Wire.Calm, Wire.Survivable;
      var _ := conn.BeginExchange();  // succeeds: the caller has checked
      conn.scopePending := true;
      var written;
      written, served := conn.wire.WriteAll(units);
      var _ :- written;
      conn.writeBuffer := [];
      conn.FinishExchange();
      return Done(()), served;
    }

    /** Send the buffer with the unfinished message in it: the last the server
        hears. */
    method TransmitHalf(units: seq<Unit>) returns (r: Outcome<()>)
      requires conn.wire.Valid() && conn.Ready()
      modifies this`halfWritten, conn`writeBuffer, conn`exchangeInProgress, conn`scopePending, conn.wire
      ensures conn.wire.WentOn(old(conn.wire.log), old(conn.wire.mode), false)
      ensures conn.scopePending && (r.Done? <==> conn.Ready()) && (r.Fail? ==> r.error == Io)
      ensures r.Done? ==>
                && conn.writeBuffer == [] && !halfWritten && conn.wire.mode == Dead
                && old(conn.wire.unread) <= conn.wire.unread
      ensures r.Done? && AllExec(units) ==> Readys(conn.wire.unread) == old(Readys(conn.wire.unread))
      ensures old(conn.wire.Calm()) ==> r.Done? && conn.wire.Calm()
    {
      hide Chain, Units, Flatten, Obeyed, Conforming, AllExec, Wire.Calm, Readys;
      var _ := conn.BeginExchange();  // succeeds: the caller has checked
      conn.scopePending := true;
      ghost var mode := conn.wire.mode;
      var written, served, mid, words := conn.wire.WriteUnfinished(units);
      if AllExec(units) {
        OwesNoReady(mode, served, mid, units, old(conn.wire.unread), words);
      }
      var _ :- written;
      conn.writeBuffer, halfWritten := [], false;
      conn.FinishExchange();
      return Done(());
    }

    /** Send what is queued and ask the server to answer it. */
    method Flush() returns (r: Outcome<()>)
      requires conn.wire.Valid()
      modifies this`owed, this`halfWritten, conn`writeBuffer, conn`exchangeInProgress, conn`scopePending, conn.wire
      ensures conn.wire.WentOn(old(conn.wire.log), old(conn.wire.mode), !old(halfWritten))
      ensures old(Valid()) ==> Valid()
      ensures old(Numbered()) ==> Numbered()
      ensures old(Spoiled()) && !old(halfWritten) && conn.Ready() ==> Spoiled()
      ensures old(!conn.Ready()) ==> r == Fail(ConnectionBroken) && unchanged(this, conn, conn.wire)
      ensures r.Done? <==> conn.Ready()
      ensures r.Done? ==>
                && conn.writeBuffer == [] && !halfWritten && (old(halfWritten) ==> conn.wire.mode == Dead)
                && conn.scopePending == old(conn.scopePending || conn.writeBuffer != [] || halfWritten)
                && old(conn.wire.unread) <= conn.wire.unread
      ensures r.Done? && old(Valid()) ==> old(owed) <= owed && Front() == old(Front())
      ensures r.Done? && old(AllExec(conn.writeBuffer)) ==> Surplus() == old(Surplus())
      ensures old(conn.exchangeInProgress) ==> conn.exchangeInProgress
      ensures old(conn.Ready() && conn.wire.Calm()) ==> r.Done? && conn.wire.Calm()
      ensures old(Valid() && conn.Ready() && conn.wire.Survivable() && AllSurvive(owed)) && r.Done? ==> AllSurvive(owed)
    {
      hide Coupling, Chain, Conforming, Obeyed, Units, Flatten, Wire.Calm, Wire.Survivable, AllSurvive;
      hide Survives, LastStatus, AllExec, Readys, Syncs;
      NoneQueued();
      var _ :- conn.EnsureExchangeReady();
      if halfWritten {
        r := TransmitHalf(conn.writeBuffer);
      } else if conn.writeBuffer != [] {
        ghost var ok := Coupled();
        var sent, served := Transmit(conn.writeBuffer);
        var _ :- sent;
        if AllExec(old(conn.writeBuffer)) {
          OwesNoReady(old(conn.wire.mode), served, conn.wire.mode, old(conn.writeBuffer), old(conn.wire.unread), []);
        }
        assert old(conn.wire.unread) + Flatten(served) + [] == old(conn.wire.unread) + Flatten(served);
        r := Done(());
        if ok {
          if AllSurvive(owed) && conn.wire.Survivable() {
            SurviveConcat(owed, served);
          }
          Flushed(expectations, owed, old(conn.writeBuffer), front, |conn.tickets|, from,
                  old(conn.wire.mode), old(conn.wire.unread), old(conn.wire.log), conn.transactionStatus,
                  served, conn.wire.mode);
          owed := owed + served;
        }
      } else {
        r := Done(());
      }
    }

    /** Send the buffer with the unfinished message in it, and a Sync that
        nobody will answer. */
    method SyncUnfinished() returns (r: Outcome<()>)
      requires conn.wire.Valid() && conn.Ready()
      modifies this`expectations, this`halfWritten,
               conn`writeBuffer, conn`exchangeInProgress, conn`scopePending, conn.wire
      ensures conn.wire.WentOn(old(conn.wire.log), old(conn.wire.mode), false)
      ensures r.Done? <==> conn.Ready()
      ensures r.Fail? ==> r.error == Io
      ensures r.Done? ==>
                && conn.writeBuffer == [] && !halfWritten && conn.scopePending && conn.wire.mode == Dead
                && expectations == old(expectations) + [PipelineQueue.Sync]
      ensures r.Done? && old(AllExec(conn.writeBuffer)) ==> Surplus() < old(Surplus())
      ensures old(conn.wire.Calm()) ==> r.Done? && conn.wire.Calm()
    {
      hide Obeyed, Conforming, AllExec, Wire.Calm, Readys, Syncs;
      var units := conn.writeBuffer;
      conn.writeBuffer := units + [SyncPoint];
      expectations := expectations + [PipelineQueue.Sync];
      r := TransmitHalf(units);
      SyncsSnoc(old(expectations), PipelineQueue.Sync);
    }

    /** Send what is queued and a Sync. */
    method Sync() returns (r: Outcome<()>)
      requires conn.wire.Valid()
      modifies this`expectations, this`owed, this`halfWritten,
               conn`writeBuffer, conn`isBroken, conn`exchangeInProgress, conn`scopePending, conn.wire
      ensures conn.wire.WentOn(old(conn.wire.log), old(conn.wire.mode), !old(halfWritten))
      ensures old(Valid()) ==> Valid()
      ensures old(Numbered()) ==> Numbered()
      ensures old(Spoiled()) && conn.Ready() ==> Spoiled() && conn.wire.mode == Dead && Surplus() < 0
      ensures old(!conn.Ready()) ==> r == Fail(ConnectionBroken) && unchanged(this, conn, conn.wire)
      ensures r.Done? <==> conn.Ready()
      ensures r.Done? ==>
                && conn.writeBuffer == [] && !halfWritten && conn.scopePending
                && (old(halfWritten) ==> conn.wire.mode == Dead)
                && expectations == old(expectations) + [PipelineQueue.Sync]
      ensures !old(halfWritten) ==> !halfWritten
      ensures r.Done? && old(Valid()) ==> old(owed) < owed && Front() == old(Front())
      ensures r.Done? && old(AllExec(conn.writeBuffer)) ==>
                Surplus() <= old(Surplus()) && (conn.wire.mode != Dead ==> Surplus() == old(Surplus()))
      ensures old(conn.isBroken) ==> conn.isBroken
      ensures old(conn.exchangeInProgress) ==> conn.exchangeInProgress
      ensures old(conn.Ready() && conn.wire.Calm()) ==> r.Done? && conn.wire.Calm()
      ensures old(conn.Ready() && Valid() && conn.wire.Survivable() && AllSurvive(owed)) && r.Done? ==> AllSurvive(owed)
    {
      hide Readys, Syncs, Coupling, AllSurvive, Obeyed, Conforming, Wire.Calm, Wire.Survivable;
      var _ :- conn.EnsureExchangeReady();
      r := SyncInner();
      if r.Fail? && r.error.IsConnectionBroken() {
        conn.isBroken := true;
      }
    }

    method SyncInner() returns (r: Outcome<()>)
      requires conn.wire.Valid() && conn.Ready()
      modifies this`expectations, this`owed, this`halfWritten,
               conn`writeBuffer, conn`isBroken, conn`exchangeInProgress, conn`scopePending, conn.wire
      ensures conn.wire.WentOn(old(conn.wire.log), old(conn.wire.mode), !old(halfWritten))
      ensures old(Valid()) ==> Valid()
      ensures r.Done? <==> conn.Ready()
      ensures r.Fail? ==> r.error == Io
      ensures r.Done? ==>
                && conn.writeBuffer == [] && !halfWritten && conn.scopePending
                && (old(halfWritten) ==> conn.wire.mode == Dead)
                && expectations == old(expectations) + [PipelineQueue.Sync]
      ensures !old(halfWritten) ==> !halfWritten
      ensures r.Done? && old(Valid()) ==> old(owed) < owed && Front() == old(Front())
      ensures r.Done? && old(AllExec(conn.writeBuffer)) ==>
                && Surplus() <= old(Surplus()) && (old(halfWritten) ==> Surplus() < old(Surplus()))
                && (conn.wire.mode != Dead ==> Surplus() == old(Surplus()))
      ensures old(conn.wire.Calm()) ==> r.Done? && conn.wire.Calm()
      ensures old(Valid() && conn.wire.Survivable() && AllSurvive(owed)) && r.Done? ==> AllSurvive(owed)
    {
      hide Coupling, Chain, Conforming, Obeyed, Units, Flatten, Wire.Calm, Wire.Survivable, AllSurvive;
      hide Survives, LastStatus;
      hide Readys, Syncs, AllExec;
      if halfWritten {
        r := SyncUnfinished();
        return;
      }
      ghost var ok := Coupled();
      ghost var mode := conn.wire.mode;
      conn.writeBuffer := conn.writeBuffer + [SyncPoint];
      expectations := expectations + [PipelineQueue.Sync];
      var sent, served := Transmit(conn.writeBuffer);
      var _ :- sent;
      SyncOwed(old(conn.writeBuffer), mode, served, conn.wire.mode, old(conn.wire.unread), old(expectations));
      if ok {
        Synced(old(expectations), owed, old(conn.writeBuffer), front, |conn.tickets|, from,
               old(conn.wire.mode), old(conn.wire.unread), old(conn.wire.log), conn.transactionStatus,
               served, conn.wire.mode);
        if conn.wire.Survivable() && AllSurvive(owed) {
          SurviveConcat(owed, served);
        }
        owed := owed + served;
      }
      return Done(());
    }

    // -- Reading

    /** The next message that is not asynchronous. With nothing to come from a
        server that is alive, the call never returns. */
    method NextMessage() returns (r: Outcome<BackMsg>)
      modifies conn.wire`awaits, conn.wire`unread, conn.wire`torn
      ensures r.Done? ==>
                && !r.value.Async? && conn.wire.torn == old(conn.wire.torn)
                && [r.value] + conn.wire.unread == DropAsync(old(conn.wire.unread))
                && |conn.wire.unread| < |old(conn.wire.unread)|
                && Readys(conn.wire.unread) == Readys(old(conn.wire.unread)) - if r.value.ReadyForQuery? then 1 else 0
      ensures r.Fail? ==> r.error == Io
      ensures old(conn.wire.Calm()) ==> conn.wire.Calm() && (DropAsync(old(conn.wire.unread)) != [] ==> r.Done?)
    {
      PastAsync([], conn.wire.unread);
      while true
        invariant DropAsync(conn.wire.unread) == DropAsync(old(conn.wire.unread))
        invariant |conn.wire.unread| <= |old(conn.wire.unread)|
        invariant conn.wire.torn == old(conn.wire.torn)
        invariant old(conn.wire.Calm()) ==> conn.wire.Calm()
        decreases |conn.wire.unread|
      {
        var m :- conn.wire.ReadMessage();
        if !m.Async? {
          assert ([m] + conn.wire.unread)[1..] == conn.wire.unread;
          return Done(m);
        }
      }
    }

    /** The next message that is not asynchronous; an error is raised. The
        stream is `t + rest`; if `t` is a reply in phase `ph`, what remains of
        it is `u`. */
    method ReadNextMessage(ghost ph: Phase, ghost cols: Bytes, ghost t: seq<BackMsg>, ghost rest: seq<BackMsg>)
      returns (r: Outcome<BackMsg>, ghost u: seq<BackMsg>)
      requires conn.wire.unread == t + rest && Executing(ph)
      modifies this`aborted, conn`isBroken, conn.wire`awaits, conn.wire`unread, conn.wire`torn
      ensures r.Done? ==>
                && !r.value.Async? && !r.value.ErrorResponse? && conn.wire.torn == old(conn.wire.torn)
                && aborted == old(aborted) && conn.isBroken == old(conn.isBroken)
                && |conn.wire.unread| < |old(conn.wire.unread)|
      ensures r.Done? && Reply(ph, t) ==> Advanced(ph, cols, t, r.value, u) && conn.wire.unread == u + rest
      ensures r.Fail? && r.error.ServerFailure? ==>
                && conn.wire.torn == old(conn.wire.torn)
                && aborted == (old(aborted) || !r.error.err.IsFatal())
                && conn.isBroken == (old(conn.isBroken) || r.error.err.IsFatal())
                && (Reply(ph, t) ==>
                      conn.wire.unread == rest && t[|t| - 1] == ErrorResponse(r.error.err) && Hears(cols, t) == [])
      ensures Reply(ph, t) && Survives(t) ==>
                (r.Done? ==> Survives(u)) && (r.Fail? && r.error.ServerFailure? ==> !r.error.err.IsFatal())
      ensures !r.Done? && !(r.Fail? && r.error.ServerFailure?) ==>
                aborted == old(aborted) && conn.isBroken == old(conn.isBroken)
      ensures !Reply(ph, t) && Stalled(t + rest) ==>
                && (r.Done? ==> r.value.ReadyForQuery?)
                && (r.Fail? && r.error.ServerFailure? ==> r.error.err.IsFatal())
      ensures r.Done? || (r.Fail? && r.error.ServerFailure?) ==>
                Readys(conn.wire.unread) ==
                Readys(old(conn.wire.unread)) - if r.Done? && r.value.ReadyForQuery? then 1 else 0
      ensures old(conn.wire.Calm()) ==>
                conn.wire.Calm() && (Reply(ph, t) ==> r.Done? || (r.Fail? && r.error.ServerFailure?))
    {
      hide Reply, Next, Readys, Hears, Survives, Wire.Calm;
      u := [];
      if Reply(ph, t) {
        NextOf(ph, cols, t, rest);
        u := DropAsync(t)[1..];
      }
      var m :- NextMessage();
      if Reply(ph, t) {
        Uncons(m, conn.wire.unread, DropAsync(t)[0], u + rest);
      }
      if m.ErrorResponse? {
        if m.error.IsFatal() {
          conn.isBroken := true;
        } else {
          aborted := true;
        }
        return Fail(ServerFailure(m.error)), u;
      }
      return Done(m), u;
    }

    /** Consume one ReadyForQuery; `t` is the reply it belongs to. Whatever is
        neither an error nor ReadyForQuery is passed over. Undisturbed, it
        succeeds iff the reply holds no error. */
    method ConsumeReadyForQuery(ghost ph: Phase, ghost t: seq<BackMsg>, ghost rest: seq<BackMsg>)
      returns (r: Outcome<()>)
      requires conn.wire.unread == t + rest
      modifies conn`isBroken, conn`transactionStatus, conn`scopePending,
               conn.wire`awaits, conn.wire`unread, conn.wire`torn
      ensures r.Done? ==>
                && conn.wire.torn == old(conn.wire.torn) && conn.isBroken == old(conn.isBroken)
                && conn.scopePending == (expectations != [])
                && Readys(conn.wire.unread) == Readys(old(conn.wire.unread)) - 1
      ensures r.Done? && Reply(ph, t) && (ph.WantSync? || ph.WantReady?) ==>
                && conn.wire.unread == rest && t[|t| - 1].ReadyForQuery? && !HasError(t)
                && conn.transactionStatus == StatusOf(t[|t| - 1].status)
      ensures old(conn.wire.Calm()) && Reply(ph, t) && (ph.WantSync? || ph.WantReady?) ==>
                conn.wire.Calm() && (r.Done? <==> !HasError(t))
      ensures old(conn.wire.Calm() && ReadyNext(conn.wire.unread)) ==> conn.wire.Calm() && r.Done?
    {
      hide Reply, Next, HasError, Wire.Calm, DropAsync;
      ghost var good := Reply(ph, t) && (ph.WantSync? || ph.WantReady?);
      ghost var u := t;
      while true
        invariant good ==>
                    && conn.wire.unread == u + rest && Reply(ph, u) && u[|u| - 1] == t[|t| - 1]
                    && (HasError(t) <==> HasError(u))
        invariant Readys(conn.wire.unread) == Readys(old(conn.wire.unread))
        invariant conn.wire.torn == old(conn.wire.torn) && conn.isBroken == old(conn.isBroken)
        invariant old(conn.wire.Calm()) ==> conn.wire.Calm()
        invariant old(ReadyNext(conn.wire.unread)) ==> ReadyNext(conn.wire.unread)
        decreases |conn.wire.unread|
      {
        if good {
          AdvanceSync(ph, u);
          NoErrorInNothing();
        }
        ReadyNextStep(conn.wire.unread);
        var m :- conn.wire.ReadMessage();
        if m.Async? {
          u := if good then u[1..] else u;
          continue;
        }
        if m.ErrorResponse? {
          if m.error.IsFatal() {
            conn.isBroken := true;
          }
          return Fail(ServerFailure(m.error));
        }
        if m.ReadyForQuery? {
          conn.transactionStatus := StatusOf(m.status);
          conn.scopePending := expectations != [];
          return Done(());
        }
      }
    }

    lemma NoErrorInNothing()
      ensures !HasError([])
    {
    }

    // -- Claiming

    /** What the end of a reply leaves, read without a failure other than its
        own error: `aborted` iff that was the end. */
    ghost predicate Ended(r: Outcome<()>)
      reads this, conn
    {
      && !conn.isBroken && !r.Dropped? && (aborted <==> !r.Done?)
      && (r.Fail? ==> r.error.ServerFailure? && !r.error.err.IsFatal())
    }

    /** Rows until the terminal message; the columns come from the server or
        from the prepared statement. */
    method ClaimRowsLoop(h: Recorder, columns: Option<Bytes>, ghost ph: Phase, ghost cols: Bytes,
                         ghost t: seq<BackMsg>, ghost rest: seq<BackMsg>)
      returns (r: Outcome<()>)
      requires conn.wire.unread == t + rest && !aborted && !conn.isBroken && ph.Rows? && !ph.limited
      requires columns.Some? ==> cols == columns.value
      modifies this`aborted, conn`isBroken, conn.wire`awaits, conn.wire`unread, conn.wire`torn, h
      ensures old(h.log) <= h.log
      ensures r.Done? || aborted ==>
                && Ended(r) && conn.wire.torn == old(conn.wire.torn)
                && Readys(conn.wire.unread) == Readys(old(conn.wire.unread))
      ensures Reply(ph, t) ==>
                && h.log <= old(h.log) + Hears(cols, t)
                && (r.Done? || aborted ==>
                      conn.wire.unread == rest && Answered(t, r) && h.log == old(h.log) + Hears(cols, t))
      ensures Reply(ph, t) && (r.Done? || aborted) && columns.None? ==> RowsIn(Hears(cols, t)) == []
      ensures !Reply(ph, t) && Stalled(t + rest) ==> !r.Done? && !aborted && h.log == old(h.log)
      ensures old(conn.wire.Calm()) && Reply(ph, t) && Survives(t) && h.Obliging()
              && (columns.Some? || RowsIn(Hears(cols, t)) == []) ==>
                conn.wire.Calm() && (r.Done? || aborted)
    {
      hide Reply, Next, Advanced, Stalled, Hears, RowsIn, Survives, Readys, Wire.Calm, Recorder.Obliging, Hearing;
      ghost var u, v, ok, stalled := t, rest, Reply(ph, t), !Reply(ph, t) && Stalled(t + rest);
      StartHearing(ph, cols, t, h.log);
      while true
        invariant conn.wire.unread == u + v && old(h.log) <= h.log
        invariant ok ==> v == rest && Hearing(ph, cols, t, u, old(h.log), h.log)
        invariant columns.None? ==> h.log == old(h.log)
        invariant stalled ==> !Reply(ph, u) && Stalled(u + v) && h.log == old(h.log)
        invariant !aborted && !conn.isBroken && conn.wire.torn == old(conn.wire.torn)
        invariant Readys(conn.wire.unread) == Readys(old(conn.wire.unread))
        invariant old(conn.wire.Calm()) && ok ==> conn.wire.Calm()
        decreases |conn.wire.unread|
      {
        if ok {
          HearingIs(ph, cols, t, u, old(h.log), h.log);
          NoRowHeard(cols, old(h.log), t, EmptyQueryResponse);
        }
        var m, u' := ReadNextMessage(ph, cols, u, v);
        var m' :- m;
        if ok {
          HearingLast(ph, cols, t, u, old(h.log), h.log, m', u');
          NoRowHeard(cols, old(h.log), t, m');
        }
        match m' {
          case DataRow(row) =>
            if ok {
              HearingRow(ph, cols, t, u, old(h.log), h.log, row, u');
            }
            if columns.None? {
              return Fail(LibraryBug("unexpected message in pipeline claim"));
            }
            u, v := if ok then u' else [], if ok then rest else conn.wire.unread;
            var _ :- h.Call(Callback.Row(columns.value, row));
          case CommandComplete(tag) =>
            var _ :- h.Call(ResultEnd(tag));
            return Done(());
          case EmptyQueryResponse =>
            return Done(());
          case _ =>
            return Fail(LibraryBug("unexpected message in pipeline claim"));
        }
      }
    }

    /** A reply that is heard at once has no rows. */
    lemma NoRowHeard(cols: Bytes, before: seq<Callback>, t: seq<BackMsg>, m: BackMsg)
      ensures !m.DataRow? && before + Heard(cols, m) == before + Hears(cols, t) ==> RowsIn(Hears(cols, t)) == []
      ensures before == before + Hears(cols, t) ==> RowsIn(Hears(cols, t)) == []
    {
      if before + Heard(cols, m) == before + Hears(cols, t) {
        assert (before + Heard(cols, m))[|before|..] == (before + Hears(cols, t))[|before|..];
        assert Hears(cols, t) == Heard(cols, m);
      }
      if before == before + Hears(cols, t) {
        assert |Hears(cols, t)| == 0;
      }
    }

    lemma StartHearing(ph: Phase, cols: Bytes, t: seq<BackMsg>, log: seq<Callback>)
      ensures Reply(ph, t) ==> Hearing(ph, cols, t, t, log, log)
    {
    }

    /** The columns come first: from the server, or not at all. */
    method ClaimRowsInner(h: Recorder, ghost t: seq<BackMsg>, ghost rest: seq<BackMsg>) returns (r: Outcome<()>)
      requires conn.wire.unread == t + rest && !aborted && !conn.isBroken
      modifies this`aborted, conn`isBroken, conn.wire`awaits, conn.wire`unread, conn.wire`torn, h
      ensures old(h.log) <= h.log
      ensures r.Done? || aborted ==>
                && Ended(r) && conn.wire.torn == old(conn.wire.torn)
                && Readys(conn.wire.unread) == Readys(old(conn.wire.unread))
      ensures Reply(WantDescribe(false), t) ==>
                && h.log <= old(h.log) + Hears([], t)
                && (r.Done? || aborted ==>
                      conn.wire.unread == rest && Answered(t, r) && h.log == old(h.log) + Hears([], t))
      ensures old(conn.wire.Calm()) && Reply(WantDescribe(false), t) && Survives(t) && h.Obliging() ==>
                conn.wire.Calm() && (r.Done? || aborted)
    {
      hide Reply, Next, Advanced, RowsOf, Hears, RowsIn, Stalled, Survives, Readys, Wire.Calm, Recorder.Obliging;
      var m, u := ReadNextMessage(WantDescribe(false), [], t, rest);
      ghost var v := if Reply(WantDescribe(false), t) then rest else conn.wire.unread;
      u := if Reply(WantDescribe(false), t) then u else [];
      var m' :- m;
      if Reply(WantDescribe(false), t) {
        AdvanceQuietly(WantDescribe(false), [], t, m', u);
      }
      var columns;
      match m' {
        case RowDescription(cols) => columns := Some(cols);
        case NoData =>
          columns := None;
          if Reply(WantDescribe(false), t) {
            NoRows(Rows(false, false), u);
            HearsRows([], u);
          }
        case _ => return Fail(LibraryBug("expected RowDescription or NoData"));
      }
      r := ClaimRowsLoop(h, columns, Rows(m'.RowDescription?, false), ColumnsOf(columns), u, v);
    }

    /** Parse, Bind and Execute of raw SQL. */
    method ClaimParseBindExecInner(h: Recorder, ghost t: seq<BackMsg>, ghost rest: seq<BackMsg>)
      returns (r: Outcome<()>)
      requires conn.wire.unread == t + rest && !aborted && !conn.isBroken
      modifies this`aborted, conn`isBroken, conn.wire`awaits, conn.wire`unread, conn.wire`torn, h
      ensures old(h.log) <= h.log
      ensures r.Done? || aborted ==>
                && Ended(r) && conn.wire.torn == old(conn.wire.torn)
                && Readys(conn.wire.unread) == Readys(old(conn.wire.unread))
      ensures Reply(WantParse(ThenBind(ThenDescribe)), t) ==>
                && h.log <= old(h.log) + Hears([], t)
                && (r.Done? || aborted ==>
                      conn.wire.unread == rest && Answered(t, r) && h.log == old(h.log) + Hears([], t))
      ensures !Reply(WantParse(ThenBind(ThenDescribe)), t) && Stalled(t + rest) ==>
                !r.Done? && !aborted && h.log == old(h.log)
      ensures old(conn.wire.Calm()) && Reply(WantParse(ThenBind(ThenDescribe)), t) && Survives(t) && h.Obliging() ==>
                conn.wire.Calm() && (r.Done? || aborted)
    {
      hide Reply, Next, Advanced, RowsOf, Hears, Stalled, Survives, Readys, Wire.Calm, Recorder.Obliging;
      ghost var good := Reply(WantParse(ThenBind(ThenDescribe)), t);
      var m, u := ReadNextMessage(WantParse(ThenBind(ThenDescribe)), [], t, rest);
      ghost var v := if good then rest else conn.wire.unread;
      u := if good then u else [];
      var m' :- m;
      if good {
        AdvanceQuietly(WantParse(ThenBind(ThenDescribe)), [], t, m', u);
      }
      if !m'.ParseComplete? {
        return Fail(LibraryBug("expected ParseComplete"));
      }
      var n, w := ReadNextMessage(WantBind(ThenDescribe), [], u, v);
      v := if good then rest else conn.wire.unread;
      w := if good then w else [];
      var n' :- n;
      if good {
        AdvanceQuietly(WantBind(ThenDescribe), [], u, n', w);
      }
      if !n'.BindComplete? {
        return Fail(LibraryBug("expected BindComplete"));
      }
      r := ClaimRowsInner(h, w, v);
    }

    /** Bind and Execute of a prepared statement. */
    method ClaimBindExecInner(h: Recorder, columns: Option<Bytes>, ghost t: seq<BackMsg>, ghost rest: seq<BackMsg>)
      returns (r: Outcome<()>)
      requires conn.wire.unread == t + rest && !aborted && !conn.isBroken
      modifies this`aborted, conn`isBroken, conn.wire`awaits, conn.wire`unread, conn.wire`torn, h
      ensures old(h.log) <= h.log
      ensures r.Done? || aborted ==>
                && Ended(r) && conn.wire.torn == old(conn.wire.torn)
                && Readys(conn.wire.unread) == Readys(old(conn.wire.unread))
      ensures Reply(WantBind(ThenRows), t) ==>
                && h.log <= old(h.log) + Hears(ColumnsOf(columns), t)
                && (r.Done? || aborted ==>
                      && conn.wire.unread == rest && Answered(t, r)
                      && h.log == old(h.log) + Hears(ColumnsOf(columns), t)
                      && (columns.Some? || RowsOf(t) == []))
      ensures !Reply(WantBind(ThenRows), t) && Stalled(t + rest) ==> !r.Done? && !aborted && h.log == old(h.log)
      ensures old(conn.wire.Calm()) && Reply(WantBind(ThenRows), t) && Survives(t) && h.Obliging()
              && (columns.Some? || RowsOf(t) == []) ==>
                conn.wire.Calm() && (r.Done? || aborted)
    {
      hide Reply, Next, Advanced, RowsOf, RowsIn, Hears, Stalled, Survives, Readys, Wire.Calm, Recorder.Obliging;
      ghost var cols, good := ColumnsOf(columns), Reply(WantBind(ThenRows), t);
      HearsRows(cols, t);
      RowsInUnfold([]);
      var m, u := ReadNextMessage(WantBind(ThenRows), cols, t, rest);
      ghost var v := if good then rest else conn.wire.unread;
      u := if good then u else [];
      var m' :- m;
      if good {
        AdvanceQuietly(WantBind(ThenRows), cols, t, m', u);
      }
      if !m'.BindComplete? {
        return Fail(LibraryBug("expected BindComplete"));
      }
      r := ClaimRowsLoop(h, columns, Rows(true, false), cols, u, v);
    }

    /** Take a Sync at the head of the queue, read its answer and leave the
        aborted state: the common step of claiming and cleanup. */
    method TakeFrontSync() returns (r: Outcome<()>)
      requires expectations != [] && expectations[0].Sync?
      modifies this`expectations, this`aborted, this`owed, this`from,
               conn`isBroken, conn`transactionStatus, conn`scopePending,
               conn.wire`awaits, conn.wire`unread, conn.wire`torn
      ensures r.Done? ==>
                && expectations == old(expectations)[1..] && !aborted
                && conn.isBroken == old(conn.isBroken) && conn.scopePending == (expectations != [])
                && Surplus() == old(Surplus())
      ensures old(Coupled()) ==> old(owed) != []
      ensures r.Done? && old(Coupled()) ==>
                Coupled() && from == Normal && owed == old(owed)[1..] && Clean(old(owed)[0])
      ensures old(Coupled() && conn.wire.Calm()) ==> conn.wire.Calm() && (r.Done? <==> Clean(old(owed)[0]))
      ensures old(conn.wire.Calm() && ReadyNext(conn.wire.unread)) ==> conn.wire.Calm() && r.Done?
    {
      hide Coupling, Readys, Reply, Flatten, StatusOf, Next, HasError, Wire.Calm, ReadyNext;
      ghost var ok := Coupled();
      ghost var t, rest, ph := [], conn.wire.unread, if from == Skipping then WantReady else WantSync;
      if ok {
        FrontSync();
        t, rest := owed[0].trace, Flatten(owed[1..]);
      }
      SyncsTail(expectations);
      expectations := expectations[1..];
      var _ :- ConsumeReadyForQuery(ph, t, rest);
      aborted := false;
      if ok {
        owed, from := owed[1..], Normal;
      }
      return Done(());
    }

    lemma SyncSent()
      requires Coupled() && expectations != [] && expectations[0].Sync?
      ensures owed != [] && owed[0].unit == SyncPoint && from != Dead && (expectations[1..] == [] ==> owed[1..] == [])
    {
      hide Chain, Flatten, LastStatus, Expectations, Tagged, Units;
      HeadSent(expectations, owed, conn.writeBuffer, front, |conn.tickets|);
      HeadPopped(expectations, owed, conn.writeBuffer, front, |conn.tickets|);
      HeadSent(expectations[1..], owed[1..], conn.writeBuffer, front, |conn.tickets|);
    }

    /** What `Popped` says of a Sync at the front. */
    lemma FrontSync()
      requires Coupled() && expectations != [] && expectations[0].Sync?
      ensures owed != [] && owed[0].unit == SyncPoint
      ensures var t := owed[0].trace;
              && conn.wire.unread == t + Flatten(owed[1..])
              && Reply(if from == Skipping then WantReady else WantSync, t)
              && (t[|t| - 1].ReadyForQuery? ==>
                    Coupling(expectations[1..], owed[1..], conn.writeBuffer, front, |conn.tickets|,
                             Normal, conn.wire.mode, Flatten(owed[1..]), conn.wire.log,
                             StatusOf(t[|t| - 1].status)))
      ensures expectations[1..] == [] ==> owed[1..] == []
    {
      hide Coupling, Reply, Flatten, Survives, HasError;
      SyncSent();
      Popped(expectations, owed, conn.writeBuffer, front, |conn.tickets|, from, conn.wire.mode,
             conn.wire.unread, conn.wire.log, conn.transactionStatus);
    }

    /** Whether a Sync is what the client reads next. */
    lemma FrontKind()
      requires Coupled() && (expectations == [] || expectations[0].Execution?)
      ensures owed != [] ==> owed[0].unit.Exec?
    {
      hide Chain, Flatten, LastStatus, Expectations, Tagged;
      if owed != [] {
        HeadPopped(expectations, owed, conn.writeBuffer, front, |conn.tickets|);
      }
    }

    /** What is owed now is what is left of `before` behind some Syncs that
        were answered without an error. */
    ghost predicate Consumed(before: seq<Served>)
      reads this
    {
      && |owed| <= |before| && owed == before[|before| - |owed|..]
      && SyncsClean(before[..|before| - |owed|])
    }

    /** Consume the Syncs at the front of the queue. Undisturbed, that succeeds
        iff none of them is answered with an error. */
    method ConsumePendingSyncs() returns (r: Outcome<()>)
      modifies this`expectations, this`aborted, this`owed, this`from,
               conn`isBroken, conn`transactionStatus, conn`scopePending,
               conn.wire`awaits, conn.wire`unread, conn.wire`torn
      ensures r.Done? ==>
                && expectations == DropSyncs(old(expectations))
                && aborted == (old(aborted) && !old(StartsWithSync(expectations)))
                && Surplus() == old(Surplus()) && conn.isBroken == old(conn.isBroken)
                && conn.scopePending == StillOpen(old(expectations), old(conn.scopePending))
      ensures !old(StartsWithSync(expectations)) ==>
                && r.Done? && expectations == old(expectations) && conn.scopePending == old(conn.scopePending)
                && owed == old(owed) && conn.wire.unread == old(conn.wire.unread)
                && (old(conn.wire.Calm()) ==> conn.wire.Calm())
      ensures r.Done? && old(Coupled()) ==> Coupled() && Consumed(old(owed))
      ensures old(Coupled() && conn.wire.Calm()) ==> conn.wire.Calm() && (r.Done? <==> LeadClean(old(owed)))
    {
      hide Coupled, Readys, Syncs, Wire.Calm, ReadyNext, Clean, HasError;
      ghost var ok, calm := Coupled(), Coupled() && conn.wire.Calm();
      ghost var taken: seq<Served>, none := [], true;
      while expectations != [] && expectations[0] == PipelineQueue.Sync
        invariant ok ==> Coupled() && old(owed) == taken + owed && SyncsClean(taken)
        invariant calm ==> conn.wire.Calm() && (LeadClean(owed) <==> LeadClean(old(owed)))
        invariant Surplus() == old(Surplus()) && conn.isBroken == old(conn.isBroken)
        invariant DropSyncs(expectations) == DropSyncs(old(expectations))
        invariant none ==>
                    && expectations == old(expectations) && conn.scopePending == old(conn.scopePending)
                    && aborted == old(aborted) && owed == old(owed) && conn.wire.unread == old(conn.wire.unread)
                    && (old(conn.wire.Calm()) ==> conn.wire.Calm())
        invariant !none ==>
                    old(StartsWithSync(expectations)) && !aborted && conn.scopePending == (expectations != [])
        decreases |expectations|
      {
        ghost var was := owed;
        if ok {
          SyncSent();
        }
        var _ :- TakeFrontSync();
        none := false;
        if ok {
          Shifted(taken, was);
          taken := taken + [was[0]];
        }
      }
      if ok {
        FrontKind();
        Joined(old(owed), taken, owed);
      }
      return Done(());
    }

    lemma Shifted(taken: seq<Served>, owed: seq<Served>)
      requires owed != []
      ensures taken + owed == taken + [owed[0]] + owed[1..]
      ensures SyncsClean(taken) && Clean(owed[0]) ==> SyncsClean(taken + [owed[0]])
    {
      hide Clean;
    }

    lemma Joined(before: seq<Served>, taken: seq<Served>, owed: seq<Served>)
      requires before == taken + owed
      ensures taken == before[..|before| - |owed|] && owed == before[|before| - |owed|..]
    {
    }

    /** A claim takes a Sync of the caller's own for the execution: on an
        aborted pipeline that has one at the front of the queue. */
    predicate Steals(ticket: Ticket)
      reads this, conn
    {
      ticket.seqNo == claimSeq && aborted && StartsWithSync(Sent())
    }

    /** The queue a claim finds: it is sent first, if it was not yet. */
    function Sent(): seq<Expectation>
      reads this, conn
    {
      expectations + if conn.writeBuffer != [] || halfWritten then [PipelineQueue.Sync] else []
    }

    lemma StealsIs(ticket: Ticket)
      ensures Steals(ticket) <==> ticket.seqNo == claimSeq && aborted && StartsWithSync(Sent())
    {
    }

    lemma SentHead()
      ensures Sent() == [] ==> expectations == [] && conn.writeBuffer == [] && !halfWritten
      ensures expectations != [] ==> Sent() != [] && Sent()[0] == expectations[0]
      ensures |expectations| > 1 ==> Tail(Sent()) != [] && Tail(Sent())[0] == expectations[1]
    {
    }

    /** Pop the front of the queue without looking at it. */
    method PopUnseen()
      requires aborted
      modifies this`claimSeq, this`expectations, this`owed, this`front
      ensures claimSeq == old(claimSeq) + 1 && expectations == Tail(old(expectations))
      ensures Surplus() == old(Surplus()) + if old(StartsWithSync(expectations)) then 1 else 0
      ensures old(expectations) == [] ==> owed == old(owed) && front == old(front)
      ensures old(AllSent() && expectations != [] && expectations[0].Execution?) ==>
                && Coupled() && front == old(front) + 1
                && old(owed) != [] && owed == old(owed)[1..] && from == Skipping
                && old(owed)[0].unit == Server.Exec(old(expectations)[0].kind, old(front))
    {
      hide Coupling, Readys, Syncs, Reply, Chain, Flatten, Stalled;
      SyncsTail(expectations);
      if AllSent() && expectations != [] && expectations[0].Execution? {
        FrontExec();
        assert [] + Flatten(owed[1..]) == Flatten(owed[1..]);
        owed, front := owed[1..], front + 1;
      }
      claimSeq := claimSeq + 1;
      expectations := Tail(expectations);
    }

    /** A claim for an execution the server skipped: the front of the queue is
        popped without looking at it. */
    method ClaimAborted() returns (r: Outcome<()>)
      requires aborted && conn.exchangeInProgress && !conn.isBroken
      modifies this`claimSeq, this`expectations, this`aborted, this`owed, this`from, this`front,
               conn`isBroken, conn`transactionStatus, conn`scopePending, conn`exchangeInProgress,
               conn.wire`awaits, conn.wire`unread, conn.wire`torn
      ensures !r.Done?
      ensures conn.Ready() ==>
                && r == Fail(ABORTED) && claimSeq == old(claimSeq) + 1
                && expectations == DropSyncs(Tail(old(expectations)))
                && aborted == !StartsWithSync(Tail(old(expectations)))
                && Surplus() == old(Surplus()) + (if old(StartsWithSync(expectations)) then 1 else 0)
                && conn.scopePending == StillOpen(Tail(old(expectations)), old(conn.scopePending))
      ensures !StartsWithSync(Tail(old(expectations))) ==>
                && conn.Ready() && conn.wire.unread == old(conn.wire.unread)
                && (old(conn.wire.Calm()) ==> conn.wire.Calm())
      ensures old(AllSent() && expectations == []) ==>
                conn.Ready() && Coupled() && owed == old(owed) && front == old(front)
      ensures old(AllSent() && expectations != [] && expectations[0].Execution?) ==>
                && old(owed) != [] && old(owed)[0].unit == Server.Exec(old(expectations)[0].kind, old(front))
                && (conn.Ready() ==> Coupled() && front == old(front) + 1 && Consumed(old(owed)[1..]))
                && (old(conn.wire.Calm()) ==> conn.wire.Calm() && (conn.Ready() <==> LeadClean(old(owed)[1..])))
      ensures old(AllSent() && StartsWithSync(expectations)) && conn.Ready() && conn.wire.mode != Dead ==> Lost()
    {
      hide Coupling, Readys, Syncs, Reply, Chain, Flatten, Wire.Calm, Stalled, DropSyncs, Lost, LeadClean, Consumed;
      ghost var steals := AllSent() && StartsWithSync(expectations) && conn.wire.mode != Dead;
      if steals {
        InBalance();
      }
      PopUnseen();
      var _ :- ConsumePendingSyncs();
      conn.FinishExchange();
      if steals {
        LosesTrack();
      }
      return Fail(ABORTED);
    }

    /** What a skipping server sends next, when a Sync is next in the queue. */
    lemma SkippedToSync()
      requires Coupled() && aborted && expectations != [] && expectations[0].Sync? && AllSurvive(owed)
      ensures ReadyNext(conn.wire.unread)
    {
      hide Coupling, Reply, Flatten;
      FrontSync();
      SkipAsync(WantReady, owed[0].trace, Flatten(owed[1..]));
      ReadyFirst(owed[0].trace, Flatten(owed[1..]));
    }

    lemma LosesTrack()
      requires conn.writeBuffer == [] && conn.wire.mode != Dead && Surplus() != 0
      ensures Lost()
    {
      hide Coupling, Readys, Syncs;
      OutOfStep(expectations, |conn.tickets|, conn.wire.mode, conn.wire.unread);
    }

    lemma InBalance()
      requires AllSent() && conn.wire.mode != Dead
      ensures Surplus() == 0
    {
      assert Units(owed) + [] == Units(owed);
      TaggedPipelined(Units(owed), front, |conn.tickets|);
      Balanced(from, owed, conn.wire.mode);
    }

    /** What `Popped` says of a sent execution at the front. */
    lemma FrontExec()
      requires AllSent() && expectations != [] && expectations[0].Execution?
      ensures owed != [] && owed[0] == conn.wire.log[Front()] && owed[0].mode == from && from != Dead
      ensures owed[0].unit == Server.Exec(expectations[0].kind, front)
      ensures var t := owed[0].trace;
              && conn.wire.unread == t + Flatten(owed[1..]) && conn.scopePending
              && (from == Normal ==> Reply(Start(Server.Exec(expectations[0].kind, 0)), t))
              && (from == Skipping ==> t == [] && Stalled(conn.wire.unread))
              && (NextMode(from, t) != Dead ==>
                    Coupling(expectations[1..], owed[1..], conn.writeBuffer, front + 1, |conn.tickets|,
                             NextMode(from, t), conn.wire.mode, Flatten(owed[1..]), conn.wire.log,
                             conn.transactionStatus))
    {
      hide Reply, Expectations, Tagged, Flatten, LastStatus, Units, Readys, Stalled;
      HeadSent(expectations, owed, conn.writeBuffer, front, |conn.tickets|);
      Popped(expectations, owed, conn.writeBuffer, front, |conn.tickets|, from, conn.wire.mode,
             conn.wire.unread, conn.wire.log, conn.transactionStatus);
      var t := owed[0].trace;
      if from == Normal {
        ReplyReadys(Start(owed[0].unit), t);
      } else {
        SkippingStream(owed, conn.wire.mode);
      }
    }

    /** A ticket that knows no columns is for a statement without rows. */
    predicate ColumnsKnown(ticket: Ticket, s: Served) {
      ticket.columns.Some? || (s.unit.Exec? && s.unit.kind == ParseBindExecute) || RowsOf(s.trace) == []
    }

    /** A caller knows that the columns of the next reply are known. */
    predicate ColumnsGiven(ticket: Ticket)
      reads this
    {
      || ticket.columns.Some?
      || (expectations != [] && expectations[0].Execution? && expectations[0].kind == ParseBindExecute)
    }

    /** The server's mode behind an answer that is not fatal. */
    lemma AnsweredMode(t: seq<BackMsg>)
      ensures forall r :: Answered(t, r) && (r.Done? || !r.error.err.IsFatal()) ==>
                NextMode(Normal, t) == if r.Done? then Normal else Skipping
    {
    }

    /** What an execution's reply gives the claim of a ticket to hear. */
    function HeardBy(ticket: Ticket, s: Served): (heard: seq<Callback>)
      requires s.unit.Exec?
      ensures s.mode == Normal && s.Ok() && ColumnsKnown(ticket, s) ==>
                s.trace != [] && HeardAs(s.unit.kind, ticket.columns, s.trace, heard)
    {
      assert s.mode == Normal && s.Ok() && ColumnsKnown(ticket, s) ==>
          HeardAs(s.unit.kind, ticket.columns, s.trace, Hears(StartColumns(ticket, s.unit.kind), s.trace)) by {
        if s.mode == Normal && s.Ok() && ColumnsKnown(ticket, s) {
          HearsReply(s.unit.kind, s.unit.tag, ticket.columns, s.trace);
        }
      }
      Hears(StartColumns(ticket, s.unit.kind), s.trace)
    }

    /** Read the reply of an execution. */
    method ClaimReply(kind: ExecKind, ticket: Ticket, h: Recorder, ghost t: seq<BackMsg>, ghost rest: seq<BackMsg>)
      returns (r: Outcome<()>)
      requires conn.wire.unread == t + rest && !aborted && !conn.isBroken
      modifies this`aborted, conn`isBroken, conn.wire`awaits, conn.wire`unread, conn.wire`torn, h
      ensures old(h.log) <= h.log
      ensures r.Done? || aborted ==>
                && Ended(r) && conn.wire.torn == old(conn.wire.torn)
                && Readys(conn.wire.unread) == Readys(old(conn.wire.unread))
      ensures Reply(Start(Server.Exec(kind, 0)), t) ==>
                && h.log <= old(h.log) + Hears(StartColumns(ticket, kind), t)
                && (r.Done? || aborted ==>
                      && conn.wire.unread == rest && Answered(t, r)
                      && h.log == old(h.log) + Hears(StartColumns(ticket, kind), t)
                      && (kind == ParseBindExecute || ticket.columns.Some? || RowsOf(t) == []))
      ensures !Reply(Start(Server.Exec(kind, 0)), t) && Stalled(t + rest) ==>
                !r.Done? && !aborted && h.log == old(h.log)
      ensures old(conn.wire.Calm()) && Reply(Start(Server.Exec(kind, 0)), t) && Survives(t) && h.Obliging()
              && (kind == ParseBindExecute || ticket.columns.Some? || RowsOf(t) == []) ==>
                conn.wire.Calm() && (r.Done? || aborted)
    {
      hide Reply, Hears, RowsOf, Stalled, Survives, Readys, Wire.Calm, Recorder.Obliging, Answered, Ended;
      if kind == ParseBindExecute {
        r := ClaimParseBindExecInner(h, t, rest);
      } else {
        r := ClaimBindExecInner(h, ticket.columns, t, rest);
      }
    }

    /** The first owed unit was executed, and the handler heard its reply. */
    ghost predicate Delivered(ticket: Ticket, h: Recorder, before: seq<Callback>, s: Served, r: Outcome<()>)
      reads h
    {
      && s.unit.Exec? && s.mode == Normal && s.Ok() && Answered(s.trace, r) && ColumnsKnown(ticket, s)
      && h.log == before + HeardBy(ticket, s)
    }

    /** Pop the execution at the front of the queue and read its reply. */
    method ClaimExecution(ticket: Ticket, h: Recorder) returns (r: Outcome<()>)
      requires !aborted && conn.exchangeInProgress && !conn.isBroken
      requires expectations != [] && expectations[0].Execution?
      modifies this`expectations, this`aborted, this`owed, this`from, this`front,
               conn`isBroken, conn.wire`awaits, conn.wire`unread, conn.wire`torn, h
      ensures old(h.log) <= h.log && expectations == old(expectations)[1..]
      ensures r.Done? || aborted ==> Ended(r) && Surplus() == old(Surplus())
      ensures old(AllSent()) ==>
                && old(owed) != [] && old(owed)[0].unit.Exec? && old(owed)[0].unit.tag == old(front)
                && h.log <= old(h.log) + HeardBy(ticket, old(owed)[0])
                && (r.Done? || aborted ==>
                      && Coupled() && conn.scopePending && owed == old(owed)[1..] && front == old(front) + 1
                      && Delivered(ticket, h, old(h.log), old(owed)[0], r))
                && (old(conn.wire.Calm() && AllSurvive(owed) && !Forgotten())
                    && h.Obliging() && ColumnsKnown(ticket, old(owed)[0]) ==>
                      conn.wire.Calm() && (r.Done? || aborted))
    {
      hide Coupling, Reply, Flatten, RowsOf, Hears, Chain, Stalled, Wire.Calm, Survives, Answered;
      hide Recorder.Obliging, StartColumns, Readys, Syncs;
      ghost var ok := AllSent();
      ghost var t, rest := [], conn.wire.unread;
      if ok {
        FrontExec();
        t, rest := owed[0].trace, Flatten(owed[1..]);
      }
      SyncsTail(expectations);
      AnsweredMode(t);
      var kind := expectations[0].kind;
      expectations := expectations[1..];
      r := ClaimReply(kind, ticket, h, t, rest);
      if ok && (r.Done? || aborted) {
        owed, from, front := owed[1..], NextMode(from, t), front + 1;
      }
    }

    /** A claim for whatever is at the front of the queue. */
    method ClaimFront(ticket: Ticket, h: Recorder) returns (r: Outcome<()>)
      requires !aborted && conn.exchangeInProgress && !conn.isBroken
      modifies this`claimSeq, this`expectations, this`aborted, this`owed, this`from, this`front,
               conn`isBroken, conn`transactionStatus, conn`scopePending, conn`exchangeInProgress,
               conn.wire`awaits, conn.wire`unread, conn.wire`torn, h
      ensures old(h.log) <= h.log && (r.Done? ==> conn.Ready())
      ensures old(expectations == [] || expectations[0].Sync?) ==> h.log == old(h.log) && !conn.Ready()
      ensures conn.Ready() ==>
                && claimSeq == old(claimSeq) + 1 && old(expectations != [] && expectations[0].Execution?)
                && expectations == DropSyncs(Tail(old(expectations)))
                && aborted == (!r.Done? && !StartsWithSync(Tail(old(expectations))))
                && Surplus() == old(Surplus())
                && conn.scopePending == StillOpen(Tail(old(expectations)), old(conn.scopePending))
      ensures old(AllSent() && expectations != [] && expectations[0].Execution?) ==>
                && old(owed) != [] && old(owed)[0].unit.Exec? && old(owed)[0].unit.tag == old(front)
                && h.log <= old(h.log) + HeardBy(ticket, old(owed)[0])
                && (conn.Ready() ==>
                      && Coupled() && front == old(front) + 1 && Consumed(old(owed)[1..])
                      && Delivered(ticket, h, old(h.log), old(owed)[0], r))
                && (old(conn.wire.Calm() && AllSurvive(owed) && !Forgotten())
                    && h.Obliging() && ColumnsKnown(ticket, old(owed)[0]) ==>
                      conn.wire.Calm() && (conn.Ready() <==> LeadClean(old(owed)[1..])))
    {
      hide Coupling, Readys, Syncs, RowsOf, HeardBy, Answered, DropSyncs, Wire.Calm, AllSurvive, ColumnsKnown;
      hide Recorder.Obliging, Reply, Next, Chain, ReadyNext, LeadClean, Consumed, Delivered;
      if expectations == [] {
        return Fail(LibraryBug("no expectation in queue"));
      }
      if expectations[0].Sync? {
        expectations := expectations[1..];
        return Fail(LibraryBug("unexpected Sync expectation"));
      }
      r := ClaimExecution(ticket, h);
      if r.Dropped? || (r.Fail? && (conn.isBroken || !aborted)) {
        // Nothing tells where in the reply the reader stopped: the exchange
        // stays open.
        return;
      }
      claimSeq := claimSeq + 1;
      var _ :- ConsumePendingSyncs();
      conn.FinishExchange();
    }

    lemma FrontGiven(ticket: Ticket)
      requires AllSent() && expectations != [] && expectations[0].Execution?
      ensures owed != [] && owed[0].unit.Exec? && owed[0].mode == from
      ensures ColumnsGiven(ticket) ==> ColumnsKnown(ticket, owed[0])
    {
      hide Coupling, RowsOf, Flatten, Reply, Stalled;
      FrontExec();
    }

    /** The claim told what became of the execution `s`: skipped executions,
        and only those, are reported as aborted. */
    ghost predicate Told(ticket: Ticket, h: Recorder, before: seq<Callback>, s: Served, r: Outcome<()>)
      reads h
    {
      if s.mode == Skipping then s.unit.Exec? && r == Fail(ABORTED) && h.log == before
      else Delivered(ticket, h, before, s, r)
    }

    /** The handler heard, since `before`, what the server sent for the unit it
        received as the `k`-th, the execution `tag`, or a prefix of it. */
    ghost predicate HeardAt(ticket: Ticket, h: Recorder, before: seq<Callback>, k: int, tag: nat)
      reads h, conn.wire
    {
      && 0 <= k < |conn.wire.log|
      && var s := conn.wire.log[k];
      s.unit.Exec? && s.unit.tag == tag && h.log <= before + HeardBy(ticket, s)
    }

    /** It heard all of it, and the claim told what became of it. */
    ghost predicate ToldAt(ticket: Ticket, h: Recorder, before: seq<Callback>, k: int, tag: nat, skipped: bool,
                           r: Outcome<()>)
      reads this, h, conn.wire
    {
      && 0 <= k < Front() && k < |conn.wire.log|
      && var s := conn.wire.log[k];
      && s.unit.Exec? && s.unit.tag == tag && Told(ticket, h, before, s, r)
      && (s.mode == Skipping <==> skipped) && CleanFrom(conn.wire.log, k, Front())
    }

    /** What a claim in turn makes of the queue it finds, when that fits the
        stream: with nothing queued it counts a claim of nothing, before a Sync
        it loses the stream or the exchange, and of an execution it tells all,
        if the connection can go on, and a prefix if not. */
    ghost predicate Taken(ticket: Ticket, h: Recorder, before: seq<Callback>, queue: seq<Expectation>, k: int, tag: nat,
                          skipped: bool, r: Outcome<()>)
      reads this, h, conn, conn.wire
    {
      if queue == [] then
        && h.log == before && (conn.Ready() <==> skipped)
        && (conn.Ready() ==> r == Fail(ABORTED) && front == tag)
      else if queue[0].Sync? then
        && h.log == before && (conn.Ready() ==> skipped)
        && (conn.Ready() && conn.wire.mode != Dead ==> Lost())
      else
        && (h.log != before ==> HeardAt(ticket, h, before, k, tag))
        && (conn.Ready() ==> front == tag + 1 && ToldAt(ticket, h, before, k, tag, skipped, r))
    }

    lemma NotTaken(ticket: Ticket, h: Recorder, queue: seq<Expectation>, k: int, tag: nat, skipped: bool,
                   r: Outcome<()>)
      requires !conn.Ready() && queue != []
      ensures Taken(ticket, h, h.log, queue, k, tag, skipped, r)
    {
    }

    /** Nothing disturbs the claim of this ticket in its turn, and the columns of
        its statement are known. */
    ghost predicate Undisturbed(ticket: Ticket)
      reads this, conn, conn.wire
    {
      && Quiet() && !Forgotten() && ColumnsGiven(ticket) && conn.Ready() && ticket.seqNo == claimSeq
      && expectations != [] && expectations[0].Execution?
    }

    /** The connection can go on iff no Sync directly behind the `k`-th unit is
        answered with an error. */
    ghost predicate GoesOn(k: int)
      reads conn, conn.wire
    {
      conn.wire.Calm() && k < |conn.wire.log| && (conn.Ready() <==> CleanBehind(k))
    }

    /** No Sync directly behind the `k`-th unit is answered with an error. */
    ghost predicate CleanBehind(k: int)
      reads conn.wire
    {
      0 <= k < |conn.wire.log| && LeadClean(conn.wire.log[k + 1..])
    }

    ghost predicate KnownAt(ticket: Ticket, k: int)
      reads conn.wire
    {
      0 <= k < |conn.wire.log| ==> ColumnsKnown(ticket, conn.wire.log[k])
    }

    /** A claim once everything is sent. */
    method ClaimSent(ticket: Ticket, h: Recorder) returns (r: Outcome<()>)
      requires conn.Ready() && conn.wire.Valid()
      modifies this`claimSeq, this`expectations, this`aborted, this`owed, this`from, this`front,
               conn`isBroken, conn`transactionStatus, conn`scopePending, conn`exchangeInProgress,
               conn.wire`awaits, conn.wire`unread, conn.wire`torn, h
      ensures old(h.log) <= h.log && (r.Done? ==> conn.Ready())
      ensures old(aborted) ==> !r.Done? && (conn.Ready() ==> r == Fail(ABORTED)) && h.log == old(h.log)
      ensures !old(aborted) && old(expectations == [] || expectations[0].Sync?) ==> !conn.Ready()
      ensures conn.Ready() ==>
                && claimSeq == old(claimSeq) + 1
                && expectations == DropSyncs(Tail(old(expectations)))
                && aborted == (!r.Done? && !StartsWithSync(Tail(old(expectations))))
                && Surplus() == old(Surplus()) + (if old(aborted && StartsWithSync(expectations)) then 1 else 0)
                && conn.scopePending == StillOpen(Tail(old(expectations)), old(conn.scopePending))
      ensures old(AllSent() && expectations == []) ==>
                && (conn.Ready() <==> old(aborted)) && h.log == old(h.log)
                && (conn.Ready() ==> Coupled() && owed == old(owed) && front == old(front))
      ensures old(AllSent() && StartsWithSync(expectations)) ==>
                && h.log == old(h.log) && (conn.Ready() ==> old(aborted))
                && (conn.Ready() && conn.wire.mode != Dead ==> Lost())
      ensures old(AllSent() && expectations != [] && expectations[0].Execution?) ==>
                && old(owed) != [] && old(owed)[0].unit.Exec? && old(owed)[0].unit.tag == old(front)
                && h.log <= old(h.log) + HeardBy(ticket, old(owed)[0])
                && (conn.Ready() ==>
                      && Coupled() && front == old(front) + 1 && Consumed(old(owed)[1..])
                      && Told(ticket, h, old(h.log), old(owed)[0], r)
                      && (old(owed)[0].mode == Skipping <==> old(aborted)))
                && (old(conn.wire.Calm() && AllSurvive(owed) && !Forgotten()) && h.Obliging()
                    && (old(ColumnsGiven(ticket)) || ColumnsKnown(ticket, old(owed)[0])) ==>
                      conn.wire.Calm() && (conn.Ready() <==> LeadClean(old(owed)[1..])))
      ensures old(aborted && expectations != [] && !StartsWithSync(Tail(expectations)) && conn.wire.Calm()) ==>
                && conn.Ready() && conn.wire.Calm()
                && (old(AllSent() && expectations[0].Sync? && AllSurvive(owed)) ==> ReadyNext(conn.wire.unread))
    {
      hide Coupling, RowsOf, Hears, Answered, Wire.Calm, AllSurvive, ColumnsKnown, Recorder.Obliging;
      hide Readys, Syncs, ReadyNext, LeadClean, SyncsClean, DropSyncs, Lost, Consumed, StartColumns;
      var _ := conn.BeginExchange();  // succeeds: the caller has checked
      if AllSent() && expectations != [] && expectations[0].Execution? {
        FrontGiven(ticket);
      }
      if aborted {
        if AllSent() && expectations != [] && expectations[0].Sync? && AllSurvive(owed) {
          SkippedToSync();
        }
        r := ClaimAborted();
      } else {
        r := ClaimFront(ticket, h);
      }
    }

    /** The same, in terms of what the server received. */
    method ClaimLogged(ticket: Ticket, h: Recorder) returns (r: Outcome<()>)
      requires conn.Ready() && conn.wire.Valid() && conn.writeBuffer == [] && !halfWritten
      modifies this`claimSeq, this`expectations, this`aborted, this`owed, this`from, this`front,
               conn`isBroken, conn`transactionStatus, conn`scopePending, conn`exchangeInProgress,
               conn.wire`awaits, conn.wire`unread, conn.wire`torn, h
      ensures old(h.log) <= h.log && (r.Done? ==> conn.Ready())
      ensures old(aborted) ==> !r.Done? && (conn.Ready() ==> r == Fail(ABORTED)) && h.log == old(h.log)
      ensures !old(aborted) && old(expectations == [] || expectations[0].Sync?) ==> !conn.Ready()
      ensures conn.Ready() ==>
                && claimSeq == old(claimSeq) + 1
                && expectations == DropSyncs(Tail(old(expectations)))
                && aborted == (!r.Done? && !StartsWithSync(Tail(old(expectations))))
                && Surplus() == old(Surplus()) + (if old(aborted && StartsWithSync(expectations)) then 1 else 0)
                && conn.scopePending == StillOpen(Tail(old(expectations)), old(conn.scopePending))
      ensures old(Valid() && !(aborted && StartsWithSync(expectations))) ==> Valid()
      ensures old(Numbered()) ==> Numbered()
      ensures old(Valid()) ==>
                Taken(ticket, h, old(h.log), old(expectations), old(Front()), old(front), old(aborted), r)
      ensures old(Quiet() && expectations != [] && expectations[0].Execution? && !Forgotten()) && h.Obliging()
              && (old(ColumnsGiven(ticket)) || KnownAt(ticket, old(Front()))) ==>
                GoesOn(old(Front()))
      ensures old(aborted && expectations != [] && !StartsWithSync(Tail(expectations)) && conn.wire.Calm()) ==>
                && conn.Ready() && conn.wire.Calm()
                && (old(Quiet() && expectations[0].Sync?) ==> ReadyNext(conn.wire.unread))
    {
      hide CoupledWith, Mirrors, HeardBy, Wire.Calm, AllSurvive, ColumnsKnown, ColumnsGiven, Recorder.Obliging;
      hide Readys, Syncs, ReadyNext, DropSyncs, Lost, LeadClean, SyncsClean, CleanFrom, Told, Consumed;
      ghost var ok, before := Valid() && expectations != [] && expectations[0].Execution?, owed;
      if Valid() {
        FrontLogged();
      }
      r := ClaimSent(ticket, h);
      if ok && conn.Ready() {
        ConsumedClean(before, old(Front()));
      }
    }

    lemma NotHalf()
      requires Valid() && conn.Ready()
      ensures !halfWritten
    {
    }

    /** A Sync that is queued and never answered keeps the scope open. */
    lemma StillSpoiled()
      requires conn.wire.Valid() && Numbered() && conn.Ready() && conn.writeBuffer == []
      requires conn.wire.mode == Dead && Surplus() < 0 && (expectations != [] ==> conn.scopePending)
      ensures Spoiled()
    {
      NoneQueued();
    }

    /** What is still unsent goes first. */
    method SendRest() returns (r: Outcome<()>)
      requires conn.wire.Valid() && conn.Ready()
      modifies this`expectations, this`owed, this`halfWritten,
               conn`writeBuffer, conn`isBroken, conn`exchangeInProgress, conn`scopePending, conn.wire
      ensures conn.wire.WentOn(old(conn.wire.log), old(conn.wire.mode), !old(halfWritten))
      ensures old(Valid()) ==> Valid() && !halfWritten
      ensures old(Spoiled()) && conn.Ready() ==>
                && !halfWritten && conn.wire.mode == Dead && Surplus() < 0 && conn.scopePending && Numbered()
      ensures !old(halfWritten) ==> !halfWritten
      ensures r.Done? <==> conn.Ready()
      ensures r.Done? ==> conn.writeBuffer == [] && !halfWritten && expectations == old(Sent())
      ensures r.Done? ==> conn.scopePending == old(conn.scopePending || expectations != Sent())
      ensures r.Done? && old(halfWritten) ==> conn.wire.mode == Dead
      ensures r.Done? && old(Valid()) ==> Front() == old(Front())
      ensures r.Done? && old(AllExec(conn.writeBuffer)) && conn.wire.mode != Dead ==> Surplus() == old(Surplus())
      ensures old(Sent()) == [] ==> r.Done?
      ensures old(conn.wire.Calm()) ==> r.Done? && conn.wire.Calm()
      ensures old(Quiet()) ==> r.Done? && Quiet() && Front() == old(Front())
    {
      hide Coupling, AllSurvive, Obeyed, Conforming, Wire.Calm, Wire.Survivable, Readys, Syncs;
      assert expectations + [] == expectations;
      if conn.writeBuffer != [] || halfWritten {
        var _ :- Sync();
      }
      return Done(());
    }

    /** A claim in its turn. */
    method ClaimInTurn(ticket: Ticket, h: Recorder) returns (r: Outcome<()>)
      requires conn.wire.Valid() && conn.Ready() && ticket.seqNo == claimSeq
      modifies this`claimSeq, this`expectations, this`aborted, this`halfWritten, this`owed, this`from, this`front, h,
               conn`transactionStatus, conn`writeBuffer, conn`isBroken, conn`exchangeInProgress, conn`scopePending,
               conn.wire
      ensures conn.wire.WentOn(old(conn.wire.log), old(conn.wire.mode), !old(halfWritten))
      ensures old(h.log) <= h.log
      ensures old(Valid() && !Steals(ticket)) ==> Valid()
      ensures old(Spoiled() && !Steals(ticket)) && conn.Ready() ==> Spoiled()
      ensures r.Done? ==> conn.Ready()
      ensures old(aborted) ==> !r.Done? && (conn.Ready() ==> r == Fail(ABORTED)) && h.log == old(h.log)
      ensures !old(aborted) && old(Sent() == [] || Sent()[0].Sync?) ==> !conn.Ready()
      ensures !old(halfWritten) ==> !halfWritten
      ensures conn.Ready() ==>
                && claimSeq == old(claimSeq) + 1 && conn.writeBuffer == [] && !halfWritten
                && (old(halfWritten) ==> conn.wire.mode == Dead)
                && expectations == DropSyncs(Tail(old(Sent())))
                && aborted == (!r.Done? && !StartsWithSync(Tail(old(Sent()))))
                && conn.scopePending == StillOpen(Tail(old(Sent())), old(conn.scopePending || expectations != Sent()))
      ensures old(AllExec(conn.writeBuffer)) && conn.Ready() && conn.wire.mode != Dead ==>
                Surplus() == old(Surplus()) + if old(Steals(ticket)) then 1 else 0
      ensures old(Valid()) ==>
                Taken(ticket, h, old(h.log), old(Sent()), old(Front()), old(front), old(aborted), r)
      ensures old(aborted && conn.wire.Calm()) && old(|expectations| > 1 && !StartsWithSync(Tail(expectations))) ==>
                && conn.Ready() && conn.wire.Calm()
                && (old(Quiet() && expectations[0].Sync?) ==> ReadyNext(conn.wire.unread))
      ensures old(Quiet() && expectations != [] && expectations[0].Execution? && !Forgotten()) && h.Obliging()
              && (old(ColumnsGiven(ticket)) || KnownAt(ticket, old(Front()))) ==>
                GoesOn(old(Front()))
    {
      hide Sent, Steals, Quiet, Valid, Spoiled, Numbered, Surplus, Wire.Calm, Wire.Survivable, Wire.WentOn, Conforming;
      hide AllExec, Recorder.Obliging, ReadyNext, DropSyncs, Taken, KnownAt, CleanBehind, StillOpen, GoesOn;
      hide Coupled, CoupledWith, Mirrors, Lost, Reply, Next, Flatten, Units, Answered, HeardAs;
      if Valid() {
        NotHalf();
      }
      SentHead();
      StealsIs(ticket);
      NoneQueued();
      ghost var spoiled := Spoiled() && !Steals(ticket);
      r := SendRest();
      if !r.Done? {
        NotTaken(ticket, h, old(Sent()), old(Front()), old(front), old(aborted), r);
        return;
      }
      r := ClaimLogged(ticket, h);
      StaysOpen(Tail(old(Sent())));
      if spoiled && conn.Ready() {
        StillSpoiled();
      }
    }

    /** Claim a ticket with a custom handler. Whenever the connection can go
        on, the handler heard exactly the rows, with their columns, and the end
        that the server sent for the first execution in the queue, and the
        result is what it made of it; an interrupted claim told a prefix. That
        execution is the ticket's own iff the ticket is current and nothing
        shifted the numbers. A claim that steals a Sync loses track of the
        stream for good. Undisturbed, a claim in turn lets the connection go on
        iff no Sync behind its execution is answered with an error. */
    method ClaimWithHandler(ticket: Ticket, h: Recorder) returns (r: Outcome<()>)
      requires conn.wire.Valid()
      modifies this`claimSeq, this`expectations, this`aborted, this`halfWritten, this`owed, this`from, this`front, h,
               conn`transactionStatus, conn`writeBuffer, conn`isBroken, conn`exchangeInProgress, conn`scopePending,
               conn.wire
      ensures conn.wire.WentOn(old(conn.wire.log), old(conn.wire.mode), !old(halfWritten))
      ensures old(h.log) <= h.log
      ensures old(Valid() && !Steals(ticket)) ==> Valid()
      ensures old(Spoiled() && !Steals(ticket)) && conn.Ready() ==> Spoiled()
      ensures old(Numbered()) ==> Numbered()
      ensures old(!conn.Ready()) ==>
                r == Fail(ConnectionBroken) && unchanged(this, conn, conn.wire, h)
      ensures old(conn.Ready()) && ticket.seqNo != old(claimSeq) ==>
                r == Fail(InvalidUsage) && unchanged(this, conn, conn.wire, h)
      ensures r.Done? ==> conn.Ready()
      ensures old(conn.Ready() && ticket.seqNo == claimSeq && aborted) ==>
                && !r.Done? && h.log == old(h.log)
                && (conn.Ready() ==> r == Fail(LibraryBug("pipeline aborted due to earlier error")))
      ensures old(conn.Ready() && ticket.seqNo == claimSeq && !aborted && (Sent() == [] || Sent()[0].Sync?)) ==>
                !conn.Ready()
      ensures old(conn.Ready() && ticket.seqNo == claimSeq) && conn.Ready() ==>
                && claimSeq == old(claimSeq) + 1 && conn.writeBuffer == [] && !halfWritten
                && (old(halfWritten) ==> conn.wire.mode == Dead)
                && expectations == DropSyncs(Tail(old(Sent())))
                && aborted == (!r.Done? && !StartsWithSync(Tail(old(Sent()))))
                && conn.scopePending == StillOpen(Tail(old(Sent())), old(conn.scopePending || expectations != Sent()))
      ensures old(conn.Ready() && AllExec(conn.writeBuffer)) && conn.Ready() && conn.wire.mode != Dead ==>
                && AllExec(conn.writeBuffer)
                && Surplus() == old(Surplus()) + if old(Steals(ticket)) then 1 else 0
      ensures old(Valid() && conn.Ready() && ticket.seqNo == claimSeq) ==>
                Taken(ticket, h, old(h.log), old(Sent()), old(Front()), old(front), old(aborted), r)
      ensures old(Valid() && conn.Ready() && ticket.seqNo == claimSeq && !aborted) && conn.Ready() ==>
                && 0 <= old(Front()) < |conn.wire.log|
                && var s := conn.wire.log[old(Front())];
                && s.unit.Exec? && s.unit.tag == old(front) && Reply(Start(s.unit), s.trace)
                && HeardAs(s.unit.kind, ticket.columns, s.trace, h.log[|old(h.log)|..])
                && (r.Done? <==> !s.trace[|s.trace| - 1].ErrorResponse?)
                && (!r.Done? ==> r == Fail(ServerFailure(s.trace[|s.trace| - 1].error)))
      ensures old(Valid() && conn.Ready() && ticket.Genuine() && ticket.seqNo == claimSeq) ==>
                (ticket.conn == conn && ticket.tag == old(front)
                 <==> old(Current(ticket) && PendingCount() == Executions(expectations)))
      ensures !old(halfWritten) ==> !halfWritten
      ensures old(conn.isBroken) ==> conn.isBroken
      ensures old(conn.exchangeInProgress) ==> conn.exchangeInProgress
      ensures old(conn.Ready() && ticket.seqNo == claimSeq && aborted && conn.wire.Calm())
              && old(|expectations| > 1 && !StartsWithSync(Tail(expectations))) ==>
                && conn.Ready() && conn.wire.Calm()
                && (old(Quiet() && expectations[0].Sync?) ==> ReadyNext(conn.wire.unread))
      ensures old(Quiet() && conn.Ready() && ticket.seqNo == claimSeq && !Forgotten())
              && old(expectations != [] && expectations[0].Execution?) && h.Obliging()
              && (old(ColumnsGiven(ticket)) || KnownAt(ticket, old(Front()))) ==>
                GoesOn(old(Front()))
    {
      hide Quiet, Coupled, CoupledWith, Mirrors, Forgotten, Spoiled, HeardBy, Wire.Calm, Wire.Survivable, Obeyed;
      hide AllSurvive, ColumnsKnown, ColumnsGiven, Recorder.Obliging, ReadyNext, DropSyncs, Lost, Conforming, Sent;
      hide Taken, KnownAt, CleanBehind, Executions, Readys, Syncs;
      if Valid() && conn.Ready() && ticket.Genuine() && ticket.seqNo == claimSeq {
        OwnIff(ticket);
      }
      var _ :- conn.EnsureExchangeReady();
      if ticket.seqNo != claimSeq {
        return Fail(InvalidUsage);
      }
      r := ClaimInTurn(ticket, h);
      if old(Valid()) && !old(aborted) && conn.Ready() {
        TakenTells(ticket, h, old(h.log), old(Sent()), old(Front()), old(front), r);
      }
    }

    /** What a claim of an execution that was not skipped told, said of the
        server's reply. */
    lemma TakenTells(ticket: Ticket, h: Recorder, before: seq<Callback>, queue: seq<Expectation>, k: int, tag: nat,
                     r: Outcome<()>)
      requires Taken(ticket, h, before, queue, k, tag, false, r) && conn.Ready() && before <= h.log
      ensures 0 <= k < |conn.wire.log|
      ensures var s := conn.wire.log[k];
              && s.unit.Exec? && s.unit.tag == tag && Reply(Start(s.unit), s.trace)
              && HeardAs(s.unit.kind, ticket.columns, s.trace, h.log[|before|..])
              && (r.Done? <==> !s.trace[|s.trace| - 1].ErrorResponse?)
              && (!r.Done? ==> r == Fail(ServerFailure(s.trace[|s.trace| - 1].error)))
    {
      hide Reply, HeardAs, Hears, ColumnsKnown, CleanFrom, Lost;
      var s := conn.wire.log[k];
      assert h.log[|before|..] == HeardBy(ticket, s);
    }

    lemma ConsumedClean(before: seq<Served>, k: int)
      requires 0 <= k <= |conn.wire.log| && conn.wire.log[k..] == before && before != []
      requires Consumed(before[1..]) && before[0].unit.Exec?
      ensures k < Front() && CleanFrom(conn.wire.log, k, Front())
    {
      hide HasError;
      forall i | k <= i < Front() ensures Clean(conn.wire.log[i]) {
        assert conn.wire.log[i] == before[i - k];
        if i > k {
          assert before[i - k] == before[1..][..|before| - 1 - |owed|][i - k - 1];
        }
      }
    }

    lemma FrontLogged()
      requires Coupled()
      ensures 0 <= Front() <= |conn.wire.log| && conn.wire.log[Front()..] == owed
      ensures owed != [] ==> Front() < |conn.wire.log| && owed[0] == conn.wire.log[Front()]
      ensures owed != [] ==> owed[0].mode == from && owed[1..] == conn.wire.log[Front() + 1..]
      ensures owed == [] ==> from == conn.wire.mode && Front() == |conn.wire.log|
    {
    }

    /** Drain the reply of one execution, discarding its rows. */
    method DrainExecution(ghost ph: Phase, ghost t: seq<BackMsg>, ghost rest: seq<BackMsg>)
      returns (r: Outcome<()>)
      requires conn.wire.unread == t + rest && !aborted && !conn.isBroken && PipelinePhase(ph)
      modifies this`aborted, conn`isBroken, conn.wire`awaits, conn.wire`unread, conn.wire`torn
      ensures r.Done? || aborted ==>
                && Ended(r) && conn.wire.torn == old(conn.wire.torn)
                && Readys(conn.wire.unread) == Readys(old(conn.wire.unread))
                && (Reply(ph, t) ==> conn.wire.unread == rest && Answered(t, r))
      ensures !Reply(ph, t) && Stalled(t + rest) ==> !r.Done? && !aborted
      ensures old(conn.wire.Calm()) ==> conn.wire.Calm() && (Reply(ph, t) && Survives(t) ==> r.Done? || aborted)
    {
      hide Reply, Next, Advanced, Stalled, Hears, Readys, PipelinePhase, Survives, Wire.Calm;
      ghost var stalled := !Reply(ph, t) && Stalled(t + rest);
      ghost var ph', u, v := ph, t, rest;
      while true
        invariant PipelinePhase(ph') && conn.wire.unread == u + v
        invariant Reply(ph, t) ==>
                    v == rest && Reply(ph', u) && u[|u| - 1] == t[|t| - 1] && (Survives(t) ==> Survives(u))
        invariant stalled ==> !Reply(ph', u) && Stalled(u + v)
        invariant !aborted && !conn.isBroken && conn.wire.torn == old(conn.wire.torn)
        invariant Readys(conn.wire.unread) == Readys(old(conn.wire.unread))
        invariant old(conn.wire.Calm()) ==> conn.wire.Calm()
        decreases |conn.wire.unread|
      {
        PipelineExecuting(ph');
        var m, u' := ReadNextMessage(ph', [], u, v);
        var m' :- m;
        if Reply(ph, t) {
          AdvanceExec(ph', [], u, m', u');
          if !m'.CommandComplete? && !m'.EmptyQueryResponse? {
            u, ph' := u', Next(ph', m').next;
          }
        } else if !stalled {
          u, v := [], conn.wire.unread;
        }
        match m' {
          case CommandComplete(_) => return Done(());
          case EmptyQueryResponse => return Done(());
          case ParseComplete | BindComplete | RowDescription(_) | NoData | DataRow(_) =>
          case _ => return Fail(LibraryBug("expected pipeline execution response"));
        }
      }
    }

    /** Drain the reply of the execution at the front of the queue. */
    method DrainFrontExecution() returns (r: Outcome<()>)
      requires !conn.isBroken && !aborted && expectations != [] && expectations[0].Execution?
      modifies this`expectations, this`aborted, this`owed, this`from, this`front,
               conn`isBroken, conn.wire`awaits, conn.wire`unread, conn.wire`torn
      ensures r.Done? || aborted ==>
                Ended(r) && expectations == old(expectations)[1..] && Surplus() == old(Surplus())
      ensures old(AllSent()) ==> old(owed) != [] && old(owed)[0].unit.Exec?
      ensures old(AllSent()) && (r.Done? || aborted) ==>
                Coupled() && !Forgotten() && owed == old(owed)[1..]
      ensures old(AllSent() && Forgotten()) ==> !r.Done? && !aborted
      ensures old(conn.wire.Calm()) ==>
                conn.wire.Calm() && (old(AllSent() && AllSurvive(owed) && !Forgotten()) ==> r.Done? || aborted)
    {
      hide Coupling, Reply, Flatten, Chain, Wire.Calm, Stalled, Readys, Survives, Syncs;
      ghost var ok := AllSent();
      ghost var t, rest := [], conn.wire.unread;
      if ok {
        FrontExec();
        t, rest := owed[0].trace, Flatten(owed[1..]);
      }
      SyncsTail(expectations);
      AnsweredMode(t);
      ghost var kind := expectations[0].kind;
      expectations := expectations[1..];
      r := DrainExecution(Start(Server.Exec(kind, 0)), t, rest);
      if ok && (r.Done? || aborted) {
        owed, from, front := owed[1..], NextMode(from, t), front + 1;
      }
    }

    /** Whether a cleanup that nothing interrupts ends with a usable
        connection: the last thing the queue waits for will be a Sync. */
    predicate EndsAtSync()
      reads this, conn
    {
      conn.writeBuffer != [] || EndsBehindSync(expectations)
    }

    /** Pop and skip an execution the server skipped. */
    ghost method SkipFront()
      requires AllSent() && aborted && expectations != [] && expectations[0].Execution?
      modifies this`owed, this`front
      ensures old(owed) != [] && owed == old(owed)[1..] && front == old(front) + 1 && old(owed)[0].unit.Exec?
      ensures !conn.wire.torn && conn.scopePending
      ensures Coupling(expectations[1..], owed, conn.writeBuffer, front, |conn.tickets|, from,
                       conn.wire.mode, conn.wire.unread, conn.wire.log, conn.transactionStatus)
    {
      hide Coupling, Reply, Flatten, Chain, Stalled;
      FrontExec();
      assert [] + Flatten(owed[1..]) == Flatten(owed[1..]);
      owed, front := owed[1..], front + 1;
    }

    lemma EmptyQueue()
      requires Coupled() && expectations == []
      ensures owed == [] && conn.writeBuffer == [] && front == |conn.tickets| && from == conn.wire.mode
    {
      HeadSent([], owed, conn.writeBuffer, front, |conn.tickets|);
    }

    lemma OwesScope()
      requires AllSent() && expectations != []
      ensures conn.scopePending && owed != [] && expectations[0] == Expected(owed[0].unit)
    {
      HeadSent(expectations, owed, conn.writeBuffer, front, |conn.tickets|);
      HeadPopped(expectations, owed, conn.writeBuffer, front, |conn.tickets|);
    }

    /** A cleanup would wait for the reply of an execution the server is
        silently skipping. */
    ghost predicate Mistaken()
      reads this
    {
      Forgotten() && expectations != [] && expectations[0].Execution?
    }

    lemma OneOff(owed: seq<Served>)
      requires owed != []
      ensures SyncsClean(owed) <==> Clean(owed[0]) && SyncsClean(owed[1..])
      ensures owed[0].unit.Exec? ==> Clean(owed[0])
      ensures AllSurvive(owed) ==> AllSurvive(owed[1..])
    {
      CleanHead(owed);
    }

    /** Drain every queued expectation, the loop of `Cleanup`. Undisturbed, it
        comes to its end iff no Sync is answered with an error, and it does not
        wait for the reply of an execution the server is silently skipping. */
    method DrainAll() returns (drained: bool)
      requires conn.writeBuffer == [] && expectations != []
      requires conn.exchangeInProgress && !conn.isBroken
      modifies this`expectations, this`aborted, this`owed, this`from, this`front,
               conn`isBroken, conn`transactionStatus, conn`scopePending,
               conn.wire`awaits, conn.wire`unread, conn.wire`torn
      ensures drained ==>
                && expectations == [] && !conn.isBroken && Surplus() == old(Surplus())
                && (old(Coupled()) ==> Coupled())
                && (old(expectations[|expectations| - 1].Sync?) ==> !conn.scopePending)
                && (old(Coupled() && expectations[|expectations| - 1].Execution?) ==> conn.scopePending)
      ensures old(Coupled() && conn.wire.Calm() && AllSurvive(owed)) ==>
                conn.wire.Calm() && (drained <==> old(!Mistaken() && SyncsClean(owed)))
      ensures old(conn.wire.Calm() && aborted && SkipsToSync(expectations) && ReadyNext(conn.wire.unread)) ==> drained
    {
      hide Coupling, Chain, Wire.Calm, Flatten, Readys, Syncs, ReadyNext, AllSurvive, SyncsClean, Clean;
      ghost var ok, last := Coupled(), expectations[|expectations| - 1];
      if ok {
        OwesScope();
      }
      ghost var stuck, calm := ok && Mistaken(), ok && conn.wire.Calm() && AllSurvive(owed);
      ghost var ready := conn.wire.Calm() && aborted && SkipsToSync(expectations) && ReadyNext(conn.wire.unread);
      while expectations != []
        invariant conn.exchangeInProgress && !conn.isBroken && Surplus() == old(Surplus())
        invariant ok ==> Coupled()
        invariant ok && Forgotten() ==> expectations == old(expectations) && old(Forgotten())
        invariant stuck ==> Forgotten() && expectations == old(expectations)
        invariant calm ==> conn.wire.Calm() && AllSurvive(owed) && (SyncsClean(owed) <==> old(SyncsClean(owed)))
        invariant ready && expectations != [] ==>
                    conn.wire.Calm() && aborted && SkipsToSync(expectations) && ReadyNext(conn.wire.unread)
        invariant expectations != [] ==> expectations[|expectations| - 1] == last
        invariant ok ==> (conn.scopePending <==> expectations != [] || last.Execution?)
        invariant expectations == [] && last.Sync? ==> !conn.scopePending
        decreases |expectations|
      {
        if ok {
          OwesScope();
          OneOff(owed);
        }
        if expectations[0].Sync? {
          var r := TakeFrontSync();
          if !r.Done? {
            return false;
          }
        } else if aborted {
          if ok {
            SkipFront();
          }
          SyncsTail(expectations);
          expectations := expectations[1..];
        } else {
          var r := DrainFrontExecution();
          if r.Dropped? || (r.Fail? && !aborted) {
            return false;
          }
        }
      }
      if ok {
        EmptyQueue();
        NoneOwed();
      }
      return true;
    }

    lemma NoneOwed()
      ensures SyncsClean([])
    {
    }

    /** Start counting tickets again: those handed out so far name nothing any
        more. The aborted state is forgotten even if the server is still
        skipping; then the scope is still pending. */
    method Restart()
      requires expectations == []
      modifies this`base, this`front, this`queueSeq, this`claimSeq, this`aborted, this`unfinished
      ensures !aborted && queueSeq == claimSeq == 0 && unfinished == conn.scopePending
      ensures base == front == |conn.tickets| && Numbered() && Aligned()
      ensures forall ticket: Ticket | ticket.Genuine() :: !Current(ticket)
      ensures old(Coupled()) ==>
                && Coupled() && (Forgotten() <==> conn.wire.mode == Skipping)
                && (Forgotten() ==> conn.scopePending)
    {
      hide Coupling;
      if Coupled() {
        EmptyQueue();
      }
      base, front := |conn.tickets|, |conn.tickets|;
      queueSeq := 0;
      claimSeq := 0;
      unfinished := conn.scopePending;
      aborted := false;
    }

    /** Everything was sent; drain it and start again. */
    method DrainScope()
      requires conn.Ready() && conn.writeBuffer == [] && expectations != []
      modifies this, conn`transactionStatus, conn`isBroken, conn`exchangeInProgress, conn`scopePending,
               conn.wire`awaits, conn.wire`unread, conn.wire`torn
      ensures unfinished == conn.IsBroken() && halfWritten == old(halfWritten)
      ensures conn.Ready() ==>
                && expectations == [] && !aborted && Surplus() == old(Surplus())
                && queueSeq == claimSeq == 0 && base == front == |conn.tickets|
      ensures old(Numbered()) ==> Numbered()
      ensures conn.Ready() && old(expectations[|expectations| - 1].Sync?) ==> !conn.IsBroken()
      ensures conn.Ready() && old(Coupled()) ==>
                && Coupled() && (Forgotten() <==> conn.wire.mode == Skipping)
                && (conn.IsBroken() <==> old(expectations[|expectations| - 1].Execution?))
      ensures old(Coupled() && conn.wire.Calm() && AllSurvive(owed)) ==>
                conn.wire.Calm() && (conn.Ready() <==> old(!Mistaken() && SyncsClean(owed)))
      ensures old(conn.wire.Calm() && aborted && SkipsToSync(expectations) && ReadyNext(conn.wire.unread)) ==>
              conn.Ready()
    {
      hide Coupling, Wire.Calm, Flatten, Readys, Syncs, ReadyNext, SkipsToSync, AllSurvive, SyncsClean;
      var _ := conn.BeginExchange();  // succeeds: just checked
      var drained := DrainAll();
      if !drained {
        unfinished := true;
        return;
      }
      Restart();
      conn.FinishExchange();
    }

    /** Send what is unsent, and a Sync if none is queued. */
    method CloseQueue() returns (r: Outcome<()>)
      requires conn.wire.Valid() && conn.Ready() && (expectations != [] || conn.scopePending)
      modifies this`expectations, this`owed, this`halfWritten,
               conn`writeBuffer, conn`isBroken, conn`exchangeInProgress, conn`scopePending, conn.wire
      ensures conn.wire.WentOn(old(conn.wire.log), old(conn.wire.mode), !old(halfWritten))
      ensures old(Valid()) ==> Valid()
      ensures old(Numbered()) ==> Numbered()
      ensures r.Done? <==> conn.Ready()
      ensures r.Done? ==>
                && conn.writeBuffer == [] && !halfWritten && expectations != []
                && (expectations[|expectations| - 1].Sync? <==> old(EndsAtSync() || halfWritten))
                && (Mistaken() <==> old(Mistaken()))
      ensures old(conn.writeBuffer == [] && !halfWritten && PipelineQueue.Sync in expectations) ==>
                r.Done? && unchanged(this, conn, conn.wire)
      ensures r.Done? && old(Valid()) ==> Front() == old(Front())
      ensures r.Done? && old(AllExec(conn.writeBuffer)) && conn.wire.mode != Dead ==> Surplus() == old(Surplus())
      ensures r.Done? && old(Spoiled()) ==> Surplus() < 0
      ensures old(conn.wire.Calm()) ==> r.Done? && conn.wire.Calm()
      ensures old(Quiet()) ==> r.Done? && Quiet() && Front() == old(Front())
    {
      hide Coupling, AllSurvive, Obeyed, Conforming, Wire.Calm, Wire.Survivable, Readys, Syncs, AllExec;
      r := Done(());
      if conn.writeBuffer != [] || halfWritten || PipelineQueue.Sync !in expectations {
        r := Sync();
      }
    }

    /** A connection in step, and nothing queued: whatever was counted, that
        fits. */
    ghost method Settle()
      requires expectations == [] && conn.writeBuffer == []
      modifies this`owed, this`from, this`front
      ensures old(conn.InStep() && !aborted) ==> Coupled() && front == |conn.tickets| && from == Normal
      ensures old(Coupled()) ==> owed == old(owed) && from == old(from) && front == old(front)
    {
      hide Coupling;
      if Coupled() {
        EmptyQueue();
      } else {
        if conn.InStep() {
          NothingQueued();
        }
        owed, from, front := [], Normal, |conn.tickets|;
      }
    }

    /** Nothing was sent that is not read: what is in the buffer is forgotten. */
    method ClearIdle()
      requires conn.wire.Valid() && conn.Ready() && expectations == [] && !conn.scopePending
      modifies this`halfWritten, this`unfinished, this`owed, this`from, this`front, conn`writeBuffer
      ensures conn.writeBuffer == [] && !halfWritten && !unfinished
      ensures old(Valid() || Spoiled()) ==> Valid()
      ensures old(Numbered()) ==> Numbered()
      ensures old(conn.Valid()) ==> conn.Valid()
      ensures old(Valid()) ==>
                && front == old(front) && !aborted && from == conn.wire.mode == Normal
                && old(Front()) == |conn.wire.log| && !old(Mistaken())
    {
      hide Coupling, Conforming;
      if Coupled() {
        EmptyQueue();
      }
      if Valid() {
        Abandoned();
      }
      conn.writeBuffer, halfWritten := [], false;
      unfinished := false;
      Settle();
    }

    /** Drain a scope that is still open. */
    method CleanupScope()
      requires conn.wire.Valid() && conn.Ready() && (expectations != [] || conn.scopePending)
      modifies this, conn`transactionStatus,
               conn`writeBuffer, conn`isBroken, conn`exchangeInProgress, conn`scopePending, conn.wire
      ensures conn.wire.WentOn(old(conn.wire.log), old(conn.wire.mode), !old(halfWritten))
      ensures old(conn.writeBuffer == [] && !halfWritten && PipelineQueue.Sync in expectations) ==>
                conn.wire.log == old(conn.wire.log) && conn.wire.mode == old(conn.wire.mode)
      ensures old(Valid() || Spoiled()) ==> Valid()
      ensures old(Numbered()) ==> Numbered()
      ensures unfinished == conn.IsBroken()
      ensures conn.Ready() ==>
                && expectations == [] && conn.writeBuffer == [] && !halfWritten
                && queueSeq == claimSeq == 0 && base == front == |conn.tickets| && !aborted
      ensures old(Valid()) && conn.Ready() ==>
                (Forgotten() <==> conn.wire.mode == Skipping) && (conn.IsBroken() <==> !old(EndsAtSync()))
      ensures old(Quiet()) ==>
                && conn.wire.Calm() && old(Front()) >= 0
                && (conn.Ready() <==> old(!Mistaken()) && CleanFrom(conn.wire.log, old(Front()), |conn.wire.log|))
      ensures old(Valid()) && old(!unfinished) ==> old(!Mistaken())
      ensures old(AllExec(conn.writeBuffer)) && conn.Ready() && conn.wire.mode != Dead ==>
                && Surplus() == old(Surplus()) && (old(EndsAtSync()) ==> !conn.IsBroken())
      ensures old(Spoiled()) ==> !conn.Ready()
      ensures old(conn.wire.Calm() && conn.writeBuffer == [] && !halfWritten)
              && old(aborted && SkipsToSync(expectations) && ReadyNext(conn.wire.unread)) ==>
                !conn.IsBroken()
    {
      hide Coupling, Conforming, Wire.Calm, Wire.Survivable, Obeyed, AllExec, AllSurvive, CleanFrom, Readys, Syncs;
      hide ReadyNext, SyncsClean, EndsAtSync, Expectations, Units, Tagged;
      var closed := CloseQueue();
      if !closed.Done? {
        unfinished := true;
        return;
      }
      NoneQueued();
      if Coupled() {
        FrontLogged();
        SuffixClean(conn.wire.log, Front());
      }
      DrainScope();
    }

    /** Drain everything that is still expected. From a state that fits the
        stream, a cleanup that nothing disturbs leaves the connection usable iff
        the last thing it waits for is a Sync and no Sync is answered with an
        error, on every handle whose last cleanup left it usable. Tickets are
        counted from zero again, unless there was nothing to do. From any state
        at all, what was out of balance stays out of balance. */
    method Cleanup()
      requires conn.wire.Valid()
      modifies this, conn`transactionStatus,
               conn`writeBuffer, conn`isBroken, conn`exchangeInProgress, conn`scopePending, conn.wire
      ensures conn.wire.WentOn(old(conn.wire.log), old(conn.wire.mode), !old(halfWritten))
      ensures old(!conn.Ready()) ==> unchanged(this, conn, conn.wire)
      ensures old(conn.writeBuffer == [] && !halfWritten && PipelineQueue.Sync in expectations) ==>
                conn.wire.log == old(conn.wire.log) && conn.wire.mode == old(conn.wire.mode)
      ensures old(Valid() || Spoiled()) ==> Valid()
      ensures old(Numbered()) ==> Numbered()
      ensures old(conn.Ready()) ==> unfinished == conn.IsBroken()
      ensures old(conn.Ready()) && conn.Ready() ==> expectations == [] && conn.writeBuffer == [] && !halfWritten
      ensures old(conn.Ready() && (expectations != [] || conn.scopePending)) && conn.Ready() ==>
                queueSeq == claimSeq == 0 && base == front == |conn.tickets| && !aborted
      ensures old(conn.Ready() && expectations == [] && !conn.scopePending) ==>
                && unchanged(conn.wire) && queueSeq == old(queueSeq) && claimSeq == old(claimSeq) && base == old(base)
                && !conn.IsBroken() && (old(conn.Valid()) ==> conn.Valid()) && (old(Valid()) ==> front == old(front))
      ensures old(Valid() && conn.Ready()) && conn.Ready() ==>
                && !aborted && (Forgotten() <==> conn.wire.mode == Skipping)
                && (conn.IsBroken() <==> !old(EndsAtSync()))
      ensures old(Quiet() && conn.Ready()) ==>
                && conn.wire.Calm() && old(Front()) >= 0
                && (conn.Ready() <==> old(!Mistaken()) && CleanFrom(conn.wire.log, old(Front()), |conn.wire.log|))
                && (!conn.IsBroken() <==> conn.Ready() && old(EndsAtSync()))
                && (old(!unfinished) ==> old(!Mistaken()))
      ensures old(conn.Ready() && AllExec(conn.writeBuffer)) && conn.Ready() && conn.wire.mode != Dead ==>
                && Surplus() == old(Surplus()) && (old(EndsAtSync()) ==> !conn.IsBroken())
      ensures old(Spoiled() && (expectations != [] || conn.scopePending)) ==> !conn.Ready()
      ensures old(conn.Ready() && conn.wire.Calm() && conn.writeBuffer == [] && !halfWritten)
              && old(aborted && SkipsToSync(expectations) && ReadyNext(conn.wire.unread)) ==>
                !conn.IsBroken()
    {
      hide Coupled, Conforming, Wire.Calm, Wire.Survivable, Obeyed, Spoiled, AllExec, AllSurvive, CleanFrom, Readys;
      hide Syncs, ReadyNext, SkipsToSync, Numbered;
      if conn.EnsureExchangeReady().Fail? {
        if Valid() || Spoiled() {
          Basics();
          Stopped();
        }
        return;
      }
      if expectations == [] && !conn.scopePending {
        NoneQueued();
        ClearIdle();
      } else {
        CleanupScope();
      }
    }
  }
}
