/** A closure inside a transaction: BEGIN, whatever the closure does, and
    COMMIT or ROLLBACK if the transaction is still open. */
module Transactions {
  import opened Protocol
  import opened Server
  import opened Exchange
  import opened Machines
  import opened Connection
  import opened PipelineScopes
  import opened Sessions

  predicate Open(status: TransactionStatus) {
    status != Idle
  }

  function Closing(result: Outcome<()>): string {
    if result.Done? then "COMMIT" else "ROLLBACK"
  }

  /** Send a statement and discard its results. */
  method QueryDrop(session: Session, sql: string) returns (r: Outcome<()>, ghost served: seq<Served>)
    requires session.Valid() && session.pipeline == null
    modifies session.conn, session.conn.wire
    ensures session.Valid() && session.conn.wire.log == old(session.conn.wire.log) + served
    ensures old(session.conn.IsBroken()) ==> r == Fail(ConnectionBroken) && unchanged(session.conn, session.conn.wire)
    ensures r.Done? ==> !session.conn.IsBroken()
    ensures !session.conn.IsBroken() ==>
              && Units(served) == [Unit.SimpleQuery(sql)] && r == ErrorIn(Flatten(served), Done(()))
              && (r.Done? <==> !HasError(Flatten(served))) && !r.Dropped?
  {
    hide Conn.InStep, Conforming, Calls, SimpleQueries.Results, ErrorIn, Flatten, Units, HasError, ToldIn, Match;
    ghost var log := session.conn.wire.log;
    var h := new Recorder(_ => Done(()));
    r, served := session.conn.Query(sql, h);
    MatchGrows(session.claims, log, session.conn.wire.log, 0);
    NeverDropped(Flatten(served), Done(()));
  }

  /** A transaction around any calls and any result of the closure. If the
      connection is usable afterwards and the closure ran, then BEGIN came
      first and succeeded; the transaction was ended iff the server, by the last
      status it reported, still had it open, and then with COMMIT iff the
      closure succeeded; and only an error to COMMIT replaces the closure's
      result. */
  method Transaction(session: Session, body: seq<Call>, result: Outcome<()>)
    returns (r: Outcome<()>, ghost began: seq<Served>, ghost middle: seq<Served>, ghost ended: seq<Served>)
    requires session.Valid() && session.pipeline == null
    modifies session, session.conn, session.conn.wire
    ensures session.Valid()
    ensures old(Open(session.conn.transactionStatus)) ==>
              r == Fail(InvalidUsage) && unchanged(session, session.conn, session.conn.wire)
    ensures old(!session.conn.IsBroken()) ==>
              (old(Open(session.conn.transactionStatus)) <==>
               old(LastByte(session.conn.wire.log)) == Some('T') || old(LastByte(session.conn.wire.log)) == Some('E'))
    ensures old(!Open(session.conn.transactionStatus) && session.conn.IsBroken()) ==>
              r == Fail(ConnectionBroken) && unchanged(session.conn, session.conn.wire)
    ensures old(!Open(session.conn.transactionStatus)) && !session.conn.IsBroken() ==>
              && Units(began) == [Unit.SimpleQuery("BEGIN")]
              && if HasError(Flatten(began)) then
                   r == ErrorIn(Flatten(began), Done(())) && session.conn.wire.log == old(session.conn.wire.log) + began
                 else
                   && old(session.conn.wire.log) + began <= middle
                   && (result.Dropped? ==> r == Dropped && session.conn.wire.log == middle)
                   && (!result.Dropped? ==>
                         && session.conn.wire.log == middle + ended
                         && Units(ended) ==
                            (if LastByte(middle) == Some('T') || LastByte(middle) == Some('E')
                             then [Unit.SimpleQuery(if result.Done? then "COMMIT" else "ROLLBACK")] else [])
                         && r == if result.Done? then ErrorIn(Flatten(ended), Done(())) else result)
  {
    hide Conforming, Conn.InStep, Flatten, Units, HasError, LastStatus, LastByte;
    if !session.conn.IsBroken() {
      StatusKnown(session);
    }
    began, middle, ended := [], session.conn.wire.log, [];
    if Open(session.conn.transactionStatus) {
      return Fail(InvalidUsage), began, middle, ended;
    }
    r, began := QueryDrop(session, "BEGIN");
    if !r.Done? {
      return;
    }
    var _ := session.Run(body);
    if session.pipeline != null {
      var _ := session.Step(DropPipeline);  // a pipeline ends with the closure
    }
    middle := session.conn.wire.log;
    if result.Dropped? {
      return Dropped, began, middle, ended;
    }
    NothingServed(middle, result);
    r := result;
    ghost var usable := !session.conn.IsBroken();
    ghost var status := session.conn.transactionStatus;
    if usable {
      StatusKnown(session);
    }
    if Open(session.conn.transactionStatus) {
      var ending;
      ending, ended := QueryDrop(session, Closing(result));
      if ending.Dropped? {
        r := Dropped;
      } else if result.Done? {
        r := ending;
      }
    }
  }

  lemma StatusKnown(session: Session)
    requires session.Valid() && session.pipeline == null && !session.conn.IsBroken()
    ensures Reported(LastByte(session.conn.wire.log), session.conn.transactionStatus)
  {
    hide LastStatus, LastByte;
    StatusByByte(session.conn.wire.log);
  }

  lemma NothingServed(log: seq<Served>, result: Outcome<()>)
    ensures log + [] == log && Units([]) == [] && ErrorIn(Flatten([]), Done(())) == Done(())
    ensures result.Done? ==> result == Done(())
  {
    assert result.Done? ==> result.value == ();
  }
}
