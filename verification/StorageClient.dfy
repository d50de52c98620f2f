// The runner's side of the storage protocol: one resend when the transport fails.
module StorageClient {
  import opened Basics
  import opened Faults
  import opened Storage
  import opened StorageHistory

  datatype Delivery = Answered | RequestLost | ReplyLost | ServerError

  class Client {
    const service: Repository

    constructor (service: Repository)
      ensures this.service == service
    {
      this.service := service;
    }

    method Get(task: string, calm: bool) returns (o: Outcome<Option<Row>>)
      ensures o.Done? ==> o.value == if task in service.rows then Some(service.rows[task]) else None
      ensures calm ==> o.Done?
    {
      var _ :- Interrupt(calm);
      return Done(if task in service.rows then Some(service.rows[task]) else None);
    }

    // However often the request arrives, the database is as if it arrived once or never;
    // a returned row and a reported conflict are the verdict of that one arrival.
    method Call(r: Request, calm: bool) returns (o: Outcome<Row>, ghost now: int, ghost sent: nat)
      requires Sound(service.rows)
      modifies service
      ensures Sound(service.rows)
      ensures service.rows == old(service.rows) || service.rows == Step(old(service.rows), r, now).0
      ensures o.Done? ==> Step(old(service.rows), r, now) == (service.rows, Accepted(o.value))
      ensures o == Raised(StorageConflict) ==>
                Step(old(service.rows), r, now).1 == Conflict && service.rows == old(service.rows)
      ensures calm && Step(old(service.rows), r, now).1.Accepted? ==> o.Done?
      ensures sent <= 2 && (calm ==> sent == 1)
      ensures calm ==> !o.Killed?
      ensures o.Raised? ==> o.exn == StorageConflict || o.exn == StorageError || o.exn == Cancelled
      ensures calm && Step(old(service.rows), r, now).1 == Conflict ==> o == Raised(StorageConflict)
    {
      hide *;
      now, sent := 0, 0;
      var clock: int := *;
      var index := 0;
      ghost var served := false;
      StepAdvances(service.rows, r, now);
      while index < 2
        invariant Sound(service.rows)
        invariant service.rows == if served then Step(old(service.rows), r, now).0 else old(service.rows)
        invariant sent == index && (calm ==> index == 0)
      {
        var d: Delivery := Answered;
        sent := sent + 1;
        if !calm {
          var interrupted := Interrupt(calm);
          if interrupted == Raised(Cancelled) || interrupted.Killed? {
            return if interrupted.Killed? then Killed else Raised(Cancelled), now, sent;
          }
          d := *;
        }
        if d.RequestLost? {
          index := index + 1;
        } else if d.ServerError? {
          return Raised(StorageError), now, sent;
        } else {
          if served {
            RetryAgrees(old(service.rows), r, now, clock);
          } else {
            now := clock;
          }
          RefusedChangesNothing(old(service.rows), r, now);
          StepAdvances(service.rows, r, clock);
          var reply := service.Serve(r, clock);
          served := true;
          if d.ReplyLost? {
            index := index + 1;
          } else {
            match reply
            case Accepted(row) => return Done(row), now, sent;
            case Conflict => return Raised(StorageConflict), now, sent;
            case Missing => return Raised(StorageError), now, sent;
          }
        }
        clock := *;
      }
      return Raised(StorageError), now, sent;
    }
  }
}
