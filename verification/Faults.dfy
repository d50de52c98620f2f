// Where faults enter a model.  Every effect asks for a fault first; in a calm run there
// are none.
module Faults {
  import opened Basics

  // A fault of an effect that is atomic: it strikes before or after the effect happened.
  datatype Fault = NoFault | Before(exn: Exn) | After(exn: Exn) | DiesBefore | DiesAfter

  method Next(calm: bool) returns (f: Fault)
    ensures calm ==> f.NoFault?
  {
    if calm {
      return NoFault;
    }
    f := *;
  }

  // A fault outside of storage.
  method Trouble(calm: bool) returns (o: Outcome<()>)
    ensures calm ==> o.Done?
    ensures o.Raised? ==> !IsStorageError(o.exn)
  {
    o := Interrupt(calm);
    if o.Raised? && IsStorageError(o.exn) {
      o := Raised(Infrastructure);
    }
  }

  // A step without durable effect: it returns, raises, or the process dies in it.
  method Interrupt(calm: bool) returns (o: Outcome<()>)
    ensures calm ==> o.Done?
  {
    var f := Next(calm);
    match f
    case NoFault => o := Done(());
    case Before(e) => o := Raised(e);
    case After(e) => o := Raised(e);
    case DiesBefore => o := Killed;
    case DiesAfter => o := Killed;
  }
}
