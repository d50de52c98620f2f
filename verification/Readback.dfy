// Reading a durable conversation back while the server limits the rate of requests.
// Time is a real number that passes while the program waits and between any two statements.
module Readback {
  import opened Basics

  const FALLBACK := 10.0

  // Retry-After is given in seconds (section 10.2.3 of RFC 9110), or not at all.
  datatype Reply = Snapshot(id: int) | Limited(retryAfter: Option<real>) | Failed

  function Max(a: real, b: real): real {
    if a < b then b else a
  }

  function Min(a: real, b: real): real {
    if a < b then a else b
  }

  // The server's delay is never shortened; only the fallback has a ceiling.
  function RetryDelay(retryAfter: Option<real>, fallback: real): (delay: real)
    ensures delay >= 0.0
    ensures retryAfter.Some? && retryAfter.value >= 0.0 ==> delay == retryAfter.value
    ensures !(retryAfter.Some? && retryAfter.value >= 0.0) ==>
              && delay <= FALLBACK
              && (0.0 <= fallback <= FALLBACK ==> delay == fallback)
              && (fallback > FALLBACK ==> delay == FALLBACK) && (fallback < 0.0 ==> delay == 0.0)
  {
    if retryAfter.Some? && retryAfter.value >= 0.0 then retryAfter.value
    else Max(0.0, Min(fallback, FALLBACK))
  }

  // The fallback delay of the k-th retry doubles up to the ceiling.
  function Backoff(first: real, k: nat): real {
    if k == 0 then first else Min(Max(2.0 * Backoff(first, k - 1), 1.0), FALLBACK)
  }

  // The wait after the k-th attempt was refused.
  function Wait(first: real, k: nat, reply: Reply): (wait: real)
    requires reply.Limited?
    ensures wait >= 1.0
    ensures reply.retryAfter.Some? ==> wait >= reply.retryAfter.value
  {
    Max(1.0, RetryDelay(reply.retryAfter, Backoff(first, k)))
  }

  function Doubled(first: real, k: nat): real {
    if k == 0 then first else 2.0 * Doubled(first, k - 1)
  }

  // Without a delay from the server the waits double from the first one up to the ceiling;
  // with one, that is the wait.
  lemma {:induction false} WaitsDouble(first: real, k: nat)
    requires 1.0 <= first <= FALLBACK
    ensures Backoff(first, k) == Min(Doubled(first, k), FALLBACK) >= 1.0
    ensures Wait(first, k, Limited(None)) == Min(Doubled(first, k), FALLBACK)
    ensures forall delay | delay >= 1.0 :: Wait(first, k, Limited(Some(delay))) == delay
  {
    if k > 0 {
      WaitsDouble(first, k - 1);
    }
  }

  // A request to the server, the time stored before it at which it became permitted, and the
  // reading of the clock that let it through.
  datatype Attempt = Attempt(permitted: real, compared: real, start: real, end: real, reply: Reply)

  // Every retry follows a refusal, and not before the time the refusal stored, which leaves
  // room for the whole wait.
  predicate Paced(first: real, attempts: seq<Attempt>) {
    && (forall k | 0 <= k < |attempts| ::
          attempts[k].permitted <= attempts[k].start && attempts[k].compared <= attempts[k].start <= attempts[k].end)
    && (forall k | 0 <= k < |attempts| - 1 ::
          && attempts[k].reply.Limited?
          && attempts[k + 1].permitted >= attempts[k].end + Wait(first, k, attempts[k].reply)
          && attempts[k + 1].compared >= attempts[k].end + Wait(first, k, attempts[k].reply))
  }

  // The reading that let the first attempt through was not before the stored time, and after a
  // wait for that time not past the deadline.
  predicate Opens(first: Attempt, stored: real, begin: real, deadline: real, cooled: bool) {
    && first.start >= begin && first.permitted == stored
    && first.compared >= stored && (cooled ==> first.compared < deadline)
  }

  // Every retry was compared with the deadline.
  predicate RetriesBefore(attempts: seq<Attempt>, deadline: real) {
    forall k | 0 < k < |attempts| :: attempts[k].compared < deadline
  }

  lemma {:induction false} StartsAreSpaced(first: real, attempts: seq<Attempt>, k: nat)
    requires Paced(first, attempts) && k < |attempts|
    ensures attempts[k].start >= attempts[0].start + k as real
    ensures k > 0 ==> attempts[k].compared >= attempts[0].start + k as real
  {
    if k > 0 {
      StartsAreSpaced(first, attempts, k - 1);
      assert attempts[k - 1 + 1].compared >= attempts[k - 1].end + Wait(first, k - 1, attempts[k - 1].reply);
    }
  }

  // The number of attempts is bounded by the seconds in the window, whatever is replied.
  lemma AttemptsAreFew(first: real, attempts: seq<Attempt>, begin: real, window: real)
    requires Paced(first, attempts) && RetriesBefore(attempts, begin + window)
    requires attempts != [] ==> attempts[0].start >= begin
    ensures |attempts| > 1 ==> (|attempts| - 1) as real < window
  {
    if attempts != [] {
      StartsAreSpaced(first, attempts, |attempts| - 1);
    }
  }

  // Another attempt may be added once the wait of the last one is over.
  lemma OneMoreAttempt(first: real, attempts: seq<Attempt>, next: Attempt)
    requires Paced(first, attempts) && next.permitted <= next.start && next.compared <= next.start <= next.end
    requires attempts != [] ==>
               var last := attempts[|attempts| - 1];
               && last.reply.Limited?
               && next.permitted >= last.end + Wait(first, |attempts| - 1, last.reply)
               && next.compared >= last.end + Wait(first, |attempts| - 1, last.reply)
    ensures Paced(first, attempts + [next])
    ensures forall deadline | RetriesBefore(attempts, deadline) && (attempts != [] ==> next.compared < deadline) ::
              RetriesBefore(attempts + [next], deadline)
  {
  }

  lemma FirstDelay(first: real)
    ensures Backoff(first, 0) == first
  {
  }

  lemma WaitIsDoubled(first: real, k: nat, reply: Reply)
    requires reply.Limited?
    ensures Wait(first, k, reply) == Max(1.0, RetryDelay(reply.retryAfter, Backoff(first, k))) >= 1.0
    ensures Backoff(first, k + 1) == Min(Max(Backoff(first, k) * 2.0, 1.0), FALLBACK)
  {
  }

  lemma NoAttempts(first: real)
    ensures Paced(first, []) && forall deadline :: RetriesBefore([], deadline)
  {
  }

  class Client {
    var now: real
    var allowedAt: real                // _readback_allowed_at
    var limited: Option<Reply>         // _readback_rate_limit

    constructor (now: real)
      ensures this.now == now && allowedAt == 0.0 && limited == None
    {
      this.now, allowedAt, limited := now, 0.0, None;
    }

    // loop.time(): some time has passed since the last statement.
    method Clock() returns (t: real)
      modifies this`now
      ensures t == now >= old(now)
    {
      var passes: real := *;
      now := now + Max(0.0, passes);
      t := now;
    }

    // asyncio.sleep: at least so long, or cancelled.  A sleep is begun only if, counted from a
    // reading of the clock, it ends by the deadline.
    method Sleep(seconds: real, ghost read: real, ghost deadline: real) returns (o: Outcome<()>)
      requires seconds >= 0.0 && read <= now && read + seconds <= deadline
      modifies this`now
      ensures now >= old(now)
      ensures o == Raised(Cancelled) || (o == Done(()) && now >= old(now) + seconds)
    {
      var passes: real := *;
      var cancelled: bool := *;
      if cancelled {
        now := now + Max(0.0, passes);
        return Raised(Cancelled);
      }
      now := now + Max(seconds, passes);
      return Done(());
    }

    method Fetch() returns (reply: Reply, ghost start: real)
      modifies this`now
      ensures old(now) <= start <= now
    {
      start := Clock();
      var _ := Clock();
      reply := *;
    }

    // A cooldown from an earlier call is waited out first, if it ends by the deadline.
    method CoolDown(deadline: real) returns (o: Outcome<()>, ghost asked: real, ghost waited: bool, ghost last: real)
      modifies this`now
      ensures old(now) <= asked <= last <= now
      ensures o.Done? || o == Raised(RateLimited) || o == Raised(Cancelled)
      ensures waited <==> asked < allowedAt
      ensures o.Done? ==> now >= allowedAt
      ensures !waited ==> o.Done? && last == asked
      ensures waited && o.Done? ==> allowedAt <= last < deadline
      ensures o == Raised(RateLimited) ==> now >= deadline || allowedAt - asked > deadline - now
    {
      var t := Clock();
      asked, waited, last := t, false, t;
      var cooldown := Max(0.0, allowedAt - t);
      if cooldown != 0.0 {
        waited := true;
        t := Clock();
        if cooldown > deadline - t {
          o := Raised(RateLimited);
          return;
        }
        o := Sleep(cooldown, t, deadline);
        if !o.Done? {
          return;
        }
        t := Clock();
        last := t;
        if t >= deadline {
          o := Raised(RateLimited);
          return;
        }
      }
      o := Done(());
    }

    // A refused fetch stores when the next one is permitted, and waits if that is in time.
    method BackOff(deadline: real, wait: real, reply: Reply)
      returns (o: Outcome<()>, ghost read: real, ghost stored: bool)
      requires wait >= 1.0
      modifies this
      ensures old(now) <= read <= now
      ensures o.Done? || o == Raised(RateLimited) || o == Raised(Cancelled)
      ensures if stored then allowedAt == read + wait && limited == Some(reply)
              else allowedAt == old(allowedAt) && limited == old(limited) && read >= deadline
      ensures o.Done? ==> stored && now >= read + wait
      ensures !stored ==> o == Raised(RateLimited)
      ensures old(now) >= deadline ==> !stored
      ensures stored && o == Raised(RateLimited) ==> allowedAt > deadline
    {
      var t := Clock();
      read, stored := t, false;
      var remaining := deadline - t;
      if remaining <= 0.0 {
        return Raised(RateLimited), read, stored;
      }
      t := Clock();
      read, stored := t, true;
      allowedAt, limited := t + wait, Some(reply);
      if wait > remaining {
        return Raised(RateLimited), read, stored;
      }
      o := Sleep(wait, deadline - remaining, deadline);
    }

    // A stored cooldown that was waited out, and every retry, was compared with the deadline
    // before its fetch; only a first fetch without a cooldown is not.
    method FetchRecoverySnapshot(window: real, first: real)
      returns (o: Outcome<Reply>, ghost attempts: seq<Attempt>, ghost deadline: real, ghost cooled: bool,
               ghost asked: real)
      modifies this
      ensures Paced(first, attempts) && RetriesBefore(attempts, deadline)
      ensures deadline - window >= old(now) && old(now) <= asked <= now
      ensures attempts != [] ==> Opens(attempts[0], old(allowedAt), deadline - window, deadline, cooled)
      ensures cooled <==> asked < old(allowedAt)
      ensures |attempts| > 1 ==> (|attempts| - 1) as real < window
      ensures attempts == [] ==> cooled && !o.Done?
      ensures o.Done? <==> attempts != [] && attempts[|attempts| - 1].reply.Snapshot?
      ensures o.Done? ==> o.value == attempts[|attempts| - 1].reply && allowedAt == 0.0 && limited == None
      ensures o == Raised(RateLimited) ==>
                now >= deadline || allowedAt > deadline || (attempts == [] && allowedAt - asked > deadline - now)
    {
      hide Paced, RetriesBefore, RetryDelay, Wait, Backoff, Max, Min;
      var begin := Clock();
      var end := begin + window;
      var delay := first;
      var attempted := false;
      attempts, deadline, cooled, asked := [], end, false, begin;
      NoAttempts(first);
      FirstDelay(first);
      while true
        invariant deadline == end == begin + window && begin >= old(now) && now >= begin && old(now) <= asked <= now
        invariant attempted <==> attempts != []
        invariant Paced(first, attempts) && RetriesBefore(attempts, deadline) && delay == Backoff(first, |attempts|)
        invariant !attempted ==> allowedAt == old(allowedAt) && !cooled
        invariant attempted ==> (cooled <==> asked < old(allowedAt))
        invariant attempted ==> Opens(attempts[0], old(allowedAt), begin, deadline, cooled)
        invariant |attempts| > 1 ==> (|attempts| - 1) as real < window
        invariant attempted ==>
                    var last := attempts[|attempts| - 1];
                    && last.reply.Limited? && now >= last.end + Wait(first, |attempts| - 1, last.reply)
                    && now >= allowedAt >= last.end + Wait(first, |attempts| - 1, last.reply)
        decreases if attempted then 0 else 1, (end - now).Floor
      {
        ghost var compared: real;
        if attempted {
          var t := Clock();
          compared := t;
          if t >= end {
            o := Raised(RateLimited);
            return;
          }
        }
        var cooling: Outcome<()>;
        ghost var read, waited, last;
        cooling, read, waited, last := CoolDown(end);
        if !attempted {
          compared, cooled, asked := last, waited, read;
        }
        if !cooling.Done? {
          o := cooling.PropagateFailure();
          return;
        }
        attempted := true;
        var reply;
        ghost var start;
        reply, start := Fetch();
        OneMoreAttempt(first, attempts, Attempt(allowedAt, compared, start, now, reply));
        attempts := attempts + [Attempt(allowedAt, compared, start, now, reply)];
        AttemptsAreFew(first, attempts, begin, window);
        match reply {
          case Snapshot(_) =>
            allowedAt, limited := 0.0, None;
            o := Done(reply);
            return;
          case Failed =>
            o := Raised(OtherError);
            return;
          case Limited(retryAfter) =>
            WaitIsDoubled(first, |attempts| - 1, reply);
            var wait := Max(1.0, RetryDelay(retryAfter, delay));
            var backed, _, _ := BackOff(end, wait, reply);
            if !backed.Done? {
              o := backed.PropagateFailure();
              return;
            }
            delay := Min(Max(delay * 2.0, 1.0), FALLBACK);
        }
      }
    }
  }

  // With no time left at all, and no cooldown stored, one fetch is made nevertheless.
  method LateFirstFetch() returns (ghost attempts: seq<Attempt>, ghost deadline: real)
    ensures |attempts| == 1 && attempts[0].start >= deadline
  {
    var client := new Client(1.0);
    ghost var o, cooled, asked;
    o, attempts, deadline, cooled, asked := client.FetchRecoverySnapshot(0.0, FALLBACK);
  }
}
