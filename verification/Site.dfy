// Everything that outlives the runner process: the journal directory, the storage service,
// the attempt VMs and the teacher's conversations.
module Site {
  import opened Basics
  import opened Faults
  import opened Conversation
  import opened Storage
  import opened Journal
  import opened Protocol

  class Machines {
    var live: set<Vm>

    constructor ()
      ensures live == {}
    {
      live := {};
    }

    // Creating is idempotent only for a VM made from a template; the default image refuses
    // an attempt that already has a VM.  A failed preparation destroys the VM it made from the
    // default image, unless it was cancelled; a VM made from a template stays for a resume.
    method Prepare(vm: Vm, calm: bool) returns (o: Outcome<()>, ghost made: bool, ghost undone: bool)
      modifies this
      ensures made ==> vm.fingerprint.workstation && vm !in old(live)
      ensures !made ==> live == old(live)
      ensures made && !undone ==> live == old(live) + {vm}
      ensures o.Raised? && made ==> (undone <==> o.exn != Cancelled && !vm.fingerprint.template)
      ensures o.Done? ==> !undone && (vm.fingerprint.workstation && vm !in old(live) ==> made)
      ensures live == old(live) || (vm.fingerprint.workstation && live == old(live) + {vm})
      ensures o.Done? && vm.fingerprint.workstation ==> vm in live
      ensures o.Done? ==> !(vm.fingerprint.workstation && vm in old(live) && !vm.fingerprint.template)
      ensures calm && !(vm.fingerprint.workstation && vm in old(live) && !vm.fingerprint.template) ==> o.Done?
      ensures calm ==> !o.Killed?
      ensures calm && !o.Done? ==> live == old(live)
      ensures o.Raised? ==> !IsStorageError(o.exn)
    {
      made, undone := false, false;
      var _ :- Trouble(calm);
      if !vm.fingerprint.workstation {
        return Done(()), made, undone;
      }
      var existed := vm in live;
      if existed {
        if !vm.fingerprint.template {
          return Raised(Infrastructure), made, undone;
        }
      } else {
        live, made := live + {vm}, true;
      }
      var ready := Trouble(calm);   // activate, health, prepare, seed
      if ready.Raised? && ready.exn != Cancelled && !vm.fingerprint.template && !existed {
        undone := true;
        var destroyed := Trouble(calm);
        if destroyed.Done? {
          live := live - {vm};
        } else if destroyed.Killed? {
          return Killed, made, undone;
        }
      }
      return ready, made, undone;
    }

    method Discover(vm: Vm, calm: bool) returns (o: Outcome<()>)
      ensures o.Done? ==> (vm.fingerprint.workstation ==> vm in live)
      ensures calm && (vm.fingerprint.workstation ==> vm in live) ==> o.Done?
      ensures o.Raised? ==> !IsStorageError(o.exn)
      ensures calm ==> !o.Killed?
    {
      var _ :- Trouble(calm);
      if vm.fingerprint.workstation && vm !in live {
        return Raised(Infrastructure);
      }
      return Done(());
    }

    // Reset and abandon: idempotent, and an exception unless the VM is gone.
    method Destroy(vm: Vm, calm: bool) returns (o: Outcome<()>)
      modifies this
      ensures live == old(live) || live == old(live) - {vm}
      ensures o.Done? && vm.fingerprint.workstation ==> vm !in live
      ensures calm ==> o.Done?
    {
      var _ :- Interrupt(calm);
      if vm.fingerprint.workstation {
        live := live - {vm};
      }
      var _ :- Interrupt(calm);
      return Done(());
    }
  }

  // The teacher's browser and the backend behind it: the prompts sent, the ids their messages
  // were posted under, and the conversations with the one user message each of them holds.
  class Teacher {
    ghost var sends: multiset<Key>
    var posted: map<Key, string>
    var threads: map<string, string>

    constructor ()
      ensures sends == multiset{} && posted == map[] && threads == map[]
    {
      sends, posted, threads := multiset{}, map[], map[];
    }

    // The click may raise before or after the prompt has gone out, under an id of its own.
    method ClickSend(k: Key, calm: bool) returns (o: Outcome<()>, ghost id: string)
      modifies this`sends, this`posted
      ensures id != "" && forall l | l in old(posted) :: old(posted)[l] != id
      ensures if sends == old(sends) then posted == old(posted)
              else sends == old(sends) + multiset{k} && posted == old(posted)[k := id]
      ensures o.Done? ==> sends == old(sends) + multiset{k} && posted == old(posted)[k := id]
      ensures calm ==> o.Done?
    {
      var message: string := *;
      if message == "" || message in posted.Values {
        message := Unused(posted.Values);
      }
      id := message;
      assert forall l | l in posted :: posted[l] in posted.Values;
      var _ :- Interrupt(calm);
      sends, posted := sends + multiset{k}, posted[k := message];
      var _ :- Interrupt(calm);
      return Done(()), id;
    }

    // The id of the message in the request the browser posted.
    method UserMessageId(k: Key, calm: bool) returns (o: Outcome<string>)
      requires k in posted
      ensures o.Done? ==> o.value == posted[k]
      ensures calm ==> o.Done?
    {
      var _ :- Interrupt(calm);
      return Done(posted[k]);
    }

    predicate Shows(conversation: string, message: string)
      reads this`threads
    {
      !IsTransient(conversation) && conversation in threads && threads[conversation] == message
    }

    // The backend opens a conversation for a message sooner or later, under an unused id.
    method Open(message: string, calm: bool)
      modifies this`threads
      ensures forall c | c in old(threads) :: c in threads && threads[c] == old(threads)[c]
      ensures calm ==> exists c :: c in threads && Shows(c, message)
    {
      var opens: bool := *;
      if opens || calm {
        var id: string := *;
        if IsTransient(id) || id in threads {
          id := Unused(threads.Keys);
        }
        threads := threads[id := message];
        assert Shows(id, message);
      }
    }

    // A durable conversation that holds the posted message and no other user message.  The
    // candidates come from the route and from the list of recent conversations.
    method ConversationId(message: string, calm: bool) returns (o: Outcome<string>)
      modifies this`threads
      ensures forall c | c in old(threads) :: c in threads && threads[c] == old(threads)[c]
      ensures o.Done? ==> Shows(o.value, message)
      ensures calm ==> o.Done?
    {
      Open(message, calm);
      var _ :- Interrupt(calm);
      var candidate: string := *;
      if calm {
        candidate :| candidate in threads && Shows(candidate, message);
      }
      if !Shows(candidate, message) {
        return Raised(OtherError);
      }
      return Done(candidate);
    }

    // The durable snapshot of a finished conversation, if it holds the message.
    method Snapshot(conversation: string, message: string, calm: bool) returns (o: Outcome<Captured>)
      ensures o.Done? ==> o.value.conversation == conversation
      ensures o.Done? ==> conversation in threads && threads[conversation] == message
      ensures calm && conversation in threads && threads[conversation] == message ==> o.Done?
    {
      var _ :- Interrupt(calm);
      if conversation !in threads || threads[conversation] != message {
        return Raised(OtherError);
      }
      var messages: seq<Json> := *;
      var metadata: Json := *;
      return Done(Captured(conversation, messages, metadata));
    }

    // Recovery replaces a frontend-local route handle by the durable id.
    method Recover(conversation: string, message: string, calm: bool) returns (o: Outcome<Captured>)
      modifies this`threads
      ensures forall c | c in old(threads) :: c in threads && threads[c] == old(threads)[c]
      ensures o.Done? ==> Shows(o.value.conversation, message)
      ensures o.Done? && !IsTransient(conversation) ==> o.value.conversation == conversation
      ensures calm && (IsTransient(conversation) || old(Shows(conversation, message))) ==> o.Done?
    {
      var id := conversation;
      if IsTransient(id) {
        id :- ConversationId(message, calm);
      }
      o := Snapshot(id, message, calm);
    }
  }

  // A durable id longer than every id taken.
  method Unused(taken: set<string>) returns (id: string)
    ensures !IsTransient(id) && id != "" && id !in taken
  {
    var longest: nat := 0;
    var rest := taken;
    while rest != {}
      invariant rest <= taken
      invariant forall t | t in taken && t !in rest :: |t| <= longest
      decreases |rest|
    {
      var t :| t in rest;
      rest := rest - {t};
      if |t| > longest {
        longest := |t|;
      }
    }
    id := seq(longest + 1, i => 'c');
    PlainIdIsDurable(id);
  }
}
