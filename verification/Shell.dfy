// The bounded output of guest shells.
module Shell {
  import opened Basics

  // ---------------------------------------------------------------- drain

  function Stream(chunks: seq<seq<Byte>>): seq<Byte> {
    if chunks == [] then [] else Stream(chunks[..|chunks| - 1]) + chunks[|chunks| - 1]
  }

  // Keeps exactly the first bytes up to the limit, and flags exactly a longer stream.
  method Drain(chunks: seq<seq<Byte>>, limit: nat) returns (saved: seq<Byte>, truncated: bool)
    ensures saved == if |Stream(chunks)| <= limit then Stream(chunks) else Stream(chunks)[..limit]
    ensures truncated <==> |Stream(chunks)| > limit
  {
    saved, truncated := [], false;
    var i := 0;
    while i < |chunks|
      invariant 0 <= i <= |chunks|
      invariant var s := Stream(chunks[..i]);
                saved == (if |s| <= limit then s else s[..limit]) && (truncated <==> |s| > limit)
    {
      assert chunks[..i + 1][..i] == chunks[..i];
      var chunk := chunks[i];
      var available := limit - |saved|;
      saved := saved + if |chunk| < available then chunk else chunk[..available];
      truncated := truncated || |chunk| > available;
      i := i + 1;
    }
    assert chunks[..i] == chunks;
  }

  // ---------------------------------------------------------------- the terminal

  // A part of the stream, from its first byte to the one after its last.
  datatype Piece = Piece(start: nat, end: nat)

  // The pieces follow each other and end before the given place.
  predicate Ordered(pieces: seq<Piece>, place: nat) {
    if pieces == [] then true
    else
      var last := pieces[|pieces| - 1];
      last.start <= last.end <= place && Ordered(pieces[..|pieces| - 1], last.start)
  }

  // The bytes before the place that no piece covers.
  function Skipped(pieces: seq<Piece>, place: nat): int {
    if pieces == [] then place
    else
      var last := pieces[|pieces| - 1];
      place - last.end + Skipped(pieces[..|pieces| - 1], last.start)
  }

  function Covered(pieces: seq<Piece>): int {
    if pieces == [] then 0
    else
      var last := pieces[|pieces| - 1];
      last.end - last.start + Covered(pieces[..|pieces| - 1])
  }

  lemma {:induction false} CoveredOrSkipped(pieces: seq<Piece>, place: nat)
    requires Ordered(pieces, place)
    ensures Covered(pieces) + Skipped(pieces, place) == place
    ensures Skipped(pieces, place) >= 0
  {
    if pieces != [] {
      var last := pieces[|pieces| - 1];
      CoveredOrSkipped(pieces[..|pieces| - 1], last.start);
    }
  }

  lemma {:induction false} PiecesAreDisjoint(pieces: seq<Piece>, place: nat, i: nat, j: nat)
    requires Ordered(pieces, place) && i < j < |pieces|
    ensures pieces[i].start <= pieces[i].end <= pieces[j].start <= pieces[j].end <= place
    decreases |pieces|
  {
    var n := |pieces| - 1;
    var last := pieces[n];
    if j < n {
      PiecesAreDisjoint(pieces[..n], last.start, i, j);
    } else if i < n - 1 {
      PiecesAreDisjoint(pieces[..n], last.start, i, n - 1);
    } else {
      assert Ordered(pieces[..n], last.start);
    }
  }

  class Terminal {
    const limit: nat
    var output: seq<Byte>
    var dropped: nat
    ghost var received: seq<Byte>         // everything the shell has written
    ghost var pieces: seq<Piece>          // where each read took its bytes from
    ghost var returned: seq<seq<Byte>>       // what each read returned

    constructor (limit: nat)
      ensures Valid() && this.limit == limit && received == [] && returned == [] && dropped == 0
    {
      this.limit := limit;
      output, dropped := [], 0;
      received, pieces, returned := [], [], [];
    }

    ghost function Start(): int
      reads this
    {
      |received| - |output|
    }

    // The buffer is the end of the stream, reads are pieces of it in order, and what no
    // read and no buffer holds has been counted as dropped.
    ghost predicate Valid()
      reads this
    {
      && |output| <= limit && |output| <= |received| && output == received[Start()..]
      && Ordered(pieces, Start()) && Skipped(pieces, Start()) == dropped
      && |returned| == |pieces|
      && forall i | 0 <= i < |pieces| ::
           && pieces[i].start <= pieces[i].end <= |received|
           && returned[i] == received[pieces[i].start..pieces[i].end]
    }

    // The shell has written a chunk; an empty one means that it is gone.
    method Collect(chunk: seq<Byte>)
      requires Valid()
      modifies this
      ensures Valid() && received == old(received) + chunk
      ensures pieces == old(pieces) && returned == old(returned)
      ensures var all := old(output) + chunk;
              && output == (if |all| <= limit then all else all[|all| - limit..])
              && dropped == old(dropped) + (if |all| <= limit then 0 else |all| - limit)
    {
      if chunk == [] {
        assert received + chunk == received && output + chunk == output;
        return;
      }
      received := received + chunk;
      output := output + chunk;
      if |output| > limit {
        dropped := dropped + |output| - limit;
        output := output[|output| - limit..];
      }
      LaterPlace(pieces, old(Start()), Start());
    }

    method Read(maximum: nat) returns (chunk: seq<Byte>, lost: nat)
      requires Valid()
      modifies this
      ensures Valid() && received == old(received)
      ensures chunk + output == old(output) && |chunk| == (if |old(output)| < maximum then |old(output)| else maximum)
      ensures returned == old(returned) + [chunk] && lost == dropped == old(dropped)
      ensures Covered(pieces) + dropped + |output| == |received|
    {
      var n := if |output| < maximum then |output| else maximum;
      chunk := output[..n];
      pieces := pieces + [Piece(Start(), Start() + n)];
      returned := returned + [chunk];
      output := output[n..];
      lost := dropped;
      assert pieces[..|pieces| - 1] == old(pieces);
      CoveredOrSkipped(pieces, Start());
    }
  }

  lemma LaterPlace(pieces: seq<Piece>, place: nat, later: nat)
    requires Ordered(pieces, place) && place <= later
    ensures Ordered(pieces, later) && Skipped(pieces, later) == Skipped(pieces, place) + later - place
  {
  }

  datatype Action = Collects(chunk: seq<Byte>) | Reads(maximum: nat)

  function Written(actions: seq<Action>): seq<Byte> {
    if actions == [] then []
    else
      Written(actions[..|actions| - 1]) +
      (if actions[|actions| - 1].Collects? then actions[|actions| - 1].chunk else [])
  }

  function Total(returned: seq<seq<Byte>>): nat {
    if returned == [] then 0 else Total(returned[..|returned| - 1]) + |returned[|returned| - 1]|
  }

  // After any interleaving: bytes read, dropped and buffered add up to the bytes written.
  method Session(limit: nat, actions: seq<Action>) returns (terminal: Terminal, returned: seq<seq<Byte>>)
    ensures fresh(terminal) && terminal.Valid()
    ensures terminal.received == Written(actions) && terminal.returned == returned
    ensures Total(returned) + terminal.dropped + |terminal.output| == |Written(actions)|
  {
    terminal := new Terminal(limit);
    returned := [];
    var i := 0;
    while i < |actions|
      invariant 0 <= i <= |actions|
      invariant fresh(terminal) && terminal.Valid()
      invariant terminal.received == Written(actions[..i]) && terminal.returned == returned
      invariant Total(returned) + terminal.dropped + |terminal.output| == |terminal.received|
    {
      assert actions[..i + 1][..i] == actions[..i];
      match actions[i] {
        case Collects(chunk) =>
          terminal.Collect(chunk);
        case Reads(maximum) =>
          var chunk, lost := terminal.Read(maximum);
          returned := returned + [chunk];
          assert returned[..|returned| - 1] + [chunk] == returned;
      }
      i := i + 1;
    }
    assert actions[..i] == actions;
  }
}
