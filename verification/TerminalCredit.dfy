/** Terminal output credit between `secondbox sandbox shell` and its server
    (cmd/secondbox/sandbox_shell_command.go). Frames and grants travel in order
    and take any time; the server sends only within the credit it holds. */
module TerminalCredit {
  import opened Outcome

  function Sum(s: seq<nat>): nat {
    if s == [] then 0 else s[0] + Sum(s[1..])
  }

  lemma {:induction false} SumAppends(s: seq<nat>, x: nat)
    ensures Sum(s + [x]) == Sum(s) + x
  {
    if s != [] {
      SumAppends(s[1..], x);
      assert (s + [x])[1..] == s[1..] + [x];
    }
  }

  /** `shellOutputCredit`: a reported window caps the requested credit. */
  function ShellOutputCredit(requested: int, window: int): int {
    if window > 0 && requested > window then window else requested
  }

  datatype Link = Link(credit: nat, output: seq<nat>, grants: seq<nat>)

  /** Everything granted and not yet granted again. */
  function Outstanding(link: Link, writing: nat): nat {
    link.credit + Sum(link.output) + Sum(link.grants) + writing
  }

  predicate NonEmptyFrames(link: Link) {
    forall i :: 0 <= i < |link.output| ==> link.output[i] > 0
  }

  /** What the server and the network may do at any moment. */
  predicate ServerStep(l: Link, l': Link) {
    || (exists size :: 1 <= size <= l.credit && l' == l.(credit := l.credit - size, output := l.output + [size]))
    || (l.grants != [] && l' == l.(credit := l.credit + l.grants[0], grants := l.grants[1..]))
  }

  lemma ServerConserves(l: Link, l': Link, writing: nat)
    requires ServerStep(l, l') && NonEmptyFrames(l)
    ensures Outstanding(l', writing) == Outstanding(l, writing) && NonEmptyFrames(l')
  {
    if l' == l.(credit := l'.credit, output := l'.output) && |l'.output| == |l.output| + 1 {
      SumAppends(l.output, l'.output[|l.output|]);
    }
  }

  class Session {
    var link: Link
    var writing: nat
    ghost var initial: nat

    /** Conservation: every granted byte is with the server, in flight, or being written. */
    ghost predicate Valid()
      reads this
    {
      Outstanding(link, writing) == initial && NonEmptyFrames(link)
    }

    constructor ()
      ensures Valid() && initial == 0 && link == Link(0, [], []) && writing == 0
    {
      link, writing, initial := Link(0, [], []), 0, 0;
    }

    /** Any number of server steps. */
    method Wait()
      requires Valid()
      modifies this`link
      ensures Valid()
    {
      var steps :| 0 <= steps;
      for i := 0 to steps
        invariant Valid()
      {
        if link.grants != [] || link.credit > 0 {
          ServerCanStep(link);
          var next: Link :| ServerStep(link, next);
          ServerConserves(link, next, writing);
          link := next;
        }
      }
    }

    /** `GrantOutput` refuses anything but a positive amount, and may fail to send. */
    method GrantOutput(bytes: int) returns (ok: bool)
      requires Valid() && (bytes > 0 ==> writing == bytes || (initial == 0 && writing == 0))
      modifies this
      ensures Valid() && (ok ==> bytes > 0)
      ensures initial == (if ok && old(writing) == 0 then bytes else old(initial))
      ensures writing == (if ok then 0 else old(writing))
    {
      if bytes < 1 { return false; }
      var sent: bool := *;
      if !sent { return false; }
      SumAppends(link.grants, bytes);
      if writing == 0 { initial := bytes; }
      link, writing := link.(grants := link.grants + [bytes]), 0;
      return true;
    }

    /** Takes the next frame; the bytes are then being written. */
    method Receive() returns (size: Option<nat>)
      requires Valid() && writing == 0
      modifies this
      ensures Valid() && initial == old(initial)
      ensures size.Some? ==> size.value > 0 && writing == size.value
      ensures size.None? ==> writing == 0
    {
      Wait();
      if link.output == [] { return None; }
      size := Some(link.output[0]);
      writing := link.output[0];
      link := link.(output := link.output[1..]);
    }

    /** The receive, write and grant-again loop over at most `frames` frames. Ended
        early or not, no more is outstanding than the clamped first grant. */
    method Shell(requested: int, window: int, frames: nat) returns (ok: bool)
      requires Valid() && initial == 0 && writing == 0 && requested >= 1
      modifies this
      ensures Valid() && (initial == 0 || initial == ShellOutputCredit(requested, window))
      ensures Outstanding(link, writing) <= requested && (window > 0 ==> Outstanding(link, writing) <= window)
      ensures ok ==> writing == 0 && initial >= 1
    {
      Wait();
      ok := GrantOutput(ShellOutputCredit(requested, window));
      if !ok { return; }
      for i := 0 to frames
        invariant Valid() && initial == ShellOutputCredit(requested, window) && writing == 0 && ok
      {
        var size := Receive();
        if size.Some? {
          Wait();
          var wrote: bool := *;
          if !wrote { return false; }
          Wait();
          ok := GrantOutput(size.value);
          if !ok { return; }
        }
      }
    }
  }

  lemma ServerCanStep(l: Link)
    requires l.grants != [] || l.credit > 0
    ensures exists next :: ServerStep(l, next)
  {
    if l.grants != [] {
      assert ServerStep(l, l.(credit := l.credit + l.grants[0], grants := l.grants[1..]));
    } else {
      assert 1 <= 1 <= l.credit && ServerStep(l, l.(credit := l.credit - 1, output := l.output + [1]));
    }
  }

  // ---- Delivery ----

  /** Both ends of a session: what is in flight and what the client is writing. */
  datatype Ends = Ends(link: Link, writing: nat)

  /** One step in which nothing new is sent: a frame reaches the client, its bytes
      are granted again, or a grant reaches the server. */
  predicate Delivers(e: Ends, e': Ends) {
    || (e.writing == 0 && e.link.output != []
        && e' == Ends(e.link.(output := e.link.output[1..]), e.link.output[0]))
    || (e.writing > 0 && e' == Ends(e.link.(grants := e.link.grants + [e.writing]), 0))
    || (e.link.grants != []
        && e' == e.(link := e.link.(credit := e.link.credit + e.link.grants[0], grants := e.link.grants[1..])))
  }

  /** Deliveries still to come. */
  function Left(e: Ends): nat {
    3 * |e.link.output| + (if e.writing > 0 then 2 else 0) + |e.link.grants|
  }

  predicate Quiet(e: Ends) {
    e.link.output == [] && e.link.grants == [] && e.writing == 0
  }

  lemma DeliveryConserves(e: Ends, e': Ends)
    requires Delivers(e, e') && NonEmptyFrames(e.link)
    ensures Outstanding(e'.link, e'.writing) == Outstanding(e.link, e.writing)
    ensures NonEmptyFrames(e'.link) && Left(e') < Left(e)
  {
    SumAppends(e.link.grants, e.writing);
  }

  /** Only a quiet session has nothing left to deliver. */
  lemma DeliveryPossible(e: Ends)
    ensures Quiet(e) <==> !exists e' :: Delivers(e, e')
  {
    if e.writing > 0 {
      assert Delivers(e, Ends(e.link.(grants := e.link.grants + [e.writing]), 0));
    } else if e.link.output != [] {
      assert Delivers(e, Ends(e.link.(output := e.link.output[1..]), e.link.output[0]));
    } else if e.link.grants != [] {
      assert Delivers(e, e.(link := e.link.(credit := e.link.credit + e.link.grants[0], grants := e.link.grants[1..])));
    }
  }

  predicate IsSchedule(trace: seq<Ends>) {
    |trace| <= 1 || (Delivers(trace[0], trace[1]) && IsSchedule(trace[1..]))
  }

  /** Every schedule of deliveries is finite, and one that went on until the session
      was quiet has returned the full credit to the server. */
  lemma {:induction false} EveryScheduleDrains(trace: seq<Ends>)
    requires trace != [] && NonEmptyFrames(trace[0].link) && IsSchedule(trace)
    ensures |trace| <= Left(trace[0]) + 1
    ensures var last := trace[|trace| - 1];
            Quiet(last) ==> last.link.credit == Outstanding(trace[0].link, trace[0].writing)
  {
    if |trace| > 1 {
      DeliveryConserves(trace[0], trace[1]);
      EveryScheduleDrains(trace[1..]);
    }
  }
}
